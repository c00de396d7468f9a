/**
  The order book as two flat queues of resting orders, best price first and oldest first within a price, and matching
  as one pass over the opposite queue.  This is the specification the order book's nested loops are proved against.
  */
module FlatBook {
  import opened MarketTypes

  datatype Book = Book(bids: seq<Resting>, asks: seq<Resting>, nextStamp: nat, nextTrade: nat)

  function EmptyBook(): Book {
    Book([], [], 0, 0)
  }

  // ---------- Matching ----------

  /** A resting order together with the quantity traded against it. */
  datatype Fill = Fill(resting: Resting, qty: int)

  datatype WalkResult = WalkResult(fills: seq<Fill>, rest: seq<Resting>)

  /** May an incoming order trade at a resting price?  Only LIMIT orders look at their own price. */
  predicate Crosses(buy: bool, o: Order, price: real) {
    o.otype != Limit || (if buy then price <= o.price else price >= o.price)
  }

  function Reduced(r: Resting, qty: int): Resting {
    r.(order := r.order.(qty := r.order.qty - qty))
  }

  /** Walk the opposite queue front to back, trading until nothing is wanted, left or acceptable. */
  function Walk(buy: bool, o: Order, opp: seq<Resting>, rem: int): WalkResult {
    if opp == [] || rem <= 0 || !Crosses(buy, o, opp[0].order.price) then WalkResult([], opp)
    else
      var t := Min(rem, opp[0].order.qty);
      var w := Walk(buy, o, opp[1..], rem - t);
      WalkResult([Fill(opp[0], t)] + w.fills, (if opp[0].order.qty == t then [] else [Reduced(opp[0], t)]) + w.rest)
  }

  function FilledQty(fills: seq<Fill>): int {
    if fills == [] then 0 else fills[0].qty + FilledQty(fills[1..])
  }

  function Notional(fills: seq<Fill>): real {
    if fills == [] then 0.0 else fills[0].qty as real * fills[0].resting.order.price + Notional(fills[1..])
  }

  function TradeOf(o: Order, f: Fill, tradeId: nat, ts: nat): MarketEvent {
    TradeEvent(Trade(tradeId, f.resting.order.price, f.qty, o.side, o.id, f.resting.order.id, ts))
  }

  function TradesOf(o: Order, fills: seq<Fill>, tradeId: nat, ts: nat): seq<MarketEvent> {
    seq(|fills|, i requires 0 <= i < |fills| => TradeOf(o, fills[i], tradeId + i, ts))
  }

  // ---------- Resting ----------

  predicate Better(buy: bool, p: real, q: real) {
    if buy then p > q else p < q
  }

  /** Insert behind every order whose price is at least as good. */
  function Insert(buy: bool, s: seq<Resting>, r: Resting): seq<Resting> {
    if s == [] || Better(buy, r.order.price, s[0].order.price) then [r] + s
    else [s[0]] + Insert(buy, s[1..], r)
  }

  /** Remove the order with the given id. */
  function Remove(s: seq<Resting>, id: OrderId): seq<Resting> {
    if s == [] then []
    else if s[0].order.id == id then s[1..]
    else [s[0]] + Remove(s[1..], id)
  }

  predicate Has(s: seq<Resting>, id: OrderId) {
    exists i :: 0 <= i < |s| && s[i].order.id == id
  }

  // ---------- Queries ----------

  /** Total quantity and number of orders resting at a price. */
  function QtyAt(s: seq<Resting>, price: real): int {
    if s == [] then 0 else (if s[0].order.price == price then s[0].order.qty else 0) + QtyAt(s[1..], price)
  }

  function CountAt(s: seq<Resting>, price: real): nat {
    if s == [] then 0 else (if s[0].order.price == price then 1 else 0) + CountAt(s[1..], price)
  }

  function BestPrice(s: seq<Resting>): Option<real> {
    if s == [] then None else Some(s[0].order.price)
  }

  function BestQty(s: seq<Resting>): Option<int> {
    if s == [] then None else Some(QtyAt(s, s[0].order.price))
  }

  function TopOf(b: Book, ts: nat): TopOfBook {
    TopOfBook(BestPrice(b.bids), BestQty(b.bids), BestPrice(b.asks), BestQty(b.asks), ts)
  }

  /** The distinct prices of a queue, in order. */
  function Prices(s: seq<Resting>): seq<real> {
    if s == [] then []
    else if |s| > 1 && s[1].order.price == s[0].order.price then Prices(s[1..])
    else [s[0].order.price] + Prices(s[1..])
  }

  /** One row per price: total quantity and number of orders. */
  function Rows(s: seq<Resting>): seq<DepthLevel> {
    seq(|Prices(s)|, i requires 0 <= i < |Prices(s)| => DepthLevel(Prices(s)[i], QtyAt(s, Prices(s)[i]), CountAt(s, Prices(s)[i])))
  }

  function FirstRows(s: seq<Resting>, levels: nat): seq<DepthLevel> {
    Rows(s)[..Min(levels, |Rows(s)|)]
  }

  function DepthOf(b: Book, levels: nat): BookDepth {
    BookDepth(FirstRows(b.bids, levels), FirstRows(b.asks, levels))
  }

  // ---------- The operations ----------

  datatype Step = Step(book: Book, result: EngineResult, events: seq<MarketEvent>)

  function AvgPrice(fills: seq<Fill>): real {
    if FilledQty(fills) > 0 then Notional(fills) / (FilledQty(fills) as real) else 0.0
  }

  function StatusOf(o: Order, filled: int): OrderStatus {
    if filled == o.qty then Filled
    else if o.otype == Market then Rejected
    else if filled == 0 then Queued
    else Partial
  }

  function SubmitResult(o: Order, fills: seq<Fill>, ts: nat): EngineResult {
    var filled := FilledQty(fills);
    var reason := if StatusOf(o, filled) == Rejected then InsufficientLiquidity(filled, o.qty) else NoReason;
    EngineResult(StatusOf(o, filled), o.id, filled, AvgPrice(fills), ts, reason, false)
  }

  /** Does an order with this much filled leave a remainder in the book? */
  predicate Rests(o: Order, filled: int) {
    filled != o.qty && o.otype != Market
  }

  function SubmitBid(b: Book, o: Order, ts: nat): Step {
    var w := Walk(true, o, b.asks, o.qty);
    var filled := FilledQty(w.fills);
    var b1 := b.(asks := w.rest, nextTrade := b.nextTrade + |w.fills|);
    var b2 :=
      if Rests(o, filled) then
        b1.(bids := Insert(true, b.bids, Resting(b.nextStamp, o.(qty := o.qty - filled))), nextStamp := b.nextStamp + 1)
      else b1;
    Step(b2, SubmitResult(o, w.fills, ts), TradesOf(o, w.fills, b.nextTrade, ts) + [TopEvent(TopOf(b2, ts))])
  }

  function SubmitAsk(b: Book, o: Order, ts: nat): Step {
    var w := Walk(false, o, b.bids, o.qty);
    var filled := FilledQty(w.fills);
    var b1 := b.(bids := w.rest, nextTrade := b.nextTrade + |w.fills|);
    var b2 :=
      if Rests(o, filled) then
        b1.(asks := Insert(false, b.asks, Resting(b.nextStamp, o.(qty := o.qty - filled))), nextStamp := b.nextStamp + 1)
      else b1;
    Step(b2, SubmitResult(o, w.fills, ts), TradesOf(o, w.fills, b.nextTrade, ts) + [TopEvent(TopOf(b2, ts))])
  }

  /** Every side but BID is handled as an ask. */
  function Submit(b: Book, o: Order, ts: nat): Step {
    if o.side == Bid then SubmitBid(b, o, ts) else SubmitAsk(b, o, ts)
  }

  function Cancel(b: Book, id: OrderId, ts: nat): Step {
    if !Has(b.bids, id) && !Has(b.asks, id) then
      Step(b, EngineResult(StatusUnspecified, id, 0, 0.0, ts, OrderNotFound(id), false), [])
    else
      var b' := if Has(b.bids, id) then b.(bids := Remove(b.bids, id)) else b.(asks := Remove(b.asks, id));
      Step(b', EngineResult(StatusUnspecified, id, 0, 0.0, ts, NoReason, true), [TopEvent(TopOf(b', ts))])
  }
}
