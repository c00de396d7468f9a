/** What the answers and events of the book say, told from the trades alone. */
module BookAnswers {
  import opened MarketTypes
  import opened FlatBook
  import opened BookMatching
  import opened BookInvariant
  import opened BookRuns
  import opened BookDepths
  import opened EngineSpec

  // ---------- Sums over events ----------

  /** Total quantity of the trades among the events. */
  function TradedQty(es: seq<MarketEvent>): int {
    if es == [] then 0 else (if es[0].TradeEvent? then es[0].trade.qty else 0) + TradedQty(es[1..])
  }

  /** Total of quantity times price of the trades among the events. */
  function TradedValue(es: seq<MarketEvent>): real {
    if es == [] then 0.0
    else (if es[0].TradeEvent? then es[0].trade.qty as real * es[0].trade.price else 0.0) + TradedValue(es[1..])
  }

  /** Total quantity of the trades at a price. */
  function TradedAt(es: seq<MarketEvent>, price: real): int {
    if es == [] then 0
    else (if es[0].TradeEvent? && es[0].trade.price == price then es[0].trade.qty else 0) + TradedAt(es[1..], price)
  }

  /** Total quantity of the fills at a price. */
  function FilledAt(fills: seq<Fill>, price: real): int {
    if fills == [] then 0
    else (if fills[0].resting.order.price == price then fills[0].qty else 0) + FilledAt(fills[1..], price)
  }

  lemma {:induction false} EventsSum(o: Order, fills: seq<Fill>, tradeId: nat, ts: nat, top: TopOfBook, price: real)
    ensures var es := TradesOf(o, fills, tradeId, ts) + [TopEvent(top)];
      TradedQty(es) == FilledQty(fills) && TradedValue(es) == Notional(fills) && TradedAt(es, price) == FilledAt(fills, price)
  {
    var es := TradesOf(o, fills, tradeId, ts) + [TopEvent(top)];
    if fills == [] {
      assert es[1..] == [];
    } else {
      EventsSum(o, fills[1..], tradeId + 1, ts, top, price);
      assert es[1..] == TradesOf(o, fills[1..], tradeId + 1, ts) + [TopEvent(top)];
    }
  }

  // ---------- Results ----------

  /** The answer to a submit, from its events. */
  ghost predicate SubmitAnswered(o: Order, ts: nat, r: EngineResult, es: seq<MarketEvent>) {
    && r.orderId == o.id && r.ts == ts && !r.cancelOk
    && r.filled == TradedQty(es)
    && (if r.filled > 0 then r.avgPrice * r.filled as real == TradedValue(es) else r.avgPrice == 0.0)
    && (r.status == Filled <==> r.filled == o.qty)
    && (r.status == Rejected <==> o.otype == Market && r.filled != o.qty)
    && (r.status == Queued <==> o.otype != Market && r.filled != o.qty && r.filled == 0)
    && (r.status == Partial <==> o.otype != Market && r.filled != o.qty && r.filled != 0)
    && (if r.status == Rejected then r.reason == InsufficientLiquidity(TradedQty(es), o.qty) else r.reason == NoReason)
  }

  /** The answer to a cancel; `rests` says whether the order was in the book. */
  ghost predicate CancelAnswered(id: OrderId, rests: bool, ts: nat, r: EngineResult) {
    && r.orderId == id && r.ts == ts && r.status == StatusUnspecified && r.filled == 0 && r.avgPrice == 0.0
    && r.cancelOk == rests && r.reason == (if rests then NoReason else OrderNotFound(id))
  }

  /** Every submit is answered with the sums of its own trades, whatever the book holds. */
  lemma SubmitAnswers(b: Book, o: Order, ts: nat)
    ensures var st := Submit(b, o, ts); SubmitAnswered(o, ts, st.result, st.events)
  {
    hide Walk, Insert, FilledQty, Notional, TradedQty, TradedValue, TopOf, TradesOf;
    var buy := o.side == Bid;
    var w := Walk(buy, o, if buy then b.asks else b.bids, o.qty);
    var st := Submit(b, o, ts);
    EventsSum(o, w.fills, b.nextTrade, ts, TopOf(st.book, ts), 0.0);
    if FilledQty(w.fills) > 0 { AverageIsExact(w.fills); }
  }

  lemma CancelAnswers(b: Book, id: OrderId, ts: nat)
    ensures CancelAnswered(id, Has(b.bids, id) || Has(b.asks, id), ts, Cancel(b, id, ts).result)
    ensures var st := Cancel(b, id, ts);
      if Has(b.bids, id) || Has(b.asks, id) then
        |st.events| == 1 && st.events[0].TopEvent? && st.events[0].top.ts == ts && st.events[0].top == TopOf(st.book, ts)
      else st.events == []
  {
    hide Remove, QtyAt, Has;
  }

  /** In every run, every message is answered so. */
  lemma MessageAnswered(ms: seq<Message>, n: nat)
    requires n < |ms|
    ensures var st, b, m := StepOf(ms, n), BookAfter(ms[..n]), ms[n];
      match m.payload
      case SubmitPayload(o) => SubmitAnswered(o, m.ts, st.result, st.events)
      case CancelPayload(id, _) => CancelAnswered(id, Has(b.bids, id) || Has(b.asks, id), m.ts, st.result)
      case NoPayload => st == Step(b, EngineResult(StatusUnspecified, "", 0, 0.0, m.ts, NoReason, false), [])
  {
    hide Submit, Cancel, SubmitAnswered, CancelAnswered, BookAfter, Has;
    match ms[n].payload
    case SubmitPayload(o) => SubmitAnswers(BookAfter(ms[..n]), o, ms[n].ts);
    case CancelPayload(id, _) => CancelAnswers(BookAfter(ms[..n]), id, ms[n].ts);
    case NoPayload =>
  }

  // ---------- Events ----------

  /** The events of a submit: one trade for each of the first orders of the other side, at their prices and with numbers of
      their own, and then the new top. */
  lemma SubmitEvents(b: Book, o: Order, ts: nat)
    requires BookOk(b) && o.qty >= 0
    ensures var st, opp := Submit(b, o, ts), if o.side == Bid then b.asks else b.bids;
      && 1 <= |st.events| <= |opp| + 1
      && st.book.nextTrade == b.nextTrade + |st.events| - 1
      && (forall i :: 0 <= i < |st.events| - 1 ==>
            && st.events[i].TradeEvent?
            && var t := st.events[i].trade;
            && t.tradeId == b.nextTrade + i && t.ts == ts && t.aggressorId == o.id && t.aggressorSide == o.side
            && t.restingId == opp[i].order.id && t.price == opp[i].order.price && 0 < t.qty <= opp[i].order.qty
            && (o.otype == Limit ==> if o.side == Bid then t.price <= o.price else t.price >= o.price))
      && var last := st.events[|st.events| - 1]; last.TopEvent? && last.top.ts == ts && last.top == TopOf(st.book, ts)
  {
    hide Walk, Insert, FilledQty, Notional, QtyAt, SideOk, Uncrossed, DisjointIds;
    var buy := o.side == Bid;
    var opp := if buy then b.asks else b.bids;
    OkPositive(b);
    WalkShape(buy, o, opp, o.qty);
  }

  /** An order that is not filled has taken everything it accepts: a LIMIT order leaves only worse prices, and any other
      order leaves nothing at all on the other side. */
  lemma SubmitExhausts(b: Book, o: Order, ts: nat)
    requires BookOk(b) && o.qty >= 0 && Submit(b, o, ts).result.filled < o.qty
    ensures var st := Submit(b, o, ts);
      if o.side == Bid then forall i :: 0 <= i < |st.book.asks| ==> o.otype == Limit && st.book.asks[i].order.price > o.price
      else forall i :: 0 <= i < |st.book.bids| ==> o.otype == Limit && st.book.bids[i].order.price < o.price
  {
    hide Walk, Insert, FilledQty, Notional, TopOf, TradesOf, UniqueIds, Stamped, Uncrossed, DisjointIds;
    var buy := o.side == Bid;
    var opp := if buy then b.asks else b.bids;
    WalkShape(buy, o, opp, o.qty);
    var w := Walk(buy, o, opp, o.qty);
    var n := |w.fills|;
    assert w.rest == opp[n..];
    forall i | 0 <= i < |w.rest|
      ensures o.otype == Limit && if buy then w.rest[i].order.price > o.price else w.rest[i].order.price < o.price
    {
      assert w.rest[i] == opp[n + i];
      assert i > 0 ==> Before(!buy, opp[n], opp[n + i]);
    }
  }

  lemma OkPositive(b: Book)
    requires BookOk(b)
    ensures Positive(b.bids) && Positive(b.asks)
  {
  }

  // ---------- Depth moves ----------

  lemma {:induction false} WalkDepth(buy: bool, o: Order, opp: seq<Resting>, rem: int, price: real)
    ensures QtyAt(Walk(buy, o, opp, rem).rest, price) + FilledAt(Walk(buy, o, opp, rem).fills, price) == QtyAt(opp, price)
  {
    var w := Walk(buy, o, opp, rem);
    if opp == [] || rem <= 0 || !Crosses(buy, o, opp[0].order.price) {
    } else {
      var t := Min(rem, opp[0].order.qty);
      var w' := Walk(buy, o, opp[1..], rem - t);
      WalkDepth(buy, o, opp[1..], rem - t, price);
      assert w.fills[1..] == w'.fills;
      if opp[0].order.qty == t {
        assert w.rest == w'.rest;
      } else {
        assert w.rest[0] == Reduced(opp[0], t) && w.rest[1..] == w'.rest;
      }
    }
  }

  lemma {:induction false} InsertDepth(buy: bool, s: seq<Resting>, r: Resting, price: real)
    ensures QtyAt(Insert(buy, s, r), price) == QtyAt(s, price) + if r.order.price == price then r.order.qty else 0
    ensures CountAt(Insert(buy, s, r), price) == CountAt(s, price) + if r.order.price == price then 1 else 0
  {
    var t := Insert(buy, s, r);
    if s == [] || Better(buy, r.order.price, s[0].order.price) {
      assert t[1..] == s;
    } else {
      InsertDepth(buy, s[1..], r, price);
      assert t[1..] == Insert(buy, s[1..], r);
    }
  }

  /** Quantity at a price moves exactly by what is traded there and by what comes to rest there. */
  lemma SubmitMovesDepth(b: Book, o: Order, ts: nat, price: real)
    ensures var st := Submit(b, o, ts);
      var rest := if (st.result.status == Queued || st.result.status == Partial) && o.price == price then o.qty - st.result.filled else 0;
      if o.side == Bid then
        && QtyAt(st.book.asks, price) == QtyAt(b.asks, price) - TradedAt(st.events, price)
        && QtyAt(st.book.bids, price) == QtyAt(b.bids, price) + rest
      else
        && QtyAt(st.book.bids, price) == QtyAt(b.bids, price) - TradedAt(st.events, price)
        && QtyAt(st.book.asks, price) == QtyAt(b.asks, price) + rest
  {
    hide Walk, Insert, FilledQty, Notional, QtyAt, CountAt, TradedAt, FilledAt, TopOf, TradesOf;
    var buy := o.side == Bid;
    var opp, own := if buy then b.asks else b.bids, if buy then b.bids else b.asks;
    var w := Walk(buy, o, opp, o.qty);
    var st := Submit(b, o, ts);
    EventsSum(o, w.fills, b.nextTrade, ts, TopOf(st.book, ts), price);
    WalkDepth(buy, o, opp, o.qty, price);
    InsertDepth(buy, own, Resting(b.nextStamp, o.(qty := o.qty - FilledQty(w.fills))), price);
  }

  // ---------- Depth rows ----------

  /** The distinct prices on a side that are better than a given one. */
  function BetterPrices(buy: bool, s: seq<Resting>, price: real): set<real> {
    set i | 0 <= i < |s| && Better(buy, s[i].order.price, price) :: s[i].order.price
  }

  predicate RestsAt(s: seq<Resting>, price: real) {
    exists i :: 0 <= i < |s| && s[i].order.price == price
  }

  lemma {:induction false} PricesAre(s: seq<Resting>, price: real)
    ensures price in Prices(s) <==> RestsAt(s, price)
  {
    if s != [] {
      PricesAre(s[1..], price);
      assert RestsAt(s, price) <==> s[0].order.price == price || RestsAt(s[1..], price) by {
        if RestsAt(s[1..], price) {
          var i :| 0 <= i < |s[1..]| && s[1..][i].order.price == price;
          assert s[i + 1].order.price == price;
        }
        if RestsAt(s, price) {
          var i :| 0 <= i < |s| && s[i].order.price == price;
          assert i > 0 ==> s[1..][i - 1].order.price == price;
        }
      }
      if |s| > 1 && s[1].order.price == s[0].order.price {
        assert s[1..][0].order.price == s[0].order.price;
      }
    }
  }

  lemma {:induction false} SizeOfFirst(ps: seq<real>, n: nat)
    requires n <= |ps| && forall i, j :: 0 <= i < j < |ps| ==> ps[i] != ps[j]
    ensures |set i | 0 <= i < n :: ps[i]| == n
  {
    if n > 0 {
      SizeOfFirst(ps, n - 1);
      var a, b := set i | 0 <= i < n - 1 :: ps[i], set i | 0 <= i < n :: ps[i];
      assert b == a + {ps[n - 1]};
    }
  }

  /** The i-th distinct price has exactly i better ones. */
  lemma BetterThan(buy: bool, s: seq<Resting>, i: nat)
    requires Sorted(buy, s) && i < |Prices(s)|
    ensures |BetterPrices(buy, s, Prices(s)[i])| == i
  {
    hide Prices;
    NotWorse(buy, s);
    PricesSorted(buy, s);
    var ps := Prices(s);
    forall x, y | 0 <= x < y < |ps| ensures ps[x] != ps[y] { assert Better(buy, ps[x], ps[y]); }
    SizeOfFirst(ps, i);
    var first := set j | 0 <= j < i :: ps[j];
    forall p | p in BetterPrices(buy, s, ps[i]) ensures p in first {
      PricesAre(s, p);
      var j :| 0 <= j < |ps| && ps[j] == p;
      assert j > i ==> Better(buy, ps[i], ps[j]);
    }
    forall p | p in first ensures p in BetterPrices(buy, s, ps[i]) {
      var j :| 0 <= j < i && ps[j] == p;
      PricesAre(s, p);
      var k :| 0 <= k < |s| && s[k].order.price == p;
      assert Better(buy, s[k].order.price, ps[i]);
    }
    assert first == BetterPrices(buy, s, ps[i]);
  }

  lemma NotWorse(buy: bool, s: seq<Resting>)
    requires Sorted(buy, s)
    ensures forall i, j :: 0 <= i < j < |s| ==> !Better(buy, s[j].order.price, s[i].order.price)
  {
    forall i, j | 0 <= i < j < |s| ensures !Better(buy, s[j].order.price, s[i].order.price) {
      assert Before(buy, s[i], s[j]);
    }
  }

  predicate HasRow(rows: seq<DepthLevel>, price: real) {
    exists i :: 0 <= i < |rows| && rows[i].price == price
  }

  /** Rows for a side: a price has a row exactly when something rests there and fewer than `k` distinct better prices rest;
      no price has two; and a row carries the quantity and the number of orders at its price. */
  ghost predicate RowsExact(buy: bool, s: seq<Resting>, k: nat, rows: seq<DepthLevel>) {
    && (forall price :: HasRow(rows, price) <==> RestsAt(s, price) && |BetterPrices(buy, s, price)| < k)
    && (forall i, j :: 0 <= i < j < |rows| ==> Better(buy, rows[i].price, rows[j].price))
    && (forall i :: 0 <= i < |rows| ==> rows[i].qty == QtyAt(s, rows[i].price) && rows[i].orders == CountAt(s, rows[i].price))
  }

  lemma RowsAreExact(buy: bool, s: seq<Resting>, k: nat)
    requires Sorted(buy, s)
    ensures RowsExact(buy, s, k, FirstRows(s, k))
  {
    hide Prices, QtyAt, CountAt, Better;
    var rows, ps := FirstRows(s, k), Prices(s);
    NotWorse(buy, s);
    PricesSorted(buy, s);
    forall price ensures HasRow(rows, price) <==> RestsAt(s, price) && |BetterPrices(buy, s, price)| < k {
      PricesAre(s, price);
      if HasRow(rows, price) {
        var i :| 0 <= i < |rows| && rows[i].price == price;
        assert ps[i] == price;
        BetterThan(buy, s, i);
      }
      if RestsAt(s, price) && |BetterPrices(buy, s, price)| < k {
        var i :| 0 <= i < |ps| && ps[i] == price;
        BetterThan(buy, s, i);
        assert rows[i].price == price;
      }
    }
  }

  /** After every run, the depth of k levels is exactly the k best prices of each side. */
  lemma DepthIsExact(ops: seq<Op>, k: nat)
    requires FreshIds(ops) && NonNegative(ops)
    ensures var b := After(ops); var d := DepthOf(b, k);
      RowsExact(true, b.bids, k, d.bids) && RowsExact(false, b.asks, k, d.asks)
  {
    hide BookOk, FirstRows, After, RowsExact;
    RunOk(ops);
    OkSorted(After(ops));
    RowsAreExact(true, After(ops).bids, k);
    RowsAreExact(false, After(ops).asks, k);
  }
}
