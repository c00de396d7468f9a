/** Selling is buying in the mirror: swap the sides of the book and negate every price. */
module BookMirror {
  import opened MarketTypes
  import opened FlatBook

  function MirrorSide(side: Side): Side {
    match side
    case Bid => Ask
    case Ask => Bid
    case SideUnspecified => SideUnspecified
  }

  function MirrorOrder(o: Order): Order {
    o.(side := MirrorSide(o.side), price := -o.price)
  }

  function MirrorResting(r: Resting): Resting {
    r.(order := MirrorOrder(r.order))
  }

  function MirrorQueue(s: seq<Resting>): (m: seq<Resting>)
    ensures |m| == |s| && forall i :: 0 <= i < |s| ==> m[i] == MirrorResting(s[i])
  {
    seq(|s|, i requires 0 <= i < |s| => MirrorResting(s[i]))
  }

  function Mirror(b: Book): Book {
    Book(MirrorQueue(b.asks), MirrorQueue(b.bids), b.nextStamp, b.nextTrade)
  }

  function MirrorFills(fills: seq<Fill>): (m: seq<Fill>)
    ensures |m| == |fills| && forall i :: 0 <= i < |fills| ==> m[i] == Fill(MirrorResting(fills[i].resting), fills[i].qty)
  {
    seq(|fills|, i requires 0 <= i < |fills| => Fill(MirrorResting(fills[i].resting), fills[i].qty))
  }

  function Negate(p: Option<real>): Option<real> {
    if p.Some? then Some(-p.value) else None
  }

  function MirrorEvent(e: MarketEvent): MarketEvent {
    match e
    case TradeEvent(t) => TradeEvent(t.(price := -t.price, aggressorSide := MirrorSide(t.aggressorSide)))
    case TopEvent(t) => TopEvent(TopOfBook(Negate(t.askPrice), t.askQty, Negate(t.bidPrice), t.bidQty, t.ts))
  }

  function MirrorEvents(es: seq<MarketEvent>): seq<MarketEvent> {
    seq(|es|, i requires 0 <= i < |es| => MirrorEvent(es[i]))
  }

  function MirrorStep(st: Step): Step {
    Step(Mirror(st.book), st.result.(avgPrice := -st.result.avgPrice), MirrorEvents(st.events))
  }

  lemma MirrorQueueCons(s: seq<Resting>)
    requires s != []
    ensures MirrorQueue(s)[0] == MirrorResting(s[0]) && MirrorQueue(s)[1..] == MirrorQueue(s[1..])
  {
  }

  lemma {:induction false} MirrorWalk(buy: bool, o: Order, opp: seq<Resting>, rem: int)
    ensures Walk(!buy, MirrorOrder(o), MirrorQueue(opp), rem).fills == MirrorFills(Walk(buy, o, opp, rem).fills)
    ensures Walk(!buy, MirrorOrder(o), MirrorQueue(opp), rem).rest == MirrorQueue(Walk(buy, o, opp, rem).rest)
  {
    hide Walk;
    if opp == [] || rem <= 0 || !Crosses(buy, o, opp[0].order.price) {
      MirrorStops(buy, o, opp, rem);
    } else {
      var t := Min(rem, opp[0].order.qty);
      MirrorQueueCons(opp);
      MirrorWalk(buy, o, opp[1..], rem - t);
      MirrorTurn(buy, o, opp, rem);
    }
  }

  lemma MirrorStops(buy: bool, o: Order, opp: seq<Resting>, rem: int)
    requires opp == [] || rem <= 0 || !Crosses(buy, o, opp[0].order.price)
    ensures Walk(!buy, MirrorOrder(o), MirrorQueue(opp), rem) == WalkResult([], MirrorQueue(opp))
    ensures Walk(buy, o, opp, rem) == WalkResult([], opp)
  {
  }

  lemma MirrorTurn(buy: bool, o: Order, opp: seq<Resting>, rem: int)
    requires opp != [] && rem > 0 && Crosses(buy, o, opp[0].order.price)
    requires MirrorQueue(opp)[0] == MirrorResting(opp[0]) && MirrorQueue(opp)[1..] == MirrorQueue(opp[1..])
    requires var t := Min(rem, opp[0].order.qty);
      var w, w' := Walk(buy, o, opp[1..], rem - t), Walk(!buy, MirrorOrder(o), MirrorQueue(opp[1..]), rem - t);
      w'.fills == MirrorFills(w.fills) && w'.rest == MirrorQueue(w.rest)
    ensures Walk(!buy, MirrorOrder(o), MirrorQueue(opp), rem).fills == MirrorFills(Walk(buy, o, opp, rem).fills)
    ensures Walk(!buy, MirrorOrder(o), MirrorQueue(opp), rem).rest == MirrorQueue(Walk(buy, o, opp, rem).rest)
  {
    var x, t := opp[0], Min(rem, opp[0].order.qty);
    var w, w' := Walk(buy, o, opp[1..], rem - t), Walk(!buy, MirrorOrder(o), MirrorQueue(opp[1..]), rem - t);
    WalkTurn(buy, o, opp, rem);
    WalkTurn(!buy, MirrorOrder(o), MirrorQueue(opp), rem);
    MirrorTurnSeqs(x, t, w, w');
  }

  lemma WalkTurn(buy: bool, o: Order, opp: seq<Resting>, rem: int)
    requires opp != [] && rem > 0 && Crosses(buy, o, opp[0].order.price)
    ensures var t := Min(rem, opp[0].order.qty);
      Walk(buy, o, opp, rem) == Turned(opp[0], t, Walk(buy, o, opp[1..], rem - t))
  {
  }

  /** One turn of the walk: a trade of `t` with `x`, then the rest. */
  function Turned(x: Resting, t: int, w: WalkResult): WalkResult {
    WalkResult([Fill(x, t)] + w.fills, (if x.order.qty == t then [] else [Reduced(x, t)]) + w.rest)
  }

  lemma MirrorTurnSeqs(x: Resting, t: int, w: WalkResult, w': WalkResult)
    requires w'.fills == MirrorFills(w.fills) && w'.rest == MirrorQueue(w.rest)
    ensures Turned(MirrorResting(x), t, w').fills == MirrorFills(Turned(x, t, w).fills)
    ensures Turned(MirrorResting(x), t, w').rest == MirrorQueue(Turned(x, t, w).rest)
  {
  }

  lemma {:induction false} MirrorInsert(buy: bool, s: seq<Resting>, r: Resting)
    ensures Insert(!buy, MirrorQueue(s), MirrorResting(r)) == MirrorQueue(Insert(buy, s, r))
  {
    if s != [] && !Better(buy, r.order.price, s[0].order.price) {
      MirrorQueueCons(s);
      MirrorInsert(buy, s[1..], r);
    }
  }

  lemma {:induction false} MirrorTotals(fills: seq<Fill>)
    ensures FilledQty(MirrorFills(fills)) == FilledQty(fills)
    ensures Notional(MirrorFills(fills)) == -Notional(fills)
  {
    if fills != [] {
      MirrorTotals(fills[1..]);
      assert MirrorFills(fills)[1..] == MirrorFills(fills[1..]);
    }
  }

  lemma {:induction false} MirrorQty(s: seq<Resting>, price: real)
    ensures QtyAt(MirrorQueue(s), -price) == QtyAt(s, price)
  {
    if s != [] {
      MirrorQueueCons(s);
      MirrorQty(s[1..], price);
    }
  }

  lemma MirrorTop(b: Book, ts: nat)
    ensures TopEvent(TopOf(Mirror(b), ts)) == MirrorEvent(TopEvent(TopOf(b, ts)))
  {
    if b.bids != [] { MirrorQty(b.bids, b.bids[0].order.price); }
    if b.asks != [] { MirrorQty(b.asks, b.asks[0].order.price); }
  }

  lemma MirrorTwice(b: Book, o: Order)
    ensures Mirror(Mirror(b)) == b && MirrorOrder(MirrorOrder(o)) == o
  {
    assert MirrorQueue(MirrorQueue(b.bids)) == b.bids;
    assert MirrorQueue(MirrorQueue(b.asks)) == b.asks;
  }

  lemma MirrorResult(o: Order, fills: seq<Fill>, ts: nat)
    ensures SubmitResult(MirrorOrder(o), MirrorFills(fills), ts)
         == SubmitResult(o, fills, ts).(avgPrice := -SubmitResult(o, fills, ts).avgPrice)
  {
    MirrorTotals(fills);
    if FilledQty(fills) > 0 {
      assert (-Notional(fills)) / (FilledQty(fills) as real) == -(Notional(fills) / (FilledQty(fills) as real));
    }
  }

  lemma MirrorTrades(o: Order, fills: seq<Fill>, tradeId: nat, ts: nat)
    ensures TradesOf(MirrorOrder(o), MirrorFills(fills), tradeId, ts) == MirrorEvents(TradesOf(o, fills, tradeId, ts))
  {
  }

  /** Submitting an ask is submitting the mirrored bid to the mirrored book, trade numbers and all. */
  lemma AskIsMirroredBid(b: Book, o: Order, ts: nat)
    ensures SubmitAsk(b, o, ts) == MirrorStep(SubmitBid(Mirror(b), MirrorOrder(o), ts))
  {
    hide Walk, Insert, FilledQty, TopOf, TradesOf, SubmitResult;
    MirrorTwice(b, o);
    var b', o' := Mirror(b), MirrorOrder(o);
    var w' := Walk(true, o', b'.asks, o'.qty);
    var st := SubmitBid(b', o', ts);
    MirrorWalk(true, o', b'.asks, o.qty);
    MirrorTotals(w'.fills);
    MirrorResult(o', w'.fills, ts);
    MirrorTrades(o', w'.fills, b.nextTrade, ts);
    var filled := FilledQty(w'.fills);
    var r' := Resting(b.nextStamp, o'.(qty := o'.qty - filled));
    MirrorInsert(true, b'.bids, r');
    assert MirrorResting(r') == Resting(b.nextStamp, o.(qty := o.qty - filled));
    var mirrored := SubmitAsk(b, o, ts);
    assert mirrored.book == Mirror(st.book);
    MirrorTop(st.book, ts);
    assert MirrorEvents(st.events) == mirrored.events;
  }
}
