/** The gateway's normalizer: telemetry records to wire batches, with a bounded shadow of the resting orders. */
module Normalizers {
  import opened MarketTypes
  import opened FlatBook
  import opened EngineSpec
  import opened BookShadow

  datatype WireSide = WireBid | WireAsk

  datatype WireTrade = WireTrade(id: nat, price: real, qty: int, aggressorSide: WireSide, aggressor: OrderId,
                                 aggressorNode: NodeId, resting: OrderId, restingNode: NodeId)

  datatype WireTop = WireTop(bid: Option<real>, bidQty: int, ask: Option<real>, askQty: int)

  datatype WireOrder = WireOrder(id: OrderId, node: NodeId, side: Option<WireSide>, otype: OrderType, price: real, qty: int,
                                 status: OrderStatus, filled: int, avg: real, reason: Reason, cancelOk: bool)

  datatype WireBatch = WireBatch(at: nat, seqNo: nat, isCancel: bool, order: WireOrder, trades: seq<WireTrade>,
                                 tob: Option<WireTop>, book: Option<BookDepth>)

  // ---------- The insertion-ordered map of resting orders ----------

  datatype Kept = Kept(id: OrderId, node: NodeId, remaining: int)

  const Cap: nat := 50_000

  function IndexOf(m: seq<Kept>, id: OrderId): (k: nat)
    ensures k <= |m| && (k < |m| ==> m[k].id == id)
    ensures forall i :: 0 <= i < k ==> m[i].id != id
  {
    var ids := seq(|m|, i requires 0 <= i < |m| => m[i].id);
    var k := Position(ids, id);
    assert forall i :: 0 <= i < k ==> ids[i] == m[i].id;
    k
  }

  function Put(m: seq<Kept>, e: Kept): seq<Kept> {
    var k := IndexOf(m, e.id);
    if k < |m| then m[k := e] else m + [e]
  }

  function Drop(m: seq<Kept>, id: OrderId): seq<Kept> {
    var k := IndexOf(m, id);
    if k < |m| then m[..k] + m[k + 1..] else m
  }

  /** The effect of one trade. */
  function KeptHit(m: seq<Kept>, id: OrderId, qty: int): seq<Kept> {
    var k := IndexOf(m, id);
    if k == |m| then m
    else if m[k].remaining - qty <= 0 then m[..k] + m[k + 1..]
    else m[k := m[k].(remaining := m[k].remaining - qty)]
  }

  function KeptHitAll(m: seq<Kept>, ts: seq<Trade>): seq<Kept>
    decreases |ts|
  {
    if ts == [] then m else KeptHitAll(KeptHit(m, ts[0].restingId, ts[0].qty), ts[1..])
  }

  /** A new entry; the oldest entry goes when there are too many. */
  function Remember(m: seq<Kept>, e: Kept): seq<Kept> {
    var m' := Put(m, e);
    if |m'| > Cap then m'[1..] else m'
  }

  /** The shadow after one record. */
  function KeptAfter(m: seq<Kept>, r: Record): seq<Kept> {
    var m1 := KeptHitAll(m, TradesIn(r.events));
    if r.isCancel then (if r.result.cancelOk then Drop(m1, r.orderId) else m1)
    else if LeavesOrder(r.result.status) then Remember(m1, Kept(r.orderId, r.nodeId, r.qty - r.result.filled))
    else m1
  }

  // ---------- Wire batches ----------

  function ToWireSide(s: Side): Option<WireSide> {
    match s
    case SideUnspecified => None
    case Bid => Some(WireBid)
    case Ask => Some(WireAsk)
  }

  function NodeFor(m: seq<Kept>, id: OrderId): NodeId {
    var k := IndexOf(m, id);
    if k < |m| then m[k].node else "?"
  }

  function WireTradeOf(m: seq<Kept>, t: Trade, node: NodeId): WireTrade {
    var side := if t.aggressorSide == Ask then WireAsk else WireBid;
    WireTrade(t.tradeId, t.price, t.qty, side, t.aggressorId, node, t.restingId, NodeFor(m, t.restingId))
  }

  /** Trades are attributed one by one, each against the shadow as the earlier ones left it. */
  function WireTrades(m: seq<Kept>, ts: seq<Trade>, node: NodeId): seq<WireTrade>
    decreases |ts|
  {
    if ts == [] then []
    else [WireTradeOf(m, ts[0], node)] + WireTrades(KeptHit(m, ts[0].restingId, ts[0].qty), ts[1..], node)
  }

  function TopIn(es: seq<MarketEvent>): Option<TopOfBook> {
    if es == [] then None
    else if es[|es| - 1].TopEvent? then Some(es[|es| - 1].top)
    else TopIn(es[..|es| - 1])
  }

  function OrZero(v: Option<int>): int {
    if v.Some? then v.value else 0
  }

  function ToWireTop(t: Option<TopOfBook>): Option<WireTop> {
    if t.None? then None
    else Some(WireTop(t.value.bidPrice, OrZero(t.value.bidQty), t.value.askPrice, OrZero(t.value.askQty)))
  }

  /** The batch carries the record: everything but the owners of the resting orders comes straight from it. */
  ghost predicate Carries(b: WireBatch, r: Record) {
    && b.at == r.ts && b.seqNo == r.seqNo && b.isCancel == r.isCancel
    && b.order == WireOrder(r.orderId, r.nodeId, ToWireSide(r.side), r.otype, r.price, r.qty, r.result.status, r.result.filled,
                            r.result.avgPrice, r.result.reason, r.result.cancelOk)
    && b.tob == ToWireTop(TopIn(r.events))
    && CarriesTrades(b.trades, TradesIn(r.events), r.nodeId)
  }

  ghost predicate CarriesTrades(ws: seq<WireTrade>, ts: seq<Trade>, node: NodeId) {
    && |ws| == |ts|
    && forall i :: 0 <= i < |ts| ==>
         && ws[i].id == ts[i].tradeId && ws[i].price == ts[i].price && ws[i].qty == ts[i].qty
         && ws[i].aggressor == ts[i].aggressorId && ws[i].resting == ts[i].restingId && ws[i].aggressorNode == node
         && (ws[i].aggressorSide == WireAsk <==> ts[i].aggressorSide == Ask)
  }

  lemma {:induction false} WireTradesCarry(m: seq<Kept>, ts: seq<Trade>, node: NodeId)
    ensures CarriesTrades(WireTrades(m, ts, node), ts, node)
    decreases |ts|
  {
    if ts != [] { WireTradesCarry(KeptHit(m, ts[0].restingId, ts[0].qty), ts[1..], node); }
  }

  // ---------- Book throttling ----------

  /** What the clients were shown last, next to the normalizer's own throttling state. */
  datatype Screen = Screen(lastBookAt: int, pending: Option<BookDepth>, shown: Option<BookDepth>)

  /** A record (did it trade, its depth, the clock) or the timer that flushes. */
  datatype Call = OnRecord(traded: bool, depth: BookDepth, now: int) | OnFlush

  function ScreenStep(s: Screen, c: Call): Screen {
    match c
    case OnRecord(traded, depth, now) =>
      if traded || now - s.lastBookAt >= 33 then Screen(now, None, Some(depth)) else s.(pending := Some(depth))
    case OnFlush =>
      if s.pending.Some? then Screen(s.lastBookAt, None, s.pending) else s
  }

  function ScreenAfter(cs: seq<Call>): Screen {
    if cs == [] then Screen(0, None, None) else ScreenStep(ScreenAfter(cs[..|cs| - 1]), cs[|cs| - 1])
  }

  lemma OneTrade(m: seq<Kept>, ts: seq<Trade>, i: nat, node: NodeId)
    requires i < |ts|
    ensures var m' := KeptHit(m, ts[i].restingId, ts[i].qty);
      && KeptHitAll(m, ts[i..]) == KeptHitAll(m', ts[i + 1..])
      && WireTrades(m, ts[i..], node) == [WireTradeOf(m, ts[i], node)] + WireTrades(m', ts[i + 1..], node)
  {
    assert ts[i..][1..] == ts[i + 1..];
  }

  lemma NoTradesLeft(m: seq<Kept>, ts: seq<Trade>, node: NodeId)
    requires ts == []
    ensures KeptHitAll(m, ts) == m && WireTrades(m, ts, node) == []
  {
  }

  class Normalizer {
    var resting: seq<Kept>
    var lastBookAt: int
    var pendingBook: Option<BookDepth>
    // The last book handed out, in a batch or by a flush.
    ghost var shown: Option<BookDepth>

    ghost function Throttle(): Screen
      reads this
    {
      Screen(lastBookAt, pendingBook, shown)
    }

    constructor ()
      ensures resting == [] && Throttle() == ScreenAfter([])
    {
      resting, lastBookAt, pendingBook, shown := [], 0, None, None;
    }

    method FlushBook() returns (b: Option<BookDepth>)
      modifies this`pendingBook, this`shown
      ensures b == old(pendingBook) && shown == (if b.Some? then b else old(shown))
      ensures Throttle() == ScreenStep(old(Throttle()), OnFlush)
    {
      b := pendingBook;
      pendingBook := None;
      if b.Some? { shown := b; }
    }

    /** The depth of every record reaches the clients or waits for the next flush; nothing older ever follows it. */
    method Normalize(r: Record, now: int) returns (batch: WireBatch)
      modifies this
      ensures resting == KeptAfter(old(resting), r)
      ensures Carries(batch, r) && batch.trades == WireTrades(old(resting), TradesIn(r.events), r.nodeId)
      ensures Throttle() == ScreenStep(old(Throttle()), OnRecord(batch.trades != [], r.depth, now))
      ensures shown == (if batch.book.Some? then batch.book else old(shown))
      ensures batch.book.Some? <==> pendingBook.None?
    {
      hide IndexOf, KeptHitAll, WireTrades, CarriesTrades, TradesIn, TopIn;
      var ts := TradesOfEvents(r.events);
      var trades: seq<WireTrade> := [];
      var i := 0;
      assert ts[0..] == ts;
      while i < |ts|
        invariant 0 <= i <= |ts|
        invariant KeptHitAll(resting, ts[i..]) == KeptHitAll(old(resting), ts)
        invariant trades + WireTrades(resting, ts[i..], r.nodeId) == WireTrades(old(resting), ts, r.nodeId)
        invariant Throttle() == old(Throttle())
      {
        var t := ts[i];
        OneTrade(resting, ts, i, r.nodeId);
        var k := IndexOf(resting, t.restingId);
        trades := trades + [WireTradeOf(resting, t, r.nodeId)];
        if k < |resting| {
          ghost var before := resting;
          resting := resting[k := resting[k].(remaining := resting[k].remaining - t.qty)];
          assert resting[..k] + resting[k + 1..] == before[..k] + before[k + 1..];
          if resting[k].remaining <= 0 {
            resting := resting[..k] + resting[k + 1..];
          }
        }
        i := i + 1;
      }
      NoTradesLeft(resting, ts[i..], r.nodeId);
      assert trades == WireTrades(old(resting), ts, r.nodeId) && resting == KeptHitAll(old(resting), ts);
      WireTradesCarry(old(resting), ts, r.nodeId);
      if !r.isCancel && LeavesOrder(r.result.status) {
        resting := Put(resting, Kept(r.orderId, r.nodeId, r.qty - r.result.filled));
        if |resting| > Cap {
          resting := resting[1..];
        }
      }
      if r.isCancel && r.result.cancelOk {
        resting := Drop(resting, r.orderId);
      }
      var order := WireOrder(r.orderId, r.nodeId, ToWireSide(r.side), r.otype, r.price, r.qty, r.result.status, r.result.filled,
                             r.result.avgPrice, r.result.reason, r.result.cancelOk);
      batch := WireBatch(r.ts, r.seqNo, r.isCancel, order, trades, ToWireTop(TopIn(r.events)), None);
      if |trades| > 0 || now - lastBookAt >= 33 {
        batch := batch.(book := Some(r.depth));
        lastBookAt := now;
        pendingBook := None;
        shown := batch.book;
      } else {
        pendingBook := Some(r.depth);
      }
    }
  }

  /** The trades of a record, as the telemetry stream lists them. */
  method TradesOfEvents(es: seq<MarketEvent>) returns (ts: seq<Trade>)
    ensures ts == TradesIn(es)
  {
    ts := [];
    for i := 0 to |es|
      invariant ts + TradesIn(es[i..]) == TradesIn(es)
    {
      assert es[i..][1..] == es[i + 1..];
      if es[i].TradeEvent? { ts := ts + [es[i].trade]; }
    }
  }
}
