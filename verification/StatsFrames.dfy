/** What one more frame changes in the statistics. */
module StatsFrames {
  import opened MarketTypes
  import opened BookShadow
  import opened Normalizers
  import opened Stats
  import opened Positions

  /** The figures of a node; a node without a row has none. */
  function OrdersOf(stats: seq<BotStat>, id: NodeId): nat {
    if IndexIn(stats, id) < |stats| then stats[IndexIn(stats, id)].orders else 0
  }

  function CancelsOf(stats: seq<BotStat>, id: NodeId): nat {
    if IndexIn(stats, id) < |stats| then stats[IndexIn(stats, id)].cancels else 0
  }

  function FiguresOf(stats: seq<BotStat>, id: NodeId): Account {
    if IndexIn(stats, id) < |stats| then
      var s := stats[IndexIn(stats, id)];
      Account(s.fills, s.volume, s.position, s.cash)
    else Account(0, 0, 0, 0.0)
  }

  lemma FiguresAre(stats: seq<BotStat>, legs: seq<Leg>, bs: seq<WireBatch>, id: NodeId)
    requires Posted(stats, legs, bs)
    ensures OrdersOf(stats, id) == Submits(bs, id) && CancelsOf(stats, id) == Cancels(bs, id)
    ensures FiguresOf(stats, id) == AccountOf(legs, id)
  {
    hide IndexIn, Submits, Cancels, AccountOf;
    var k := IndexIn(stats, id);
    if k < |stats| {
      assert Row(stats[k], legs, bs);
    } else {
      NoAccount(legs, id);
      NothingSent(bs, id);
    }
  }

  lemma {:induction false} AccountConcat(a: seq<Leg>, b: seq<Leg>, id: NodeId)
    ensures AccountOf(a + b, id) == Plus(AccountOf(a, id), AccountOf(b, id))
  {
    hide AccountOf;
    if b == [] {
      assert a + b == a;
      NoAccount(b, id);
    } else {
      var n := |b| - 1;
      AccountConcat(a, b[..n], id);
      AccountSnoc(a + b[..n], b[n], id);
      AccountSnoc(b[..n], b[n], id);
      assert b == b[..n] + [b[n]] && a + b == a + b[..n] + [b[n]];
    }
  }

  /** What a node gains in a batch: for each trade its quantity with the sign of its side, and the opposite at the price. */
  function Gained(ts: seq<WireTrade>, id: NodeId): Account {
    AccountOf(LegsOf(ts), id)
  }

  lemma {:induction false} OpenUntouched(open: map<OrderId, OpenOrder>, ts: seq<WireTrade>, id: OrderId)
    requires forall i :: 0 <= i < |ts| ==> ts[i].resting != id
    ensures id in OpenHitAll(open, ts) <==> id in open
    ensures id in open ==> OpenHitAll(open, ts)[id] == open[id]
    decreases |ts|
  {
    if ts != [] { OpenUntouched(OpenHit(open, ts[0]), ts[1..], id); }
  }

  /** From `(s1, o1, p1)` to `(s2, o2, p2)` exactly the batch `b` has been counted. */
  ghost predicate CountsBatch(s1: seq<BotStat>, o1: map<OrderId, OpenOrder>, p1: real,
                              s2: seq<BotStat>, o2: map<OrderId, OpenOrder>, p2: real, b: WireBatch) {
    && (forall id {:trigger OrdersOf(s2, id)} {:trigger CancelsOf(s2, id)} {:trigger FiguresOf(s2, id)} ::
          && OrdersOf(s2, id) == OrdersOf(s1, id) + (if b.order.node == id && !b.isCancel then 1 else 0)
          && CancelsOf(s2, id) == CancelsOf(s1, id) + (if b.order.node == id && b.isCancel && b.order.cancelOk then 1 else 0)
          && FiguresOf(s2, id) == Plus(FiguresOf(s1, id), Gained(b.trades, id)))
    && p2 == (if b.trades == [] then p1 else b.trades[|b.trades| - 1].price)
    && (forall id :: id != b.order.id && (forall i :: 0 <= i < |b.trades| ==> b.trades[i].resting != id) ==>
          (id in o1 <==> id in o2) && (id in o1 ==> o1[id] == o2[id]))
    && (b.order.node == Human && !b.isCancel && LeavesOrder(b.order.status) && b.order.side.Some? ==>
          b.order.id in o2 && o2[b.order.id] == OpenOrder(b.order.side.value, b.order.price, b.order.qty - b.order.filled))
    && (b.order.node == Human && b.isCancel && b.order.cancelOk ==> b.order.id !in o2)
  }

  /** From one to the other nothing has been counted. */
  ghost predicate CountsNothing(s1: seq<BotStat>, o1: map<OrderId, OpenOrder>, p1: real,
                                s2: seq<BotStat>, o2: map<OrderId, OpenOrder>, p2: real) {
    && (forall id {:trigger OrdersOf(s2, id)} {:trigger CancelsOf(s2, id)} {:trigger FiguresOf(s2, id)} ::
          OrdersOf(s2, id) == OrdersOf(s1, id) && CancelsOf(s2, id) == CancelsOf(s1, id) && FiguresOf(s2, id) == FiguresOf(s1, id))
    && o2 == o1 && p2 == p1
  }

  lemma BatchCounts(s1: seq<BotStat>, o1: map<OrderId, OpenOrder>, p1: real, s2: seq<BotStat>, o2: map<OrderId, OpenOrder>, p2: real,
                    bs: seq<WireBatch>, b: WireBatch)
    requires Summary(s1, o1, p1, bs) && Summary(s2, o2, p2, bs + [b])
    ensures CountsBatch(s1, o1, p1, s2, o2, p2, b)
  {
    hide IndexIn, Posted, Submits, Cancels, AccountOf, LegsOf, TradesShown, SumOf, SumPnl, OpenHitAll, OrdersOf, CancelsOf, FiguresOf;
    var bs' := bs + [b];
    ShownSnoc(bs, b);
    LegsConcat(TradesShown(bs), b.trades);
    forall id {:trigger OrdersOf(s2, id)} {:trigger CancelsOf(s2, id)} {:trigger FiguresOf(s2, id)}
      ensures OrdersOf(s2, id) == OrdersOf(s1, id) + (if b.order.node == id && !b.isCancel then 1 else 0)
      ensures CancelsOf(s2, id) == CancelsOf(s1, id) + (if b.order.node == id && b.isCancel && b.order.cancelOk then 1 else 0)
      ensures FiguresOf(s2, id) == Plus(FiguresOf(s1, id), Gained(b.trades, id))
    {
      FiguresAre(s1, LegsOf(TradesShown(bs)), bs, id);
      FiguresAre(s2, LegsOf(TradesShown(bs')), bs', id);
      CountSnoc(bs, b, id);
      AccountConcat(LegsOf(TradesShown(bs)), LegsOf(b.trades), id);
    }
    assert bs'[..|bs|] == bs && bs'[|bs|] == b;
    assert o2 == OpenStep(o1, b);
    forall id | id != b.order.id && forall i :: 0 <= i < |b.trades| ==> b.trades[i].resting != id
      ensures (id in o1 <==> id in o2) && (id in o1 ==> o1[id] == o2[id])
    {
      OpenUntouched(o1, b.trades, id);
    }
  }

  lemma SameCounts(s1: seq<BotStat>, o1: map<OrderId, OpenOrder>, p1: real, s2: seq<BotStat>, o2: map<OrderId, OpenOrder>, p2: real,
                   bs: seq<WireBatch>)
    requires Summary(s1, o1, p1, bs) && Summary(s2, o2, p2, bs)
    ensures CountsNothing(s1, o1, p1, s2, o2, p2)
  {
    hide IndexIn, Posted, Submits, Cancels, AccountOf, LegsOf, TradesShown, SumOf, SumPnl, OpenAfter, OrdersOf, CancelsOf, FiguresOf;
    forall id {:trigger OrdersOf(s2, id)} {:trigger CancelsOf(s2, id)} {:trigger FiguresOf(s2, id)}
      ensures OrdersOf(s2, id) == OrdersOf(s1, id) && CancelsOf(s2, id) == CancelsOf(s1, id) && FiguresOf(s2, id) == FiguresOf(s1, id)
    {
      FiguresAre(s1, LegsOf(TradesShown(bs)), bs, id);
      FiguresAre(s2, LegsOf(TradesShown(bs)), bs, id);
    }
  }

  /** Going from `idx` to `idx + 1` counts exactly the frame at `idx + 1`: its batch, or nothing if it is a book frame. */
  lemma OneFrameMore(frames: seq<Frame>, idx: int, s1: seq<BotStat>, o1: map<OrderId, OpenOrder>, p1: real,
                     s2: seq<BotStat>, o2: map<OrderId, OpenOrder>, p2: real)
    requires -1 <= idx < |frames| - 1
    requires Summary(s1, o1, p1, BatchesIn(frames[..idx + 1])) && Summary(s2, o2, p2, BatchesIn(frames[..idx + 2]))
    ensures match frames[idx + 1]
      case BatchFrame(b) => CountsBatch(s1, o1, p1, s2, o2, p2, b)
      case BookFrame(_) => CountsNothing(s1, o1, p1, s2, o2, p2)
  {
    hide Summary, BatchesIn, CountsBatch, CountsNothing;
    var bs := BatchesIn(frames[..idx + 1]);
    NextFrame(frames, idx + 1);
    match frames[idx + 1]
    case BatchFrame(b) => BatchCounts(s1, o1, p1, s2, o2, p2, bs, b);
    case BookFrame(_) => assert bs + [] == bs; SameCounts(s1, o1, p1, s2, o2, p2, bs);
  }

  /** Before the first frame nothing is counted. */
  lemma NoFrame(s: seq<BotStat>, open: map<OrderId, OpenOrder>, price: real, id: NodeId)
    requires Summary(s, open, price, [])
    ensures OrdersOf(s, id) == 0 && CancelsOf(s, id) == 0 && FiguresOf(s, id) == Account(0, 0, 0, 0.0) && open == map[] && price == 0.0
  {
    hide IndexIn;
    FiguresAre(s, LegsOf(TradesShown([])), [], id);
  }
}
