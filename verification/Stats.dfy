/** Positions, cash, profit and the human's open orders, rebuilt from wire frames. */
module Stats {
  import opened MarketTypes
  import opened BookShadow
  import opened Normalizers

  datatype Frame = BookFrame(book: BookDepth) | BatchFrame(batch: WireBatch)

  datatype RosterEntry = RosterEntry(id: NodeId, strategy: string)

  datatype BotStat = BotStat(id: NodeId, strategy: string, orders: nat, cancels: nat, fills: nat, volume: int, position: int,
                             cash: real, pnl: real)

  datatype OpenOrder = OpenOrder(side: WireSide, price: real, remaining: int)

  const Human: NodeId := "human"

  // ---------- Accounts ----------

  /** One side of a trade, booked to one node. */
  datatype Leg = Leg(node: NodeId, qty: int, position: int, cash: real)

  datatype Account = Account(fills: int, volume: int, position: int, cash: real)

  function Plus(a: Account, b: Account): Account {
    Account(a.fills + b.fills, a.volume + b.volume, a.position + b.position, a.cash + b.cash)
  }

  function LegAccount(l: Leg): Account {
    Account(1, l.qty, l.position, l.cash)
  }

  function Signed(t: WireTrade): int {
    if t.aggressorSide == WireBid then t.qty else -t.qty
  }

  function AggressorLeg(t: WireTrade): Leg {
    Leg(t.aggressorNode, t.qty, Signed(t), -(Signed(t) as real * t.price))
  }

  function RestingLeg(t: WireTrade): Leg {
    Leg(t.restingNode, t.qty, -Signed(t), Signed(t) as real * t.price)
  }

  function LegsOf(ts: seq<WireTrade>): seq<Leg> {
    if ts == [] then [] else LegsOf(ts[..|ts| - 1]) + [AggressorLeg(ts[|ts| - 1]), RestingLeg(ts[|ts| - 1])]
  }

  /** The account of one node: the sum of its legs. */
  function AccountOf(legs: seq<Leg>, node: NodeId): Account {
    if legs == [] then Account(0, 0, 0, 0.0)
    else
      var l := legs[|legs| - 1];
      var a := AccountOf(legs[..|legs| - 1], node);
      if l.node == node then Plus(a, LegAccount(l)) else a
  }

  /** All legs together. */
  function Total(legs: seq<Leg>): Account {
    if legs == [] then Account(0, 0, 0, 0.0) else Plus(Total(legs[..|legs| - 1]), LegAccount(legs[|legs| - 1]))
  }

  function TradedQty(ts: seq<WireTrade>): int {
    if ts == [] then 0 else TradedQty(ts[..|ts| - 1]) + ts[|ts| - 1].qty
  }

  // ---------- Frames ----------

  function BatchesIn(fs: seq<Frame>): seq<WireBatch> {
    if fs == [] then []
    else
      var f := fs[|fs| - 1];
      BatchesIn(fs[..|fs| - 1]) + if f.BatchFrame? then [f.batch] else []
  }

  function TradesShown(bs: seq<WireBatch>): seq<WireTrade> {
    if bs == [] then [] else TradesShown(bs[..|bs| - 1]) + bs[|bs| - 1].trades
  }

  /** Submits and successful cancels of a node. */
  function Submits(bs: seq<WireBatch>, node: NodeId): nat {
    if bs == [] then 0
    else
      var b := bs[|bs| - 1];
      Submits(bs[..|bs| - 1], node) + if b.order.node == node && !b.isCancel then 1 else 0
  }

  function Cancels(bs: seq<WireBatch>, node: NodeId): nat {
    if bs == [] then 0
    else
      var b := bs[|bs| - 1];
      Cancels(bs[..|bs| - 1], node) + if b.order.node == node && b.isCancel && b.order.cancelOk then 1 else 0
  }

  function LastPrice(ts: seq<WireTrade>): real {
    if ts == [] then 0.0 else ts[|ts| - 1].price
  }

  // ---------- Open orders ----------

  function OpenHit(open: map<OrderId, OpenOrder>, t: WireTrade): map<OrderId, OpenOrder> {
    if t.resting !in open then open
    else if open[t.resting].remaining - t.qty <= 0 then open - {t.resting}
    else open[t.resting := open[t.resting].(remaining := open[t.resting].remaining - t.qty)]
  }

  function OpenHitAll(open: map<OrderId, OpenOrder>, ts: seq<WireTrade>): map<OrderId, OpenOrder>
    decreases |ts|
  {
    if ts == [] then open else OpenHitAll(OpenHit(open, ts[0]), ts[1..])
  }

  function OpenStep(open: map<OrderId, OpenOrder>, b: WireBatch): map<OrderId, OpenOrder> {
    var o, open1 := b.order, OpenHitAll(open, b.trades);
    if o.node != Human then open1
    else if !b.isCancel && LeavesOrder(o.status) && o.side.Some? then
      open1[o.id := OpenOrder(o.side.value, o.price, o.qty - o.filled)]
    else if b.isCancel && o.cancelOk then open1 - {o.id}
    else open1
  }

  function OpenAfter(bs: seq<WireBatch>): map<OrderId, OpenOrder> {
    if bs == [] then map[] else OpenStep(OpenAfter(bs[..|bs| - 1]), bs[|bs| - 1])
  }

  // ---------- The table of nodes ----------

  function IndexIn(stats: seq<BotStat>, id: NodeId): (k: nat)
    ensures k <= |stats| && (k < |stats| ==> stats[k].id == id)
    ensures forall i :: 0 <= i < k ==> stats[i].id != id
  {
    var k := Position(IdsOf(stats), id);
    assert forall i :: 0 <= i < k ==> IdsOf(stats)[i] == stats[i].id;
    k
  }

  ghost predicate Rows(stats: seq<BotStat>, legs: seq<Leg>, bs: seq<WireBatch>) {
    forall k :: 0 <= k < |stats| ==> Row(stats[k], legs, bs)
  }

  /** A row of the table is the account of its node. */
  ghost predicate Row(s: BotStat, legs: seq<Leg>, bs: seq<WireBatch>) {
    && Account(s.fills, s.volume, s.position, s.cash) == AccountOf(legs, s.id)
    && s.orders == Submits(bs, s.id) && s.cancels == Cancels(bs, s.id)
  }

  ghost predicate OneRowEach(stats: seq<BotStat>) {
    forall i, j :: 0 <= i < j < |stats| ==> stats[i].id != stats[j].id
  }

  /** Every node that traded or sent something has a row. */
  ghost predicate Complete(stats: seq<BotStat>, legs: seq<Leg>, bs: seq<WireBatch>) {
    && (forall i :: 0 <= i < |legs| ==> IndexIn(stats, legs[i].node) < |stats|)
    && (forall i :: 0 <= i < |bs| ==> IndexIn(stats, bs[i].order.node) < |stats|)
  }

  ghost predicate Posted(stats: seq<BotStat>, legs: seq<Leg>, bs: seq<WireBatch>) {
    OneRowEach(stats) && Rows(stats, legs, bs) && Complete(stats, legs, bs)
  }

  /** The strategy shown for a node. */
  function StrategyOf(roster: seq<RosterEntry>, id: NodeId): (s: string)
    ensures forall i :: 0 <= i < |roster| && roster[i].id == id && (forall j :: 0 <= j < i ==> roster[j].id != id) ==> s == roster[i].strategy
    ensures (forall i :: 0 <= i < |roster| ==> roster[i].id != id) ==> s == if id == Human then "you" else id
  {
    if roster == [] then (if id == Human then "you" else id)
    else if roster[0].id == id then roster[0].strategy
    else StrategyOf(roster[1..], id)
  }

  function NewStat(roster: seq<RosterEntry>, id: NodeId): BotStat {
    BotStat(id, StrategyOf(roster, id), 0, 0, 0, 0, 0, 0.0, 0.0)
  }

  /** Every row shows the strategy the roster gives its node; a node outside the roster shows its own name, and the
      human shows as "you". */
  ghost predicate Named(stats: seq<BotStat>, roster: seq<RosterEntry>) {
    forall k :: 0 <= k < |stats| ==> stats[k].strategy == StrategyOf(roster, stats[k].id)
  }

  lemma {:induction false} NoAccount(legs: seq<Leg>, id: NodeId)
    requires forall i :: 0 <= i < |legs| ==> legs[i].node != id
    ensures AccountOf(legs, id) == Account(0, 0, 0, 0.0)
  {
    if legs != [] { NoAccount(legs[..|legs| - 1], id); }
  }

  lemma {:induction false} NothingSent(bs: seq<WireBatch>, id: NodeId)
    requires forall i :: 0 <= i < |bs| ==> bs[i].order.node != id
    ensures Submits(bs, id) == 0 && Cancels(bs, id) == 0
  {
    if bs != [] { NothingSent(bs[..|bs| - 1], id); }
  }

  lemma StaysIndexed(stats: seq<BotStat>, s: BotStat, id: NodeId)
    requires IndexIn(stats, id) < |stats|
    ensures IndexIn(stats + [s], id) < |stats| + 1
  {
    hide IndexIn;
    assert (stats + [s])[IndexIn(stats, id)].id == id;
  }

  /** get(id): the table gains a row of zeros when the node is new, and stays right. */
  lemma AddRow(stats: seq<BotStat>, legs: seq<Leg>, bs: seq<WireBatch>, roster: seq<RosterEntry>, id: NodeId)
    requires Posted(stats, legs, bs) && IndexIn(stats, id) == |stats|
    ensures Posted(stats + [NewStat(roster, id)], legs, bs) && IndexIn(stats + [NewStat(roster, id)], id) == |stats|
  {
    hide IndexIn, AccountOf, Submits, Cancels, StrategyOf;
    var stats' := stats + [NewStat(roster, id)];
    NoAccount(legs, id);
    NothingSent(bs, id);
    assert stats'[|stats|].id == id;
    forall i | 0 <= i < |legs| ensures IndexIn(stats', legs[i].node) < |stats'| { StaysIndexed(stats, NewStat(roster, id), legs[i].node); }
    forall i | 0 <= i < |bs| ensures IndexIn(stats', bs[i].order.node) < |stats'| { StaysIndexed(stats, NewStat(roster, id), bs[i].order.node); }
  }

  lemma SameIndex(stats: seq<BotStat>, k: nat, s: BotStat, id: NodeId)
    requires k < |stats| && s.id == stats[k].id && IndexIn(stats, id) < |stats|
    ensures IndexIn(stats[k := s], id) < |stats|
  {
    hide IndexIn;
    var j := IndexIn(stats, id);
    assert stats[k := s][j].id == id;
  }

  lemma SameIndices(stats: seq<BotStat>, k: nat, s: BotStat, legs: seq<Leg>, bs: seq<WireBatch>)
    requires k < |stats| && s.id == stats[k].id && Complete(stats, legs, bs)
    ensures Complete(stats[k := s], legs, bs)
  {
    hide IndexIn;
    forall i | 0 <= i < |legs| ensures IndexIn(stats[k := s], legs[i].node) < |stats| { SameIndex(stats, k, s, legs[i].node); }
    forall i | 0 <= i < |bs| ensures IndexIn(stats[k := s], bs[i].order.node) < |stats| { SameIndex(stats, k, s, bs[i].order.node); }
  }

  function Credit(s: BotStat, l: Leg): BotStat {
    s.(fills := s.fills + 1, volume := s.volume + l.qty, position := s.position + l.position, cash := s.cash + l.cash)
  }

  /** Booking one leg to the row of its node. */
  lemma CreditRow(stats: seq<BotStat>, legs: seq<Leg>, bs: seq<WireBatch>, l: Leg)
    requires Posted(stats, legs, bs) && IndexIn(stats, l.node) < |stats|
    ensures var k := IndexIn(stats, l.node); Posted(stats[k := Credit(stats[k], l)], legs + [l], bs)
  {
    hide IndexIn, Submits, Cancels, AccountOf;
    var k := IndexIn(stats, l.node);
    var stats', legs' := stats[k := Credit(stats[k], l)], legs + [l];
    SameIndices(stats, k, Credit(stats[k], l), legs, bs);
    SameIndex(stats, k, Credit(stats[k], l), l.node);
    forall j | 0 <= j < |stats'| ensures Row(stats'[j], legs', bs) {
      assert Row(stats[j], legs, bs);
      AccountSnoc(legs, l, stats[j].id);
      assert j < k ==> stats[j].id != stats[k].id;
    }
  }

  lemma AccountSnoc(legs: seq<Leg>, l: Leg, id: NodeId)
    ensures AccountOf(legs + [l], id) == if l.node == id then Plus(AccountOf(legs, id), LegAccount(l)) else AccountOf(legs, id)
  {
    assert (legs + [l])[..|legs|] == legs;
  }

  /** Counting one batch in the row of its sender. */
  lemma CountRow(stats: seq<BotStat>, legs: seq<Leg>, bs: seq<WireBatch>, b: WireBatch)
    requires Posted(stats, legs, bs) && IndexIn(stats, b.order.node) < |stats|
    ensures var k := IndexIn(stats, b.order.node); Posted(stats[k := Counted(stats[k], b)], legs, bs + [b])
  {
    hide IndexIn, AccountOf, Submits, Cancels;
    var k := IndexIn(stats, b.order.node);
    var stats', bs' := stats[k := Counted(stats[k], b)], bs + [b];
    SameIndices(stats, k, Counted(stats[k], b), legs, bs);
    SameIndex(stats, k, Counted(stats[k], b), b.order.node);
    forall j | 0 <= j < |stats'| ensures Row(stats'[j], legs, bs') {
      assert Row(stats[j], legs, bs);
      CountSnoc(bs, b, stats[j].id);
      assert j < k ==> stats[j].id != stats[k].id;
    }
  }

  function Counted(s: BotStat, b: WireBatch): BotStat {
    if !b.isCancel then s.(orders := s.orders + 1)
    else if b.order.cancelOk then s.(cancels := s.cancels + 1)
    else s
  }

  lemma CountSnoc(bs: seq<WireBatch>, b: WireBatch, id: NodeId)
    ensures Submits(bs + [b], id) == Submits(bs, id) + if b.order.node == id && !b.isCancel then 1 else 0
    ensures Cancels(bs + [b], id) == Cancels(bs, id) + if b.order.node == id && b.isCancel && b.order.cancelOk then 1 else 0
  {
    assert (bs + [b])[..|bs|] == bs;
  }

  // ---------- Sums over the table ----------

  /** The columns of the table, summed. */
  function SumOf(stats: seq<BotStat>): Account {
    if stats == [] then Account(0, 0, 0, 0.0)
    else
      var s := stats[|stats| - 1];
      Plus(SumOf(stats[..|stats| - 1]), Account(s.fills, s.volume, s.position, s.cash))
  }

  function SumPnl(stats: seq<BotStat>): real {
    if stats == [] then 0.0 else SumPnl(stats[..|stats| - 1]) + stats[|stats| - 1].pnl
  }

  function AccountsOf(ids: seq<NodeId>, legs: seq<Leg>): Account {
    if ids == [] then Account(0, 0, 0, 0.0)
    else Plus(AccountsOf(ids[..|ids| - 1], legs), AccountOf(legs, ids[|ids| - 1]))
  }

  /** One more leg is counted once, by the one row of its node. */
  lemma {:induction false} AccountsSnoc(ids: seq<NodeId>, legs: seq<Leg>, l: Leg)
    requires forall i, j :: 0 <= i < j < |ids| ==> ids[i] != ids[j]
    ensures AccountsOf(ids, legs + [l]) == if l.node in ids then Plus(AccountsOf(ids, legs), LegAccount(l)) else AccountsOf(ids, legs)
  {
    hide AccountOf;
    if ids != [] {
      var n := |ids| - 1;
      AccountsSnoc(ids[..n], legs, l);
      AccountSnoc(legs, l, ids[n]);
      assert ids == ids[..n] + [ids[n]];
    }
  }

  lemma {:induction false} AccountsNone(ids: seq<NodeId>)
    ensures AccountsOf(ids, []) == Account(0, 0, 0, 0.0)
  {
    if ids != [] { AccountsNone(ids[..|ids| - 1]); }
  }

  /** The rows of distinct nodes that cover all legs add up to all legs. */
  lemma {:induction false} RowsAddUp(ids: seq<NodeId>, legs: seq<Leg>)
    requires forall i, j :: 0 <= i < j < |ids| ==> ids[i] != ids[j]
    requires forall i :: 0 <= i < |legs| ==> legs[i].node in ids
    ensures AccountsOf(ids, legs) == Total(legs)
  {
    hide AccountsOf;
    if legs == [] {
      AccountsNone(ids);
    } else {
      var n := |legs| - 1;
      RowsAddUp(ids, legs[..n]);
      AccountsSnoc(ids, legs[..n], legs[n]);
      assert legs == legs[..n] + [legs[n]];
    }
  }

  /** The two legs of a trade cancel. */
  lemma {:induction false} LegsCancel(ts: seq<WireTrade>)
    ensures Total(LegsOf(ts)) == Account(2 * |ts|, 2 * TradedQty(ts), 0, 0.0)
  {
    if ts != [] {
      var n := |ts| - 1;
      LegsCancel(ts[..n]);
      var legs, a, r := LegsOf(ts[..n]), AggressorLeg(ts[n]), RestingLeg(ts[n]);
      TotalTwo(legs, a, r);
      TwoLegs(ts[n]);
    }
  }

  lemma TwoLegs(t: WireTrade)
    ensures Plus(LegAccount(AggressorLeg(t)), LegAccount(RestingLeg(t))) == Account(2, 2 * t.qty, 0, 0.0)
  {
  }

  lemma TotalTwo(legs: seq<Leg>, a: Leg, b: Leg)
    ensures Total(legs + [a, b]) == Plus(Total(legs), Plus(LegAccount(a), LegAccount(b)))
  {
    var l := legs + [a, b];
    assert l[..|l| - 1] == legs + [a];
    assert (legs + [a])[..|legs|] == legs;
  }

  lemma {:induction false} SumIsAccounts(stats: seq<BotStat>, legs: seq<Leg>, bs: seq<WireBatch>)
    requires Rows(stats, legs, bs)
    ensures SumOf(stats) == AccountsOf(IdsOf(stats), legs)
  {
    hide AccountOf, Submits, Cancels;
    if stats != [] {
      var n := |stats| - 1;
      SumIsAccounts(stats[..n], legs, bs);
      assert IdsOf(stats)[..n] == IdsOf(stats[..n]);
      assert Row(stats[n], legs, bs);
    }
  }

  function IdsOf(stats: seq<BotStat>): (ids: seq<NodeId>)
    ensures |ids| == |stats|
  {
    seq(|stats|, i requires 0 <= i < |stats| => stats[i].id)
  }

  /** Whatever was traded, by whomever and with whomever, positions and cash add up to nothing and volumes to twice the
      quantity traded. */
  lemma ColumnsBalance(stats: seq<BotStat>, ts: seq<WireTrade>, bs: seq<WireBatch>)
    requires Posted(stats, LegsOf(ts), bs)
    ensures SumOf(stats) == Account(2 * |ts|, 2 * TradedQty(ts), 0, 0.0)
  {
    hide IndexIn, AccountOf, AccountsOf, LegsOf, Total, Rows, SumOf;
    var legs, ids := LegsOf(ts), IdsOf(stats);
    SumIsAccounts(stats, legs, bs);
    forall i | 0 <= i < |legs| ensures legs[i].node in ids {
      assert ids[IndexIn(stats, legs[i].node)] == legs[i].node;
    }
    RowsAddUp(ids, legs);
    LegsCancel(ts);
  }

  lemma {:induction false} PnlSums(stats: seq<BotStat>, lastPrice: real)
    requires forall k :: 0 <= k < |stats| ==> stats[k].pnl == stats[k].cash + stats[k].position as real * lastPrice
    ensures SumPnl(stats) == SumOf(stats).cash + SumOf(stats).position as real * lastPrice
  {
    hide SumOf;
    SumStep(stats);
    if stats != [] {
      var n := |stats| - 1;
      PnlSums(stats[..n], lastPrice);
      PnlAdds(SumOf(stats[..n]).cash, stats[n].cash, SumOf(stats[..n]).position, stats[n].position, lastPrice);
    }
  }

  lemma SumStep(stats: seq<BotStat>)
    ensures stats == [] ==> SumOf(stats).cash == 0.0 && SumOf(stats).position == 0
    ensures stats != [] ==>
      var n := |stats| - 1;
      SumOf(stats).cash == SumOf(stats[..n]).cash + stats[n].cash && SumOf(stats).position == SumOf(stats[..n]).position + stats[n].position
  {
  }

  lemma PnlAdds(c: real, d: real, a: int, b: int, p: real)
    ensures (c + a as real * p) + (d + b as real * p) == (c + d) + (a + b) as real * p
  {
    assert (a + b) as real == a as real + b as real;
  }

  // ---------- computeStats ----------

  /** The results of computeStats, after the batches `bs`: each row is the account of its node, positions, cash and profits
      add up to zero over all nodes, and volumes to twice the traded quantity. */
  ghost predicate Summary(stats: seq<BotStat>, open: map<OrderId, OpenOrder>, lastPrice: real, bs: seq<WireBatch>) {
    var ts := TradesShown(bs);
    && Posted(stats, LegsOf(ts), bs)
    && SumOf(stats) == Account(2 * |ts|, 2 * TradedQty(ts), 0, 0.0)
    && SumPnl(stats) == 0.0
    && open == OpenAfter(bs) && lastPrice == LastPrice(ts)
    && forall k :: 0 <= k < |stats| ==> stats[k].pnl == stats[k].cash + stats[k].position as real * lastPrice
  }

  method Get(stats: seq<BotStat>, roster: seq<RosterEntry>, id: NodeId, ghost legs: seq<Leg>, ghost bs: seq<WireBatch>)
    returns (stats': seq<BotStat>, k: nat)
    requires Posted(stats, legs, bs) && Named(stats, roster)
    ensures Posted(stats', legs, bs) && k == IndexIn(stats', id) && k < |stats'| && Named(stats', roster)
    ensures Grows(stats, stats')
  {
    hide Posted;
    stats' := stats;
    k := IndexIn(stats, id);
    if k == |stats| {
      AddRow(stats, legs, bs, roster, id);
      stats' := stats + [NewStat(roster, id)];
    }
  }

  /** Both sides of a trade; a self-trade books two legs to one row. */
  method BookTrade(stats: seq<BotStat>, roster: seq<RosterEntry>, t: WireTrade, ghost ts: seq<WireTrade>, ghost bs: seq<WireBatch>)
    returns (stats': seq<BotStat>)
    requires Posted(stats, LegsOf(ts), bs) && Named(stats, roster)
    ensures Posted(stats', LegsOf(ts + [t]), bs) && Grows(stats, stats') && Named(stats', roster)
  {
    hide Posted, IndexIn;
    ghost var legs := LegsOf(ts);
    assert (ts + [t])[..|ts|] == ts;
    assert LegsOf(ts + [t]) == legs + [AggressorLeg(t)] + [RestingLeg(t)];
    var k;
    stats', k := Get(stats, roster, t.aggressorNode, legs, bs);
    CreditRow(stats', legs, bs, AggressorLeg(t));
    stats' := stats'[k := Credit(stats'[k], AggressorLeg(t))];
    stats', k := Get(stats', roster, t.restingNode, legs + [AggressorLeg(t)], bs);
    CreditRow(stats', legs + [AggressorLeg(t)], bs, RestingLeg(t));
    stats' := stats'[k := Credit(stats'[k], RestingLeg(t))];
  }

  /** One batch: its sender is counted, its trades are booked, and the human's open orders follow. */
  method BookBatch(stats: seq<BotStat>, roster: seq<RosterEntry>, open: map<OrderId, OpenOrder>, lastPrice: real, b: WireBatch,
                   ghost bs: seq<WireBatch>)
    returns (stats': seq<BotStat>, open': map<OrderId, OpenOrder>, lastPrice': real)
    requires Posted(stats, LegsOf(TradesShown(bs)), bs) && Named(stats, roster) && lastPrice == LastPrice(TradesShown(bs))
    ensures Posted(stats', LegsOf(TradesShown(bs + [b])), bs + [b]) && lastPrice' == LastPrice(TradesShown(bs + [b]))
    ensures open' == OpenStep(open, b) && Grows(stats, stats') && Named(stats', roster)
  {
    hide Posted, LegsOf, IndexIn, OpenHitAll, TradesShown;
    ghost var before, bs' := TradesShown(bs), bs + [b];
    ShownSnoc(bs, b);
    var k;
    stats', k := Get(stats, roster, b.order.node, LegsOf(before), bs);
    CountRow(stats', LegsOf(before), bs, b);
    stats' := stats'[k := Counted(stats'[k], b)];
    open', lastPrice' := open, lastPrice;
    assert before + b.trades[..0] == before && b.trades[0..] == b.trades;
    for i := 0 to |b.trades|
      invariant Grows(stats, stats') && Named(stats', roster)
      invariant Posted(stats', LegsOf(before + b.trades[..i]), bs') && lastPrice' == LastPrice(before + b.trades[..i])
      invariant OpenHitAll(open', b.trades[i..]) == OpenHitAll(open, b.trades)
    {
      var t := b.trades[i];
      OneOpenHit(open', b.trades, i);
      assert before + b.trades[..i] + [t] == before + b.trades[..i + 1];
      lastPrice' := t.price;
      stats' := BookTrade(stats', roster, t, before + b.trades[..i], bs');
      if t.resting in open' {
        var left := open'[t.resting].remaining - t.qty;
        open' := if left <= 0 then open' - {t.resting} else open'[t.resting := open'[t.resting].(remaining := left)];
      }
    }
    assert b.trades[..|b.trades|] == b.trades;
    NoOpenHit(open', b.trades[|b.trades|..]);
    var o := b.order;
    if o.node == Human {
      if !b.isCancel && LeavesOrder(o.status) && o.side.Some? {
        open' := open'[o.id := OpenOrder(o.side.value, o.price, o.qty - o.filled)];
      } else if b.isCancel && o.cancelOk {
        open' := open' - {o.id};
      }
    }
  }

  lemma ShownSnoc(bs: seq<WireBatch>, b: WireBatch)
    ensures TradesShown(bs + [b]) == TradesShown(bs) + b.trades
  {
    assert (bs + [b])[..|bs|] == bs;
  }

  lemma OneOpenHit(open: map<OrderId, OpenOrder>, ts: seq<WireTrade>, i: nat)
    requires i < |ts|
    ensures OpenHitAll(open, ts[i..]) == OpenHitAll(OpenHit(open, ts[i]), ts[i + 1..])
  {
    assert ts[i..][1..] == ts[i + 1..];
  }

  lemma NoOpenHit(open: map<OrderId, OpenOrder>, ts: seq<WireTrade>)
    requires ts == []
    ensures OpenHitAll(open, ts) == open
  {
  }

  lemma NothingPosted()
    ensures Posted([], [], []) && LegsOf(TradesShown([])) == []
  {
  }

  /** The profit column changes nothing else. */
  ghost predicate OnlyPnl(stats: seq<BotStat>, stats': seq<BotStat>) {
    |stats'| == |stats| && forall k :: 0 <= k < |stats| ==> stats'[k] == stats[k].(pnl := stats'[k].pnl)
  }

  lemma PnlKeepsRows(stats: seq<BotStat>, stats': seq<BotStat>, legs: seq<Leg>, bs: seq<WireBatch>)
    requires Posted(stats, legs, bs) && OnlyPnl(stats, stats')
    ensures Posted(stats', legs, bs)
  {
    hide IndexIn, AccountOf, Submits, Cancels;
    forall k | 0 <= k < |stats'| ensures Row(stats'[k], legs, bs) { assert Row(stats[k], legs, bs); }
    forall i | 0 <= i < |legs| ensures IndexIn(stats', legs[i].node) < |stats'| { assert stats'[IndexIn(stats, legs[i].node)].id == legs[i].node; }
    forall i | 0 <= i < |bs| ensures IndexIn(stats', bs[i].order.node) < |stats'| { assert stats'[IndexIn(stats, bs[i].order.node)].id == bs[i].order.node; }
  }

  /** The last loop of computeStats. */
  method PriceRows(stats: seq<BotStat>, lastPrice: real) returns (stats': seq<BotStat>)
    ensures OnlyPnl(stats, stats')
    ensures forall k :: 0 <= k < |stats'| ==> stats'[k].pnl == stats'[k].cash + stats'[k].position as real * lastPrice
  {
    stats' := stats;
    for i := 0 to |stats|
      invariant OnlyPnl(stats, stats')
      invariant forall k :: 0 <= k < i ==> stats'[k].pnl == stats'[k].cash + stats'[k].position as real * lastPrice
    {
      stats' := stats'[i := stats'[i].(pnl := stats'[i].cash + stats'[i].position as real * lastPrice)];
    }
  }

  /** The frames up to and including the one at `idx` count, all of them when there are not so many, and none for a negative
      `idx`. */
  method ComputeStats(frames: seq<Frame>, idx: int, roster: seq<RosterEntry>)
    returns (stats: seq<BotStat>, open: map<OrderId, OpenOrder>, lastPrice: real)
    ensures idx < 0 ==> Summary(stats, open, lastPrice, [])
    ensures 0 <= idx < |frames| ==> Summary(stats, open, lastPrice, BatchesIn(frames[..idx + 1]))
    ensures |frames| <= idx ==> Summary(stats, open, lastPrice, BatchesIn(frames))
    ensures Named(stats, roster) && forall i :: 0 <= i < |roster| ==> IndexIn(stats, roster[i].id) < |stats|
  {
    hide Posted, IndexIn, LegsOf, SumOf, OnlyPnl, TradesShown, BatchesIn, OpenStep, Summary, StrategyOf;
    stats := [];
    NothingPosted();
    for i := 0 to |roster|
      invariant Posted(stats, [], []) && Listed(stats, roster[..i]) && Named(stats, roster)
    {
      ghost var rows := stats;
      var k;
      stats, k := Get(stats, roster, roster[i].id, [], []);
      ListedNext(rows, stats, roster, i);
    }
    assert roster[..|roster|] == roster;
    open, lastPrice := map[], 0.0;
    var i := 0;
    ghost var bs: seq<WireBatch> := [];
    NothingVisited(frames);
    while i <= idx && i < |frames|
      invariant 0 <= i <= |frames| && (i > 0 ==> i <= idx + 1) && bs == BatchesIn(frames[..i])
      invariant Posted(stats, LegsOf(TradesShown(bs)), bs)
      invariant open == OpenAfter(bs) && lastPrice == LastPrice(TradesShown(bs))
      invariant Listed(stats, roster) && Named(stats, roster)
    {
      NextFrame(frames, i);
      if frames[i].BatchFrame? {
        var b := frames[i].batch;
        ghost var rows := stats;
        stats, open, lastPrice := BookBatch(stats, roster, open, lastPrice, b, bs);
        ListedGrows(rows, stats, roster);
        assert (bs + [b])[..|bs|] == bs;
        bs := bs + [b];
      }
      i := i + 1;
    }
    assert frames[..|frames|] == frames;
    ghost var rows := stats;
    stats := PriceRows(stats, lastPrice);
    Summarize(rows, stats, open, lastPrice, bs);
    ListedGrows(rows, stats, roster);
    NamedStays(rows, stats, roster);
  }

  lemma Summarize(rows: seq<BotStat>, stats: seq<BotStat>, open: map<OrderId, OpenOrder>, lastPrice: real, bs: seq<WireBatch>)
    requires Posted(rows, LegsOf(TradesShown(bs)), bs) && OnlyPnl(rows, stats)
    requires open == OpenAfter(bs) && lastPrice == LastPrice(TradesShown(bs))
    requires forall k :: 0 <= k < |stats| ==> stats[k].pnl == stats[k].cash + stats[k].position as real * lastPrice
    ensures Summary(stats, open, lastPrice, bs)
  {
    hide Posted, LegsOf, SumOf, OnlyPnl, TradesShown, OpenAfter;
    PnlKeepsRows(rows, stats, LegsOf(TradesShown(bs)), bs);
    ColumnsBalance(stats, TradesShown(bs), bs);
    PnlSums(stats, lastPrice);
  }

  lemma NamedStays(stats: seq<BotStat>, stats': seq<BotStat>, roster: seq<RosterEntry>)
    requires Named(stats, roster) && OnlyPnl(stats, stats')
    ensures Named(stats', roster)
  {
  }

  lemma NothingVisited(frames: seq<Frame>)
    ensures BatchesIn(frames[..0]) == [] && TradesShown([]) == []
  {
  }

  lemma NextFrame(frames: seq<Frame>, i: nat)
    requires i < |frames|
    ensures BatchesIn(frames[..i + 1]) == BatchesIn(frames[..i]) + if frames[i].BatchFrame? then [frames[i].batch] else []
  {
    assert frames[..i + 1][..i] == frames[..i];
  }

  /** Rows are only ever added. */
  ghost predicate Grows(stats: seq<BotStat>, stats': seq<BotStat>) {
    |stats| <= |stats'| && forall k :: 0 <= k < |stats| ==> stats'[k].id == stats[k].id
  }

  ghost predicate Listed(stats: seq<BotStat>, roster: seq<RosterEntry>) {
    forall i :: 0 <= i < |roster| ==> IndexIn(stats, roster[i].id) < |stats|
  }

  lemma ListedGrows(stats: seq<BotStat>, stats': seq<BotStat>, roster: seq<RosterEntry>)
    requires Listed(stats, roster) && (Grows(stats, stats') || OnlyPnl(stats, stats'))
    ensures Listed(stats', roster)
  {
    hide IndexIn;
    forall i | 0 <= i < |roster| ensures IndexIn(stats', roster[i].id) < |stats'| {
      assert stats'[IndexIn(stats, roster[i].id)].id == roster[i].id;
    }
  }

  lemma ListedNext(stats: seq<BotStat>, stats': seq<BotStat>, roster: seq<RosterEntry>, i: nat)
    requires i < |roster| && Listed(stats, roster[..i]) && Grows(stats, stats') && IndexIn(stats', roster[i].id) < |stats'|
    ensures Listed(stats', roster[..i + 1])
  {
    hide IndexIn, Grows;
    ListedGrows(stats, stats', roster[..i]);
    forall j | 0 <= j < i ensures IndexIn(stats', roster[j].id) < |stats'| { assert roster[..i][j] == roster[j]; }
  }
}
