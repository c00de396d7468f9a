/** Positions and cash on the screen against what the engine really traded. */
module Positions {
  import opened MarketTypes
  import opened FlatBook
  import opened BookMatching
  import opened BookInvariant
  import opened BookRuns
  import opened EngineSpec
  import opened BookShadow
  import opened Normalizers
  import opened NormalizerRuns
  import opened Stats
  import opened StatsRuns

  // ---------- Trades with both their parties ----------

  /** One trade: who came in and on which side, who owned the resting order, and whether the normalizer still knew it. */
  datatype Deal = Deal(aggressor: NodeId, side: Side, owner: NodeId, known: bool, qty: int, price: real)

  /** What the aggressor bought: the engine matches every side but BID as a sale. */
  function Bought(d: Deal): int {
    if d.side == Bid then d.qty else -d.qty
  }

  /** What the screen says the aggressor bought: the gateway reads every side but ASK as a purchase. */
  function ShownBought(d: Deal): int {
    if d.side == Ask then -d.qty else d.qty
  }

  function ShownOwner(d: Deal): NodeId {
    if d.known then d.owner else "?"
  }

  function Value(qty: int, price: real): real {
    qty as real * price
  }

  /** The two legs of a deal as it was traded. */
  function RealPair(d: Deal): seq<Leg> {
    [Leg(d.aggressor, d.qty, Bought(d), -Value(Bought(d), d.price)), Leg(d.owner, d.qty, -Bought(d), Value(Bought(d), d.price))]
  }

  /** The two legs of a deal as they are shown. */
  function ShownPair(d: Deal): seq<Leg> {
    [Leg(d.aggressor, d.qty, ShownBought(d), -Value(ShownBought(d), d.price)),
     Leg(ShownOwner(d), d.qty, -ShownBought(d), Value(ShownBought(d), d.price))]
  }

  function RealLegs(ds: seq<Deal>): seq<Leg> {
    if ds == [] then [] else RealLegs(ds[..|ds| - 1]) + RealPair(ds[|ds| - 1])
  }

  function ShownLegs(ds: seq<Deal>): seq<Leg> {
    if ds == [] then [] else ShownLegs(ds[..|ds| - 1]) + ShownPair(ds[|ds| - 1])
  }

  function OwnerIn(m: Shadow, id: OrderId): NodeId {
    if id in m then m[id].node else ""
  }

  /** The trades of a submit; `m` are the resting orders before it and `k` is the shadow as the trades go by. */
  function DealsOf(k: seq<Kept>, m: Shadow, o: Order, ts: seq<Trade>): seq<Deal>
    decreases |ts|
  {
    if ts == [] then []
    else
      var t := ts[0];
      [Deal(o.node, o.side, OwnerIn(m, t.restingId), IndexOf(k, t.restingId) < |k|, t.qty, t.price)]
      + DealsOf(KeptHit(k, t.restingId, t.qty), m, o, ts[1..])
  }

  function MessageDeals(k: seq<Kept>, b: Book, m: Message): seq<Deal> {
    if m.payload.SubmitPayload? then DealsOf(k, BookMap(b), m.payload.order, TradesIn(Handle(b, m).events)) else []
  }

  /** Every trade of a run. */
  function RunDeals(rs: seq<Record>, ms: seq<Message>): seq<Deal>
    requires |rs| == |ms|
  {
    if ms == [] then []
    else
      var n := |ms| - 1;
      RunDeals(rs[..n], ms[..n]) + MessageDeals(KeptRun(rs[..n]), BookAfter(ms[..n]), ms[n])
  }

  // ---------- What the engine traded, without the normalizer ----------

  /** Buyer and seller of every trade of a submit by the engine's book. */
  function TradeLegs(m: Shadow, o: Order, ts: seq<Trade>): seq<Leg> {
    if ts == [] then []
    else
      var t := ts[0];
      var q := if o.side == Bid then t.qty else -t.qty;
      [Leg(o.node, t.qty, q, -Value(q, t.price)), Leg(OwnerIn(m, t.restingId), t.qty, -q, Value(q, t.price))]
      + TradeLegs(m, o, ts[1..])
  }

  function MessageLegs(b: Book, m: Message): seq<Leg> {
    if m.payload.SubmitPayload? then TradeLegs(BookMap(b), m.payload.order, TradesIn(Handle(b, m).events)) else []
  }

  /** Every leg the engine traded in a run. */
  function RunLegs(ms: seq<Message>): seq<Leg> {
    if ms == [] then [] else RunLegs(ms[..|ms| - 1]) + MessageLegs(BookAfter(ms[..|ms| - 1]), ms[|ms| - 1])
  }

  // ---------- One submit ----------

  ghost predicate SidedTrades(ts: seq<Trade>, side: Side) {
    forall i :: 0 <= i < |ts| ==> ts[i].aggressorSide == side && ts[i].qty > 0
  }

  lemma {:induction false} FillTradesSided(o: Order, fills: seq<Fill>, tradeId: nat, ts: nat)
    requires forall i :: 0 <= i < |fills| ==> fills[i].qty > 0
    ensures SidedTrades(FillTrades(o, fills, tradeId, ts), o.side)
  {
    if fills != [] { FillTradesSided(o, fills[1..], tradeId + 1, ts); }
  }

  /** Trades carry the side of the incoming order and a positive quantity. */
  lemma SubmitTradesSided(b: Book, o: Order, ts: nat)
    requires BookOk(b) && o.qty >= 0
    ensures SidedTrades(TradesIn(Submit(b, o, ts).events), o.side)
  {
    hide Walk, BookOk, TradesIn, FillTrades, TradesOf, Insert, FilledQty, TopOf;
    var buy := o.side == Bid;
    var opp := if buy then b.asks else b.bids;
    var w := Walk(buy, o, opp, o.qty);
    SidesOk(b);
    WalkShape(buy, o, opp, o.qty);
    FillTradesSided(o, w.fills, b.nextTrade, ts);
    TradesInFills(o, w.fills, b.nextTrade, ts, TopOf(Submit(b, o, ts).book, ts));
  }

  lemma {:induction false} LegsConcat(a: seq<WireTrade>, b: seq<WireTrade>)
    ensures LegsOf(a + b) == LegsOf(a) + LegsOf(b)
  {
    if b == [] {
      assert a + b == a;
    } else {
      var n := |b| - 1;
      LegsConcat(a, b[..n]);
      assert (a + b)[..|a + b| - 1] == a + b[..n];
    }
  }

  lemma {:induction false} DealLegsConcat(a: seq<Deal>, b: seq<Deal>)
    ensures RealLegs(a + b) == RealLegs(a) + RealLegs(b) && ShownLegs(a + b) == ShownLegs(a) + ShownLegs(b)
  {
    hide RealPair, ShownPair;
    if b == [] {
      assert a + b == a;
    } else {
      var n := |b| - 1;
      DealLegsConcat(a, b[..n]);
      assert (a + b)[..|a + b| - 1] == a + b[..n] && (a + b)[|a + b| - 1] == b[n];
      Regroup(RealLegs(a), RealLegs(b[..n]), RealPair(b[n]));
      Regroup(ShownLegs(a), ShownLegs(b[..n]), ShownPair(b[n]));
    }
  }

  lemma Regroup(a: seq<Leg>, b: seq<Leg>, c: seq<Leg>)
    ensures (a + b) + c == a + (b + c)
  {
  }

  lemma OneDeal(d: Deal)
    ensures RealLegs([d]) == RealPair(d) && ShownLegs([d]) == ShownPair(d)
  {
    hide RealPair, ShownPair;
    assert [d][..0] == [] && [d][0] == d;
    assert [] + RealPair(d) == RealPair(d) && [] + ShownPair(d) == ShownPair(d);
  }

  lemma OneWire(w: WireTrade)
    ensures LegsOf([w]) == [AggressorLeg(w), RestingLeg(w)]
  {
    assert [w][..0] == [] && [w][0] == w;
    assert [] + [AggressorLeg(w), RestingLeg(w)] == [AggressorLeg(w), RestingLeg(w)];
  }

  /** The real legs do not depend on what the normalizer knows. */
  lemma {:induction false} DealsAreReal(k: seq<Kept>, m: Shadow, o: Order, ts: seq<Trade>)
    ensures RealLegs(DealsOf(k, m, o, ts)) == TradeLegs(m, o, ts)
    decreases |ts|
  {
    hide RealLegs, ShownLegs, IndexOf, KeptHit, OwnerIn, Value;
    if ts == [] {
      NoDeals();
    } else {
      var t := ts[0];
      var d := Deal(o.node, o.side, OwnerIn(m, t.restingId), IndexOf(k, t.restingId) < |k|, t.qty, t.price);
      var k' := KeptHit(k, t.restingId, t.qty);
      DealsAreReal(k', m, o, ts[1..]);
      DealLegsConcat([d], DealsOf(k', m, o, ts[1..]));
      OneDeal(d);
      var q := if o.side == Bid then t.qty else -t.qty;
      assert RealPair(d) == [Leg(o.node, t.qty, q, -Value(q, t.price)), Leg(OwnerIn(m, t.restingId), t.qty, -q, Value(q, t.price))];
      assert DealsOf(k, m, o, ts) == [d] + DealsOf(k', m, o, ts[1..]);
    }
  }

  lemma NoDeals()
    ensures RealLegs([]) == [] && ShownLegs([]) == [] && LegsOf([]) == []
  {
  }

  /** Deals of one side with positive quantities. */
  ghost predicate DealsSided(ds: seq<Deal>, side: Side) {
    forall i :: 0 <= i < |ds| ==> ds[i].side == side && ds[i].qty > 0
  }

  /** `m` knows at least the orders of `now`, with the same owners. */
  ghost predicate SameOwners(m: Shadow, now: Shadow) {
    forall id :: id in now ==> id in m && m[id].node == now[id].node
  }

  lemma ShownDeal(k: seq<Kept>, m: Shadow, now: Shadow, o: Order, t: Trade)
    requires Within(k, now) && SameOwners(m, now) && t.restingId in now && t.aggressorSide == o.side
    ensures var d := Deal(o.node, o.side, OwnerIn(m, t.restingId), IndexOf(k, t.restingId) < |k|, t.qty, t.price);
      LegsOf([WireTradeOf(k, t, o.node)]) == ShownLegs([d])
  {
    hide IndexOf;
    var p := IndexOf(k, t.restingId);
    if p < |k| { assert Agrees(k[p], now); }
    var d := Deal(o.node, o.side, OwnerIn(m, t.restingId), p < |k|, t.qty, t.price);
    var w := WireTradeOf(k, t, o.node);
    OneWire(w);
    OneDeal(d);
    assert Signed(w) == ShownBought(d) && w.restingNode == ShownOwner(d);
    assert AggressorLeg(w) == ShownPair(d)[0] && RestingLeg(w) == ShownPair(d)[1];
  }

  lemma {:induction false} DealsAreShown(k: seq<Kept>, m: Shadow, now: Shadow, o: Order, ts: seq<Trade>)
    requires Within(k, now) && SameOwners(m, now) && AllHit(now, ts) && SidedTrades(ts, o.side)
    ensures LegsOf(WireTrades(k, ts, o.node)) == ShownLegs(DealsOf(k, m, o, ts))
    ensures DealsSided(DealsOf(k, m, o, ts), o.side)
    decreases |ts|
  {
    hide ShownLegs, LegsOf, IndexOf, KeptHit, Hit, Within, WireTradeOf, OwnerIn;
    if ts == [] {
      NoDeals();
    } else {
      var t := ts[0];
      var d := Deal(o.node, o.side, OwnerIn(m, t.restingId), IndexOf(k, t.restingId) < |k|, t.qty, t.price);
      var k', now' := KeptHit(k, t.restingId, t.qty), Hit(now, t.restingId, t.qty);
      HitWithin(k, now, t.restingId, t.qty);
      forall id | id in now' ensures id in m && m[id].node == now'[id].node { HitKeepsOwner(now, t.restingId, t.qty, id); }
      ShownDeal(k, m, now, o, t);
      DealsAreShown(k', m, now', o, ts[1..]);
      DealLegsConcat([d], DealsOf(k', m, o, ts[1..]));
      LegsConcat([WireTradeOf(k, t, o.node)], WireTrades(k', ts[1..], o.node));
    }
  }

  /** While the shadow covers the book, every resting order hit is known. */
  lemma {:induction false} DealsAreKnown(k: seq<Kept>, m: Shadow, now: Shadow, o: Order, ts: seq<Trade>)
    requires Within(k, now) && Covers(k, now) && AllHit(now, ts)
    ensures forall i :: 0 <= i < |DealsOf(k, m, o, ts)| ==> DealsOf(k, m, o, ts)[i].known
    decreases |ts|
  {
    hide Within, KeptHit, Hit, IndexOf, OwnerIn;
    if ts != [] {
      var t := ts[0];
      HitWithin(k, now, t.restingId, t.qty);
      DealsAreKnown(KeptHit(k, t.restingId, t.qty), m, Hit(now, t.restingId, t.qty), o, ts[1..]);
    }
  }

  // ---------- Whole runs ----------

  lemma MessageDealsAre(rs: seq<Record>, ms: seq<Message>, b: WireBatch)
    requires RecordsOf(rs, ms) && Sound(ms) && ms != []
    requires var n := |ms| - 1; Carries(b, rs[n]) && b.trades == WireTrades(KeptRun(rs[..n]), TradesIn(rs[n].events), rs[n].nodeId)
    ensures var n := |ms| - 1; var bk, k := BookAfter(ms[..n]), KeptRun(rs[..n]);
      var ds := MessageDeals(k, bk, ms[n]);
      && LegsOf(b.trades) == ShownLegs(ds) && MessageLegs(bk, ms[n]) == RealLegs(ds) && Positives(ds)
      && ((forall j :: 0 <= j <= n ==> RestingCount(BookAfter(ms[..j])) <= Cap) ==> AllKnown(ds))
  {
    hide BookOk, Has, BookAfter, BookMap, Submit, Cancel, TradesIn, KeptRun, WireTrades, LegsOf, RealLegs, ShownLegs, TradeLegs,
         DealsOf, DepthOf, CarriesTrades, ToWireTop, OpsOf, RestingCount, Within, Covers, AllHit;
    var n := |ms| - 1;
    var bk, k := BookAfter(ms[..n]), KeptRun(rs[..n]);
    SoundNext(ms);
    assert rs[n] == RecordFor(ms[n], Handle(bk, ms[n]), rs[n].seqNo);
    NoDeals();
    match ms[n].payload
    case SubmitPayload(o) =>
      var ts := TradesIn(rs[n].events);
      SubmitTradesSided(bk, o, ms[n].ts);
      ShadowBefore(rs, ms, n);
      RecordHits(rs, ms, n);
      DealsAreShown(k, BookMap(bk), BookMap(bk), o, ts);
      DealsAreReal(k, BookMap(bk), o, ts);
      if forall j :: 0 <= j <= n ==> RestingCount(BookAfter(ms[..j])) <= Cap {
        DealsAreKnown(k, BookMap(bk), BookMap(bk), o, ts);
      }
    case CancelPayload(id, _) =>
      CancelFollows(bk, id, ms[n].ts);
      NoLegs(b.trades, TradesIn(rs[n].events), rs[n].nodeId);
    case NoPayload =>
      NoTrades();
      NoLegs(b.trades, TradesIn(rs[n].events), rs[n].nodeId);
  }

  ghost predicate Positives(ds: seq<Deal>) {
    forall i :: 0 <= i < |ds| ==> ds[i].qty > 0
  }

  ghost predicate AllKnown(ds: seq<Deal>) {
    forall i :: 0 <= i < |ds| ==> ds[i].known
  }

  lemma ShadowBefore(rs: seq<Record>, ms: seq<Message>, n: nat)
    requires RecordsOf(rs, ms) && Sound(ms) && n < |ms|
    ensures Within(KeptRun(rs[..n]), BookMap(BookAfter(ms[..n])))
    ensures (forall j :: 0 <= j <= n ==> RestingCount(BookAfter(ms[..j])) <= Cap)
            ==> Covers(KeptRun(rs[..n]), BookMap(BookAfter(ms[..n])))
  {
    hide Within, Covers, BookMap, KeptRun, BookAfter, RestingCount, RecordOf, Sound;
    SoundUpTo(rs, ms, n);
    ShadowIsWithinBook(rs[..n], ms[..n]);
    assert forall j :: 0 <= j <= n ==> ms[..n][..j] == ms[..j];
  }

  lemma NoLegs(ws: seq<WireTrade>, ts: seq<Trade>, node: NodeId)
    requires CarriesTrades(ws, ts, node) && ts == []
    ensures LegsOf(ws) == []
  {
  }

  /** Over every run: what is shown and what was traded are two readings of the same deals; and while the book has not
      exceeded the normalizer's cap, every owner in them is known. */
  lemma {:induction false} RunDealsAre(bs: seq<WireBatch>, rs: seq<Record>, ms: seq<Message>)
    requires Shown(bs, rs) && RecordsOf(rs, ms) && Sound(ms)
    ensures LegsOf(TradesShown(bs)) == ShownLegs(RunDeals(rs, ms)) && RunLegs(ms) == RealLegs(RunDeals(rs, ms))
    ensures Positives(RunDeals(rs, ms))
    ensures (forall j :: 0 <= j <= |ms| ==> RestingCount(BookAfter(ms[..j])) <= Cap) ==> AllKnown(RunDeals(rs, ms))
  {
    hide BookAfter, KeptRun, WireTrades, LegsOf, MessageLegs, MessageDeals, RecordOf, Sound, Carries, TradesIn, RealLegs, ShownLegs;
    if ms == [] {
      NoDeals();
    } else {
      var n := |ms| - 1;
      ShownPrefix(bs, rs);
      RecordsPrefix(rs, ms);
      SoundPrefix(ms);
      assert forall j :: 0 <= j <= n ==> ms[..n][..j] == ms[..j];
      RunDealsAre(bs[..n], rs[..n], ms[..n]);
      MessageDealsAre(rs, ms, bs[n]);
      LegsConcat(TradesShown(bs[..n]), bs[n].trades);
      DealLegsConcat(RunDeals(rs[..n], ms[..n]), MessageDeals(KeptRun(rs[..n]), BookAfter(ms[..n]), ms[n]));
    }
  }

  // ---------- The legs ----------

  /** A deal is booked as it was traded. */
  predicate BookedRight(d: Deal) {
    d.side != SideUnspecified && ShownOwner(d) == d.owner
  }

  lemma DealIff(d: Deal)
    requires d.qty > 0
    ensures ShownLegs([d]) == RealLegs([d]) <==> BookedRight(d)
  {
    OneDeal(d);
    assert ShownPair(d)[0].position == RealPair(d)[0].position <==> d.side != SideUnspecified;
    assert ShownPair(d)[1].node == RealPair(d)[1].node <==> ShownOwner(d) == d.owner;
    if BookedRight(d) { assert ShownPair(d)[0] == RealPair(d)[0] && ShownPair(d)[1] == RealPair(d)[1]; }
  }

  lemma ConcatIff<T>(a: seq<T>, b: seq<T>, c: seq<T>, d: seq<T>)
    requires |a| == |c|
    ensures a + b == c + d <==> a == c && b == d
  {
    if a + b == c + d {
      assert a == (a + b)[..|a|] && c == (c + d)[..|c|];
      assert b == (a + b)[|a|..] && d == (c + d)[|c|..];
    }
  }

  lemma {:induction false} DealsIff(ds: seq<Deal>)
    requires Positives(ds)
    ensures |ShownLegs(ds)| == |RealLegs(ds)|
    ensures ShownLegs(ds) == RealLegs(ds) <==> forall i :: 0 <= i < |ds| ==> BookedRight(ds[i])
  {
    hide BookedRight;
    if ds != [] {
      var n := |ds| - 1;
      DealsIff(ds[..n]);
      DealIff(ds[n]);
      assert ds == ds[..n] + [ds[n]];
      DealLegsConcat(ds[..n], [ds[n]]);
      ConcatIff(ShownLegs(ds[..n]), ShownLegs([ds[n]]), RealLegs(ds[..n]), RealLegs([ds[n]]));
    }
  }

  /** Over every run, the legs on the screen are the legs traded, one by one, if and only if every aggressor that traded
      had a side and every resting order hit was still known to the normalizer (or belonged to a node named "?"). */
  lemma LegsAreRealIff(bs: seq<WireBatch>, rs: seq<Record>, ms: seq<Message>)
    requires Shown(bs, rs) && RecordsOf(rs, ms) && Sound(ms)
    ensures LegsOf(TradesShown(bs)) == RunLegs(ms)
       <==> forall i :: 0 <= i < |RunDeals(rs, ms)| ==>
              var d := RunDeals(rs, ms)[i]; d.side != SideUnspecified && (d.known || d.owner == "?")
  {
    hide Shown, RecordOf, Sound, LegsOf, TradesShown, RunLegs, RunDeals, ShownLegs, RealLegs;
    RunDealsAre(bs, rs, ms);
    var ds := RunDeals(rs, ms);
    DealsIff(ds);
    assert forall i :: 0 <= i < |ds| ==> (BookedRight(ds[i]) <==> ds[i].side != SideUnspecified && (ds[i].known || ds[i].owner == "?"));
  }

  // ---------- Positions and cash ----------

  datatype Amount = Amount(qty: int, notional: real)

  function Add(a: Amount, qty: int, price: real): Amount {
    Amount(a.qty + qty, a.notional + Value(qty, price))
  }

  /** What a node traded as an aggressor without a side. */
  function Taken(ds: seq<Deal>, node: NodeId): Amount {
    if ds == [] then Amount(0, 0.0)
    else
      var d, a := ds[|ds| - 1], Taken(ds[..|ds| - 1], node);
      if d.side == SideUnspecified && d.aggressor == node then Add(a, d.qty, d.price) else a
  }

  /** What aggressors without a side traded against a node's known orders. */
  function Struck(ds: seq<Deal>, node: NodeId): Amount {
    if ds == [] then Amount(0, 0.0)
    else
      var d, a := ds[|ds| - 1], Struck(ds[..|ds| - 1], node);
      if d.side == SideUnspecified && d.known && d.owner == node then Add(a, d.qty, d.price) else a
  }

  /** What was bought from a node through orders the normalizer had lost. */
  function Lost(ds: seq<Deal>, node: NodeId): Amount {
    if ds == [] then Amount(0, 0.0)
    else
      var d, a := ds[|ds| - 1], Lost(ds[..|ds| - 1], node);
      if !d.known && d.owner == node then Add(a, Bought(d), d.price) else a
  }

  /** What the screen says was bought from "?". */
  function Stray(ds: seq<Deal>, node: NodeId): Amount {
    if ds == [] then Amount(0, 0.0)
    else
      var d, a := ds[|ds| - 1], Stray(ds[..|ds| - 1], node);
      if !d.known && node == "?" then Add(a, ShownBought(d), d.price) else a
  }

  /** What one pair of legs adds to a node. */
  function InPair(p: seq<Leg>, node: NodeId): Account
    requires |p| == 2
  {
    var first := if p[0].node == node then LegAccount(p[0]) else Account(0, 0, 0, 0.0);
    if p[1].node == node then Plus(first, LegAccount(p[1])) else first
  }

  lemma AccountPair(legs: seq<Leg>, p: seq<Leg>, node: NodeId)
    requires |p| == 2
    ensures AccountOf(legs + p, node) == Plus(AccountOf(legs, node), InPair(p, node))
  {
    hide AccountOf;
    AccountSnoc(legs, p[0], node);
    AccountSnoc(legs + [p[0]], p[1], node);
    assert legs + p == legs + [p[0]] + [p[1]];
  }

  lemma Opposite(q: int, p: real)
    ensures Value(-q, p) == -Value(q, p)
  {
    assert (-q) as real == -(q as real);
  }

  /** How far off one deal is. */
  lemma DealDiffers(d: Deal, node: NodeId)
    ensures var shown, real_ := InPair(ShownPair(d), node), InPair(RealPair(d), node);
      && shown.position - real_.position
         == (if d.side == SideUnspecified && d.aggressor == node then 2 * d.qty else 0)
            - (if d.side == SideUnspecified && d.known && d.owner == node then 2 * d.qty else 0)
            + (if !d.known && d.owner == node then Bought(d) else 0)
            - (if !d.known && node == "?" then ShownBought(d) else 0)
      && real_.cash - shown.cash
         == (if d.side == SideUnspecified && d.aggressor == node then 2.0 * Value(d.qty, d.price) else 0.0)
            - (if d.side == SideUnspecified && d.known && d.owner == node then 2.0 * Value(d.qty, d.price) else 0.0)
            + (if !d.known && d.owner == node then Value(Bought(d), d.price) else 0.0)
            - (if !d.known && node == "?" then Value(ShownBought(d), d.price) else 0.0)
      && (d.known ==> shown.fills == real_.fills && shown.volume == real_.volume)
  {
    hide Value;
    Opposite(d.qty, d.price);
  }

  /** What the last deal adds to each amount. */
  lemma AmountsStep(ds: seq<Deal>, node: NodeId)
    requires ds != []
    ensures var n := |ds| - 1; var d := ds[n];
      && Taken(ds, node) == (if d.side == SideUnspecified && d.aggressor == node then Add(Taken(ds[..n], node), d.qty, d.price) else Taken(ds[..n], node))
      && Struck(ds, node) == (if d.side == SideUnspecified && d.known && d.owner == node then Add(Struck(ds[..n], node), d.qty, d.price) else Struck(ds[..n], node))
      && Lost(ds, node) == (if !d.known && d.owner == node then Add(Lost(ds[..n], node), Bought(d), d.price) else Lost(ds[..n], node))
      && Stray(ds, node) == (if !d.known && node == "?" then Add(Stray(ds[..n], node), ShownBought(d), d.price) else Stray(ds[..n], node))
  {
    hide Add, Bought, ShownBought;
  }

  /** Where the screen is off, to the unit and to the cent: twice the difference of what the node traded, and of what was
      traded against its orders, without a side; and whatever was attributed to "?" instead of its owner. */
  lemma {:induction false} DealsDiffer(ds: seq<Deal>, node: NodeId)
    ensures var shown, real_ := AccountOf(ShownLegs(ds), node), AccountOf(RealLegs(ds), node);
      && shown.position - real_.position
         == 2 * (Taken(ds, node).qty - Struck(ds, node).qty) + Lost(ds, node).qty - Stray(ds, node).qty
      && real_.cash - shown.cash
         == 2.0 * (Taken(ds, node).notional - Struck(ds, node).notional) + Lost(ds, node).notional - Stray(ds, node).notional
      && (AllKnown(ds) ==> shown.fills == real_.fills && shown.volume == real_.volume)
  {
    hide AccountOf, RealPair, ShownPair, InPair, Bought, ShownBought, Value, Taken, Struck, Lost, Stray;
    if ds == [] {
      NoAccount([], node);
      NoAmounts(node);
    } else {
      var n := |ds| - 1;
      AmountsStep(ds, node);
      DealsDiffer(ds[..n], node);
      assert AllKnown(ds) ==> AllKnown(ds[..n]);
      DealDiffers(ds[n], node);
      PairSizes(ds[n]);
      AccountPair(ShownLegs(ds[..n]), ShownPair(ds[n]), node);
      AccountPair(RealLegs(ds[..n]), RealPair(ds[n]), node);
    }
  }

  lemma NoAmounts(node: NodeId)
    ensures Taken([], node) == Struck([], node) == Lost([], node) == Stray([], node) == Amount(0, 0.0)
  {
  }

  lemma PairSizes(d: Deal)
    ensures |ShownPair(d)| == 2 && |RealPair(d)| == 2
  {
  }

  lemma {:induction false} NothingLost(ds: seq<Deal>, node: NodeId)
    requires AllKnown(ds)
    ensures Lost(ds, node) == Amount(0, 0.0) && Stray(ds, node) == Amount(0, 0.0)
  {
    if ds != [] { NothingLost(ds[..|ds| - 1], node); }
  }

  /** Over every run and for every node, how far position and cash on the screen are from what was traded. */
  lemma PositionsDiffer(bs: seq<WireBatch>, rs: seq<Record>, ms: seq<Message>, node: NodeId)
    requires Shown(bs, rs) && RecordsOf(rs, ms) && Sound(ms)
    ensures var shown, real_ := AccountOf(LegsOf(TradesShown(bs)), node), AccountOf(RunLegs(ms), node);
      var ds := RunDeals(rs, ms);
      && shown.position - real_.position
         == 2 * (Taken(ds, node).qty - Struck(ds, node).qty) + Lost(ds, node).qty - Stray(ds, node).qty
      && real_.cash - shown.cash
         == 2.0 * (Taken(ds, node).notional - Struck(ds, node).notional) + Lost(ds, node).notional - Stray(ds, node).notional
  {
    hide Shown, RecordOf, Sound, LegsOf, TradesShown, RunLegs, RunDeals, ShownLegs, RealLegs, AccountOf, Taken, Struck, Lost, Stray;
    RunDealsAre(bs, rs, ms);
    DealsDiffer(RunDeals(rs, ms), node);
  }

  /** Over every run whose book stays within the normalizer's cap: a node's position on the screen is its real position
      if and only if it traded as much without a side as others without a side traded against its orders; its cash is
      right if and only if that holds of the amounts paid; its fills and its volume are always right. */
  lemma PositionsAreRealIff(bs: seq<WireBatch>, rs: seq<Record>, ms: seq<Message>, node: NodeId)
    requires Shown(bs, rs) && RecordsOf(rs, ms) && Sound(ms)
    requires forall j :: 0 <= j <= |ms| ==> RestingCount(BookAfter(ms[..j])) <= Cap
    ensures var shown, real_ := AccountOf(LegsOf(TradesShown(bs)), node), AccountOf(RunLegs(ms), node);
      var ds := RunDeals(rs, ms);
      && (shown.position == real_.position <==> Taken(ds, node).qty == Struck(ds, node).qty)
      && (shown.cash == real_.cash <==> Taken(ds, node).notional == Struck(ds, node).notional)
      && shown.fills == real_.fills && shown.volume == real_.volume
  {
    hide Shown, RecordOf, Sound, LegsOf, TradesShown, RunLegs, RunDeals, ShownLegs, RealLegs, AccountOf, Taken, Struck, Lost, Stray,
         BookAfter, RestingCount;
    RunDealsAre(bs, rs, ms);
    DealsDiffer(RunDeals(rs, ms), node);
    NothingLost(RunDeals(rs, ms), node);
  }

  // ---------- What an order without a side does ----------

  function SidelessOrder(): Order {
    Order(SideUnspecified, Limit, 1.0, 1, "a", Human)
  }

  /** One order without a side, from the human, with nobody cancelling anything: it rests in the book, but is not
      among the open orders shown. */
  lemma SidelessOrderIsNotShown(bs: seq<WireBatch>, rs: seq<Record>)
    requires var ms := [Message(SubmitPayload(SidelessOrder()), None, 0)]; Shown(bs, rs) && RecordsOf(rs, ms)
    ensures var m := BookMap(BookAfter([Message(SubmitPayload(SidelessOrder()), None, 0)]));
      "a" in m && m["a"].node == Human && OpenAfter(bs) != AllHumanOrders(m)
  {
    hide Shown, RecordsOf, OpenAfter;
    var o := SidelessOrder();
    var ms := [Message(SubmitPayload(o), None, 0)];
    assert ms[..0] == [];
    assert OpsOf(ms[..0]) == [];
    assert OpsOf(ms) == [SubmitOp(o, 0)];
    var b := BookAfter(ms);
    assert b == Submit(EmptyBook(), o, 0).book;
    WalkStops(false, o, [], 1);
    assert b.asks == [Resting(0, o)] && b.bids == [];
    assert [Resting(0, o)][1..] == [];
    assert RestMap(b.asks) == map["a" := InfoOf(o)];
    assert BookMap(b)["a"] == InfoOf(o);
    OpenIsBookIff(bs, rs, ms);
  }

  /** A bid from a bot rests, and an order without a side from the human trades with it. */
  function SidelessRun(): seq<Message> {
    [Message(SubmitPayload(Order(Bid, Limit, 1.0, 1, "b", "bot")), None, 0),
     Message(SubmitPayload(Order(SideUnspecified, Market, 0.0, 1, "a", Human)), None, 1)]
  }

  lemma FirstRests()
    ensures BookAfter(SidelessRun()[..1]) == Book([Resting(0, Order(Bid, Limit, 1.0, 1, "b", "bot"))], [], 1, 0)
  {
    var ms := SidelessRun();
    var o := ms[0].payload.order;
    assert ms[..1][..0] == [] && ms[..1][0] == ms[0];
    assert BookAfter(ms[..1]) == SubmitBid(EmptyBook(), o, 0).book;
    WalkStops(true, o, [], 1);
  }

  /** The one trade of that run. */
  lemma SidelessDeal(rs: seq<Record>)
    requires |rs| == 2
    ensures exists known :: RunDeals(rs, SidelessRun()) == [Deal(Human, SideUnspecified, "bot", known, 1, 1.0)]
  {
    hide BookAfter, KeptRun, IndexOf, KeptHit;
    var ms := SidelessRun();
    FirstRests();
    FirstTrade();
    SecondTrade();
    var k := KeptRun(rs[..1]);
    var b := BookAfter(ms[..1]);
    var o := ms[1].payload.order;
    var t := Trade(0, 1.0, 1, SideUnspecified, "a", "b", 1);
    assert ms[..|ms| - 1] == ms[..1] && ms[..1][..0] == [] && ms[..1][0] == ms[0] && rs[..1][..0] == [];
    assert MessageDeals(KeptRun([]), BookAfter([]), ms[0]) == [];
    assert RunDeals(rs[..1], ms[..1]) == [];
    assert [t][1..] == [];
    BotRests();
    assert DealsOf(k, BookMap(b), o, [t]) == [Deal(Human, SideUnspecified, "bot", IndexOf(k, "b") < |k|, 1, 1.0)];
  }

  lemma FirstTrade()
    ensures TradesIn(Handle(BookAfter([]), SidelessRun()[0]).events) == []
  {
    var o := SidelessRun()[0].payload.order;
    WalkStops(true, o, [], 1);
    var st := SubmitBid(EmptyBook(), o, 0);
    assert Handle(BookAfter([]), SidelessRun()[0]) == st;
    assert st.events[1..] == [];
  }

  lemma SecondTrade()
    ensures TradesIn(Handle(BookAfter(SidelessRun()[..1]), SidelessRun()[1]).events)
         == [Trade(0, 1.0, 1, SideUnspecified, "a", "b", 1)]
  {
    FirstRests();
    var ms := SidelessRun();
    var b, o := BookAfter(ms[..1]), ms[1].payload.order;
    WalkStep(false, o, b.bids, 1);
    WalkStops(false, o, b.bids[1..], 0);
    var st := SubmitAsk(b, o, 1);
    assert Handle(b, ms[1]) == st;
    var w := Walk(false, o, b.bids, 1);
    assert w.fills == [Fill(b.bids[0], 1)];
    TradesInFills(o, w.fills, 0, 1, TopOf(st.book, 1));
    assert st.events == TradesOf(o, w.fills, 0, 1) + [TopEvent(TopOf(st.book, 1))];
    assert w.fills[1..] == [];
  }

  lemma BotRests()
    ensures var m := BookMap(BookAfter(SidelessRun()[..1])); "b" in m && m["b"].node == "bot"
  {
    FirstRests();
    var b := BookAfter(SidelessRun()[..1]);
    assert RestMap(b.asks) == map[];
  }

  /** In that run the human sold one unit, and the screen says that the human bought one. */
  lemma SidelessTradeIsMisread(bs: seq<WireBatch>, rs: seq<Record>)
    requires Shown(bs, rs) && RecordsOf(rs, SidelessRun())
    ensures AccountOf(LegsOf(TradesShown(bs)), Human).position == 1
    ensures AccountOf(RunLegs(SidelessRun()), Human).position == -1
  {
    hide Shown, RecordOf, LegsOf, RunLegs, TradesShown, RunDeals, ShownLegs, RealLegs, AccountOf;
    SidelessRunSound();
    RunDealsAre(bs, rs, SidelessRun());
    SidelessDeal(rs);
    var known :| RunDeals(rs, SidelessRun()) == [Deal(Human, SideUnspecified, "bot", known, 1, 1.0)];
    SoldIsShownBought(Deal(Human, SideUnspecified, "bot", known, 1, 1.0));
  }

  lemma SoldIsShownBought(d: Deal)
    requires d.side == SideUnspecified && d.aggressor != d.owner && d.aggressor != "?"
    ensures AccountOf(ShownLegs([d]), d.aggressor).position == d.qty
    ensures AccountOf(RealLegs([d]), d.aggressor).position == -d.qty
  {
    hide AccountOf, Value;
    OneDeal(d);
    NoAccount([], d.aggressor);
    AccountPair([], ShownPair(d), d.aggressor);
    AccountPair([], RealPair(d), d.aggressor);
    assert [] + ShownPair(d) == ShownPair(d) && [] + RealPair(d) == RealPair(d);
  }

  lemma SidelessRunSound()
    ensures Sound(SidelessRun())
  {
    var ms := SidelessRun();
    assert ms[..1][..0] == [] && OpsOf([]) == [];
    assert OpsOf(ms[..1]) == [SubmitOp(ms[0].payload.order, 0)];
    assert ms[..|ms| - 1] == ms[..1];
    assert OpsOf(ms) == [SubmitOp(ms[0].payload.order, 0), SubmitOp(ms[1].payload.order, 1)];
  }
}
