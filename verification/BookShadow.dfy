/** The resting orders as a map from ids, and how one operation's trades and result change that map. */
module BookShadow {
  import opened MarketTypes
  import opened FlatBook
  import opened BookMatching
  import opened BookInvariant
  import opened BookRuns

  /** What the rest of the system wants to know about a resting order. */
  datatype Info = Info(node: NodeId, side: Side, price: real, remaining: int)

  type Shadow = map<OrderId, Info>

  function InfoOf(o: Order): Info {
    Info(o.node, o.side, o.price, o.qty)
  }

  function RestMap(s: seq<Resting>): Shadow {
    if s == [] then map[] else RestMap(s[1..])[s[0].order.id := InfoOf(s[0].order)]
  }

  /** Every order resting in the book. */
  function BookMap(b: Book): Shadow {
    RestMap(b.bids) + RestMap(b.asks)
  }

  function TradesIn(es: seq<MarketEvent>): seq<Trade> {
    if es == [] then []
    else (if es[0].TradeEvent? then [es[0].trade] else []) + TradesIn(es[1..])
  }

  /** A trade takes quantity from a resting order; an order with nothing left is gone. */
  function Hit(m: Shadow, id: OrderId, qty: int): Shadow {
    if id !in m then m
    else if m[id].remaining - qty <= 0 then m - {id}
    else m[id := m[id].(remaining := m[id].remaining - qty)]
  }

  function HitAll(m: Shadow, ts: seq<Trade>): Shadow {
    if ts == [] then m else HitAll(Hit(m, ts[0].restingId, ts[0].qty), ts[1..])
  }

  /** Does a submit with this status leave an order in the book? */
  predicate LeavesOrder(status: OrderStatus) {
    status == Queued || status == Partial
  }

  /** Every trade of the list hits an order that is still in the map. */
  ghost predicate AllHit(m: Shadow, ts: seq<Trade>) {
    ts == [] || (ts[0].restingId in m && AllHit(Hit(m, ts[0].restingId, ts[0].qty), ts[1..]))
  }

  // ---------- Queues ----------

  lemma {:induction false} RestMapKeys(s: seq<Resting>, id: OrderId)
    ensures id in RestMap(s) <==> Has(s, id)
  {
    if s != [] {
      RestMapKeys(s[1..], id);
      if Has(s[1..], id) {
        var i :| 0 <= i < |s[1..]| && s[1..][i].order.id == id;
        assert s[i + 1].order.id == id;
      }
      if Has(s, id) && s[0].order.id != id {
        var i :| 0 <= i < |s| && s[i].order.id == id;
        assert s[1..][i - 1].order.id == id;
      }
    }
  }

  lemma {:induction false} RestMapInsert(buy: bool, s: seq<Resting>, r: Resting)
    requires !Has(s, r.order.id)
    ensures RestMap(Insert(buy, s, r)) == RestMap(s)[r.order.id := InfoOf(r.order)]
  {
    if s == [] || Better(buy, r.order.price, s[0].order.price) {
      assert ([r] + s)[1..] == s;
    } else {
      assert s[0].order.id != r.order.id;
      forall i | 0 <= i < |s[1..]| ensures s[1..][i].order.id != r.order.id { assert s[i + 1].order.id != r.order.id; }
      RestMapInsert(buy, s[1..], r);
      assert Insert(buy, s, r)[1..] == Insert(buy, s[1..], r);
    }
  }

  lemma TailUnique(s: seq<Resting>)
    requires UniqueIds(s) && s != []
    ensures UniqueIds(s[1..]) && s[0].order.id !in RestMap(s[1..])
    ensures RestMap(s) - {s[0].order.id} == RestMap(s[1..])
  {
    RestMapKeys(s[1..], s[0].order.id);
    forall i | 0 <= i < |s[1..]| ensures s[1..][i].order.id != s[0].order.id { assert s[1..][i] == s[i + 1]; }
  }

  lemma {:induction false} RestMapRemove(s: seq<Resting>, id: OrderId)
    requires UniqueIds(s)
    ensures RestMap(Remove(s, id)) == RestMap(s) - {id}
  {
    if s != [] {
      TailUnique(s);
      if s[0].order.id != id {
        RestMapRemove(s[1..], id);
        assert Remove(s, id)[1..] == Remove(s[1..], id);
      }
    }
  }

  function FillTrades(o: Order, fills: seq<Fill>, tradeId: nat, ts: nat): seq<Trade> {
    if fills == [] then [] else [TradeOf(o, fills[0], tradeId, ts).trade] + FillTrades(o, fills[1..], tradeId + 1, ts)
  }

  lemma {:induction false} TradesInFills(o: Order, fills: seq<Fill>, tradeId: nat, ts: nat, top: TopOfBook)
    ensures TradesIn(TradesOf(o, fills, tradeId, ts) + [TopEvent(top)]) == FillTrades(o, fills, tradeId, ts)
  {
    var es := TradesOf(o, fills, tradeId, ts) + [TopEvent(top)];
    if fills == [] {
      assert es[1..] == [];
    } else {
      TradesInFills(o, fills[1..], tradeId + 1, ts, top);
      assert es[1..] == TradesOf(o, fills[1..], tradeId + 1, ts) + [TopEvent(top)];
    }
  }

  lemma RestMapCons(x: Resting, s: seq<Resting>)
    ensures RestMap([x] + s) == RestMap(s)[x.order.id := InfoOf(x.order)]
  {
    assert ([x] + s)[1..] == s;
  }

  /** The front order of a queue is hit: it leaves, or stays reduced. */
  lemma HitFront(k: Shadow, opp: seq<Resting>, qty: int)
    requires opp != [] && UniqueIds(opp) && 0 < qty <= opp[0].order.qty
    requires forall id :: id in k ==> !Has(opp, id)
    ensures var x := opp[0];
      && x.order.id in k + RestMap(opp)
      && Hit(k + RestMap(opp), x.order.id, qty)
         == if x.order.qty == qty then k + RestMap(opp[1..]) else k + RestMap([Reduced(x, qty)] + opp[1..])
  {
    hide RestMap, UniqueIds;
    var x := opp[0];
    TailUnique(opp);
    assert Has(opp, x.order.id);
    assert opp == [x] + opp[1..];
    RestMapCons(x, opp[1..]);
    RestMapCons(Reduced(x, qty), opp[1..]);
    HitAdded(k, RestMap(opp[1..]), x.order, qty);
  }

  lemma HitAdded(k: Shadow, m: Shadow, o: Order, qty: int)
    requires o.id !in k && o.id !in m && 0 < qty <= o.qty
    ensures Hit(k + m[o.id := InfoOf(o)], o.id, qty)
         == if o.qty == qty then k + m else k + m[o.id := InfoOf(o.(qty := o.qty - qty))]
  {
  }

  /** The trades of a walk, applied to the map, give the map of what is left; `k` are the orders of the other side. */
  lemma {:induction false} WalkHits(k: Shadow, buy: bool, o: Order, opp: seq<Resting>, rem: int, tradeId: nat, ts: nat)
    requires Positive(opp) && UniqueIds(opp) && rem >= 0 && forall id :: id in k ==> !Has(opp, id)
    ensures var w := Walk(buy, o, opp, rem); var trades := FillTrades(o, w.fills, tradeId, ts);
      && HitAll(k + RestMap(opp), trades) == k + RestMap(w.rest)
      && AllHit(k + RestMap(opp), trades)
  {
    hide Walk, RestMap, Hit, Has, UniqueIds, Positive;
    if opp == [] || rem <= 0 || !Crosses(buy, o, opp[0].order.price) {
      WalkStops(buy, o, opp, rem);
    } else {
      WalkHitsStep(k, buy, o, opp, rem, tradeId, ts);
      var t := Min(rem, opp[0].order.qty);
      WalkStep(buy, o, opp, rem);
      var w, w' := Walk(buy, o, opp, rem), Walk(buy, o, opp[1..], rem - t);
      assert w.fills[1..] == w'.fills;
      var m := Hit(k + RestMap(opp), opp[0].order.id, t);
      var trades, trades' := FillTrades(o, w.fills, tradeId, ts), FillTrades(o, w'.fills, tradeId + 1, ts);
      assert trades[0].restingId == opp[0].order.id && trades[0].qty == t;
      assert trades[1..] == trades';
      if opp[0].order.qty == t {
        WalkHits(k, buy, o, opp[1..], rem - t, tradeId + 1, ts);
        assert w.rest == w'.rest;
      } else {
        WalkStops(buy, o, opp[1..], rem - t);
        assert trades' == [];
      }
    }
  }

  lemma WalkHitsStep(k: Shadow, buy: bool, o: Order, opp: seq<Resting>, rem: int, tradeId: nat, ts: nat)
    requires Positive(opp) && UniqueIds(opp) && rem > 0 && opp != [] && forall id :: id in k ==> !Has(opp, id)
    ensures var t := Min(rem, opp[0].order.qty);
      && opp[0].order.id in k + RestMap(opp)
      && Hit(k + RestMap(opp), opp[0].order.id, t)
         == (if opp[0].order.qty == t then k + RestMap(opp[1..]) else k + RestMap([Reduced(opp[0], t)] + opp[1..]))
      && Positive(opp[1..]) && UniqueIds(opp[1..]) && (forall id :: id in k ==> !Has(opp[1..], id))
  {
    hide Hit;
    HitFront(k, opp, Min(rem, opp[0].order.qty));
    TailUnique(opp);
    forall id | id in k ensures !Has(opp[1..], id) {
      forall i | 0 <= i < |opp[1..]| ensures opp[1..][i].order.id != id { assert opp[1..][i] == opp[i + 1]; assert !Has(opp, id); }
    }
  }

  // ---------- One operation ----------

  /** What telemetry says about an operation, applied to the resting orders. */
  function AfterSubmit(m: Shadow, o: Order, st: Step): Shadow {
    var m1 := HitAll(m, TradesIn(st.events));
    if LeavesOrder(st.result.status) then m1[o.id := Info(o.node, o.side, o.price, o.qty - st.result.filled)] else m1
  }

  lemma DisjointMaps(b: Book)
    requires BookOk(b)
    ensures forall id :: id in RestMap(b.bids) ==> !Has(b.asks, id)
    ensures forall id :: id in RestMap(b.asks) ==> !Has(b.bids, id)
    ensures BookMap(b) == RestMap(b.asks) + RestMap(b.bids)
  {
    hide RestMap, SideOk, Uncrossed;
    forall id | id in RestMap(b.bids) ensures !Has(b.asks, id) && id !in RestMap(b.asks) {
      RestMapKeys(b.bids, id);
      RestMapKeys(b.asks, id);
    }
    forall id | id in RestMap(b.asks) ensures !Has(b.bids, id) {
      RestMapKeys(b.bids, id);
      RestMapKeys(b.asks, id);
    }
  }

  lemma FilledUnlessOpen(o: Order, fills: seq<Fill>, ts: nat)
    ensures LeavesOrder(SubmitResult(o, fills, ts).status) <==> Rests(o, FilledQty(fills))
  {
  }

  /** The resting orders follow the trades and the status of a submit. */
  lemma SubmitFollows(b: Book, o: Order, ts: nat)
    requires BookOk(b) && o.qty >= 0 && !Has(b.bids, o.id) && !Has(b.asks, o.id)
    ensures var st := Submit(b, o, ts);
      && BookMap(st.book) == AfterSubmit(BookMap(b), o, st)
      && AllHit(BookMap(b), TradesIn(st.events))
  {
    hide Walk, Insert, RestMap, HitAll, AllHit, TradesIn, TradesOf, FillTrades, FilledQty, Has, BookOk, TopOf, Notional;
    var buy := o.side == Bid;
    var opp, own := if buy then b.asks else b.bids, if buy then b.bids else b.asks;
    var w := Walk(buy, o, opp, o.qty);
    var st := Submit(b, o, ts);
    DisjointMaps(b);
    SidesOk(b);
    WalkHits(RestMap(own), buy, o, opp, o.qty, b.nextTrade, ts);
    TradesInFills(o, w.fills, b.nextTrade, ts, TopOf(st.book, ts));
    var r := Resting(b.nextStamp, o.(qty := o.qty - FilledQty(w.fills)));
    RestMapInsert(buy, own, r);
    FilledUnlessOpen(o, w.fills, ts);
    SubmitOk(b, o, ts);
    DisjointMaps(st.book);
    NotLeft(buy, o, opp, w);
    InsertedMap(RestMap(own), RestMap(w.rest), o.id, InfoOf(r.order));
  }

  lemma NotLeft(buy: bool, o: Order, opp: seq<Resting>, w: WalkResult)
    requires w == Walk(buy, o, opp, o.qty) && !Has(opp, o.id)
    ensures o.id !in RestMap(w.rest)
  {
    hide Walk, RestMap, Has;
    RestMapKeys(w.rest, o.id);
    if Has(w.rest, o.id) { WalkIds(buy, o, opp, o.qty, o.id); }
  }

  lemma InsertedMap(own: Shadow, rest: Shadow, id: OrderId, info: Info)
    requires id !in rest
    ensures own[id := info] + rest == (own + rest)[id := info]
    ensures rest + own[id := info] == (rest + own)[id := info]
  {
  }

  lemma SidesOk(b: Book)
    requires BookOk(b)
    ensures Positive(b.bids) && Positive(b.asks) && UniqueIds(b.bids) && UniqueIds(b.asks)
  {
  }

  /** The resting orders follow a cancel: exactly the cancelled id leaves, and it was there iff the cancel succeeds. */
  lemma CancelFollows(b: Book, id: OrderId, ts: nat)
    requires BookOk(b)
    ensures var st := Cancel(b, id, ts);
      && BookMap(st.book) == BookMap(b) - {id} && TradesIn(st.events) == []
      && (st.result.cancelOk <==> id in BookMap(b))
  {
    hide RestMap, Remove, Has, BookOk, TopOf;
    SidesOk(b);
    DisjointMaps(b);
    RestMapKeys(b.bids, id);
    RestMapKeys(b.asks, id);
    RestMapRemove(b.bids, id);
    RestMapRemove(b.asks, id);
    var st := Cancel(b, id, ts);
    assert st.events == [] || st.events[1..] == [];
    if st.result.cancelOk && Has(b.bids, id) {
      assert (RestMap(b.bids) - {id}) + RestMap(b.asks) == BookMap(b) - {id};
    } else {
      assert RestMap(b.bids) + (RestMap(b.asks) - {id}) == BookMap(b) - {id};
    }
  }

  // ---------- How many orders rest ----------

  lemma {:induction false} RestMapSize(s: seq<Resting>)
    requires UniqueIds(s)
    ensures |RestMap(s)| == |s|
  {
    if s != [] {
      TailUnique(s);
      RestMapSize(s[1..]);
      assert RestMap(s).Keys == RestMap(s[1..]).Keys + {s[0].order.id};
      assert |RestMap(s).Keys| == |RestMap(s[1..]).Keys| + 1;
    }
  }

  lemma BookMapSize(b: Book)
    requires BookOk(b)
    ensures |BookMap(b)| == |b.bids| + |b.asks|
  {
    hide RestMap, Has, BookOk;
    SidesOk(b);
    DisjointMaps(b);
    RestMapSize(b.bids);
    RestMapSize(b.asks);
    assert RestMap(b.bids).Keys !! RestMap(b.asks).Keys by {
      forall id | id in RestMap(b.bids) ensures id !in RestMap(b.asks) { RestMapKeys(b.asks, id); }
    }
    assert BookMap(b).Keys == RestMap(b.bids).Keys + RestMap(b.asks).Keys;
    assert |BookMap(b).Keys| == |RestMap(b.bids).Keys| + |RestMap(b.asks).Keys|;
  }
}
