/** The statistics against the engine they never see: open orders and positions over whole runs. */
module StatsRuns {
  import opened MarketTypes
  import opened FlatBook
  import opened BookMatching
  import opened BookInvariant
  import opened BookRuns
  import opened EngineSpec
  import opened BookShadow
  import opened Normalizers
  import opened NormalizerRuns
  import opened Stats

  type OpenMap = map<OrderId, OpenOrder>

  /** The batches a normalizer sends for the records of a run. */
  ghost predicate Shown(bs: seq<WireBatch>, rs: seq<Record>) {
    && |bs| == |rs|
    && forall i :: 0 <= i < |bs| ==>
         Carries(bs[i], rs[i]) && bs[i].trades == WireTrades(KeptRun(rs[..i]), TradesIn(rs[i].events), rs[i].nodeId)
  }

  lemma ShownPrefix(bs: seq<WireBatch>, rs: seq<Record>)
    requires Shown(bs, rs) && bs != []
    ensures Shown(bs[..|bs| - 1], rs[..|rs| - 1])
  {
    hide Carries, WireTrades, KeptRun, TradesIn;
    var n := |bs| - 1;
    forall i | 0 <= i < n
      ensures Carries(bs[i], rs[i]) && bs[i].trades == WireTrades(KeptRun(rs[..n][..i]), TradesIn(rs[i].events), rs[i].nodeId)
    {
      assert rs[..n][..i] == rs[..i];
    }
  }

  // ---------- Open orders ----------

  predicate HumanSided(i: Info) {
    i.node == Human && i.side != SideUnspecified
  }

  function Opened(i: Info): OpenOrder {
    OpenOrder(if i.side == Ask then WireAsk else WireBid, i.price, i.remaining)
  }

  /** The human's resting orders that have a side. */
  function HumanOrders(m: Shadow): OpenMap {
    map id | id in m && HumanSided(m[id]) :: Opened(m[id])
  }

  /** Message `m` cancels, in the name of somebody else, an order of the human that has a side. */
  predicate ForeignCancel(b: Book, m: Message) {
    && m.payload.CancelPayload? && m.payload.nodeId != Human
    && m.payload.orderId in BookMap(b) && HumanSided(BookMap(b)[m.payload.orderId])
  }

  /** The orders lost that way, as they were when they were cancelled. */
  function Orphans(ms: seq<Message>): OpenMap {
    if ms == [] then map[]
    else
      var n := |ms| - 1;
      var b := BookAfter(ms[..n]);
      if ForeignCancel(b, ms[n]) then
        Orphans(ms[..n])[ms[n].payload.orderId := Opened(BookMap(b)[ms[n].payload.orderId])]
      else Orphans(ms[..n])
  }

  lemma HumanHit(m: Shadow, rest: OpenMap, t: Trade, w: WireTrade)
    requires t.restingId in m && w.resting == t.restingId && w.qty == t.qty && m.Keys !! rest.Keys
    ensures OpenHit(HumanOrders(m) + rest, w) == HumanOrders(Hit(m, t.restingId, t.qty)) + rest
    ensures Hit(m, t.restingId, t.qty).Keys !! rest.Keys
  {
    hide HumanOrders, HumanSided, Opened;
    var id := t.restingId;
    var left := m[id].remaining - t.qty;
    HumanAt(m, rest, id);
    HumanDrop(m, rest, id);
    HumanReduce(m, rest, id, left);
  }

  lemma HumanAt(m: Shadow, rest: OpenMap, id: OrderId)
    requires id in m && m.Keys !! rest.Keys
    ensures id in HumanOrders(m) + rest <==> HumanSided(m[id])
    ensures HumanSided(m[id]) ==> (HumanOrders(m) + rest)[id] == Opened(m[id]) && Opened(m[id]).remaining == m[id].remaining
  {
  }

  lemma HumanReduce(m: Shadow, rest: OpenMap, id: OrderId, left: int)
    requires id in m && m.Keys !! rest.Keys
    ensures var m' := m[id := m[id].(remaining := left)];
      && HumanOrders(m') + rest == (if HumanSided(m[id]) then (HumanOrders(m) + rest)[id := Opened(m[id]).(remaining := left)] else HumanOrders(m) + rest)
      && m'.Keys == m.Keys
  {
    hide HumanOrders;
    HumanReduced(m, id, left);
  }

  lemma HumanReduced(m: Shadow, id: OrderId, left: int)
    requires id in m
    ensures HumanOrders(m[id := m[id].(remaining := left)])
         == if HumanSided(m[id]) then HumanOrders(m)[id := Opened(m[id]).(remaining := left)] else HumanOrders(m)
  {
  }

  lemma {:induction false} HumanHits(m: Shadow, rest: OpenMap, ts: seq<Trade>, ws: seq<WireTrade>, node: NodeId)
    requires AllHit(m, ts) && CarriesTrades(ws, ts, node) && m.Keys !! rest.Keys
    ensures OpenHitAll(HumanOrders(m) + rest, ws) == HumanOrders(HitAll(m, ts)) + rest
    ensures HitAll(m, ts).Keys !! rest.Keys
    decreases |ts|
  {
    hide HumanOrders, Hit, OpenHit;
    if ts != [] {
      HumanHit(m, rest, ts[0], ws[0]);
      HumanHits(Hit(m, ts[0].restingId, ts[0].qty), rest, ts[1..], ws[1..], node);
    }
  }

  lemma HumanSet(m: Shadow, rest: OpenMap, id: OrderId, info: Info)
    requires id !in m && id !in rest
    ensures HumanOrders(m[id := info]) + rest
         == if HumanSided(info) then (HumanOrders(m) + rest)[id := Opened(info)] else HumanOrders(m) + rest
  {
  }

  lemma HumanDrop(m: Shadow, rest: OpenMap, id: OrderId)
    requires m.Keys !! rest.Keys
    ensures id in m ==> HumanOrders(m - {id}) + rest == (HumanOrders(m) + rest) - {id}
    ensures id !in m ==> HumanOrders(m - {id}) == HumanOrders(m)
    ensures id in m && HumanSided(m[id]) ==> HumanOrders(m - {id}) + rest[id := Opened(m[id])] == HumanOrders(m) + rest
    ensures id in m && !HumanSided(m[id]) ==> HumanOrders(m - {id}) + rest == HumanOrders(m) + rest
  {
    hide HumanOrders, HumanSided, Opened;
    HumanWithout(m, id);
    var h := HumanOrders(m);
    assert id in m && id in h ==> (h - {id}) + rest[id := h[id]] == h + rest;
    assert id !in h ==> h - {id} == h;
  }

  lemma HumanWithout(m: Shadow, id: OrderId)
    ensures HumanOrders(m - {id}) == HumanOrders(m) - {id} && HumanOrders(m).Keys <= m.Keys
    ensures id in HumanOrders(m) <==> id in m && HumanSided(m[id])
    ensures id in HumanOrders(m) ==> HumanOrders(m)[id] == Opened(m[id])
  {
  }

  /** The open orders after one message, from those before. */
  lemma SubmitOpens(b: Book, rest: OpenMap, m: Message, seqNo: nat, w: WireBatch)
    requires BookOk(b) && m.payload.SubmitPayload? && BookMap(b).Keys !! rest.Keys
    requires var o := m.payload.order; o.qty >= 0 && !Has(b.bids, o.id) && !Has(b.asks, o.id) && o.id !in rest
    requires Carries(w, RecordFor(m, Handle(b, m), seqNo))
    ensures var m' := BookMap(Handle(b, m).book);
      OpenStep(HumanOrders(BookMap(b)) + rest, w) == HumanOrders(m') + rest && m'.Keys !! rest.Keys
  {
    hide BookOk, Has, BookMap, HitAll, AllHit, TradesIn, Submit, DepthOf, OpenHitAll, HumanOrders, ToWireTop, CarriesTrades;
    var o, st := m.payload.order, Handle(b, m);
    var ts := TradesIn(st.events);
    SubmitFollows(b, o, m.ts);
    HumanHits(BookMap(b), rest, ts, w.trades, o.node);
    NewIdNotHit(b, o.id, ts);
    HumanSet(HitAll(BookMap(b), ts), rest, o.id, Info(o.node, o.side, o.price, o.qty - st.result.filled));
  }

  lemma CancelOpens(b: Book, rest: OpenMap, m: Message, seqNo: nat, w: WireBatch)
    requires BookOk(b) && m.payload.CancelPayload? && BookMap(b).Keys !! rest.Keys
    requires Carries(w, RecordFor(m, Handle(b, m), seqNo))
    ensures var id := m.payload.orderId; var m' := BookMap(Handle(b, m).book);
      var rest' := if ForeignCancel(b, m) then rest[id := Opened(BookMap(b)[id])] else rest;
      OpenStep(HumanOrders(BookMap(b)) + rest, w) == HumanOrders(m') + rest' && m'.Keys !! rest'.Keys
  {
    hide BookOk, BookMap, TradesIn, Cancel, DepthOf, OpenHitAll, HumanOrders, ToWireTop, HumanSided, Opened;
    var id := m.payload.orderId;
    CancelFollows(b, id, m.ts);
    NoOpenHit(HumanOrders(BookMap(b)) + rest, w.trades);
    HumanDrop(BookMap(b), rest, id);
  }

  /** Orphans were submitted, and do not rest any more. */
  lemma {:induction false} OrphansSubmitted(ms: seq<Message>, id: OrderId)
    requires Sound(ms) && id in Orphans(ms)
    ensures Submitted(OpsOf(ms), id)
  {
    hide BookAfter, BookMap, HumanSided, Opened, BookOk;
    var n := |ms| - 1;
    SoundPrefix(ms);
    if id in Orphans(ms[..n]) {
      OrphansSubmitted(ms[..n], id);
      EarlierSubmitted(ms, id);
    } else {
      RestsSubmitted(ms[..n], id);
      EarlierSubmitted(ms, id);
    }
  }

  lemma EarlierSubmitted(ms: seq<Message>, id: OrderId)
    requires ms != [] && Submitted(OpsOf(ms[..|ms| - 1]), id)
    ensures Submitted(OpsOf(ms), id)
  {
    var ops, ops' := OpsOf(ms[..|ms| - 1]), OpsOf(ms);
    var i :| 0 <= i < |ops| && ops[i].SubmitOp? && ops[i].o.id == id;
    assert ops'[i] == ops[i];
  }

  lemma RestsSubmitted(ms: seq<Message>, id: OrderId)
    requires id in BookMap(BookAfter(ms))
    ensures Submitted(OpsOf(ms), id)
  {
    hide BookAfter, After, Has;
    var b := BookAfter(ms);
    RestMapKeys(b.bids, id);
    RestMapKeys(b.asks, id);
    EngineIsBookRun(ms);
    RunIds(OpsOf(ms), id);
  }

  /** One message. */
  lemma MessageOpens(ms: seq<Message>, seqNo: nat, w: WireBatch)
    requires Sound(ms) && ms != [] && Carries(w, RecordOf(ms, |ms| - 1, seqNo))
    requires BookMap(BookAfter(ms[..|ms| - 1])).Keys !! Orphans(ms[..|ms| - 1]).Keys
    ensures var n := |ms| - 1;
      && OpenStep(HumanOrders(BookMap(BookAfter(ms[..n]))) + Orphans(ms[..n]), w) == HumanOrders(BookMap(BookAfter(ms))) + Orphans(ms)
      && BookMap(BookAfter(ms)).Keys !! Orphans(ms).Keys
  {
    hide BookOk, Has, BookMap, Submit, Cancel, Carries, OpenStep, HumanOrders, HumanSided, Opened, DepthOf;
    var n := |ms| - 1;
    var b, rest, m := BookAfter(ms[..n]), Orphans(ms[..n]), ms[n];
    SoundNext(ms);
    match m.payload
    case SubmitPayload(o) =>
      SoundPrefix(ms);
      if o.id in rest {
        OrphansSubmitted(ms[..n], o.id);
        OpsPrefix(ms, n);
        assert false;
      }
      SubmitOpens(b, rest, m, seqNo, w);
    case CancelPayload(id, node) =>
      CancelOpens(b, rest, m, seqNo, w);
    case NoPayload =>
      NothingOpens(m, HumanOrders(BookMap(b)) + rest, Handle(b, m), seqNo, w);
  }

  lemma NothingOpens(m: Message, open: OpenMap, st: Step, seqNo: nat, w: WireBatch)
    requires m.payload.NoPayload? && st.events == [] && st.result.status == StatusUnspecified
    requires Carries(w, RecordFor(m, st, seqNo))
    ensures OpenStep(open, w) == open
  {
    hide DepthOf;
    NoTrades();
    NoOpenHit(open, w.trades);
  }

  /** Over every run, the open orders shown are exactly the human's resting orders that have a side, together with the
      ones somebody else cancelled, frozen as they were. */
  lemma {:induction false} OpenIsHumanPlusOrphans(bs: seq<WireBatch>, rs: seq<Record>, ms: seq<Message>)
    requires Shown(bs, rs) && RecordsOf(rs, ms) && Sound(ms)
    ensures OpenAfter(bs) == HumanOrders(BookMap(BookAfter(ms))) + Orphans(ms)
    ensures BookMap(BookAfter(ms)).Keys !! Orphans(ms).Keys
  {
    hide BookMap, Carries, WireTrades, OpenStep, KeptRun, HumanOrders, RecordFor, TradesIn, Orphans, StepOf;
    if ms == [] {
      NobodyOpens();
    } else {
      var n := |ms| - 1;
      ShownPrefix(bs, rs);
      RecordsPrefix(rs, ms);
      SoundPrefix(ms);
      OpenIsHumanPlusOrphans(bs[..n], rs[..n], ms[..n]);
      MessageOpens(ms, rs[n].seqNo, bs[n]);
    }
  }

  lemma NobodyOpens()
    ensures HumanOrders(BookMap(BookAfter([]))) == map[] && Orphans([]) == map[]
  {
  }

  /** The human's resting orders, sided or not. */
  function AllHumanOrders(m: Shadow): OpenMap {
    map id | id in m && m[id].node == Human :: Opened(m[id])
  }

  /** The open orders shown are the human's resting orders exactly when nobody else ever cancelled one of them and
      none of them rests without a side. */
  lemma OpenIsBookIff(bs: seq<WireBatch>, rs: seq<Record>, ms: seq<Message>)
    requires Shown(bs, rs) && RecordsOf(rs, ms) && Sound(ms)
    ensures var m := BookMap(BookAfter(ms));
      OpenAfter(bs) == AllHumanOrders(m)
      <==> NoForeignCancel(ms)
           && (forall id :: id in m && m[id].node == Human ==> m[id].side != SideUnspecified)
  {
    hide BookMap, BookAfter, OpenAfter, NoForeignCancel, Orphans, Shown, RecordsOf, Sound, HumanOrders, AllHumanOrders;
    OpenIsHumanPlusOrphans(bs, rs, ms);
    OrphansIff(ms);
    HumanIff(BookMap(BookAfter(ms)), Orphans(ms));
  }

  lemma HumanIff(m: Shadow, rest: OpenMap)
    requires m.Keys !! rest.Keys
    ensures HumanOrders(m) + rest == AllHumanOrders(m)
       <==> rest == map[] && forall id :: id in m && m[id].node == Human ==> m[id].side != SideUnspecified
  {
    var h, all := HumanOrders(m), AllHumanOrders(m);
    assert rest == map[] <==> rest.Keys == {};
    if h + rest == all {
      assert rest.Keys <= (h + rest).Keys && all.Keys <= m.Keys;
      forall id | id in m && m[id].node == Human ensures m[id].side != SideUnspecified { assert id in all; }
    }
    if forall id :: id in m && m[id].node == Human ==> m[id].side != SideUnspecified {
      assert h == all;
    }
  }

  ghost predicate NoForeignCancel(ms: seq<Message>) {
    forall n :: 0 <= n < |ms| ==> !ForeignCancel(BookAfter(ms[..n]), ms[n])
  }

  lemma {:induction false} OrphansIff(ms: seq<Message>)
    ensures Orphans(ms) == map[] <==> NoForeignCancel(ms)
  {
    hide BookAfter, BookMap, HumanSided, Opened;
    if ms != [] {
      var k := |ms| - 1;
      OrphansIff(ms[..k]);
      if ForeignCancel(BookAfter(ms[..k]), ms[k]) {
        assert ms[k].payload.orderId in Orphans(ms);
      } else {
        forall n | 0 <= n < k ensures ms[..k][..n] == ms[..n] && ms[..k][n] == ms[n] {}
        assert NoForeignCancel(ms) <==> NoForeignCancel(ms[..k]) by {
          if NoForeignCancel(ms) {
            forall n | 0 <= n < k ensures !ForeignCancel(BookAfter(ms[..k][..n]), ms[..k][n]) {
              assert !ForeignCancel(BookAfter(ms[..n]), ms[n]);
            }
          }
          if NoForeignCancel(ms[..k]) {
            forall n | 0 <= n < |ms| ensures !ForeignCancel(BookAfter(ms[..n]), ms[n]) {
              if n < k { assert !ForeignCancel(BookAfter(ms[..k][..n]), ms[..k][n]); }
            }
          }
        }
      }
    }
  }
}
