/** Which orders the bounded shadow forgets: the oldest ones, and no others. */
module NormalizerAges {
  import opened MarketTypes
  import opened FlatBook
  import opened BookInvariant
  import opened BookRuns
  import opened EngineSpec
  import opened BookShadow
  import opened Normalizers
  import opened NormalizerRuns

  /** The message that submitted an order; the number of messages if none did. */
  function Age(all: seq<Message>, id: OrderId): nat {
    if all == [] then 0
    else if all[0].payload.SubmitPayload? && all[0].payload.order.id == id then 0
    else 1 + Age(all[1..], id)
  }

  /** Entries are kept in the order their orders were submitted. */
  ghost predicate ByAge(all: seq<Message>, k: seq<Kept>) {
    forall i, j :: 0 <= i < j < |k| ==> Age(all, k[i].id) < Age(all, k[j].id)
  }

  ghost predicate Keeps(k: seq<Kept>, id: OrderId) {
    exists i :: 0 <= i < |k| && k[i].id == id
  }

  /** Every resting order that is not kept was submitted before every order that is. */
  ghost predicate ForgetsOldest(all: seq<Message>, k: seq<Kept>, m: Shadow) {
    forall id, i :: id in m && !Keeps(k, id) && 0 <= i < |k| ==> Age(all, id) < Age(all, k[i].id)
  }

  ghost predicate Newest(all: seq<Message>, k: seq<Kept>, m: Shadow) {
    ByAge(all, k) && ForgetsOldest(all, k, m)
  }

  lemma KeepsIndex(k: seq<Kept>, id: OrderId)
    ensures Keeps(k, id) <==> IndexOf(k, id) < |k|
  {
    hide IndexOf;
    if IndexOf(k, id) < |k| { assert k[IndexOf(k, id)].id == id; }
  }

  // ---------- Steps of the shadow ----------

  lemma EraseAges(all: seq<Message>, k: seq<Kept>, m: Shadow, p: nat)
    requires Newest(all, k, m) && Unique(k) && p < |k|
    ensures Newest(all, k[..p] + k[p + 1..], m - {k[p].id})
  {
    hide Age;
    var k' := k[..p] + k[p + 1..];
    assert forall i :: 0 <= i < |k'| ==> k'[i] == k[if i < p then i else i + 1];
    forall id | Keeps(k, id) && id != k[p].id ensures Keeps(k', id) {
      var j :| 0 <= j < |k| && k[j].id == id;
      assert k'[if j < p then j else j - 1].id == id;
    }
  }

  lemma ReduceAges(all: seq<Message>, k: seq<Kept>, m: Shadow, p: nat, left: int, m': Shadow)
    requires Newest(all, k, m) && p < |k| && m'.Keys == m.Keys
    ensures Newest(all, k[p := k[p].(remaining := left)], m')
  {
    hide Age;
    var k' := k[p := k[p].(remaining := left)];
    forall id | Keeps(k, id) ensures Keeps(k', id) {
      var j :| 0 <= j < |k| && k[j].id == id;
      assert k'[j].id == id;
    }
  }

  lemma HitAges(all: seq<Message>, k: seq<Kept>, m: Shadow, id: OrderId, qty: int)
    requires Newest(all, k, m) && Within(k, m)
    ensures Newest(all, KeptHit(k, id, qty), Hit(m, id, qty))
  {
    hide IndexOf, Newest;
    var p := IndexOf(k, id);
    if p == |k| {
      FewerOrders(all, k, m, Hit(m, id, qty));
    } else {
      assert Agrees(k[p], m);
      EraseAges(all, k, m, p);
      ReduceAges(all, k, m, p, k[p].remaining - qty, Hit(m, id, qty) + m);
      if k[p].remaining - qty > 0 { ReduceAges(all, k, m, p, k[p].remaining - qty, Hit(m, id, qty)); }
    }
  }

  lemma FewerOrders(all: seq<Message>, k: seq<Kept>, m: Shadow, m': Shadow)
    requires Newest(all, k, m) && m'.Keys <= m.Keys
    ensures Newest(all, k, m')
  {
    hide Age;
  }

  lemma {:induction false} HitAllAges(all: seq<Message>, k: seq<Kept>, m: Shadow, ts: seq<Trade>)
    requires Newest(all, k, m) && Within(k, m)
    ensures Newest(all, KeptHitAll(k, ts), HitAll(m, ts))
    decreases |ts|
  {
    hide Newest, Within, KeptHit, Hit;
    if ts != [] {
      var id, qty := ts[0].restingId, ts[0].qty;
      HitAges(all, k, m, id, qty);
      HitWithin(k, m, id, qty);
      HitAllAges(all, KeptHit(k, id, qty), Hit(m, id, qty), ts[1..]);
    }
  }

  /** The newest order goes to the end. */
  lemma AddAges(all: seq<Message>, k: seq<Kept>, m: Shadow, e: Kept, info: Info)
    requires Newest(all, k, m) && Within(k, m) && e.id !in m
    requires forall id :: id in m ==> Age(all, id) < Age(all, e.id)
    ensures Newest(all, k + [e], m[e.id := info])
  {
    hide Age;
    var k', m' := k + [e], m[e.id := info];
    forall i | 0 <= i < |k| ensures k[i].id in m { assert Agrees(k[i], m); }
    assert k'[|k|].id == e.id;
    assert Keeps(k', e.id);
    forall id | Keeps(k, id) ensures Keeps(k', id) {
      var j :| 0 <= j < |k| && k[j].id == id;
      assert k'[j].id == id;
    }
  }

  /** The first entry is the oldest, so it is the one to forget. */
  lemma EvictAges(all: seq<Message>, k: seq<Kept>, m: Shadow)
    requires Newest(all, k, m) && k != []
    ensures Newest(all, k[1..], m)
  {
    hide Age;
    var k' := k[1..];
    assert forall i :: 0 <= i < |k'| ==> k'[i] == k[i + 1];
    forall id | Keeps(k, id) && id != k[0].id ensures Keeps(k', id) {
      var j :| 0 <= j < |k| && k[j].id == id;
      assert k'[j - 1].id == id;
    }
  }

  // ---------- Whole runs ----------

  lemma {:induction false} AgeOfSubmit(all: seq<Message>, n: nat)
    requires n < |all| && all[n].payload.SubmitPayload?
    ensures Age(all, all[n].payload.order.id) <= n
  {
    if n > 0 { AgeOfSubmit(all[1..], n - 1); }
  }

  lemma {:induction false} AgeReached(all: seq<Message>, id: OrderId)
    ensures Age(all, id) <= |all|
    ensures Age(all, id) < |all| ==> all[Age(all, id)].payload.SubmitPayload? && all[Age(all, id)].payload.order.id == id
  {
    if all != [] { AgeReached(all[1..], id); }
  }

  /** Every order resting after `n` messages was submitted by one of them. */
  lemma RestingAge(all: seq<Message>, n: nat, id: OrderId)
    requires n <= |all| && id in BookMap(BookAfter(all[..n]))
    ensures Age(all, id) < n
  {
    hide BookAfter, BookMap, After, Has, Age, RestMap;
    var b := BookAfter(all[..n]);
    InBook(b, id);
    EngineIsBookRun(all[..n]);
    RunIds(OpsOf(all[..n]), id);
    var j := SubmitMessage(all[..n], id);
    AgeOfSubmit(all, j);
  }

  lemma InBook(b: Book, id: OrderId)
    requires id in BookMap(b)
    ensures Has(b.bids, id) || Has(b.asks, id)
  {
    hide RestMap, Has;
    RestMapKeys(b.bids, id);
    RestMapKeys(b.asks, id);
  }

  lemma {:induction false} SubmitMessage(ms: seq<Message>, id: OrderId) returns (j: nat)
    requires Submitted(OpsOf(ms), id)
    ensures j < |ms| && ms[j].payload.SubmitPayload? && ms[j].payload.order.id == id
  {
    var n := |ms| - 1;
    var ops, ops' := OpsOf(ms), OpsOf(ms[..n]);
    var i :| 0 <= i < |ops| && ops[i].SubmitOp? && ops[i].o.id == id;
    if i < |ops'| {
      assert ops'[i] == ops[i];
      j := SubmitMessage(ms[..n], id);
    } else {
      j := n;
    }
  }

  /** A new submit has the greatest age of all so far. */
  lemma NewAge(all: seq<Message>, n: nat)
    requires n < |all| && Sound(all[..n + 1]) && all[n].payload.SubmitPayload?
    ensures Age(all, all[n].payload.order.id) == n
  {
    hide OpsOf, Age;
    var id := all[n].payload.order.id;
    AgeOfSubmit(all, n);
    AgeReached(all, id);
    var a := Age(all, id);
    if a < n {
      OpsPrefix(all[..n + 1], n);
      assert all[..n + 1][..n] == all[..n];
      MessageSubmitted(all[..n], a);
    }
  }

  lemma {:induction false} MessageSubmitted(ms: seq<Message>, j: nat)
    requires j < |ms| && ms[j].payload.SubmitPayload?
    ensures Submitted(OpsOf(ms), ms[j].payload.order.id)
  {
    var n := |ms| - 1;
    var ops, ops' := OpsOf(ms), OpsOf(ms[..n]);
    if j < n {
      MessageSubmitted(ms[..n], j);
      var i :| 0 <= i < |ops'| && ops'[i].SubmitOp? && ops'[i].o.id == ms[j].payload.order.id;
      assert ops[i] == ops'[i];
    } else {
      assert ops[|ops| - 1] == SubmitOp(ms[n].payload.order, ms[n].ts);
    }
  }

  /** One record, seen by the ages of a whole run. */
  lemma RecordAges(all: seq<Message>, k: seq<Kept>, b: Book, m: Message, seqNo: nat)
    requires BookOk(b) && Within(k, BookMap(b)) && Newest(all, k, BookMap(b))
    requires m.payload.SubmitPayload? ==>
      var o := m.payload.order;
      && o.qty >= 0 && !Has(b.bids, o.id) && !Has(b.asks, o.id)
      && forall id :: id in BookMap(b) ==> Age(all, id) < Age(all, o.id)
    ensures var st := Handle(b, m); Newest(all, KeptAfter(k, RecordFor(m, st, seqNo)), BookMap(st.book))
  {
    hide Within, Newest, BookOk, BookMap, Has, DepthOf, Submit, Cancel, TradesIn, KeptHitAll, HitAll, AllHit, IndexOf, Age;
    var st := Handle(b, m);
    var ts := TradesIn(st.events);
    match m.payload
    case SubmitPayload(o) =>
      SubmitFollows(b, o, m.ts);
      HitAllAges(all, k, BookMap(b), ts);
      HitAllWithin(k, BookMap(b), ts);
      if LeavesOrder(st.result.status) {
        var k1, m1 := KeptHitAll(k, ts), HitAll(BookMap(b), ts);
        NewIdNotHit(b, o.id, ts);
        forall id | id in m1 ensures Age(all, id) < Age(all, o.id) { HitAllKeys(BookMap(b), ts, id); }
        var e, info := Kept(o.id, o.node, o.qty - st.result.filled), Info(o.node, o.side, o.price, o.qty - st.result.filled);
        AddEntry(k1, m1, e, info);
        AddAges(all, k1, m1, e, info);
        EvictAges(all, k1 + [e], m1[e.id := info]);
      }
    case CancelPayload(id, _) =>
      CancelFollows(b, id, m.ts);
      CancelAges(all, k, BookMap(b), id);
      assert TradesIn(st.events) == [];
      NoHits(k);
    case NoPayload =>
      NoTrades();
      NoHits(k);
  }

  lemma NoHits(k: seq<Kept>)
    ensures KeptHitAll(k, []) == k
  {
  }

  lemma CancelAges(all: seq<Message>, k: seq<Kept>, m: Shadow, id: OrderId)
    requires Newest(all, k, m) && Within(k, m)
    ensures Newest(all, Drop(k, id), m - {id}) && (id !in m ==> Newest(all, k, m - {id}))
  {
    hide IndexOf, Newest;
    var p := IndexOf(k, id);
    if p < |k| { EraseAges(all, k, m, p); }
    FewerOrders(all, k, m, m - {id});
  }

  lemma {:induction false} AgesUpTo(rs: seq<Record>, all: seq<Message>, n: nat)
    requires RecordsOf(rs, all) && Sound(all) && n <= |all|
    ensures Newest(all, KeptRun(rs[..n]), BookMap(BookAfter(all[..n])))
  {
    hide Within, Newest, BookMap, KeptAfter, BookOk, Has, RecordFor, Handle, Age, OpsOf, StepOf;
    if n == 0 {
      NothingOld(all);
    } else {
      AgesUpTo(rs, all, n - 1);
      SoundUpTo(rs, all, n);
      SoundNext(all[..n]);
      assert all[..n][..n - 1] == all[..n - 1] && all[..n][n - 1] == all[n - 1];
      assert rs[..n][..n - 1] == rs[..n - 1];
      SoundUpTo(rs, all, n - 1);
      ShadowIsWithinBook(rs[..n - 1], all[..n - 1]);
      var b, m := BookAfter(all[..n - 1]), all[n - 1];
      RecordIs(rs, all, n - 1);
      if m.payload.SubmitPayload? {
        NewAge(all, n - 1);
        forall id | id in BookMap(b) ensures Age(all, id) < Age(all, m.payload.order.id) { RestingAge(all, n - 1, id); }
      }
      RecordAges(all, KeptRun(rs[..n - 1]), b, m, rs[n - 1].seqNo);
    }
  }

  lemma RecordIs(rs: seq<Record>, all: seq<Message>, n: nat)
    requires RecordsOf(rs, all) && n < |all|
    ensures rs[n] == RecordFor(all[n], Handle(BookAfter(all[..n]), all[n]), rs[n].seqNo)
  {
    hide RecordFor, Handle, BookAfter;
  }

  lemma NothingOld(all: seq<Message>)
    ensures Newest(all, [], BookMap(BookAfter([])))
  {
    hide Age;
  }

  /** Over every run, what the shadow has forgotten is older than everything it still holds: it gives up the order that was
      submitted first, and nothing else. */
  lemma ShadowForgetsOldest(rs: seq<Record>, ms: seq<Message>, id: OrderId, i: nat)
    requires RecordsOf(rs, ms) && Sound(ms)
    requires id in BookMap(BookAfter(ms)) && (forall j :: 0 <= j < |KeptRun(rs)| ==> KeptRun(rs)[j].id != id)
    requires i < |KeptRun(rs)|
    ensures Age(ms, id) < Age(ms, KeptRun(rs)[i].id)
  {
    hide BookMap, KeptRun, BookAfter, Age, Sound, RecordOf;
    AgesUpTo(rs, ms, |ms|);
    assert rs[..|ms|] == rs && ms[..|ms|] == ms;
    assert !Keeps(KeptRun(rs), id);
  }
}
