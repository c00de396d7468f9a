/** The normalizer's shadow against the book it never sees, over whole runs of the engine. */
module NormalizerRuns {
  import opened MarketTypes
  import opened FlatBook
  import opened BookInvariant
  import opened EngineSpec
  import opened BookShadow
  import opened Normalizers

  ghost predicate Unique(m: seq<Kept>) {
    forall i, j :: 0 <= i < j < |m| ==> m[i].id != m[j].id
  }

  predicate Agrees(e: Kept, m: Shadow) {
    e.id in m && m[e.id].node == e.node && m[e.id].remaining == e.remaining
  }

  /** Every entry is a resting order with its owner and remaining quantity. */
  ghost predicate Within(k: seq<Kept>, m: Shadow) {
    Unique(k) && forall i :: 0 <= i < |k| ==> Agrees(k[i], m)
  }

  /** Every resting order has an entry. */
  ghost predicate Covers(k: seq<Kept>, m: Shadow) {
    forall id :: id in m ==> IndexOf(k, id) < |k|
  }

  lemma EraseEntry(k: seq<Kept>, m: Shadow, p: nat)
    requires Within(k, m) && p < |k|
    ensures Within(k[..p] + k[p + 1..], m - {k[p].id})
    ensures Covers(k, m) ==> Covers(k[..p] + k[p + 1..], m - {k[p].id})
  {
    hide IndexOf;
    var k' := k[..p] + k[p + 1..];
    assert forall i :: 0 <= i < |k'| ==> k'[i] == k[if i < p then i else i + 1];
    if Covers(k, m) {
      forall id | id in m - {k[p].id} ensures IndexOf(k', id) < |k'| {
        var q := IndexOf(k, id);
        assert k'[if q < p then q else q - 1].id == id;
      }
    }
  }

  lemma ReduceEntry(k: seq<Kept>, m: Shadow, p: nat, left: int)
    requires Within(k, m) && p < |k|
    ensures var id := k[p].id;
      && Within(k[p := k[p].(remaining := left)], m[id := m[id].(remaining := left)])
      && (Covers(k, m) ==> Covers(k[p := k[p].(remaining := left)], m[id := m[id].(remaining := left)]))
  {
    hide IndexOf;
    var k', m' := k[p := k[p].(remaining := left)], m[k[p].id := m[k[p].id].(remaining := left)];
    forall i | 0 <= i < |k'| ensures Agrees(k'[i], m') {
      assert Agrees(k[i], m);
    }
    if Covers(k, m) {
      forall id | id in m' ensures IndexOf(k', id) < |k'| {
        var q := IndexOf(k, id);
        assert k'[q].id == id;
      }
    }
  }

  /** A trade against an order the shadow does not know does not matter to it. */
  lemma UnknownHit(k: seq<Kept>, m: Shadow, id: OrderId, qty: int)
    requires Within(k, m) && IndexOf(k, id) == |k|
    ensures Within(k, Hit(m, id, qty)) && (Covers(k, m) ==> Covers(k, Hit(m, id, qty)))
  {
    hide IndexOf;
    forall i | 0 <= i < |k| ensures Agrees(k[i], Hit(m, id, qty)) {
      assert Agrees(k[i], m);
    }
  }

  lemma HitWithin(k: seq<Kept>, m: Shadow, id: OrderId, qty: int)
    requires Within(k, m)
    ensures Within(KeptHit(k, id, qty), Hit(m, id, qty))
    ensures Covers(k, m) ==> Covers(KeptHit(k, id, qty), Hit(m, id, qty))
  {
    hide IndexOf, Covers;
    var p := IndexOf(k, id);
    if p == |k| {
      UnknownHit(k, m, id, qty);
    } else {
      assert Agrees(k[p], m);
      EraseEntry(k, m, p);
      ReduceEntry(k, m, p, k[p].remaining - qty);
    }
  }

  lemma {:induction false} HitAllWithin(k: seq<Kept>, m: Shadow, ts: seq<Trade>)
    requires Within(k, m)
    ensures Within(KeptHitAll(k, ts), HitAll(m, ts))
    ensures Covers(k, m) ==> Covers(KeptHitAll(k, ts), HitAll(m, ts))
    decreases |ts|
  {
    hide Within, Covers, KeptHit, Hit;
    if ts != [] {
      HitWithin(k, m, ts[0].restingId, ts[0].qty);
      HitAllWithin(KeptHit(k, ts[0].restingId, ts[0].qty), Hit(m, ts[0].restingId, ts[0].qty), ts[1..]);
    }
  }

  lemma AddEntry(k: seq<Kept>, m: Shadow, e: Kept, info: Info)
    requires Within(k, m) && e.id !in m && info.node == e.node && info.remaining == e.remaining
    ensures Put(k, e) == k + [e] && Within(k + [e], m[e.id := info])
    ensures Covers(k, m) ==> Covers(k + [e], m[e.id := info])
  {
    hide IndexOf;
    var k', m' := k + [e], m[e.id := info];
    forall i | 0 <= i < |k| ensures Agrees(k[i], m') && k[i].id != e.id {
      assert Agrees(k[i], m);
    }
    if Covers(k, m) {
      forall id | id in m' ensures IndexOf(k', id) < |k'| {
        if id == e.id {
          assert k'[|k|].id == id;
        } else {
          assert k'[IndexOf(k, id)].id == id;
        }
      }
    }
  }

  lemma EvictEntry(k: seq<Kept>, m: Shadow)
    requires Within(k, m) && k != []
    ensures Within(k[1..], m)
  {
  }

  lemma {:induction false} WithinSize(k: seq<Kept>, m: Shadow)
    requires Within(k, m)
    ensures |k| <= |m| && (Covers(k, m) <==> |k| == |m|)
  {
    hide IndexOf, Agrees;
    var ids := KeptIds(k);
    KeptSize(k);
    assert ids <= m.Keys by {
      forall id | id in ids ensures id in m.Keys {
        var i :| 0 <= i < |k| && k[i].id == id;
        AgreesIn(k[i], m);
      }
    }
    Subset(ids, m.Keys);
    if Covers(k, m) {
      forall id | id in m ensures id in ids { assert k[IndexOf(k, id)].id == id; }
      assert ids == m.Keys;
    }
    if |k| == |m| {
      assert ids == m.Keys;
      forall id | id in m ensures IndexOf(k, id) < |k| {
        var i :| 0 <= i < |k| && k[i].id == id;
      }
    }
  }

  lemma AgreesIn(e: Kept, m: Shadow)
    requires Agrees(e, m)
    ensures e.id in m
  {
  }

  lemma Subset(a: set<OrderId>, b: set<OrderId>)
    requires a <= b
    ensures |a| <= |b| && (|a| == |b| ==> a == b)
  {
    assert b == a + (b - a);
    assert |b| == |a| + |b - a|;
  }

  function KeptIds(k: seq<Kept>): set<OrderId> {
    set i | 0 <= i < |k| :: k[i].id
  }

  lemma {:induction false} KeptSize(k: seq<Kept>)
    requires Unique(k)
    ensures |KeptIds(k)| == |k|
  {
    hide KeptIds;
    if k == [] {
      NoKeptIds();
    } else {
      var n := |k| - 1;
      KeptSize(k[..n]);
      KeptIdsSnoc(k);
    }
  }

  lemma NoKeptIds()
    ensures KeptIds([]) == {}
  {
  }

  lemma KeptIdsSnoc(k: seq<Kept>)
    requires Unique(k) && k != []
    ensures var n := |k| - 1; KeptIds(k) == KeptIds(k[..n]) + {k[n].id} && k[n].id !in KeptIds(k[..n])
  {
    var n := |k| - 1;
    forall id | id in KeptIds(k[..n]) ensures id in KeptIds(k) {
      var i :| 0 <= i < n && k[..n][i].id == id;
      assert k[i].id == id;
    }
    forall id | id in KeptIds(k) && id != k[n].id ensures id in KeptIds(k[..n]) {
      var i :| 0 <= i < |k| && k[i].id == id;
      assert k[..n][i].id == id;
    }
    assert k[n].id in KeptIds(k);
  }

  // ---------- Whole runs ----------

  /** The records of a run of the engine, whatever numbers they carry. */
  ghost predicate RecordsOf(rs: seq<Record>, ms: seq<Message>) {
    |rs| == |ms| && forall i :: 0 <= i < |rs| ==> rs[i] == RecordOf(ms, i, rs[i].seqNo)
  }

  /** The shadow after a run of records. */
  function KeptRun(rs: seq<Record>): seq<Kept> {
    if rs == [] then [] else KeptAfter(KeptRun(rs[..|rs| - 1]), rs[|rs| - 1])
  }

  lemma RecordsPrefix(rs: seq<Record>, ms: seq<Message>)
    requires RecordsOf(rs, ms) && rs != []
    ensures RecordsOf(rs[..|rs| - 1], ms[..|ms| - 1])
  {
    hide RecordFor;
    var n := |rs| - 1;
    forall i | 0 <= i < n ensures rs[..n][i] == RecordOf(ms[..n], i, rs[..n][i].seqNo) {
      StepOfPrefix(ms, n, i);
    }
  }

  /** One record of a submit. */
  lemma SubmitTracked(k: seq<Kept>, b: Book, m: Message, seqNo: nat)
    requires BookOk(b) && m.payload.SubmitPayload? && Within(k, BookMap(b)) && |k| <= Cap
    requires var o := m.payload.order; o.qty >= 0 && !Has(b.bids, o.id) && !Has(b.asks, o.id)
    ensures var st := Handle(b, m); var k' := KeptAfter(k, RecordFor(m, st, seqNo));
      && Within(k', BookMap(st.book)) && |k'| <= Cap
      && (Covers(k, BookMap(b)) && |BookMap(st.book)| <= Cap ==> Covers(k', BookMap(st.book)))
  {
    hide Within, Covers, KeptHitAll, HitAll, Put, BookOk, BookMap, Has, DepthOf, Submit, TradesIn, AllHit;
    var o, st := m.payload.order, Handle(b, m);
    var ts := TradesIn(st.events);
    SubmitFollows(b, o, m.ts);
    HitAllWithin(k, BookMap(b), ts);
    HitAllShrinks(k, ts);
    if LeavesOrder(st.result.status) {
      var k1, m1 := KeptHitAll(k, ts), HitAll(BookMap(b), ts);
      NewIdNotHit(b, o.id, ts);
      var e, info := Kept(o.id, o.node, o.qty - st.result.filled), Info(o.node, o.side, o.price, o.qty - st.result.filled);
      AddEntry(k1, m1, e, info);
      EvictEntry(k1 + [e], BookMap(st.book));
      WithinSize(k1 + [e], BookMap(st.book));
    }
  }

  lemma {:induction false} HitAllShrinks(k: seq<Kept>, ts: seq<Trade>)
    ensures |KeptHitAll(k, ts)| <= |k|
    decreases |ts|
  {
    if ts != [] { HitAllShrinks(KeptHit(k, ts[0].restingId, ts[0].qty), ts[1..]); }
  }

  lemma {:induction false} HitAllKeys(m: Shadow, ts: seq<Trade>, id: OrderId)
    requires id in HitAll(m, ts)
    ensures id in m && HitAll(m, ts)[id].node == m[id].node
  {
    if ts != [] { HitAllKeys(Hit(m, ts[0].restingId, ts[0].qty), ts[1..], id); }
  }

  lemma NewIdNotHit(b: Book, id: OrderId, ts: seq<Trade>)
    requires !Has(b.bids, id) && !Has(b.asks, id)
    ensures id !in HitAll(BookMap(b), ts)
  {
    hide HitAll, RestMap;
    RestMapKeys(b.bids, id);
    RestMapKeys(b.asks, id);
    if id in HitAll(BookMap(b), ts) { HitAllKeys(BookMap(b), ts, id); }
  }

  lemma CancelTracked(k: seq<Kept>, b: Book, m: Message, seqNo: nat)
    requires BookOk(b) && m.payload.CancelPayload? && Within(k, BookMap(b)) && |k| <= Cap
    ensures var st := Handle(b, m); var k' := KeptAfter(k, RecordFor(m, st, seqNo));
      && Within(k', BookMap(st.book)) && |k'| <= Cap
      && (Covers(k, BookMap(b)) ==> Covers(k', BookMap(st.book)))
  {
    hide IndexOf, BookOk, BookMap, DepthOf, Cancel, TradesIn, Covers, Within;
    var id, st := m.payload.orderId, Handle(b, m);
    CancelFollows(b, id, m.ts);
    var p := IndexOf(k, id);
    if p < |k| {
      EraseEntry(k, BookMap(b), p);
      KnownRests(k, BookMap(b), p);
    } else {
      ForgetUnknown(k, BookMap(b), id);
    }
  }

  lemma KnownRests(k: seq<Kept>, m: Shadow, p: nat)
    requires Within(k, m) && p < |k|
    ensures k[p].id in m
  {
    assert Agrees(k[p], m);
  }

  lemma ForgetUnknown(k: seq<Kept>, m: Shadow, id: OrderId)
    requires Within(k, m) && IndexOf(k, id) == |k|
    ensures Within(k, m - {id}) && (Covers(k, m) ==> Covers(k, m - {id}) && id !in m)
  {
    hide IndexOf;
    forall i | 0 <= i < |k| ensures Agrees(k[i], m - {id}) { assert Agrees(k[i], m); }
  }

  /** Fed every record from the empty book on, the shadow only holds orders that rest in the book, each with the right
      owner and remaining quantity, and never more than the cap. */
  lemma {:induction false} ShadowIsWithinBook(rs: seq<Record>, ms: seq<Message>)
    requires RecordsOf(rs, ms) && Sound(ms)
    ensures Within(KeptRun(rs), BookMap(BookAfter(ms))) && |KeptRun(rs)| <= Cap
    ensures (forall n :: 0 <= n <= |ms| ==> RestingCount(BookAfter(ms[..n])) <= Cap) ==> Covers(KeptRun(rs), BookMap(BookAfter(ms)))
  {
    hide Within, Covers, BookMap, KeptAfter, BookOk, Has, RecordFor, Handle, RestingCount;
    if ms == [] {
      EmptyShadow();
    } else {
      var n := |ms| - 1;
      RecordsPrefix(rs, ms);
      SoundPrefix(ms);
      ShadowIsWithinBook(rs[..n], ms[..n]);
      SoundNext(ms);
      SoundBook(ms);
      BookCount(BookAfter(ms));
      assert rs[n] == RecordFor(ms[n], Handle(BookAfter(ms[..n]), ms[n]), rs[n].seqNo);
      RecordTracked(KeptRun(rs[..n]), BookAfter(ms[..n]), ms[n], rs[n].seqNo);
      if forall j :: 0 <= j <= |ms| ==> RestingCount(BookAfter(ms[..j])) <= Cap {
        assert ms[..|ms|] == ms;
        forall j | 0 <= j <= n ensures RestingCount(BookAfter(ms[..n][..j])) <= Cap { assert ms[..n][..j] == ms[..j]; }
      }
    }
  }

  function RestingCount(b: Book): nat {
    |b.bids| + |b.asks|
  }

  lemma BookCount(b: Book)
    requires BookOk(b)
    ensures |BookMap(b)| == RestingCount(b)
  {
    BookMapSize(b);
  }

  lemma EmptyShadow()
    ensures Within([], BookMap(EmptyBook())) && Covers([], BookMap(EmptyBook()))
  {
  }

  lemma RecordTracked(k: seq<Kept>, b: Book, m: Message, seqNo: nat)
    requires BookOk(b) && Within(k, BookMap(b)) && |k| <= Cap
    requires m.payload.SubmitPayload? ==> var o := m.payload.order; o.qty >= 0 && !Has(b.bids, o.id) && !Has(b.asks, o.id)
    ensures var st := Handle(b, m); var k' := KeptAfter(k, RecordFor(m, st, seqNo));
      && Within(k', BookMap(st.book)) && |k'| <= Cap
      && (Covers(k, BookMap(b)) && |BookMap(st.book)| <= Cap ==> Covers(k', BookMap(st.book)))
  {
    hide Within, Covers, BookMap, BookOk, Has, DepthOf, Submit, Cancel, IndexOf;
    match m.payload
    case SubmitPayload(_) => SubmitTracked(k, b, m, seqNo);
    case CancelPayload(_, _) => CancelTracked(k, b, m, seqNo);
    case NoPayload => assert TradesIn([]) == [];
  }

  /** The shadow equals the book's resting orders after every message exactly when the book never held more orders
      than the cap. */
  lemma ShadowIsBookIff(rs: seq<Record>, ms: seq<Message>)
    requires RecordsOf(rs, ms) && Sound(ms)
    ensures (forall n :: 0 <= n <= |ms| ==> Covers(KeptRun(rs[..n]), BookMap(BookAfter(ms[..n]))))
       <==> (forall n :: 0 <= n <= |ms| ==> RestingCount(BookAfter(ms[..n])) <= 50_000)
  {
    hide Within, Covers, BookMap, KeptRun, BookOk, RecordFor, RestingCount, BookAfter;
    forall n | 0 <= n <= |ms|
      ensures Covers(KeptRun(rs[..n]), BookMap(BookAfter(ms[..n]))) ==> RestingCount(BookAfter(ms[..n])) <= Cap
      ensures (forall j :: 0 <= j <= |ms| ==> RestingCount(BookAfter(ms[..j])) <= Cap) ==> Covers(KeptRun(rs[..n]), BookMap(BookAfter(ms[..n])))
    {
      SoundUpTo(rs, ms, n);
      ShadowIsWithinBook(rs[..n], ms[..n]);
      SoundBook(ms[..n]);
      BookCount(BookAfter(ms[..n]));
      WithinSize(KeptRun(rs[..n]), BookMap(BookAfter(ms[..n])));
      assert forall j :: 0 <= j <= n ==> ms[..n][..j] == ms[..j];
    }
  }

  lemma {:induction false} SoundUpTo(rs: seq<Record>, ms: seq<Message>, n: nat)
    requires RecordsOf(rs, ms) && Sound(ms) && n <= |ms|
    ensures RecordsOf(rs[..n], ms[..n]) && Sound(ms[..n])
    decreases |ms|
  {
    hide RecordFor, OpsOf, StepOf;
    if n == |ms| {
      assert ms[..n] == ms && rs[..n] == rs;
    } else {
      RecordsPrefix(rs, ms);
      SoundPrefix(ms);
      SoundUpTo(rs[..|rs| - 1], ms[..|ms| - 1], n);
      assert ms[..|ms| - 1][..n] == ms[..n] && rs[..|rs| - 1][..n] == rs[..n];
    }
  }

  // ---------- Owners of traded orders ----------

  /** A trade is attributed to the owner of the order it hit, or to "?" when the shadow has lost it. */
  lemma {:induction false} OwnersNamed(k: seq<Kept>, m: Shadow, ts: seq<Trade>, node: NodeId, i: nat)
    requires Within(k, m) && AllHit(m, ts) && i < |ts|
    ensures |WireTrades(k, ts, node)| == |ts| && ts[i].restingId in m
    ensures WireTrades(k, ts, node)[i].restingNode == m[ts[i].restingId].node || WireTrades(k, ts, node)[i].restingNode == "?"
    ensures Covers(k, m) ==> WireTrades(k, ts, node)[i].restingNode == m[ts[i].restingId].node
    decreases |ts|
  {
    hide Within, Covers, KeptHit, Hit, IndexOf;
    WireTradesCarry(k, ts, node);
    var id, qty := ts[0].restingId, ts[0].qty;
    if i == 0 {
      Owner(k, m, id);
    } else {
      HitWithin(k, m, id, qty);
      OwnersNamed(KeptHit(k, id, qty), Hit(m, id, qty), ts[1..], node, i - 1);
      HitKeepsOwner(m, id, qty, ts[i].restingId);
    }
  }

  lemma HitKeepsOwner(m: Shadow, id: OrderId, qty: int, x: OrderId)
    requires x in Hit(m, id, qty)
    ensures x in m && Hit(m, id, qty)[x].node == m[x].node
  {
  }

  lemma Owner(k: seq<Kept>, m: Shadow, id: OrderId)
    requires Within(k, m) && id in m
    ensures NodeFor(k, id) == m[id].node || NodeFor(k, id) == "?"
    ensures Covers(k, m) ==> NodeFor(k, id) == m[id].node
  {
    hide IndexOf;
    var p := IndexOf(k, id);
    if p < |k| { assert Agrees(k[p], m); }
  }

  /** Over every run: each trade on the wire names the owner of the resting order it hit, as long as the book never
      held more orders than the cap; beyond that it names the owner or "?". */
  lemma TradesNameOwners(rs: seq<Record>, ms: seq<Message>, n: nat, i: nat)
    requires RecordsOf(rs, ms) && Sound(ms) && n < |rs| && i < |TradesIn(rs[n].events)|
    ensures var ws := WireTrades(KeptRun(rs[..n]), TradesIn(rs[n].events), rs[n].nodeId);
      var m := BookMap(BookAfter(ms[..n]));
      && |ws| == |TradesIn(rs[n].events)| && ws[i].resting in m
      && (ws[i].restingNode == m[ws[i].resting].node || ws[i].restingNode == "?")
      && ((forall j :: 0 <= j <= n ==> RestingCount(BookAfter(ms[..j])) <= Cap) ==> ws[i].restingNode == m[ws[i].resting].node)
  {
    hide Within, Covers, BookMap, KeptRun, BookOk, RestingCount, BookAfter, TradesIn, WireTrades, AllHit, OpsOf;
    SoundUpTo(rs, ms, n);
    ShadowIsWithinBook(rs[..n], ms[..n]);
    assert forall j :: 0 <= j <= n ==> ms[..n][..j] == ms[..j];
    RecordHits(rs, ms, n);
    OwnersNamed(KeptRun(rs[..n]), BookMap(BookAfter(ms[..n])), TradesIn(rs[n].events), rs[n].nodeId, i);
    WireTradesCarry(KeptRun(rs[..n]), TradesIn(rs[n].events), rs[n].nodeId);
  }

  /** Every trade of a record hits an order of the book before it. */
  lemma RecordHits(rs: seq<Record>, ms: seq<Message>, n: nat)
    requires RecordsOf(rs, ms) && Sound(ms) && n < |rs|
    ensures AllHit(BookMap(BookAfter(ms[..n])), TradesIn(rs[n].events))
  {
    hide BookMap, BookOk, BookAfter, TradesIn, OpsOf, Has, Submit, Cancel, DepthOf;
    SoundUpTo(rs, ms, n + 1);
    SoundNext(ms[..n + 1]);
    assert ms[..n + 1][..n] == ms[..n] && ms[..n + 1][n] == ms[n];
    assert rs[n] == RecordFor(ms[n], Handle(BookAfter(ms[..n]), ms[n]), rs[n].seqNo);
    match ms[n].payload
    case SubmitPayload(o) => SubmitFollows(BookAfter(ms[..n]), o, ms[n].ts);
    case CancelPayload(id, _) => CancelFollows(BookAfter(ms[..n]), id, ms[n].ts);
    case NoPayload => NoTrades();
  }

  lemma NoTrades()
    ensures TradesIn([]) == []
  {
  }

  // ---------- Book throttling ----------

  function LatestDepth(cs: seq<Call>): Option<BookDepth> {
    if cs == [] then None
    else if cs[|cs| - 1].OnRecord? then Some(cs[|cs| - 1].depth)
    else LatestDepth(cs[..|cs| - 1])
  }

  /** Throttling only delays: whatever is not pending has been shown, and what is pending is the latest depth; so after
      a flush, and after every record with trades, the clients see the book of the last record. */
  lemma {:induction false} ThrottlingLosesNothing(cs: seq<Call>)
    ensures var s := ScreenAfter(cs); if s.pending.Some? then s.pending == LatestDepth(cs) else s.shown == LatestDepth(cs)
    ensures cs != [] && (cs[|cs| - 1].OnFlush? || cs[|cs| - 1].traded) ==> ScreenAfter(cs).shown == LatestDepth(cs)
  {
    if cs != [] { ThrottlingLosesNothing(cs[..|cs| - 1]); }
  }

  /** Call `i` is a record whose depth is shown at once. */
  predicate ShownAtOnce(cs: seq<Call>, i: nat) {
    i < |cs| && cs[i].OnRecord? && ScreenAfter(cs[..i + 1]).pending.None? && ScreenAfter(cs[..i + 1]).shown == Some(cs[i].depth)
  }

  /** When a record's depth was last shown at once; 0 before the first. */
  function LastShownAt(cs: seq<Call>): int {
    if cs == [] then 0
    else if ShownAtOnce(cs, |cs| - 1) then cs[|cs| - 1].now
    else LastShownAt(cs[..|cs| - 1])
  }

  lemma {:induction false} LastShownIs(cs: seq<Call>)
    ensures ScreenAfter(cs).lastBookAt == LastShownAt(cs)
  {
    if cs != [] {
      assert cs[..|cs| - 1 + 1] == cs;
      LastShownIs(cs[..|cs| - 1]);
    }
  }

  /** A record is shown at once exactly when it has trades or at least 33 milliseconds have passed since the last one that
      was. */
  lemma ThrottleSpacing(cs: seq<Call>, i: nat)
    requires i < |cs| && cs[i].OnRecord?
    ensures ShownAtOnce(cs, i) <==> cs[i].traded || cs[i].now - LastShownAt(cs[..i]) >= 33
  {
    LastShownIs(cs[..i]);
    assert cs[..i + 1][..i] == cs[..i] && cs[..i + 1][i] == cs[i];
  }
}
