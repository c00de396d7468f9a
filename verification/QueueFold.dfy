/** Folding a fully handled buffer out of the list preserves the invariant. */
module QueueFold {
  import opened QueueModel
  import opened QueueInvariant
  import opened QueueMemory
  import opened QueueProducer
  import opened QueueConsumer
  import opened QueueDeliver

  /** `m'` differs from `m` in links of one buffer only (and possibly in its freed flag). */
  ghost predicate Relinked(m: Memory, m': Memory, p: nat) {
    && p < |m.heap| == |m'.heap|
    && m'.chain == m.chain && m'.headOfQueue == m.headOfQueue && m'.tailOfQueue == m.tailOfQueue
    && (forall q :: 0 <= q < |m.heap| && q != p ==> m'.heap[q] == m.heap[q])
    && m'.heap[p].slots == m.heap[p].slots && m'.heap[p].head == m.heap[p].head && m'.heap[p].pos == m.heap[p].pos
  }

  lemma RelinkedFacts(m: Memory, m': Memory, p: nat)
    requires HeapOk(m) && Relinked(m, m', p) && BufferOk(m', m'.heap[p]) && LinkOk(m', m'.garbage)
    ensures HeapOk(m')
    ensures forall q :: Main(m', q) == Main(m, q)
    ensures forall q :: Ord(m', q) == Ord(m, q) && Buf(m', q).head == Buf(m, q).head && Buf(m', q).slots == Buf(m, q).slots
    ensures forall q :: q != p ==> Buf(m', q) == Buf(m, q)
    ensures HeadOrd(m') == HeadOrd(m) && TailOrd(m') == TailOrd(m) && HeadLoc(m') == HeadLoc(m)
  {
    forall q | 0 <= q < |m'.heap| ensures BufferOk(m', m'.heap[q]) {
      assert BufferOk(m, m.heap[q]);
    }
    forall q ensures Main(m', q) == Main(m, q) && Ord(m', q) == Ord(m, q) {}
  }

  lemma RelinkedStates(m: Memory, m': Memory, p: nat)
    requires HeapOk(m) && Relinked(m, m', p)
    ensures forall l: nat :: StateOf(m', l) == StateOf(m, l) && DataOf(m', l) == DataOf(m, l)
    ensures forall k :: 0 <= k < |m.chain| ==> AllHandled(m', k) == AllHandled(m, k)
  {
    hide BufNo, IdxOf, BufferOk, Main;
    forall k | 0 <= k < |m.chain| ensures Kth(m', k).slots == Kth(m, k).slots && AllHandled(m', k) == AllHandled(m, k) {
      assert Kth(m', k).slots == Kth(m, k).slots;
      assert forall i :: Cell(Kth(m', k), i) == Cell(Kth(m, k), i);
    }
  }

  /** Producers and deliveries depend on positions, slots and the tail only. */
  lemma RelinkedRest(s: State, m': Memory, p: nat)
    requires Inv(s) && Relinked(s.m, m', p) && BufferOk(m', m'.heap[p]) && LinkOk(m', m'.garbage)
    requires !m'.heap[s.m.headOfQueue].freed
    ensures HeapOk(m') && HeadOk(m')
    ensures ProducersOk(m', s.ops, s.appender)
    ensures OutSetOk(m', s.outLoc)
  {
    hide NextsOk, PrevsOk, PrevsLinked, FreedOk, EnqueuesOk, SeenOk, StateOf, DataOf, Distinct, OutItemsOk, ConsumerOk, RescanSeen;
    RelinkedFacts(s.m, m', p);
    RelinkedStates(s.m, m', p);
    KeepEnqueues(s.m, m', s.ops, s.appender);
    forall x: nat ensures x in s.outLoc <==> Consumed(m', x) { assert x in s.outLoc <==> Consumed(s.m, x); }
    forall j | 0 <= j < |m'.chain| && HeadOrd(m') < j ensures Kth(m', j).head == 0 { assert Kth(s.m, j).head == 0; }
  }

  /** Where the buffer being folded sits: between its linked neighbours `p` and `nx`, with folded buffers around. */
  ghost predicate FoldSite(m: Memory, buf: nat, p: nat, nx: nat) {
    && Main(m, buf) && Main(m, p) && Main(m, nx)
    && HeadOrd(m) <= Ord(m, p) < Ord(m, buf) < Ord(m, nx)
    && !Buf(m, p).freed && !Buf(m, buf).freed && !Buf(m, nx).freed
    && (forall k :: Ord(m, p) < k < Ord(m, buf) ==> Kth(m, k).freed)
    && (forall k :: Ord(m, buf) < k < Ord(m, nx) ==> Kth(m, k).freed)
  }

  lemma SiteAtFold(s: State, nx: nat)
    requires Inv(s) && (s.c.pc == FoldPrev(nx) || s.c.pc == FoldSkip(nx))
    ensures Buf(s.m, s.c.buf).prev.To? && Buf(s.m, s.c.buf).next == To(nx)
    ensures FoldSite(s.m, s.c.buf, Buf(s.m, s.c.buf).prev.id, nx)
    ensures nx != s.c.buf && Buf(s.m, s.c.buf).prev.id != s.c.buf
    ensures nx < |s.m.heap| && Buf(s.m, s.c.buf).prev.id < |s.m.heap|
  {
    hide PrevsOk, FreedOk, HeadOk, ProducersOk, OutOk, RescanSeen, AllHandled;
    var k := Ord(s.m, s.c.buf);
    assert Kth(s.m, k) == Buf(s.m, s.c.buf);
    assert NextOk(s.m, Null, k);
    assert s.c.pc.FoldPrev? ==> !Gone(s.m, Null, k);
    assert PrevLinked(s.m, Null, k);
    SiteFrom(s.m, s.c.buf, Buf(s.m, s.c.buf).prev.id, nx);
  }

  lemma SiteFrom(m: Memory, buf: nat, p: nat, nx: nat)
    requires HeapOk(m) && Main(m, buf) && !Buf(m, buf).freed && Buf(m, buf).prev == To(p) && Buf(m, buf).next == To(nx)
    requires PrevLinked(m, Null, Ord(m, buf)) && NextOk(m, Null, Ord(m, buf))
    ensures FoldSite(m, buf, p, nx)
  {
    hide BufferOk;
    assert Kth(m, Ord(m, buf)) == Buf(m, buf);
    assert Kth(m, Ord(m, p)) == Buf(m, p) && Kth(m, Ord(m, nx)) == Buf(m, nx);
    forall k | Ord(m, p) < k < Ord(m, buf) ensures Kth(m, k).freed { assert Gone(m, Null, k); }
    forall k | Ord(m, buf) < k < Ord(m, nx) ensures Kth(m, k).freed { assert Gone(m, Null, k); }
  }

  lemma FoldPrevPrevs(m: Memory, m': Memory, buf: nat, p: nat, nx: nat)
    requires HeapOk(m) && PrevsOk(m) && FreedOk(m) && FoldSite(m, buf, p, nx) && AllHandled(m, Ord(m, buf))
    requires Buf(m, buf).prev == To(p)
    requires m' == Store(m, nx, Buf(m, nx).(prev := To(p)))
    ensures Relinked(m, m', nx) && HeapOk(m') && PrevsOk(m')
  {
    hide AllHandled;
    assert BufferOk(m, m.heap[nx]);
    RelinkedFacts(m, m', nx);
    RelinkedStates(m, m', nx);
    assert PrevOk(m, Ord(m, buf)) by { assert Kth(m, Ord(m, buf)) == Buf(m, buf); }
    forall k | 0 < k < |m.chain| ensures PrevOk(m', k) {
      assert PrevOk(m, k);
      if m.chain[k] == nx {
        assert Kth(m, Ord(m, buf)) == Buf(m, buf);
        forall i | Ord(m, p) < i < k ensures AllHandled(m', i) {
          assert i < Ord(m, buf) ==> AllHandled(m, i);
          assert Ord(m, buf) < i ==> Kth(m, i).freed;
        }
      }
    }
  }

  lemma FoldPrevGone(m: Memory, m': Memory, buf: nat, p: nat, nx: nat)
    requires HeapOk(m) && FoldSite(m, buf, p, nx)
    requires m' == Store(m, nx, Buf(m, nx).(prev := To(p)))
    ensures forall k :: 0 <= k < |m.chain| ==> Gone(m', Null, k) == Gone(m, Null, k)
    ensures forall k :: 0 <= k < |m.chain| ==> Gone(m', To(buf), k) == (Gone(m, Null, k) || k == Ord(m, buf))
    ensures forall k :: 0 <= k < |m.chain| && m.chain[k] != nx ==> Kth(m', k) == Kth(m, k)
    ensures Kth(m', Ord(m, nx)).prev == To(p) && m.chain[Ord(m, nx)] == nx
    ensures !Gone(m, Null, Ord(m, p))
    ensures forall q :: Main(m', q) == Main(m, q)
    ensures forall q :: Ord(m', q) == Ord(m, q)
    ensures HeadOrd(m') == HeadOrd(m) && m'.chain == m.chain
  {
    hide BufferOk;
    assert Kth(m, Ord(m, p)) == Buf(m, p);
  }

  lemma FoldPrevLinkedAt(m: Memory, m': Memory, buf: nat, p: nat, nx: nat, k: nat)
    requires HeapOk(m) && FoldSite(m, buf, p, nx) && k < |m.chain| && PrevLinked(m, Null, k) && !Gone(m, Null, k)
    requires m' == Store(m, nx, Buf(m, nx).(prev := To(p)))
    requires k != Ord(m, buf)
    ensures PrevLinked(m', To(buf), k)
  {
    hide BufferOk, HeapOk, Gone;
    FoldPrevGone(m, m', buf, p, nx);
    if m.chain[k] != nx {
      FoldNotPrev(m, buf, p, nx, k);
      FoldOrd(m, Kth(m, k).prev.id, buf);
    } else {
      FoldOrdOf(m, k, nx);
      forall i | Ord(m, p) < i < k ensures Gone(m', To(buf), i) {
        FoldFreedGone(m, i);
      }
    }
  }

  lemma FoldOrd(m: Memory, p: nat, q: nat)
    requires Main(m, p) && Main(m, q)
    ensures Ord(m, p) == Ord(m, q) <==> p == q
  {
  }

  lemma FoldOrdOf(m: Memory, k: nat, q: nat)
    requires HeapOk(m) && k < |m.chain| && m.chain[k] == q
    ensures Ord(m, q) == k
  {
  }

  lemma FoldFreedGone(m: Memory, k: nat)
    requires k < |m.chain|
    ensures Kth(m, k).freed ==> Gone(m, Null, k)
  {
  }

  lemma FoldPrevLinked(m: Memory, m': Memory, buf: nat, p: nat, nx: nat)
    requires HeapOk(m) && PrevsLinked(m, Null) && FoldSite(m, buf, p, nx)
    requires m' == Store(m, nx, Buf(m, nx).(prev := To(p)))
    ensures PrevsLinked(m', To(buf))
  {
    hide HeapOk, FoldSite, Gone, HeadOrd, PrevLinked, Ord, Main;
    FoldPrevGone(m, m', buf, p, nx);
    forall k | 0 <= k < |m.chain| && HeadOrd(m') < k && !Gone(m', To(buf), k) ensures PrevLinked(m', To(buf), k) {
      assert PrevLinked(m, Null, k);
      FoldPrevLinkedAt(m, m', buf, p, nx, k);
    }
  }

  /** The links of the buffer being folded are not affected by bypassing it. */
  lemma FoldPrevSelf(m: Memory, m': Memory, buf: nat, p: nat, nx: nat)
    requires HeapOk(m) && FoldSite(m, buf, p, nx) && PrevLinked(m, Null, Ord(m, buf))
    requires m' == Store(m, nx, Buf(m, nx).(prev := To(p)))
    ensures PrevLinked(m', Null, Ord(m', buf))
  {
    hide BufferOk, Gone, HeadOrd;
    FoldPrevGone(m, m', buf, p, nx);
    assert Kth(m', Ord(m, buf)) == Kth(m, Ord(m, buf));
  }

  /** Only `nx` has the folded buffer as its prev. */
  lemma FoldNotPrev(m: Memory, buf: nat, p: nat, nx: nat, k: nat)
    requires HeapOk(m) && FoldSite(m, buf, p, nx) && k < |m.chain| && m.chain[k] != nx
    requires PrevLinked(m, Null, k)
    requires !Gone(m, Null, k)
    ensures Kth(m, k).prev != To(buf)
  {
    assert !Gone(m, Null, Ord(m, nx)) by { assert Kth(m, Ord(m, nx)) == Buf(m, nx); }
  }

  lemma RelinkNexts(m: Memory, m': Memory, q: nat, f: Link)
    requires HeapOk(m) && NextsOk(m, f) && Relinked(m, m', q) && HeapOk(m')
    requires m'.heap[q].next == m.heap[q].next && m'.heap[q].freed == m.heap[q].freed
    ensures NextsOk(m', f)
  {
    hide AllHandled, BufferOk;
    forall x ensures Main(m', x) == Main(m, x) && Ord(m', x) == Ord(m, x) {}
    forall k | 0 <= k < |m.chain| ensures Gone(m', f, k) == Gone(m, f, k) && Kth(m', k).next == Kth(m, k).next {}
    forall k | 0 <= k < |m.chain| && !Gone(m', f, k) ensures NextOk(m', f, k) { assert NextOk(m, f, k); }
  }

  lemma RelinkPrevs(m: Memory, m': Memory, q: nat, f: Link)
    requires HeapOk(m) && PrevsOk(m) && PrevsLinked(m, f) && Relinked(m, m', q) && HeapOk(m')
    requires m'.heap[q].prev == m.heap[q].prev && m'.heap[q].freed == m.heap[q].freed
    ensures PrevsOk(m') && PrevsLinked(m', f)
  {
    hide AllHandled, BufferOk;
    RelinkedStates(m, m', q);
    forall x ensures Main(m', x) == Main(m, x) && Ord(m', x) == Ord(m, x) {}
    forall k | 0 <= k < |m.chain| ensures Gone(m', f, k) == Gone(m, f, k) && Kth(m', k).prev == Kth(m, k).prev {}
    forall k | 0 < k < |m.chain| ensures PrevOk(m', k) { assert PrevOk(m, k); }
    forall k | 0 <= k < |m.chain| && HeadOrd(m') < k && !Gone(m', f, k) ensures PrevLinked(m', f, k) {
      assert PrevLinked(m, f, k);
    }
  }

  lemma RelinkFreed(m: Memory, m': Memory, q: nat)
    requires HeapOk(m) && FreedOk(m) && Relinked(m, m', q) && HeapOk(m')
    requires m'.heap[q].freed ==> m.heap[q].freed || (Main(m, q) && AllHandled(m, Ord(m, q)) && Ord(m, q) < TailOrd(m))
    ensures FreedOk(m')
  {
    hide AllHandled, BufferOk;
    RelinkedStates(m, m', q);
    forall k | 0 <= k < |m.chain| && Kth(m', k).freed ensures AllHandled(m', k) && k < TailOrd(m') {
      assert m.chain[k] != q ==> Kth(m', k) == Kth(m, k);
    }
  }

  lemma FoldPrevInv(s: State)
    requires Inv(s) && s.c.pc.FoldPrev?
    ensures Inv(ConsumerStep(s))
  {
    hide HeapOk, NextsOk, PrevsOk, PrevsLinked, FreedOk, HeadOk, ProducersOk, OutSetOk, Distinct, OutItemsOk, RescanSeen,
         AllHandled, FoldSite, PrevLinked;
    var nx := s.c.pc.nx;
    SiteAtFold(s, nx);
    var p := Buf(s.m, s.c.buf).prev.id;
    var m' := Store(s.m, nx, Buf(s.m, nx).(prev := To(p)));
    FoldPrevPrevs(s.m, m', s.c.buf, p, nx);
    FoldPrevLinked(s.m, m', s.c.buf, p, nx);
    FoldHeap(s, m', nx);
    RelinkNexts(s.m, m', nx, Null);
    RelinkFreed(s.m, m', nx);
    RelinkedRest(s, m', nx);
    FoldSelf(s, p, nx);
    FoldPrevSelf(s.m, m', s.c.buf, p, nx);
    FoldAtKept(s, m', nx);
  }

  lemma FoldSelf(s: State, p: nat, nx: nat)
    requires Inv(s) && FoldSite(s.m, s.c.buf, p, nx) && (s.c.pc == FoldPrev(nx) || s.c.pc == FoldSkip(nx))
    ensures PrevLinked(s.m, Null, Ord(s.m, s.c.buf))
  {
    hide NextsOk, PrevsOk, FreedOk, HeadOk, ProducersOk, OutOk, RescanSeen, AllHandled, PrevLinked;
    if s.c.pc.FoldPrev? {
      var k := Ord(s.m, s.c.buf);
      assert Kth(s.m, k) == Buf(s.m, s.c.buf);
      assert !Gone(s.m, Null, k);
    }
  }

  /** Stores into linked buffers keep the heap well formed. */
  lemma FoldHeap(s: State, m': Memory, q: nat)
    requires Inv(s) && Relinked(s.m, m', q) && m'.garbage == s.m.garbage
    requires m'.heap[q].next == s.m.heap[q].next || LinkOk(m', m'.heap[q].next)
    requires m'.heap[q].prev == s.m.heap[q].prev || LinkOk(m', m'.heap[q].prev)
    requires m'.heap[q].freed == s.m.heap[q].freed
    ensures BufferOk(m', m'.heap[q]) && LinkOk(m', m'.garbage)
    ensures !m'.heap[s.m.headOfQueue].freed
  {
    hide NextsOk, PrevsOk, PrevsLinked, FreedOk, ProducersOk, OutOk, RescanSeen, ConsumerOk;
    assert BufferOk(s.m, s.m.heap[q]);
  }

  lemma FoldAtKept(s: State, m': Memory, q: nat)
    requires Inv(s) && Relinked(s.m, m', q) && BufferOk(m', m'.heap[q]) && LinkOk(m', m'.garbage)
    requires FoldAt(s.m, s.c) && q != s.c.buf
    ensures FoldAt(m', s.c) && Buf(m', s.c.buf) == Buf(s.m, s.c.buf)
    ensures Ord(m', s.c.buf) == Ord(s.m, s.c.buf) && TailOrd(m') == TailOrd(s.m)
  {
    hide NextsOk, PrevsOk, PrevsLinked, FreedOk, HeadOk, ProducersOk, OutOk, RescanSeen, ConsumerOk, AllHandled;
    RelinkedFacts(s.m, m', q);
    RelinkedStates(s.m, m', q);
  }

  // ---------- prev->next = next ----------

  lemma FoldSkipGone(m: Memory, m': Memory, buf: nat, p: nat, nx: nat)
    requires HeapOk(m) && FoldSite(m, buf, p, nx)
    requires m' == Store(m, p, Buf(m, p).(next := To(nx)))
    ensures forall k :: 0 <= k < |m.chain| ==> Gone(m', To(buf), k) == (Gone(m, Null, k) || k == Ord(m, buf))
    ensures forall k :: 0 <= k < |m.chain| && m.chain[k] != p ==> Kth(m', k) == Kth(m, k)
    ensures Kth(m', Ord(m, p)).next == To(nx) && m.chain[Ord(m, p)] == p
    ensures !Gone(m, Null, Ord(m, p)) && !Gone(m, Null, Ord(m, nx))
    ensures forall q :: Main(m', q) == Main(m, q)
    ensures forall q :: Ord(m', q) == Ord(m, q)
    ensures m'.chain == m.chain
  {
    hide BufferOk;
    assert Kth(m, Ord(m, p)) == Buf(m, p) && Kth(m, Ord(m, nx)) == Buf(m, nx);
  }

  /** Only `p` has the folded buffer as its next. */
  lemma FoldNotNext(m: Memory, buf: nat, p: nat, nx: nat, k: nat)
    requires HeapOk(m) && FoldSite(m, buf, p, nx) && k < |m.chain| && m.chain[k] != p
    requires NextOk(m, Null, k) && !Gone(m, Null, k)
    ensures Kth(m, k).next != To(buf)
  {
    assert !Gone(m, Null, Ord(m, p)) by { assert Kth(m, Ord(m, p)) == Buf(m, p); }
  }

  lemma FoldSkipNextAt(m: Memory, m': Memory, buf: nat, p: nat, nx: nat, k: nat)
    requires HeapOk(m) && FoldSite(m, buf, p, nx) && k < |m.chain| && NextOk(m, Null, k) && !Gone(m, Null, k)
    requires m' == Store(m, p, Buf(m, p).(next := To(nx)))
    requires k != Ord(m, buf)
    ensures NextOk(m', To(buf), k)
  {
    hide BufferOk, HeapOk, Gone;
    FoldSkipGone(m, m', buf, p, nx);
    if m.chain[k] != p {
      FoldNotNext(m, buf, p, nx, k);
      if k + 1 < |m.chain| { FoldOrd(m, Kth(m, k).next.id, buf); }
    } else {
      FoldOrdOf(m, k, p);
      forall i | k < i < Ord(m, nx) ensures Gone(m', To(buf), i) {
        FoldFreedGone(m, i);
      }
    }
  }

  lemma FoldSkipNexts(m: Memory, m': Memory, buf: nat, p: nat, nx: nat)
    requires HeapOk(m) && NextsOk(m, Null) && FoldSite(m, buf, p, nx)
    requires m' == Store(m, p, Buf(m, p).(next := To(nx)))
    ensures NextsOk(m', To(buf))
  {
    hide HeapOk, FoldSite, Gone, NextOk, Ord, Main;
    FoldSkipGone(m, m', buf, p, nx);
    forall k | 0 <= k < |m.chain| && !Gone(m', To(buf), k) ensures NextOk(m', To(buf), k) {
      assert NextOk(m, Null, k);
      FoldSkipNextAt(m, m', buf, p, nx, k);
    }
  }

  lemma FoldSkipInv(s: State)
    requires Inv(s) && s.c.pc.FoldSkip?
    ensures Inv(ConsumerStep(s))
  {
    hide HeapOk, NextsOk, PrevsOk, PrevsLinked, FreedOk, HeadOk, ProducersOk, OutSetOk, Distinct, OutItemsOk, RescanSeen,
         AllHandled, PrevLinked;
    var nx := s.c.pc.nx;
    SiteAtFold(s, nx);
    var p := Buf(s.m, s.c.buf).prev.id;
    var m' := Store(s.m, p, Buf(s.m, p).(next := To(nx)));
    FoldSkipNexts(s.m, m', s.c.buf, p, nx);
    FoldHeap(s, m', p);
    RelinkedRest(s, m', p);
    RelinkPrevs(s.m, m', p, To(s.c.buf));
    RelinkFreed(s.m, m', p);
    FoldAtKept(s, m', p);
    assert Main(m', nx) && Ord(m', nx) == Ord(s.m, nx) && !Buf(m', nx).freed;
  }

  // ---------- deleting the slots ----------

  lemma FreeGone(m: Memory, m': Memory, buf: nat)
    requires HeapOk(m) && Main(m, buf) && m' == Folded(m, buf)
    ensures Relinked(m, m', buf) && BufferOk(m', m'.heap[buf]) && HeapOk(m')
    ensures forall k :: 0 <= k < |m.chain| ==> Gone(m', Null, k) == Gone(m, To(buf), k)
    ensures forall k :: 0 <= k < |m.chain| && !Gone(m', Null, k) ==> Kth(m', k) == Kth(m, k)
    ensures forall k :: 0 <= k < |m.chain| ==> Kth(m', k).prev == Kth(m, k).prev
  {
    assert BufferOk(m, m.heap[buf]);
    RelinkedFacts(m, m', buf);
  }

  lemma FreeLinks(m: Memory, m': Memory, buf: nat)
    requires HeapOk(m) && Main(m, buf) && m' == Folded(m, buf)
    requires NextsOk(m, To(buf)) && PrevsOk(m) && PrevsLinked(m, To(buf))
    ensures NextsOk(m', Null) && PrevsOk(m') && PrevsLinked(m', Null)
  {
    hide HeapOk, AllHandled, Gone;
    FreeGone(m, m', buf);
    RelinkedFacts(m, m', buf);
    RelinkedStates(m, m', buf);
    forall k | 0 <= k < |m.chain| && !Gone(m', Null, k) ensures NextOk(m', Null, k) { assert NextOk(m, To(buf), k); }
    forall k | 0 < k < |m.chain| ensures PrevOk(m', k) { assert PrevOk(m, k); }
    forall k | 0 <= k < |m.chain| && HeadOrd(m') < k && !Gone(m', Null, k) ensures PrevLinked(m', Null, k) {
      assert PrevLinked(m, To(buf), k);
    }
  }

  lemma FoldFreeInv(s: State)
    requires Inv(s) && s.c.pc.FoldFree?
    ensures Inv(ConsumerStep(s))
  {
    hide HeapOk, NextsOk, PrevsOk, PrevsLinked, FreedOk, HeadOk, ProducersOk, OutSetOk, Distinct, OutItemsOk, RescanSeen,
         AllHandled;
    var nx, buf := s.c.pc.nx, s.c.buf;
    var m' := Folded(s.m, buf);
    FreeStart(s);
    FreeGone(s.m, m', buf);
    assert m'.heap[s.m.headOfQueue] == s.m.heap[s.m.headOfQueue];
    FreeLinks(s.m, m', buf);
    RelinkedRest(s, m', buf);
    RelinkFreed(s.m, m', buf);
    RelinkedFacts(s.m, m', buf);
  }

  lemma FreeStart(s: State)
    requires Inv(s) && s.c.pc.FoldFree?
    ensures LinkOk(s.m, s.m.garbage) && s.m.headOfQueue < |s.m.heap| && s.m.headOfQueue != s.c.buf
    ensures !s.m.heap[s.m.headOfQueue].freed
    ensures s.c.pc.nx != s.c.buf && Buf(s.m, s.c.pc.nx).head == 0
    ensures HeadLoc(s.m) <= LocOf(s.m, s.c.pc.nx, 0)
  {
    hide NextsOk, PrevsOk, PrevsLinked, FreedOk, ProducersOk, OutOk, RescanSeen, AllHandled;
    assert Kth(s.m, Ord(s.m, s.c.pc.nx)) == Buf(s.m, s.c.pc.nx);
  }
}
