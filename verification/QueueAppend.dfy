/** Linking a new buffer and swinging tailOfQueue preserve the invariant. */
module QueueAppend {
  import opened QueueModel
  import opened QueueInvariant
  import opened QueueMemory
  import opened QueueProducer

  /** A null next link belongs to the last buffer of the chain or to a folded one. */
  lemma NullNext(s: State, p: nat)
    requires Inv(s) && Main(s.m, p)
    ensures IsLast(s.m, p) ==> Buf(s.m, p).next.Null?
    ensures Buf(s.m, p).next.Null? ==> IsLast(s.m, p) || Buf(s.m, p).freed
    ensures IsLast(s.m, p) ==> !Buf(s.m, p).freed && Ord(s.m, p) == |s.m.chain| - 1
    ensures Buf(s.m, p).freed ==> Ord(s.m, p) < TailOrd(s.m)
  {
    hide HeapOk, PrevsOk, PrevsLinked, HeadOk, ProducersOk, OutOk, RescanSeen, AllHandled, Main, Ord, TailOrd;
    var k := Ord(s.m, p);
    MainIsKth(s.m, p);
    TailInChain(s.m);
    if Unlinked(s.c).To? { UnlinkedBehind(s); }
    if !Gone(s.m, Unlinked(s.c), k) {
      assert NextOk(s.m, Unlinked(s.c), k);
    }
  }

  lemma MainIsKth(m: Memory, p: nat)
    requires Main(m, p)
    ensures 0 <= Ord(m, p) < |m.chain| && Kth(m, Ord(m, p)) == Buf(m, p) && m.chain[Ord(m, p)] == p
    ensures HeapOk(m) ==> (IsLast(m, p) <==> Ord(m, p) == |m.chain| - 1)
  {
  }

  /** The buffer a fold has unlinked still leads on, and is in front of the tail. */
  lemma UnlinkedBehind(s: State)
    requires Inv(s) && Unlinked(s.c).To?
    ensures Main(s.m, s.c.buf) && Ord(s.m, s.c.buf) < TailOrd(s.m) && Buf(s.m, s.c.buf).next.To?
  {
    hide MemoryOk, ProducersOk, OutOk, RescanSeen, AllHandled;
  }

  /** A freshly linked buffer holds only EMPTY slots, so no slot changes. */
  lemma LinkStates(m: Memory, p: nat)
    requires HeapOk(m) && Main(m, p)
    ensures forall l: nat :: StateOf(LinkNew(m, p), l) == StateOf(m, l) && DataOf(LinkNew(m, p), l) == DataOf(m, l)
  {
    hide BufferOk, IdxOf, BufNo;
    var m' := LinkNew(m, p);
    forall l: nat ensures StateOf(m', l) == StateOf(m, l) && DataOf(m', l) == DataOf(m, l) {
      if BufNo(l) < |m.chain| {
        assert m'.chain[BufNo(l)] == m.chain[BufNo(l)];
        assert Kth(m', BufNo(l)).slots == Kth(m, BufNo(l)).slots;
      } else if BufNo(l) < |m'.chain| {
        assert Kth(m', BufNo(l)) == NewBuffer(To(p), m.heap[p].pos + 1);
      }
    }
  }

  lemma LinkHeap(m: Memory, p: nat)
    requires HeapOk(m) && Main(m, p)
    requires IsLast(m, p) ==> Ord(m, p) == |m.chain| - 1
    requires m.heap[p].next.Null?
    ensures HeapOk(LinkNew(m, p))
    ensures forall q :: Main(m, q) ==> Main(LinkNew(m, p), q) && Ord(LinkNew(m, p), q) == Ord(m, q)
    ensures Evolves(m, LinkNew(m, p))
    ensures LinkNew(m, p).tailOfQueue == m.tailOfQueue && TailOrd(LinkNew(m, p)) == TailOrd(m)
    ensures HeadOrd(LinkNew(m, p)) == HeadOrd(m)
    ensures if IsLast(m, p) then LinkNew(m, p).chain == m.chain + [|m.heap|] else LinkNew(m, p).chain == m.chain
    ensures IsLast(m, p) ==> Kth(LinkNew(m, p), |m.chain|).prev == To(p)
    ensures forall k :: 0 <= k < |m.chain| ==>
      && LinkNew(m, p).chain[k] == m.chain[k]
      && Kth(LinkNew(m, p), k).(next := Null) == Kth(m, k).(next := Null)
      && (m.chain[k] != p ==> Kth(LinkNew(m, p), k) == Kth(m, k))
  {
    hide HeapOk, BufferOk, Evolves, LinkNew, Main, Ord, HeadOrd, TailOrd;
    LinkHeapOk(m, p);
    LinkEvolves(m, p);
    LinkMains(m, p);
    LinkKths(m, p);
  }

  lemma LinkEvolves(m: Memory, p: nat)
    requires HeapOk(m) && Main(m, p) && m.heap[p].next.Null?
    ensures Evolves(m, LinkNew(m, p))
  {
    hide HeapOk, BufferEvolves;
    LinkBuffers(m, p);
    LinkMains(m, p);
  }

  lemma LinkMains(m: Memory, p: nat)
    requires HeapOk(m) && Main(m, p)
    ensures forall q :: Main(m, q) ==> Main(LinkNew(m, p), q) && Ord(LinkNew(m, p), q) == Ord(m, q)
    ensures LinkNew(m, p).tailOfQueue == m.tailOfQueue && TailOrd(LinkNew(m, p)) == TailOrd(m)
    ensures HeadOrd(LinkNew(m, p)) == HeadOrd(m)
  {
    hide HeapOk;
    InChain(m);
  }

  lemma LinkKths(m: Memory, p: nat)
    requires HeapOk(m) && Main(m, p)
    requires IsLast(m, p) ==> Ord(m, p) == |m.chain| - 1
    ensures if IsLast(m, p) then LinkNew(m, p).chain == m.chain + [|m.heap|] else LinkNew(m, p).chain == m.chain
    ensures IsLast(m, p) ==> Kth(LinkNew(m, p), |m.chain|).prev == To(p)
    ensures forall k :: 0 <= k < |m.chain| ==>
      && LinkNew(m, p).chain[k] == m.chain[k]
      && Kth(LinkNew(m, p), k).(next := Null) == Kth(m, k).(next := Null)
      && (m.chain[k] != p ==> Kth(LinkNew(m, p), k) == Kth(m, k))
  {
    hide HeapOk;
    InChain(m);
  }

  lemma InChain(m: Memory)
    requires HeapOk(m)
    ensures forall k :: 0 <= k < |m.chain| ==> m.chain[k] < |m.heap|
    ensures Main(m, m.headOfQueue) && Main(m, m.tailOfQueue)
  {
  }

  lemma LinkHeapOk(m: Memory, p: nat)
    requires HeapOk(m) && Main(m, p)
    requires IsLast(m, p) ==> Ord(m, p) == |m.chain| - 1
    ensures HeapOk(LinkNew(m, p))
  {
    var m' := LinkNew(m, p);
    forall q | 0 <= q < |m'.heap| ensures BufferOk(m', m'.heap[q]) {
      if q < |m.heap| { assert BufferOk(m, m.heap[q]); }
    }
  }

  lemma LinkBuffers(m: Memory, p: nat)
    requires HeapOk(m) && Main(m, p) && m.heap[p].next.Null?
    ensures forall q :: 0 <= q < |m.heap| ==> BufferEvolves(m.heap[q], LinkNew(m, p).heap[q])
  {
    hide HeapOk;
  }

  lemma LinkGone(m: Memory, p: nat, f: Link)
    requires HeapOk(m) && Main(m, p)
    requires IsLast(m, p) ==> Ord(m, p) == |m.chain| - 1
    requires m.heap[p].next.Null? && LinkOk(m, f)
    ensures HeapOk(LinkNew(m, p))
    ensures forall k :: 0 <= k < |m.chain| ==> Gone(LinkNew(m, p), f, k) == Gone(m, f, k)
    ensures |LinkNew(m, p).chain| > |m.chain| ==> !Gone(LinkNew(m, p), f, |m.chain|)
    ensures forall k :: 0 <= k < |m.chain| && AllHandled(m, k) ==> AllHandled(LinkNew(m, p), k)
  {
    LinkHeap(m, p);
    var m' := LinkNew(m, p);
    forall k | 0 <= k < |m.chain| && AllHandled(m, k) ensures AllHandled(m', k) {
      forall i | 0 <= i < N ensures Cell(Kth(m', k), i).state == HANDLED { assert Cell(Kth(m, k), i).state == HANDLED; }
    }
  }

  lemma LinkNexts(m: Memory, p: nat, f: Link)
    requires HeapOk(m) && NextsOk(m, f) && Main(m, p)
    requires if IsLast(m, p) then Ord(m, p) == |m.chain| - 1 else Buf(m, p).freed
    requires m.heap[p].next.Null? && LinkOk(m, f)
    ensures NextsOk(LinkNew(m, p), f)
  {
    hide HeapOk, Evolves, AllHandled, LinkNew, Gone;
    LinkHeap(m, p);
    LinkGone(m, p, f);
    var m' := LinkNew(m, p);
    forall k | 0 <= k < |m'.chain| && !Gone(m', f, k) ensures NextOk(m', f, k) {
      LinkNextAt(m, p, f, k);
    }
  }

  lemma LinkNextAt(m: Memory, p: nat, f: Link, k: nat)
    requires HeapOk(m) && NextsOk(m, f) && Main(m, p)
    requires if IsLast(m, p) then Ord(m, p) == |m.chain| - 1 else Buf(m, p).freed
    requires m.heap[p].next.Null? && LinkOk(m, f) && k < |LinkNew(m, p).chain| && !Gone(LinkNew(m, p), f, k)
    ensures NextOk(LinkNew(m, p), f, k)
  {
    hide Evolves, AllHandled, HeapOk;
    LinkHeap(m, p);
    LinkGone(m, p, f);
    if k < |m.chain| {
      assert NextOk(m, f, k);
    }
  }

  lemma LinkPrevs(m: Memory, p: nat)
    requires HeapOk(m) && PrevsOk(m) && Main(m, p)
    requires IsLast(m, p) ==> Ord(m, p) == |m.chain| - 1
    requires m.heap[p].next.Null?
    ensures PrevsOk(LinkNew(m, p))
  {
    LinkHeap(m, p);
    LinkGone(m, p, Null);
    hide Evolves, AllHandled, Gone;
    var m' := LinkNew(m, p);
    forall k | 0 < k < |m'.chain| ensures PrevOk(m', k) {
      if k < |m.chain| { assert PrevOk(m, k); }
    }
  }

  lemma LinkLinkedOld(m: Memory, p: nat, f: Link, k: nat)
    requires HeapOk(m) && Main(m, p) && k < |m.chain| && PrevLinked(m, f, k)
    requires IsLast(m, p) ==> Ord(m, p) == |m.chain| - 1
    requires m.heap[p].next.Null? && LinkOk(m, f)
    ensures HeapOk(LinkNew(m, p)) && PrevLinked(LinkNew(m, p), f, k)
  {
    hide Evolves, AllHandled, LinkNew, HeapOk, HeadOrd;
    LinkHeap(m, p);
    LinkGone(m, p, f);
    assert Kth(LinkNew(m, p), k).prev == Kth(m, k).prev;
  }

  lemma LinkLinked(m: Memory, p: nat, f: Link)
    requires HeapOk(m) && PrevsLinked(m, f) && Main(m, p)
    requires IsLast(m, p) ==> Ord(m, p) == |m.chain| - 1 && !Gone(m, f, |m.chain| - 1)
    requires m.heap[p].next.Null? && LinkOk(m, f)
    ensures PrevsLinked(LinkNew(m, p), f)
  {
    hide Evolves, AllHandled, LinkNew, BufferOk;
    LinkHeap(m, p);
    LinkGone(m, p, f);
    var m' := LinkNew(m, p);
    forall k | 0 <= k < |m'.chain| && HeadOrd(m') < k && !Gone(m', f, k) ensures PrevLinked(m', f, k) {
      if k < |m.chain| {
        LinkLinkedOld(m, p, f, k);
      }
    }
  }

  lemma LinkRest(m: Memory, p: nat, outLoc: seq<nat>)
    requires HeapOk(m) && FreedOk(m) && HeadOk(m) && OutSetOk(m, outLoc) && Main(m, p)
    requires IsLast(m, p) ==> Ord(m, p) == |m.chain| - 1
    requires m.heap[p].next.Null?
    ensures HeapOk(LinkNew(m, p))
    ensures FreedOk(LinkNew(m, p)) && HeadOk(LinkNew(m, p)) && OutSetOk(LinkNew(m, p), outLoc)
  {
    LinkHeap(m, p);
    LinkGone(m, p, Null);
    LinkStates(m, p);
    hide Evolves, AllHandled, StateOf;
    var m' := LinkNew(m, p);
    assert HeadLoc(m') == HeadLoc(m);
    assert forall l: nat :: Consumed(m', l) == Consumed(m, l);
  }

  lemma LinkMemory(s: State, p: nat)
    requires Inv(s) && Main(s.m, p) && s.m.heap[p].next.Null?
    ensures MemoryOk(LinkNew(s.m, p), Unlinked(s.c), Bypassed(s.c))
    ensures OutSetOk(LinkNew(s.m, p), s.outLoc)
    ensures ConsumerOk(LinkNew(s.m, p), s.c)
    ensures s.c.pc == Rescan || s.c.pc == Deliver ==> RescanSeen(LinkNew(s.m, p), s.ops, s.c, s.outLoc)
  {
    hide HeapOk, NextsOk, PrevsOk, PrevsLinked, FreedOk, HeadOk, ProducersOk, OutSetOk, Distinct, OutItemsOk,
         ConsumerOk, Evolves, LinkNew, RescanAt, IsLast;
    NullNext(s, p);
    FoldedInChain(s);
    LinkHeap(s.m, p);
    LinkNexts(s.m, p, Unlinked(s.c));
    LinkPrevs(s.m, p);
    LinkLinked(s.m, p, Bypassed(s.c));
    LinkRest(s.m, p, s.outLoc);
    EvolvesConsumer(s.m, LinkNew(s.m, p), s.c);
    if s.c.pc == Rescan || s.c.pc == Deliver {
      RescanHolds(s);
      EvolvesRescan(s.m, LinkNew(s.m, p), s.c);
    }
  }

  lemma RescanHolds(s: State)
    requires Inv(s) && (s.c.pc == Rescan || s.c.pc == Deliver)
    ensures RescanAt(s.m, s.c)
  {
    hide MemoryOk, ProducersOk, OutOk, RescanSeen, RescanAt;
  }

  /** The buffer being folded is in front of the tail. */
  lemma FoldedInChain(s: State)
    requires Inv(s)
    ensures LinkOk(s.m, Unlinked(s.c)) && LinkOk(s.m, Bypassed(s.c))
    ensures !Gone(s.m, Bypassed(s.c), |s.m.chain| - 1) && !Gone(s.m, Unlinked(s.c), |s.m.chain| - 1)
  {
    hide NextsOk, PrevsOk, PrevsLinked, HeadOk, ProducersOk, OutOk, RescanSeen, AllHandled;
  }

  lemma LinkEnqueue(m: Memory, p: nat, l: nat, o: Enqueue)
    requires HeapOk(m) && Main(m, p) && m.heap[p].next.Null? && EnqueueOk(m, l, o)
    requires IsLast(m, p) ==> Ord(m, p) == |m.chain| - 1 == TailOrd(m)
    ensures EnqueueOk(LinkNew(m, p), l, o)
  {
    hide HeapOk, Evolves, LinkNew, Main, TailOrd, HeadOrd, Ord, BufNo, IdxOf, DataOf, StateOf;
    LinkHeap(m, p);
    LinkStates(m, p);
  }

  lemma LinkEnqueues(s: State, l: nat, o: Enqueue)
    requires HeapOk(s.m) && EnqueuesOk(s.m, s.ops) && l < |s.ops|
    requires Main(s.m, o.buf) && s.m.heap[o.buf].next.Null?
    requires IsLast(s.m, o.buf) ==> Ord(s.m, o.buf) == |s.m.chain| - 1 == TailOrd(s.m)
    requires EnqueueOk(LinkNew(s.m, o.buf), l, o)
    ensures EnqueuesOk(LinkNew(s.m, o.buf), s.ops[l := o])
  {
    hide HeapOk, LinkNew, IsLast, EnqueueOk;
    forall y | 0 <= y < |s.ops| ensures y != l ==> EnqueueOk(LinkNew(s.m, o.buf), y, s.ops[y]) {
      LinkEnqueue(s.m, o.buf, y, s.ops[y]);
    }
  }

  /** A buffer is only appended for a location behind it or at the last slot but one, so the tail has come that far. */
  lemma AppendBound(m: Memory, l: nat, o: Enqueue)
    requires EnqueueOk(m, l, o) && (o.pc == Append || o.pc == Extend) && Ord(m, o.buf) == |m.chain| - 1
    ensures l + 1 >= N * |m.chain| - 1
  {
    hide Ord, TailOrd, DataOf, Main;
  }

  lemma LinkWon(m: Memory, l: nat, o: Enqueue, won: ProducerPC)
    requires HeapOk(m) && EnqueueOk(m, l, o) && Main(m, o.buf) && m.heap[o.buf].next.Null?
    requires (o.pc == Append && won == Swing) || (o.pc == Extend && won == ExtendSwing)
    requires IsLast(m, o.buf) ==> Ord(m, o.buf) == |m.chain| - 1 == TailOrd(m)
    requires !IsLast(m, o.buf) ==> Ord(m, o.buf) < TailOrd(m)
    ensures EnqueueOk(LinkNew(m, o.buf), l, o.(made := |m.heap|, pc := won))
  {
    hide HeapOk, EnqueueOk, Evolves, LinkNew, Main, Ord, HeadOrd, TailOrd, BufNo, IdxOf, DataOf, StateOf;
    MainInHeap(m, o.buf);
    LinkHeap(m, o.buf);
    LinkStates(m, o.buf);
    if m.tailOfQueue == o.buf { SameOrd(m, o.buf); }
    TailInChain(m);
    LinkMoves(m, LinkNew(m, o.buf), l, o, o.(made := |m.heap|, pc := won));
  }

  lemma SameOrd(m: Memory, p: nat)
    requires m.tailOfQueue == p
    ensures Ord(m, p) == TailOrd(m)
  {
  }

  lemma LinkMoves(m: Memory, m': Memory, l: nat, o: Enqueue, o': Enqueue)
    requires EnqueueOk(m, l, o) && (o.pc == Append || o.pc == Extend)
    requires o' == o.(made := o'.made, pc := if o.pc == Append then Swing else ExtendSwing)
    requires Main(m', o.buf) && Ord(m', o.buf) == Ord(m, o.buf) && TailOrd(m') == TailOrd(m) && m'.tailOfQueue == m.tailOfQueue
    requires if IsLast(m, o.buf) then m'.chain == m.chain + [o'.made] && Ord(m, o.buf) == |m.chain| - 1 == TailOrd(m)
             else m'.chain == m.chain && Ord(m, o.buf) < TailOrd(m) < |m.chain|
    requires m.tailOfQueue == o.buf ==> IsLast(m, o.buf)
    requires DataOf(m', l) == DataOf(m, l)
    ensures EnqueueOk(m', l, o')
  {
    hide Main, Ord, TailOrd, BufNo, IdxOf, DataOf;
  }

  lemma LinkTail(s: State, l: nat, won: ProducerPC)
    requires TailOk(s.m, s.ops, s.appender) && HeapOk(s.m) && l < |s.ops| && EnqueueOk(s.m, l, s.ops[l])
    requires (s.ops[l].pc == Append && won == Swing) || (s.ops[l].pc == Extend && won == ExtendSwing)
    requires s.m.heap[s.ops[l].buf].next.Null?
    requires IsLast(s.m, s.ops[l].buf) ==> Ord(s.m, s.ops[l].buf) == |s.m.chain| - 1
    requires !IsLast(s.m, s.ops[l].buf) ==> Ord(s.m, s.ops[l].buf) < TailOrd(s.m)
    ensures IsLast(s.m, s.ops[l].buf) ==> TailOrd(s.m) == |s.m.chain| - 1
    ensures TailOk(LinkNew(s.m, s.ops[l].buf), s.ops[l := s.ops[l].(made := |s.m.heap|, pc := won)],
                   if IsLast(s.m, s.ops[l].buf) then l else s.appender)
  {
    hide HeapOk, Evolves, LinkNew, BufNo, IdxOf, DataOf, StateOf, Ord, TailOrd;
    var p := s.ops[l].buf;
    LinkHeap(s.m, p);
    if IsLast(s.m, p) {
      AppendBound(s.m, l, s.ops[l]);
      TailIsBuf(s.m, p);
    }
  }

  lemma TailIsBuf(m: Memory, p: nat)
    requires HeapOk(m) && Main(m, p) && Ord(m, p) == |m.chain| - 1
    ensures TailOrd(m) <= |m.chain| - 1
    ensures TailOrd(m) == Ord(m, p) ==> m.tailOfQueue == p
  {
  }

  lemma LinkProducers(s: State, l: nat, won: ProducerPC)
    requires Inv(s) && l < |s.ops|
    requires (s.ops[l].pc == Append && won == Swing) || (s.ops[l].pc == Extend && won == ExtendSwing)
    requires Buf(s.m, s.ops[l].buf).next.Null?
    ensures Main(s.m, s.ops[l].buf)
    ensures ProducersOk(LinkNew(s.m, s.ops[l].buf), s.ops[l := s.ops[l].(made := |s.m.heap|, pc := won)],
                        if IsLast(s.m, s.ops[l].buf) then l else s.appender)
  {
    hide NextsOk, PrevsOk, PrevsLinked, HeadOk, OutSetOk, ConsumerOk, RescanSeen, SeenOk, OutItemsOk, LinkNew,
         TailOk, SlotsOk, AllHandled;
    assert EnqueueOk(s.m, l, s.ops[l]);
    var p := s.ops[l].buf;
    var o := s.ops[l].(made := |s.m.heap|, pc := won);
    NullNext(s, p);
    LinkTail(s, l, won);
    LinkWon(s.m, l, s.ops[l], won);
    LinkEnqueues(s, l, o);
    HistoryKept(s, l, o);
    LinkSlots(s, l, o);
  }

  lemma LinkSlots(s: State, l: nat, o: Enqueue)
    requires HeapOk(s.m) && SlotsOk(s.m, s.ops) && l < |s.ops| && Main(s.m, o.buf)
    requires Published(o) == Published(s.ops[l])
    ensures SlotsOk(LinkNew(s.m, o.buf), s.ops[l := o])
  {
    hide HeapOk, StateOf, LinkNew, Main;
    LinkStates(s.m, o.buf);
  }

  /** Either CAS on a next link keeps the invariant; one that fails proves that a next buffer exists. */
  lemma CasNextInv(s: State, l: nat, won: ProducerPC, lost: ProducerPC)
    requires Inv(s) && l < |s.ops|
    requires (s.ops[l].pc == Append && won == Swing && lost == Load)
          || (s.ops[l].pc == Extend && won == ExtendSwing && lost == Done)
    ensures Inv(CasNext(s, l, won, lost))
  {
    hide MemoryOk, TailOk, EnqueuesOk, SeenOk, SlotsOk, OutSetOk, Distinct, ConsumerOk, RescanSeen, LinkNew;
    HoldsMain(s, l);
    if Buf(s.m, s.ops[l].buf).next.Null? {
      LinkProducers(s, l, won);
      LinkMemory(s, s.ops[l].buf);
      LinkSeen(s, l, s.ops[l].(made := |s.m.heap|, pc := won));
    } else {
      NullNext(s, s.ops[l].buf);
      LostOk(s, l, lost);
      LocalsFrame(s, l, s.ops[l].(pc := lost));
    }
  }

  lemma HoldsMain(s: State, l: nat)
    requires Inv(s) && l < |s.ops| && s.ops[l].pc != Load && s.ops[l].pc != Done
    ensures Main(s.m, s.ops[l].buf)
  {
    hide MemoryOk, TailOk, SeenOk, SlotsOk, OutOk, ConsumerOk, RescanSeen;
    assert EnqueueOk(s.m, l, s.ops[l]);
  }

  lemma LostOk(s: State, l: nat, lost: ProducerPC)
    requires Inv(s) && l < |s.ops| && Main(s.m, s.ops[l].buf) && !IsLast(s.m, s.ops[l].buf)
    requires (s.ops[l].pc == Append && lost == Load) || (s.ops[l].pc == Extend && lost == Done)
    ensures EnqueueOk(s.m, l, s.ops[l].(pc := lost))
  {
    hide Inv, HeapOk, Main, Ord, TailOrd, BufNo, IdxOf, DataOf, IsLast;
    OpOk(s, l);
    NotLastOrd(s.m, s.ops[l].buf);
  }

  lemma NotLastOrd(m: Memory, p: nat)
    requires HeapOk(m) && Main(m, p) && !IsLast(m, p)
    ensures Ord(m, p) + 2 <= |m.chain|
  {
  }

  lemma LinkSeen(s: State, l: nat, o: Enqueue)
    requires Inv(s) && l < |s.ops| && o.item == s.ops[l].item && o.seen == s.ops[l].seen
    requires Published(o) == Published(s.ops[l])
    requires Main(s.m, o.buf)
    requires s.c.pc == Rescan || s.c.pc == Deliver ==> RescanSeen(LinkNew(s.m, o.buf), s.ops, s.c, s.outLoc)
    ensures OutItemsOk(s.ops[l := o], s.out, s.outLoc)
    ensures s.c.pc == Rescan || s.c.pc == Deliver ==> RescanSeen(LinkNew(s.m, o.buf), s.ops[l := o], s.c, s.outLoc)
  {
    hide MemoryOk, TailOk, EnqueuesOk, SeenOk, SlotsOk, OutSetOk, ConsumerOk, OutItemsOk, LinkNew, LocOf;
    HistoryKept(s, l, o);
  }

  /** A compare_exchange that finds the tail it expects moves it to the last buffer of the chain. */
  lemma SwungMemory(s: State, l: nat)
    requires Inv(s) && l < |s.ops| && (s.ops[l].pc == Swing || s.ops[l].pc == ExtendSwing)
    requires s.m.tailOfQueue == s.ops[l].buf
    ensures s.ops[l].made == s.m.chain[|s.m.chain| - 1]
    ensures HeapOk(s.m.(tailOfQueue := s.ops[l].made))
    ensures Evolves(s.m, s.m.(tailOfQueue := s.ops[l].made))
    ensures TailOrd(s.m) == |s.m.chain| - 2
    ensures TailOrd(s.m.(tailOfQueue := s.ops[l].made)) == |s.m.chain| - 1
  {
    hide Inv, HeapOk, Main, Ord, TailOrd, BufNo, IdxOf, DataOf, Evolves;
    OpOk(s, l);
    SwungHeap(s.m, s.ops[l].made);
  }

  lemma SwungHeap(m: Memory, made: nat)
    requires HeapOk(m) && TailOrd(m) == |m.chain| - 2 && made == m.chain[|m.chain| - 1]
    ensures HeapOk(m.(tailOfQueue := made)) && Evolves(m, m.(tailOfQueue := made))
    ensures TailOrd(m.(tailOfQueue := made)) == |m.chain| - 1
  {
  }

  /** A compare_exchange on tailOfQueue keeps the invariant, whether or not it succeeds. */
  lemma CasTailInv(s: State, l: nat, resume: ProducerPC)
    requires Inv(s) && l < |s.ops|
    requires (s.ops[l].pc == Swing && resume == Load) || (s.ops[l].pc == ExtendSwing && resume == Done)
    ensures Inv(CasTail(s, l, resume))
  {
    hide MemoryOk, TailOk, EnqueuesOk, SeenOk, SlotsOk, OutSetOk, Distinct, OutItemsOk, ConsumerOk, RescanSeen, Evolves;
    var o := s.ops[l].(pc := resume);
    HoldsMain(s, l);
    SwungOk(s, l, resume);
    if s.m.tailOfQueue == s.ops[l].buf {
      SwungMemory(s, l);
      SwungTail(s, l, resume);
      SwungRest(s, l);
      HistoryKept(s, l, o);
      SwungSeen(s, l, o);
    } else {
      LocalsFrame(s, l, o);
    }
  }

  lemma SwungOk(s: State, l: nat, resume: ProducerPC)
    requires Inv(s) && l < |s.ops|
    requires (s.ops[l].pc == Swing && resume == Load) || (s.ops[l].pc == ExtendSwing && resume == Done)
    ensures EnqueueOk(s.m, l, s.ops[l].(pc := resume))
  {
    hide MemoryOk, TailOk, SeenOk, SlotsOk, OutOk, ConsumerOk, RescanSeen;
    assert EnqueueOk(s.m, l, s.ops[l]);
  }

  lemma SwungTail(s: State, l: nat, resume: ProducerPC)
    requires Inv(s) && l < |s.ops|
    requires (s.ops[l].pc == Swing && resume == Load) || (s.ops[l].pc == ExtendSwing && resume == Done)
    requires s.m.tailOfQueue == s.ops[l].buf
    ensures TailOk(s.m.(tailOfQueue := s.ops[l].made), s.ops[l := s.ops[l].(pc := resume)], s.appender)
    ensures EnqueuesOk(s.m.(tailOfQueue := s.ops[l].made), s.ops[l := s.ops[l].(pc := resume)])
  {
    hide MemoryOk, SeenOk, SlotsOk, OutOk, ConsumerOk, RescanSeen, BufNo, IdxOf, HeapOk, Evolves;
    SwungMemory(s, l);
    SwungOk(s, l, resume);
    var m' := s.m.(tailOfQueue := s.ops[l].made);
    SameHeapFacts(s.m, m');
    forall y | 0 <= y < |s.ops| && y != l ensures EnqueueOk(m', y, s.ops[y]) {
      assert EnqueueOk(s.m, y, s.ops[y]);
      SwungEnqueue(s.m, m', y, s.ops[y]);
    }
    SwungEnqueue(s.m, m', l, s.ops[l].(pc := resume));
  }

  lemma SwungEnqueue(m: Memory, m': Memory, l: nat, o: Enqueue)
    requires EnqueueOk(m, l, o) && m'.heap == m.heap && m'.chain == m.chain
    requires TailOrd(m) == |m.chain| - 2 && TailOrd(m') == |m.chain| - 1
    requires forall p :: Main(m', p) == Main(m, p)
    requires DataOf(m', l) == DataOf(m, l)
    ensures EnqueueOk(m', l, o)
  {
    hide Main, DataOf, BufNo, IdxOf;
    assert Buf(m', o.buf) == Buf(m, o.buf);
  }

  lemma SwungRest(s: State, l: nat)
    requires Inv(s) && l < |s.ops| && (s.ops[l].pc == Swing || s.ops[l].pc == ExtendSwing)
    requires s.m.tailOfQueue == s.ops[l].buf
    ensures MemoryOk(s.m.(tailOfQueue := s.ops[l].made), Unlinked(s.c), Bypassed(s.c))
    ensures OutSetOk(s.m.(tailOfQueue := s.ops[l].made), s.outLoc)
    ensures ConsumerOk(s.m.(tailOfQueue := s.ops[l].made), s.c)
    ensures SlotsOk(s.m.(tailOfQueue := s.ops[l].made), s.ops)
  {
    hide HeapOk, NextsOk, PrevsOk, PrevsLinked, TailOk, EnqueuesOk, SeenOk, StateOf, Distinct, OutItemsOk, ConsumerOk,
         RescanSeen, Evolves, Main, AllHandled;
    SwungMemory(s, l);
    var m' := s.m.(tailOfQueue := s.ops[l].made);
    SameHeapFacts(s.m, m');
    SameHeapNexts(s.m, m', Unlinked(s.c));
    SameHeapPrevs(s.m, m', Bypassed(s.c));
    EvolvesConsumer(s.m, m', s.c);
    assert HeadOrd(m') == HeadOrd(s.m) && HeadLoc(m') == HeadLoc(s.m);
    assert forall x: nat :: Consumed(m', x) == Consumed(s.m, x);
  }

  lemma SwungSeen(s: State, l: nat, o: Enqueue)
    requires Inv(s) && l < |s.ops| && o.seen == s.ops[l].seen && Published(o) == Published(s.ops[l])
    requires SlotsOk(s.m.(tailOfQueue := s.ops[l].made), s.ops)
    ensures SlotsOk(s.m.(tailOfQueue := s.ops[l].made), s.ops[l := o])
    ensures s.c.pc == Rescan || s.c.pc == Deliver ==>
      RescanSeen(s.m.(tailOfQueue := s.ops[l].made), s.ops[l := o], s.c, s.outLoc)
  {
    hide MemoryOk, TailOk, EnqueuesOk, SeenOk, StateOf, OutOk, ConsumerOk;
    assert forall p, i :: LocOf(s.m.(tailOfQueue := s.ops[l].made), p, i) == LocOf(s.m, p, i);
  }
}
