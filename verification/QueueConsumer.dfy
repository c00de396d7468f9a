/** Every step of the consumer preserves the invariant. */
module QueueConsumer {
  import opened QueueModel
  import opened QueueInvariant
  import opened QueueMemory

  /** The consumer changes only its own locals and is not unlinking a buffer. */
  lemma LocalStep(s: State, c: Consumer)
    requires Inv(s)
    requires Unlinked(c) == Unlinked(s.c) == Null && Bypassed(c) == Bypassed(s.c) == Null
    requires ConsumerOk(s.m, c)
    requires c.pc == Rescan || c.pc == Deliver ==> RescanSeen(s.m, s.ops, c, s.outLoc)
    ensures Inv(s.(c := c))
  {
    hide MemoryOk, ProducersOk, OutSetOk, Distinct, OutItemsOk, ConsumerOk, RescanSeen;
  }

  /** What the head buffer looks like. */
  lemma HeadFacts(s: State)
    requires Inv(s)
    ensures Main(s.m, s.m.headOfQueue) && s.m.headOfQueue < |s.m.heap|
    ensures |Buf(s.m, s.m.headOfQueue).slots| == N
    ensures !Buf(s.m, s.m.headOfQueue).freed
    ensures Buf(s.m, s.m.headOfQueue).head <= N
    ensures 0 <= HeadOrd(s.m) <= TailOrd(s.m)
    ensures HeadOrd(s.m) == TailOrd(s.m) <==> s.m.headOfQueue == s.m.tailOfQueue
    ensures Unlinked(s.c) != To(s.m.headOfQueue)
    ensures Unlinked(s.c) == Null ==> HeadOrd(s.m) < TailOrd(s.m) ==>
      && Buf(s.m, s.m.headOfQueue).next.To?
      && Main(s.m, Buf(s.m, s.m.headOfQueue).next.id)
      && HeadOrd(s.m) < Ord(s.m, Buf(s.m, s.m.headOfQueue).next.id) <= TailOrd(s.m)
  {
    hide PrevsOk, PrevsLinked, ProducersOk, OutOk, RescanSeen, AllHandled;
    var k := HeadOrd(s.m);
    assert BufferOk(s.m, s.m.heap[s.m.headOfQueue]);
    assert Kth(s.m, k) == Buf(s.m, s.m.headOfQueue);
    assert Kth(s.m, TailOrd(s.m)) == Buf(s.m, s.m.tailOfQueue);
    if Unlinked(s.c) == Null && HeadOrd(s.m) < TailOrd(s.m) {
      assert !Gone(s.m, Null, TailOrd(s.m));
      assert NextOk(s.m, Null, k);
    }
  }

  lemma EnterInv(s: State)
    requires Inv(s)
    requires s.c.pc.Idle? || s.c.pc.Return? || s.c.pc.Enter? || s.c.pc.MoveTail? || s.c.pc.MoveNext?
    ensures Inv(ConsumerStep(s))
  {
    HeadFacts(s);
    hide Inv;
    LocalStep(s, ConsumerStep(s).c);
  }

  lemma PeekInv(s: State)
    requires Inv(s)
    requires s.c.pc.Peek? || s.c.pc.AtTail? || s.c.pc.AtEnd? || s.c.pc.Take?
    requires s.c.pc.Peek? ==> Cell(Buf(s.m, s.m.headOfQueue), Buf(s.m, s.m.headOfQueue).head).state != HANDLED
    requires s.c.pc.Take? ==> Cell(Buf(s.m, s.m.headOfQueue), Buf(s.m, s.m.headOfQueue).head).state != SET
    ensures Inv(ConsumerStep(s))
  {
    hide MemoryOk, ProducersOk, OutOk, RescanSeen;
    HeadFacts(s);
    LocalStep(s, ConsumerStep(s).c);
  }

  /** Scan starts on the EMPTY head slot. */
  lemma GapInv(s: State)
    requires Inv(s) && s.c.pc.Gap?
    ensures Inv(ConsumerStep(s))
  {
    hide MemoryOk, ProducersOk, OutOk, RescanSeen;
    HeadFacts(s);
    LocalStep(s, ConsumerStep(s).c);
  }

  /** A linked buffer has all its slots, and its next link leads to the next linked buffer. */
  lemma LinkedFacts(s: State, p: nat)
    requires Inv(s) && Main(s.m, p) && !Buf(s.m, p).freed && HeadOrd(s.m) <= Ord(s.m, p)
    requires Unlinked(s.c) == Null
    ensures |Buf(s.m, p).slots| == N
    ensures Buf(s.m, p).next.To? ==>
      && Main(s.m, Buf(s.m, p).next.id)
      && !Buf(s.m, Buf(s.m, p).next.id).freed
      && Ord(s.m, p) < Ord(s.m, Buf(s.m, p).next.id)
      && Buf(s.m, Buf(s.m, p).next.id).head == 0
    ensures forall q :: Main(s.m, q) && !Buf(s.m, q).freed && Ord(s.m, p) < Ord(s.m, q) ==>
      && Buf(s.m, p).next.To?
      && Ord(s.m, Buf(s.m, p).next.id) <= Ord(s.m, q)
  {
    hide PrevsOk, PrevsLinked, FreedOk, ProducersOk, OutOk, RescanSeen, ConsumerOk, StateOf, AllHandled;
    var k := Ord(s.m, p);
    assert BufferOk(s.m, s.m.heap[p]);
    assert Kth(s.m, k) == Buf(s.m, p);
    assert NextOk(s.m, Null, k);
    if Buf(s.m, p).next.To? {
      var j := Ord(s.m, Buf(s.m, p).next.id);
      assert Kth(s.m, j) == Buf(s.m, Buf(s.m, p).next.id);
    }
    forall q | Main(s.m, q) && !Buf(s.m, q).freed && k < Ord(s.m, q)
      ensures Buf(s.m, p).next.To? && Ord(s.m, Buf(s.m, p).next.id) <= Ord(s.m, q)
    {
      assert !Gone(s.m, Null, Ord(s.m, q)) by { assert Kth(s.m, Ord(s.m, q)) == Buf(s.m, q); }
    }
  }

  lemma ScanInv(s: State)
    requires Inv(s) && (s.c.pc.ScanLook? || s.c.pc.ScanNote? || s.c.pc.ScanNext?)
    requires s.c.pc.ScanLook? ==> Cell(Buf(s.m, s.c.buf), s.c.idx).state != SET
    ensures Inv(ConsumerStep(s))
  {
    hide MemoryOk, ProducersOk, OutOk, RescanSeen;
    HeadFacts(s);
    LinkedFacts(s, s.c.buf);
    ScanKeeps(s);
    LocalStep(s, ConsumerStep(s).c);
  }

  lemma ScanKeeps(s: State)
    requires Inv(s) && (s.c.pc.ScanLook? || s.c.pc.ScanNote? || s.c.pc.ScanNext?)
    requires s.c.pc.ScanLook? ==> Cell(Buf(s.m, s.c.buf), s.c.idx).state != SET
    ensures ConsumerOk(s.m, ConsumerStep(s).c)
    ensures !ConsumerStep(s).fault
  {
    hide Inv, ConsumerStep, ConsumerOk, Cell;
    if s.c.pc.ScanNext? { ScanNextKeeps(s); } else { ScanSlotKeeps(s); }
  }

  lemma ScanNextKeeps(s: State)
    requires Inv(s) && s.c.pc.ScanNext?
    ensures ConsumerOk(s.m, ConsumerStep(s).c) && !ConsumerStep(s).fault
  {
    hide MemoryOk, ProducersOk, OutOk, RescanSeen, Cell, Main;
    HeadFacts(s);
    LinkedFacts(s, s.c.buf);
  }

  lemma ScanSlotKeeps(s: State)
    requires Inv(s) && (s.c.pc.ScanLook? || s.c.pc.ScanNote?)
    requires s.c.pc.ScanLook? ==> Cell(Buf(s.m, s.c.buf), s.c.idx).state != SET
    ensures ConsumerOk(s.m, ConsumerStep(s).c) && !ConsumerStep(s).fault
  {
    hide MemoryOk, ProducersOk, OutOk, RescanSeen, Cell, HeadLoc;
    LinkedFacts(s, s.c.buf);
    if ConsumerStep(s).c.pc.FoldTail? {
      var k := Ord(s.m, s.c.buf);
      assert Kth(s.m, k) == Buf(s.m, s.c.buf);
      forall i | 0 <= i < N ensures Cell(Kth(s.m, k), i).state == HANDLED {}
    }
  }

  lemma FoldStartInv(s: State)
    requires Inv(s) && (s.c.pc.FoldTail? || s.c.pc.FoldNext?)
    ensures Inv(ConsumerStep(s))
  {
    hide MemoryOk, ProducersOk, OutOk, RescanSeen;
    HandledBehindTail(s);
    LocalStep(s, ConsumerStep(s).c);
  }

  /** A fully handled buffer has been filled, so tailOfQueue has reached it. */
  lemma HandledBehindTail(s: State)
    requires Inv(s) && FoldAt(s.m, s.c)
    ensures Ord(s.m, s.c.buf) <= TailOrd(s.m)
    ensures Ord(s.m, s.c.buf) == TailOrd(s.m) ==> s.c.buf == s.m.tailOfQueue
  {
    hide NextsOk, PrevsOk, PrevsLinked, FreedOk, HeadOk, OutOk, RescanSeen, ConsumerOk, TailOk, SeenOk, DataOf, EnqueueOk, StateOf;
    var k := Ord(s.m, s.c.buf);
    FirstHandled(s.m, k);
    PublishedBehindTail(s, N * k);
  }

  lemma FirstHandled(m: Memory, k: nat)
    requires k < |m.chain| && AllHandled(m, k)
    ensures BufNo(N * k) == k && StateOf(m, N * k) == HANDLED
  {
    assert BufNo(N * k) == k && IdxOf(N * k) == 0;
    assert Cell(Kth(m, k), 0).state == HANDLED;
  }

  lemma PublishedBehindTail(s: State, l: nat)
    requires Inv(s) && StateOf(s.m, l) != EMPTY
    ensures BufNo(l) <= TailOrd(s.m)
  {
    hide MemoryOk, OutOk, RescanSeen, ConsumerOk, TailOk, SeenOk, DataOf, StateOf, Main, TailOrd, Ord, BufNo, IdxOf;
    assert l < |s.ops| && Published(s.ops[l]);
    assert EnqueueOk(s.m, l, s.ops[l]);
  }

  /** The slot behind a location of a chain buffer. */
  lemma CellState(s: State, p: nat, i: nat)
    requires Inv(s) && Main(s.m, p) && i < N
    ensures LocOf(s.m, p, i) >= 0 && BufNo(LocOf(s.m, p, i)) == Ord(s.m, p) && IdxOf(LocOf(s.m, p, i)) == i
    ensures StateOf(s.m, LocOf(s.m, p, i)) == Cell(Buf(s.m, p), i).state
    ensures DataOf(s.m, LocOf(s.m, p, i)) == Cell(Buf(s.m, p), i).data
    ensures Cell(Buf(s.m, p), i).state != EMPTY ==>
      LocOf(s.m, p, i) < |s.ops| && s.ops[LocOf(s.m, p, i)].item == Cell(Buf(s.m, p), i).data
  {
    hide NextsOk, PrevsOk, PrevsLinked, FreedOk, HeadOk, OutOk, RescanSeen, ConsumerOk, TailOk, SeenOk;
    var l := LocOf(s.m, p, i);
    assert BufNo(l) == Ord(s.m, p) && IdxOf(l) == i;
    assert Kth(s.m, Ord(s.m, p)) == Buf(s.m, p);
    if Cell(Buf(s.m, p), i).state != EMPTY {
      assert StateOf(s.m, l) != EMPTY;
      assert EnqueueOk(s.m, l, s.ops[l]);
    }
  }

  /** ReScan starts, or starts over, with a SET candidate and its scan position at the head. */
  lemma CandidateInv(s: State, p: nat, i: nat, c: Consumer)
    requires Inv(s) && Main(s.m, p) && i < N && !Buf(s.m, p).freed && Cell(Buf(s.m, p), i).state == SET
    requires HeadOrd(s.m) <= Ord(s.m, p) && HeadLoc(s.m) <= LocOf(s.m, p, i)
    requires Unlinked(s.c) == Null && Bypassed(s.c) == Null
    requires c.pc == Rescan && c.buf == p && c.idx == i
    requires c.sbuf == s.m.headOfQueue && c.sidx == Buf(s.m, s.m.headOfQueue).head
    ensures Inv(s.(c := c))
  {
    hide MemoryOk, ProducersOk, Distinct, OutItemsOk, RescanSeen, Main, Cell;
    CellState(s, p, i);
    HeadFacts(s);
    CandidateSeen(s, c);
    LocalStep(s, c);
  }

  lemma CandidateSeen(s: State, c: Consumer)
    requires Inv(s) && 0 <= LocOf(s.m, c.buf, c.idx) < |s.ops|
    requires c.sbuf == s.m.headOfQueue && c.sidx == Buf(s.m, s.m.headOfQueue).head
    ensures RescanSeen(s.m, s.ops, c, s.outLoc)
  {
    hide MemoryOk, ProducersOk, Distinct, OutItemsOk, ConsumerOk, StateOf;
    assert LocOf(s.m, c.sbuf, c.sidx) == HeadLoc(s.m);
    forall a | a in s.ops[LocOf(s.m, c.buf, c.idx)].seen && a < LocOf(s.m, c.sbuf, c.sidx) ensures a in s.outLoc {
      assert Consumed(s.m, a);
    }
  }

  lemma FoundInv(s: State)
    requires Inv(s) && s.c.pc.ScanLook? && Cell(Buf(s.m, s.c.buf), s.c.idx).state == SET
    ensures Inv(ConsumerStep(s))
  {
    hide MemoryOk, ProducersOk, OutOk, RescanSeen;
    LinkedFacts(s, s.c.buf);
    CandidateInv(s, s.c.buf, s.c.idx, ConsumerStep(s).c);
  }

  /** Buffers skipped by a next link hold nothing undelivered. */
  lemma SkippedConsumed(s: State, p: nat, a: nat)
    requires Inv(s) && Main(s.m, p) && !Buf(s.m, p).freed && HeadOrd(s.m) <= Ord(s.m, p)
    requires Unlinked(s.c) == Null && Buf(s.m, p).next.To?
    requires LocOf(s.m, p, N) <= a < LocOf(s.m, Buf(s.m, p).next.id, 0)
    ensures a in s.outLoc
  {
    hide PrevsOk, PrevsLinked, HeadOk, ProducersOk, Distinct, OutItemsOk, RescanSeen, ConsumerOk;
    var k := Ord(s.m, p);
    assert Kth(s.m, k) == Buf(s.m, p);
    assert NextOk(s.m, Null, k);
    assert Gone(s.m, Null, BufNo(a));
    assert Cell(Kth(s.m, BufNo(a)), IdxOf(a)).state == HANDLED;
    assert Consumed(s.m, a);
  }

  lemma RescanInv(s: State)
    requires Inv(s) && s.c.pc.Rescan?
    ensures Inv(ConsumerStep(s))
  {
    hide MemoryOk, ProducersOk, OutOk, Cell, HeadLoc;
    var c := s.c;
    if c.sbuf == c.buf && c.sidx >= c.idx {
      LocalStep(s, ConsumerStep(s).c);
    } else {
      LinkedFacts(s, c.sbuf);
      SameBuffer(s, c.buf, c.sbuf);
      if c.sidx >= N {
        RescanHop(s);
      } else if Cell(Buf(s.m, c.sbuf), c.sidx).state == SET {
        CandidateInv(s, c.sbuf, c.sidx, ConsumerStep(s).c);
      } else {
        RescanPass(s);
      }
    }
  }

  lemma SameBuffer(s: State, p: nat, q: nat)
    requires Inv(s) && Main(s.m, p) && Main(s.m, q)
    ensures Ord(s.m, p) == Ord(s.m, q) <==> p == q
  {
    hide Inv;
  }

  lemma RescanHop(s: State)
    requires Inv(s) && s.c.pc.Rescan? && s.c.sidx >= N
    ensures Inv(ConsumerStep(s))
  {
    hide MemoryOk, ProducersOk, OutOk, Cell;
    LinkedFacts(s, s.c.sbuf);
    SameBuffer(s, s.c.buf, s.c.sbuf);
    var c := ConsumerStep(s).c;
    assert RescanSeen(s.m, s.ops, c, s.outLoc) by {
      forall a | a in s.ops[LocOf(s.m, c.buf, c.idx)].seen && a < LocOf(s.m, c.sbuf, c.sidx) ensures a in s.outLoc {
        if a >= LocOf(s.m, s.c.sbuf, s.c.sidx) {
          SkippedConsumed(s, s.c.sbuf, a);
        }
      }
    }
    LocalStep(s, c);
  }

  /** A slot ReScan passes is EMPTY or HANDLED: the candidate cannot have seen it published and undelivered. */
  lemma RescanPass(s: State)
    requires Inv(s) && s.c.pc.Rescan? && s.c.sidx < N
    requires s.c.sbuf != s.c.buf || s.c.sidx < s.c.idx
    requires Cell(Buf(s.m, s.c.sbuf), s.c.sidx).state != SET
    ensures Inv(ConsumerStep(s))
  {
    hide MemoryOk, ProducersOk, OutOk, Cell;
    LinkedFacts(s, s.c.sbuf);
    SameBuffer(s, s.c.buf, s.c.sbuf);
    var c := ConsumerStep(s).c;
    assert RescanSeen(s.m, s.ops, c, s.outLoc) by {
      forall a | a in s.ops[LocOf(s.m, c.buf, c.idx)].seen && a < LocOf(s.m, c.sbuf, c.sidx) ensures a in s.outLoc {
        if a >= LocOf(s.m, s.c.sbuf, s.c.sidx) {
          SeenConsumed(s, s.c.sbuf, s.c.sidx, LocOf(s.m, c.buf, c.idx));
        }
      }
    }
    LocalStep(s, c);
  }

  lemma SeenConsumed(s: State, p: nat, i: nat, l: nat)
    requires Inv(s) && Main(s.m, p) && i < N && l < |s.ops| && LocOf(s.m, p, i) >= 0
    requires LocOf(s.m, p, i) in s.ops[l].seen && Cell(Buf(s.m, p), i).state != SET
    ensures LocOf(s.m, p, i) in s.outLoc
  {
    hide MemoryOk, TailOk, EnqueuesOk, Distinct, OutItemsOk, RescanSeen, ConsumerOk, StateOf, Cell;
    CellState(s, p, i);
    assert Consumed(s.m, LocOf(s.m, p, i));
  }
}
