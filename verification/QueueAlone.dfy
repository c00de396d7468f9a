/** What a dequeue answers that runs alone while producers have stopped anywhere inside enqueue. */
module QueueAlone {
  import opened QueueModel
  import opened QueueInvariant
  import opened QueueConsumer
  import opened QueueDeliver
  import opened QueueReclaim
  import opened QueueTheorems
  import opened QueueQuiet
  import opened QueueReturns

  /** The item of location `p` is published and not delivered. */
  predicate Undelivered(s: State, p: nat) {
    p < |s.ops| && Published(s.ops[p]) && p !in s.outLoc
  }

  /** The emptiness test of dequeue. */
  predicate LooksEmpty(s: State) {
    s.m.headOfQueue == s.m.tailOfQueue && Buf(s.m, s.m.headOfQueue).head == |s.ops| % N
  }

  /** The search has not passed location `p`. */
  predicate Ahead(s: State, p: nat) {
    match s.c.pc
    case ScanLook => LocOf(s.m, s.c.buf, s.c.idx) <= p
    case ScanNote => LocOf(s.m, s.c.buf, s.c.idx) < p
    case FoldPrev(nx) => LocOf(s.m, nx, 0) <= p
    case FoldSkip(nx) => LocOf(s.m, nx, 0) <= p
    case FoldFree(nx) => LocOf(s.m, nx, 0) <= p
    case _ => LocOf(s.m, s.c.buf, N) <= p
  }

  ghost predicate AllAhead(s: State) {
    forall p :: Undelivered(s, p) ==> Ahead(s, p)
  }

  ghost predicate NoneUndelivered(s: State) {
    forall p :: !Undelivered(s, p)
  }

  /** `l` was undelivered and is what has been delivered since `s0`. */
  ghost predicate OneDelivered(s0: State, s: State) {
    && |s.outLoc| == |s0.outLoc| + 1
    && var l := s.outLoc[|s0.outLoc|];
    && Undelivered(s0, l) && s.outLoc == s0.outLoc + [l] && s.out == s0.out + [s0.ops[l].item]
  }

  /** What holds during a dequeue that runs alone, relative to the state it started in. */
  ghost predicate AloneInv(s0: State, s: State) {
    && s.ops == s0.ops
    && if s.c.pc == Return(true) || ((s.c.pc.MoveTail? || s.c.pc.MoveNext? || s.c.pc.MovePop?) && s.c.pc.r == ToTrue) then
         OneDelivered(s0, s)
       else
         && s.out == s0.out && s.outLoc == s0.outLoc
         && (s.c.pc.AtEnd? ==> s.m.headOfQueue == s.m.tailOfQueue)
         && (s.c.pc.Gap? ==> HeadLoc(s.m) >= 0 && StateOf(s.m, HeadLoc(s.m)) != SET)
         && (Searching(s.c.pc) ==> AllAhead(s))
         && (s.c.pc == Return(false) ==> LooksEmpty(s) || NoneUndelivered(s))
  }

  /** Where an undelivered location is. */
  lemma Where(s: State, p: nat)
    requires Inv(s) && Undelivered(s, p)
    ensures HeadLoc(s.m) <= p && StateOf(s.m, p) == SET
    ensures BufNo(p) <= TailOrd(s.m) && BufNo(p) < |s.m.chain|
    ensures !Kth(s.m, BufNo(p)).freed && Main(s.m, s.m.chain[BufNo(p)]) && Ord(s.m, s.m.chain[BufNo(p)]) == BufNo(p)
  {
    hide Inv, StateOf, DataOf, HeadLoc, AllHandled, BufNo, Main, Ord, HeadOrd, TailOrd;
    PublishedSlot(s, p);
    PublishedBehindTail(s, p);
    PendingNotGone(s, BufNo(p));
    NotGoneNotFreed(s.m, Unlinked(s.c), BufNo(p));
    ChainMain(s, BufNo(p));
  }

  lemma NotGoneNotFreed(m: Memory, f: Link, k: nat)
    requires k < |m.chain| && !Gone(m, f, k)
    ensures !Kth(m, k).freed
  {
  }

  lemma ChainMain(s: State, k: nat)
    requires Inv(s) && k < |s.m.chain|
    ensures Main(s.m, s.m.chain[k]) && Ord(s.m, s.m.chain[k]) == k && Buf(s.m, s.m.chain[k]) == Kth(s.m, k)
  {
    hide NextsOk, PrevsOk, PrevsLinked, FreedOk, HeadOk, ProducersOk, OutOk, ConsumerOk, RescanSeen;
  }

  lemma Ranges(m: Memory, p: nat, b: nat)
    requires LocOf(m, b, N) <= p
    ensures Ord(m, b) < BufNo(p)
  {
  }

  lemma StartsBefore(m: Memory, p: nat, b: nat)
    requires Ord(m, b) <= BufNo(p)
    ensures LocOf(m, b, 0) <= p
  {
  }

  // ---------- In front of the scan ----------

  /** At the end of a used-up tail buffer everything published has been delivered. */
  lemma EndOfTail(s: State)
    requires Inv(s) && s.c.pc.MoveTail? && s.m.headOfQueue == s.m.tailOfQueue
    ensures NoneUndelivered(s)
  {
    hide Inv, StateOf, BufNo, Main, Ord;
    HeadUsedUp(s);
    forall p | Undelivered(s, p) ensures false {
      Where(s, p);
      Ranges(s.m, p, s.m.headOfQueue);
    }
  }

  lemma HeadUsedUp(s: State)
    requires Inv(s) && s.c.pc.MoveTail?
    ensures Buf(s.m, s.m.headOfQueue).head == N && HeadLoc(s.m) == LocOf(s.m, s.m.headOfQueue, N)
  {
    hide MemoryOk, ProducersOk, OutOk, RescanSeen;
  }

  lemma HeadNext(s: State)
    requires Inv(s) && s.c.pc.MoveNext?
    ensures Buf(s.m, s.m.headOfQueue).next.To?
  {
    hide MemoryOk, ProducersOk, OutOk, RescanSeen, Main;
    HeadFacts(s);
  }

  lemma AloneMoves(s0: State, s: State)
    requires Inv(s) && AloneInv(s0, s) && Before(s.c.pc) && !s.c.pc.Take? && !s.c.pc.Gap?
    requires ConsumerStep(s).ops == s.ops && !ConsumerStep(s).fault
    ensures AloneInv(s0, ConsumerStep(s))
  {
    hide Inv, StateOf, HeadLoc, Cell, Touchable, Advance, Popped, Switched, NoneUndelivered, AllAhead, Buf;
    AdvanceKeeps(s, ToPeek);
    if s.c.pc.MoveTail? && s.m.headOfQueue == s.m.tailOfQueue {
      EndOfTail(s);
      SameUndelivered(s, ConsumerStep(s));
    }
    if s.c.pc.MoveNext? { HeadNext(s); }
  }

  lemma SameUndelivered(s: State, s': State)
    requires s'.ops == s.ops && s'.outLoc == s.outLoc
    ensures NoneUndelivered(s) == NoneUndelivered(s') && forall p :: Undelivered(s, p) == Undelivered(s', p)
  {
    forall p ensures Undelivered(s, p) == Undelivered(s', p) {}
    if NoneUndelivered(s) { forall p ensures !Undelivered(s', p) { assert !Undelivered(s, p); } }
    if NoneUndelivered(s') { forall p ensures !Undelivered(s, p) { assert !Undelivered(s', p); } }
  }

  lemma AloneTakes(s0: State, s: State)
    requires Inv(s) && AloneInv(s0, s) && s.c.pc.Take?
    requires ConsumerStep(s).ops == s.ops && !ConsumerStep(s).fault
    ensures AloneInv(s0, ConsumerStep(s))
  {
    hide Inv, StateOf, DataOf, Cell, Main, Ord, BufNo, IdxOf, HeadOrd, Advance, Emit;
    HeadFacts(s);
    HeadSlot(s);
    CellState(s, s.m.headOfQueue, Buf(s.m, s.m.headOfQueue).head);
    if Cell(Buf(s.m, s.m.headOfQueue), Buf(s.m, s.m.headOfQueue).head).state == SET {
      SetIsUndelivered(s, HeadLoc(s.m));
      TakeEmits(s);
    } else {
      assert ConsumerStep(s).m == s.m;
    }
  }

  lemma SetIsUndelivered(s: State, l: nat)
    requires Inv(s) && StateOf(s.m, l) == SET && HeadLoc(s.m) <= l
    ensures Undelivered(s, l)
  {
    hide MemoryOk, TailOk, EnqueuesOk, SeenOk, Distinct, OutItemsOk, ConsumerOk, RescanSeen, StateOf, HeadLoc;
    assert !Consumed(s.m, l);
  }

  /** The scan starts at the head, and nothing undelivered is in front of the head. */
  lemma AloneGap(s0: State, s: State)
    requires Inv(s) && AloneInv(s0, s) && s.c.pc.Gap?
    requires ConsumerStep(s).ops == s.ops && !ConsumerStep(s).fault
    ensures AloneInv(s0, ConsumerStep(s)) && ConsumerStep(s).c.pc == ScanLook
  {
    hide Inv, StateOf, DataOf, Cell, Main, Ord, BufNo, IdxOf, HeadOrd, Undelivered;
    HeadFacts(s);
    GapPending(s);
    CellState(s, s.m.headOfQueue, Buf(s.m, s.m.headOfQueue).head);
    var s' := ConsumerStep(s);
    forall p | Undelivered(s', p) ensures Ahead(s', p) {
      SameUndelivered(s, s');
      Where(s, p);
    }
  }

  lemma GapPending(s: State)
    requires Inv(s) && s.c.pc.Gap?
    ensures var h := Buf(s.m, s.m.headOfQueue); h.head < N && Cell(h, h.head).state != HANDLED
  {
    hide MemoryOk, ProducersOk, OutOk, RescanSeen, Cell;
  }

  // ---------- The scan ----------

  lemma AloneLooks(s0: State, s: State)
    requires Inv(s) && AloneInv(s0, s) && (s.c.pc.ScanLook? || s.c.pc.ScanNote?)
    requires ConsumerStep(s).ops == s.ops && !ConsumerStep(s).fault
    ensures AloneInv(s0, ConsumerStep(s))
  {
    hide Inv, StateOf, DataOf, Cell, Main, Ord, BufNo, IdxOf, Undelivered, HeadLoc;
    ScanFacts(s);
    CellState(s, s.c.buf, s.c.idx);
    var s' := ConsumerStep(s);
    if Searching(s'.c.pc) {
      forall p | Undelivered(s', p) ensures Ahead(s', p) {
        SameUndelivered(s, s');
        Where(s, p);
        assert Ahead(s, p);
      }
    }
  }

  /** From the end of a buffer a next link leads past nothing undelivered, and it is there if anything is. */
  lemma AloneHops(s: State, p: nat)
    requires Inv(s) && Undelivered(s, p) && LocOf(s.m, s.c.buf, N) <= p
    requires Main(s.m, s.c.buf) && !Buf(s.m, s.c.buf).freed && HeadOrd(s.m) <= Ord(s.m, s.c.buf) && Unlinked(s.c) == Null
    ensures Buf(s.m, s.c.buf).next.To?
    ensures var nx := Buf(s.m, s.c.buf).next.id; LocOf(s.m, nx, 0) <= p && Buf(s.m, nx).head == 0
  {
    hide Inv, StateOf, BufNo, Main, HeadOrd;
    Where(s, p);
    Ranges(s.m, p, s.c.buf);
    LinkedFacts(s, s.c.buf);
    assert Buf(s.m, s.m.chain[BufNo(p)]) == Kth(s.m, BufNo(p));
    StartsBefore(s.m, p, Buf(s.m, s.c.buf).next.id);
  }

  lemma SearchStands(s: State)
    requires Inv(s) && (s.c.pc.ScanNext? || s.c.pc.FoldTail? || s.c.pc.FoldNext?)
    ensures Main(s.m, s.c.buf) && !Buf(s.m, s.c.buf).freed && HeadOrd(s.m) <= Ord(s.m, s.c.buf)
    ensures s.c.pc.FoldNext? ==> Buf(s.m, s.c.buf).next.To?
  {
    hide MemoryOk, ProducersOk, OutOk, RescanSeen, AllHandled;
    if s.c.pc.FoldNext? {
      LinkedFacts(s, s.c.buf);
      TailStands(s);
    }
  }

  lemma TailStands(s: State)
    requires Inv(s)
    ensures Main(s.m, s.m.tailOfQueue) && !Buf(s.m, s.m.tailOfQueue).freed
  {
    hide NextsOk, PrevsOk, PrevsLinked, HeadOk, ProducersOk, OutOk, ConsumerOk, RescanSeen, AllHandled;
    assert Kth(s.m, TailOrd(s.m)) == Buf(s.m, s.m.tailOfQueue);
  }

  lemma AloneLeaves(s0: State, s: State)
    requires Inv(s) && AloneInv(s0, s) && (s.c.pc.ScanNext? || s.c.pc.FoldTail? || s.c.pc.FoldNext?)
    requires ConsumerStep(s).ops == s.ops && !ConsumerStep(s).fault
    ensures AloneInv(s0, ConsumerStep(s))
  {
    hide Inv, Main, Ord, BufNo, Undelivered, LocOf, Buf, HeadOrd, TailOrd, StateOf, HeadLoc;
    SearchStands(s);
    var s' := ConsumerStep(s);
    forall p | Undelivered(s', p) ensures s'.c.pc != Return(false) && Ahead(s', p) {
      SameUndelivered(s, s');
      assert Ahead(s, p);
      AloneHops(s, p);
      if s.c.pc.FoldTail? { NotAtTail(s, p); }
    }
  }

  lemma NotAtTail(s: State, p: nat)
    requires Inv(s) && Undelivered(s, p) && LocOf(s.m, s.c.buf, N) <= p
    ensures s.c.buf != s.m.tailOfQueue
  {
    hide Inv, Main, BufNo, StateOf, HeadLoc;
    Where(s, p);
    Ranges(s.m, p, s.c.buf);
  }

  lemma AloneFolds(s0: State, s: State)
    requires Inv(s) && AloneInv(s0, s) && (s.c.pc.FoldPrev? || s.c.pc.FoldSkip? || s.c.pc.FoldFree?)
    requires ConsumerStep(s).ops == s.ops && !ConsumerStep(s).fault
    ensures AloneInv(s0, ConsumerStep(s))
  {
    hide Inv, Main, BufNo, Undelivered, Store, Folded, StateOf, HeadLoc, Buf;
    SearchPlaces(s);
    if s.c.pc.FoldFree? { FoldTarget(s); }
    var s' := ConsumerStep(s);
    SamePositions(s, s');
    forall p | Undelivered(s', p) ensures Ahead(s', p) {
      SameUndelivered(s, s');
      assert Ahead(s, p);
    }
  }

  lemma SamePositions(s: State, s': State)
    requires forall p :: Ord(s'.m, p) == Ord(s.m, p)
    ensures forall p, i :: LocOf(s'.m, p, i) == LocOf(s.m, p, i)
  {
    forall p, i ensures LocOf(s'.m, p, i) == LocOf(s.m, p, i) {
      LocByOrd(s.m, p, i);
      LocByOrd(s'.m, p, i);
    }
  }

  lemma LocByOrd(m: Memory, p: nat, i: nat)
    ensures LocOf(m, p, i) == N * Ord(m, p) + i
  {
  }

  lemma FoldTarget(s: State)
    requires Inv(s) && s.c.pc.FoldFree?
    ensures Buf(Folded(s.m, s.c.buf), s.c.pc.nx).head == 0
  {
    hide NextsOk, PrevsOk, PrevsLinked, FreedOk, ProducersOk, OutOk, RescanSeen, AllHandled;
    assert Kth(s.m, Ord(s.m, s.c.pc.nx)) == Buf(s.m, s.c.pc.nx);
  }

  // ---------- ReScan and delivery ----------

  lemma AloneDelivers(s0: State, s: State)
    requires Inv(s) && AloneInv(s0, s) && (s.c.pc.Rescan? || s.c.pc.Deliver?)
    requires ConsumerStep(s).ops == s.ops && !ConsumerStep(s).fault && Inv(ConsumerStep(s))
    ensures AloneInv(s0, ConsumerStep(s))
  {
    hide Inv, Main, Cell, Buf, StateOf, DataOf, HeadLoc, Advance, Store;
    if s.c.pc.Deliver? {
      DeliverOut(s);
      CandidateSet(s);
      SetIsUndelivered(s, LocOf(s.m, s.c.buf, s.c.idx));
      DeliverEmits(s);
    }
  }

  lemma CandidateSet(s: State)
    requires Inv(s) && s.c.pc.Deliver?
    ensures LocOf(s.m, s.c.buf, s.c.idx) >= 0 && StateOf(s.m, LocOf(s.m, s.c.buf, s.c.idx)) == SET
    ensures Buf(s.m, s.c.buf).pos >= 1
  {
    hide MemoryOk, ProducersOk, OutOk, RescanSeen, StateOf, DataOf, Cell;
    CellState(s, s.c.buf, s.c.idx);
  }

  lemma DeliverEmits(s: State)
    requires s.c.pc.Deliver? && Touchable(Buf(s.m, s.c.buf), s.c.idx) && Buf(s.m, s.c.buf).pos >= 1
    ensures var s' := ConsumerStep(s);
      && s'.out == s.out + [Cell(Buf(s.m, s.c.buf), s.c.idx).data] && s'.outLoc == s.outLoc + [LocOf(s.m, s.c.buf, s.c.idx)]
      && (s'.c.pc == Return(true) || s'.c.pc == MoveTail(ToTrue))
  {
    hide Store, Cell, Touchable;
  }

  lemma AloneAfter(s0: State, s: State)
    requires Inv(s) && AloneInv(s0, s) && (s.c.pc.MoveTail? || s.c.pc.MoveNext? || s.c.pc.MovePop?) && s.c.pc.r == ToTrue
    requires ConsumerStep(s).ops == s.ops
    ensures AloneInv(s0, ConsumerStep(s))
  {
    hide Inv;
  }

  lemma AloneStep(s0: State, s: State)
    requires Inv(s) && AloneInv(s0, s) && !s.c.pc.Return?
    ensures AloneInv(s0, ConsumerStep(s))
  {
    hide Inv, AloneInv, ConsumerStep;
    ConsumerKeepsOps(s);
    ConsumerInv(s);
    NoFault(ConsumerStep(s));
    match s.c.pc
    case Take => AloneTakes(s0, s);
    case Gap => AloneGap(s0, s);
    case ScanLook => AloneLooks(s0, s);
    case ScanNote => AloneLooks(s0, s);
    case ScanNext => AloneLeaves(s0, s);
    case FoldTail => AloneLeaves(s0, s);
    case FoldNext => AloneLeaves(s0, s);
    case FoldPrev(_) => AloneFolds(s0, s);
    case FoldSkip(_) => AloneFolds(s0, s);
    case FoldFree(_) => AloneFolds(s0, s);
    case Rescan => AloneDelivers(s0, s);
    case Deliver => AloneDelivers(s0, s);
    case _ => if Before(s.c.pc) { AloneMoves(s0, s); } else { AloneAfter(s0, s); }
  }

  lemma {:induction false} AloneRunInv(states: seq<State>, i: nat)
    requires AloneDequeue(states) && i < |states|
    ensures Inv(states[i]) && SpareOk(states[i].m) && AloneInv(states[0], states[i])
  {
    hide Inv, SpareOk, AloneInv, Act;
    if i == 0 {
      AloneStart(states[0]);
    } else {
      AloneRunInv(states, i - 1);
      SlotsAlive(states[i - 1], DoConsume);
      AloneStep(states[0], states[i - 1]);
      ConsumerInv(states[i - 1]);
      SpareStep(states[i - 1], DoConsume);
    }
  }

  lemma AloneStart(s: State)
    requires s.c.pc == Idle
    ensures AloneInv(s, s)
  {
  }

  /** Wherever the producers have stopped: a dequeue that runs alone delivers one published item that was not delivered
      before, or it answers false; and it answers false only when nothing published is undelivered or when it met the
      head of the queue at `tail`, in the tail buffer. */
  lemma AloneDequeueAnswers(states: seq<State>)
    requires AloneDequeue(states)
    ensures var s, t := states[0], states[|states| - 1];
      if t.c.pc.ok then OneDelivered(s, t)
      else t.out == s.out && t.outLoc == s.outLoc && (LooksEmpty(t) || NoneUndelivered(s))
  {
    hide Inv, SpareOk, OneDelivered, LooksEmpty, NoneUndelivered, Act;
    var s, t := states[0], states[|states| - 1];
    AloneRunInv(states, |states| - 1);
    if !t.c.pc.ok { SameUndelivered(s, t); }
  }

  /** A dequeue that meets the head of the queue at `tail`, in the tail buffer, answers false at once. */
  lemma LooksEmptyAnswers(s: State)
    requires s.c.pc.AtTail? && LooksEmpty(s)
    ensures ConsumerStep(ConsumerStep(s)) == s.(c := s.c.(pc := Return(false)))
  {
  }
}
