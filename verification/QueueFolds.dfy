/** What a dequeue cleans up: handled buffers on its way, and old garbage when it moves on. */
module QueueFolds {
  import opened QueueModel
  import opened QueueInvariant
  import opened QueueConsumer
  import opened QueueDeliver
  import opened QueueReclaim
  import opened QueueTheorems
  import opened QueueQuiet
  import opened QueueReturns
  import opened QueueAlone

  /** Every fully handled buffer strictly between the head buffer and the j-th has been folded. */
  ghost predicate FoldedUpTo(m: Memory, j: int) {
    forall k :: 0 <= k < |m.chain| && HeadOrd(m) < k < j && AllHandled(m, k) ==> Kth(m, k).freed
  }

  /** Every buffer strictly between the j-th and the k-th has been folded. */
  ghost predicate FoldedBetween(m: Memory, j: int, k: int) {
    forall i :: 0 <= i < |m.chain| && j < i < k ==> Kth(m, i).freed
  }

  /** One of the first `n` slots of the buffer is not HANDLED. */
  ghost predicate SomeLeft(m: Memory, p: nat, n: nat) {
    exists i :: 0 <= i < n && i < N && Cell(Buf(m, p), i).state != HANDLED
  }

  ghost predicate FoldsInv(s: State) {
    && (Searching(s.c.pc) || s.c.pc.Rescan? || s.c.pc.Deliver? ==> FoldedUpTo(s.m, Ord(s.m, s.c.buf)))
    && (s.c.pc.ScanLook? || s.c.pc.ScanNote? ==> s.c.moved && !s.c.allHandled ==> SomeLeft(s.m, s.c.buf, s.c.idx))
    && (s.c.pc.ScanNext? ==> s.c.moved ==> SomeLeft(s.m, s.c.buf, N))
    && (s.c.pc.FoldPrev? || s.c.pc.FoldSkip? || s.c.pc.FoldFree? ==>
          FoldedBetween(s.m, Ord(s.m, s.c.buf), Ord(s.m, s.c.pc.nx)))
  }

  // ---------- Steps that change no memory ----------

  lemma SlotNoted(s: State)
    requires Inv(s) && FoldsInv(s) && (s.c.pc.ScanLook? || s.c.pc.ScanNote?) && !ConsumerStep(s).fault
    ensures FoldsInv(ConsumerStep(s))
  {
    hide Inv, FoldedUpTo, FoldedBetween, Ord, Touchable, Buf;
    ScanFacts(s);
    var c := s.c;
    if c.pc.ScanNote? && c.moved && !(c.allHandled && Cell(Buf(s.m, c.buf), c.idx).state == HANDLED) {
      SomeMore(s.m, c.buf, c.idx);
    }
  }

  lemma SomeMore(m: Memory, p: nat, i: nat)
    requires i < N && (SomeLeft(m, p, i) || Cell(Buf(m, p), i).state != HANDLED)
    ensures SomeLeft(m, p, i + 1) && (i + 1 >= N ==> SomeLeft(m, p, N))
  {
    hide Cell;
    if SomeLeft(m, p, i) {
      var j :| 0 <= j < i && j < N && Cell(Buf(m, p), j).state != HANDLED;
      assert 0 <= j < i + 1 && Cell(Buf(m, p), j).state != HANDLED;
    } else {
      assert 0 <= i < i + 1 && Cell(Buf(m, p), i).state != HANDLED;
    }
  }

  /** A next link skips folded buffers only. */
  lemma NextSkips(s: State)
    requires Inv(s) && (s.c.pc.ScanNext? || s.c.pc.FoldNext?) && Buf(s.m, s.c.buf).next.To?
    ensures FoldedBetween(s.m, Ord(s.m, s.c.buf), Ord(s.m, Buf(s.m, s.c.buf).next.id))
  {
    hide HeapOk, PrevsOk, PrevsLinked, FreedOk, HeadOk, ProducersOk, OutOk, RescanSeen, AllHandled, Cell;
    StandsKth(s);
    var k := Ord(s.m, s.c.buf);
    assert NextOk(s.m, Null, k);
    forall i | 0 <= i < |s.m.chain| && k < i < Ord(s.m, Buf(s.m, s.c.buf).next.id) ensures Kth(s.m, i).freed {
      assert Gone(s.m, Null, i);
    }
  }

  lemma StandsKth(s: State)
    requires Inv(s) && (s.c.pc.ScanNext? || s.c.pc.FoldNext?)
    ensures 0 <= Ord(s.m, s.c.buf) < |s.m.chain| && Kth(s.m, Ord(s.m, s.c.buf)) == Buf(s.m, s.c.buf)
    ensures s.m.chain[Ord(s.m, s.c.buf)] == s.c.buf && !Buf(s.m, s.c.buf).freed
    ensures s.c.pc.ScanNext? ==> (s.c.moved <==> HeadOrd(s.m) < Ord(s.m, s.c.buf)) && HeadOrd(s.m) <= Ord(s.m, s.c.buf)
  {
    hide MemoryOk, ProducersOk, OutOk, RescanSeen, AllHandled;
  }

  lemma SomeLeftNotAll(m: Memory, k: nat, p: nat)
    requires k < |m.chain| && Kth(m, k) == Buf(m, p) && SomeLeft(m, p, N)
    ensures !AllHandled(m, k)
  {
    hide Cell;
    var i :| 0 <= i < N && Cell(Buf(m, p), i).state != HANDLED;
    assert Cell(Kth(m, k), i).state != HANDLED;
  }

  lemma Extend(m: Memory, j: nat, k: int)
    requires FoldedUpTo(m, j) && FoldedBetween(m, j, k)
    requires j < |m.chain| && (HeadOrd(m) < j ==> !AllHandled(m, j) || Kth(m, j).freed)
    ensures FoldedUpTo(m, k)
  {
    hide AllHandled;
  }

  lemma NextFolds(s: State)
    requires Inv(s) && FoldsInv(s) && (s.c.pc.ScanNext? || s.c.pc.FoldTail? || s.c.pc.FoldNext?)
    ensures FoldsInv(ConsumerStep(s))
  {
    hide Inv, FoldedUpTo, FoldedBetween, SomeLeft, Ord, HeadOrd, AllHandled, Buf;
    if !s.c.pc.FoldTail? && Buf(s.m, s.c.buf).next.To? {
      NextSkips(s);
      StandsKth(s);
      if s.c.pc.ScanNext? {
        if s.c.moved { SomeLeftNotAll(s.m, Ord(s.m, s.c.buf), s.c.buf); }
        Extend(s.m, Ord(s.m, s.c.buf), Ord(s.m, Buf(s.m, s.c.buf).next.id));
      }
    }
  }

  // ---------- The fold itself ----------

  /** The same slots and places, and nothing unfolded. */
  ghost predicate Kept(m: Memory, m': Memory) {
    && m'.chain == m.chain && HeadOrd(m') == HeadOrd(m) && (forall p :: Ord(m', p) == Ord(m, p))
    && (forall p :: Buf(m', p).slots == Buf(m, p).slots && (Buf(m, p).freed ==> Buf(m', p).freed))
  }

  lemma KeptFolds(m: Memory, m': Memory, j: int, k: int)
    requires Kept(m, m')
    ensures FoldedUpTo(m, j) ==> FoldedUpTo(m', j)
    ensures FoldedBetween(m, j, k) ==> FoldedBetween(m', j, k)
  {
    hide HeadOrd, Ord, Buf;
    forall i | 0 <= i < |m.chain| ensures AllHandled(m', i) == AllHandled(m, i) {
      assert Kth(m', i).slots == Kth(m, i).slots;
      forall x ensures Cell(Kth(m', i), x) == Cell(Kth(m, i), x) {}
    }
    assert forall i :: 0 <= i < |m.chain| ==> (Kth(m, i).freed ==> Kth(m', i).freed);
  }

  lemma StoreKept(m: Memory, p: nat, b: Buffer)
    requires b.pos == Buf(m, p).pos && b.slots == Buf(m, p).slots && (Buf(m, p).freed ==> b.freed)
    ensures Kept(m, Store(m, p, b))
  {
  }

  lemma FoldedKept(m: Memory, p: nat)
    ensures Kept(m, Folded(m, p)) && (p < |m.heap| ==> Buf(Folded(m, p), p).freed)
  {
  }

  lemma FoldFolds(s: State)
    requires Inv(s) && FoldsInv(s) && (s.c.pc.FoldPrev? || s.c.pc.FoldSkip? || s.c.pc.FoldFree?) && !ConsumerStep(s).fault
    ensures FoldsInv(ConsumerStep(s))
  {
    hide Inv, FoldedUpTo, FoldedBetween, SomeLeft, Ord, HeadOrd, Buf, Store, Folded, AllHandled, Kept;
    var nx, t, m := s.c.pc.nx, Buf(s.m, s.c.buf), s.m;
    var m' := ConsumerStep(s).m;
    match s.c.pc
    case FoldPrev(_) => StoreKept(m, nx, Buf(m, nx).(prev := t.prev)); KeptPlaces(m, m', s.c.buf, nx);
    case FoldSkip(_) => StoreKept(m, t.prev.id, Buf(m, t.prev.id).(next := To(nx))); KeptPlaces(m, m', s.c.buf, nx);
    case FoldFree(_) =>
      FoldedKept(m, s.c.buf);
      KeptPlaces(m, m', s.c.buf, nx);
      FreedNow(s);
      Extend(m', Ord(m, s.c.buf), Ord(m, nx));
  }

  lemma KeptPlaces(m: Memory, m': Memory, p: nat, q: nat)
    requires Kept(m, m')
    ensures Ord(m', p) == Ord(m, p) && Ord(m', q) == Ord(m, q)
    ensures FoldedUpTo(m, Ord(m, p)) ==> FoldedUpTo(m', Ord(m, p))
    ensures FoldedBetween(m, Ord(m, p), Ord(m, q)) ==> FoldedBetween(m', Ord(m, p), Ord(m, q))
  {
    hide FoldedUpTo, FoldedBetween, Ord;
    KeptFolds(m, m', Ord(m, p), Ord(m, q));
  }

  lemma FreedNow(s: State)
    requires Inv(s) && s.c.pc.FoldFree?
    ensures var k := Ord(s.m, s.c.buf); var m' := Folded(s.m, s.c.buf);
      0 <= k < |m'.chain| && Kth(m', k).freed
  {
    hide MemoryOk, ProducersOk, OutOk, RescanSeen, AllHandled;
  }

  // ---------- Whole dequeues ----------

  lemma RescanFolds(s: State)
    requires Inv(s) && FoldsInv(s) && s.c.pc.Rescan? && !ConsumerStep(s).fault
    ensures FoldsInv(ConsumerStep(s))
  {
    hide Inv, FoldedUpTo, Ord, HeadOrd, Cell, Touchable, Buf;
    RescanBehind(s);
    Nearer(s.m, Ord(s.m, s.c.sbuf), Ord(s.m, s.c.buf));
  }

  lemma RescanBehind(s: State)
    requires Inv(s) && s.c.pc.Rescan?
    ensures Ord(s.m, s.c.sbuf) <= Ord(s.m, s.c.buf)
  {
    hide MemoryOk, ProducersOk, OutOk, RescanSeen, Cell;
  }

  lemma Nearer(m: Memory, j: int, k: int)
    requires FoldedUpTo(m, k) && j <= k
    ensures FoldedUpTo(m, j)
  {
    hide AllHandled;
  }

  lemma ScanBegins(s: State)
    requires FoldsInv(s) && Before(s.c.pc)
    ensures FoldsInv(ConsumerStep(s))
  {
    hide ConsumerStep, FoldedUpTo, SomeLeft, FoldedBetween;
    BeforeLeads(s);
    NothingBetween(s.m);
  }

  predicate OutsideSearch(pc: ConsumerPC) {
    !Searching(pc) && !pc.Rescan? && !pc.Deliver?
  }

  /** The search starts on the head buffer. */
  lemma BeforeLeads(s: State)
    requires Before(s.c.pc)
    ensures var s' := ConsumerStep(s);
      || OutsideSearch(s'.c.pc)
      || (s'.c.pc == ScanLook && s'.m == s.m && s'.c.buf == s.m.headOfQueue && !s'.c.moved)
  {
    hide ConsumerStep, OutsideSearch;
    if s.c.pc.Peek? || s.c.pc.Take? { AdvanceLeads(s); }
    else if s.c.pc.Gap? { GapLeads(s); }
    else { MoveLeads(s); }
  }

  lemma AdvanceLeads(s: State)
    requires s.c.pc.Peek? || s.c.pc.Take?
    ensures OutsideSearch(ConsumerStep(s).c.pc)
  {
    hide Advance, Cell, Touchable, Buf;
    var h := Buf(s.m, s.m.headOfQueue);
    AdvanceKeeps(s, ToPeek);
    AdvanceKeeps(Emit(s, h, h.head), ToTrue);
  }

  lemma GapLeads(s: State)
    requires s.c.pc.Gap?
    ensures var s' := ConsumerStep(s);
      || OutsideSearch(s'.c.pc)
      || (s'.c.pc == ScanLook && s'.m == s.m && s'.c.buf == s.m.headOfQueue && !s'.c.moved)
  {
    hide Cell, Touchable, Buf;
  }

  lemma MoveLeads(s: State)
    requires Before(s.c.pc) && !s.c.pc.Peek? && !s.c.pc.Take? && !s.c.pc.Gap?
    ensures OutsideSearch(ConsumerStep(s).c.pc)
  {
    hide Popped, Switched, Buf;
  }

  lemma NothingBetween(m: Memory)
    ensures FoldedUpTo(m, Ord(m, m.headOfQueue))
  {
    hide AllHandled;
  }

  lemma FoldsStep(s: State)
    requires Inv(s) && FoldsInv(s) && !s.c.pc.Return?
    ensures FoldsInv(ConsumerStep(s))
  {
    hide Inv, FoldsInv, ConsumerStep;
    ConsumerInv(s);
    NoFault(ConsumerStep(s));
    match s.c.pc
    case ScanLook => SlotNoted(s);
    case ScanNote => SlotNoted(s);
    case ScanNext => NextFolds(s);
    case FoldTail => NextFolds(s);
    case FoldNext => NextFolds(s);
    case FoldPrev(_) => FoldFolds(s);
    case FoldSkip(_) => FoldFolds(s);
    case FoldFree(_) => FoldFolds(s);
    case Rescan => RescanFolds(s);
    case _ => OtherFolds(s);
  }

  lemma OtherFolds(s: State)
    requires FoldsInv(s) && !Searching(s.c.pc) && !s.c.pc.Rescan?
    ensures FoldsInv(ConsumerStep(s))
  {
    hide Store, Cell, Touchable, AllHandled, Advance, Popped, Switched, Emit;
    if Before(s.c.pc) { ScanBegins(s); } else { LeavesScan(s); }
  }

  lemma LeavesScan(s: State)
    requires !Searching(s.c.pc) && !s.c.pc.Rescan? && !Before(s.c.pc)
    ensures var pc := ConsumerStep(s).c.pc; !Searching(pc) && !pc.Rescan? && (pc.Deliver? ==> ConsumerStep(s) == s.(fault := true))
  {
    hide Advance, Store, PutCell, Cell, Touchable, Popped, Switched, Buf;
    var t := Buf(s.m, s.c.buf);
    var x := Cell(t, s.c.idx).(state := HANDLED);
    AdvanceKeeps(Emit(s, t, s.c.idx).(m := Store(s.m, s.c.buf, PutCell(t, s.c.idx, x))), ToTrue);
  }

  lemma {:induction false} FoldsRun(states: seq<State>, i: nat)
    requires AloneDequeue(states) && i < |states|
    ensures FoldsInv(states[i])
  {
    hide Inv, SpareOk, FoldsInv, Act, AloneInv;
    if i == 0 {
      FoldsStart(states[0]);
    } else {
      FoldsRun(states, i - 1);
      AloneRunInv(states, i - 1);
      SlotsAlive(states[i - 1], DoConsume);
      FoldsStep(states[i - 1]);
    }
  }

  lemma FoldsStart(s: State)
    requires s.c.pc == Idle
    ensures FoldsInv(s)
  {
  }

  /** When a dequeue that runs alone delivers from behind an unset slot, every fully handled buffer between the head buffer
      and the buffer it delivers from has been folded. */
  lemma DeliveryFolds(states: seq<State>, i: nat, k: nat)
    requires AloneDequeue(states) && i < |states| && states[i].c.pc.Deliver?
    requires k < |states[i].m.chain| && HeadOrd(states[i].m) < k < Ord(states[i].m, states[i].c.buf) && AllHandled(states[i].m, k)
    ensures Kth(states[i].m, k).freed
  {
    hide Inv, SpareOk, Act, AllHandled;
    FoldsRun(states, i);
  }

  /** When the consumer moves on to the next buffer, no garbage older than that buffer is left at the front of the list,
      and the buffer it leaves has been deleted. */
  lemma MoveDropsOldGarbage(s: State)
    requires s.c.pc.MovePop? && !ConsumerStep(s).c.pc.MovePop?
    ensures var m := ConsumerStep(s).m;
      && (m.garbage.To? ==> Ord(m, m.headOfQueue) <= Ord(m, m.garbage.id))
      && s.m.headOfQueue in m.reclaimed
  {
  }

  /** It deletes no garbage that is not older than the buffer it moves on to. */
  lemma MoveKeepsNewGarbage(s: State)
    requires s.c.pc.MovePop? && ConsumerStep(s).c.pc.MovePop?
    ensures s.m.garbage.To? && Ord(s.m, s.m.garbage.id) < Ord(s.m, s.c.pc.nx)
    ensures ConsumerStep(s).m.reclaimed == s.m.reclaimed + {s.m.garbage.id}
  {
  }

  // ---------- Where the head is left ----------

  function HeadIdx(m: Memory): nat {
    Buf(m, m.headOfQueue).head
  }

  /** A search starts with slots left in the head buffer, and a delivery leaves no used-up head buffer behind that is not
      the tail. */
  ghost predicate ReadyInv(s: State) {
    && (Searching(s.c.pc) || s.c.pc.Rescan? || s.c.pc.Deliver? ==> HeadIdx(s.m) < N)
    && (s.c.pc == Return(true) ==> HeadIdx(s.m) < N || s.m.headOfQueue == s.m.tailOfQueue)
  }

  lemma HeadByLoc(m: Memory, m': Memory)
    requires m'.headOfQueue == m.headOfQueue && HeadLoc(m') == HeadLoc(m) && HeadOrd(m') == HeadOrd(m)
    ensures HeadIdx(m') == HeadIdx(m)
  {
  }

  lemma AdvanceEnds(s: State, r: Resume)
    requires s.m.headOfQueue < |s.m.heap|
    ensures var s' := Advance(s, r);
      if HeadIdx(s.m) + 1 >= N then s'.c.pc == MoveTail(r) else s'.c.pc == After(r, true) && HeadIdx(s'.m) == HeadIdx(s.m) + 1
    ensures HeadLoc(Advance(s, r).m) == HeadLoc(s.m) + 1
  {
  }

  lemma HandledKeepsHead(m: Memory, p: nat, i: int, x: Slot)
    ensures var m' := Store(m, p, PutCell(Buf(m, p), i, x));
      HeadIdx(m') == HeadIdx(m) && HeadLoc(m') == HeadLoc(m) && m'.headOfQueue == m.headOfQueue && |m'.heap| == |m.heap|
  {
  }

  lemma DeliverReady(s: State)
    requires Inv(s) && s.c.pc.Deliver? && HeadIdx(s.m) < N
    ensures ReadyInv(ConsumerStep(s))
    ensures HeadLoc(ConsumerStep(s).m) == HeadLoc(s.m) + if LocOf(s.m, s.c.buf, s.c.idx) == HeadLoc(s.m) then 1 else 0
  {
    hide Inv, Cell, Touchable, HeadLoc, StateOf, DataOf, Main, Advance, Store, PutCell, LocOf;
    DeliverOut(s);
    HeadFacts(s);
    CandidateAt(s);
    var t := Buf(s.m, s.c.buf);
    var x := Cell(t, s.c.idx).(state := HANDLED);
    HandledKeepsHead(s.m, s.c.buf, s.c.idx, x);
    AdvanceEnds(Emit(s, t, s.c.idx).(m := Store(s.m, s.c.buf, PutCell(t, s.c.idx, x))), ToTrue);
  }

  lemma CandidateAt(s: State)
    requires Inv(s) && s.c.pc.Deliver? && HeadIdx(s.m) < N
    ensures LocOf(s.m, s.c.buf, s.c.idx) == HeadLoc(s.m) <==> s.c.buf == s.m.headOfQueue && s.c.idx == HeadIdx(s.m)
  {
    hide MemoryOk, ProducersOk, OutOk, RescanSeen, Cell, Main;
    HeadFacts(s);
    SameBuffer(s, s.c.buf, s.m.headOfQueue);
    LocByOrd(s.m, s.c.buf, s.c.idx);
    LocByOrd(s.m, s.m.headOfQueue, HeadIdx(s.m));
  }

  lemma TakeReady(s: State)
    requires Inv(s) && s.c.pc.Take?
    ensures ReadyInv(ConsumerStep(s))
  {
    hide Inv, Cell, Touchable, HeadLoc, Advance, Main;
    HeadFacts(s);
    var h := Buf(s.m, s.m.headOfQueue);
    AdvanceEnds(Emit(s, h, h.head), ToTrue);
  }

  lemma SearchReady(s: State)
    requires Inv(s) && ReadyInv(s) && (Searching(s.c.pc) || s.c.pc.Rescan? || s.c.pc.Gap?)
    ensures ReadyInv(ConsumerStep(s))
  {
    hide Inv, Cell, Touchable, HeadLoc, HeadIdx, Folded, Store;
    if s.c.pc.Gap? {
      GapReady(s);
    } else if Searching(s.c.pc) {
      SearchKeepsHead(s);
      SearchPlaces(s);
      HeadByLoc(s.m, ConsumerStep(s).m);
    }
  }

  lemma GapReady(s: State)
    requires Inv(s) && s.c.pc.Gap?
    ensures HeadIdx(s.m) < N
  {
    hide Inv, Cell;
    GapPending(s);
  }

  lemma MoveReady(s: State)
    requires Inv(s) && SpareOk(s.m) && (s.c.pc.MoveTail? || s.c.pc.MoveNext? || s.c.pc.MovePop?)
    ensures ReadyInv(ConsumerStep(s))
  {
    hide Inv, SpareOk, HeadLoc, Popped, Switched, Buf;
    MoveLeft(s);
    if s.c.pc.MoveNext? { HeadNext(s); }
  }

  lemma ReadyStep(s: State)
    requires Inv(s) && SpareOk(s.m) && ReadyInv(s) && !s.c.pc.Return?
    ensures ReadyInv(ConsumerStep(s))
  {
    hide Inv, SpareOk, ConsumerStep, HeadIdx;
    match s.c.pc
    case Take => TakeReady(s);
    case Deliver => DeliverReady(s);
    case MoveTail(_) => MoveReady(s);
    case MoveNext(_) => MoveReady(s);
    case MovePop(_, _) => MoveReady(s);
    case Peek => PeekReady(s);
    case Idle => EnterReady(s);
    case Enter => EnterReady(s);
    case AtTail => EnterReady(s);
    case AtEnd => EnterReady(s);
    case _ => SearchReady(s);
  }

  lemma PeekReady(s: State)
    requires s.c.pc.Peek?
    ensures ReadyInv(ConsumerStep(s))
  {
    hide Cell, Touchable, Advance, Buf;
    AdvanceKeeps(s, ToPeek);
  }

  lemma EnterReady(s: State)
    requires s.c.pc.Idle? || s.c.pc.Enter? || s.c.pc.AtTail? || s.c.pc.AtEnd?
    ensures ReadyInv(ConsumerStep(s))
  {
    hide Buf;
  }

  lemma {:induction false} ReadyRun(states: seq<State>, i: nat)
    requires AloneDequeue(states) && i < |states|
    ensures ReadyInv(states[i])
  {
    hide Inv, SpareOk, ReadyInv, Act, AloneInv;
    if i == 0 {
      ReadyStart(states[0]);
    } else {
      ReadyRun(states, i - 1);
      AloneRunInv(states, i - 1);
      SlotsAlive(states[i - 1], DoConsume);
      ReadyStep(states[i - 1]);
    }
  }

  lemma ReadyStart(s: State)
    requires s.c.pc == Idle
    ensures ReadyInv(s)
  {
  }

  /** A dequeue that runs alone and delivers moves the head on if it delivers the item at the head, leaves it otherwise, and
      does not leave a used-up buffer at the head unless that is the tail buffer. */
  lemma DeliveryMovesHead(states: seq<State>, i: nat)
    requires AloneDequeue(states) && i < |states|
    ensures states[i].c.pc.Deliver? ==>
      var s := states[i];
      HeadLoc(ConsumerStep(s).m) == HeadLoc(s.m) + if LocOf(s.m, s.c.buf, s.c.idx) == HeadLoc(s.m) then 1 else 0
    ensures states[i].c.pc == Return(true) ==>
      Buf(states[i].m, states[i].m.headOfQueue).head < N || states[i].m.headOfQueue == states[i].m.tailOfQueue
  {
    hide Inv, SpareOk, Act, AloneInv, ConsumerStep, LocOf, HeadLoc;
    ReadyRun(states, i);
    AloneRunInv(states, i);
    if states[i].c.pc.Deliver? { DeliverReady(states[i]); }
  }
}
