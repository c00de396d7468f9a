/** A dequeue that runs alone returns, within a number of steps known when it starts. */
module QueueReturns {
  import opened QueueModel
  import opened QueueInvariant
  import opened QueueConsumer
  import opened QueueReclaim
  import opened QueueTheorems
  import opened QueueQuiet

  /** Turns for each slot of a buffer, with some to spare for leaving the buffer. */
  const K: nat := 2 * N + 10

  /** The order of the steps within one round of the loops in front of the scan. */
  function Rank(m: Memory, pc: ConsumerPC): nat {
    match pc
    case Idle => 11
    case Enter => if Buf(m, m.headOfQueue).head >= N then 10 else 6
    case MoveTail(_) => 9
    case MoveNext(_) => 8
    case MovePop(_, _) => 7
    case Peek => 5
    case AtTail => 4
    case AtEnd => 3
    case Take => 2
    case Gap => 1
    case _ => 0
  }

  /** The order of the steps of the scan at one slot. */
  function ScanRank(pc: ConsumerPC): nat {
    match pc
    case ScanLook => 8
    case ScanNote => 7
    case FoldTail => 6
    case FoldNext => 5
    case FoldPrev(_) => 4
    case FoldSkip(_) => 3
    case FoldFree(_) => 2
    case _ => 1
  }

  /** What is left of the scan of one buffer: slots count most, then the steps at a slot. */
  function SlotLeft(c: Consumer): int {
    (if c.pc.ScanLook? || c.pc.ScanNote? then 2 * (N - c.idx) else 0) + ScanRank(c.pc)
  }

  /** How much of the chain a scan may still visit, then how much of the buffer. */
  function ScanLeft(s: State): int {
    (|s.m.chain| - Ord(s.m, s.c.buf)) * K + SlotLeft(s.c)
  }

  /** Enough turns for any ReScan over `chain` buffers with `ops` claimed locations. */
  function RescanMax(ops: nat, chain: nat): int {
    Turns(ops) + chain * (N + 1) + N + 21
  }

  /** How many steps a dequeue that runs alone may still take. */
  function StepsLeft(s: State): int {
    if s.c.pc.Return? then 0
    else if s.c.pc.Rescan? then |s.m.bin| + 20 + RescanLeft(s)
    else if s.c.pc.Deliver? then |s.m.bin| + 19
    else if Searching(s.c.pc) then |s.m.bin| + ScanLeft(s) + RescanMax(|s.ops|, |s.m.chain|)
    else if Before(s.c.pc) then
      8 * (|s.ops| - HeadLoc(s.m)) + |s.m.bin| + Rank(s.m, s.c.pc) + (|s.m.chain| + 1) * K + RescanMax(|s.ops|, |s.m.chain|)
    else |s.m.bin| + Rank(s.m, s.c.pc)
  }

  // ---------- In front of the scan ----------

  lemma MoveLeft(s: State)
    requires Inv(s) && SpareOk(s.m) && (s.c.pc.MovePop? || s.c.pc.MoveTail? || s.c.pc.MoveNext?)
    ensures var s' := ConsumerStep(s);
      && (if s.c.pc.MovePop? && s'.c.pc == s.c.pc then |s'.m.bin| < |s.m.bin| && HeadLoc(s'.m) == HeadLoc(s.m)
          else s'.m.bin == s.m.bin && HeadLoc(s'.m) >= HeadLoc(s.m))
      && s'.m.chain == s.m.chain
      && (s.c.pc.MovePop? && s'.c.pc != s.c.pc ==> Buf(s'.m, s'.m.headOfQueue).head == 0)
      && (!s.c.pc.MovePop? ==> s'.m == s.m)
  {
    hide Inv, BinOk, ReclaimedOk, Buf;
    if s.c.pc.MovePop? {
      BinSome(s.m);
      NextHead(s);
      if s.m.garbage.To? { PopAside(s.m); }
    }
  }

  lemma BinSome(m: Memory)
    requires SpareOk(m)
    ensures m.garbage.To? <==> m.bin != []
  {
  }

  lemma PopAside(m: Memory)
    requires m.garbage.To?
    ensures HeadLoc(Popped(m)) == HeadLoc(m)
  {
  }

  lemma NextHead(s: State)
    requires Inv(s) && s.c.pc.MovePop?
    ensures HeadLoc(Switched(s.m, s.c.pc.nx)) >= HeadLoc(s.m)
    ensures Buf(Switched(s.m, s.c.pc.nx), s.c.pc.nx).head == 0
  {
    hide NextsOk, PrevsOk, PrevsLinked, FreedOk, ProducersOk, OutOk, RescanSeen;
    HeadFacts(s);
    assert Kth(s.m, Ord(s.m, s.c.pc.nx)) == Buf(s.m, s.c.pc.nx);
  }

  lemma AdvanceLeft(s: State, r: Resume)
    requires HeapOk(s.m)
    ensures var s' := Advance(s, r);
      && HeadLoc(s'.m) == HeadLoc(s.m) + 1 && s'.m.bin == s.m.bin && s'.m.chain == s.m.chain && s'.ops == s.ops
      && (s'.c.pc == MoveTail(r) || s'.c.pc == After(r, true))
  {
  }

  /** What a dequeue may still need from the head's location, the garbage list and the step it is at. */
  function RoundLeft(ops: nat, at: int, bin: nat, rank: nat, scan: int): int {
    8 * (ops - at) + bin + rank + scan
  }

  /** What may follow the rounds: a scan and a ReScan. */
  function ScanMax(ops: nat, chain: nat): int {
    (chain + 1) * K + RescanMax(ops, chain)
  }

  lemma BeforeIs(s: State)
    requires Before(s.c.pc)
    ensures StepsLeft(s) == RoundLeft(|s.ops|, HeadLoc(s.m), |s.m.bin|, Rank(s.m, s.c.pc), ScanMax(|s.ops|, |s.m.chain|))
  {
    hide HeadLoc, Rank, RescanMax;
  }

  lemma AfterIs(s: State)
    requires s.c.pc == Return(true) || ((s.c.pc.MoveTail? || s.c.pc.MoveNext? || s.c.pc.MovePop?) && s.c.pc.r == ToTrue)
    ensures 0 <= StepsLeft(s) <= |s.m.bin| + Rank(s.m, s.c.pc)
  {
  }

  lemma MaxSpare(ops: nat, chain: nat)
    ensures ScanMax(ops, chain) == chain * K + K + RescanMax(ops, chain)
    ensures chain * K >= 0 && RescanMax(ops, chain) >= 21 + N
  {
    assert chain * K >= 0 && chain * (N + 1) >= 0;
  }

  /** The consumer's locations are in bounds, whatever the producers are doing. */
  lemma AloneBounds(s: State)
    requires Inv(s)
    ensures HeapOk(s.m) && 0 <= HeadLoc(s.m) <= |s.ops| && 0 <= HeadOrd(s.m) < |s.m.chain|
  {
    hide NextsOk, PrevsOk, PrevsLinked, FreedOk, TailOk, EnqueuesOk, SeenOk, OutOk, ConsumerOk, RescanSeen, StateOf;
    HeadFacts(s);
    var l := |s.ops|;
    assert StateOf(s.m, l) == EMPTY;
  }

  lemma MovingLeft(s: State)
    requires Inv(s) && SpareOk(s.m) && Before(s.c.pc) && (s.c.pc.MovePop? || s.c.pc.MoveTail? || s.c.pc.MoveNext?)
    requires Inv(ConsumerStep(s)) && ConsumerStep(s).ops == s.ops
    ensures 0 <= StepsLeft(ConsumerStep(s)) < StepsLeft(s)
  {
    hide Inv, SpareOk, HeadLoc, Popped, Switched, Buf, ScanMax, RescanMax;
    AloneBounds(ConsumerStep(s));
    AloneBounds(s);
    MoveLeft(s);
    BeforeIs(s);
    if !ConsumerStep(s).c.pc.Return? { BeforeIs(ConsumerStep(s)); }
    MaxSpare(|s.ops|, |s.m.chain|);
  }

  lemma PeekingLeft(s: State)
    requires Inv(s) && s.c.pc.Peek?
    requires Inv(ConsumerStep(s)) && ConsumerStep(s).ops == s.ops && !ConsumerStep(s).fault
    ensures 0 <= StepsLeft(ConsumerStep(s)) < StepsLeft(s)
  {
    hide Inv, HeadLoc, Cell, Touchable, Advance, Buf, ScanMax, RescanMax;
    AloneBounds(s);
    AloneBounds(ConsumerStep(s));
    AdvanceLeft(s, ToPeek);
    BeforeIs(s);
    BeforeIs(ConsumerStep(s));
    MaxSpare(|s.ops|, |s.m.chain|);
  }

  lemma TakingLeft(s: State)
    requires Inv(s) && s.c.pc.Take?
    requires Inv(ConsumerStep(s)) && ConsumerStep(s).ops == s.ops && !ConsumerStep(s).fault
    ensures 0 <= StepsLeft(ConsumerStep(s)) < StepsLeft(s)
  {
    hide Inv, HeadLoc, Cell, Touchable, Advance, Buf, ScanMax, RescanMax;
    var h := Buf(s.m, s.m.headOfQueue);
    AloneBounds(s);
    AdvanceLeft(Emit(s, h, h.head), ToTrue);
    BeforeIs(s);
    MaxSpare(|s.ops|, |s.m.chain|);
    if ConsumerStep(s).c.pc.Gap? { BeforeIs(ConsumerStep(s)); } else { AfterIs(ConsumerStep(s)); }
  }

  lemma EndingLeft(s: State)
    requires Inv(s)
    requires s.c.pc.Idle? || s.c.pc.Enter? || s.c.pc.AtTail? || s.c.pc.AtEnd? || s.c.pc.Gap?
    requires Inv(ConsumerStep(s)) && ConsumerStep(s).ops == s.ops && !ConsumerStep(s).fault
    ensures 0 <= StepsLeft(ConsumerStep(s)) < StepsLeft(s)
  {
    hide Inv, HeadLoc, Cell, Touchable, Buf, ScanMax, RescanMax;
    AloneBounds(s);
    BeforeIs(s);
    MaxSpare(|s.ops|, |s.m.chain|);
    if s.c.pc.Gap? {
      ScanStarts(s);
    } else if !ConsumerStep(s).c.pc.Return? {
      BeforeIs(ConsumerStep(s));
    }
  }

  lemma ScanStarts(s: State)
    requires Inv(s) && s.c.pc.Gap?
    ensures ConsumerStep(s).m == s.m
    ensures ConsumerStep(s).c.pc.ScanLook? ==> 0 <= ScanLeft(ConsumerStep(s)) <= |s.m.chain| * K + 2 * N + 8
  {
    hide Inv, HeadLoc, Cell;
    AloneBounds(s);
    GapInside(s);
    ScanStartsAt(|s.m.chain|, HeadOrd(s.m));
  }

  lemma GapInside(s: State)
    requires Inv(s) && s.c.pc.Gap?
    ensures Buf(s.m, s.m.headOfQueue).head < N
  {
    hide MemoryOk, ProducersOk, OutOk, RescanSeen, Cell;
  }

  lemma ScanStartsAt(chain: nat, k: nat)
    requires k < chain
    ensures 0 <= (chain - k) * K <= chain * K
  {
  }

  // ---------- The scan ----------

  lemma ScanFacts(s: State)
    requires Inv(s) && Searching(s.c.pc)
    ensures 0 <= Ord(s.m, s.c.buf) < |s.m.chain| && Main(s.m, s.c.buf)
    ensures s.c.pc.ScanLook? || s.c.pc.ScanNote? ==> s.c.idx < N
    ensures s.c.pc.ScanNext? && Buf(s.m, s.c.buf).next.To? ==>
      var nx := Buf(s.m, s.c.buf).next.id; Main(s.m, nx) && Ord(s.m, s.c.buf) < Ord(s.m, nx)
    ensures s.c.pc.FoldFree? ==> Main(s.m, s.c.pc.nx) && Ord(s.m, s.c.buf) < Ord(s.m, s.c.pc.nx)
  {
    hide MemoryOk, ProducersOk, OutOk, RescanSeen, AllHandled;
    if s.c.pc.ScanNext? { LinkedFacts(s, s.c.buf); }
  }

  /** The links and flags a search changes move no buffer. */
  lemma SearchPlaces(s: State)
    requires Searching(s.c.pc)
    ensures ConsumerStep(s).m.chain == s.m.chain
    ensures forall p :: Ord(ConsumerStep(s).m, p) == Ord(s.m, p)
  {
    hide Cell, Touchable, Store;
    var t := Buf(s.m, s.c.buf);
    match s.c.pc
    case FoldPrev(nx) => StorePlaces(s.m, nx, Buf(s.m, nx).(prev := t.prev));
    case FoldSkip(nx) =>
      if t.prev.To? { StorePlaces(s.m, t.prev.id, Buf(s.m, t.prev.id).(next := To(nx))); }
    case FoldFree(nx) =>
      StorePlaces(s.m, s.c.buf, t.(freed := true, next := s.m.garbage));
      SamePlaces(Store(s.m, s.c.buf, t.(freed := true, next := s.m.garbage)), Folded(s.m, s.c.buf));
    case _ =>
  }

  lemma StorePlaces(m: Memory, p: nat, b: Buffer)
    requires b.pos == Buf(m, p).pos
    ensures Store(m, p, b).chain == m.chain && forall q :: Ord(Store(m, p, b), q) == Ord(m, q)
  {
  }

  lemma SamePlaces(m: Memory, m': Memory)
    requires m'.heap == m.heap
    ensures forall q :: Ord(m', q) == Ord(m, q)
  {
  }

  lemma NextBuffer(c: nat, k: nat, j: nat, left: nat)
    requires k < j < c && left <= 2 * N + 8
    ensures 0 <= (c - j) * K + left <= (c - k) * K - 2
  {
    assert (c - k) * K == (c - j) * K + (j - k) * K;
  }

  lemma SearchLeft(s: State)
    requires Inv(s) && Searching(s.c.pc) && Inv(ConsumerStep(s)) && ConsumerStep(s).ops == s.ops
    requires s.c.pc.ScanLook? ==> Cell(Buf(s.m, s.c.buf), s.c.idx).state != SET
    ensures 0 <= StepsLeft(ConsumerStep(s)) < StepsLeft(s)
  {
    hide Inv, Cell, Touchable, Ord, Main, Folded, Store, SlotLeft, Buf, RescanMax;
    var s' := ConsumerStep(s);
    ScanFacts(s);
    SearchPlaces(s);
    SearchBin(s);
    Entered(s);
    SlotsPositive(s);
    var c, k := |s.m.chain|, Ord(s.m, s.c.buf);
    InsideChain(c, k);
    MaxSpare(|s.ops|, c);
    if Searching(s'.c.pc) {
      SlotsPositive(s');
      if s'.c.buf != s.c.buf { NextBuffer(c, k, Ord(s.m, s'.c.buf), SlotLeft(s'.c)); }
    }
  }

  /** A search puts at most one buffer on the garbage list in a step, and goes on to the next buffer then. */
  lemma SearchBin(s: State)
    requires Searching(s.c.pc)
    ensures |ConsumerStep(s).m.bin| <= |s.m.bin| + 1
    ensures ConsumerStep(s).c.buf == s.c.buf && !s.c.pc.FoldFree? ==> ConsumerStep(s).m.bin == s.m.bin
    ensures s.c.pc.FoldFree? ==> SlotLeft(s.c) == 2
    ensures !s.c.pc.FoldFree? ==> ConsumerStep(s).m.bin == s.m.bin
    ensures s.c.pc.FoldFree? ==> ConsumerStep(s).c.buf == s.c.pc.nx
  {
    hide Cell, Touchable, Buf;
  }

  lemma InsideChain(c: nat, k: nat)
    requires k < c
    ensures 0 <= (c - k) * K
  {
  }

  lemma SlotsPositive(s: State)
    requires Inv(s) && Searching(s.c.pc)
    ensures 0 < SlotLeft(s.c) <= 2 * N + 8
  {
    hide Inv;
    ScanFacts(s);
  }

  /** Where a step of the search leads: further within the buffer, to a later buffer, or to the end. */
  lemma Entered(s: State)
    requires Inv(s) && Searching(s.c.pc) && Inv(ConsumerStep(s))
    requires s.c.pc.ScanLook? ==> Cell(Buf(s.m, s.c.buf), s.c.idx).state != SET
    ensures var s' := ConsumerStep(s);
      || s'.c.pc == Return(false)
      || (Searching(s'.c.pc) && s'.c.buf != s.c.buf && Ord(s.m, s.c.buf) < Ord(s.m, s'.c.buf) < |s.m.chain|)
      || (Searching(s'.c.pc) && s'.c.buf == s.c.buf && SlotLeft(s'.c) < SlotLeft(s.c))
  {
    hide Inv, Cell, Touchable, Ord, Main, Folded, Store, Buf;
    ScanFacts(s);
    NoFault(ConsumerStep(s));
    InChainOrd(s);
  }

  lemma NoFault(s: State)
    requires Inv(s)
    ensures !s.fault
  {
    hide MemoryOk, ProducersOk, OutOk, ConsumerOk, RescanSeen;
  }

  lemma InChainOrd(s: State)
    ensures forall p :: Main(s.m, p) ==> 0 <= Ord(s.m, p) < |s.m.chain|
  {
  }

  // ---------- ReScan and delivery ----------

  lemma FoundLeft(s: State)
    requires Inv(s) && s.c.pc.ScanLook? && Cell(Buf(s.m, s.c.buf), s.c.idx).state == SET
    requires Inv(ConsumerStep(s)) && ConsumerStep(s).ops == s.ops && !ConsumerStep(s).fault
    ensures 0 <= StepsLeft(ConsumerStep(s)) < StepsLeft(s)
  {
    hide Inv, Cell, Touchable, Main, Turns, StateOf, DataOf;
    ScanFacts(s);
    AloneBounds(s);
    CellState(s, s.c.buf, s.c.idx);
    SlotsPositive(s);
    InsideChain(|s.m.chain|, Ord(s.m, s.c.buf));
    RescanProgress(ConsumerStep(s));
    RescanStarts(LocOf(s.m, s.c.buf, s.c.idx), |s.ops|, Ord(s.m, s.c.buf), HeadOrd(s.m), |s.m.chain|, Buf(s.m, s.m.headOfQueue).head);
  }

  lemma RescanStarts(c: nat, ops: nat, k: int, h: nat, chain: nat, i: nat)
    requires c < ops && k < chain
    ensures Left(c, k, h, i) + 20 < RescanMax(ops, chain)
  {
    hide Turns;
    TurnsGrow(c, ops);
    Fewer(k - h, chain);
  }

  lemma Fewer(a: int, b: int)
    requires a <= b
    ensures a * (N + 1) <= b * (N + 1)
  {
    assert (b - a) * (N + 1) >= 0;
    assert b * (N + 1) == a * (N + 1) + (b - a) * (N + 1);
  }

  lemma RescanningLeft(s: State)
    requires Inv(s) && s.c.pc.Rescan? && Inv(ConsumerStep(s))
    ensures 0 <= StepsLeft(ConsumerStep(s)) < StepsLeft(s)
  {
    hide Inv, Cell, Touchable, RescanLeft, Buf;
    RescanProgress(s);
    if ConsumerStep(s).c.pc.Rescan? { RescanProgress(ConsumerStep(s)); }
  }

  lemma DeliveringLeft(s: State)
    requires Inv(s) && s.c.pc.Deliver? && !ConsumerStep(s).fault
    ensures 0 <= StepsLeft(ConsumerStep(s)) < StepsLeft(s)
  {
    hide Inv, Cell, Touchable, HeadLoc, Advance;
    AloneBounds(s);
    var t := Buf(s.m, s.c.buf);
    var x := Cell(t, s.c.idx).(state := HANDLED);
    HandledEnds(Emit(s, t, s.c.idx).(m := Store(s.m, s.c.buf, PutCell(t, s.c.idx, x))));
    AfterIs(ConsumerStep(s));
  }

  lemma HandledEnds(s: State)
    ensures var s' := Advance(s, ToTrue);
      s'.m.bin == s.m.bin && (s'.c.pc == MoveTail(ToTrue) || s'.c.pc == Return(true))
  {
  }

  /** Moving on after a delivery. */
  lemma LeavingLeft(s: State)
    requires Inv(s) && SpareOk(s.m) && (s.c.pc.MoveTail? || s.c.pc.MoveNext? || s.c.pc.MovePop?) && s.c.pc.r == ToTrue
    ensures 0 <= StepsLeft(ConsumerStep(s)) < StepsLeft(s)
  {
    hide Inv, SpareOk, HeadLoc, Popped, Switched, Buf;
    MoveLeft(s);
  }

  // ---------- The dequeue ----------

  /** Every step of a dequeue that runs alone brings its return nearer, wherever the producers have stopped. */
  lemma AloneProgress(s: State)
    requires Inv(s) && SpareOk(s.m) && !s.c.pc.Return?
    ensures 0 <= StepsLeft(ConsumerStep(s)) < StepsLeft(s)
  {
    hide Inv, SpareOk, StepsLeft, ConsumerStep, Cell;
    ConsumerKeepsOps(s);
    ConsumerInv(s);
    NoFault(ConsumerStep(s));
    if s.c.pc.Rescan? {
      RescanningLeft(s);
    } else if s.c.pc.Deliver? {
      DeliveringLeft(s);
    } else if s.c.pc.ScanLook? && Cell(Buf(s.m, s.c.buf), s.c.idx).state == SET {
      FoundLeft(s);
    } else if Searching(s.c.pc) {
      SearchLeft(s);
    } else if !Before(s.c.pc) {
      LeavingLeft(s);
    } else if s.c.pc.MovePop? || s.c.pc.MoveTail? || s.c.pc.MoveNext? {
      MovingLeft(s);
    } else if s.c.pc.Peek? {
      PeekingLeft(s);
    } else if s.c.pc.Take? {
      TakingLeft(s);
    } else {
      EndingLeft(s);
    }
  }

  /** A dequeue that runs alone from `states[0]` on, wherever the producers have stopped, and returns in the last state. */
  ghost predicate AloneDequeue(states: seq<State>) {
    && |states| >= 2
    && Inv(states[0]) && SpareOk(states[0].m) && states[0].c.pc == Idle
    && (forall i :: 0 <= i < |states| - 1 ==> states[i + 1] == Act(states[i], DoConsume))
    && (forall i :: 0 < i < |states| - 1 ==> !states[i].c.pc.Return?)
    && states[|states| - 1].c.pc.Return?
  }

  lemma {:induction false} RunsToReturn(s0: State, done: seq<State>) returns (states: seq<State>)
    requires done != [] && done[0] == s0 && Inv(s0) && SpareOk(s0.m) && s0.c.pc == Idle
    requires forall i :: 0 <= i < |done| - 1 ==> done[i + 1] == Act(done[i], DoConsume)
    requires forall i :: 0 <= i < |done| ==> !done[i].c.pc.Return?
    requires var s := done[|done| - 1]; Inv(s) && SpareOk(s.m)
    ensures AloneDequeue(states) && states[0] == s0
    ensures |states| <= |done| + StepsLeft(done[|done| - 1])
    decreases StepsLeft(done[|done| - 1])
  {
    hide Inv, SpareOk, StepsLeft, Act;
    var s := done[|done| - 1];
    var s' := Act(s, DoConsume);
    SlotsAlive(s, DoConsume);
    AloneProgress(s);
    ConsumerInv(s);
    SpareStep(s, DoConsume);
    if s'.c.pc.Return? {
      states := done + [s'];
    } else {
      states := RunsToReturn(s0, done + [s']);
    }
  }

  /** From every state in which the consumer is idle, a dequeue that runs alone returns within the bound. */
  lemma AloneReturns(s: State) returns (states: seq<State>)
    requires Inv(s) && SpareOk(s.m) && s.c.pc == Idle
    ensures AloneDequeue(states) && states[0] == s && |states| - 1 <= StepsLeft(s)
  {
    hide Inv, SpareOk, StepsLeft, Act;
    states := RunsToReturn(s, [s]);
  }
}
