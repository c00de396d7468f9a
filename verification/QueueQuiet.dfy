/** Dequeue when no enqueue is in flight, and progress of ReScan when there are. */
module QueueQuiet {
  import opened QueueModel
  import opened QueueInvariant
  import opened QueueConsumer
  import opened QueueReclaim
  import opened QueueTheorems

  /** No producer is inside enqueue. */
  ghost predicate Quiet(s: State) {
    forall l :: 0 <= l < |s.ops| ==> s.ops[l].pc == Done
  }

  /** A dequeue that runs alone from `states[0]` on and returns in the last state. */
  ghost predicate QuietDequeue(states: seq<State>) {
    && |states| >= 2
    && Inv(states[0]) && SpareOk(states[0].m) && Quiet(states[0]) && states[0].c.pc == Idle
    && (forall i :: 0 <= i < |states| - 1 ==> states[i + 1] == Act(states[i], DoConsume))
    && (forall i :: 0 < i < |states| - 1 ==> !states[i].c.pc.Return?)
    && states[|states| - 1].c.pc.Return?
  }

  /** `l` is the oldest undelivered location. */
  ghost predicate Oldest(s: State, l: nat) {
    l < |s.ops| && l !in s.outLoc && forall x: nat :: x < l ==> x in s.outLoc
  }

  /** Without producers, slots are EMPTY exactly from `tail` on, and the early allocation at slot N - 2 has put
      tailOfQueue on the buffer of `tail` (or on the one behind it when `tail` is the last slot of its buffer). */
  lemma QuietFacts(s: State)
    requires Inv(s) && Quiet(s)
    ensures forall l: nat :: StateOf(s.m, l) == EMPTY <==> l >= |s.ops|
    ensures 0 <= HeadLoc(s.m) <= |s.ops|
    ensures TailOrd(s.m) == |s.m.chain| - 1
    ensures N * TailOrd(s.m) - 1 <= |s.ops| < N * TailOrd(s.m) + N - 1
  {
    hide NextsOk, PrevsOk, PrevsLinked, FreedOk, SeenOk, OutOk, RescanSeen, ConsumerOk, EnqueueOk, DataOf;
    assert forall l :: 0 <= l < |s.ops| ==> Published(s.ops[l]);
    QuietTail(s);
    assert StateOf(s.m, |s.ops|) == EMPTY;
  }

  lemma QuietTail(s: State)
    requires Inv(s) && Quiet(s)
    ensures TailOrd(s.m) == |s.m.chain| - 1
    ensures N * TailOrd(s.m) - 1 <= |s.ops| < N * TailOrd(s.m) + N - 1
  {
    hide NextsOk, PrevsOk, PrevsLinked, FreedOk, SeenOk, SlotsOk, OutOk, RescanSeen, ConsumerOk, DataOf;
    assert TailOrd(s.m) == |s.m.chain| - 1;
    var l := N * |s.m.chain| - 2;
    assert BufNo(l) == |s.m.chain| - 1 && IdxOf(l) == N - 2;
    assert l < |s.ops| ==> EnqueueOk(s.m, l, s.ops[l]);
  }

  predicate Before(pc: ConsumerPC) {
    || pc.Idle? || pc.Enter? || pc.Peek? || pc.AtTail? || pc.AtEnd? || pc.Take? || pc.Gap?
    || ((pc.MoveTail? || pc.MoveNext? || pc.MovePop?) && pc.r != ToTrue)
  }

  predicate Searching(pc: ConsumerPC) {
    || pc.ScanLook? || pc.ScanNote? || pc.ScanNext?
    || pc.FoldTail? || pc.FoldNext? || pc.FoldPrev? || pc.FoldSkip? || pc.FoldFree?
  }

  /** What holds during a dequeue that runs alone, relative to the state `s0` it started in. */
  ghost predicate QuietInv(s0: State, s: State) {
    && Inv(s) && s.ops == s0.ops
    && if Before(s.c.pc) then
         && s.out == s0.out && s.outLoc == s0.outLoc
         && (s.c.pc.AtEnd? ==> s.m.headOfQueue == s.m.tailOfQueue)
         && (s.c.pc.Gap? ==> StateOf(s.m, HeadLoc(s.m)) == EMPTY)
       else if Searching(s.c.pc) then
         && s.out == s0.out && s.outLoc == s0.outLoc && HeadLoc(s.m) == |s.ops|
       else if s.c.pc == Return(false) then
         && s.out == s0.out && s.outLoc == s0.outLoc
         && forall l: nat :: l < |s0.ops| ==> l in s0.outLoc
       else
         && (s.c.pc == Return(true) || ((s.c.pc.MoveTail? || s.c.pc.MoveNext? || s.c.pc.MovePop?) && s.c.pc.r == ToTrue))
         && |s.outLoc| == |s0.outLoc| + 1
         && var l := s.outLoc[|s0.outLoc|];
         && Oldest(s0, l) && s.outLoc == s0.outLoc + [l] && s.out == s0.out + [s0.ops[l].item]
  }

  /** When the head has reached `tail`, everything has been delivered. */
  lemma AllDelivered(s: State)
    requires Inv(s) && HeadLoc(s.m) >= |s.ops|
    ensures forall l: nat :: l < |s.ops| ==> l in s.outLoc
  {
    hide MemoryOk, ProducersOk, Distinct, OutItemsOk, RescanSeen, ConsumerOk, StateOf;
    forall l: nat | l < |s.ops| ensures l in s.outLoc { assert Consumed(s.m, l); }
  }

  lemma HeadIsOldest(s: State)
    requires Inv(s) && 0 <= HeadLoc(s.m) < |s.ops| && StateOf(s.m, HeadLoc(s.m)) == SET
    ensures Oldest(s, HeadLoc(s.m))
  {
    hide MemoryOk, ProducersOk, Distinct, OutItemsOk, RescanSeen, ConsumerOk, StateOf;
    forall l: nat | l < HeadLoc(s.m) ensures l in s.outLoc { assert Consumed(s.m, l); }
    assert !Consumed(s.m, HeadLoc(s.m));
  }

  lemma QuietStep(s0: State, s: State)
    requires Quiet(s0) && QuietInv(s0, s) && !s.c.pc.Return?
    ensures QuietInv(s0, ConsumerStep(s))
  {
    ConsumerKeepsOps(s);
    ConsumerInv(s);
    if Before(s.c.pc) {
      QuietBefore(s0, s);
    } else if Searching(s.c.pc) {
      QuietSearch(s0, s);
    } else {
      QuietAfter(s0, s);
    }
  }

  lemma QuietAfter(s0: State, s: State)
    requires QuietInv(s0, s) && (s.c.pc.MoveTail? || s.c.pc.MoveNext? || s.c.pc.MovePop?) && s.c.pc.r == ToTrue
    requires Inv(ConsumerStep(s)) && ConsumerStep(s).ops == s.ops
    ensures QuietInv(s0, ConsumerStep(s))
  {
    hide Inv;
  }

  lemma QuietSearch(s0: State, s: State)
    requires Quiet(s0) && QuietInv(s0, s) && Searching(s.c.pc)
    requires Inv(ConsumerStep(s)) && ConsumerStep(s).ops == s.ops
    ensures QuietInv(s0, ConsumerStep(s))
  {
    hide MemoryOk, ProducersOk, OutOk, RescanSeen, ConsumerOk, StateOf, HeadLoc;
    AllDelivered(s);
    if s.c.pc.ScanLook? {
      QuietLook(s);
    }
    SearchKeepsHead(s);
  }

  /** With the head at `tail`, Scan finds only slots that are not SET. */
  lemma QuietLook(s: State)
    requires Inv(s) && Quiet(s) && HeadLoc(s.m) == |s.ops| && s.c.pc.ScanLook?
    ensures Cell(Buf(s.m, s.c.buf), s.c.idx).state != SET
  {
    hide MemoryOk, ProducersOk, OutOk, RescanSeen, Cell, StateOf;
    QuietFacts(s);
    CellState(s, s.c.buf, s.c.idx);
  }

  lemma SearchKeepsHead(s: State)
    requires Searching(s.c.pc)
    ensures ConsumerStep(s).m.headOfQueue == s.m.headOfQueue
    ensures HeadLoc(ConsumerStep(s).m) == HeadLoc(s.m)
  {
    hide Store, HeadLoc, Cell, Touchable;
    var t := Buf(s.m, s.c.buf);
    match s.c.pc
    case FoldPrev(nx) => StoreKeepsHead(s.m, nx, Buf(s.m, nx).(prev := t.prev));
    case FoldSkip(nx) =>
      if t.prev.To? { StoreKeepsHead(s.m, t.prev.id, Buf(s.m, t.prev.id).(next := To(nx))); }
    case FoldFree(nx) =>
      var m := Store(s.m, s.c.buf, t.(freed := true, next := s.m.garbage));
      StoreKeepsHead(s.m, s.c.buf, t.(freed := true, next := s.m.garbage));
      BinAside(m, Folded(s.m, s.c.buf));
    case _ =>
  }

  lemma StoreKeepsHead(m: Memory, p: nat, b: Buffer)
    requires b.pos == Buf(m, p).pos && b.head == Buf(m, p).head
    ensures Store(m, p, b).headOfQueue == m.headOfQueue && HeadLoc(Store(m, p, b)) == HeadLoc(m)
  {
  }

  lemma BinAside(m: Memory, m': Memory)
    requires m'.heap == m.heap && m'.headOfQueue == m.headOfQueue
    ensures HeadLoc(m') == HeadLoc(m)
  {
  }

  lemma QuietBefore(s0: State, s: State)
    requires Quiet(s0) && QuietInv(s0, s) && Before(s.c.pc)
    requires Inv(ConsumerStep(s)) && ConsumerStep(s).ops == s.ops
    ensures QuietInv(s0, ConsumerStep(s))
  {
    hide Inv;
    if s.c.pc.Take? {
      QuietTake(s0, s);
    } else if s.c.pc.Gap? || s.c.pc.AtEnd? {
      QuietEnd(s0, s);
    } else {
      QuietMove(s0, s);
    }
  }

  /** A quiet dequeue never finds the tail buffer used up. */
  lemma QuietMove(s0: State, s: State)
    requires Quiet(s0) && QuietInv(s0, s) && Before(s.c.pc) && !s.c.pc.Take? && !s.c.pc.Gap? && !s.c.pc.AtEnd?
    requires Inv(ConsumerStep(s)) && ConsumerStep(s).ops == s.ops
    ensures QuietInv(s0, ConsumerStep(s))
  {
    hide Inv, StateOf, HeadLoc, Cell, Touchable, Main, Ord, Advance, Popped, Switched;
    QuietFacts(s);
    HeadFacts(s);
    if s.c.pc.MoveTail? || s.c.pc.MoveNext? { QuietAhead(s); }
    AdvanceKeeps(s, ToPeek);
  }

  /** In front of the scan a dequeue that runs alone does not get stuck at the end of a buffer. */
  lemma QuietAhead(s: State)
    requires Inv(s) && Quiet(s) && (s.c.pc.MoveTail? || s.c.pc.MoveNext?)
    ensures s.m.headOfQueue != s.m.tailOfQueue && Buf(s.m, s.m.headOfQueue).next.To?
  {
    hide MemoryOk, ProducersOk, OutOk, RescanSeen, StateOf, Main;
    QuietFacts(s);
    HeadFacts(s);
  }

  lemma AdvanceKeeps(s: State, r: Resume)
    ensures var s' := Advance(s, r);
      && s'.out == s.out && s'.outLoc == s.outLoc && s'.ops == s.ops
      && (s'.c.pc == MoveTail(r) || s'.c.pc == After(r, true))
  {
  }

  lemma QuietTake(s0: State, s: State)
    requires Quiet(s0) && QuietInv(s0, s) && s.c.pc.Take?
    requires Inv(ConsumerStep(s)) && ConsumerStep(s).ops == s.ops
    ensures QuietInv(s0, ConsumerStep(s))
  {
    hide Inv, StateOf, DataOf, Cell, Main, Ord, BufNo, IdxOf, HeadOrd, Advance, Emit;
    HeadFacts(s);
    HeadSlot(s);
    CellState(s, s.m.headOfQueue, Buf(s.m, s.m.headOfQueue).head);
    if Cell(Buf(s.m, s.m.headOfQueue), Buf(s.m, s.m.headOfQueue).head).state == SET {
      HeadIsOldest(s);
      TakeEmits(s);
    } else {
      assert ConsumerStep(s).m == s.m;
    }
  }

  lemma HeadSlot(s: State)
    requires Inv(s) && s.c.pc.Take?
    ensures var h := Buf(s.m, s.m.headOfQueue); h.head < N && Cell(h, h.head).state != HANDLED && h.pos >= 1
  {
    hide NextsOk, PrevsOk, PrevsLinked, FreedOk, HeadOk, ProducersOk, OutOk, RescanSeen, Cell;
  }

  lemma TakeEmits(s: State)
    requires s.c.pc.Take?
    requires var h := Buf(s.m, s.m.headOfQueue); Touchable(h, h.head) && Cell(h, h.head).state == SET && h.pos >= 1
    ensures var s', h := ConsumerStep(s), Buf(s.m, s.m.headOfQueue);
      && s'.out == s.out + [Cell(h, h.head).data] && s'.outLoc == s.outLoc + [HeadLoc(s.m)]
      && (s'.c.pc == Return(true) || s'.c.pc == MoveTail(ToTrue))
  {
    hide Store, Cell, Touchable;
  }

  /** The emptiness test and the test of the head slot report an empty queue only when the head has reached `tail`. */
  lemma QuietEnd(s0: State, s: State)
    requires Quiet(s0) && QuietInv(s0, s) && (s.c.pc.Gap? || s.c.pc.AtEnd?)
    requires Inv(ConsumerStep(s)) && ConsumerStep(s).ops == s.ops
    ensures QuietInv(s0, ConsumerStep(s))
  {
    hide Inv, StateOf, DataOf, Cell, Main, Buf;
    QuietFacts(s);
    HeadFacts(s);
    HeadInside(s);
    CellState(s, s.m.headOfQueue, Buf(s.m, s.m.headOfQueue).head);
    if HeadLoc(s.m) == |s.ops| {
      AllDelivered(s);
    }
  }

  lemma HeadInside(s: State)
    requires Inv(s) && (s.c.pc.Gap? || s.c.pc.AtEnd?)
    ensures Buf(s.m, s.m.headOfQueue).head < N
  {
    hide MemoryOk, ProducersOk, OutOk, RescanSeen, Cell;
  }

  lemma QuietStart(s: State)
    requires Inv(s) && s.c.pc == Idle
    ensures QuietInv(s, s)
  {
    hide Inv;
  }

  lemma {:induction false} QuietRunInv(states: seq<State>, i: nat)
    requires QuietDequeue(states) && i < |states|
    ensures QuietInv(states[0], states[i]) && Inv(states[i]) && SpareOk(states[i].m)
  {
    hide Inv, SpareOk, Act, QuietInv;
    if i == 0 {
      QuietStart(states[0]);
    } else {
      QuietRunInv(states, i - 1);
      SlotsAlive(states[i - 1], DoConsume);
      QuietStep(states[0], states[i - 1]);
      SpareStep(states[i - 1], DoConsume);
    }
  }

  /** With no producer in flight the queue behaves as a FIFO sequence: dequeue returns false exactly when everything
      has been delivered, and otherwise it delivers the item of the oldest undelivered location and nothing else. */
  lemma QuietDequeueIsFifo(states: seq<State>)
    requires QuietDequeue(states)
    ensures states[|states| - 1].c.pc.ok <==> exists l: nat :: Oldest(states[0], l)
    ensures states[|states| - 1].c.pc.ok ==>
      exists l: nat :: Oldest(states[0], l) && states[|states| - 1].out == states[0].out + [states[0].ops[l].item]
    ensures !states[|states| - 1].c.pc.ok ==>
      states[|states| - 1].out == states[0].out && forall l: nat :: l < |states[0].ops| ==> l in states[0].outLoc
  {
    hide Inv;
    QuietRunInv(states, |states| - 1);
  }

  // ---------- ReScan ----------

  /** Enough turns for a ReScan whose candidate is at a location below `c`. */
  function Turns(c: nat): nat {
    if c == 0 then 0 else Turns(c - 1) + 2 * c + N
  }

  /** What is left of a ReScan: the candidate's location counts most, then the distance to it. */
  function RescanLeft(s: State): int {
    Left(LocOf(s.m, s.c.buf, s.c.idx), Ord(s.m, s.c.buf), Ord(s.m, s.c.sbuf), s.c.sidx)
  }

  lemma TurnsGrow(c: nat, d: nat)
    requires c < d
    ensures Turns(c) + 2 * (c + 1) + N <= Turns(d)
    decreases d
  {
    if c < d - 1 { TurnsGrow(c, d - 1); }
  }

  /** What is left, from the numbers it depends on. */
  function Left(c: int, k: int, j: int, i: int): int {
    (if c >= 0 then Turns(c) else 0) + (k - j) * (N + 1) + (N - i)
  }

  lemma RestartLowers(c: nat, k: nat, h: nat, head: nat, i: nat, c': int, k': int, rest: int)
    requires c == N * k + i && c < c' && h <= k && rest >= 0
    ensures Left(c, k, h, head) < Turns(c') + rest
  {
    TurnsGrow(c, c');
    hide Turns;
  }

  /** Every turn of the ReScan loop lowers what is left of it; a restart does so by lowering the candidate. */
  lemma RescanProgress(s: State)
    requires Inv(s) && s.c.pc.Rescan?
    ensures 0 <= RescanLeft(s)
    ensures ConsumerStep(s).c.pc.Deliver? || (ConsumerStep(s).c.pc.Rescan? && RescanLeft(ConsumerStep(s)) < RescanLeft(s))
    ensures ConsumerStep(s).c.buf != s.c.buf || ConsumerStep(s).c.idx != s.c.idx ==>
      LocOf(s.m, ConsumerStep(s).c.buf, ConsumerStep(s).c.idx) < LocOf(s.m, s.c.buf, s.c.idx)
  {
    hide MemoryOk, ProducersOk, OutOk, RescanSeen, Cell, Turns;
    HeadFacts(s);
    var c := s.c;
    RescanBounds(s);
    if c.sbuf != c.buf || c.sidx < c.idx {
      LinkedFacts(s, c.sbuf);
      SameBuffer(s, c.buf, c.sbuf);
      if c.sidx < N && Cell(Buf(s.m, c.sbuf), c.sidx).state == SET {
        RestartLowers(LocOf(s.m, c.sbuf, c.sidx), Ord(s.m, c.sbuf), HeadOrd(s.m), Buf(s.m, s.m.headOfQueue).head, c.sidx,
                      LocOf(s.m, c.buf, c.idx), Ord(s.m, c.buf), RescanLeft(s) - Turns(LocOf(s.m, c.buf, c.idx)));
      }
    }
  }

  lemma RescanBounds(s: State)
    requires Inv(s) && s.c.pc.Rescan?
    ensures LocOf(s.m, s.c.buf, s.c.idx) >= 0 && LocOf(s.m, s.c.sbuf, s.c.sidx) >= 0
    ensures Turns(LocOf(s.m, s.c.buf, s.c.idx)) <= RescanLeft(s)
  {
    hide MemoryOk, ProducersOk, OutOk, RescanSeen, Cell, Turns;
  }

  /** Producers do not touch what is left of a ReScan. */
  lemma RescanUndisturbed(s: State, a: Action)
    requires Inv(s) && s.c.pc.Rescan? && Enabled(s, a) && !a.DoConsume?
    ensures Act(s, a).c == s.c && RescanLeft(Act(s, a)) == RescanLeft(s)
  {
    hide Inv, RescanLeft, ProducerStep, SlotsUsed;
    RescanInside(s);
    if a.DoProduce? {
      ProducerKeepsPositions(s, a.l);
    }
    SamePlacesLeft(s, Act(s, a));
  }

  lemma RescanInside(s: State)
    requires Inv(s) && s.c.pc.Rescan?
    ensures s.c.buf < |s.m.heap| && s.c.sbuf < |s.m.heap|
  {
    hide MemoryOk, ProducersOk, OutOk, RescanSeen, Cell;
  }

  lemma SamePlacesLeft(s: State, s': State)
    requires s'.c == s.c && s.c.buf < |s.m.heap| && s.c.sbuf < |s.m.heap|
    requires forall p :: 0 <= p < |s.m.heap| ==> Buf(s'.m, p).pos == Buf(s.m, p).pos
    ensures RescanLeft(s') == RescanLeft(s)
  {
    hide Buf, Turns;
  }

  lemma ProducerKeepsPositions(s: State, l: nat)
    requires l < |s.ops|
    ensures ProducerStep(s, l).c == s.c
    ensures forall p :: 0 <= p < |s.m.heap| ==> Buf(ProducerStep(s, l).m, p).pos == Buf(s.m, p).pos
  {
    hide Buf, Cell, Touchable, Base, Aim, Store, LinkNew, PutCell;
    var o := s.ops[l];
    var i := l - Base(Buf(s.m, o.buf));
    StorePositions(s.m, o.buf, i, Cell(Buf(s.m, o.buf), i).(data := o.item));
    StorePositions(s.m, o.buf, i, Cell(Buf(s.m, o.buf), i).(state := SET));
    if o.buf < |s.m.heap| { LinkPositions(s.m, o.buf); }
    TailPositions(s.m, o.made);
  }

  lemma StorePositions(m: Memory, p: nat, i: int, x: Slot)
    ensures forall q :: 0 <= q < |m.heap| ==> Buf(Store(m, p, PutCell(Buf(m, p), i, x)), q).pos == Buf(m, q).pos
  {
  }

  lemma LinkPositions(m: Memory, p: nat)
    requires p < |m.heap|
    ensures forall q :: 0 <= q < |m.heap| ==> Buf(LinkNew(m, p), q).pos == Buf(m, q).pos
  {
  }

  lemma TailPositions(m: Memory, made: nat)
    ensures forall q :: 0 <= q < |m.heap| ==> Buf(m.(tailOfQueue := made), q).pos == Buf(m, q).pos
  {
  }

  function ConsumerTurns(acts: seq<Action>): nat {
    if acts == [] then 0 else ConsumerTurns(acts[..|acts| - 1]) + if acts[|acts| - 1].DoConsume? then 1 else 0
  }

  /** ReScan terminates under any interference: while it goes on, the consumer takes at most the number of turns that
      were left when it was observed first, whatever the producers do in between. */
  lemma {:induction false} RescanTerminates(states: seq<State>, acts: seq<Action>, i: nat, j: nat)
    requires IsRun(states, acts) && i <= j < |states|
    requires forall x :: i <= x <= j ==> states[x].c.pc.Rescan?
    ensures ConsumerTurns(acts[i..j]) + RescanLeft(states[j]) <= RescanLeft(states[i])
    ensures ConsumerTurns(acts[i..j]) <= RescanLeft(states[i])
    decreases j
  {
    hide Inv, SpareOk, RescanLeft, Act;
    RunInv(states, acts, j);
    RescanProgress(states[j]);
    if i < j {
      RescanTerminates(states, acts, i, j - 1);
      assert acts[i..j][..j - 1 - i] == acts[i..j - 1];
      RunInv(states, acts, j - 1);
      RescanStep(states[j - 1], acts[j - 1]);
    }
  }

  lemma RescanStep(s: State, a: Action)
    requires Inv(s) && SpareOk(s.m) && s.c.pc.Rescan? && Enabled(s, a) && Act(s, a).c.pc.Rescan?
    ensures RescanLeft(Act(s, a)) + (if a.DoConsume? then 1 else 0) <= RescanLeft(s)
  {
    hide Inv, SpareOk, RescanLeft, ConsumerStep, Act;
    SlotsAlive(s, a);
    if a.DoConsume? { RescanProgress(s); } else { RescanUndisturbed(s, a); }
  }
}
