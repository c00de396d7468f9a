/** An enqueue that runs alone finishes, unless it waits for another one to swing tailOfQueue. */
module QueueFinishes {
  import opened QueueModel
  import opened QueueInvariant
  import opened QueueProducer
  import opened QueueAppend
  import opened QueueReclaim
  import opened QueueTheorems

  predicate Locating(pc: ProducerPC) {
    pc == Load || pc == Probe || pc == Append || pc == Swing
  }

  /** The enqueue needs a buffer behind tailOfQueue, and tailOfQueue lags behind the last buffer: somebody else has linked
      that buffer and has still to swing it. */
  predicate Stuck(s: State, l: nat)
    requires l < |s.ops|
  {
    var o := s.ops[l];
    && Locating(o.pc) && !(o.pc == Swing && o.buf == s.m.tailOfQueue)
    && TailOrd(s.m) < BufNo(l) && TailOrd(s.m) == |s.m.chain| - 2
  }

  /** Buffers still to append, and buffers to walk back. */
  function ToAppend(m: Memory, l: nat): nat {
    if BufNo(l) > TailOrd(m) then BufNo(l) - TailOrd(m) else 0
  }

  function ToWalk(m: Memory, l: nat): nat {
    if TailOrd(m) > BufNo(l) then TailOrd(m) - BufNo(l) else 0
  }

  /** Enough steps for an enqueue that runs alone. */
  function ProducerLeft(s: State, l: nat): int
    requires l < |s.ops|
  {
    var o := s.ops[l];
    var search := 4 * ToAppend(s.m, l) + ToWalk(s.m, l) + 10;
    var stale := if o.buf == s.m.tailOfQueue then 0 else 4;
    match o.pc
    case Load => search
    case Probe => search - 1 + stale
    case Append => search - 2 + stale
    case Swing => search - 3 + stale
    case Walk => Ord(s.m, o.buf) - BufNo(l) + 7
    case Check => 6
    case Write => 5
    case Publish => 4
    case Extend => 3
    case ExtendSwing => 2
    case Done => 0
  }

  // ---------- Facts about the tail ----------

  lemma TailFacts(s: State)
    requires Inv(s)
    ensures |s.m.chain| - 2 <= TailOrd(s.m) <= |s.m.chain| - 1 && 0 <= TailOrd(s.m)
    ensures Buf(s.m, s.m.tailOfQueue).next.Null? <==> TailOrd(s.m) == |s.m.chain| - 1
    ensures forall p :: Main(s.m, p) ==> (IsLast(s.m, p) <==> Ord(s.m, p) == |s.m.chain| - 1)
    ensures forall p :: Main(s.m, p) ==> (Ord(s.m, p) == TailOrd(s.m) <==> p == s.m.tailOfQueue)
    ensures forall p :: Main(s.m, p) && IsLast(s.m, p) ==> Buf(s.m, p).next.Null?
  {
    hide Inv, HeapOk, IsLast;
    TailRange(s);
    NullNext(s, s.m.tailOfQueue);
    forall p | Main(s.m, p)
      ensures IsLast(s.m, p) <==> Ord(s.m, p) == |s.m.chain| - 1
      ensures Ord(s.m, p) == TailOrd(s.m) <==> p == s.m.tailOfQueue
      ensures IsLast(s.m, p) ==> Buf(s.m, p).next.Null?
    {
      MainIsKth(s.m, p);
      NullNext(s, p);
    }
  }

  lemma TailRange(s: State)
    requires Inv(s)
    ensures HeapOk(s.m) && Main(s.m, s.m.tailOfQueue)
    ensures |s.m.chain| - 2 <= TailOrd(s.m) <= |s.m.chain| - 1 && 0 <= TailOrd(s.m)
  {
    hide NextsOk, PrevsOk, PrevsLinked, FreedOk, HeadOk, EnqueuesOk, SeenOk, SlotsOk, OutOk, ConsumerOk, RescanSeen;
  }

  /** How a location compares with the range of a buffer. */
  lemma Compare(l: nat, b: Buffer)
    requires b.pos >= 1
    ensures l >= N * b.pos <==> BufNo(l) > b.pos - 1
    ensures l < Base(b) <==> BufNo(l) < b.pos - 1
  {
  }

  // ---------- One step ----------

  lemma LoadFinishes(s: State, l: nat)
    requires Inv(s) && l < |s.ops| && s.ops[l].pc == Load && !Stuck(s, l)
    ensures var s' := ProducerStep(s, l);
      l < |s'.ops| && !Stuck(s', l) && 0 <= ProducerLeft(s', l) < ProducerLeft(s, l)
  {
    hide Inv, HeapOk, Main, Base, BufNo;
    TailRange(s);
    Positive(s.m, s.m.tailOfQueue);
    Compare(l, Buf(s.m, s.m.tailOfQueue));
  }

  lemma Positive(m: Memory, p: nat)
    requires Main(m, p)
    ensures Buf(m, p).pos >= 1
  {
  }

  lemma ProbeFinishes(s: State, l: nat)
    requires Inv(s) && l < |s.ops| && s.ops[l].pc == Probe && !Stuck(s, l)
    ensures var s' := ProducerStep(s, l);
      l < |s'.ops| && !Stuck(s', l) && 0 <= ProducerLeft(s', l) < ProducerLeft(s, l)
  {
    hide Inv, HeapOk, Main, BufNo, DataOf, IsLast, Ord;
    OpOk(s, l);
    TailFacts(s);
  }

  lemma AppendFinishes(s: State, l: nat)
    requires Inv(s) && l < |s.ops| && s.ops[l].pc == Append && !Stuck(s, l)
    ensures var s' := ProducerStep(s, l);
      l < |s'.ops| && !Stuck(s', l) && 0 <= ProducerLeft(s', l) < ProducerLeft(s, l)
  {
    hide Inv, HeapOk, Main, BufNo, DataOf, IsLast, Ord, TailOrd, LinkNew, Evolves;
    OpOk(s, l);
    TailFacts(s);
    HoldsMain(s, l);
    MainInHeap(s.m, s.ops[l].buf);
    if Buf(s.m, s.ops[l].buf).next.Null? { LinkHeap(s.m, s.ops[l].buf); }
    LastIsTail(s, l);
  }

  /** When tailOfQueue does not lag, the last buffer is the tail. */
  lemma LastIsTail(s: State, l: nat)
    requires Inv(s) && l < |s.ops| && Main(s.m, s.ops[l].buf)
    ensures TailOrd(s.m) == |s.m.chain| - 1 ==> (IsLast(s.m, s.ops[l].buf) <==> s.ops[l].buf == s.m.tailOfQueue)
    ensures TailOrd(s.m) == |s.m.chain| - 2 && s.ops[l].buf == s.m.tailOfQueue ==> Buf(s.m, s.ops[l].buf).next.To?
  {
    hide Inv, Main, Ord, TailOrd, IsLast;
    TailFacts(s);
  }

  lemma SwingFinishes(s: State, l: nat)
    requires Inv(s) && l < |s.ops| && s.ops[l].pc == Swing && !Stuck(s, l)
    ensures var s' := ProducerStep(s, l);
      l < |s'.ops| && !Stuck(s', l) && 0 <= ProducerLeft(s', l) < ProducerLeft(s, l)
  {
    hide Inv, HeapOk, Main, BufNo, DataOf, IsLast, Ord, TailOrd, Evolves;
    OpOk(s, l);
    TailFacts(s);
    if s.ops[l].buf == s.m.tailOfQueue {
      SwungMemory(s, l);
      BehindTail(s, l);
    }
  }

  lemma BehindTail(s: State, l: nat)
    requires Inv(s) && l < |s.ops| && s.ops[l].pc == Swing && s.ops[l].buf == s.m.tailOfQueue
    ensures TailOrd(s.m) < BufNo(l)
  {
    hide Inv, HeapOk, Main, BufNo, DataOf;
    OpOk(s, l);
  }

  lemma WalkFinishes(s: State, l: nat)
    requires Inv(s) && l < |s.ops| && s.ops[l].pc == Walk
    ensures var s' := ProducerStep(s, l);
      l < |s'.ops| && !Stuck(s', l) && 0 <= ProducerLeft(s', l) < ProducerLeft(s, l)
  {
    hide Inv, HeapOk, EnqueueOk, Main, Base;
    OpOk(s, l);
    PrevsHold(s);
    StillEmpty(s, l);
    WalkBack(s.m, l, s.ops[l]);
    WalkNearer(s.m, l, s.ops[l]);
    var p := Buf(s.m, s.ops[l].buf).prev.id;
    Compare(l, Buf(s.m, p));
  }

  lemma WalkNearer(m: Memory, l: nat, o: Enqueue)
    requires HeapOk(m) && PrevsOk(m) && EnqueueOk(m, l, o) && o.pc == Walk && StateOf(m, l) == EMPTY && Buf(m, o.buf).prev.To?
    ensures var p := Buf(m, o.buf).prev.id; BufNo(l) <= Ord(m, p) < Ord(m, o.buf) && Buf(m, p).pos >= 1
  {
    hide DataOf, TailOrd, Cell;
    assert PrevOk(m, Ord(m, o.buf));
    assert !AllHandled(m, BufNo(l)) by { assert Cell(Kth(m, BufNo(l)), IdxOf(l)).state == EMPTY; }
  }

  lemma SlotFinishes(s: State, l: nat)
    requires Inv(s) && l < |s.ops| && !Locating(s.ops[l].pc) && s.ops[l].pc != Walk && s.ops[l].pc != Done
    ensures var s' := ProducerStep(s, l);
      l < |s'.ops| && !Stuck(s', l) && 0 <= ProducerLeft(s', l) < ProducerLeft(s, l)
  {
    hide Inv, Store, PutCell, Cell, LinkNew, Touchable, BufNo, TailOrd, Ord, IdxOf, StateOf, LocOf, Main, HeadLoc;
    if s.ops[l].pc == Check || s.ops[l].pc == Write || s.ops[l].pc == Publish { OwnSlot(s, l); }
  }

  /** A step of an enqueue that runs alone brings it nearer to its end. */
  lemma FinishesStep(s: State, l: nat)
    requires Inv(s) && l < |s.ops| && !Stuck(s, l) && s.ops[l].pc != Done
    ensures var s' := ProducerStep(s, l);
      l < |s'.ops| && !Stuck(s', l) && 0 <= ProducerLeft(s', l) < ProducerLeft(s, l)
  {
    hide Inv, Stuck, ProducerLeft, ProducerStep;
    match s.ops[l].pc
    case Load => LoadFinishes(s, l);
    case Probe => ProbeFinishes(s, l);
    case Append => AppendFinishes(s, l);
    case Swing => SwingFinishes(s, l);
    case Walk => WalkFinishes(s, l);
    case _ => SlotFinishes(s, l);
  }

  // ---------- Waiting ----------

  /** An enqueue that is stuck stays stuck for as long as it runs alone. */
  lemma StuckStays(s: State, l: nat)
    requires Inv(s) && l < |s.ops| && Stuck(s, l)
    ensures l < |ProducerStep(s, l).ops| && Stuck(ProducerStep(s, l), l)
  {
    hide Inv, HeapOk, Main, BufNo, DataOf, IsLast, Ord, TailOrd, LinkNew, Evolves;
    OpOk(s, l);
    TailFacts(s);
    if s.ops[l].pc == Load {
      StuckLoads(s, l);
    } else {
      HoldsMain(s, l);
      MainInHeap(s.m, s.ops[l].buf);
      LastIsTail(s, l);
      if s.ops[l].pc == Append && Buf(s.m, s.ops[l].buf).next.Null? { LinkHeap(s.m, s.ops[l].buf); }
      NullIsNotLast(s, l);
    }
  }

  lemma StuckLoads(s: State, l: nat)
    requires Inv(s) && l < |s.ops| && Stuck(s, l) && s.ops[l].pc == Load
    ensures ProducerStep(s, l).ops[l].pc == Probe
  {
    hide Inv, HeapOk, Main, Base, BufNo;
    TailRange(s);
    Positive(s.m, s.m.tailOfQueue);
    Compare(l, Buf(s.m, s.m.tailOfQueue));
  }

  /** A stuck enqueue stands in front of the lagging tail's successor, so it does not append to the chain. */
  lemma NullIsNotLast(s: State, l: nat)
    requires Inv(s) && l < |s.ops| && Stuck(s, l) && s.ops[l].pc != Load
    ensures !IsLast(s.m, s.ops[l].buf)
  {
    hide Inv, HeapOk, BufNo, DataOf, IsLast;
    OpOk(s, l);
    TailFacts(s);
  }

  /** The tail lags only while the enqueue that linked the last buffer has still to swing it. */
  lemma StuckBySwing(s: State, l: nat)
    requires Inv(s) && l < |s.ops| && Stuck(s, l)
    ensures exists x :: 0 <= x < |s.ops| && x != l && (s.ops[x].pc == Swing || s.ops[x].pc == ExtendSwing)
  {
    hide NextsOk, PrevsOk, PrevsLinked, FreedOk, HeadOk, EnqueuesOk, SeenOk, SlotsOk, OutOk, ConsumerOk, RescanSeen, HeapOk;
    assert s.appender != l;
  }

  // ---------- Whole enqueues ----------

  lemma ProducerKeepsRest(s: State, l: nat)
    requires l < |s.ops|
    ensures ProducerStep(s, l).c == s.c && ProducerStep(s, l).out == s.out
  {
    hide Store, Buf, Cell, PutCell, Touchable, LinkNew, Base, Aim;
  }

  /** What an enqueue that runs alone leaves as it was. */
  ghost predicate Untouched(s: State, t: State, l: nat) {
    && l < |s.ops| == |t.ops| && t.c == s.c && t.out == s.out && t.outLoc == s.outLoc
    && t.ops[l].item == s.ops[l].item
    && forall x :: 0 <= x < |s.ops| && x != l ==> t.ops[x] == s.ops[x]
  }

  lemma ProducerUntouched(s: State, l: nat)
    requires l < |s.ops|
    ensures Untouched(s, ProducerStep(s, l), l)
  {
    hide ProducerStep, Published;
    ProducerKeeps(s, l);
    ProducerKeepsRest(s, l);
  }

  /** Location `l`'s enqueue runs alone from `s` until it is done. */
  ghost predicate FinishRun(s: State, l: nat, states: seq<State>, acts: seq<Action>) {
    && Path(states, acts) && states[0] == s
    && (forall i :: 0 <= i < |acts| ==> acts[i] == DoProduce(l))
    && l < |states[|acts|].ops| && states[|acts|].ops[l].pc == Done
  }

  /** An enqueue that is not stuck is done after at most the steps that were left, whatever the others are doing, if it is
      given those steps; it touches nothing of theirs. */
  lemma {:induction false} FinishAlone(s: State, l: nat) returns (states: seq<State>, acts: seq<Action>)
    requires Inv(s) && SpareOk(s.m) && l < |s.ops| && !Stuck(s, l)
    ensures FinishRun(s, l, states, acts) && |acts| <= ProducerLeft(s, l)
    ensures var t := states[|acts|]; Inv(t) && SpareOk(t.m) && Untouched(s, t, l)
    decreases ProducerLeft(s, l)
  {
    hide Inv, SpareOk, Stuck, Act, ProducerStep;
    if s.ops[l].pc == Done {
      states, acts := [s], [];
    } else {
      var a := DoProduce(l);
      var s' := Act(s, a);
      SlotsAlive(s, a);
      SpareStep(s, a);
      ProducerInv(s, l);
      ProducerUntouched(s, l);
      FinishesStep(s, l);
      var rest, more := FinishAlone(s', l);
      states, acts := [s] + rest, [a] + more;
    }
  }

  /** If it had not published yet, its slot then holds its item. */
  lemma FinishPublishes(s: State, l: nat, t: State)
    requires Inv(s) && l < |s.ops| && !Published(s.ops[l])
    requires Inv(t) && Untouched(s, t, l) && t.ops[l].pc == Done
    ensures StateOf(t.m, l) == SET && DataOf(t.m, l) == s.ops[l].item && l !in t.outLoc
  {
    hide Inv, StateOf, DataOf, HeadLoc;
    StillEmpty(s, l);
    HeadBehind(s, l);
    NotOut(s, l);
    PublishedSlot(t, l);
  }

  lemma NotOut(s: State, l: nat)
    requires Inv(s) && StateOf(s.m, l) == EMPTY && HeadLoc(s.m) <= l
    ensures l !in s.outLoc
  {
    hide MemoryOk, ProducersOk, Distinct, OutItemsOk, ConsumerOk, RescanSeen, StateOf, HeadLoc;
  }

  lemma {:induction false} StuckForever(states: seq<State>, acts: seq<Action>, l: nat)
    requires Path(states, acts) && forall i :: 0 <= i < |acts| ==> acts[i] == DoProduce(l)
    requires Inv(states[0]) && SpareOk(states[0].m) && l < |states[0].ops| && Stuck(states[0], l)
    ensures var t := states[|acts|]; Inv(t) && SpareOk(t.m) && l < |t.ops| && Stuck(t, l)
  {
    hide Inv, SpareOk, Stuck, Act;
    if acts != [] {
      var n := |acts| - 1;
      StuckForever(states[..n + 1], acts[..n], l);
      var s := states[n];
      SlotsAlive(s, DoProduce(l));
      SpareStep(s, DoProduce(l));
      ProducerInv(s, l);
      StuckStays(s, l);
    }
  }

  /** In every state of every run, an enqueue that now runs alone finishes if and only if it is not stuck behind a tail
      that somebody else has still to swing. */
  lemma FinishesIff(states: seq<State>, acts: seq<Action>, i: nat, l: nat)
    requires IsRun(states, acts) && i < |states| && l < |states[i].ops|
    ensures (exists ps, as_ :: FinishRun(states[i], l, ps, as_)) <==> !Stuck(states[i], l)
  {
    hide Inv, SpareOk, Stuck, Act, ProducerLeft;
    var s := states[i];
    RunInv(states, acts, i);
    if Stuck(s, l) {
      forall ps, as_ | FinishRun(s, l, ps, as_) ensures false {
        StuckForever(ps, as_, l);
        StuckIsNotDone(ps[|as_|], l);
      }
    } else {
      var ps, as_ := FinishAlone(s, l);
    }
  }

  lemma StuckIsNotDone(s: State, l: nat)
    requires l < |s.ops| && Stuck(s, l)
    ensures s.ops[l].pc != Done
  {
  }

  /** In every state of every run in which no other enqueue is about to swing tailOfQueue, an enqueue that now runs alone is
      done within the bound, and if it had not published before, its item is in its slot. */
  lemma EnqueueFinishes(states: seq<State>, acts: seq<Action>, i: nat, l: nat) returns (ps: seq<State>, as_: seq<Action>)
    requires IsRun(states, acts) && i < |states| && l < |states[i].ops|
    requires forall x :: 0 <= x < |states[i].ops| && x != l ==> states[i].ops[x].pc != Swing && states[i].ops[x].pc != ExtendSwing
    ensures FinishRun(states[i], l, ps, as_) && |as_| <= ProducerLeft(states[i], l)
    ensures Untouched(states[i], ps[|as_|], l)
    ensures !Published(states[i].ops[l]) ==> StateOf(ps[|as_|].m, l) == SET && DataOf(ps[|as_|].m, l) == states[i].ops[l].item
  {
    hide Inv, SpareOk, Stuck, Act, ProducerLeft, StateOf, DataOf;
    var s := states[i];
    RunInv(states, acts, i);
    if Stuck(s, l) { StuckBySwing(s, l); }
    ps, as_ := FinishAlone(s, l);
    if !Published(s.ops[l]) { FinishPublishes(s, l, ps[|as_|]); }
  }
}
