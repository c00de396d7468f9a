/** The guarantees of the queue, for every run under every schedule. */
module QueueTheorems {
  import opened QueueModel
  import opened QueueInvariant
  import opened QueueMemory
  import opened QueueProducer
  import opened QueueAppend
  import opened QueueConsumer
  import opened QueueDeliver
  import opened QueueFold
  import opened QueueReclaim

  lemma ProducerInv(s: State, l: nat)
    requires Inv(s) && l < |s.ops|
    ensures Inv(ProducerStep(s, l))
  {
    hide Inv;
    match s.ops[l].pc
    case Load => LoadInv(s, l);
    case Probe => ProbeInv(s, l);
    case Append => CasNextInv(s, l, Swing, Load);
    case Swing => CasTailInv(s, l, Load);
    case Walk => WalkInv(s, l);
    case Check => CheckInv(s, l);
    case Write => WriteInv(s, l);
    case Publish => PublishInv(s, l);
    case Extend => CasNextInv(s, l, ExtendSwing, Done);
    case ExtendSwing => CasTailInv(s, l, Done);
    case Done =>
  }

  lemma ConsumerInv(s: State)
    requires Inv(s)
    ensures Inv(ConsumerStep(s))
  {
    hide Inv;
    HeadFacts(s);
    var st := Cell(Buf(s.m, s.m.headOfQueue), Buf(s.m, s.m.headOfQueue).head).state;
    match s.c.pc
    case Idle => EnterInv(s);
    case Return(_) => EnterInv(s);
    case Enter => EnterInv(s);
    case MoveTail(_) => EnterInv(s);
    case MoveNext(_) => EnterInv(s);
    case MovePop(_, _) => MovePopInv(s);
    case Peek => if st == HANDLED { PeekHandledInv(s); } else { PeekInv(s); }
    case AtTail => PeekInv(s);
    case AtEnd => PeekInv(s);
    case Take => if st == SET { TakeInv(s); } else { PeekInv(s); }
    case Gap => GapInv(s);
    case ScanLook => if Cell(Buf(s.m, s.c.buf), s.c.idx).state == SET { FoundInv(s); } else { ScanInv(s); }
    case ScanNote => ScanInv(s);
    case ScanNext => ScanInv(s);
    case FoldTail => FoldStartInv(s);
    case FoldNext => FoldStartInv(s);
    case FoldPrev(_) => FoldPrevInv(s);
    case FoldSkip(_) => FoldSkipInv(s);
    case FoldFree(_) => FoldFreeInv(s);
    case Rescan => RescanInv(s);
    case Deliver => DeliverInv(s);
  }

  lemma MovePopInv(s: State)
    requires Inv(s) && s.c.pc.MovePop?
    ensures Inv(ConsumerStep(s))
  {
    hide Inv;
    if s.m.garbage.To? {
      PopInv(s);
    }
    SwitchInv(s);
  }

  /** Whatever a producer or the consumer does next, the invariant survives. */
  lemma StepInv(s: State, a: Action)
    requires Inv(s) && SpareOk(s.m) && Enabled(s, a)
    ensures Inv(Act(s, a)) && SpareOk(Act(s, a).m)
  {
    hide Inv, SpareOk, Act, SlotsUsed, Claim, ProducerStep, ConsumerStep;
    SlotsAlive(s, a);
    SpareStep(s, a);
    match a
    case DoClaim(item) => ClaimInv(s, item);
    case DoProduce(l) => ProducerInv(s, l);
    case DoConsume => ConsumerInv(s);
  }

  lemma {:induction false} RunInv(states: seq<State>, acts: seq<Action>, i: nat)
    requires IsRun(states, acts) && i < |states|
    ensures Inv(states[i]) && SpareOk(states[i].m)
  {
    hide Inv, SpareOk, Act;
    if i == 0 {
      InitialInv();
      InitialSpare();
    } else {
      RunInv(states, acts, i - 1);
      StepInv(states[i - 1], acts[i - 1]);
    }
  }

  // ---------- Nothing is lost, nothing is delivered twice ----------

  /** `path` follows next links. */
  predicate NextPath(m: Memory, path: seq<nat>) {
    && |path| > 0
    && forall i :: 0 <= i < |path| - 1 ==> Buf(m, path[i]).next == To(path[i + 1])
  }

  /** The item of location `l` waits in a live buffer the consumer reaches from headOfQueue. */
  ghost predicate Waiting(m: Memory, l: nat, item: Item) {
    && HeadLoc(m) <= l
    && BufNo(l) < |m.chain|
    && !Kth(m, BufNo(l)).freed
    && StateOf(m, l) == SET && DataOf(m, l) == item
    && exists path :: NextPath(m, path) && path[0] == m.headOfQueue && path[|path| - 1] == m.chain[BufNo(l)]
  }

  /** Every linked buffer behind the head is reached by next links. */
  lemma {:induction false} Reachable(m: Memory, f: Link, j: nat, k: nat) returns (path: seq<nat>)
    requires HeapOk(m) && NextsOk(m, f) && j <= k < |m.chain| && !Gone(m, f, j) && !Gone(m, f, k)
    ensures NextPath(m, path) && path[0] == m.chain[j] && path[|path| - 1] == m.chain[k]
    decreases k - j
  {
    if j == k {
      path := [m.chain[j]];
    } else {
      assert NextOk(m, f, j);
      var i := Ord(m, Kth(m, j).next.id);
      var rest := Reachable(m, f, i, k);
      path := [m.chain[j]] + rest;
      assert forall x :: 0 <= x < |path| - 1 ==> x > 0 ==> path[x] == rest[x - 1] && path[x + 1] == rest[x];
    }
  }

  lemma PublishedIsKept(s: State, l: nat)
    requires Inv(s) && l < |s.ops| && Published(s.ops[l])
    ensures l in s.outLoc || Waiting(s.m, l, s.ops[l].item)
  {
    hide Inv, HeapOk, NextsOk, Gone, AllHandled, HeadOrd, HeadLoc, StateOf, DataOf, Ord, Main;
    PublishedSlot(s, l);
    if l !in s.outLoc {
      var k := BufNo(l);
      PendingNotGone(s, k);
      HeadFacts(s);
      LinkedMemory(s);
      var path := Reachable(s.m, Unlinked(s.c), HeadOrd(s.m), k);
    }
  }

  /** The slot of a published location that is not delivered holds its item, in a buffer at or behind the head. */
  lemma PublishedSlot(s: State, l: nat)
    requires Inv(s) && l < |s.ops| && Published(s.ops[l])
    ensures l in s.outLoc ||
      (&& HeadLoc(s.m) <= l && BufNo(l) < |s.m.chain| && StateOf(s.m, l) == SET && DataOf(s.m, l) == s.ops[l].item
       && HeadOrd(s.m) <= BufNo(l) && !AllHandled(s.m, BufNo(l)))
  {
    hide MemoryOk, TailOk, SeenOk, Distinct, OutItemsOk, ConsumerOk, RescanSeen, Main;
    assert StateOf(s.m, l) != EMPTY && EnqueueOk(s.m, l, s.ops[l]);
    HeadFacts(s);
    if l !in s.outLoc {
      assert !Consumed(s.m, l);
      assert Cell(Kth(s.m, BufNo(l)), IdxOf(l)).state == SET;
    }
  }

  lemma LinkedMemory(s: State)
    requires Inv(s)
    ensures HeapOk(s.m) && NextsOk(s.m, Unlinked(s.c)) && 0 <= HeadOrd(s.m) < |s.m.chain|
    ensures s.m.chain[HeadOrd(s.m)] == s.m.headOfQueue && !Gone(s.m, Unlinked(s.c), HeadOrd(s.m))
    ensures forall k :: 0 <= k < |s.m.chain| && !Gone(s.m, Unlinked(s.c), k) ==> !Kth(s.m, k).freed
  {
    hide NextsOk, PrevsOk, PrevsLinked, FreedOk, ProducersOk, OutOk, RescanSeen, AllHandled;
    HeadFacts(s);
    assert Kth(s.m, HeadOrd(s.m)) == Buf(s.m, s.m.headOfQueue);
  }

  lemma PendingNotGone(s: State, k: nat)
    requires Inv(s) && k < |s.m.chain| && !AllHandled(s.m, k)
    ensures !Gone(s.m, Unlinked(s.c), k)
  {
    hide NextsOk, PrevsOk, PrevsLinked, HeadOk, ProducersOk, OutOk, RescanSeen, AllHandled;
  }

  /** In every state of every run: no step uses slots that have been deleted (by a fold, with an old head or with old
      garbage), follows a null link or leaves a slot array; each location is delivered at most once and with the item
      enqueued there; everything in front of the head is delivered; and an item whose enqueue has finished is delivered
      or waits where the consumer finds it, so neither the EMPTY guard, nor the head, nor a fold drops it. */
  lemma QueueSafety(states: seq<State>, acts: seq<Action>, i: nat)
    requires IsRun(states, acts) && i < |states|
    ensures !states[i].fault
    ensures forall a :: Enabled(states[i], a) && SlotsUsed(states[i], a).To? ==>
      var p := SlotsUsed(states[i], a).id; p !in states[i].m.reclaimed && !Buf(states[i].m, p).freed
    ensures Distinct(states[i].outLoc) && |states[i].out| == |states[i].outLoc|
    ensures forall x :: 0 <= x < |states[i].outLoc| ==>
      states[i].outLoc[x] < |states[i].ops| && states[i].out[x] == states[i].ops[states[i].outLoc[x]].item
    ensures forall l: nat :: l < HeadLoc(states[i].m) ==> l in states[i].outLoc
    ensures forall l: nat :: l < |states[i].ops| && states[i].ops[l].pc == Done ==>
      l in states[i].outLoc || Waiting(states[i].m, l, states[i].ops[l].item)
  {
    hide MemoryOk, ProducersOk, ConsumerOk, RescanSeen, Waiting, HeadLoc, StateOf, SpareOk, SlotsUsed, Act;
    var s := states[i];
    RunInv(states, acts, i);
    forall a | Enabled(s, a) && SlotsUsed(s, a).To? ensures var p := SlotsUsed(s, a).id; p !in s.m.reclaimed && !Buf(s.m, p).freed {
      SlotsAlive(s, a);
    }
    forall l: nat | l < HeadLoc(s.m) ensures l in s.outLoc { assert Consumed(s.m, l); }
    forall l: nat | l < |s.ops| && s.ops[l].pc == Done ensures l in s.outLoc || Waiting(s.m, l, s.ops[l].item) {
      PublishedIsKept(s, l);
    }
  }

  /** The access a producer makes to a slot is to the slot of its own location, in a buffer that is not folded. */
  lemma ProducerLands(states: seq<State>, acts: seq<Action>, i: nat, l: nat)
    requires IsRun(states, acts) && i < |states| && l < |states[i].ops|
    requires states[i].ops[l].pc == Check || states[i].ops[l].pc == Write || states[i].ops[l].pc == Publish
    ensures var b := Buf(states[i].m, states[i].ops[l].buf);
      !b.freed && N * (b.pos - 1) <= l < N * b.pos && Cell(b, l - N * (b.pos - 1)).state == EMPTY
  {
    hide Inv;
    RunInv(states, acts, i);
    OwnSlot(states[i], l);
  }

  // ---------- Real-time order ----------

  lemma ConsumerKeepsOps(s: State)
    ensures ConsumerStep(s).ops == s.ops && ConsumerStep(s).appender == s.appender
  {
    hide Store, Buf, Cell, PutCell, Touchable;
  }

  predicate OpKept(o: Enqueue, o': Enqueue) {
    o'.item == o.item && o'.seen == o.seen && (Published(o) ==> Published(o'))
  }

  /** Only the entry of `l` may change, and neither its item nor its history. */
  predicate OpsKept(ops: seq<Enqueue>, l: nat, ops': seq<Enqueue>) {
    && l < |ops| == |ops'|
    && OpKept(ops[l], ops'[l])
    && forall x :: 0 <= x < |ops| && x != l ==> ops'[x] == ops[x]
  }

  lemma SetKept(ops: seq<Enqueue>, l: nat, o: Enqueue)
    requires l < |ops| && OpKept(ops[l], o)
    ensures OpsKept(ops, l, ops[l := o]) && OpsKept(ops, l, ops)
  {
  }

  lemma ProducerKeeps(s: State, l: nat)
    requires l < |s.ops|
    ensures OpsKept(s.ops, l, ProducerStep(s, l).ops) && ProducerStep(s, l).outLoc == s.outLoc
  {
    hide OpsKept, Store, Buf, Cell, PutCell, Touchable, LinkNew, Base, Aim, CasNext, CasTail;
    var o, b := s.ops[l], Buf(s.m, s.ops[l].buf);
    SetKept(s.ops, l, o);
    match o.pc
    case Load => SetKept(s.ops, l, o.(buf := s.m.tailOfQueue, pc := Aim(l, Buf(s.m, s.m.tailOfQueue))));
    case Probe => SetKept(s.ops, l, o.(pc := if b.next.Null? then Append else Load));
    case Append => CasKeeps(s, l, Swing, Load);
    case Swing => CasKeeps(s, l, Swing, Load);
    case Walk =>
      if b.prev.To? {
        SetKept(s.ops, l, o.(buf := b.prev.id, last := false, pc := if l < Base(Buf(s.m, b.prev.id)) then Walk else Check));
      }
    case Check => SetKept(s.ops, l, o.(pc := if Cell(b, l - Base(b)).state == EMPTY then Write else Done));
    case Write => SetKept(s.ops, l, o.(pc := Publish));
    case Publish => SetKept(s.ops, l, o.(pc := if l - Base(b) == N - 2 && o.last then Extend else Done));
    case Extend => CasKeeps(s, l, ExtendSwing, Done);
    case ExtendSwing => CasKeeps(s, l, ExtendSwing, Done);
    case Done =>
  }

  lemma CasKeeps(s: State, l: nat, won: ProducerPC, lost: ProducerPC)
    requires l < |s.ops| && (!Published(s.ops[l]) || (won == ExtendSwing && lost == Done))
    ensures OpsKept(s.ops, l, CasNext(s, l, won, lost).ops) && CasNext(s, l, won, lost).outLoc == s.outLoc
    ensures OpsKept(s.ops, l, CasTail(s, l, lost).ops) && CasTail(s, l, lost).outLoc == s.outLoc
  {
    hide LinkNew, OpsKept;
    var o := s.ops[l];
    SetKept(s.ops, l, o.(made := |s.m.heap|, pc := won));
    SetKept(s.ops, l, o.(pc := lost));
  }

  /** Claimed enqueues keep their history, and published ones stay published. */
  lemma StepHistory(s: State, a: Action)
    requires Enabled(s, a)
    ensures |s.ops| <= |Act(s, a).ops|
    ensures !a.DoClaim? ==> |Act(s, a).ops| == |s.ops|
    ensures forall l :: 0 <= l < |s.ops| ==>
      && Act(s, a).ops[l].seen == s.ops[l].seen
      && (Published(s.ops[l]) ==> Published(Act(s, a).ops[l]))
  {
    hide Published, ProducerStep, ConsumerStep;
    ConsumerKeepsOps(s);
    if a.DoProduce? { ProducerKeeps(s, a.l); }
  }

  lemma {:induction false} PublishedLater(states: seq<State>, acts: seq<Action>, i: nat, j: nat, a: nat)
    requires IsRun(states, acts) && i <= j < |states| && a < |states[i].ops| && Published(states[i].ops[a])
    ensures a < |states[j].ops| && Published(states[j].ops[a])
    decreases j
  {
    hide Act, Published;
    if i < j {
      PublishedLater(states, acts, i, j - 1, a);
      StepHistory(states[j - 1], acts[j - 1]);
    }
  }

  /** An enqueue claimed after another one published has seen it. */
  lemma {:induction false} SeenLater(states: seq<State>, acts: seq<Action>, i: nat, j: nat, a: nat, b: nat)
    requires IsRun(states, acts) && i <= j < |states|
    requires a < |states[i].ops| <= b < |states[j].ops| && Published(states[i].ops[a])
    ensures a in states[j].ops[b].seen
    decreases j
  {
    hide Published, ProducerStep, ConsumerStep;
    var s := states[j - 1];
    StepHistory(s, acts[j - 1]);
    if b < |s.ops| {
      SeenLater(states, acts, i, j - 1, a, b);
    } else {
      PublishedLater(states, acts, i, j - 1, a);
    }
  }

  /** Real-time FIFO: if one enqueue has finished before another claims its location, its item is delivered first. */
  lemma RealTimeFifo(states: seq<State>, acts: seq<Action>, i: nat, j: nat, a: nat, b: nat, y: nat)
    requires IsRun(states, acts) && i <= j < |states|
    requires a < |states[i].ops| <= b && states[i].ops[a].pc == Done
    requires y < |states[j].outLoc| && states[j].outLoc[y] == b
    ensures a in states[j].outLoc[..y]
  {
    hide MemoryOk, ProducersOk, ConsumerOk, RescanSeen, OutSetOk, Distinct;
    RunInv(states, acts, j);
    SeenLater(states, acts, i, j, a, b);
  }
}
