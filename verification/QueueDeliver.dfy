/** Delivering an item and advancing the head preserve the invariant. */
module QueueDeliver {
  import opened QueueModel
  import opened QueueInvariant
  import opened QueueMemory
  import opened QueueProducer
  import opened QueueConsumer

  function HeadAdvanced(m: Memory): Memory {
    Store(m, m.headOfQueue, Buf(m, m.headOfQueue).(head := Buf(m, m.headOfQueue).head + 1))
  }

  lemma KeepEnqueues(m: Memory, m': Memory, ops: seq<Enqueue>, appender: nat)
    requires HeapOk(m) && TailOk(m, ops, appender) && EnqueuesOk(m, ops)
    requires forall q :: Main(m, q) ==> Main(m', q) && Ord(m', q) == Ord(m, q)
    requires m'.tailOfQueue == m.tailOfQueue && m'.chain == m.chain
    requires forall l: nat :: DataOf(m', l) == DataOf(m, l)
    ensures TailOk(m', ops, appender) && EnqueuesOk(m', ops)
  {
    hide EnqueueOk, DataOf;
    forall l | 0 <= l < |ops| ensures EnqueueOk(m', l, ops[l]) {
      EnqueueKept(m, m', l, ops[l]);
    }
  }

  lemma AdvanceMemory(m: Memory, ops: seq<Enqueue>, appender: nat)
    requires MemoryOk(m, Null, Null) && ProducersOk(m, ops, appender)
    requires Buf(m, m.headOfQueue).head < N && StateOf(m, HeadLoc(m)) != EMPTY
    ensures MemoryOk(HeadAdvanced(m), Null, Null) && ProducersOk(HeadAdvanced(m), ops, appender)
    ensures HeadLoc(HeadAdvanced(m)) == HeadLoc(m) + 1
    ensures forall l: nat :: StateOf(HeadAdvanced(m), l) == StateOf(m, l)
  {
    hide NextsOk, PrevsOk, PrevsLinked, FreedOk, EnqueuesOk, SeenOk, StateOf, DataOf;
    var p := m.headOfQueue;
    var b := m.heap[p].(head := m.heap[p].head + 1);
    HeadStore(m, m.heap[p].head + 1);
    ShapeKept(m, p, b, Null);
    ShapeFrame(m, p, b, Null, Null);
    KeepEnqueues(m, HeadAdvanced(m), ops, appender);
    AdvanceHeads(m);
  }

  lemma AdvanceHeads(m: Memory)
    requires HeapOk(m)
    ensures forall k :: 0 <= k < |m.chain| && HeadOrd(m) < k ==> Kth(HeadAdvanced(m), k) == Kth(m, k)
    ensures HeadOrd(HeadAdvanced(m)) == HeadOrd(m) && TailOrd(HeadAdvanced(m)) == TailOrd(m)
  {
  }

  /** Recording the delivery of location `l` keeps the history of deliveries in order. */
  lemma EmitOk(s: State, l: nat)
    requires Inv(s) && l < |s.ops| && l !in s.outLoc
    requires forall a :: a in s.ops[l].seen ==> a in s.outLoc
    ensures Distinct(s.outLoc + [l])
    ensures OutItemsOk(s.ops, s.out + [s.ops[l].item], s.outLoc + [l])
  {
    hide MemoryOk, ProducersOk, OutSetOk, ConsumerOk, RescanSeen;
    var o := s.outLoc + [l];
    forall i, a | 0 <= i < |o| && a in s.ops[o[i]].seen ensures a in o[..i] {
      if i < |s.outLoc| {
        assert a in s.ops[s.outLoc[i]].seen;
        assert o[..i] == s.outLoc[..i];
      } else {
        assert o[..i] == s.outLoc;
      }
    }
  }

  /** The head passes a slot that is delivered in this step or was delivered before. */
  lemma PassHead(s: State, out: seq<Item>, outLoc: seq<nat>, r: Resume)
    requires !s.fault && MemoryOk(s.m, Null, Null) && ProducersOk(s.m, s.ops, s.appender)
    requires Buf(s.m, s.m.headOfQueue).head < N && StateOf(s.m, HeadLoc(s.m)) != EMPTY
    requires forall l: nat :: l in outLoc <==> l == HeadLoc(s.m) || Consumed(s.m, l)
    requires Distinct(outLoc) && OutItemsOk(s.ops, out, outLoc)
    requires r != ToEnter
    ensures Inv(Advance(s.(out := out, outLoc := outLoc), r))
  {
    hide NextsOk, PrevsOk, PrevsLinked, FreedOk, ProducersOk, HeadOk, StateOf, DataOf, Distinct, OutItemsOk, RescanSeen;
    AdvanceMemory(s.m, s.ops, s.appender);
    var s' := Advance(s.(out := out, outLoc := outLoc), r);
    assert s'.m == HeadAdvanced(s.m);
    forall l: nat ensures l in outLoc <==> Consumed(s'.m, l) {
      assert Consumed(s.m, l) || l == HeadLoc(s.m) <==> Consumed(s'.m, l);
    }
  }

  lemma PeekHandledInv(s: State)
    requires Inv(s) && s.c.pc.Peek?
    requires Cell(Buf(s.m, s.m.headOfQueue), Buf(s.m, s.m.headOfQueue).head).state == HANDLED
    ensures Inv(ConsumerStep(s))
  {
    hide MemoryOk, ProducersOk, Distinct, OutItemsOk, RescanSeen, StateOf, Cell, Main;
    HeadFacts(s);
    CellState(s, s.m.headOfQueue, Buf(s.m, s.m.headOfQueue).head);
    PassHead(s, s.out, s.outLoc, ToPeek);
  }

  /** The item at the head is SET: everything before it has been delivered. */
  lemma TakeInv(s: State)
    requires Inv(s) && s.c.pc.Take?
    requires Cell(Buf(s.m, s.m.headOfQueue), Buf(s.m, s.m.headOfQueue).head).state == SET
    ensures Inv(ConsumerStep(s))
  {
    hide MemoryOk, TailOk, EnqueuesOk, SlotsOk, Distinct, OutItemsOk, RescanSeen, StateOf, DataOf, Cell, Main, Ord, HeadOrd, TailOrd,
         BufNo, IdxOf, Advance;
    HeadFacts(s);
    var l := HeadLoc(s.m);
    CellState(s, s.m.headOfQueue, Buf(s.m, s.m.headOfQueue).head);
    forall a | a in s.ops[l].seen ensures a in s.outLoc { assert Consumed(s.m, a); }
    EmitOk(s, l);
    PassHead(s, s.out + [s.ops[l].item], s.outLoc + [l], ToTrue);
  }

  function SlotHandled(m: Memory, p: nat, i: nat): Memory {
    Store(m, p, PutCell(Buf(m, p), i, Cell(Buf(m, p), i).(state := HANDLED)))
  }

  lemma HandleMemory(m: Memory, ops: seq<Enqueue>, appender: nat, p: nat, i: nat)
    requires MemoryOk(m, Null, Null) && ProducersOk(m, ops, appender)
    requires Main(m, p) && i < N && Cell(Buf(m, p), i).state == SET
    ensures MemoryOk(SlotHandled(m, p, i), Null, Null) && ProducersOk(SlotHandled(m, p, i), ops, appender)
    ensures HeadLoc(SlotHandled(m, p, i)) == HeadLoc(m)
    ensures Buf(SlotHandled(m, p, i), m.headOfQueue).head == Buf(m, m.headOfQueue).head
    ensures forall l: nat :: StateOf(SlotHandled(m, p, i), l) == if l == LocOf(m, p, i) then HANDLED else StateOf(m, l)
  {
    hide NextsOk, PrevsOk, PrevsLinked, FreedOk, EnqueuesOk, SeenOk, StateOf, DataOf;
    var x := Cell(m.heap[p], i).(state := HANDLED);
    var b := PutCell(m.heap[p], i, x);
    SlotStore(m, p, i, x);
    ShapeKept(m, p, b, Null);
    ShapeFrame(m, p, b, Null, Null);
    HandledHeads(m, p, i);
    KeepEnqueues(m, SlotHandled(m, p, i), ops, appender);
  }

  lemma HandledHeads(m: Memory, p: nat, i: nat)
    requires HeapOk(m) && Main(m, p)
    ensures forall k :: 0 <= k < |m.chain| ==>
      && Kth(SlotHandled(m, p, i), k).head == Kth(m, k).head
      && Kth(SlotHandled(m, p, i), k).freed == Kth(m, k).freed
    ensures Buf(SlotHandled(m, p, i), m.headOfQueue).head == Buf(m, m.headOfQueue).head
    ensures Buf(SlotHandled(m, p, i), m.headOfQueue).freed == Buf(m, m.headOfQueue).freed
    ensures HeadOrd(SlotHandled(m, p, i)) == HeadOrd(m) && TailOrd(SlotHandled(m, p, i)) == TailOrd(m)
    ensures HeadLoc(SlotHandled(m, p, i)) == HeadLoc(m)
  {
  }

  /** Marking the candidate's slot HANDLED and recording its delivery. */
  lemma DeliverOut(s: State)
    requires Inv(s) && s.c.pc.Deliver?
    ensures Touchable(Buf(s.m, s.c.buf), s.c.idx)
    ensures var l := LocOf(s.m, s.c.buf, s.c.idx);
      && 0 <= l < |s.ops| && s.ops[l].item == Cell(Buf(s.m, s.c.buf), s.c.idx).data
      && Distinct(s.outLoc + [l]) && OutItemsOk(s.ops, s.out + [s.ops[l].item], s.outLoc + [l])
      && l !in s.outLoc && l >= HeadLoc(s.m)
  {
    hide MemoryOk, TailOk, EnqueuesOk, SlotsOk, Distinct, OutItemsOk, StateOf, Cell, Main;
    LinkedFacts(s, s.c.buf);
    CellState(s, s.c.buf, s.c.idx);
    EmitOk(s, LocOf(s.m, s.c.buf, s.c.idx));
  }

  lemma DeliverInv(s: State)
    requires Inv(s) && s.c.pc.Deliver?
    ensures Inv(ConsumerStep(s))
  {
    hide MemoryOk, ProducersOk, Distinct, OutItemsOk, RescanSeen, StateOf;
    DeliverOut(s);
    var p, i := s.c.buf, s.c.idx;
    var l := LocOf(s.m, p, i);
    HandleMemory(s.m, s.ops, s.appender, p, i);
    var m' := SlotHandled(s.m, p, i);
    var out, outLoc := s.out + [s.ops[l].item], s.outLoc + [l];
    forall x: nat ensures x in outLoc <==> Consumed(m', x) {
      assert x in s.outLoc <==> Consumed(s.m, x);
    }
    HeadFacts(s);
    if p == s.m.headOfQueue && i == Buf(s.m, s.m.headOfQueue).head {
      PassHead(s.(m := m'), out, outLoc, ToTrue);
    }
  }

  // ---------- Moving to the next buffer ----------

  lemma PopInv(s: State)
    requires Inv(s) && s.c.pc.MovePop? && s.m.garbage.To?
    ensures Inv(s.(m := Popped(s.m)))
  {
    hide NextsOk, PrevsOk, PrevsLinked, StateOf, DataOf, AllHandled, SeenOk, TailOk, Distinct, OutItemsOk, Main;
    var m' := Popped(s.m);
    assert BufferOk(s.m, s.m.heap[s.m.garbage.id]);
    SameHeapFacts(s.m, m');
    SameHeapNexts(s.m, m', Null);
    SameHeapPrevs(s.m, m', Null);
    KeepEnqueues(s.m, m', s.ops, s.appender);
    forall x: nat ensures x in s.outLoc <==> Consumed(m', x) {
      assert x in s.outLoc <==> Consumed(s.m, x);
    }
  }

  lemma SwitchLinked(m: Memory, q: nat)
    requires HeapOk(m) && PrevsLinked(m, Null) && Main(m, q) && !Buf(m, q).freed && HeadOrd(m) < Ord(m, q)
    ensures PrevsLinked(Switched(m, q), Null)
  {
    hide AllHandled;
    var m' := Switched(m, q);
    SameHeapFacts(m, m');
    forall k | 0 <= k < |m.chain| ensures Gone(m', Null, k) == Gone(m, Null, k) {}
    assert !Gone(m, Null, Ord(m, q)) by { assert Kth(m, Ord(m, q)) == Buf(m, q); }
    forall k | 0 <= k < |m.chain| && HeadOrd(m') < k && !Gone(m', Null, k) ensures PrevLinked(m', Null, k) {
      assert PrevLinked(m, Null, k);
    }
  }

  lemma SwitchInv(s: State)
    requires Inv(s) && s.c.pc.MovePop?
    ensures Inv(Goto(s, After(s.c.pc.r, true)).(m := Switched(s.m, s.c.pc.nx)))
  {
    hide NextsOk, PrevsOk, PrevsLinked, FreedOk, DataOf, AllHandled, EnqueuesOk, SeenOk, Distinct, OutItemsOk;
    HeadFacts(s);
    LinkedFacts(s, s.m.headOfQueue);
    var q := s.c.pc.nx;
    var m' := Switched(s.m, q);
    SwitchLinked(s.m, q);
    SwitchHead(s);
    SwitchSame(s.m, m');
    KeepEnqueues(s.m, m', s.ops, s.appender);
  }

  lemma SwitchSame(m: Memory, m': Memory)
    requires MemoryOk(m, Null, Null) && m'.heap == m.heap && m'.chain == m.chain && m'.tailOfQueue == m.tailOfQueue
    ensures NextsOk(m', Null) && PrevsOk(m') && FreedOk(m')
    ensures forall q :: Main(m, q) ==> Main(m', q) && Ord(m', q) == Ord(m, q)
    ensures forall l: nat :: DataOf(m', l) == DataOf(m, l) && StateOf(m', l) == StateOf(m, l)
  {
    hide HeapOk, HeadOk, StateOf, DataOf, AllHandled, Main;
    SameHeapFacts(m, m');
    SameHeapNexts(m, m', Null);
    var m1 := m'.(headOfQueue := m.headOfQueue);
    SameHeapPrevs(m, m1, Null);
    SameHeapFacts(m1, m');
    forall k | 0 < k < |m.chain| ensures PrevOk(m', k) { assert PrevOk(m1, k); }
  }

  /** Every location before the next linked buffer has been delivered. */
  lemma SwitchHead(s: State)
    requires Inv(s) && s.c.pc.MovePop?
    ensures HeapOk(Switched(s.m, s.c.pc.nx)) && HeadOk(Switched(s.m, s.c.pc.nx))
    ensures OutSetOk(Switched(s.m, s.c.pc.nx), s.outLoc)
  {
    hide NextsOk, PrevsOk, PrevsLinked, FreedOk, DataOf, StateOf, AllHandled, ProducersOk, Distinct, OutItemsOk;
    HeadFacts(s);
    LinkedFacts(s, s.m.headOfQueue);
    var q := s.c.pc.nx;
    var m' := Switched(s.m, q);
    SameHeapFacts(s.m, m');
    assert HeadLoc(s.m) == LocOf(s.m, s.m.headOfQueue, N) <= HeadLoc(m') == LocOf(s.m, q, 0);
    forall x: nat | HeadLoc(s.m) <= x < HeadLoc(m') ensures Consumed(s.m, x) {
      SkippedConsumed(s, s.m.headOfQueue, x);
    }
    forall x: nat ensures x in s.outLoc <==> Consumed(m', x) {
      assert x in s.outLoc <==> Consumed(s.m, x);
    }
    assert HeapOk(m');
    forall j | 0 <= j < |m'.chain| && HeadOrd(m') < j ensures Kth(m', j).head == 0 { assert Kth(s.m, j).head == 0; }
    forall l: nat | l < HeadLoc(m') ensures StateOf(m', l) != EMPTY {
      assert StateOf(m', l) == StateOf(s.m, l);
      if l >= HeadLoc(s.m) { assert Consumed(s.m, l); }
    }
  }
}
