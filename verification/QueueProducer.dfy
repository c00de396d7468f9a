/** Every step of a producer preserves the invariant. */
module QueueProducer {
  import opened QueueModel
  import opened QueueInvariant
  import opened QueueMemory

  /** What producers can do to a buffer: fill EMPTY slots and set a null next link. */
  ghost predicate BufferEvolves(a: Buffer, b: Buffer) {
    && b.prev == a.prev && b.pos == a.pos && b.freed == a.freed && b.head == a.head && |b.slots| == |a.slots|
    && (a.next.To? ==> b.next == a.next)
    && forall i :: 0 <= i < |a.slots| ==>
      && (a.slots[i].state != EMPTY ==> b.slots[i].state == a.slots[i].state)
      && (b.slots[i].state == HANDLED ==> a.slots[i].state == HANDLED)
  }

  /** What producers can do to the memory. */
  ghost predicate Evolves(m: Memory, m': Memory) {
    && m'.headOfQueue == m.headOfQueue
    && |m.heap| <= |m'.heap|
    && m.chain <= m'.chain
    && (forall p :: 0 <= p < |m.heap| ==> BufferEvolves(m.heap[p], m'.heap[p]))
    && TailOrd(m) <= TailOrd(m')
  }

  lemma EvolvesMain(m: Memory, m': Memory)
    requires HeapOk(m) && HeapOk(m') && Evolves(m, m')
    ensures forall p :: Main(m, p) ==> Main(m', p) && BufferEvolves(Buf(m, p), Buf(m', p))
    ensures HeadOrd(m') == HeadOrd(m) && HeadLoc(m') == HeadLoc(m)
    ensures BufferEvolves(Buf(m, m.headOfQueue), Buf(m', m.headOfQueue))
  {
  }

  lemma EvolvesHead(m: Memory, m': Memory)
    requires HeapOk(m) && HeapOk(m') && Evolves(m, m') && HeadPending(m)
    ensures HeadPending(m')
  {
    EvolvesMain(m, m');
    assert BufferEvolves(Buf(m, m.headOfQueue), Buf(m', m.headOfQueue));
  }

  lemma EvolvesScan(m: Memory, m': Memory, c: Consumer)
    requires HeapOk(m) && HeapOk(m') && Evolves(m, m') && ScanAt(m, c)
    ensures ScanAt(m', c)
  {
    EvolvesMain(m, m');
    hide HeapOk, Main, Evolves;
    forall i | c.moved && c.allHandled && 0 <= i < c.idx ensures Cell(Buf(m', c.buf), i).state == HANDLED {
      assert Cell(Buf(m, c.buf), i).state == HANDLED;
    }
  }

  lemma EvolvesRescan(m: Memory, m': Memory, c: Consumer)
    requires HeapOk(m) && HeapOk(m') && Evolves(m, m') && RescanAt(m, c)
    ensures RescanAt(m', c)
    ensures LocOf(m', c.buf, c.idx) == LocOf(m, c.buf, c.idx) && LocOf(m', c.sbuf, c.sidx) == LocOf(m, c.sbuf, c.sidx)
  {
    EvolvesMain(m, m');
    hide HeapOk, Main, Evolves;
    assert BufferEvolves(Buf(m, c.buf), Buf(m', c.buf)) && BufferEvolves(Buf(m, c.sbuf), Buf(m', c.sbuf));
  }

  lemma EvolvesFold(m: Memory, m': Memory, c: Consumer)
    requires HeapOk(m) && HeapOk(m') && Evolves(m, m') && FoldAt(m, c)
    ensures FoldAt(m', c)
    ensures BufferEvolves(Buf(m, c.buf), Buf(m', c.buf))
  {
    EvolvesMain(m, m');
    var k := Ord(m, c.buf);
    forall i | 0 <= i < N ensures Cell(Kth(m', k), i).state == HANDLED {
      assert Cell(Kth(m, k), i).state == HANDLED;
    }
  }

  lemma EvolvesSkip(m: Memory, m': Memory, c: Consumer)
    requires HeapOk(m) && HeapOk(m') && Evolves(m, m') && FoldAt(m, c)
    requires PrevLinked(m, Null, Ord(m, c.buf))
    ensures FoldAt(m', c) && PrevLinked(m', Null, Ord(m', c.buf))
  {
    EvolvesFold(m, m', c);
    EvolvesMain(m, m');
    EvolvesGone(m, m');
    hide FoldAt, Main;
    var k := Ord(m, c.buf);
    var p := Kth(m, k).prev.id;
    assert Ord(m', c.buf) == k && Kth(m', k).prev == To(p) && Ord(m', p) == Ord(m, p);
    forall i | Ord(m', p) < i < k ensures Gone(m', Null, i) { assert Gone(m, Null, i); }
  }

  lemma EvolvesGone(m: Memory, m': Memory)
    requires HeapOk(m) && HeapOk(m') && Evolves(m, m')
    ensures forall i :: 0 <= i < |m.chain| ==> m'.chain[i] == m.chain[i] && Gone(m', Null, i) == Gone(m, Null, i)
    ensures forall i :: 0 <= i < |m.chain| ==> BufferEvolves(Kth(m, i), Kth(m', i))
  {
    forall i | 0 <= i < |m.chain|
      ensures m'.chain[i] == m.chain[i] && Gone(m', Null, i) == Gone(m, Null, i) && BufferEvolves(Kth(m, i), Kth(m', i))
    {
      assert BufferEvolves(m.heap[m.chain[i]], m'.heap[m.chain[i]]);
    }
  }

  /** Producers cannot invalidate what the consumer relies on. */
  lemma EvolvesConsumer(m: Memory, m': Memory, c: Consumer)
    requires HeapOk(m) && HeapOk(m') && Evolves(m, m') && ConsumerOk(m, c)
    ensures ConsumerOk(m', c)
  {
    hide HeapOk, Main, ScanAt, RescanAt, FoldAt, PrevLinked, HeadPending;
    EvolvesMain(m, m');
    assert BufferEvolves(Buf(m, m.headOfQueue), Buf(m', m.headOfQueue));
    if c.pc.ScanLook? || c.pc.ScanNote? || c.pc.ScanNext? {
      EvolvesScan(m, m', c);
    } else if c.pc.Rescan? || c.pc.Deliver? {
      EvolvesRescan(m, m', c);
    } else if c.pc.AtTail? || c.pc.AtEnd? || c.pc.Take? || c.pc.Gap? {
      EvolvesHead(m, m');
    } else if c.pc.FoldTail? || c.pc.FoldNext? || c.pc.FoldPrev? || c.pc.FoldSkip? || c.pc.FoldFree? {
      EvolvesFold(m, m', c);
      if c.pc.FoldSkip? {
        EvolvesSkip(m, m', c);
      }
    }
  }

  /** History about enqueues survives a step of one of them. */
  lemma HistoryKept(s: State, l: nat, o: Enqueue)
    requires SeenOk(s.ops) && OutItemsOk(s.ops, s.out, s.outLoc) && l < |s.ops|
    requires o.item == s.ops[l].item && o.seen == s.ops[l].seen
    requires Published(s.ops[l]) ==> Published(o)
    ensures SeenOk(s.ops[l := o])
    ensures OutItemsOk(s.ops[l := o], s.out, s.outLoc)
  {
    var ops' := s.ops[l := o];
    forall y, a | 0 <= y < |ops'| && a in ops'[y].seen ensures a < y && Published(ops'[a]) {
      assert a in s.ops[y].seen;
    }
  }

  /** An enqueue changes only its own locals and does not publish. */
  lemma LocalsFrame(s: State, l: nat, o: Enqueue)
    requires Inv(s) && l < |s.ops|
    requires o.item == s.ops[l].item && o.seen == s.ops[l].seen
    requires Published(o) == Published(s.ops[l])
    requires s.ops[l].pc == Swing || s.ops[l].pc == ExtendSwing ==> s.ops[l].buf != s.m.tailOfQueue
    requires EnqueueOk(s.m, l, o)
    ensures Inv(SetOp(s, l, o))
  {
    hide MemoryOk, StateOf, OutSetOk, ConsumerOk, LocOf, SeenOk, OutItemsOk, Distinct;
    HistoryKept(s, l, o);
  }

  lemma ClaimInv(s: State, item: Item)
    requires Inv(s)
    ensures Inv(Claim(s, item))
  {
    hide MemoryOk, StateOf, OutSetOk, ConsumerOk, LocOf;
    var s' := Claim(s, item);
    assert forall l :: 0 <= l < |s.ops| ==> s'.ops[l] == s.ops[l];
    assert SeenOk(s'.ops);
    assert SlotsOk(s'.m, s'.ops);
    assert EnqueuesOk(s'.m, s'.ops);
  }

  lemma LoadInv(s: State, l: nat)
    requires Inv(s) && l < |s.ops| && s.ops[l].pc == Load
    ensures Inv(ProducerStep(s, l))
  {
    var o := s.ops[l];
    var o' := o.(buf := s.m.tailOfQueue, pc := Aim(l, Buf(s.m, s.m.tailOfQueue)));
    assert EnqueueOk(s.m, l, o') by { assert EnqueueOk(s.m, l, o); }
    LocalsFrame(s, l, o');
  }

  lemma ProbeInv(s: State, l: nat)
    requires Inv(s) && l < |s.ops| && s.ops[l].pc == Probe
    ensures Inv(ProducerStep(s, l))
  {
    var o := s.ops[l];
    assert EnqueueOk(s.m, l, o);
    LocalsFrame(s, l, o.(pc := if Buf(s.m, o.buf).next.Null? then Append else Load));
  }

  /** The buffer of a location whose enqueue has not published is not fully handled. */
  lemma PendingBuffer(s: State, l: nat)
    requires Inv(s) && l < |s.ops| && !Published(s.ops[l]) && BufNo(l) < |s.m.chain|
    ensures StateOf(s.m, l) == EMPTY
    ensures !AllHandled(s.m, BufNo(l))
    ensures !Kth(s.m, BufNo(l)).freed
  {
    hide NextsOk, PrevsOk, PrevsLinked, TailOk, OutSetOk, Distinct, ConsumerOk, RescanSeen;
    assert Cell(Kth(s.m, BufNo(l)), IdxOf(l)).state == EMPTY;
  }

  /** Walking back by prev never skips the buffer of the location: prev links only skip handled buffers. */
  lemma WalkLands(m: Memory, l: nat, o: Enqueue, p: nat)
    requires HeapOk(m) && PrevsOk(m) && EnqueueOk(m, l, o) && o.pc == Walk
    requires StateOf(m, l) == EMPTY
    requires Buf(m, o.buf).prev == To(p)
    ensures EnqueueOk(m, l, o.(buf := p, last := false, pc := if l < Base(Buf(m, p)) then Walk else Check))
  {
    hide DataOf, TailOrd, Cell;
    assert PrevOk(m, Ord(m, o.buf));
    assert !AllHandled(m, BufNo(l)) by { assert Cell(Kth(m, BufNo(l)), IdxOf(l)).state == EMPTY; }
  }

  lemma WalkInv(s: State, l: nat)
    requires Inv(s) && l < |s.ops| && s.ops[l].pc == Walk
    ensures Inv(ProducerStep(s, l))
  {
    hide Inv, HeapOk, EnqueueOk, Main, Ord, TailOrd, BufNo, IdxOf, DataOf, StateOf, LocOf, Base;
    var o := s.ops[l];
    OpOk(s, l);
    PrevsHold(s);
    StillEmpty(s, l);
    WalkBack(s.m, l, o);
    var p := Buf(s.m, o.buf).prev.id;
    WalkLands(s.m, l, o, p);
    LocalsFrame(s, l, o.(buf := p, last := false, pc := if l < Base(Buf(s.m, p)) then Walk else Check));
  }

  lemma PrevsHold(s: State)
    requires Inv(s)
    ensures PrevsOk(s.m)
  {
    hide HeapOk, NextsOk, PrevsOk, PrevsLinked, FreedOk, HeadOk, ProducersOk, OutOk, ConsumerOk, RescanSeen;
  }

  lemma StillEmpty(s: State, l: nat)
    requires Inv(s) && l < |s.ops| && !Published(s.ops[l])
    ensures StateOf(s.m, l) == EMPTY
  {
    hide MemoryOk, TailOk, EnqueuesOk, SeenOk, OutOk, ConsumerOk, RescanSeen, StateOf;
  }

  lemma WalkBack(m: Memory, l: nat, o: Enqueue)
    requires HeapOk(m) && PrevsOk(m) && EnqueueOk(m, l, o) && o.pc == Walk
    ensures Buf(m, o.buf).prev.To?
  {
    hide HeapOk, AllHandled, DataOf, TailOrd;
    assert PrevOk(m, Ord(m, o.buf));
  }

  /** The slot of a claimed location is still EMPTY when its enqueue looks, so the item is never dropped. */
  lemma CheckInv(s: State, l: nat)
    requires Inv(s) && l < |s.ops| && s.ops[l].pc == Check
    ensures ProducerStep(s, l).ops[l].pc == Write
    ensures Inv(ProducerStep(s, l))
  {
    hide Inv, Main, Ord, TailOrd, BufNo, IdxOf, DataOf, StateOf, LocOf;
    var o := s.ops[l];
    OwnSlot(s, l);
    OpOk(s, l);
    LocalsFrame(s, l, o.(pc := Write));
  }

  lemma OpOk(s: State, l: nat)
    requires Inv(s) && l < |s.ops|
    ensures HeapOk(s.m) && EnqueueOk(s.m, l, s.ops[l])
  {
    hide HeapOk, EnqueueOk, NextsOk, PrevsOk, PrevsLinked, FreedOk, HeadOk, TailOk, SeenOk, SlotsOk, OutOk, ConsumerOk, RescanSeen;
  }

  /** From Check to Publish an enqueue holds the buffer of its location. */
  lemma OwnBuffer(m: Memory, l: nat, o: Enqueue)
    requires HeapOk(m) && EnqueueOk(m, l, o) && (o.pc == Check || o.pc == Write || o.pc == Publish)
    ensures Main(m, o.buf) && Ord(m, o.buf) == BufNo(l) < |m.chain|
    ensures Kth(m, BufNo(l)) == Buf(m, o.buf) && |Buf(m, o.buf).slots| == N
    ensures l - Base(Buf(m, o.buf)) == IdxOf(l) && LocOf(m, o.buf, IdxOf(l)) == l && IdxOf(l) < N
    ensures o.pc == Publish ==> DataOf(m, l) == o.item
  {
    hide DataOf;
  }

  lemma HeadBehind(s: State, l: nat)
    requires Inv(s) && StateOf(s.m, l) == EMPTY
    ensures HeadLoc(s.m) <= l
  {
    hide HeapOk, NextsOk, PrevsOk, PrevsLinked, FreedOk, ProducersOk, OutOk, ConsumerOk, RescanSeen, StateOf, HeadLoc;
  }

  /** From Check to Publish an enqueue holds the live buffer of its location, whose slot is EMPTY. */
  lemma OwnSlot(s: State, l: nat)
    requires Inv(s) && l < |s.ops|
    requires s.ops[l].pc == Check || s.ops[l].pc == Write || s.ops[l].pc == Publish
    ensures Main(s.m, s.ops[l].buf) && Ord(s.m, s.ops[l].buf) == BufNo(l)
    ensures l - Base(Buf(s.m, s.ops[l].buf)) == IdxOf(l)
    ensures LocOf(s.m, s.ops[l].buf, IdxOf(l)) == l && IdxOf(l) < N
    ensures Touchable(Buf(s.m, s.ops[l].buf), IdxOf(l))
    ensures Cell(Buf(s.m, s.ops[l].buf), IdxOf(l)).state == EMPTY == StateOf(s.m, l)
    ensures s.ops[l].pc == Publish ==> Cell(Buf(s.m, s.ops[l].buf), IdxOf(l)).data == s.ops[l].item
    ensures HeadLoc(s.m) <= l
  {
    hide Inv, HeapOk, EnqueueOk, Main, Ord, Base, BufNo, IdxOf, LocOf, HeadLoc, AllHandled;
    OpOk(s, l);
    OwnBuffer(s.m, l, s.ops[l]);
    PendingBuffer(s, l);
    HeadBehind(s, l);
  }

  /** Before publishing, an enqueue writes its item into the EMPTY slot of its own location. */
  lemma WriteInv(s: State, l: nat)
    requires Inv(s) && l < |s.ops| && s.ops[l].pc == Write
    ensures Inv(ProducerStep(s, l))
  {
    hide Inv;
    var o := s.ops[l];
    OwnSlot(s, l);
    FillInv(s, l, Slot(o.item, EMPTY), o.(pc := Publish));
  }

  lemma PublishInv(s: State, l: nat)
    requires Inv(s) && l < |s.ops| && s.ops[l].pc == Publish
    ensures Inv(ProducerStep(s, l))
  {
    hide Inv;
    var o := s.ops[l];
    OwnSlot(s, l);
    FillInv(s, l, Slot(o.item, SET), o.(pc := if IdxOf(l) == N - 2 && o.last then Extend else Done));
  }

  /** A store into an EMPTY slot leaves the head, the deliveries and the consumer alone. */
  lemma FillHead(m: Memory, p: nat, i: nat, x: Slot, outLoc: seq<nat>)
    requires HeapOk(m) && HeadOk(m) && OutSetOk(m, outLoc) && Main(m, p) && i < N
    requires Cell(m.heap[p], i).state == EMPTY && x.state != HANDLED
    ensures HeapOk(Store(m, p, PutCell(m.heap[p], i, x)))
    ensures HeadOk(Store(m, p, PutCell(m.heap[p], i, x)))
    ensures OutSetOk(Store(m, p, PutCell(m.heap[p], i, x)), outLoc)
  {
    var b := PutCell(m.heap[p], i, x);
    var m' := Store(m, p, b);
    SlotStore(m, p, i, x);
    ShapeKept(m, p, b, Null);
    assert forall q :: 0 <= q < |m'.heap| ==> m'.heap[q].head == m.heap[q].head;
    assert HeadLoc(m') == HeadLoc(m);
    forall l: nat ensures l in outLoc <==> Consumed(m', l) { assert Consumed(m, l) == Consumed(m', l); }
  }

  lemma EnqueueKept(m: Memory, m': Memory, l: nat, o: Enqueue)
    requires EnqueueOk(m, l, o)
    requires forall q :: Main(m, q) ==> Main(m', q) && Ord(m', q) == Ord(m, q)
    requires m'.tailOfQueue == m.tailOfQueue && Main(m, m.tailOfQueue) && m'.chain == m.chain
    requires DataOf(m', l) == DataOf(m, l)
    ensures EnqueueOk(m', l, o)
  {
    hide Main, DataOf, BufNo, IdxOf, Ord;
    assert TailOrd(m') == TailOrd(m);
  }

  lemma FillEnqueues(m: Memory, ops: seq<Enqueue>, l: nat, x: Slot, o: Enqueue)
    requires HeapOk(m) && EnqueuesOk(m, ops) && l < |ops|
    requires Main(m, o.buf) && LocOf(m, o.buf, IdxOf(l)) == l
    requires SameShape(m, o.buf, PutCell(Buf(m, o.buf), IdxOf(l), x))
    requires EnqueueOk(Store(m, o.buf, PutCell(Buf(m, o.buf), IdxOf(l), x)), l, o)
    ensures EnqueuesOk(Store(m, o.buf, PutCell(Buf(m, o.buf), IdxOf(l), x)), ops[l := o])
  {
    hide EnqueueOk, SameShape, PutCell, BufNo, LocOf;
    SlotStore(m, o.buf, IdxOf(l), x);
    var b := PutCell(m.heap[o.buf], IdxOf(l), x);
    var m' := Store(m, o.buf, b);
    ShapeKept(m, o.buf, b, Null);
    forall y | 0 <= y < |ops| && y != l ensures EnqueueOk(m', y, ops[y]) {
      EnqueueKept(m, m', y, ops[y]);
    }
  }

  lemma FillSlots(m: Memory, ops: seq<Enqueue>, l: nat, x: Slot, o: Enqueue)
    requires HeapOk(m) && SlotsOk(m, ops) && l < |ops|
    requires Main(m, o.buf) && LocOf(m, o.buf, IdxOf(l)) == l
    requires x.state != EMPTY <==> Published(o)
    ensures SlotsOk(Store(m, o.buf, PutCell(Buf(m, o.buf), IdxOf(l), x)), ops[l := o])
  {
    SlotStore(m, o.buf, IdxOf(l), x);
  }

  /** The result of storing `x` into the slot of `l` and updating the enqueue of `l` to `o`. */
  function Filled(s: State, l: nat, x: Slot, o: Enqueue): State
    requires l < |s.ops|
  {
    SetOp(s, l, o).(m := Store(s.m, o.buf, PutCell(Buf(s.m, o.buf), IdxOf(l), x)))
  }

  /** The step an enqueue takes on the EMPTY slot of its own location. */
  predicate FillStep(s: State, l: nat, x: Slot, o: Enqueue) {
    && l < |s.ops|
    && (s.ops[l].pc == Write || s.ops[l].pc == Publish)
    && o == s.ops[l].(pc := o.pc)
    && (if x.state == EMPTY then o.pc == Publish else x.state == SET && (o.pc == Done || o.pc == Extend))
    && x.data == o.item
    && (o.pc == Extend ==> IdxOf(l) == N - 2)
    && (o.pc == Done && IdxOf(l) == N - 2 ==> !o.last)
  }

  lemma FillOwn(s: State, l: nat, x: Slot, o: Enqueue)
    requires Inv(s) && FillStep(s, l, x, o)
    ensures EnqueueOk(Filled(s, l, x, o).m, l, o)
  {
    hide Inv, HeapOk, EnqueueOk, Main, Ord, TailOrd, BufNo, IdxOf, DataOf, StateOf, PutCell, Cell, SameShape, Evolves, LocOf;
    OwnSlot(s, l);
    OpOk(s, l);
    SlotStore(s.m, o.buf, IdxOf(l), x);
    FillShape(s, l, x, o);
    TailInChain(s.m);
    MainInHeap(s.m, o.buf);
    ShapeKept(s.m, o.buf, PutCell(Buf(s.m, o.buf), IdxOf(l), x), Null);
    FillMoves(s.m, Filled(s, l, x, o).m, l, s.ops[l], o);
  }

  lemma TailInChain(m: Memory)
    requires HeapOk(m)
    ensures TailOrd(m) < |m.chain|
  {
  }

  lemma MainInHeap(m: Memory, p: nat)
    requires Main(m, p)
    ensures p < |m.heap| && Buf(m, p) == m.heap[p]
  {
  }

  lemma FillMoves(m: Memory, m': Memory, l: nat, o: Enqueue, o': Enqueue)
    requires EnqueueOk(m, l, o) && (o.pc == Write || o.pc == Publish) && o' == o.(pc := o'.pc)
    requires o'.pc == Publish || o'.pc == Done || o'.pc == Extend
    requires o'.pc == Extend ==> IdxOf(l) == N - 2
    requires o'.pc == Done && IdxOf(l) == N - 2 ==> !o'.last
    requires Main(m', o.buf) && Ord(m', o.buf) == Ord(m, o.buf) && TailOrd(m') == TailOrd(m) < |m.chain|
    requires m'.chain == m.chain && DataOf(m', l) == o.item
    ensures EnqueueOk(m', l, o')
  {
    hide Main, Ord, TailOrd, BufNo, IdxOf, DataOf;
  }

  lemma FillOps(s: State, l: nat, x: Slot, o: Enqueue)
    requires Inv(s) && FillStep(s, l, x, o)
    ensures TailOk(s.m, Filled(s, l, x, o).ops, s.appender)
    ensures SeenOk(Filled(s, l, x, o).ops)
    ensures OutItemsOk(Filled(s, l, x, o).ops, s.out, s.outLoc)
  {
    hide MemoryOk, EnqueuesOk, SlotsOk, OutSetOk, ConsumerOk, RescanSeen, SeenOk, OutItemsOk;
    HistoryKept(s, l, o);
  }

  lemma FillShape(s: State, l: nat, x: Slot, o: Enqueue)
    requires Inv(s) && FillStep(s, l, x, o)
    ensures Main(s.m, o.buf)
    ensures SameShape(s.m, o.buf, PutCell(Buf(s.m, o.buf), IdxOf(l), x))
    ensures Evolves(s.m, Filled(s, l, x, o).m)
    ensures TailOrd(Filled(s, l, x, o).m) == TailOrd(s.m)
  {
    hide Inv;
    OwnSlot(s, l);
  }

  lemma FillInv(s: State, l: nat, x: Slot, o: Enqueue)
    requires Inv(s) && FillStep(s, l, x, o)
    ensures Inv(Filled(s, l, x, o))
  {
    hide HeapOk, NextsOk, PrevsOk, PrevsLinked, FreedOk, HeadOk, EnqueuesOk, EnqueueOk, SeenOk, SlotsOk,
         OutSetOk, Distinct, OutItemsOk, ConsumerOk, SameShape, Evolves, PutCell, Cell, BufNo, IdxOf, TailOrd;
    var m, p, i := s.m, o.buf, IdxOf(l);
    var s' := Filled(s, l, x, o);
    OwnSlot(s, l);
    FillOwn(s, l, x, o);
    FillOps(s, l, x, o);
    FillShape(s, l, x, o);
    FillHead(m, p, i, x, s.outLoc);
    EvolvesConsumer(m, s'.m, s.c);
    ShapeFrame(m, p, PutCell(m.heap[p], i, x), Unlinked(s.c), Bypassed(s.c));
    FillEnqueues(m, s.ops, l, x, o);
    FillSlots(m, s.ops, l, x, o);
    if s.c.pc == Rescan || s.c.pc == Deliver {
      FillRescan(s, l, x, o);
    }
  }

  lemma FillRescan(s: State, l: nat, x: Slot, o: Enqueue)
    requires Inv(s) && FillStep(s, l, x, o) && HeapOk(Filled(s, l, x, o).m)
    requires s.c.pc == Rescan || s.c.pc == Deliver
    ensures RescanSeen(Filled(s, l, x, o).m, Filled(s, l, x, o).ops, s.c, s.outLoc)
  {
    hide NextsOk, PrevsOk, PrevsLinked, FreedOk, HeadOk, EnqueuesOk, SeenOk, SlotsOk, OutOk, Evolves, HeapOk, RescanAt;
    FillShape(s, l, x, o);
    EvolvesRescan(s.m, Filled(s, l, x, o).m, s.c);
  }
}
