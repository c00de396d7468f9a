/** How stores into a buffer affect what the memory invariant says. */
module QueueMemory {
  import opened QueueModel
  import opened QueueInvariant

  /** `b` differs from the buffer at `p` at most in its slots and its head, and keeps HANDLED slots. */
  ghost predicate SameShape(m: Memory, p: nat, b: Buffer)
    requires p < |m.heap|
  {
    var a := m.heap[p];
    && b.next == a.next && b.prev == a.prev && b.pos == a.pos && b.freed == a.freed
    && |b.slots| == |a.slots|
    && forall i :: 0 <= i < N && Cell(a, i).state == HANDLED ==> Cell(b, i).state == HANDLED
  }

  /** A store that keeps the shape of the buffer changes no link, position or folded buffer of the chain. */
  lemma ShapeKept(m: Memory, p: nat, b: Buffer, f: Link)
    requires HeapOk(m) && p < |m.heap| && SameShape(m, p, b)
    ensures HeapOk(Store(m, p, b))
    ensures forall q :: Main(m, q) ==> Main(Store(m, p, b), q) && Ord(Store(m, p, b), q) == Ord(m, q)
    ensures forall k :: 0 <= k < |m.chain| ==>
      && Kth(Store(m, p, b), k).next == Kth(m, k).next
      && Kth(Store(m, p, b), k).prev == Kth(m, k).prev
      && Kth(Store(m, p, b), k).freed == Kth(m, k).freed
    ensures forall k :: 0 <= k < |m.chain| ==> Gone(Store(m, p, b), f, k) == Gone(m, f, k)
    ensures forall k :: 0 <= k < |m.chain| && AllHandled(m, k) ==> AllHandled(Store(m, p, b), k)
  {
    var m' := Store(m, p, b);
    forall k | 0 <= k < |m.chain| && AllHandled(m, k) ensures AllHandled(m', k) {
      forall i | 0 <= i < N ensures Cell(Kth(m', k), i).state == HANDLED {
        assert Cell(Kth(m, k), i).state == HANDLED;
      }
    }
  }

  lemma ShapeNexts(m: Memory, p: nat, b: Buffer, f: Link)
    requires HeapOk(m) && NextsOk(m, f) && p < |m.heap| && SameShape(m, p, b)
    ensures NextsOk(Store(m, p, b), f)
  {
    var m' := Store(m, p, b);
    ShapeKept(m, p, b, f);
    forall k | 0 <= k < |m.chain| && !Gone(m', f, k) ensures NextOk(m', f, k) {
      assert NextOk(m, f, k);
    }
  }

  lemma ShapePrevs(m: Memory, p: nat, b: Buffer, f: Link)
    requires HeapOk(m) && PrevsOk(m) && PrevsLinked(m, f) && p < |m.heap| && SameShape(m, p, b)
    ensures PrevsOk(Store(m, p, b)) && PrevsLinked(Store(m, p, b), f)
  {
    var m' := Store(m, p, b);
    ShapeKept(m, p, b, f);
    forall k | 0 < k < |m.chain| ensures PrevOk(m', k) {
      assert PrevOk(m, k);
    }
    forall k | 0 <= k < |m.chain| && HeadOrd(m') < k && !Gone(m', f, k) ensures PrevLinked(m', f, k) {
      assert PrevLinked(m, f, k);
    }
  }

  /** Links, positions and folded buffers survive a store that keeps the shape of the buffer. */
  lemma ShapeFrame(m: Memory, p: nat, b: Buffer, unlinked: Link, bypassed: Link)
    requires HeapOk(m) && NextsOk(m, unlinked) && PrevsOk(m) && PrevsLinked(m, bypassed) && FreedOk(m)
    requires p < |m.heap| && SameShape(m, p, b)
    ensures HeapOk(Store(m, p, b))
    ensures NextsOk(Store(m, p, b), unlinked)
    ensures PrevsOk(Store(m, p, b)) && PrevsLinked(Store(m, p, b), bypassed)
    ensures FreedOk(Store(m, p, b))
  {
    ShapeKept(m, p, b, unlinked);
    ShapeNexts(m, p, b, unlinked);
    ShapePrevs(m, p, b, bypassed);
  }

  /** A store into slot `i` of a chain buffer changes the slot of exactly one location. */
  lemma SlotStore(m: Memory, p: nat, i: nat, x: Slot)
    requires HeapOk(m) && Main(m, p) && i < N
    ensures forall l: nat :: l != LocOf(m, p, i) ==>
      StateOf(Store(m, p, PutCell(m.heap[p], i, x)), l) == StateOf(m, l)
      && DataOf(Store(m, p, PutCell(m.heap[p], i, x)), l) == DataOf(m, l)
    ensures LocOf(m, p, i) >= 0
    ensures StateOf(m, LocOf(m, p, i)) == Cell(m.heap[p], i).state
    ensures DataOf(m, LocOf(m, p, i)) == Cell(m.heap[p], i).data
    ensures StateOf(Store(m, p, PutCell(m.heap[p], i, x)), LocOf(m, p, i)) == x.state
    ensures DataOf(Store(m, p, PutCell(m.heap[p], i, x)), LocOf(m, p, i)) == x.data
  {
    var m' := Store(m, p, PutCell(m.heap[p], i, x));
    var k := Ord(m, p);
    var l := LocOf(m, p, i);
    assert BufNo(l) == k && IdxOf(l) == i;
    assert Kth(m', k) == PutCell(m.heap[p], i, x);
    forall y: nat | y != l
      ensures StateOf(m', y) == StateOf(m, y) && DataOf(m', y) == DataOf(m, y)
    {
      if BufNo(y) < |m.chain| && m.chain[BufNo(y)] == p {
        assert BufNo(y) == k;
        assert IdxOf(y) != i;
      }
    }
  }

  /** Moving the head of the head buffer leaves every slot alone. */
  lemma HeadStore(m: Memory, h: nat)
    requires HeapOk(m)
    ensures forall l: nat ::
      StateOf(Store(m, m.headOfQueue, m.heap[m.headOfQueue].(head := h)), l) == StateOf(m, l)
      && DataOf(Store(m, m.headOfQueue, m.heap[m.headOfQueue].(head := h)), l) == DataOf(m, l)
  {
    var m' := Store(m, m.headOfQueue, m.heap[m.headOfQueue].(head := h));
    forall l: nat
      ensures StateOf(m', l) == StateOf(m, l) && DataOf(m', l) == DataOf(m, l)
    {
    }
  }

  /** Facts that depend on the buffers and the chain alone. */
  lemma SameHeapFacts(m: Memory, m': Memory)
    requires m'.heap == m.heap && m'.chain == m.chain
    ensures forall p :: Main(m', p) == Main(m, p)
    ensures forall p :: Buf(m', p) == Buf(m, p)
    ensures forall l: nat :: StateOf(m', l) == StateOf(m, l) && DataOf(m', l) == DataOf(m, l)
    ensures forall k :: 0 <= k < |m.chain| ==> Kth(m', k) == Kth(m, k) && AllHandled(m', k) == AllHandled(m, k)
  {
    hide BufNo, IdxOf, Cell;
    assert forall p :: Buf(m', p) == Buf(m, p);
    forall k | 0 <= k < |m.chain| ensures Kth(m', k) == Kth(m, k) && AllHandled(m', k) == AllHandled(m, k) {
      assert Kth(m', k) == Kth(m, k);
    }
  }

  lemma SameHeapNexts(m: Memory, m': Memory, f: Link)
    requires m'.heap == m.heap && m'.chain == m.chain && NextsOk(m, f)
    ensures NextsOk(m', f)
  {
    hide Main;
    SameHeapFacts(m, m');
    forall k | 0 <= k < |m.chain| ensures Gone(m', f, k) == Gone(m, f, k) {}
    forall k | 0 <= k < |m.chain| && !Gone(m', f, k) ensures NextOk(m', f, k) { assert NextOk(m, f, k); }
  }

  lemma SameHeapPrevs(m: Memory, m': Memory, f: Link)
    requires m'.heap == m.heap && m'.chain == m.chain && m'.headOfQueue == m.headOfQueue
    requires PrevsOk(m) && PrevsLinked(m, f)
    ensures PrevsOk(m') && PrevsLinked(m', f)
  {
    hide Main, AllHandled;
    SameHeapFacts(m, m');
    forall k | 0 <= k < |m.chain| ensures Gone(m', f, k) == Gone(m, f, k) {}
    forall k | 0 < k < |m.chain| ensures PrevOk(m', k) { assert PrevOk(m, k); }
    forall k | 0 <= k < |m.chain| && HeadOrd(m') < k && !Gone(m', f, k) ensures PrevLinked(m', f, k) {
      assert PrevLinked(m, f, k);
    }
  }
}
