/** Deleted buffers: what is on the garbage list or deleted is out of everybody's reach. */
module QueueReclaim {
  import opened QueueModel
  import opened QueueInvariant
  import opened QueueMemory
  import opened QueueProducer
  import opened QueueAppend
  import opened QueueConsumer
  import opened QueueDeliver
  import opened QueueFold

  /** A folded buffer, or a stray one that was linked behind a folded buffer. */
  predicate Loose(m: Memory, p: nat) {
    p < |m.heap| && (m.heap[p].freed || !Main(m, p))
  }

  /** Entry `i` of the garbage list is loose and leads to the next entry. */
  predicate BinAt(m: Memory, i: nat)
    requires i < |m.bin|
  {
    Loose(m, m.bin[i]) && Buf(m, m.bin[i]).next == if i + 1 < |m.bin| then To(m.bin[i + 1]) else Null
  }

  /** `bin` is the garbage list: loose buffers, no two alike, each leading to the next one. */
  ghost predicate BinOk(m: Memory) {
    && m.garbage == (if m.bin == [] then Null else To(m.bin[0]))
    && (forall i :: 0 <= i < |m.bin| ==> BinAt(m, i))
    && (forall i, j :: 0 <= i < j < |m.bin| ==> m.bin[i] != m.bin[j])
  }

  /** Only loose buffers and buffers the head has left are ever deleted. */
  ghost predicate ReclaimedOk(m: Memory) {
    forall p :: p in m.reclaimed ==> p < |m.heap| && (Loose(m, p) || Ord(m, p) < HeadOrd(m))
  }

  ghost predicate SpareOk(m: Memory) {
    BinOk(m) && ReclaimedOk(m)
  }

  /** A step that does not touch the garbage list and keeps every buffer where it is. */
  ghost predicate Calm(m: Memory, m': Memory) {
    && m'.chain == m.chain && m'.bin == m.bin && m'.reclaimed == m.reclaimed && m'.garbage == m.garbage
    && m'.headOfQueue == m.headOfQueue && |m'.heap| == |m.heap|
    && (forall p :: 0 <= p < |m.heap| ==> m'.heap[p].pos == m.heap[p].pos && m'.heap[p].freed == m.heap[p].freed)
    && (forall p :: 0 <= p < |m.heap| && Loose(m, p) ==> m'.heap[p].next == m.heap[p].next)
  }

  lemma CalmOk(m: Memory, m': Memory)
    requires SpareOk(m) && Calm(m, m')
    ensures SpareOk(m')
  {
    forall p | Loose(m, p) ensures Loose(m', p) && Buf(m', p).next == Buf(m, p).next {}
    forall p ensures Ord(m', p) == Ord(m, p) {}
    hide Main, Ord, Buf;
    forall i | 0 <= i < |m.bin| ensures BinAt(m', i) {
      assert BinAt(m, i);
    }
  }

  lemma StoreCalm(m: Memory, p: nat, b: Buffer)
    requires b.pos == Buf(m, p).pos && b.freed == Buf(m, p).freed
    requires b.next == Buf(m, p).next || !Loose(m, p)
    ensures Calm(m, Store(m, p, b))
  {
  }

  // ---------- Producers ----------

  lemma LinkLoose(m: Memory, p: nat)
    requires HeapOk(m) && p < |m.heap|
    ensures forall q :: Loose(m, q) ==> Loose(LinkNew(m, p), q)
    ensures !IsLast(m, p) ==> Loose(LinkNew(m, p), |m.heap|)
    ensures HeadOrd(LinkNew(m, p)) == HeadOrd(m) && forall q :: 0 <= q < |m.heap| ==> Ord(LinkNew(m, p), q) == Ord(m, q)
  {
    hide BufferOk;
  }

  lemma LastNotLoose(m: Memory, p: nat)
    requires HeapOk(m) && IsLast(m, p)
    ensures Main(m, p)
  {
  }

  /** A new buffer goes onto the garbage list exactly when it is linked behind its last one. */
  lemma LinkSpare(m: Memory, p: nat)
    requires HeapOk(m) && SpareOk(m) && p < |m.heap| && m.heap[p].next.Null? && (IsLast(m, p) ==> !m.heap[p].freed)
    ensures SpareOk(LinkNew(m, p))
  {
    hide HeapOk, Loose, IsLast, Main, Ord, HeadOrd;
    LinkLoose(m, p);
    if IsLast(m, p) { LastNotLoose(m, p); }
    LinkBin(m, p);
    var m' := LinkNew(m, p);
    forall q | q in m'.reclaimed ensures q < |m'.heap| && (Loose(m', q) || Ord(m', q) < HeadOrd(m')) {}
  }

  lemma LinkBin(m: Memory, p: nat)
    requires BinOk(m) && p < |m.heap| && m.heap[p].next.Null?
    requires forall q :: Loose(m, q) ==> Loose(LinkNew(m, p), q)
    requires IsLast(m, p) ==> Main(m, p) && !m.heap[p].freed
    requires !IsLast(m, p) ==> Loose(LinkNew(m, p), |m.heap|)
    ensures BinOk(LinkNew(m, p))
  {
    hide Main, IsLast;
    var m' := LinkNew(m, p);
    forall i | 0 <= i < |m.bin| ensures m.bin[i] < |m.heap| && (m.bin[i] == p ==> i == |m.bin| - 1) {
      assert BinAt(m, i);
    }
    forall i | 0 <= i < |m'.bin| ensures BinAt(m', i) {
      if i < |m.bin| {
        assert BinAt(m, i);
        assert m.bin[i] != p ==> m'.heap[m.bin[i]] == m.heap[m.bin[i]];
        assert m.bin[i] == p ==> Buf(m', p).next == To(|m.heap|) && m'.bin == m.bin + [|m.heap|];
      } else {
        assert BinAt(m, |m.bin| - 1);
        assert m'.bin[i] == |m.heap| && Buf(m', |m.heap|).next == Null;
      }
    }
  }

  lemma CasSpare(s: State, l: nat, won: ProducerPC, lost: ProducerPC)
    requires Inv(s) && SpareOk(s.m) && l < |s.ops| && (s.ops[l].pc == Append || s.ops[l].pc == Extend)
    ensures SpareOk(CasNext(s, l, won, lost).m)
  {
    hide Inv, SpareOk, LinkNew, Main;
    HoldsMain(s, l);
    NullNext(s, s.ops[l].buf);
    OpOk(s, l);
    if s.ops[l].buf < |s.m.heap| && s.m.heap[s.ops[l].buf].next.Null? { LinkSpare(s.m, s.ops[l].buf); }
  }

  lemma TailCalm(s: State, l: nat, resume: ProducerPC)
    requires l < |s.ops|
    ensures Calm(s.m, CasTail(s, l, resume).m)
  {
  }

  lemma ProducerSpare(s: State, l: nat)
    requires Inv(s) && SpareOk(s.m) && l < |s.ops|
    ensures SpareOk(ProducerStep(s, l).m)
  {
    hide Inv, SpareOk, Calm, CasNext, CasTail, Store, PutCell, Cell, Touchable, Loose;
    var o := s.ops[l];
    var b, i := Buf(s.m, o.buf), l - Base(Buf(s.m, o.buf));
    match o.pc
    case Append => CasSpare(s, l, Swing, Load);
    case Extend => CasSpare(s, l, ExtendSwing, Done);
    case Swing => TailCalm(s, l, Load); CalmOk(s.m, CasTail(s, l, Load).m);
    case ExtendSwing => TailCalm(s, l, Done); CalmOk(s.m, CasTail(s, l, Done).m);
    case Write => PutCalm(s.m, o.buf, i, Cell(b, i).(data := o.item));
    case Publish => PutCalm(s.m, o.buf, i, Cell(b, i).(state := SET));
    case _ =>
  }

  lemma PutCalm(m: Memory, p: nat, i: int, x: Slot)
    requires SpareOk(m)
    ensures SpareOk(Store(m, p, PutCell(Buf(m, p), i, x)))
  {
    hide SpareOk, Calm, Store, Loose;
    StoreCalm(m, p, PutCell(Buf(m, p), i, x));
    CalmOk(m, Store(m, p, PutCell(Buf(m, p), i, x)));
  }

  // ---------- The consumer ----------

  /** Deleting the first buffer of the garbage list. */
  lemma PopSpare(m: Memory)
    requires SpareOk(m) && m.garbage.To?
    ensures SpareOk(Popped(m))
  {
    var m' := Popped(m);
    forall p ensures Loose(m', p) == Loose(m, p) && Ord(m', p) == Ord(m, p) {}
    assert BinAt(m, 0);
    forall i | 0 <= i < |m'.bin| ensures BinAt(m', i) { assert BinAt(m, i + 1); }
  }

  /** Deleting the head buffer behind the new head. */
  lemma SwitchSpare(m: Memory, nx: nat)
    requires HeapOk(m) && SpareOk(m) && HeadOrd(m) < Ord(m, nx)
    ensures SpareOk(Switched(m, nx))
  {
    var m' := Switched(m, nx);
    forall p ensures Loose(m', p) == Loose(m, p) && Ord(m', p) == Ord(m, p) {}
    forall i | 0 <= i < |m'.bin| ensures BinAt(m', i) { assert BinAt(m, i); }
  }

  /** A folded buffer becomes the first of the garbage list. */
  lemma FoldSpare(m: Memory, p: nat)
    requires SpareOk(m) && p < |m.heap| && !Loose(m, p)
    ensures SpareOk(Folded(m, p))
  {
    var m' := Folded(m, p);
    forall q ensures Loose(m', q) == (Loose(m, q) || q == p) && Ord(m', q) == Ord(m, q) {}
    forall i | 0 <= i < |m.bin| ensures m.bin[i] != p { assert BinAt(m, i); }
    forall i | 0 <= i < |m'.bin| ensures BinAt(m', i) {
      if i > 0 { assert BinAt(m, i - 1); }
    }
    assert HeadOrd(m') == HeadOrd(m);
  }

  lemma AdvanceSpare(s: State, r: Resume)
    requires SpareOk(s.m)
    ensures SpareOk(Advance(s, r).m)
  {
    hide SpareOk, Calm, Store, Loose;
    var h := Buf(s.m, s.m.headOfQueue);
    StoreCalm(s.m, s.m.headOfQueue, h.(head := h.head + 1));
    CalmOk(s.m, Store(s.m, s.m.headOfQueue, h.(head := h.head + 1)));
  }

  lemma MoveSpare(s: State)
    requires Inv(s) && SpareOk(s.m) && s.c.pc.MovePop?
    ensures SpareOk(ConsumerStep(s).m)
  {
    hide Inv, SpareOk, Popped, Switched;
    if s.m.garbage.To? { PopSpare(s.m); }
    MoveTarget(s);
    SwitchSpare(s.m, s.c.pc.nx);
  }

  lemma MoveTarget(s: State)
    requires Inv(s) && s.c.pc.MovePop?
    ensures HeapOk(s.m) && HeadOrd(s.m) < Ord(s.m, s.c.pc.nx)
  {
    hide HeapOk, NextsOk, PrevsOk, PrevsLinked, FreedOk, HeadOk, ProducersOk, OutOk, RescanSeen, Ord, Main;
    HeadFacts(s);
  }

  lemma FoldStepSpare(s: State)
    requires Inv(s) && SpareOk(s.m) && (s.c.pc.FoldPrev? || s.c.pc.FoldSkip? || s.c.pc.FoldFree?)
    ensures SpareOk(ConsumerStep(s).m)
  {
    hide Inv, SpareOk, Folded, Store, Calm, Main, Ord, FoldSite;
    var nx, t := s.c.pc.nx, Buf(s.m, s.c.buf);
    if s.c.pc.FoldFree? {
      FoldedNotLoose(s);
      FoldSpare(s.m, s.c.buf);
    } else {
      SiteAtFold(s, nx);
      SiteNotLoose(s.m, s.c.buf, t.prev.id, nx);
      if s.c.pc.FoldPrev? {
        StoreCalm(s.m, nx, Buf(s.m, nx).(prev := t.prev));
        CalmOk(s.m, Store(s.m, nx, Buf(s.m, nx).(prev := t.prev)));
      } else {
        StoreCalm(s.m, t.prev.id, Buf(s.m, t.prev.id).(next := To(nx)));
        CalmOk(s.m, Store(s.m, t.prev.id, Buf(s.m, t.prev.id).(next := To(nx))));
      }
    }
  }

  lemma SiteNotLoose(m: Memory, buf: nat, p: nat, nx: nat)
    requires FoldSite(m, buf, p, nx)
    ensures !Loose(m, p)
  {
  }

  lemma FoldedNotLoose(s: State)
    requires Inv(s) && s.c.pc.FoldFree?
    ensures s.c.buf < |s.m.heap| && !Loose(s.m, s.c.buf)
  {
    hide MemoryOk, ProducersOk, OutOk, RescanSeen, AllHandled;
  }

  lemma ConsumerSpare(s: State)
    requires Inv(s) && SpareOk(s.m)
    ensures SpareOk(ConsumerStep(s).m)
  {
    hide Inv, SpareOk, Store, PutCell, Cell, Touchable, Popped, Switched, Folded, Advance, Buf;
    var h, t := Buf(s.m, s.m.headOfQueue), Buf(s.m, s.c.buf);
    match s.c.pc
    case MovePop(_, _) => MoveSpare(s);
    case FoldPrev(_) => FoldStepSpare(s);
    case FoldSkip(_) => FoldStepSpare(s);
    case FoldFree(_) => FoldStepSpare(s);
    case Peek => AdvanceSpare(s, ToPeek);
    case Take => AdvanceSpare(Emit(s, h, h.head), ToTrue);
    case Deliver =>
      var x := Cell(t, s.c.idx).(state := HANDLED);
      PutCalm(s.m, s.c.buf, s.c.idx, x);
      AdvanceSpare(Emit(s, t, s.c.idx).(m := Store(s.m, s.c.buf, PutCell(t, s.c.idx, x))), ToTrue);
    case _ =>
  }

  // ---------- Slots in use ----------

  lemma NotReclaimed(m: Memory, p: nat)
    requires SpareOk(m) && Main(m, p) && !Buf(m, p).freed && HeadOrd(m) <= Ord(m, p)
    ensures p !in m.reclaimed
  {
  }

  lemma OwnBehindHead(m: Memory, l: nat)
    requires HeadLoc(m) <= l
    ensures HeadOrd(m) <= BufNo(l)
  {
  }

  lemma ProducerSlots(s: State, l: nat)
    requires Inv(s) && SpareOk(s.m) && l < |s.ops| && SlotsUsed(s, DoProduce(l)).To?
    ensures var p := SlotsUsed(s, DoProduce(l)).id; p !in s.m.reclaimed && !Buf(s.m, p).freed
  {
    hide Inv, SpareOk, Main, HeadLoc, HeadOrd, Ord, BufNo, StateOf, Cell;
    OwnSlot(s, l);
    OwnBehindHead(s.m, l);
    NotReclaimed(s.m, s.ops[l].buf);
  }

  lemma ConsumerSlots(s: State)
    requires Inv(s) && SpareOk(s.m) && SlotsUsed(s, DoConsume).To?
    ensures var p := SlotsUsed(s, DoConsume).id; p !in s.m.reclaimed && !Buf(s.m, p).freed
  {
    hide MemoryOk, ProducersOk, OutOk, RescanSeen, SpareOk, HeadLoc, Main, Cell;
    HeadFacts(s);
    NotReclaimed(s.m, s.m.headOfQueue);
    if SlotsUsed(s, DoConsume) != To(s.m.headOfQueue) {
      NotReclaimed(s.m, SlotsUsed(s, DoConsume).id);
    }
  }

  /** No step uses slots that fold or moveToNextBuffer has deleted, so every step is what its thread does. */
  lemma SlotsAlive(s: State, a: Action)
    requires Inv(s) && SpareOk(s.m) && Enabled(s, a)
    ensures SlotsUsed(s, a).To? ==> SlotsUsed(s, a).id !in s.m.reclaimed && !Buf(s.m, SlotsUsed(s, a).id).freed
    ensures a.DoProduce? ==> Act(s, a) == ProducerStep(s, a.l)
    ensures a.DoConsume? ==> Act(s, a) == ConsumerStep(s)
    ensures a.DoClaim? ==> Act(s, a) == Claim(s, a.item)
  {
    hide Inv, SpareOk, SlotsUsed, ProducerStep, ConsumerStep;
    if a.DoClaim? { ClaimUsesNone(s, a); }
    if a.DoProduce? && SlotsUsed(s, a).To? { ProducerSlots(s, a.l); }
    if a.DoConsume? && SlotsUsed(s, a).To? { ConsumerSlots(s); }
  }

  lemma ClaimUsesNone(s: State, a: Action)
    requires Enabled(s, a) && a.DoClaim?
    ensures SlotsUsed(s, a) == Null
  {
  }

  lemma SpareStep(s: State, a: Action)
    requires Inv(s) && SpareOk(s.m) && Enabled(s, a)
    ensures SpareOk(Act(s, a).m)
  {
    hide Inv, SpareOk, SlotsUsed, ProducerStep, ConsumerStep, Act;
    SlotsAlive(s, a);
    match a
    case DoClaim(_) =>
    case DoProduce(l) => ProducerSpare(s, l);
    case DoConsume => ConsumerSpare(s);
  }

  lemma InitialSpare()
    ensures SpareOk(Initial().m)
  {
  }
}
