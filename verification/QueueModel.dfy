/**
  The multi-producer single-consumer queue as a transition system.

  Every load, store, fetch_add and compare_exchange of a shared field is one atomic step (sequentially
  consistent); the purely local computation that follows it belongs to the same step.  The scheduler is free:
  a step of the system is a producer claiming a location, one step of any claimed enqueue, or one step of the
  single consumer.  An enqueue is named by the location it claimed, so any number of them can be in flight.
  Three statements delete slots: fold deletes those of the buffer it takes out (`freed`), and moveToNextBuffer
  deletes whole buffers, the old head and old garbage (`reclaimed`).  Touching slots after any of these, following a
  null link or leaving the slot array raises `fault`.  The other fields of a deleted buffer stay readable here.
  */
module QueueModel {

  // bufferSize
  const N: nat := 1620

  // The queue never inspects the elements it carries, so they are represented by the numbers naming them.
  type Item = int

  datatype SlotState = EMPTY | SET | HANDLED

  datatype Slot = Slot(data: Item, state: SlotState)

  datatype Link = Null | To(id: nat)

  datatype Buffer = Buffer(slots: seq<Slot>, next: Link, prev: Link, head: nat, pos: nat, freed: bool)

  /** Where an enqueue stands.  The comments name the shared access performed next. */
  datatype ProducerPC =
    | Load         // load tailOfQueue
    | Probe        // load tempTail->next
    | Append       // compare_exchange on tempTail->next
    | Swing        // compare_exchange on tailOfQueue
    | Walk         // load tempTail->prev
    | Check        // load the slot's state
    | Write        // store the slot's data
    | Publish      // store SET
    | Extend       // early allocation: compare_exchange on tempTail->next
    | ExtendSwing  // early allocation: compare_exchange on tailOfQueue
    | Done

  /** `buf`, `made` and `last` are tempTail, newBuffer and isLastBuffer.  `seen` is a history variable: the
      locations already published when this one was claimed. */
  datatype Enqueue = Enqueue(item: Item, pc: ProducerPC, buf: nat, made: nat, last: bool, seen: set<nat>)

  /** Which statement of dequeue called moveToNextBuffer. */
  datatype Resume = ToEnter | ToPeek | ToTrue

  datatype ConsumerPC =
    | Idle
    | Enter                           // the loop on a used-up head buffer
    | MoveTail(r: Resume)             // moveToNextBuffer: load tailOfQueue
    | MoveNext(r: Resume)             // moveToNextBuffer: load next
    | MovePop(nx: nat, r: Resume)     // moveToNextBuffer: drop old garbage, then switch buffers
    | Peek                            // the loop over HANDLED slots
    | AtTail                          // emptiness test: load tailOfQueue
    | AtEnd                           // emptiness test: load tail
    | Take                            // is the head slot SET?
    | Gap                             // is the head slot EMPTY?
    | ScanLook                        // Scan: loop test
    | ScanNote                        // Scan: advance and note whether the slot passed was HANDLED
    | ScanNext                        // Scan: follow next
    | FoldTail                        // fold: load tailOfQueue
    | FoldNext                        // fold: load next
    | FoldPrev(nx: nat)               // fold: next->prev = prev
    | FoldSkip(nx: nat)               // fold: prev->next = next
    | FoldFree(nx: nat)               // fold: delete the slots, push on the garbage list
    | Rescan                          // ReScan: one turn of the loop
    | Deliver                         // read the data, store HANDLED
    | Return(ok: bool)

  /** `buf` and `idx` are tempHeadOfQueue and tempHead, `sbuf` and `sidx` are scanHeadOfQueue and scanHead. */
  datatype Consumer = Consumer(pc: ConsumerPC, buf: nat, idx: nat, moved: bool, allHandled: bool, sbuf: nat, sidx: nat)

  /** The shared memory.  History variables: `chain` is the buffers ever reachable from the first one, in order of
      position, `bin` the buffers on the garbage list, and `reclaimed` the ones moveToNextBuffer has deleted. */
  datatype Memory = Memory(heap: seq<Buffer>, headOfQueue: nat, tailOfQueue: nat, garbage: Link, chain: seq<nat>,
                           bin: seq<nat>, reclaimed: set<nat>)

  /** `ops` holds one enqueue per claimed location, so `tail` is |ops|.  History variables: `out` and `outLoc` are
      the delivered items and their locations, `appender` is the enqueue that linked the last buffer of the chain. */
  datatype State = State(m: Memory, ops: seq<Enqueue>, c: Consumer, fault: bool,
                         out: seq<Item>, outLoc: seq<nat>, appender: nat)

  function NewBuffer(prev: Link, pos: nat): Buffer {
    Buffer(seq(N, _ => Slot(0, EMPTY)), Null, prev, 0, pos, false)
  }

  function Initial(): State {
    State(Memory([NewBuffer(Null, 1)], 0, 0, Null, [0], [], {}), [], Consumer(Idle, 0, 0, false, true, 0, 0), false, [], [], 0)
  }

  // Memory access; dangling values read as an arbitrary buffer or slot.

  function Buf(m: Memory, p: nat): Buffer {
    if p < |m.heap| then m.heap[p] else NewBuffer(Null, 1)
  }

  function Store(m: Memory, p: nat, b: Buffer): Memory {
    if p < |m.heap| then m.(heap := m.heap[p := b]) else m
  }

  predicate Touchable(b: Buffer, i: int) {
    !b.freed && 0 <= i < |b.slots|
  }

  function Cell(b: Buffer, i: int): Slot {
    if 0 <= i < |b.slots| then b.slots[i] else Slot(0, EMPTY)
  }

  function PutCell(b: Buffer, i: int, x: Slot): Buffer {
    if 0 <= i < |b.slots| then b.(slots := b.slots[i := x]) else b
  }

  function Crash(s: State): State {
    s.(fault := true)
  }

  // ---------- Producers ----------

  predicate Published(o: Enqueue) {
    o.pc == Extend || o.pc == ExtendSwing || o.pc == Done
  }

  /** fetch_add on tail: a new enqueue claims the next location. */
  function Claim(s: State, item: Item): State {
    var seen := set l | 0 <= l < |s.ops| && Published(s.ops[l]);
    s.(ops := s.ops + [Enqueue(item, Load, 0, 0, true, seen)])
  }

  function SetOp(s: State, l: nat, o: Enqueue): State
    requires l < |s.ops|
  {
    s.(ops := s.ops[l := o])
  }

  /** The first slot's location of the buffer, `prevSize` in the code. */
  function Base(b: Buffer): int {
    N * (b.pos - 1)
  }

  /** The exit of the first loop and the test of the second: which access follows once tempTail is `b`. */
  function Aim(l: nat, b: Buffer): ProducerPC {
    if l >= N * b.pos then Probe else if l < Base(b) then Walk else Check
  }

  /** A new buffer linked behind the one at `p`. */
  function LinkNew(m: Memory, p: nat): Memory
    requires p < |m.heap|
  {
    var id := |m.heap|;
    m.(heap := m.heap[p := m.heap[p].(next := To(id))] + [NewBuffer(To(p), m.heap[p].pos + 1)],
       chain := if IsLast(m, p) then m.chain + [id] else m.chain,
       bin := if m.bin != [] && m.bin[|m.bin| - 1] == p then m.bin + [id] else m.bin)
  }

  predicate IsLast(m: Memory, p: nat) {
    |m.chain| > 0 && m.chain[|m.chain| - 1] == p
  }

  /** compare_exchange(null, new buffer) on the next link of the enqueue's buffer. */
  function CasNext(s: State, l: nat, won: ProducerPC, lost: ProducerPC): State
    requires l < |s.ops|
  {
    var o := s.ops[l];
    if o.buf < |s.m.heap| && s.m.heap[o.buf].next.Null? then
      SetOp(s, l, o.(made := |s.m.heap|, pc := won))
        .(m := LinkNew(s.m, o.buf), appender := if IsLast(s.m, o.buf) then l else s.appender)
    else
      SetOp(s, l, o.(pc := lost))
  }

  /** compare_exchange(tempTail, new buffer) on tailOfQueue. */
  function CasTail(s: State, l: nat, resume: ProducerPC): State
    requires l < |s.ops|
  {
    var o := s.ops[l];
    var s' := SetOp(s, l, o.(pc := resume));
    if s.m.tailOfQueue == o.buf then s'.(m := s.m.(tailOfQueue := o.made)) else s'
  }

  /** The next atomic step of the enqueue that claimed location `l`. */
  function ProducerStep(s: State, l: nat): State
    requires l < |s.ops|
  {
    var o := s.ops[l];
    var b := Buf(s.m, o.buf);
    match o.pc
    case Load =>
      SetOp(s, l, o.(buf := s.m.tailOfQueue, pc := Aim(l, Buf(s.m, s.m.tailOfQueue))))
    case Probe =>
      SetOp(s, l, o.(pc := if b.next.Null? then Append else Load))
    case Append => CasNext(s, l, Swing, Load)
    case Swing => CasTail(s, l, Load)
    case Walk =>
      if b.prev.Null? then Crash(s)
      else
        var p := b.prev.id;
        SetOp(s, l, o.(buf := p, last := false, pc := if l < Base(Buf(s.m, p)) then Walk else Check))
    case Check =>
      if !Touchable(b, l - Base(b)) then Crash(s)
      else SetOp(s, l, o.(pc := if Cell(b, l - Base(b)).state == EMPTY then Write else Done))
    case Write =>
      if !Touchable(b, l - Base(b)) then Crash(s)
      else
        var i := l - Base(b);
        SetOp(s, l, o.(pc := Publish)).(m := Store(s.m, o.buf, PutCell(b, i, Cell(b, i).(data := o.item))))
    case Publish =>
      if !Touchable(b, l - Base(b)) then Crash(s)
      else
        var i := l - Base(b);
        SetOp(s, l, o.(pc := if i == N - 2 && o.last then Extend else Done))
          .(m := Store(s.m, o.buf, PutCell(b, i, Cell(b, i).(state := SET))))
    case Extend => CasNext(s, l, ExtendSwing, Done)
    case ExtendSwing => CasTail(s, l, Done)
    case Done => s
  }

  // ---------- Consumer ----------

  function Goto(s: State, pc: ConsumerPC): State {
    s.(c := s.c.(pc := pc))
  }

  /** Where dequeue continues when moveToNextBuffer returns `ok`. */
  function After(r: Resume, ok: bool): ConsumerPC {
    match r
    case ToEnter => if ok then Enter else Return(false)
    case ToPeek => if ok then Peek else Return(false)
    case ToTrue => Return(true)
  }

  /** headOfQueue->head++ followed by a call of moveToNextBuffer. */
  function Advance(s: State, r: Resume): State {
    var h := Buf(s.m, s.m.headOfQueue);
    var s' := s.(m := Store(s.m, s.m.headOfQueue, h.(head := h.head + 1)));
    Goto(s', if h.head + 1 >= N then MoveTail(r) else After(r, true))
  }

  /** Record that the item in slot `i` of buffer `b` is handed to the caller. */
  function Emit(s: State, b: Buffer, i: nat): State {
    s.(out := s.out + [Cell(b, i).data], outLoc := s.outLoc + [if b.pos > 0 then N * (b.pos - 1) + i else i])
  }

  /** moveToNextBuffer deletes the first buffer of the garbage list. */
  function Popped(m: Memory): Memory
    requires m.garbage.To?
  {
    m.(garbage := Buf(m, m.garbage.id).next, bin := if m.bin == [] then [] else m.bin[1..],
       reclaimed := m.reclaimed + {m.garbage.id})
  }

  /** moveToNextBuffer deletes the head buffer and moves on to `nx`. */
  function Switched(m: Memory, nx: nat): Memory {
    m.(headOfQueue := nx, reclaimed := m.reclaimed + {m.headOfQueue})
  }

  /** fold deletes the slots of the buffer it has taken out and puts the buffer on the garbage list. */
  function Folded(m: Memory, p: nat): Memory {
    Store(m, p, Buf(m, p).(freed := true, next := m.garbage)).(garbage := To(p), bin := [p] + m.bin)
  }

  /** The next atomic step of the consumer. */
  function ConsumerStep(s: State): State {
    var c := s.c;
    var h := Buf(s.m, s.m.headOfQueue);
    var t := Buf(s.m, c.buf);
    match c.pc
    case Idle => Goto(s, Enter)
    case Return(_) => Goto(s, Idle)
    case Enter => Goto(s, if h.head >= N then MoveTail(ToEnter) else Peek)
    case MoveTail(r) => Goto(s, if s.m.headOfQueue == s.m.tailOfQueue then After(r, false) else MoveNext(r))
    case MoveNext(r) => Goto(s, if h.next.Null? then After(r, false) else MovePop(h.next.id, r))
    case MovePop(nx, r) =>
      if s.m.garbage.To? && Buf(s.m, s.m.garbage.id).pos < Buf(s.m, nx).pos then
        s.(m := Popped(s.m))
      else
        Goto(s, After(r, true)).(m := Switched(s.m, nx))
    case Peek =>
      if !Touchable(h, h.head) then Crash(s)
      else if Cell(h, h.head).state == HANDLED then Advance(s, ToPeek)
      else Goto(s, AtTail)
    case AtTail => Goto(s, if s.m.headOfQueue == s.m.tailOfQueue then AtEnd else Take)
    case AtEnd => Goto(s, if h.head == |s.ops| % N then Return(false) else Take)
    case Take =>
      if !Touchable(h, h.head) then Crash(s)
      else if Cell(h, h.head).state == SET then Advance(Emit(s, h, h.head), ToTrue)
      else Goto(s, Gap)
    case Gap =>
      if !Touchable(h, h.head) then Crash(s)
      else if Cell(h, h.head).state == EMPTY then
        s.(c := Consumer(ScanLook, s.m.headOfQueue, h.head, false, true, c.sbuf, c.sidx))
      else Goto(s, Return(false))
    case ScanLook =>
      if !Touchable(t, c.idx) then Crash(s)
      else if Cell(t, c.idx).state == SET then
        s.(c := c.(pc := Rescan, sbuf := s.m.headOfQueue, sidx := h.head))
      else Goto(s, ScanNote)
    case ScanNote =>
      if !Touchable(t, c.idx) then Crash(s)
      else
        var all := c.allHandled && Cell(t, c.idx).state == HANDLED;
        var pc := if c.idx + 1 < N then ScanLook else if all && c.moved then FoldTail else ScanNext;
        s.(c := c.(pc := pc, idx := c.idx + 1, allHandled := all))
    case ScanNext =>
      if t.next.Null? then Goto(s, Return(false)) else EnterBuffer(s, t.next.id)
    case FoldTail => Goto(s, if c.buf == s.m.tailOfQueue then Return(false) else FoldNext)
    case FoldNext => Goto(s, if t.next.Null? then Return(false) else FoldPrev(t.next.id))
    case FoldPrev(nx) => Goto(s, FoldSkip(nx)).(m := Store(s.m, nx, Buf(s.m, nx).(prev := t.prev)))
    case FoldSkip(nx) =>
      if t.prev.Null? then Crash(s)
      else Goto(s, FoldFree(nx)).(m := Store(s.m, t.prev.id, Buf(s.m, t.prev.id).(next := To(nx))))
    case FoldFree(nx) =>
      EnterBuffer(s.(m := Folded(s.m, c.buf)), nx)
    case Rescan =>
      var sb := Buf(s.m, c.sbuf);
      if c.sbuf == c.buf && c.sidx >= c.idx then Goto(s, Deliver)
      else if c.sidx >= N then
        if sb.next.Null? then Crash(s) else s.(c := c.(sbuf := sb.next.id, sidx := Buf(s.m, sb.next.id).head))
      else if !Touchable(sb, c.sidx) then Crash(s)
      else if Cell(sb, c.sidx).state == SET then
        s.(c := c.(buf := c.sbuf, idx := c.sidx, sbuf := s.m.headOfQueue, sidx := h.head))
      else s.(c := c.(sidx := c.sidx + 1))
    case Deliver =>
      if !Touchable(t, c.idx) then Crash(s)
      else
        var s' := Emit(s, t, c.idx).(m := Store(s.m, c.buf, PutCell(t, c.idx, Cell(t, c.idx).(state := HANDLED))));
        if c.buf == s.m.headOfQueue && c.idx == h.head then Advance(s', ToTrue) else Goto(s', Return(true))
  }

  /** Scan continues at the start of buffer `nx`. */
  function EnterBuffer(s: State, nx: nat): State {
    s.(c := s.c.(pc := ScanLook, buf := nx, idx := Buf(s.m, nx).head, moved := true, allHandled := true))
  }

  // ---------- Runs ----------

  datatype Action = DoClaim(item: Item) | DoProduce(l: nat) | DoConsume

  predicate Enabled(s: State, a: Action) {
    a.DoProduce? ==> a.l < |s.ops|
  }

  /** The buffer whose slots a step loads from or stores to, if any. */
  function SlotsUsed(s: State, a: Action): Link
    requires Enabled(s, a)
  {
    match a
    case DoClaim(_) => Null
    case DoProduce(l) =>
      var o := s.ops[l];
      if o.pc == Check || o.pc == Write || o.pc == Publish then To(o.buf) else Null
    case DoConsume =>
      match s.c.pc
      case Peek => To(s.m.headOfQueue)
      case Take => To(s.m.headOfQueue)
      case Gap => To(s.m.headOfQueue)
      case ScanLook => To(s.c.buf)
      case ScanNote => To(s.c.buf)
      case Deliver => To(s.c.buf)
      case Rescan => if s.c.sidx >= N || (s.c.sbuf == s.c.buf && s.c.sidx >= s.c.idx) then Null else To(s.c.sbuf)
      case _ => Null
  }

  /** A step of the system; using the slots of a reclaimed buffer is a fault. */
  function Act(s: State, a: Action): State
    requires Enabled(s, a)
  {
    if SlotsUsed(s, a).To? && SlotsUsed(s, a).id in s.m.reclaimed then Crash(s)
    else
      match a
      case DoClaim(item) => Claim(s, item)
      case DoProduce(l) => ProducerStep(s, l)
      case DoConsume => ConsumerStep(s)
  }

  /** `states` is a run under the schedule `acts`: any actions, in any order. */
  ghost predicate IsRun(states: seq<State>, acts: seq<Action>) {
    && |states| == |acts| + 1
    && states[0] == Initial()
    && forall i :: 0 <= i < |acts| ==> Enabled(states[i], acts[i]) && states[i + 1] == Act(states[i], acts[i])
  }

  /** `states` follows the actions `acts`, from any state. */
  ghost predicate Path(states: seq<State>, acts: seq<Action>) {
    && |states| == |acts| + 1
    && forall i :: 0 <= i < |acts| ==> Enabled(states[i], acts[i]) && states[i + 1] == Act(states[i], acts[i])
  }
}
