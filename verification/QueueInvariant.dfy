/** What every reachable state of the queue satisfies. */
module QueueInvariant {
  import opened QueueModel

  // ---------- Memory ----------

  /** `p` is the buffer of its position in the chain (and not a stray linked behind a folded buffer). */
  predicate Main(m: Memory, p: nat) {
    && p < |m.heap|
    && 1 <= m.heap[p].pos <= |m.chain|
    && m.chain[m.heap[p].pos - 1] == p
  }

  /** The k-th buffer of the chain. */
  function Kth(m: Memory, k: nat): Buffer
    requires k < |m.chain|
  {
    Buf(m, m.chain[k])
  }

  /** Index in the chain of the buffer at address `p`. */
  function Ord(m: Memory, p: nat): int {
    Buf(m, p).pos - 1
  }

  function HeadOrd(m: Memory): int {
    Ord(m, m.headOfQueue)
  }

  function TailOrd(m: Memory): int {
    Ord(m, m.tailOfQueue)
  }

  predicate LinkOk(m: Memory, x: Link) {
    x.To? ==> x.id < |m.heap|
  }

  predicate BufferOk(m: Memory, b: Buffer) {
    |b.slots| == N && 1 <= b.pos && LinkOk(m, b.next) && LinkOk(m, b.prev)
  }

  ghost predicate HeapOk(m: Memory) {
    && 1 <= |m.chain|
    && (forall k :: 0 <= k < |m.chain| ==> m.chain[k] < |m.heap| && m.heap[m.chain[k]].pos == k + 1)
    && (forall p :: 0 <= p < |m.heap| ==> BufferOk(m, m.heap[p]))
    && LinkOk(m, m.garbage)
    && Main(m, m.headOfQueue)
    && Main(m, m.tailOfQueue)
  }

  /** The chain index of the buffer a location belongs to, and the slot within it. */
  function BufNo(l: nat): nat { l / N }
  function IdxOf(l: nat): nat { l % N }

  /** State of the slot of location `l`; locations whose buffer does not exist yet are EMPTY. */
  function StateOf(m: Memory, l: nat): SlotState {
    if BufNo(l) < |m.chain| then Cell(Kth(m, BufNo(l)), IdxOf(l)).state else EMPTY
  }

  function DataOf(m: Memory, l: nat): Item {
    if BufNo(l) < |m.chain| then Cell(Kth(m, BufNo(l)), IdxOf(l)).data else 0
  }

  ghost predicate AllHandled(m: Memory, k: nat)
    requires k < |m.chain|
  {
    forall i :: 0 <= i < N ==> Cell(Kth(m, k), i).state == HANDLED
  }

  /** The k-th buffer is folded, or is the buffer `f` about to be. */
  predicate Gone(m: Memory, f: Link, k: nat)
    requires k < |m.chain|
  {
    Kth(m, k).freed || f == To(m.chain[k])
  }

  /** The next link of a linked buffer leads to the first linked buffer behind it. */
  ghost predicate NextOk(m: Memory, f: Link, k: nat)
    requires k < |m.chain|
  {
    if k + 1 == |m.chain| then Kth(m, k).next == Null
    else
      && Kth(m, k).next.To?
      && Main(m, Kth(m, k).next.id)
      && var j := Ord(m, Kth(m, k).next.id);
      && k < j < |m.chain|
      && !Gone(m, f, j)
      && forall i :: k < i < j ==> Gone(m, f, i)
  }

  /** The prev link of any buffer skips handled buffers only. */
  ghost predicate PrevOk(m: Memory, k: nat)
    requires 0 < k < |m.chain|
  {
    && Kth(m, k).prev.To?
    && Main(m, Kth(m, k).prev.id)
    && var j := Ord(m, Kth(m, k).prev.id);
    && 0 <= j < k
    && forall i :: j < i < k ==> AllHandled(m, i)
  }

  /** Behind the head buffer, prev leads to the last linked buffer in front. */
  ghost predicate PrevLinked(m: Memory, f: Link, k: nat)
    requires k < |m.chain|
  {
    && Kth(m, k).prev.To?
    && Main(m, Kth(m, k).prev.id)
    && var j := Ord(m, Kth(m, k).prev.id);
    && HeadOrd(m) <= j < k
    && !Gone(m, f, j)
    && forall i :: j < i < k ==> Gone(m, f, i)
  }

  ghost predicate NextsOk(m: Memory, f: Link) {
    forall k :: 0 <= k < |m.chain| && !Gone(m, f, k) ==> NextOk(m, f, k)
  }

  ghost predicate PrevsOk(m: Memory) {
    forall k :: 0 < k < |m.chain| ==> PrevOk(m, k)
  }

  ghost predicate PrevsLinked(m: Memory, f: Link) {
    forall k :: 0 <= k < |m.chain| && HeadOrd(m) < k && !Gone(m, f, k) ==> PrevLinked(m, f, k)
  }

  ghost predicate FreedOk(m: Memory) {
    forall k :: 0 <= k < |m.chain| && Kth(m, k).freed ==> AllHandled(m, k) && k < TailOrd(m)
  }

  /** The buffer being folded, from the moment next links skip it. */
  function Unlinked(c: Consumer): Link {
    if c.pc.FoldFree? then To(c.buf) else Null
  }

  /** The buffer being folded, from the moment prev links skip it. */
  function Bypassed(c: Consumer): Link {
    if c.pc.FoldSkip? || c.pc.FoldFree? then To(c.buf) else Null
  }

  /** The location the consumer's head stands at. */
  function HeadLoc(m: Memory): int {
    Base(Buf(m, m.headOfQueue)) + Buf(m, m.headOfQueue).head
  }

  ghost predicate HeadOk(m: Memory)
    requires HeapOk(m)
  {
    && !Buf(m, m.headOfQueue).freed
    && HeadOrd(m) <= TailOrd(m)
    && Buf(m, m.headOfQueue).head <= N
    && (forall j :: 0 <= j < |m.chain| && HeadOrd(m) < j ==> Kth(m, j).head == 0)
    && (forall l: nat :: l < HeadLoc(m) ==> StateOf(m, l) != EMPTY)
  }

  /** A location has been delivered when the head has passed it or its slot is HANDLED. */
  predicate Consumed(m: Memory, l: nat) {
    l < HeadLoc(m) || StateOf(m, l) == HANDLED
  }

  // ---------- Producers ----------

  /** tailOfQueue is the last buffer, or the one before it while its appender has still to swing it. */
  ghost predicate TailOk(m: Memory, ops: seq<Enqueue>, appender: nat) {
    && |m.chain| - 2 <= TailOrd(m)
    && (|m.chain| >= 2 ==> |ops| >= N * (|m.chain| - 1) - 1)
    && (TailOrd(m) == |m.chain| - 2 ==>
          && appender < |ops|
          && (ops[appender].pc == Swing || ops[appender].pc == ExtendSwing)
          && ops[appender].buf == m.tailOfQueue)
  }

  /** What the enqueue of location `l` knows about the buffer it holds. */
  predicate EnqueueOk(m: Memory, l: nat, o: Enqueue) {
    var k := Ord(m, o.buf);
    && (o.pc != Load && o.pc != Done ==> Main(m, o.buf) && k <= TailOrd(m))
    && (o.pc == Probe || o.pc == Append || o.pc == Swing ==> k < BufNo(l))
    && (o.pc == Load || o.pc == Probe || o.pc == Append || o.pc == Swing ==> o.last)
    && (o.pc == Swing || o.pc == ExtendSwing ==>
          m.tailOfQueue == o.buf ==> TailOrd(m) == |m.chain| - 2 && o.made == m.chain[|m.chain| - 1])
    && (o.pc == Walk ==> BufNo(l) < k)
    && (o.pc == Check || o.pc == Write || o.pc == Publish ==> k == BufNo(l) && (!o.last ==> k < TailOrd(m)))
    && (o.pc == Extend || o.pc == ExtendSwing ==> k == BufNo(l) && IdxOf(l) == N - 2)
    && (o.pc == ExtendSwing || o.pc == Done ==> IdxOf(l) == N - 2 ==> BufNo(l) + 2 <= |m.chain|)
    && (o.pc == Publish || Published(o) ==> DataOf(m, l) == o.item)
    && (Published(o) ==> BufNo(l) <= TailOrd(m))
  }

  ghost predicate EnqueuesOk(m: Memory, ops: seq<Enqueue>) {
    forall l :: 0 <= l < |ops| ==> EnqueueOk(m, l, ops[l])
  }

  ghost predicate SeenOk(ops: seq<Enqueue>) {
    forall l, a {:trigger a in ops[l].seen} :: 0 <= l < |ops| && a in ops[l].seen ==> a < l && Published(ops[a])
  }

  /** A slot has left EMPTY exactly when the enqueue of its location has published. */
  ghost predicate SlotsOk(m: Memory, ops: seq<Enqueue>) {
    forall l: nat :: StateOf(m, l) != EMPTY <==> l < |ops| && Published(ops[l])
  }

  // ---------- Deliveries ----------

  ghost predicate OutSetOk(m: Memory, outLoc: seq<nat>) {
    forall l: nat :: l in outLoc <==> Consumed(m, l)
  }

  ghost predicate Distinct(outLoc: seq<nat>) {
    forall i, j :: 0 <= i < j < |outLoc| ==> outLoc[i] != outLoc[j]
  }

  /** Delivered items are the ones enqueued at their locations, and follow everything they had seen published. */
  ghost predicate OutItemsOk(ops: seq<Enqueue>, out: seq<Item>, outLoc: seq<nat>) {
    && |out| == |outLoc|
    && (forall i :: 0 <= i < |outLoc| ==> outLoc[i] < |ops| && out[i] == ops[outLoc[i]].item)
    && (forall i, a {:trigger a in ops[outLoc[i]].seen} :: 0 <= i < |outLoc| && a in ops[outLoc[i]].seen ==> a in outLoc[..i])
  }

  // ---------- Consumer ----------

  /** The location of slot `i` of the buffer at address `p`. */
  function LocOf(m: Memory, p: nat, i: nat): int {
    Base(Buf(m, p)) + i
  }

  /** Scan stands on a linked buffer at or behind the head. */
  ghost predicate ScanAt(m: Memory, c: Consumer) {
    && Main(m, c.buf)
    && !Buf(m, c.buf).freed
    && HeadOrd(m) <= Ord(m, c.buf)
    && (c.moved <==> HeadOrd(m) < Ord(m, c.buf))
    && HeadLoc(m) <= LocOf(m, c.buf, c.idx)
    && (c.moved && c.allHandled ==> forall i :: 0 <= i < c.idx ==> Cell(Buf(m, c.buf), i).state == HANDLED)
  }

  /** Fold works on a fully handled buffer behind the head. */
  ghost predicate FoldAt(m: Memory, c: Consumer) {
    && Main(m, c.buf)
    && !Buf(m, c.buf).freed
    && HeadOrd(m) < Ord(m, c.buf)
    && AllHandled(m, Ord(m, c.buf))
  }

  /** ReScan stands on linked buffers between the head and a SET candidate. */
  predicate RescanAt(m: Memory, c: Consumer) {
    var k, j := Ord(m, c.buf), Ord(m, c.sbuf);
    && Main(m, c.buf) && Main(m, c.sbuf)
    && !Buf(m, c.buf).freed && !Buf(m, c.sbuf).freed
    && HeadOrd(m) <= j <= k
    && c.idx < N && c.sidx <= N
    && (j == k ==> c.sidx <= c.idx)
    && HeadLoc(m) <= LocOf(m, c.sbuf, c.sidx)
    && HeadLoc(m) <= LocOf(m, c.buf, c.idx)
    && Cell(Buf(m, c.buf), c.idx).state == SET
  }

  /** Whatever the candidate saw published and ReScan has passed is delivered. */
  ghost predicate RescanSeen(m: Memory, ops: seq<Enqueue>, c: Consumer, outLoc: seq<nat>) {
    && 0 <= LocOf(m, c.buf, c.idx) < |ops|
    && forall a :: a in ops[LocOf(m, c.buf, c.idx)].seen && a < LocOf(m, c.sbuf, c.sidx) ==> a in outLoc
  }

  predicate HeadPending(m: Memory) {
    var h := Buf(m, m.headOfQueue);
    h.head < N && Cell(h, h.head).state != HANDLED
  }

  ghost predicate ConsumerOk(m: Memory, c: Consumer) {
    var h := Buf(m, m.headOfQueue);
    var t := Buf(m, c.buf);
    match c.pc
    case Idle => true
    case Return(_) => true
    case Enter => true
    case MoveTail(_) => h.head == N
    case MoveNext(_) => h.head == N && HeadOrd(m) < TailOrd(m)
    case MovePop(nx, _) => h.head == N && HeadOrd(m) < TailOrd(m) && h.next == To(nx)
    case Peek => h.head < N
    case AtTail => HeadPending(m)
    case AtEnd => HeadPending(m)
    case Take => HeadPending(m)
    case Gap => HeadPending(m)
    case ScanLook => ScanAt(m, c) && c.idx < N
    case ScanNote => ScanAt(m, c) && c.idx < N
    case ScanNext => ScanAt(m, c) && c.idx == N
    case FoldTail => FoldAt(m, c)
    case FoldNext => FoldAt(m, c) && Ord(m, c.buf) < TailOrd(m)
    case FoldPrev(nx) => FoldAt(m, c) && Ord(m, c.buf) < TailOrd(m) && t.next == To(nx)
    case FoldSkip(nx) =>
      && FoldAt(m, c) && Ord(m, c.buf) < TailOrd(m) && t.next == To(nx)
      && PrevLinked(m, Null, Ord(m, c.buf))
    case FoldFree(nx) =>
      && FoldAt(m, c) && Ord(m, c.buf) < TailOrd(m) && t.next == To(nx)
      && Main(m, nx) && !Buf(m, nx).freed && Ord(m, c.buf) < Ord(m, nx)
    case Rescan => RescanAt(m, c)
    case Deliver => RescanAt(m, c) && c.sbuf == c.buf && c.sidx == c.idx
  }

  // ---------- The invariant ----------

  ghost predicate MemoryOk(m: Memory, unlinked: Link, bypassed: Link) {
    && HeapOk(m)
    && NextsOk(m, unlinked)
    && PrevsOk(m)
    && PrevsLinked(m, bypassed)
    && FreedOk(m)
    && HeadOk(m)
  }

  ghost predicate ProducersOk(m: Memory, ops: seq<Enqueue>, appender: nat) {
    && TailOk(m, ops, appender)
    && EnqueuesOk(m, ops)
    && SeenOk(ops)
    && SlotsOk(m, ops)
  }

  ghost predicate OutOk(s: State) {
    && OutSetOk(s.m, s.outLoc)
    && Distinct(s.outLoc)
    && OutItemsOk(s.ops, s.out, s.outLoc)
  }

  ghost predicate Inv(s: State) {
    && !s.fault
    && MemoryOk(s.m, Unlinked(s.c), Bypassed(s.c))
    && ProducersOk(s.m, s.ops, s.appender)
    && OutOk(s)
    && ConsumerOk(s.m, s.c)
    && (s.c.pc == Rescan || s.c.pc == Deliver ==> RescanSeen(s.m, s.ops, s.c, s.outLoc))
  }

  lemma InitialInv()
    ensures Inv(Initial())
  {
    hide MemoryOk, ProducersOk, OutSetOk;
    InitialMemory();
    InitialHistory();
  }

  lemma InitialMemory()
    ensures MemoryOk(Initial().m, Null, Null)
  {
    assert HeapOk(Initial().m);
  }

  lemma InitialHistory()
    ensures ProducersOk(Initial().m, [], 0) && OutSetOk(Initial().m, [])
  {
    hide StateOf, TailOk, HeadLoc, EnqueueOk;
    InitialTail();
    forall l: nat ensures StateOf(Initial().m, l) == EMPTY { InitialSlot(l); }
  }

  lemma InitialTail()
    ensures TailOk(Initial().m, [], 0) && HeadLoc(Initial().m) == 0
  {
    assert Buf(Initial().m, 0) == NewBuffer(Null, 1);
  }

  lemma InitialSlot(l: nat)
    ensures StateOf(Initial().m, l) == EMPTY
  {
    hide IdxOf, BufNo;
    assert BufNo(l) < |Initial().m.chain| ==> Kth(Initial().m, BufNo(l)) == NewBuffer(Null, 1);
  }
}
