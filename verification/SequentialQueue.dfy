/** The queue as one thread sees it: buffers updated in place, used by one caller at a time. */
module SequentialQueue {
  import opened QueueModel

  datatype BufferList = BufferList(slots: seq<Slot>, head: nat, positionInQueue: nat)

  function FreshBuffer(position: nat): BufferList {
    BufferList(seq(N, _ => Slot(0, EMPTY)), 0, position)
  }

  /** The location of slot `j`. */
  function Location(b: BufferList, j: nat): int {
    N * (b.positionInQueue - 1) + j
  }

  /** Slots in front of `tail` are SET, and hold the contents from the head location `at` on; the others are EMPTY. */
  predicate SlotOk(b: BufferList, j: nat, at: int, tail: nat, contents: seq<Item>)
    requires j < |b.slots|
  {
    var l := Location(b, j);
    if l < tail then
      b.slots[j].state == SET && (0 <= l - at < |contents| ==> b.slots[j].data == contents[l - at])
    else b.slots[j].state == EMPTY
  }

  ghost predicate SlotsAre(b: BufferList, at: int, tail: nat, contents: seq<Item>) {
    |b.slots| == N && forall j :: 0 <= j < N ==> SlotOk(b, j, at, tail, contents)
  }

  /** Consecutive buffers, of which only the first has a head that moved. */
  ghost predicate ListOk(bs: seq<BufferList>, headLimit: nat) {
    && |bs| >= 1 && bs[0].positionInQueue >= 1 && bs[0].head <= headLimit
    && forall k :: 0 <= k < |bs| ==> bs[k].positionInQueue == bs[0].positionInQueue + k && (k > 0 ==> bs[k].head == 0)
  }

  class MPSCQueue {
    // The buffers from headOfQueue to tailOfQueue: next and prev of each are its neighbours.
    var buffers: seq<BufferList>
    var tail: nat
    // What has been enqueued and not dequeued.
    ghost var contents: seq<Item>

    ghost function HeadLocation(): int
      reads this
    {
      if buffers == [] then 0 else Location(buffers[0], buffers[0].head)
    }

    ghost predicate ValidUpTo(headLimit: nat)
      reads this
    {
      && ListOk(buffers, headLimit)
      && HeadLocation() + |contents| == tail
      && (forall k :: 0 <= k < |buffers| ==> SlotsAre(buffers[k], HeadLocation(), tail, contents))
      // The last buffer was allocated when slot N - 2 of the one in front of it was filled, no earlier and no later.
      && var last := buffers[|buffers| - 1].positionInQueue;
      && N * (last - 1) - 1 <= tail < N * last - 1
    }

    ghost predicate Valid()
      reads this
    {
      ValidUpTo(N - 1)
    }

    constructor ()
      ensures Valid() && contents == []
    {
      buffers, tail, contents := [FreshBuffer(1)], 0, [];
    }

    /** Appends; the loop that allocates on demand never runs, and the walk back over prev takes at most one step. */
    method Enqueue(data: Item)
      requires Valid()
      modifies this
      ensures Valid() && contents == old(contents) + [data]
    {
      hide SlotsAre;
      var location := tail;
      tail := tail + 1;
      var isLastBuffer := true;
      var t := |buffers| - 1;
      assert location < N * buffers[t].positionInQueue;
      var prevSize := N * (buffers[t].positionInQueue - 1);
      while location < prevSize
        invariant 0 <= t < |buffers| && prevSize == N * (buffers[t].positionInQueue - 1)
        invariant N * (buffers[t].positionInQueue - 1) - 1 <= location < N * buffers[t].positionInQueue
        invariant isLastBuffer <==> t == |buffers| - 1
      {
        t := t - 1;
        prevSize := N * (buffers[t].positionInQueue - 1);
        isLastBuffer := false;
      }
      var i := location - prevSize;
      FilledSlot(buffers[t], i, HeadLocation(), location, contents, data);
      if buffers[t].slots[i].state == EMPTY {
        ghost var at, others := HeadLocation(), buffers;
        buffers := buffers[t := PutSlot(buffers[t], i, Slot(data, SET))];
        contents := contents + [data];
        forall k | 0 <= k < |buffers| && k != t ensures SlotsAre(buffers[k], at, tail, contents) {
          OtherSlots(others[k], at, location, old(contents), data);
        }
        if i == N - 2 && isLastBuffer {
          FreshSlots(buffers[t].positionInQueue + 1, at, tail, contents);
          buffers := buffers + [FreshBuffer(buffers[t].positionInQueue + 1)];
        }
      }
    }

    /** Returns false exactly when there is nothing to return.  A single thread never meets a HANDLED slot here, and
        Scan never finds anything, so ReScan is not needed. */
    method Dequeue() returns (ok: bool, data: Item)
      requires ValidUpTo(N)
      modifies this
      ensures Valid() && (ok <==> old(contents) != [])
      ensures contents == if ok then old(contents)[1..] else []
      ensures ok ==> data == old(contents)[0]
    {
      hide SlotsAre;
      ok, data := false, 0;
      while buffers[0].head >= N
        invariant ValidUpTo(N) && contents == old(contents)
        decreases |buffers|
      {
        ok := MoveToNextBuffer();
        if !ok { return; }
        ok := false;
      }
      var h := buffers[0].head;
      HeadSlot(buffers[0], h, HeadLocation(), tail, contents);
      var n := buffers[0].slots[h];
      if |buffers| == 1 && h == tail % N {
        return;
      }
      if n.state == SET {
        data := n.data;
        ghost var at, others := HeadLocation(), buffers;
        buffers := buffers[0 := buffers[0].(head := h + 1)];
        contents := contents[1..];
        forall k | 0 <= k < |buffers| ensures SlotsAre(buffers[k], at + 1, tail, contents) {
          TakenSlots(others[k], h + 1, at, tail, old(contents));
        }
        var moved := MoveToNextBuffer();
        ok := true;
        return;
      }
      ok := Scan();
    }

    method MoveToNextBuffer() returns (ok: bool)
      requires ValidUpTo(N)
      modifies this`buffers
      ensures Valid() && ok
      ensures old(buffers[0].head) >= N ==> |buffers| < |old(buffers)|
    {
      hide SlotsAre;
      if buffers[0].head >= N {
        assert |buffers| > 1;
        buffers := buffers[1..];
      }
      ok := true;
    }

    /** From an empty head slot on there is only empty space, up to the end of the last buffer. */
    method Scan() returns (found: bool)
      requires Valid() && contents == []
      ensures !found
    {
      hide SlotsAre;
      var temp: nat, tempHead: nat := 0, buffers[0].head;
      var allHandled := true;
      HeadSlot(buffers[0], tempHead, HeadLocation(), tail, contents);
      while buffers[temp].slots[tempHead].state != SET
        invariant 0 <= temp < |buffers| && tempHead < N == |buffers[temp].slots|
        invariant Location(buffers[temp], tempHead) >= tail
        invariant buffers[temp].slots[tempHead].state == EMPTY
        invariant tempHead > (if temp == 0 then buffers[0].head else 0) ==> !allHandled
        decreases |buffers| - temp, N - tempHead
      {
        if buffers[temp].slots[tempHead].state != HANDLED {
          allHandled := false;
        }
        tempHead := tempHead + 1;
        if tempHead >= N {
          // Not everything was HANDLED, so this is not a buffer to fold.
          assert !allHandled;
          if temp + 1 == |buffers| {
            return false;
          }
          temp := temp + 1;
          tempHead := buffers[temp].head;
          allHandled := true;
        }
        HeadSlot(buffers[temp], tempHead, HeadLocation(), tail, contents);
      }
      found := true;
    }
  }

  function PutSlot(b: BufferList, i: nat, s: Slot): BufferList
    requires i < |b.slots|
  {
    b.(slots := b.slots[i := s])
  }

  lemma HeadSlot(b: BufferList, j: nat, at: int, tail: nat, contents: seq<Item>)
    requires SlotsAre(b, at, tail, contents) && j < N
    ensures j < |b.slots| && |b.slots| == N
    ensures b.slots[j].state == if Location(b, j) < tail then SET else EMPTY
    ensures Location(b, j) == at < tail && contents != [] ==> b.slots[j].data == contents[0]
  {
    assert SlotOk(b, j, at, tail, contents);
  }

  /** The slot at `tail` is EMPTY, and once it is filled the buffer holds one item more. */
  lemma FilledSlot(b: BufferList, i: nat, at: int, tail: nat, contents: seq<Item>, data: Item)
    requires SlotsAre(b, at, tail, contents) && i < N && Location(b, i) == tail && at + |contents| == tail
    ensures i < |b.slots| && b.slots[i].state == EMPTY
    ensures SlotsAre(PutSlot(b, i, Slot(data, SET)), at, tail + 1, contents + [data])
  {
    assert SlotOk(b, i, at, tail, contents);
    var b' := PutSlot(b, i, Slot(data, SET));
    var tail', contents' := tail + 1, contents + [data];
    forall j | 0 <= j < N ensures SlotOk(b', j, at, tail', contents') {
      assert SlotOk(b, j, at, tail, contents);
    }
  }

  lemma OtherSlots(b: BufferList, at: int, tail: nat, contents: seq<Item>, data: Item)
    requires SlotsAre(b, at, tail, contents) && at + |contents| == tail
    requires forall j :: 0 <= j < N ==> Location(b, j) != tail
    ensures SlotsAre(b, at, tail + 1, contents + [data])
  {
    var tail', contents' := tail + 1, contents + [data];
    forall j | 0 <= j < N ensures SlotOk(b, j, at, tail', contents') {
      assert SlotOk(b, j, at, tail, contents);
    }
  }

  lemma FreshSlots(position: nat, at: int, tail: nat, contents: seq<Item>)
    requires N * (position - 1) >= tail
    ensures SlotsAre(FreshBuffer(position), at, tail, contents)
  {
  }

  lemma TakenSlots(b: BufferList, head: nat, at: int, tail: nat, contents: seq<Item>)
    requires SlotsAre(b, at, tail, contents) && contents != []
    ensures SlotsAre(b, at + 1, tail, contents[1..]) && SlotsAre(b.(head := head), at + 1, tail, contents[1..])
  {
    var b', at', contents' := b.(head := head), at + 1, contents[1..];
    forall j | 0 <= j < N ensures SlotOk(b, j, at', tail, contents') && SlotOk(b', j, at', tail, contents') {
      assert SlotOk(b, j, at, tail, contents);
    }
  }
}
