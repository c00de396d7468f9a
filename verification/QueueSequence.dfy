/** The queue as a plain sequence of the items that have been claimed a place and not been delivered. */
module QueueSequence {
  import opened QueueModel
  import opened QueueInvariant
  import opened QueueTheorems
  import opened QueueQuiet
  import opened QueueReclaim
  import opened QueueReturns

  /** The undelivered items of the first `n` locations, in order. */
  function PendingIn(ops: seq<Enqueue>, outLoc: seq<nat>, n: nat): seq<Item>
    requires n <= |ops|
  {
    if n == 0 then []
    else
      PendingIn(ops, outLoc, n - 1) + if n - 1 in outLoc then [] else [ops[n - 1].item]
  }

  function Pending(s: State): seq<Item> {
    PendingIn(s.ops, s.outLoc, |s.ops|)
  }

  lemma {:induction false} SameItems(ops: seq<Enqueue>, ops': seq<Enqueue>, outLoc: seq<nat>, n: nat)
    requires n <= |ops| && n <= |ops'| && forall l :: 0 <= l < n ==> ops'[l].item == ops[l].item
    ensures PendingIn(ops', outLoc, n) == PendingIn(ops, outLoc, n)
  {
    if n > 0 { SameItems(ops, ops', outLoc, n - 1); }
  }

  /** Claiming a location appends the item. */
  lemma ClaimAppends(s: State, item: Item)
    requires Inv(s)
    ensures Pending(Claim(s, item)) == Pending(s) + [item]
  {
    hide MemoryOk, ProducersOk, OutSetOk, Distinct, ConsumerOk, RescanSeen;
    var s' := Claim(s, item);
    SameItems(s.ops, s'.ops, s.outLoc, |s.ops|);
    assert |s.ops| !in s.outLoc;
  }

  /** The other steps of an enqueue do not change the sequence. */
  lemma ProducerKeepsPending(s: State, l: nat)
    requires l < |s.ops|
    ensures Pending(ProducerStep(s, l)) == Pending(s)
  {
    hide ProducerStep, PendingIn;
    ProducerKeeps(s, l);
    var s' := ProducerStep(s, l);
    SameItems(s.ops, s'.ops, s.outLoc, |s.ops|);
  }

  /** Delivering the oldest location takes the first item. */
  lemma {:induction false} OldestIsFirst(s: State, l: nat, n: nat)
    requires Oldest(s, l) && n <= |s.ops|
    ensures n <= l ==> PendingIn(s.ops, s.outLoc, n) == [] && PendingIn(s.ops, s.outLoc + [l], n) == []
    ensures l < n ==> PendingIn(s.ops, s.outLoc, n) == [s.ops[l].item] + PendingIn(s.ops, s.outLoc + [l], n)
  {
    if n > 0 { OldestIsFirst(s, l, n - 1); }
  }

  lemma {:induction false} NothingPending(s: State, n: nat)
    requires n <= |s.ops| && forall l: nat :: l < n ==> l in s.outLoc
    ensures PendingIn(s.ops, s.outLoc, n) == []
  {
    if n > 0 { NothingPending(s, n - 1); }
  }

  /** With no enqueue in flight, dequeue is the dequeue of a plain sequence: false exactly on the empty sequence, and
      otherwise its first item is delivered and removed. */
  lemma QuietDequeueIsSequence(states: seq<State>)
    requires QuietDequeue(states)
    ensures var s, t := states[0], states[|states| - 1];
      && (t.c.pc.ok <==> Pending(s) != [])
      && (t.c.pc.ok ==> t.out == s.out + [Pending(s)[0]] && Pending(t) == Pending(s)[1..])
      && (!t.c.pc.ok ==> t.out == s.out && Pending(t) == [])
  {
    hide Inv, PendingIn;
    var s, t := states[0], states[|states| - 1];
    QuietRunInv(states, |states| - 1);
    if t.c.pc.ok {
      var l := t.outLoc[|s.outLoc|];
      OldestIsFirst(s, l, |s.ops|);
    } else {
      NothingPending(s, |s.ops|);
    }
  }

  /** Whenever a run has come to a state with no enqueue in flight, a dequeue that now runs alone returns within the
      known bound, and does what the dequeue of a plain sequence does. */
  lemma DequeueAlone(states: seq<State>, acts: seq<Action>, i: nat) returns (alone: seq<State>)
    requires IsRun(states, acts) && i < |states| && Quiet(states[i]) && states[i].c.pc == Idle
    ensures QuietDequeue(alone) && alone[0] == states[i] && |alone| - 1 <= StepsLeft(states[i])
    ensures var s, t := states[i], alone[|alone| - 1];
      if Pending(s) == [] then t.c.pc == Return(false) && t.out == s.out && Pending(t) == []
      else t.c.pc == Return(true) && t.out == s.out + [Pending(s)[0]] && Pending(t) == Pending(s)[1..]
  {
    hide Inv, SpareOk, Pending, StepsLeft, Quiet, QuietInv, Act;
    RunInv(states, acts, i);
    alone := AloneReturns(states[i]);
    QuietDequeueIsSequence(alone);
  }
}
