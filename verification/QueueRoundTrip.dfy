/** Enqueue and dequeue together: what goes in comes out, in its turn. */
module QueueRoundTrip {
  import opened QueueModel
  import opened QueueInvariant
  import opened QueueTheorems
  import opened QueueReclaim
  import opened QueueQuiet
  import opened QueueReturns
  import opened QueueSequence
  import opened QueueFinishes

  /** A state in which nobody is inside enqueue or dequeue. */
  ghost predicate Resting(s: State) {
    Inv(s) && SpareOk(s.m) && Quiet(s) && s.c.pc == Idle
  }

  lemma JoinPaths(ps: seq<State>, ax: seq<Action>, qs: seq<State>, bx: seq<Action>)
    requires Path(ps, ax) && Path(qs, bx) && ps[|ax|] == qs[0]
    ensures Path(ps + qs[1..], ax + bx) && (ps + qs[1..])[0] == ps[0] && (ps + qs[1..])[|ax| + |bx|] == qs[|bx|]
  {
    hide Act, Enabled;
    var rs, cx := ps + qs[1..], ax + bx;
    forall i | 0 <= i < |cx| ensures Enabled(rs[i], cx[i]) && rs[i + 1] == Act(rs[i], cx[i]) {
      if i < |ax| {
        assert cx[i] == ax[i] && rs[i] == ps[i] && rs[i + 1] == ps[i + 1];
      } else {
        assert cx[i] == bx[i - |ax|] && rs[i + 1] == qs[i + 1 - |ax|];
        assert rs[i] == qs[i - |ax|];
      }
    }
  }

  // ---------- Enqueue ----------

  /** With nobody else in the queue an enqueue runs to its end, and appends its item to the pending sequence. */
  lemma EnqueueAlone(s: State, item: Item) returns (states: seq<State>, acts: seq<Action>)
    requires Resting(s)
    ensures Path(states, acts) && states[0] == s && acts != [] && acts[0] == DoClaim(item)
    ensures forall i :: 0 < i < |acts| ==> acts[i] == DoProduce(|s.ops|)
    ensures var t := states[|acts|]; Resting(t) && Pending(t) == Pending(s) + [item] && t.out == s.out
  {
    hide Inv, SpareOk, Quiet, Act, Claim, Pending, Untouched, ProducerLeft, Stuck;
    var l := |s.ops|;
    var s1 := Act(s, DoClaim(item));
    SlotsAlive(s, DoClaim(item));
    SpareStep(s, DoClaim(item));
    StepInv(s, DoClaim(item));
    ClaimFacts(s, item);
    if Stuck(s1, l) { StuckBySwing(s1, l); QuietOthers(s, item); }
    var ps, ax := FinishAlone(s1, l);
    var t := ps[|ax|];
    ClaimAppends(s, item);
    FinishedPending(s1, t, l);
    FinishedQuiet(s, item, t);
    states, acts := [s] + ps, [DoClaim(item)] + ax;
    ClaimPath(s, item, ps, ax);
  }

  lemma ClaimFacts(s: State, item: Item)
    ensures var s1 := Claim(s, item); |s1.ops| == |s.ops| + 1 && s1.c == s.c && s1.out == s.out && s1.outLoc == s.outLoc
    ensures Claim(s, item).ops[..|s.ops|] == s.ops
  {
  }

  lemma QuietOthers(s: State, item: Item)
    requires Quiet(s)
    ensures forall x :: 0 <= x < |s.ops| ==> Claim(s, item).ops[x].pc == Done
  {
  }

  lemma FinishedPending(s: State, t: State, l: nat)
    requires Untouched(s, t, l)
    ensures Pending(t) == Pending(s)
  {
    hide PendingIn;
    SameItems(s.ops, t.ops, s.outLoc, |s.ops|);
  }

  lemma FinishedQuiet(s: State, item: Item, t: State)
    requires Quiet(s) && Untouched(Claim(s, item), t, |s.ops|) && t.ops[|s.ops|].pc == Done
    ensures Quiet(t) && t.c == s.c && t.out == s.out
  {
    QuietOthers(s, item);
    ClaimFacts(s, item);
  }

  lemma ClaimPath(s: State, item: Item, ps: seq<State>, ax: seq<Action>)
    requires Path(ps, ax) && ps[0] == Act(s, DoClaim(item))
    ensures Path([s] + ps, [DoClaim(item)] + ax)
  {
    hide Act, Enabled;
    var rs, cx := [s] + ps, [DoClaim(item)] + ax;
    forall i | 0 <= i < |cx| ensures Enabled(rs[i], cx[i]) && rs[i + 1] == Act(rs[i], cx[i]) {
      if i == 0 {
        ClaimEnabled(s, item);
      } else {
        assert cx[i] == ax[i - 1] && rs[i] == ps[i - 1] && rs[i + 1] == ps[i];
      }
    }
  }

  lemma ClaimEnabled(s: State, item: Item)
    ensures Enabled(s, DoClaim(item))
  {
  }

  // ---------- Dequeue ----------

  /** With nobody else in the queue a dequeue takes the first pending item and leaves the queue at rest. */
  lemma DequeueOnce(s: State) returns (states: seq<State>, acts: seq<Action>)
    requires Resting(s) && Pending(s) != []
    ensures Path(states, acts) && states[0] == s && forall i :: 0 <= i < |acts| ==> acts[i] == DoConsume
    ensures var t := states[|acts|];
      Resting(t) && t.out == s.out + [Pending(s)[0]] && Pending(t) == Pending(s)[1..]
  {
    hide Inv, SpareOk, Quiet, Act, Pending, StepsLeft, QuietInv;
    var ds := AloneReturns(s);
    QuietDequeueIsSequence(ds);
    QuietRunInv(ds, |ds| - 1);
    var r := ds[|ds| - 1];
    QuietReturn(s, r);
    var t := Act(r, DoConsume);
    SlotsAlive(r, DoConsume);
    SpareStep(r, DoConsume);
    StepInv(r, DoConsume);
    BackToIdle(r);
    states, acts := ds + [t], seq(|ds|, _ => DoConsume);
    DequeuePath(ds, t);
    SamePending(r, t);
  }

  lemma QuietReturn(s: State, r: State)
    requires Quiet(s) && QuietInv(s, r)
    ensures Quiet(r) && r.ops == s.ops
  {
    hide Inv;
  }

  lemma BackToIdle(r: State)
    requires r.c.pc.Return?
    ensures ConsumerStep(r) == r.(c := r.c.(pc := Idle))
  {
  }

  lemma SamePending(r: State, t: State)
    requires t.ops == r.ops && t.outLoc == r.outLoc
    ensures Pending(t) == Pending(r) && Quiet(t) == Quiet(r)
  {
  }

  lemma DequeuePath(ds: seq<State>, t: State)
    requires AloneDequeue(ds) && t == Act(ds[|ds| - 1], DoConsume)
    ensures Path(ds + [t], seq(|ds|, _ => DoConsume))
  {
    hide Inv, SpareOk, Act;
    var rs, cx := ds + [t], seq(|ds|, _ => DoConsume);
    forall i | 0 <= i < |cx| ensures Enabled(rs[i], cx[i]) && rs[i + 1] == Act(rs[i], cx[i]) {
      if i < |ds| - 1 { assert ds[i + 1] == Act(ds[i], DoConsume); }
    }
  }

  /** Dequeued to the end, the pending items come out in order. */
  lemma {:induction false} DequeueAll(s: State) returns (states: seq<State>, acts: seq<Action>)
    requires Resting(s)
    ensures Path(states, acts) && states[0] == s && forall i :: 0 <= i < |acts| ==> acts[i] == DoConsume
    ensures var t := states[|acts|]; Resting(t) && t.out == s.out + Pending(s) && Pending(t) == []
    decreases |Pending(s)|
  {
    hide Resting, Act, Pending, Enabled;
    if Pending(s) == [] {
      states, acts := [s], [];
    } else {
      var ps, ax := DequeueOnce(s);
      var m := ps[|ax|];
      var qs, bx := DequeueAll(m);
      JoinPaths(ps, ax, qs, bx);
      states, acts := ps + qs[1..], ax + bx;
    }
  }

  // ---------- Both ----------

  /** From any state of any run in which nobody is inside the queue: an item that is now enqueued comes out, behind what was
      pending and in front of nothing else, when the queue is dequeued to its end. */
  lemma EnqueuedIsDelivered(run: seq<State>, schedule: seq<Action>, i: nat, item: Item) returns (states: seq<State>, acts: seq<Action>)
    requires IsRun(run, schedule) && i < |run| && Quiet(run[i]) && run[i].c.pc == Idle
    ensures Path(states, acts) && states[0] == run[i] && acts != [] && acts[0] == DoClaim(item)
    ensures forall k :: 0 < k < |acts| ==> acts[k] == DoProduce(|run[i].ops|) || acts[k] == DoConsume
    ensures states[|acts|].out == run[i].out + Pending(run[i]) + [item] && Pending(states[|acts|]) == []
  {
    hide Inv, SpareOk, Quiet, Act, Pending, Enabled;
    var s := run[i];
    RunInv(run, schedule, i);
    var ps, ax := EnqueueAlone(s, item);
    var t := ps[|ax|];
    var qs, bx := DequeueAll(t);
    JoinPaths(ps, ax, qs, bx);
    states, acts := ps + qs[1..], ax + bx;
    assert s.out + (Pending(s) + [item]) == s.out + Pending(s) + [item];
  }
}
