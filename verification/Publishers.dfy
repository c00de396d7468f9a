/** The publishers: subscriber queues that receive whole batches while they are subscribed. */
module Publishers {
  import opened MarketTypes

  type SubscriberId = nat

  /** What every queue ever subscribed has received, and which of them are still subscribed. */
  datatype Feed<T> = Feed(active: set<SubscriberId>, got: map<SubscriberId, seq<T>>, nextId: nat)

  function EmptyFeed<T>(): Feed<T> {
    Feed({}, map[], 1)
  }

  function Subscribed<T>(f: Feed<T>): Feed<T> {
    Feed(f.active + {f.nextId}, f.got[f.nextId := []], f.nextId + 1)
  }

  function Unsubscribed<T>(f: Feed<T>, id: SubscriberId): Feed<T> {
    f.(active := f.active - {id})
  }

  function Published<T>(f: Feed<T>, batch: seq<T>): Feed<T> {
    f.(got := map id | id in f.got :: if id in f.active then f.got[id] + batch else f.got[id])
  }

  ghost predicate FeedOk<T>(f: Feed<T>) {
    && f.active <= f.got.Keys && 1 <= f.nextId
    && forall id :: id in f.got ==> 1 <= id < f.nextId
  }

  // ---------- The subscriber map ----------

  /** A feed from the map of subscribed queues and the queues that have left it. */
  ghost function FeedOf<T>(subs: map<SubscriberId, seq<T>>, left: map<SubscriberId, seq<T>>, nextId: nat): Feed<T> {
    Feed(subs.Keys, left + subs, nextId)
  }

  ghost predicate MapsOk<T>(subs: map<SubscriberId, seq<T>>, left: map<SubscriberId, seq<T>>, nextId: nat) {
    && subs.Keys !! left.Keys
    && (forall id :: id in subs ==> 1 <= id < nextId)
    && (forall id :: id in left ==> 1 <= id < nextId)
    && 1 <= nextId
  }

  lemma AddSubscriber<T>(subs: map<SubscriberId, seq<T>>, left: map<SubscriberId, seq<T>>, nextId: nat)
    requires MapsOk(subs, left, nextId)
    ensures MapsOk(subs[nextId := []], left, nextId + 1)
    ensures FeedOf(subs[nextId := []], left, nextId + 1) == Subscribed(FeedOf(subs, left, nextId))
    ensures nextId !in FeedOf(subs, left, nextId).got
  {
    assert left + subs[nextId := []] == (left + subs)[nextId := []];
  }

  lemma DropSubscriber<T>(subs: map<SubscriberId, seq<T>>, left: map<SubscriberId, seq<T>>, nextId: nat, id: SubscriberId)
    requires MapsOk(subs, left, nextId)
    ensures id in subs ==>
      && MapsOk(subs - {id}, left[id := subs[id]], nextId)
      && FeedOf(subs - {id}, left[id := subs[id]], nextId) == Unsubscribed(FeedOf(subs, left, nextId), id)
    ensures id !in subs ==> FeedOf(subs, left, nextId) == Unsubscribed(FeedOf(subs, left, nextId), id)
  {
    if id in subs {
      assert left[id := subs[id]] + (subs - {id}) == left + subs;
    }
  }

  lemma PublishToAll<T>(subs: map<SubscriberId, seq<T>>, subs': map<SubscriberId, seq<T>>, left: map<SubscriberId, seq<T>>,
                        nextId: nat, batch: seq<T>)
    requires MapsOk(subs, left, nextId) && subs'.Keys == subs.Keys
    requires forall id :: id in subs ==> subs'[id] == subs[id] + batch
    ensures MapsOk(subs', left, nextId)
    ensures FeedOf(subs', left, nextId) == Published(FeedOf(subs, left, nextId), batch)
  {
    assert left + subs' == Published(FeedOf(subs, left, nextId), batch).got;
  }

  // ---------- The classes ----------

  /** MarketDataPublisher: a queue is represented by everything that was enqueued to it. */
  class MarketDataPublisher {
    var subscribers: map<SubscriberId, seq<MarketEvent>>
    var nextId: nat
    // The queues that are no longer subscribed; their owners still hold them.
    var left: map<SubscriberId, seq<MarketEvent>>

    ghost predicate Valid()
      reads this
    {
      MapsOk(subscribers, left, nextId)
    }

    ghost function Abs(): Feed<MarketEvent>
      reads this
    {
      FeedOf(subscribers, left, nextId)
    }

    constructor ()
      ensures Valid() && Abs() == EmptyFeed()
    {
      subscribers, nextId, left := map[], 1, map[];
    }

    method Subscribe() returns (id: SubscriberId)
      requires Valid()
      modifies this
      ensures Valid() && Abs() == Subscribed(old(Abs())) && id == old(nextId) && id !in old(Abs().got)
    {
      hide MapsOk, FeedOf, Subscribed;
      AddSubscriber(subscribers, left, nextId);
      id := nextId;
      nextId := nextId + 1;
      subscribers := subscribers[id := []];
    }

    method Unsubscribe(id: SubscriberId)
      requires Valid()
      modifies this
      ensures Valid() && Abs() == Unsubscribed(old(Abs()), id)
    {
      hide MapsOk, FeedOf, Unsubscribed;
      DropSubscriber(subscribers, left, nextId, id);
      if id in subscribers {
        left := left[id := subscribers[id]];
        subscribers := subscribers - {id};
      }
    }

    /** Every event goes to every queue, one enqueue at a time and in no particular order of queues. */
    method Publish(events: seq<MarketEvent>)
      requires Valid()
      modifies this`subscribers
      ensures Valid() && Abs() == Published(old(Abs()), events)
    {
      hide MapsOk, FeedOf, Published;
      var todo := subscribers.Keys;
      while todo != {}
        invariant todo <= subscribers.Keys == old(subscribers.Keys)
        invariant forall id :: id in subscribers ==>
          subscribers[id] == old(subscribers)[id] + (if id in todo then [] else events)
        decreases |todo|
      {
        var id :| id in todo;
        ghost var others := subscribers;
        for i := 0 to |events|
          invariant subscribers == others[id := old(subscribers)[id] + events[..i]]
        {
          subscribers := subscribers[id := subscribers[id] + [events[i]]];
          assert old(subscribers)[id] + events[..i] + [events[i]] == old(subscribers)[id] + events[..i + 1];
        }
        assert events[..|events|] == events;
        todo := todo - {id};
      }
      PublishToAll(old(subscribers), subscribers, left, nextId, events);
    }
  }

  /** TelemetryPublisher: as above for single records, with the subscriber count kept beside the map. */
  class TelemetryPublisher<T> {
    var subscribers: map<SubscriberId, seq<T>>
    var count: nat
    var nextId: nat
    var left: map<SubscriberId, seq<T>>

    ghost predicate Valid()
      reads this
    {
      MapsOk(subscribers, left, nextId) && count == |subscribers|
    }

    ghost function Abs(): Feed<T>
      reads this
    {
      FeedOf(subscribers, left, nextId)
    }

    constructor ()
      ensures Valid() && Abs() == EmptyFeed()
    {
      subscribers, nextId, left, count := map[], 1, map[], 0;
    }

    method Subscribe() returns (id: SubscriberId)
      requires Valid()
      modifies this
      ensures Valid() && Abs() == Subscribed(old(Abs())) && id == old(nextId) && id !in old(Abs().got)
    {
      hide MapsOk, FeedOf, Subscribed;
      AddSubscriber(subscribers, left, nextId);
      id := nextId;
      nextId := nextId + 1;
      subscribers := subscribers[id := []];
      count := |subscribers|;
    }

    method Unsubscribe(id: SubscriberId)
      requires Valid()
      modifies this
      ensures Valid() && Abs() == Unsubscribed(old(Abs()), id)
    {
      hide MapsOk, FeedOf, Unsubscribed;
      DropSubscriber(subscribers, left, nextId, id);
      if id in subscribers {
        left := left[id := subscribers[id]];
        subscribers := subscribers - {id};
      }
      count := |subscribers|;
    }

    method HasSubscribers() returns (yes: bool)
      requires Valid()
      ensures yes <==> Abs().active != {}
    {
      assert count == |subscribers.Keys|;
      yes := count != 0;
    }

    method Publish(record: T)
      requires Valid()
      modifies this`subscribers
      ensures Valid() && Abs() == Published(old(Abs()), [record])
    {
      hide MapsOk, FeedOf, Published;
      var todo := subscribers.Keys;
      while todo != {}
        invariant todo <= subscribers.Keys == old(subscribers.Keys)
        invariant forall id :: id in subscribers ==>
          subscribers[id] == old(subscribers)[id] + (if id in todo then [] else [record])
        decreases |todo|
      {
        var id :| id in todo;
        subscribers := subscribers[id := subscribers[id] + [record]];
        todo := todo - {id};
      }
      PublishToAll(old(subscribers), subscribers, left, nextId, [record]);
      assert |subscribers| == |subscribers.Keys| && |old(subscribers)| == |old(subscribers).Keys|;
    }
  }

  // ---------- Runs ----------

  datatype FeedOp<T> = Sub | Unsub(id: SubscriberId) | Pub(batch: seq<T>)

  function FeedStep<T>(f: Feed<T>, op: FeedOp<T>): Feed<T> {
    match op
    case Sub => Subscribed(f)
    case Unsub(id) => Unsubscribed(f, id)
    case Pub(batch) => Published(f, batch)
  }

  function FeedAfter<T>(ops: seq<FeedOp<T>>): Feed<T> {
    if ops == [] then EmptyFeed() else FeedStep(FeedAfter(ops[..|ops| - 1]), ops[|ops| - 1])
  }

  /** The batches published in a piece of a run, one after the other. */
  function Batches<T>(ops: seq<FeedOp<T>>): seq<T> {
    if ops == [] then []
    else
      Batches(ops[..|ops| - 1]) + if ops[|ops| - 1].Pub? then ops[|ops| - 1].batch else []
  }

  /** Step `i` subscribes `id`: ids are handed out in order, starting at 1. */
  ghost predicate Subscribes<T>(ops: seq<FeedOp<T>>, i: nat, id: SubscriberId) {
    i < |ops| && ops[i].Sub? && FeedAfter(ops[..i]).nextId == id
  }

  /** `u` is the step that unsubscribes `id` after step `i`, or the end of the run. */
  ghost predicate SubscribedUntil<T>(ops: seq<FeedOp<T>>, i: nat, u: nat, id: SubscriberId) {
    && i < u <= |ops|
    && (forall k :: i < k < u ==> ops[k] != Unsub(id))
    && (u < |ops| ==> ops[u] == Unsub(id))
  }

  lemma {:induction false} FeedAfterOk<T>(ops: seq<FeedOp<T>>, i: nat)
    requires i <= |ops|
    ensures FeedOk(FeedAfter(ops)) && FeedAfter(ops[..i]).nextId <= FeedAfter(ops).nextId
    ensures i < |ops| && ops[i].Sub? ==> FeedAfter(ops[..i]).nextId < FeedAfter(ops).nextId
  {
    if ops != [] {
      var n := |ops| - 1;
      FeedAfterOk(ops[..n], if i < n then i else n);
      StepOk(FeedAfter(ops[..n]), ops[n]);
      if i <= n {
        assert ops[..n][..i] == ops[..i];
      } else {
        assert ops[..i] == ops;
      }
    }
  }

  lemma StepOk<T>(f: Feed<T>, op: FeedOp<T>)
    requires FeedOk(f)
    ensures FeedOk(FeedStep(f, op)) && f.nextId <= FeedStep(f, op).nextId
    ensures op.Sub? ==> f.nextId < FeedStep(f, op).nextId
  {
  }

  /** One step, seen by one subscriber. */
  lemma StepGot<T>(f: Feed<T>, op: FeedOp<T>, id: SubscriberId)
    requires FeedOk(f) && id in f.got
    ensures var f' := FeedStep(f, op);
      && id in f'.got && f'.got[id] == f.got[id] + (if op.Pub? && id in f.active then op.batch else [])
      && (id in f'.active <==> id in f.active && op != Unsub(id))
  {
  }

  lemma BatchesStep<T>(ops: seq<FeedOp<T>>, i: nat, n: nat)
    requires i <= n < |ops|
    ensures Batches(ops[i..n + 1]) == Batches(ops[i..n]) + if ops[n].Pub? then ops[n].batch else []
  {
    assert ops[i..n + 1][..n - i] == ops[i..n];
  }

  lemma BatchesNone<T>(ops: seq<FeedOp<T>>, i: nat)
    requires i < |ops| && ops[i].Sub?
    ensures Batches(ops[i..i + 1]) == []
  {
    assert ops[i..i + 1][..0] == [];
  }

  /** Each subscriber receives exactly the whole batches published between its subscribe and its unsubscribe, in
      order, and keeps them afterwards; whatever anybody else does in between. */
  lemma {:induction false} SubscriberGetsWindow<T>(ops: seq<FeedOp<T>>, i: nat, u: nat, id: SubscriberId)
    requires Subscribes(ops, i, id) && SubscribedUntil(ops, i, u, id)
    ensures var f := FeedAfter(ops);
      id in f.got && f.got[id] == Batches(ops[i..u]) && (id in f.active <==> u == |ops|)
  {
    hide FeedOk, FeedStep, Batches;
    var n := |ops| - 1;
    var ops' := ops[..n];
    FeedAfterOk(ops', 0);
    assert FeedAfter(ops) == FeedStep(FeedAfter(ops'), ops[n]);
    assert ops'[..i] == ops[..i];
    if i == n {
      BatchesNone(ops, i);
      NewSubscriber(FeedAfter(ops'));
    } else {
      var u' := if u <= n then u else n;
      SubscriberGetsWindow(ops', i, u', id);
      assert ops'[i..u'] == ops[i..u'];
      StepGot(FeedAfter(ops'), ops[n], id);
      BatchesStep(ops, i, n);
    }
  }

  lemma NewSubscriber<T>(f: Feed<T>)
    ensures var f' := FeedStep(f, Sub);
      f.nextId in f'.got && f'.got[f.nextId] == [] && f.nextId in f'.active
  {
  }
}
