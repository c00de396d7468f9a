/** Messages of the matching engine and the sequential book they are handled by. */
module EngineSpec {
  import opened MarketTypes
  import opened FlatBook
  import opened BookRuns
  import opened BookInvariant

  datatype Payload = NoPayload | SubmitPayload(order: Order) | CancelPayload(orderId: OrderId, nodeId: NodeId)

  /** A queued message, the name of the promise that waits for its result, and the clock when it is processed. */
  datatype Message = Message(payload: Payload, promise: Option<nat>, ts: nat)

  datatype Record = Record(seqNo: nat, ts: nat, isCancel: bool, orderId: OrderId, nodeId: NodeId, side: Side, otype: OrderType,
                           price: real, qty: int, result: EngineResult, events: seq<MarketEvent>, depth: BookDepth)

  datatype Reply = Reply(promise: nat, result: EngineResult)

  /** The result of a message without payload. */
  function NoResult(ts: nat): EngineResult {
    EngineResult(StatusUnspecified, "", 0, 0.0, ts, NoReason, false)
  }

  function Handle(b: Book, m: Message): Step {
    match m.payload
    case NoPayload => Step(b, NoResult(m.ts), [])
    case SubmitPayload(o) => Submit(b, o, m.ts)
    case CancelPayload(id, _) => Cancel(b, id, m.ts)
  }

  /** The book after a sequence of messages. */
  function BookAfter(ms: seq<Message>): Book {
    if ms == [] then EmptyBook() else Handle(BookAfter(ms[..|ms| - 1]), ms[|ms| - 1]).book
  }

  /** What the sequential book answers to message `i`. */
  function StepOf(ms: seq<Message>, i: nat): Step
    requires i < |ms|
  {
    Handle(BookAfter(ms[..i]), ms[i])
  }

  function RecordFor(m: Message, st: Step, seqNo: nat): Record {
    var depth := DepthOf(st.book, 10);
    match m.payload
    case NoPayload =>
      Record(seqNo, m.ts, false, "", "", SideUnspecified, TypeUnspecified, 0.0, 0, st.result, st.events, depth)
    case SubmitPayload(o) =>
      Record(seqNo, m.ts, false, o.id, o.node, o.side, o.otype, o.price, o.qty, st.result, st.events, depth)
    case CancelPayload(id, node) =>
      Record(seqNo, m.ts, true, id, node, SideUnspecified, TypeUnspecified, 0.0, 0, st.result, st.events, depth)
  }

  /** The record of message `i` in a sequential run. */
  function RecordOf(ms: seq<Message>, i: nat, seqNo: nat): Record
    requires i < |ms|
  {
    RecordFor(ms[i], StepOf(ms, i), seqNo)
  }

  /** The records of the messages from `i` on, numbered after `seqNo`. */
  function RecordsFrom(ms: seq<Message>, i: nat, seqNo: nat): seq<Record>
    requires i <= |ms|
  {
    if i == |ms| then []
    else
      var n := |ms| - 1;
      RecordsFrom(ms[..n], i, seqNo) + [RecordOf(ms, n, seqNo + |ms| - i)]
  }

  /** One reply for each message that carries a promise, in order. */
  function Replies(ms: seq<Message>): seq<Reply> {
    if ms == [] then []
    else
      var n := |ms| - 1;
      Replies(ms[..n]) + if ms[n].promise.Some? then [Reply(ms[n].promise.value, StepOf(ms, n).result)] else []
  }

  /** The event batches of the messages, one after the other. */
  function Stream(ms: seq<Message>): seq<MarketEvent> {
    if ms == [] then [] else Stream(ms[..|ms| - 1]) + StepOf(ms, |ms| - 1).events
  }

  // ---------- Messages as book operations ----------

  function OpsOf(ms: seq<Message>): seq<Op> {
    if ms == [] then []
    else
      var m := ms[|ms| - 1];
      OpsOf(ms[..|ms| - 1]) +
      match m.payload
      case NoPayload => []
      case SubmitPayload(o) => [SubmitOp(o, m.ts)]
      case CancelPayload(id, node) => [CancelOp(id, node, m.ts)]
  }

  /** Whatever holds of runs of the book holds of the engine: messages without payload leave no trace. */
  lemma {:induction false} EngineIsBookRun(ms: seq<Message>)
    ensures BookAfter(ms) == After(OpsOf(ms)) && Stream(ms) == Events(OpsOf(ms))
  {
    hide Submit, Cancel;
    if ms != [] {
      var n := |ms| - 1;
      EngineIsBookRun(ms[..n]);
      var ops, ops' := OpsOf(ms[..n]), OpsOf(ms);
      if !ms[n].payload.NoPayload? {
        assert ops'[..|ops|] == ops;
        assert Last(ops') == StepOf(ms, n);
      } else {
        assert ops' == ops;
      }
    }
  }

  /** Appending messages does not change what happened before. */
  lemma StepOfPrefix(ms: seq<Message>, n: nat, i: nat)
    requires i < n <= |ms|
    ensures StepOf(ms[..n], i) == StepOf(ms, i)
  {
    assert ms[..n][..i] == ms[..i];
  }

  lemma RepliesSnoc(ms: seq<Message>, m: Message)
    ensures Replies(ms + [m]) == Replies(ms) + if m.promise.Some? then [Reply(m.promise.value, Handle(BookAfter(ms), m).result)] else []
    ensures Stream(ms + [m]) == Stream(ms) + Handle(BookAfter(ms), m).events
    ensures BookAfter(ms + [m]) == Handle(BookAfter(ms), m).book
    ensures StepOf(ms + [m], |ms|) == Handle(BookAfter(ms), m)
  {
    assert (ms + [m])[..|ms|] == ms;
  }

  /** No two messages share a promise. */
  ghost predicate FreshPromises(ms: seq<Message>) {
    forall i, j :: 0 <= i < j < |ms| && ms[i].promise.Some? && ms[j].promise.Some? ==> ms[i].promise != ms[j].promise
  }

  /** Each promise is answered exactly once, with the result of its own message. */
  lemma {:induction false} AnsweredOnce(ms: seq<Message>, i: nat) returns (k: nat)
    requires FreshPromises(ms) && i < |ms| && ms[i].promise.Some?
    ensures k < |Replies(ms)| && Replies(ms)[k] == Reply(ms[i].promise.value, StepOf(ms, i).result)
    ensures forall j :: 0 <= j < |Replies(ms)| && Replies(ms)[j].promise == ms[i].promise.value ==> j == k
  {
    hide StepOf;
    var n := |ms| - 1;
    if i == n {
      k := |Replies(ms)| - 1;
      NoReplyYet(ms[..n], ms[n].promise.value);
    } else {
      k := AnsweredOnce(ms[..n], i);
      StepOfPrefix(ms, n, i);
      assert ms[n].promise.Some? ==> ms[n].promise != ms[i].promise;
    }
  }

  lemma NoReplyYet(ms: seq<Message>, promise: nat)
    requires forall i :: 0 <= i < |ms| ==> ms[i].promise != Some(promise)
    ensures forall j :: 0 <= j < |Replies(ms)| ==> Replies(ms)[j].promise != promise
  {
    forall j | 0 <= j < |Replies(ms)| ensures Replies(ms)[j].promise != promise {
      var i := Answers(ms, j);
      assert ms[i].promise != Some(promise);
    }
  }

  /** Every reply belongs to a message. */
  lemma {:induction false} Answers(ms: seq<Message>, j: nat) returns (i: nat)
    requires j < |Replies(ms)|
    ensures i < |ms| && ms[i].promise == Some(Replies(ms)[j].promise)
  {
    var n := |ms| - 1;
    if j < |Replies(ms[..n])| {
      i := Answers(ms[..n], j);
    } else {
      i := n;
    }
  }

  // ---------- Messages of a well-behaved service ----------

  /** Ids are drawn from a counter and quantities are not negative. */
  ghost predicate Sound(ms: seq<Message>) {
    FreshIds(OpsOf(ms)) && NonNegative(OpsOf(ms))
  }

  lemma {:induction false} OpsPrefix(all: seq<Message>, n: nat)
    requires n < |all| && all[n].payload.SubmitPayload? && FreshIds(OpsOf(all))
    ensures !Submitted(OpsOf(all[..n]), all[n].payload.order.id)
  {
    if n == |all| - 1 {
      var ops := OpsOf(all);
      assert ops[|ops| - 1] == SubmitOp(all[n].payload.order, all[n].ts);
      assert OpsOf(all[..n]) == ops[..|ops| - 1];
    } else {
      var k := |all| - 1;
      var ops := OpsOf(all);
      assert OpsOf(all[..k]) == ops[..|OpsOf(all[..k])|];
      assert all[..k][..n] == all[..n];
      OpsPrefix(all[..k], n);
    }
  }

  lemma SoundPrefix(ms: seq<Message>)
    requires Sound(ms) && ms != []
    ensures Sound(ms[..|ms| - 1])
  {
    var ops, ops' := OpsOf(ms[..|ms| - 1]), OpsOf(ms);
    assert ops == ops'[..|ops|];
  }

  /** The next message of a sound run finds a proper book, and a submit finds its id unused. */
  lemma SoundNext(ms: seq<Message>)
    requires Sound(ms) && ms != []
    ensures var n := |ms| - 1; var b := BookAfter(ms[..n]);
      && BookOk(b)
      && (ms[n].payload.SubmitPayload? ==>
            ms[n].payload.order.qty >= 0 && !Has(b.bids, ms[n].payload.order.id) && !Has(b.asks, ms[n].payload.order.id))
  {
    hide BookOk, After, BookAfter, Has;
    var n := |ms| - 1;
    SoundPrefix(ms);
    EngineIsBookRun(ms[..n]);
    RunOk(OpsOf(ms[..n]));
    if ms[n].payload.SubmitPayload? {
      OpsPrefix(ms, n);
      NewId(OpsOf(ms[..n]), ms[n].payload.order.id);
      var ops := OpsOf(ms);
      assert ops[|ops| - 1] == SubmitOp(ms[n].payload.order, ms[n].ts);
    }
  }

  lemma SoundBook(ms: seq<Message>)
    requires Sound(ms)
    ensures BookOk(BookAfter(ms))
  {
    hide BookOk, After, BookAfter;
    EngineIsBookRun(ms);
    RunOk(OpsOf(ms));
  }
}
