/**
  The engine thread among subscribers: processing one message is a sequence of steps, and either publisher may gain or
  lose subscribers between any two of them.
  */
module EngineRuns {
  import opened MarketTypes
  import F = FlatBook
  import opened EngineSpec
  import opened Publishers
  import BookRuns

  /** Where process() is; `number` is the sequence number taken when telemetry was on at its start. */
  datatype Phase =
    | Idle
    | Begun(number: Option<nat>)
    | Matched(number: Option<nat>, step: F.Step)
    | Answered(number: Option<nat>, step: F.Step)
    | Announced(number: Option<nat>, step: F.Step)

  /** A record together with the position of its message, for the statements below. */
  datatype Entry = Entry(index: nat, record: Record)

  /** The last six are history: the messages begun, the events published, the steps of either publisher, how many
      messages had begun when a telemetry subscriber came, and how many were done when it left. */
  datatype State = State(
    book: F.Book, seqNo: nat, phase: Phase, replies: seq<Reply>, market: Feed<MarketEvent>, tele: Feed<Entry>,
    ms: seq<Message>, stream: seq<MarketEvent>, marketOps: seq<FeedOp<MarketEvent>>,
    teleOps: seq<FeedOp<Entry>>, since: map<SubscriberId, nat>, until: map<SubscriberId, nat>)

  datatype Action =
    | Begin(m: Message) | Match | Answer | Announce | Report
    | SubMarket | UnsubMarket(id: SubscriberId) | SubTele | UnsubTele(id: SubscriberId)

  function Initial(): State {
    State(F.EmptyBook(), 0, Idle, [], EmptyFeed(), EmptyFeed(), [], [], [], [], map[], map[])
  }

  predicate Enabled(s: State, a: Action) {
    match a
    case Begin(_) => s.phase.Idle?
    case Match => s.phase.Begun? && s.ms != []
    case Answer => s.phase.Matched? && s.ms != []
    case Announce => s.phase.Answered?
    case Report => s.phase.Announced? && s.ms != []
    case _ => true
  }

  function Act(s: State, a: Action): State
    requires Enabled(s, a)
  {
    match a
    case Begin(m) =>
      // hasSubscribers() decides whether this message is recorded at all.
      if s.tele.active != {} then s.(ms := s.ms + [m], seqNo := s.seqNo + 1, phase := Begun(Some(s.seqNo + 1)))
      else s.(ms := s.ms + [m], phase := Begun(None))
    case Match =>
      var st := Handle(s.book, s.ms[|s.ms| - 1]);
      s.(book := st.book, phase := Matched(s.phase.number, st))
    case Answer =>
      var m := s.ms[|s.ms| - 1];
      s.(phase := Answered(s.phase.number, s.phase.step),
         replies := s.replies + if m.promise.Some? then [Reply(m.promise.value, s.phase.step.result)] else [])
    case Announce =>
      var s' := s.(phase := Announced(s.phase.number, s.phase.step));
      if s.phase.step.events == [] then s'
      else
        s'.(market := Published(s.market, s.phase.step.events), marketOps := s.marketOps + [Pub(s.phase.step.events)],
            stream := s.stream + s.phase.step.events)
    case Report =>
      if s.phase.number.None? then s.(phase := Idle)
      else
        var e := Entry(|s.ms| - 1, RecordFor(s.ms[|s.ms| - 1], s.phase.step, s.phase.number.value));
        s.(phase := Idle, tele := Published(s.tele, [e]), teleOps := s.teleOps + [Pub([e])])
    case SubMarket => s.(market := Subscribed(s.market), marketOps := s.marketOps + [Sub])
    case UnsubMarket(id) => s.(market := Unsubscribed(s.market, id), marketOps := s.marketOps + [Unsub(id)])
    case SubTele => s.(tele := Subscribed(s.tele), teleOps := s.teleOps + [Sub], since := s.since[s.tele.nextId := |s.ms|])
    case UnsubTele(id) =>
      s.(tele := Unsubscribed(s.tele, id), teleOps := s.teleOps + [Unsub(id)],
         until := if id in s.tele.active then s.until[id := DoneCount(s)] else s.until)
  }

  ghost predicate IsRun(states: seq<State>, actions: seq<Action>) {
    && |states| == |actions| + 1 && states[0] == Initial()
    && forall i :: 0 <= i < |actions| ==> Enabled(states[i], actions[i]) && states[i + 1] == Act(states[i], actions[i])
  }

  // ---------- Invariants ----------

  /** How many messages have been matched, answered and announced. */
  function MatchedCount(s: State): nat {
    if s.phase.Begun? && s.ms != [] then |s.ms| - 1 else |s.ms|
  }

  function AnsweredCount(s: State): nat {
    if (s.phase.Begun? || s.phase.Matched?) && s.ms != [] then |s.ms| - 1 else |s.ms|
  }

  function AnnouncedCount(s: State): nat {
    if (s.phase.Begun? || s.phase.Matched? || s.phase.Answered?) && s.ms != [] then |s.ms| - 1 else |s.ms|
  }

  /** How many messages are completely processed. */
  function DoneCount(s: State): nat {
    if !s.phase.Idle? && s.ms != [] then |s.ms| - 1 else |s.ms|
  }

  /** The engine agrees with the sequential book. */
  ghost predicate BookInv(s: State) {
    && (!s.phase.Idle? ==> s.ms != [])
    && s.book == BookAfter(s.ms[..MatchedCount(s)])
    && s.replies == Replies(s.ms[..AnsweredCount(s)])
    && s.stream == Stream(s.ms[..AnnouncedCount(s)])
    && (!s.phase.Idle? && !s.phase.Begun? ==> s.phase.step == StepOf(s.ms, |s.ms| - 1))
  }

  ghost predicate MarketInv(s: State) {
    s.market == FeedAfter(s.marketOps) && s.stream == Batches(s.marketOps)
  }

  ghost predicate TeleFeedInv(s: State) {
    s.tele == FeedAfter(s.teleOps)
  }

  /** Records of consecutive messages, numbered consecutively. */
  ghost predicate Consecutive(es: seq<Entry>, ms: seq<Message>) {
    forall k :: 0 <= k < |es| ==>
      && es[k].index == es[0].index + k && es[k].index < |ms|
      && es[k].record == RecordOf(ms, es[k].index, es[0].record.seqNo + k)
  }

  /** The number of the last message recorded and published. */
  function LastNumber(s: State): int {
    if !s.phase.Idle? && s.phase.number.Some? then s.seqNo - 1 else s.seqNo
  }

  /** An active subscriber has every message from its first record on, and is waiting for the current one. */
  ghost predicate UpToDate(s: State, id: SubscriberId)
    requires id in s.tele.got && id in s.since
  {
    var es := s.tele.got[id];
    if es == [] then
      DoneCount(s) <= s.since[id] && (!s.phase.Idle? && s.since[id] < |s.ms| ==> s.phase.number.Some?)
    else
      && es[0].index <= s.since[id]
      && es[|es| - 1].index + 1 == DoneCount(s) && es[|es| - 1].record.seqNo == LastNumber(s)
      && (!s.phase.Idle? ==> s.phase.number.Some?)
  }

  /** Records from the first message begun after `since` messages (or the one before) up to the first `end` messages. */
  ghost predicate Reaches(es: seq<Entry>, since: nat, end: nat) {
    if es == [] then end <= since else es[0].index <= since && es[|es| - 1].index + 1 == end
  }

  ghost predicate TeleInv(s: State) {
    && FeedOk(s.tele) && s.since.Keys == s.tele.got.Keys
    && (!s.phase.Idle? && s.phase.number.Some? ==> s.phase.number.value == s.seqNo)
    && (forall id :: id in s.tele.got ==> Consecutive(s.tele.got[id], s.ms) && s.since[id] <= |s.ms|)
    && (forall id :: id in s.tele.active ==> UpToDate(s, id))
  }

  /** Subscribers that have left. */
  ghost predicate LeftInv(s: State) {
    && s.since.Keys == s.tele.got.Keys && s.until.Keys == s.tele.got.Keys - s.tele.active
    && forall id :: id in s.until ==> Reaches(s.tele.got[id], s.since[id], s.until[id])
  }

  lemma BookStep(s: State, a: Action)
    requires BookInv(s) && Enabled(s, a)
    ensures BookInv(Act(s, a))
  {
    hide Handle, Replies, Stream, BookAfter;
    var s', n := Act(s, a), |s.ms| - 1;
    assert s.ms[..|s.ms|] == s.ms;
    assert s'.ms[..|s'.ms|] == s'.ms;
    if a.Begin? {
      assert s'.ms[..|s.ms|] == s.ms;
    } else if n >= 0 {
      assert s.ms == s.ms[..n] + [s.ms[n]];
      RepliesSnoc(s.ms[..n], s.ms[n]);
    }
  }

  lemma MarketStep(s: State, a: Action)
    requires MarketInv(s) && Enabled(s, a)
    ensures MarketInv(Act(s, a))
  {
    hide Handle, Published, Subscribed, Unsubscribed, RecordFor, FeedAfter, Batches;
    match a
    case Announce => FeedSnoc(s.marketOps, Pub(s.phase.step.events));
    case SubMarket => FeedSnoc(s.marketOps, Sub);
    case UnsubMarket(id) => FeedSnoc(s.marketOps, Unsub(id));
    case _ =>
  }

  lemma TeleFeedStep(s: State, a: Action)
    requires TeleFeedInv(s) && Enabled(s, a)
    ensures TeleFeedInv(Act(s, a))
  {
    hide Handle, Published, Subscribed, Unsubscribed, RecordFor, FeedAfter, Batches;
    match a
    case Report =>
      if s.phase.number.Some? {
        FeedSnoc(s.teleOps, Pub([Entry(|s.ms| - 1, RecordFor(s.ms[|s.ms| - 1], s.phase.step, s.phase.number.value))]));
      }
    case SubTele => FeedSnoc(s.teleOps, Sub);
    case UnsubTele(id) => FeedSnoc(s.teleOps, Unsub(id));
    case _ =>
  }

  lemma FeedSnoc<T>(ops: seq<FeedOp<T>>, op: FeedOp<T>)
    ensures FeedAfter(ops + [op]) == FeedStep(FeedAfter(ops), op)
    ensures Batches(ops + [op]) == Batches(ops) + if op.Pub? then op.batch else []
  {
    assert (ops + [op])[..|ops|] == ops;
  }

  // ---------- Telemetry ----------

  lemma ConsecutiveLater(es: seq<Entry>, ms: seq<Message>, m: Message)
    requires Consecutive(es, ms)
    ensures Consecutive(es, ms + [m])
  {
    hide RecordFor, Handle;
    forall k | 0 <= k < |es| ensures RecordOf(ms + [m], es[k].index, es[0].record.seqNo + k) == RecordOf(ms, es[k].index, es[0].record.seqNo + k) {
      assert (ms + [m])[..|ms|] == ms;
      StepOfPrefix(ms + [m], |ms|, es[k].index);
    }
  }

  lemma ConsecutiveNext(es: seq<Entry>, ms: seq<Message>, e: Entry)
    requires Consecutive(es, ms) && e.index < |ms|
    requires e.record == RecordOf(ms, e.index, e.record.seqNo)
    requires es != [] ==> e.index == es[|es| - 1].index + 1 && e.record.seqNo == es[|es| - 1].record.seqNo + 1
    ensures Consecutive(es + [e], ms)
  {
    hide RecordFor, Handle;
    if es != [] { RecordNumber(ms, es[|es| - 1].index, es[0].record.seqNo + |es| - 1); }
  }

  lemma RecordNumber(ms: seq<Message>, i: nat, seqNo: nat)
    requires i < |ms|
    ensures RecordOf(ms, i, seqNo).seqNo == seqNo
  {
  }

  lemma TeleBegin(s: State, m: Message)
    requires TeleInv(s) && BookInv(s) && s.phase.Idle?
    ensures TeleInv(Act(s, Begin(m)))
  {
    hide Consecutive, BookInv;
    var s' := Act(s, Begin(m));
    forall id | id in s'.tele.got ensures Consecutive(s'.tele.got[id], s'.ms) {
      ConsecutiveLater(s.tele.got[id], s.ms, m);
    }
    forall id | id in s'.tele.active ensures UpToDate(s', id) {
      assert UpToDate(s, id);
      assert s.tele.active != {};
    }
  }

  lemma TeleReport(s: State)
    requires TeleInv(s) && BookInv(s) && Enabled(s, Report)
    ensures TeleInv(Act(s, Report))
  {
    hide Consecutive, RecordFor, Handle;
    var s' := Act(s, Report);
    if s.phase.number.Some? {
      var e := Entry(|s.ms| - 1, RecordFor(s.ms[|s.ms| - 1], s.phase.step, s.phase.number.value));
      RecordNumber(s.ms, |s.ms| - 1, s.phase.number.value);
      assert e.record == RecordOf(s.ms, e.index, e.record.seqNo);
      forall id | id in s'.tele.got ensures Consecutive(s'.tele.got[id], s'.ms) {
        if id in s.tele.active {
          assert UpToDate(s, id);
          ConsecutiveNext(s.tele.got[id], s.ms, e);
        }
      }
      forall id | id in s'.tele.active ensures UpToDate(s', id) {
        assert UpToDate(s, id);
        assert s'.tele.got[id] == s.tele.got[id] + [e];
      }
    } else {
      forall id | id in s'.tele.active ensures UpToDate(s', id) {
        assert UpToDate(s, id);
      }
    }
  }

  lemma TeleSubscribe(s: State)
    requires TeleInv(s)
    ensures TeleInv(Act(s, SubTele))
  {
    hide Consecutive;
    var s' := Act(s, SubTele);
    NoneConsecutive(s.ms);
    forall id | id in s'.tele.active ensures UpToDate(s', id) {
      if id != s.tele.nextId { assert UpToDate(s, id); }
    }
  }

  /** A subscriber that leaves has the records of every message done by then, and keeps them. */
  lemma LeftStep(s: State, a: Action)
    requires TeleInv(s) && LeftInv(s) && Enabled(s, a)
    ensures LeftInv(Act(s, a))
  {
    hide Consecutive, Handle, RecordFor, DoneCount, Reaches, FeedOk;
    var s' := Act(s, a);
    assert FeedKeys(s) by { NewSubscriberKey(s); }
    if a.UnsubTele? && a.id in s.tele.active {
      LastRecord(s, a.id);
    }
  }

  ghost predicate FeedKeys(s: State) {
    s.tele.nextId !in s.tele.got && s.tele.active <= s.tele.got.Keys
  }

  lemma NewSubscriberKey(s: State)
    requires TeleInv(s)
    ensures FeedKeys(s)
  {
    hide Consecutive, UpToDate;
  }

  lemma LastRecord(s: State, id: SubscriberId)
    requires TeleInv(s) && id in s.tele.active
    ensures id in s.since && id in s.tele.got && Reaches(s.tele.got[id], s.since[id], DoneCount(s))
  {
    hide Consecutive;
    assert UpToDate(s, id);
  }

  lemma NoneConsecutive(ms: seq<Message>)
    ensures Consecutive([], ms)
  {
  }

  lemma TeleStep(s: State, a: Action)
    requires TeleInv(s) && BookInv(s) && Enabled(s, a)
    ensures TeleInv(Act(s, a))
  {
    hide Consecutive, BookInv, Handle, RecordFor, Published, Subscribed;
    match a
    case Begin(m) => TeleBegin(s, m);
    case Report => TeleReport(s);
    case SubTele => TeleSubscribe(s);
    case _ =>
      var s' := Act(s, a);
      forall id | id in s'.tele.active ensures UpToDate(s', id) { assert UpToDate(s, id); }
  }

  // ---------- Runs ----------

  lemma {:induction false} RunInv(states: seq<State>, actions: seq<Action>, n: nat)
    requires IsRun(states, actions) && n < |states|
    ensures BookInv(states[n]) && MarketInv(states[n]) && TeleInv(states[n]) && TeleFeedInv(states[n]) && LeftInv(states[n])
  {
    hide BookInv, MarketInv, TeleInv, TeleFeedInv, LeftInv;
    if n == 0 {
      InitialInv();
    } else {
      RunInv(states, actions, n - 1);
      BookStep(states[n - 1], actions[n - 1]);
      MarketStep(states[n - 1], actions[n - 1]);
      TeleStep(states[n - 1], actions[n - 1]);
      TeleFeedStep(states[n - 1], actions[n - 1]);
      LeftStep(states[n - 1], actions[n - 1]);
    }
  }

  lemma InitialInv()
    ensures BookInv(Initial()) && MarketInv(Initial()) && TeleInv(Initial()) && TeleFeedInv(Initial()) && LeftInv(Initial())
  {
  }

  /** In every interleaving the engine is the sequential book: each message is answered at most once, in order, with
      the result the book gives at that point, and the published stream is the events of that book, batch by batch. */
  lemma EngineRefinesBook(states: seq<State>, actions: seq<Action>, n: nat)
    requires IsRun(states, actions) && n < |states|
    ensures var s := states[n];
      && s.replies == Replies(s.ms[..AnsweredCount(s)])
      && s.stream == Stream(s.ms[..AnnouncedCount(s)])
      && s.stream == BookRuns.Events(OpsOf(s.ms[..AnnouncedCount(s)]))
      && s.book == BookRuns.After(OpsOf(s.ms[..MatchedCount(s)]))
  {
    hide MarketInv, TeleInv, TeleFeedInv, LeftInv, Replies, Stream, BookAfter, StepOf;
    RunInv(states, actions, n);
    var s := states[n];
    EngineIsBookRun(s.ms[..AnnouncedCount(s)]);
    EngineIsBookRun(s.ms[..MatchedCount(s)]);
  }

  lemma {:induction false} BatchesSplit<T>(ops: seq<FeedOp<T>>, i: nat)
    requires i <= |ops|
    ensures Batches(ops) == Batches(ops[..i]) + Batches(ops[i..])
  {
    if i == |ops| {
      assert ops[..i] == ops && ops[i..] == [];
    } else {
      var n := |ops| - 1;
      BatchesSplit(ops[..n], i);
      assert ops[..n][..i] == ops[..i] && ops[..n][i..] == ops[i..n];
      BatchesStep(ops, i, n);
      assert ops[i..n + 1] == ops[i..];
    }
  }

  /** In every interleaving a market data subscriber holds one unbroken stretch of the book's event stream, cut at
      batch boundaries: what was published from its subscribe to its unsubscribe. */
  lemma MarketSubscriberSees(states: seq<State>, actions: seq<Action>, n: nat, i: nat, u: nat, id: SubscriberId)
    requires IsRun(states, actions) && n < |states|
    requires Subscribes(states[n].marketOps, i, id) && SubscribedUntil(states[n].marketOps, i, u, id)
    ensures var s := states[n];
      && id in s.market.got
      && s.stream == Batches(s.marketOps[..i]) + s.market.got[id] + Batches(s.marketOps[u..])
  {
    hide BookInv, TeleInv, TeleFeedInv, LeftInv, Batches, FeedAfter;
    RunInv(states, actions, n);
    var ops := states[n].marketOps;
    SubscriberGetsWindow(ops, i, u, id);
    BatchesSplit(ops, u);
    BatchesSplit(ops[..u], i);
    assert ops[..u][..i] == ops[..i] && ops[..u][i..] == ops[i..u];
  }

  /** The number of messages a subscriber's records reach to: all that are done, or that were done when it left. */
  function EndOf(s: State, id: SubscriberId): nat {
    if id in s.until then s.until[id] else DoneCount(s)
  }

  /** In every interleaving a telemetry subscriber holds the records of consecutive messages with consecutive sequence
      numbers, each with the result, events and depth of the sequential book; from the first message begun after it came
      to the last one done while it was subscribed none is missing. */
  lemma TelemetryIsConsecutive(states: seq<State>, actions: seq<Action>, n: nat, id: SubscriberId)
    requires IsRun(states, actions) && n < |states| && id in states[n].tele.got
    ensures var s := states[n]; var es := s.tele.got[id];
      && (forall k :: 0 <= k < |es| ==>
            && es[k].index == es[0].index + k && es[k].index < |s.ms|
            && es[k].record == RecordOf(s.ms, es[k].index, es[0].record.seqNo + k))
      && id in s.since && (id in s.tele.active <==> id !in s.until)
      && (if es == [] then EndOf(s, id) <= s.since[id]
          else es[0].index <= s.since[id] && es[|es| - 1].index + 1 == EndOf(s, id))
  {
    hide BookInv, MarketInv, TeleFeedInv, RecordFor, StepOf;
    RunInv(states, actions, n);
    if id in states[n].tele.active { assert UpToDate(states[n], id); }
  }

  /** In every interleaving a telemetry subscriber holds exactly the records published from its subscribe to its
      unsubscribe. */
  lemma TelemetrySubscriberSees(states: seq<State>, actions: seq<Action>, n: nat, i: nat, u: nat, id: SubscriberId)
    requires IsRun(states, actions) && n < |states|
    requires Subscribes(states[n].teleOps, i, id) && SubscribedUntil(states[n].teleOps, i, u, id)
    ensures var s := states[n];
      id in s.tele.got && s.tele.got[id] == Batches(s.teleOps[i..u]) && (id in s.tele.active <==> u == |s.teleOps|)
  {
    hide BookInv, MarketInv, TeleInv, LeftInv, Batches, FeedAfter;
    RunInv(states, actions, n);
    SubscriberGetsWindow(states[n].teleOps, i, u, id);
  }
}
