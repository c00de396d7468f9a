/** The matching engine on its own thread: the order book, the two publishers and the promises. */
module MatchingEngines {
  import opened MarketTypes
  import F = FlatBook
  import opened BookRuns
  import opened BookLevels
  import opened BookIndex
  import opened BookLoops
  import opened OrderBooks
  import opened Publishers
  import opened EngineSpec

  class MatchingEngine {
    const book: OrderBook
    const publisher: MarketDataPublisher
    const telemetry: TelemetryPublisher<Record>
    var seqNo: nat
    // The promises that have been set, in the order they were.
    var replies: seq<Reply>

    ghost predicate Valid()
      reads this, book, publisher, telemetry
    {
      book.Ordered() && publisher.Valid() && telemetry.Valid()
    }

    constructor (p: MarketDataPublisher, t: TelemetryPublisher<Record>)
      requires p.Valid() && t.Valid()
      ensures Valid() && book.Exact() && publisher == p && telemetry == t && fresh(book)
      ensures book.Abs() == F.EmptyBook() && book.index == map[] && seqNo == 0 && replies == []
    {
      book := new OrderBook();
      publisher, telemetry, seqNo, replies := p, t, 0, [];
    }

    /** The book's part of a message. */
    method Execute(m: Message) returns (result: EngineResult, events: seq<MarketEvent>)
      requires book.Ordered() && (m.payload.CancelPayload? ==> book.Exact())
      modifies book
      ensures book.Ordered() && F.Step(book.Abs(), result, events) == Handle(old(book.Abs()), m)
      ensures old(book.Exact()) && (m.payload.SubmitPayload? ==> m.payload.order.id !in old(book.index)) ==> book.Exact()
    {
      hide F.Submit, F.Cancel, IndexOk, LevelsOk, Flatten;
      match m.payload {
        case NoPayload =>
          result, events := NoResult(m.ts), [];
        case SubmitPayload(order) =>
          result, events := book.Submit(order, m.ts);
        case CancelPayload(orderId, _) =>
          result, events := book.Cancel(orderId, m.ts);
      }
    }

    /** One message: match, answer, publish the events, publish the record. */
    method Process(m: Message)
      requires Valid() && (m.payload.CancelPayload? ==> book.Exact())
      modifies this, book, publisher, telemetry
      ensures Valid()
      ensures old(book.Exact()) && (m.payload.SubmitPayload? ==> m.payload.order.id !in old(book.index)) ==> book.Exact()
      ensures var st := Handle(old(book.Abs()), m);
        && book.Abs() == st.book
        && replies == old(replies) + (if m.promise.Some? then [Reply(m.promise.value, st.result)] else [])
        && publisher.Abs() == Published(old(publisher.Abs()), st.events)
        && (if old(telemetry.Abs().active) == {} then seqNo == old(seqNo) && telemetry.Abs() == old(telemetry.Abs())
            else seqNo == old(seqNo) + 1 && telemetry.Abs() == Published(old(telemetry.Abs()), [RecordFor(m, st, seqNo)]))
    {
      hide Handle, F.DepthOf, IndexOk, LevelsOk, MapsOk, FeedOf, Published, Flatten;
      var telemetryOn := telemetry.HasSubscribers();
      var record := Record(0, m.ts, false, "", "", SideUnspecified, TypeUnspecified, 0.0, 0, NoResult(m.ts), [], BookDepth([], []));
      if telemetryOn {
        seqNo := seqNo + 1;
        record := record.(seqNo := seqNo);
      }
      match m.payload {
        case NoPayload =>
        case SubmitPayload(order) =>
          record := record.(orderId := order.id, nodeId := order.node, side := order.side, otype := order.otype,
                            price := order.price, qty := order.qty);
        case CancelPayload(orderId, nodeId) =>
          record := record.(isCancel := true, orderId := orderId, nodeId := nodeId);
      }
      var result, events := Execute(m);
      if m.promise.Some? {
        replies := replies + [Reply(m.promise.value, result)];
      }
      if events != [] {
        publisher.Publish(events);
      } else {
        PublishNothing(publisher.Abs());
      }
      if telemetryOn {
        var depth := book.Depth(10);
        telemetry.Publish(record.(result := result, events := events, depth := depth));
      }
    }

    /** The consumer loop over the messages it dequeues while nobody subscribes or leaves: every message is answered as
        the sequential book would, its events are published, and its record if anybody listens. */
    method Run(inbox: seq<Message>, ghost past: seq<Message>)
      requires Valid() && book.Exact() && book.Abs() == BookAfter(past) && replies == Replies(past)
      requires FreshIds(OpsOf(past + inbox))
      modifies this, book, publisher, telemetry
      ensures Valid() && book.Exact()
      ensures book.Abs() == BookAfter(past + inbox) && replies == Replies(past + inbox)
      ensures Stream(past) <= Stream(past + inbox)
      ensures publisher.Abs() == Published(old(publisher.Abs()), Stream(past + inbox)[|Stream(past)|..])
      ensures if old(telemetry.Abs().active) == {} then seqNo == old(seqNo) && telemetry.Abs() == old(telemetry.Abs())
        else seqNo == old(seqNo) + |inbox|
             && telemetry.Abs() == Published(old(telemetry.Abs()), RecordsFrom(past + inbox, |past|, old(seqNo)))
    {
      hide Handle, BookAfter, Replies, Stream, OpsOf, FreshIds, RecordsFrom, Published, IndexOk, LevelsOk, MapsOk, FeedOf, Flatten;
      assert past + inbox[..0] == past;
      ghost var market, tele := publisher.Abs(), telemetry.Abs();
      ghost var first := seqNo;
      RunStarts(past, first, market, tele);
      for i := 0 to |inbox|
        invariant Valid() && book.Exact()
        invariant book.Abs() == BookAfter(past + inbox[..i]) && replies == Replies(past + inbox[..i])
        invariant MarketRun(market, publisher.Abs(), past, past + inbox[..i])
        invariant TeleRun(tele, telemetry.Abs(), first, seqNo, past, past + inbox[..i])
      {
        ghost var ms := past + inbox[..i];
        var m := inbox[i];
        assert (past + inbox)[..|ms|] == ms && (past + inbox)[|ms|] == m;
        if m.payload.SubmitPayload? {
          NotYetIndexed(book, ms, past + inbox);
        }
        RepliesSnoc(ms, m);
        assert past + inbox[..i + 1] == ms + [m];
        MarketRunNext(market, publisher.Abs(), past, ms, m);
        TeleRunNext(tele, telemetry.Abs(), first, seqNo, past, ms, m);
        Process(m);
      }
      assert past + inbox[..|inbox|] == past + inbox;
    }
  }

  /** The publisher has published the events of the messages between `past` and `ms`. */
  ghost predicate MarketRun(f: Feed<MarketEvent>, f': Feed<MarketEvent>, past: seq<Message>, ms: seq<Message>) {
    Stream(past) <= Stream(ms) && f' == Published(f, Stream(ms)[|Stream(past)|..])
  }

  /** If anybody listens, the publisher has published their records, numbered from `first` + 1 on. */
  ghost predicate TeleRun(f: Feed<Record>, f': Feed<Record>, first: nat, seqNo: nat, past: seq<Message>, ms: seq<Message>) {
    && |past| <= |ms| && f'.active == f.active
    && if f.active == {} then seqNo == first && f' == f
       else seqNo == first + |ms| - |past| && f' == Published(f, RecordsFrom(ms, |past|, first))
  }

  lemma RunStarts(past: seq<Message>, first: nat, market: Feed<MarketEvent>, tele: Feed<Record>)
    ensures MarketRun(market, market, past, past) && TeleRun(tele, tele, first, first, past, past)
  {
    hide Stream;
    PublishNothing(market);
    PublishNothing(tele);
    assert Stream(past)[|Stream(past)|..] == [];
    assert RecordsFrom(past, |past|, first) == [];
  }

  lemma PublishTwice<T>(f: Feed<T>, a: seq<T>, b: seq<T>)
    ensures Published(Published(f, a), b) == Published(f, a + b)
    ensures Published(f, a).active == f.active
  {
    forall id | id in f.got ensures (f.got[id] + a) + b == f.got[id] + (a + b) {}
    assert Published(Published(f, a), b).got == Published(f, a + b).got;
  }

  lemma MarketRunNext(f: Feed<MarketEvent>, f': Feed<MarketEvent>, past: seq<Message>, ms: seq<Message>, m: Message)
    requires MarketRun(f, f', past, ms)
    ensures MarketRun(f, Published(f', Handle(BookAfter(ms), m).events), past, ms + [m])
  {
    hide Handle, Stream, Published, BookAfter;
    var n, es := |Stream(past)|, Handle(BookAfter(ms), m).events;
    RepliesSnoc(ms, m);
    PublishTwice(f, Stream(ms)[n..], es);
    assert (Stream(ms) + es)[n..] == Stream(ms)[n..] + es;
  }

  lemma TeleRunNext(f: Feed<Record>, f': Feed<Record>, first: nat, seqNo: nat, past: seq<Message>, ms: seq<Message>, m: Message)
    requires TeleRun(f, f', first, seqNo, past, ms)
    ensures f.active == {} ==> TeleRun(f, f', first, seqNo, past, ms + [m])
    ensures f.active != {} ==>
      TeleRun(f, Published(f', [RecordFor(m, Handle(BookAfter(ms), m), seqNo + 1)]), first, seqNo + 1, past, ms + [m])
  {
    hide Handle, Published, BookAfter, RecordFor;
    var r := RecordFor(m, Handle(BookAfter(ms), m), seqNo + 1);
    if f.active != {} {
      PublishTwice(f, RecordsFrom(ms, |past|, first), [r]);
      PublishTwice(f', [r], []);
      RecordsSnoc(ms, m, |past|, first);
    }
  }

  lemma RecordsSnoc(ms: seq<Message>, m: Message, i: nat, first: nat)
    requires i <= |ms|
    ensures RecordsFrom(ms + [m], i, first)
         == RecordsFrom(ms, i, first) + [RecordFor(m, Handle(BookAfter(ms), m), first + 1 + |ms| - i)]
  {
    hide Handle, RecordFor, BookAfter;
    assert (ms + [m])[..|ms|] == ms;
  }

  lemma PublishNothing<T>(f: Feed<T>)
    ensures Published(f, []) == f
  {
    assert forall id :: id in f.got ==> f.got[id] + [] == f.got[id];
    assert Published(f, []).got == f.got;
  }

  /** A submit that is still to come is not in the index. */
  lemma NotYetIndexed(book: OrderBook, ms: seq<Message>, all: seq<Message>)
    requires book.Exact() && book.Abs() == BookAfter(ms) && FreshIds(OpsOf(all))
    requires |ms| < |all| && all[..|ms|] == ms && all[|ms|].payload.SubmitPayload?
    ensures all[|ms|].payload.order.id !in book.index
  {
    hide IndexOk, LevelsOk, Flatten, After, BookAfter, F.Has;
    var m := all[|ms|];
    EngineIsBookRun(ms);
    OpsPrefix(all, |ms|);
    NewId(OpsOf(ms), m.payload.order.id);
    NotIndexed(book.index, Bid, Flatten(book.bids), Flatten(book.asks), book.nextStamp, m.payload.order.id);
  }
}
