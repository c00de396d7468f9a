/** Runs in which the shadows of the book go wrong, one for each half of the exact conditions. */
module FailingRuns {
  import opened MarketTypes
  import opened FlatBook
  import opened BookMatching
  import opened BookInvariant
  import opened BookRuns
  import opened EngineSpec
  import opened BookShadow
  import opened Normalizers
  import opened NormalizerRuns
  import opened Stats
  import opened StatsRuns

  // ---------- More orders than the normalizer keeps ----------

  /** The i-th of many equal bids, with an id of its own. */
  function BidAt(i: nat): Message {
    Message(SubmitPayload(Order(Bid, Limit, 1.0, 1, seq(i, _ => 'b'), "bot")), None, 0)
  }

  function Bids(n: nat): seq<Message> {
    if n == 0 then [] else Bids(n - 1) + [BidAt(n - 1)]
  }

  lemma {:induction false} BidsOps(n: nat)
    ensures |OpsOf(Bids(n))| == n
    ensures forall i :: 0 <= i < n ==> OpsOf(Bids(n))[i] == SubmitOp(BidAt(i).payload.order, 0)
  {
    if n > 0 {
      BidsOps(n - 1);
      assert Bids(n)[..|Bids(n)| - 1] == Bids(n - 1) && Bids(n)[|Bids(n)| - 1] == BidAt(n - 1);
    }
  }

  lemma BidsSound(n: nat)
    ensures Sound(Bids(n))
  {
    hide OpsOf, Bids;
    BidsOps(n);
    var ops := OpsOf(Bids(n));
    forall i, j | 0 <= i < j < |ops| ensures ops[i].o.id != ops[j].o.id {
      assert |ops[i].o.id| == i && |ops[j].o.id| == j;
    }
  }

  /** Nothing trades, so all of them rest. */
  lemma {:induction false} BidsRest(n: nat)
    ensures var b := BookAfter(Bids(n)); b.asks == [] && |b.bids| == n
  {
    if n > 0 {
      BidsRest(n - 1);
      var b := BookAfter(Bids(n - 1));
      assert Bids(n)[..|Bids(n)| - 1] == Bids(n - 1) && Bids(n)[|Bids(n)| - 1] == BidAt(n - 1);
      BidRests(b, BidAt(n - 1));
    }
  }

  lemma BidRests(b: Book, m: Message)
    requires b.asks == [] && m.payload.SubmitPayload?
    requires m.payload.order.side == Bid && m.payload.order.otype == Limit && m.payload.order.qty == 1
    ensures Handle(b, m).book.asks == [] && |Handle(b, m).book.bids| == |b.bids| + 1
  {
    hide Insert, TopOf, TradesOf;
    var o := m.payload.order;
    WalkStops(true, o, [], 1);
    InsertSplit(true, b.bids, Resting(b.nextStamp, o));
    assert o.(qty := 1) == o;
  }

  /** One bid more than the normalizer keeps, or any number more: the shadow does not cover the book. */
  lemma ShadowOutgrown(n: nat, rs: seq<Record>)
    requires n > Cap && RecordsOf(rs, Bids(n))
    ensures Sound(Bids(n)) && RestingCount(BookAfter(Bids(n))) == n
    ensures !Covers(KeptRun(rs), BookMap(BookAfter(Bids(n))))
  {
    hide Bids, BookAfter, KeptRun, Covers, BookMap, Sound, RecordOf, BookOk, Within;
    BidsSound(n);
    BidsRest(n);
    ShadowIsWithinBook(rs, Bids(n));
    SoundBook(Bids(n));
    BookCount(BookAfter(Bids(n)));
    WithinSize(KeptRun(rs), BookMap(BookAfter(Bids(n))));
  }

  // ---------- An order cancelled by somebody else ----------

  /** The human's bid rests, and a bot cancels it. */
  function ForeignRun(): seq<Message> {
    [Message(SubmitPayload(Order(Bid, Limit, 1.0, 1, "a", Human)), None, 0), Message(CancelPayload("a", "bot"), None, 1)]
  }

  lemma ForeignSound()
    ensures Sound(ForeignRun())
  {
    var ms := ForeignRun();
    assert ms[..1][..0] == [] && OpsOf([]) == [];
    assert OpsOf(ms[..1]) == [SubmitOp(ms[0].payload.order, 0)];
    assert ms[..|ms| - 1] == ms[..1];
    assert OpsOf(ms) == [SubmitOp(ms[0].payload.order, 0), CancelOp("a", "bot", 1)];
  }

  lemma ForeignRests()
    ensures var m := BookMap(BookAfter(ForeignRun()[..1]));
      m == map["a" := Info(Human, Bid, 1.0, 1)]
  {
    var ms := ForeignRun();
    var o := ms[0].payload.order;
    assert ms[..1][..0] == [] && ms[..1][0] == ms[0];
    assert BookAfter(ms[..1]) == SubmitBid(EmptyBook(), o, 0).book;
    WalkStops(true, o, [], 1);
    var b := BookAfter(ms[..1]);
    assert b.bids == [Resting(0, o)] && b.asks == [];
    RestMapCons(Resting(0, o), []);
    assert [Resting(0, o)] + [] == [Resting(0, o)];
    assert RestMap([]) == map[];
    assert RestMap(b.bids) == map["a" := InfoOf(o)];
  }

  /** In that run the human has no order left in the book, and the screen still shows the cancelled one as open. */
  lemma ForeignCancelIsShown(bs: seq<WireBatch>, rs: seq<Record>)
    requires Shown(bs, rs) && RecordsOf(rs, ForeignRun())
    ensures AllHumanOrders(BookMap(BookAfter(ForeignRun()))) == map[]
    ensures OpenAfter(bs) == map["a" := OpenOrder(WireBid, 1.0, 1)]
  {
    hide Shown, RecordOf, OpenAfter, BookAfter, Sound, BookMap;
    var ms := ForeignRun();
    ForeignSound();
    ForeignRests();
    OpenIsHumanPlusOrphans(bs, rs, ms);
    ForeignEnds();
  }

  lemma ForeignEnds()
    ensures BookMap(BookAfter(ForeignRun())) == map[]
    ensures Orphans(ForeignRun()) == map["a" := OpenOrder(WireBid, 1.0, 1)]
  {
    hide BookMap, BookOk, Cancel;
    var ms := ForeignRun();
    ForeignSound();
    ForeignRests();
    SoundNext(ms);
    var b := BookAfter(ms[..1]);
    assert ms[..|ms| - 1] == ms[..1] && ms[..1][..0] == [];
    CancelFollows(b, "a", 1);
    assert !ForeignCancel(BookAfter([]), ms[0]);
    assert Orphans(ms[..1]) == map[] by { assert ms[..1][0] == ms[0] && Orphans([]) == map[]; }
    assert ForeignCancel(b, ms[1]);
  }
}
