/** Whole runs of submits and cancels from the empty book. */
module BookRuns {
  import opened MarketTypes
  import opened FlatBook
  import opened BookMatching
  import opened BookMirror
  import opened BookInvariant

  datatype Op = SubmitOp(o: Order, ts: nat) | CancelOp(id: OrderId, node: NodeId, ts: nat)

  function Apply(b: Book, op: Op): Step {
    match op
    case SubmitOp(o, ts) => Submit(b, o, ts)
    case CancelOp(id, _, ts) => Cancel(b, id, ts)
  }

  /** The book after a run. */
  function After(ops: seq<Op>): Book
    decreases |ops|, 1
  {
    if ops == [] then EmptyBook() else Last(ops).book
  }

  /** The last step of a run. */
  function Last(ops: seq<Op>): Step
    requires ops != []
    decreases |ops|, 0
  {
    Apply(After(ops[..|ops| - 1]), ops[|ops| - 1])
  }

  /** The events of a run, in order. */
  function Events(ops: seq<Op>): seq<MarketEvent> {
    if ops == [] then [] else Events(ops[..|ops| - 1]) + Last(ops).events
  }

  /** Ids come from a counter, so no two submits carry the same one. */
  ghost predicate FreshIds(ops: seq<Op>) {
    forall i, j :: 0 <= i < j < |ops| && ops[i].SubmitOp? && ops[j].SubmitOp? ==> ops[i].o.id != ops[j].o.id
  }

  ghost predicate NonNegative(ops: seq<Op>) {
    forall i :: 0 <= i < |ops| && ops[i].SubmitOp? ==> ops[i].o.qty >= 0
  }

  ghost predicate Submitted(ops: seq<Op>, id: OrderId) {
    exists i :: 0 <= i < |ops| && ops[i].SubmitOp? && ops[i].o.id == id
  }

  // ---------- Invariants of every run ----------

  lemma {:induction false} WalkIds(buy: bool, o: Order, opp: seq<Resting>, rem: int, id: OrderId)
    requires Has(Walk(buy, o, opp, rem).rest, id)
    ensures Has(opp, id)
  {
    if opp == [] || rem <= 0 || !Crosses(buy, o, opp[0].order.price) {
    } else {
      var t := Min(rem, opp[0].order.qty);
      var w, w' := Walk(buy, o, opp, rem), Walk(buy, o, opp[1..], rem - t);
      var i :| 0 <= i < |w.rest| && w.rest[i].order.id == id;
      var d := |w.rest| - |w'.rest|;
      if i < d {
        assert opp[0].order.id == id;
      } else {
        assert w'.rest[i - d] == w.rest[i];
        WalkIds(buy, o, opp[1..], rem - t, id);
        var j :| 0 <= j < |opp[1..]| && opp[1..][j].order.id == id;
        assert opp[j + 1].order.id == id;
      }
    }
  }

  lemma SubmitIds(b: Book, o: Order, ts: nat, id: OrderId)
    requires Has(Submit(b, o, ts).book.bids, id) || Has(Submit(b, o, ts).book.asks, id)
    ensures id == o.id || Has(b.bids, id) || Has(b.asks, id)
  {
    hide Walk, Insert, FilledQty, TopOf, Has;
    var buy := o.side == Bid;
    var opp, own := if buy then b.asks else b.bids, if buy then b.bids else b.asks;
    var w := Walk(buy, o, opp, o.qty);
    if Has(w.rest, id) { WalkIds(buy, o, opp, o.qty, id); }
    InsertIds(buy, own, Resting(b.nextStamp, o.(qty := o.qty - FilledQty(w.fills))), id);
  }

  lemma {:induction false} RemoveIds(s: seq<Resting>, x: OrderId, id: OrderId)
    requires Has(Remove(s, x), id)
    ensures Has(s, id)
  {
    var t := Remove(s, x);
    var i :| 0 <= i < |t| && t[i].order.id == id;
    if s[0].order.id == x {
      assert s[i + 1].order.id == id;
    } else if i == 0 {
      assert s[0].order.id == id;
    } else {
      assert Remove(s[1..], x)[i - 1].order.id == id;
      RemoveIds(s[1..], x, id);
      var j :| 0 <= j < |s[1..]| && s[1..][j].order.id == id;
      assert s[j + 1].order.id == id;
    }
  }

  lemma CancelIds(b: Book, x: OrderId, ts: nat, id: OrderId)
    requires Has(Cancel(b, x, ts).book.bids, id) || Has(Cancel(b, x, ts).book.asks, id)
    ensures Has(b.bids, id) || Has(b.asks, id)
  {
    hide Remove, TopOf, Has;
    var b' := Cancel(b, x, ts).book;
    if b'.bids != b.bids && Has(b'.bids, id) { RemoveIds(b.bids, x, id); }
    if b'.asks != b.asks && Has(b'.asks, id) { RemoveIds(b.asks, x, id); }
  }

  /** Only submitted orders ever rest. */
  lemma {:induction false} RunIds(ops: seq<Op>, id: OrderId)
    requires Has(After(ops).bids, id) || Has(After(ops).asks, id)
    ensures Submitted(ops, id)
  {
    hide Submit, Cancel;
    if ops != [] {
      var ops', op := ops[..|ops| - 1], ops[|ops| - 1];
      match op {
        case SubmitOp(o, ts) => SubmitIds(After(ops'), o, ts, id);
        case CancelOp(x, _, ts) => CancelIds(After(ops'), x, ts, id);
      }
      if !(op.SubmitOp? && op.o.id == id) { RunIds(ops', id); }
    }
  }

  lemma HasCons(x: Resting, s: seq<Resting>, id: OrderId)
    ensures Has([x] + s, id) <==> x.order.id == id || Has(s, id)
  {
    var t := [x] + s;
    assert t[0] == x;
    if Has(s, id) {
      var i :| 0 <= i < |s| && s[i].order.id == id;
      assert t[i + 1] == s[i];
    }
  }

  lemma {:induction false} InsertIds(buy: bool, s: seq<Resting>, r: Resting, id: OrderId)
    ensures Has(Insert(buy, s, r), id) <==> id == r.order.id || Has(s, id)
  {
    hide Has;
    if s == [] || Better(buy, r.order.price, s[0].order.price) {
      HasCons(r, s, id);
    } else {
      InsertIds(buy, s[1..], r, id);
      HasCons(s[0], Insert(buy, s[1..], r), id);
      HasCons(s[0], s[1..], id);
      assert [s[0]] + s[1..] == s;
    }
  }

  /** After every run of submits and cancels the book is in price-time order, never crossed or locked, positive, and
      holds each id at most once; whatever order types were submitted. */
  lemma {:induction false} RunOk(ops: seq<Op>)
    requires FreshIds(ops) && NonNegative(ops)
    ensures BookOk(After(ops))
  {
    hide BookOk, Submit, Cancel, Has;
    if ops == [] {
      EmptyOk();
    } else {
      var ops', op := ops[..|ops| - 1], ops[|ops| - 1];
      RunOk(ops');
      var b := After(ops');
      match op
      case SubmitOp(o, ts) =>
        NewId(ops', o.id);
        SubmitOk(b, o, ts);
      case CancelOp(id, _, ts) =>
        CancelOk(b, id, ts);
    }
  }

  /** An id that was not submitted before does not rest. */
  lemma NewId(ops: seq<Op>, id: OrderId)
    requires !Submitted(ops, id)
    ensures !Has(After(ops).bids, id) && !Has(After(ops).asks, id)
  {
    if Has(After(ops).bids, id) || Has(After(ops).asks, id) { RunIds(ops, id); }
  }

  lemma EmptyOk()
    ensures BookOk(EmptyBook())
  {
  }

  /** In every reachable state a cancel succeeds exactly for the ids that rest in the book, and removes only that one. */
  lemma CancelAfterRun(ops: seq<Op>, id: OrderId, ts: nat)
    requires FreshIds(ops) && NonNegative(ops)
    ensures var b, st := After(ops), Cancel(After(ops), id, ts);
      && (st.result.cancelOk <==> Has(b.bids, id) || Has(b.asks, id))
      && (!st.result.cancelOk ==> st.book == b && st.events == [])
      && !Has(st.book.bids, id) && !Has(st.book.asks, id)
      && forall x :: x != id ==> Has(st.book.bids, x) == Has(b.bids, x) && Has(st.book.asks, x) == Has(b.asks, x)
  {
    hide BookOk, Has, Remove;
    RunOk(ops);
    CancelOk(After(ops), id, ts);
  }

  // ---------- Published tops ----------

  /** Subscribers always hold the current top: the last event published is a TopOfBook equal to it (up to its time
      stamp), and nothing has been published only while the book is still empty. */
  lemma {:induction false} LastTopIsCurrent(ops: seq<Op>)
    ensures Events(ops) == [] ==> After(ops) == EmptyBook()
    ensures Events(ops) != [] ==>
      var e := Events(ops)[|Events(ops)| - 1];
      e.TopEvent? && e.top == TopOf(After(ops), e.top.ts)
  {
    hide Apply;
    if ops != [] {
      var n := |ops| - 1;
      LastTopIsCurrent(ops[..n]);
      StepTop(After(ops[..n]), ops[n]);
      assert Last(ops) == Apply(After(ops[..n]), ops[n]);
    }
  }

  /** A step without events changes nothing; any other ends with the new top. */
  lemma StepTop(b: Book, op: Op)
    ensures var st := Apply(b, op);
      if st.events == [] then st.book == b
      else
        var e := st.events[|st.events| - 1];
        e.TopEvent? && e.top == TopOf(st.book, e.top.ts)
  {
    hide Walk, Insert, Remove, FilledQty, TradesOf;
  }

  // ---------- Conservation ----------

  function QtyOf(s: seq<Resting>, id: OrderId): int {
    if s == [] then 0 else (if s[0].order.id == id then s[0].order.qty else 0) + QtyOf(s[1..], id)
  }

  function RestingQty(b: Book, id: OrderId): int {
    QtyOf(b.bids, id) + QtyOf(b.asks, id)
  }

  /** Quantity traded by `id` as the incoming order. */
  function AggressorQty(es: seq<MarketEvent>, id: OrderId): int {
    if es == [] then 0
    else
      var e := es[|es| - 1];
      AggressorQty(es[..|es| - 1], id) + if e.TradeEvent? && e.trade.aggressorId == id then e.trade.qty else 0
  }

  /** Quantity traded by `id` as the resting order. */
  function MakerQty(es: seq<MarketEvent>, id: OrderId): int {
    if es == [] then 0
    else
      var e := es[|es| - 1];
      MakerQty(es[..|es| - 1], id) + if e.TradeEvent? && e.trade.restingId == id then e.trade.qty else 0
  }

  function SubmittedQty(ops: seq<Op>, id: OrderId): int {
    if ops == [] then 0
    else
      var op := ops[|ops| - 1];
      SubmittedQty(ops[..|ops| - 1], id) + if op.SubmitOp? && op.o.id == id then op.o.qty else 0
  }

  /** The first order with the given id, and its quantity. */
  function FirstQty(s: seq<Resting>, id: OrderId): int {
    if s == [] then 0 else if s[0].order.id == id then s[0].order.qty else FirstQty(s[1..], id)
  }

  /** Quantity given up in one step: the unfilled part of a rejected market order, or what a cancelled order had left. */
  function ReleasedIn(b: Book, op: Op, id: OrderId): int {
    match op
    case SubmitOp(o, ts) =>
      var r := Submit(b, o, ts).result;
      if o.id == id && r.status == Rejected then o.qty - r.filled else 0
    case CancelOp(x, _, _) =>
      if x != id then 0 else if Has(b.bids, id) then FirstQty(b.bids, id) else FirstQty(b.asks, id)
  }

  function ReleasedQty(ops: seq<Op>, id: OrderId): int {
    if ops == [] then 0
    else ReleasedQty(ops[..|ops| - 1], id) + ReleasedIn(After(ops[..|ops| - 1]), ops[|ops| - 1], id)
  }

  function FillsOf(fills: seq<Fill>, id: OrderId): int {
    if fills == [] then 0
    else (if fills[0].resting.order.id == id then fills[0].qty else 0) + FillsOf(fills[1..], id)
  }

  lemma {:induction false} WalkConserves(buy: bool, o: Order, opp: seq<Resting>, rem: int, id: OrderId)
    ensures QtyOf(Walk(buy, o, opp, rem).rest, id) + FillsOf(Walk(buy, o, opp, rem).fills, id) == QtyOf(opp, id)
  {
    var w := Walk(buy, o, opp, rem);
    if opp == [] || rem <= 0 || !Crosses(buy, o, opp[0].order.price) {
    } else {
      var t := Min(rem, opp[0].order.qty);
      var w' := Walk(buy, o, opp[1..], rem - t);
      WalkConserves(buy, o, opp[1..], rem - t, id);
      assert w.fills[1..] == w'.fills;
      if opp[0].order.qty == t {
        assert w.rest == w'.rest;
      } else {
        assert w.rest[0] == Reduced(opp[0], t) && w.rest[1..] == w'.rest;
      }
    }
  }

  lemma {:induction false} InsertConserves(buy: bool, s: seq<Resting>, r: Resting, id: OrderId)
    ensures QtyOf(Insert(buy, s, r), id) == QtyOf(s, id) + if r.order.id == id then r.order.qty else 0
  {
    var t := Insert(buy, s, r);
    if s == [] || Better(buy, r.order.price, s[0].order.price) {
      assert t[1..] == s;
    } else {
      InsertConserves(buy, s[1..], r, id);
      assert t[1..] == Insert(buy, s[1..], r);
    }
  }

  lemma {:induction false} RemoveConserves(s: seq<Resting>, x: OrderId, id: OrderId)
    ensures QtyOf(Remove(s, x), id) == QtyOf(s, id) - if x == id then FirstQty(s, id) else 0
  {
    if s != [] && s[0].order.id != x {
      RemoveConserves(s[1..], x, id);
      assert Remove(s, x)[1..] == Remove(s[1..], x);
    }
  }

  lemma FillsOfSplit(fills: seq<Fill>, id: OrderId)
    requires fills != []
    ensures var n := |fills| - 1;
      && FillsOf(fills, id) == FillsOf(fills[..n], id) + (if fills[n].resting.order.id == id then fills[n].qty else 0)
      && FilledQty(fills) == FilledQty(fills[..n]) + fills[n].qty
  {
    var n := |fills| - 1;
    if n > 0 {
      FillsOfSplit(fills[1..], id);
      assert fills[1..][..n - 1] == fills[..n][1..];
    }
  }

  /** The trades of a submit account for its fills, on both sides. */
  lemma {:induction false} TradesAccount(o: Order, fills: seq<Fill>, tradeId: nat, ts: nat, id: OrderId)
    ensures AggressorQty(TradesOf(o, fills, tradeId, ts), id) == if o.id == id then FilledQty(fills) else 0
    ensures MakerQty(TradesOf(o, fills, tradeId, ts), id) == FillsOf(fills, id)
  {
    if fills != [] {
      var n := |fills| - 1;
      TradesAccount(o, fills[..n], tradeId, ts, id);
      FillsOfSplit(fills, id);
      assert TradesOf(o, fills, tradeId, ts)[..n] == TradesOf(o, fills[..n], tradeId, ts);
    }
  }

  lemma TopTradesNothing(es: seq<MarketEvent>, top: TopOfBook, id: OrderId)
    ensures AggressorQty(es + [TopEvent(top)], id) == AggressorQty(es, id)
    ensures MakerQty(es + [TopEvent(top)], id) == MakerQty(es, id)
  {
    assert (es + [TopEvent(top)])[..|es|] == es;
  }

  lemma {:induction false} EventsAdd(es: seq<MarketEvent>, fs: seq<MarketEvent>, id: OrderId)
    ensures AggressorQty(es + fs, id) == AggressorQty(es, id) + AggressorQty(fs, id)
    ensures MakerQty(es + fs, id) == MakerQty(es, id) + MakerQty(fs, id)
  {
    if fs == [] {
      assert es + fs == es;
    } else {
      EventsAdd(es, fs[..|fs| - 1], id);
      assert (es + fs)[..|es + fs| - 1] == es + fs[..|fs| - 1];
    }
  }

  lemma SubmitConserves(b: Book, o: Order, ts: nat, id: OrderId)
    ensures var st := Submit(b, o, ts);
      && (if o.id == id then o.qty else 0) + RestingQty(b, id)
         == AggressorQty(st.events, id) + MakerQty(st.events, id) + RestingQty(st.book, id)
            + ReleasedIn(b, SubmitOp(o, ts), id)
      && AggressorQty(st.events, o.id) == st.result.filled
  {
    hide Walk, Insert, FilledQty, AggressorQty, MakerQty, QtyOf, TopOf, TradesOf, FillsOf;
    var buy := o.side == Bid;
    var opp, own := if buy then b.asks else b.bids, if buy then b.bids else b.asks;
    var w := Walk(buy, o, opp, o.qty);
    var st := Submit(b, o, ts);
    WalkConserves(buy, o, opp, o.qty, id);
    InsertConserves(buy, own, Resting(b.nextStamp, o.(qty := o.qty - FilledQty(w.fills))), id);
    TradesAccount(o, w.fills, b.nextTrade, ts, id);
    TradesAccount(o, w.fills, b.nextTrade, ts, o.id);
    TopTradesNothing(TradesOf(o, w.fills, b.nextTrade, ts), TopOf(st.book, ts), id);
    TopTradesNothing(TradesOf(o, w.fills, b.nextTrade, ts), TopOf(st.book, ts), o.id);
  }

  lemma FirstOfAbsent(s: seq<Resting>, id: OrderId)
    requires !Has(s, id)
    ensures FirstQty(s, id) == 0
  {
    if s != [] {
      assert s[0].order.id != id;
      forall i | 0 <= i < |s[1..]| ensures s[1..][i].order.id != id { assert s[i + 1].order.id != id; }
      FirstOfAbsent(s[1..], id);
    }
  }

  lemma CancelConserves(b: Book, x: OrderId, node: NodeId, ts: nat, id: OrderId)
    ensures var st := Cancel(b, x, ts);
      RestingQty(b, id) == AggressorQty(st.events, id) + MakerQty(st.events, id) + RestingQty(st.book, id)
                           + ReleasedIn(b, CancelOp(x, node, ts), id)
  {
    hide Remove, QtyOf, FirstQty, TopOf, Has;
    RemoveConserves(b.bids, x, id);
    RemoveConserves(b.asks, x, id);
    if !Has(b.bids, x) && !Has(b.asks, x) { FirstOfAbsent(b.asks, x); }
    var st := Cancel(b, x, ts);
    if st.events != [] {
      TopTradesNothing([], st.events[0].top, id);
      assert st.events == [] + [TopEvent(st.events[0].top)];
    }
  }

  /** Conservation, for every run and every order: what was submitted is traded as aggressor, traded as resting order,
      still resting, or was cancelled or rejected. */
  lemma {:induction false} RunConserves(ops: seq<Op>, id: OrderId)
    ensures SubmittedQty(ops, id)
         == AggressorQty(Events(ops), id) + MakerQty(Events(ops), id) + RestingQty(After(ops), id) + ReleasedQty(ops, id)
  {
    hide Submit, Cancel, AggressorQty, MakerQty, RestingQty, ReleasedIn;
    if ops == [] {
      NothingYet(id);
    } else {
      var ops', op := ops[..|ops| - 1], ops[|ops| - 1];
      RunConserves(ops', id);
      EventsAdd(Events(ops'), Last(ops).events, id);
      match op
      case SubmitOp(o, ts) => SubmitConserves(After(ops'), o, ts, id);
      case CancelOp(x, node, ts) => CancelConserves(After(ops'), x, node, ts, id);
    }
  }

  lemma NothingYet(id: OrderId)
    ensures RestingQty(EmptyBook(), id) == 0 && AggressorQty([], id) == 0 && MakerQty([], id) == 0
  {
  }
}
