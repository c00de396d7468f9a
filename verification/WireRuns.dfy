/** What every batch on the wire says about its message and about the book, over whole runs. */
module WireRuns {
  import opened MarketTypes
  import opened FlatBook
  import opened BookMatching
  import opened BookInvariant
  import opened BookRuns
  import opened BookDepths
  import opened BookAnswers
  import opened EngineSpec
  import opened BookShadow
  import opened Normalizers
  import opened NormalizerRuns
  import opened Stats
  import opened StatsRuns

  // ---------- Quotes ----------

  /** The best price of a side and all quantity resting there; an empty side shows no price and no quantity. */
  ghost predicate Quotes(buy: bool, s: seq<Resting>, price: Option<real>, qty: int) {
    if s == [] then price == None && qty == 0
    else
      && price.Some?
      && RestsAt(s, price.value)
      && (forall i :: 0 <= i < |s| ==> if buy then s[i].order.price <= price.value else price.value <= s[i].order.price)
      && qty == QtyAt(s, price.value)
  }

  /** Did the message leave the book alone without publishing anything? */
  predicate Silent(b: Book, m: Message) {
    || m.payload.NoPayload?
    || (m.payload.CancelPayload? && !Has(b.bids, m.payload.orderId) && !Has(b.asks, m.payload.orderId))
  }

  lemma TopQuotes(b: Book, ts: nat)
    requires BookOk(b)
    ensures var q := ToWireTop(Some(TopOf(b, ts))).value;
      && Quotes(true, b.bids, q.bid, q.bidQty) && Quotes(false, b.asks, q.ask, q.askQty)
      && (q.bid.Some? && q.ask.Some? ==> q.bid.value < q.ask.value)
  {
    hide QtyAt;
    OkSorted(b);
    if b.bids != [] { BestFirst(true, b.bids); }
    if b.asks != [] { BestFirst(false, b.asks); }
  }

  lemma BestFirst(buy: bool, s: seq<Resting>)
    requires Sorted(buy, s) && s != []
    ensures RestsAt(s, s[0].order.price)
    ensures forall i :: 0 <= i < |s| ==> if buy then s[i].order.price <= s[0].order.price else s[0].order.price <= s[i].order.price
  {
    forall i | 0 <= i < |s| ensures if buy then s[i].order.price <= s[0].order.price else s[0].order.price <= s[i].order.price {
      assert i > 0 ==> Before(buy, s[0], s[i]);
    }
  }

  lemma LastTop(es: seq<MarketEvent>)
    requires es == [] || es[|es| - 1].TopEvent?
    ensures TopIn(es) == if es == [] then None else Some(es[|es| - 1].top)
  {
  }

  /** A message is silent exactly when it has no events; otherwise the last of them is the new top. */
  lemma HandleTop(b: Book, m: Message)
    ensures var st := Handle(b, m);
      && (st.events == [] <==> Silent(b, m))
      && (st.events != [] ==> var e := st.events[|st.events| - 1]; e.TopEvent? && e.top == TopOf(st.book, e.top.ts))
  {
    hide Walk, Insert, Remove, FilledQty, QtyAt, Has, TradesOf;
  }

  /** Over every run, the quote of a batch is there exactly unless the message was a failed cancel or had no payload, and
      then shows the best bid and the best ask of the book after the message, with all quantity resting at them. */
  lemma QuoteOnWire(bs: seq<WireBatch>, rs: seq<Record>, ms: seq<Message>, n: nat)
    requires Shown(bs, rs) && RecordsOf(rs, ms) && Sound(ms) && n < |ms|
    ensures var q, b := bs[n].tob, BookAfter(ms[..n + 1]);
      && (q.None? <==> Silent(BookAfter(ms[..n]), ms[n]))
      && (q.Some? ==> Quotes(true, b.bids, q.value.bid, q.value.bidQty) && Quotes(false, b.asks, q.value.ask, q.value.askQty))
      && (q.Some? && q.value.bid.Some? && q.value.ask.Some? ==> q.value.bid.value < q.value.ask.value)
  {
    hide BookOk, Handle, TopOf, TopIn, ToWireTop, Quotes, Silent, WireTrades, TradesIn, KeptRun, CarriesTrades, DepthOf, Sound, OpsOf;
    SoundUpTo(rs, ms, n + 1);
    SoundBook(ms[..n + 1]);
    var before, after := BookAfter(ms[..n]), BookAfter(ms[..n + 1]);
    NextBook(ms, n);
    HandleTop(before, ms[n]);
    var es := Handle(before, ms[n]).events;
    assert rs[n] == RecordFor(ms[n], Handle(before, ms[n]), rs[n].seqNo);
    LastTop(es);
    NoQuote();
    if es != [] {
      TopQuotes(after, es[|es| - 1].top.ts);
    }
  }

  lemma NoQuote()
    ensures forall t :: ToWireTop(t).None? <==> t.None?
  {
  }

  lemma NextBook(ms: seq<Message>, n: nat)
    requires n < |ms|
    ensures BookAfter(ms[..n + 1]) == Handle(BookAfter(ms[..n]), ms[n]).book && StepOf(ms, n) == Handle(BookAfter(ms[..n]), ms[n])
  {
    assert ms[..n + 1][..n] == ms[..n] && ms[..n + 1][n] == ms[n];
  }

  // ---------- Messages ----------

  predicate SideShown(side: Side, w: Option<WireSide>) {
    && (side == Bid <==> w == Some(WireBid))
    && (side == Ask <==> w == Some(WireAsk))
  }

  /** Over every run, a batch shows what its message asked for and what the book answered to it. */
  lemma BatchShowsMessage(bs: seq<WireBatch>, rs: seq<Record>, ms: seq<Message>, n: nat)
    requires Shown(bs, rs) && RecordsOf(rs, ms) && n < |ms|
    ensures var w, m, r := bs[n], ms[n], StepOf(ms, n).result;
      && w.at == m.ts && w.seqNo == rs[n].seqNo
      && w.order.status == r.status && w.order.filled == r.filled && w.order.avg == r.avgPrice
      && w.order.reason == r.reason && w.order.cancelOk == r.cancelOk
      && match m.payload
         case SubmitPayload(o) =>
           && !w.isCancel && w.order.id == o.id && w.order.node == o.node && SideShown(o.side, w.order.side)
           && w.order.otype == o.otype && w.order.price == o.price && w.order.qty == o.qty
         case CancelPayload(id, node) => w.isCancel && w.order.id == id && w.order.node == node
         case NoPayload => !w.isCancel && w.order.id == "" && w.order.node == "" && w.order.side == None
  {
    hide StepOf, TopIn, ToWireTop, WireTrades, TradesIn, KeptRun, CarriesTrades, DepthOf;
  }

  /** Over every run, the depth of a record is exactly the ten best prices of each side of the book after its message. */
  lemma RecordDepth(rs: seq<Record>, ms: seq<Message>, n: nat)
    requires RecordsOf(rs, ms) && Sound(ms) && n < |ms|
    ensures var b, d := BookAfter(ms[..n + 1]), rs[n].depth;
      RowsExact(true, b.bids, 10, d.bids) && RowsExact(false, b.asks, 10, d.asks)
  {
    hide BookOk, Handle, RowsExact, FirstRows, Sound, OpsOf;
    SoundUpTo(rs, ms, n + 1);
    SoundBook(ms[..n + 1]);
    NextBook(ms, n);
    assert rs[n] == RecordFor(ms[n], Handle(BookAfter(ms[..n]), ms[n]), rs[n].seqNo);
    var b := BookAfter(ms[..n + 1]);
    OkSorted(b);
    RowsAreExact(true, b.bids, 10);
    RowsAreExact(false, b.asks, 10);
  }

  // ---------- Counts and prices on the screen ----------

  /** Messages of a node that are no cancels (a message without payload counts for the nameless node). */
  function SubmitsSent(ms: seq<Message>, node: NodeId): nat {
    if ms == [] then 0
    else
      var p := ms[|ms| - 1].payload;
      var sent := if p.SubmitPayload? then p.order.node == node else p.NoPayload? && node == "";
      SubmitsSent(ms[..|ms| - 1], node) + if sent then 1 else 0
  }

  /** Cancels of a node that found an order in the book. */
  function CancelsDone(ms: seq<Message>, node: NodeId): nat {
    if ms == [] then 0
    else
      var n := |ms| - 1;
      var b, p := BookAfter(ms[..n]), ms[n].payload;
      var done := p.CancelPayload? && p.nodeId == node && (Has(b.bids, p.orderId) || Has(b.asks, p.orderId));
      CancelsDone(ms[..n], node) + if done then 1 else 0
  }

  /** Over every run, the counters on the screen are the submits sent and the cancels that succeeded. */
  lemma {:induction false} CountsAreReal(bs: seq<WireBatch>, rs: seq<Record>, ms: seq<Message>, node: NodeId)
    requires Shown(bs, rs) && RecordsOf(rs, ms)
    ensures Submits(bs, node) == SubmitsSent(ms, node) && Cancels(bs, node) == CancelsDone(ms, node)
  {
    hide Carries, WireTrades, KeptRun, TradesIn, RecordOf, StepOf, BookAfter, Has;
    if ms != [] {
      var n := |ms| - 1;
      ShownPrefix(bs, rs);
      RecordsPrefix(rs, ms);
      CountsAreReal(bs[..n], rs[..n], ms[..n], node);
      BatchShowsMessage(bs, rs, ms, n);
      MessageAnswered(ms, n);
    }
  }

  /** The price of the last trade among the events of a run, 0 before the first. */
  function LastTradePrice(es: seq<MarketEvent>): real {
    if es == [] then 0.0
    else if es[|es| - 1].TradeEvent? then es[|es| - 1].trade.price
    else LastTradePrice(es[..|es| - 1])
  }

  lemma {:induction false} LastOfConcat(a: seq<MarketEvent>, b: seq<MarketEvent>)
    ensures LastTradePrice(a + b) == if TradesIn(b) == [] then LastTradePrice(a) else TradesIn(b)[|TradesIn(b)| - 1].price
  {
    if b == [] {
      assert a + b == a;
    } else {
      var n := |b| - 1;
      LastOfConcat(a, b[..n]);
      TradesInSnoc(b[..n], b[n]);
      assert b == b[..n] + [b[n]];
      assert (a + b)[..|a + b| - 1] == a + b[..n];
    }
  }

  lemma {:induction false} TradesInSnoc(es: seq<MarketEvent>, e: MarketEvent)
    ensures TradesIn(es + [e]) == TradesIn(es) + if e.TradeEvent? then [e.trade] else []
  {
    if es == [] {
      assert (es + [e])[1..] == [];
    } else {
      TradesInSnoc(es[1..], e);
      assert (es + [e])[1..] == es[1..] + [e];
    }
  }

  /** Over every run, the price all profits are valued at is the price of the last trade published. */
  lemma {:induction false} LastPriceIsLast(bs: seq<WireBatch>, rs: seq<Record>, ms: seq<Message>)
    requires Shown(bs, rs) && RecordsOf(rs, ms)
    ensures LastPrice(TradesShown(bs)) == LastTradePrice(Stream(ms))
  {
    hide WireTrades, KeptRun, TradesIn, StepOf, BookAfter, LastTradePrice, ToWireTop, TopIn, DepthOf;
    if ms == [] {
      NoTradeYet();
    } else {
      var n := |ms| - 1;
      ShownPrefix(bs, rs);
      RecordsPrefix(rs, ms);
      LastPriceIsLast(bs[..n], rs[..n], ms[..n]);
      LastOfConcat(Stream(ms[..n]), StepOf(ms, n).events);
      assert rs[n].events == StepOf(ms, n).events;
    }
  }

  lemma NoTradeYet()
    ensures LastTradePrice([]) == 0.0
  {
  }
}
