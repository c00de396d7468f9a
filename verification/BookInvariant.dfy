/** What submits and cancels keep: priority order, an uncrossed book, positive quantities and unique ids. */
module BookInvariant {
  import opened MarketTypes
  import opened FlatBook
  import opened BookMatching
  import opened BookMirror

  ghost predicate UniqueIds(s: seq<Resting>) {
    forall i, j :: 0 <= i < j < |s| ==> s[i].order.id != s[j].order.id
  }

  ghost predicate Stamped(s: seq<Resting>, next: nat) {
    forall i :: 0 <= i < |s| ==> s[i].stamp < next
  }

  ghost predicate SideOk(buy: bool, s: seq<Resting>, next: nat) {
    Sorted(buy, s) && Positive(s) && UniqueIds(s) && Stamped(s, next)
  }

  /** Every bid is below every ask. */
  ghost predicate Uncrossed(bids: seq<Resting>, asks: seq<Resting>) {
    forall i, j :: 0 <= i < |bids| && 0 <= j < |asks| ==> bids[i].order.price < asks[j].order.price
  }

  ghost predicate DisjointIds(s: seq<Resting>, t: seq<Resting>) {
    forall i, j :: 0 <= i < |s| && 0 <= j < |t| ==> s[i].order.id != t[j].order.id
  }

  ghost predicate BookOk(b: Book) {
    && SideOk(true, b.bids, b.nextStamp)
    && SideOk(false, b.asks, b.nextStamp)
    && Uncrossed(b.bids, b.asks)
    && DisjointIds(b.bids, b.asks)
  }

  // ---------- Resting an order ----------

  /** Where Insert puts the new order. */
  function InsertAt(buy: bool, s: seq<Resting>, r: Resting): nat {
    if s == [] || Better(buy, r.order.price, s[0].order.price) then 0 else 1 + InsertAt(buy, s[1..], r)
  }

  lemma {:induction false} InsertSplit(buy: bool, s: seq<Resting>, r: Resting)
    ensures InsertAt(buy, s, r) <= |s|
    ensures var k := InsertAt(buy, s, r);
      && Insert(buy, s, r) == s[..k] + [r] + s[k..]
      && (forall i :: 0 <= i < k ==> !Better(buy, r.order.price, s[i].order.price))
      && (k < |s| ==> Better(buy, r.order.price, s[k].order.price))
  {
    if s != [] && !Better(buy, r.order.price, s[0].order.price) {
      InsertSplit(buy, s[1..], r);
      var k := InsertAt(buy, s[1..], r);
      assert s[..k + 1] == [s[0]] + s[1..][..k];
      assert s[1..][k..] == s[k + 1..];
    }
  }

  /** Position `i` of a queue with `r` put in at position `k`. */
  lemma PutAt(s: seq<Resting>, k: nat, r: Resting, i: nat)
    requires k <= |s| && i <= |s|
    ensures (s[..k] + [r] + s[k..])[i] == if i < k then s[i] else if i == k then r else s[i - 1]
  {
  }

  lemma InsertPair(buy: bool, s: seq<Resting>, r: Resting, k: nat, i: nat, j: nat)
    requires Sorted(buy, s) && UniqueIds(s) && Stamped(s, r.stamp) && !Has(s, r.order.id)
    requires k <= |s| && (forall x :: 0 <= x < k ==> !Better(buy, r.order.price, s[x].order.price))
    requires k < |s| ==> Better(buy, r.order.price, s[k].order.price)
    requires i < j <= |s|
    ensures var t := s[..k] + [r] + s[k..]; Before(buy, t[i], t[j]) && t[i].order.id != t[j].order.id
  {
    PutAt(s, k, r, i);
    PutAt(s, k, r, j);
    if i != k && j != k {
      assert Before(buy, if i < k then s[i] else s[i - 1], if j < k then s[j] else s[j - 1]);
    } else if i == k {
      assert k < j - 1 ==> Before(buy, s[k], s[j - 1]);
    }
  }

  /** The newest order goes behind its equals and in front of everything worse. */
  lemma InsertOk(buy: bool, s: seq<Resting>, r: Resting)
    requires SideOk(buy, s, r.stamp) && r.order.qty > 0 && !Has(s, r.order.id)
    ensures SideOk(buy, Insert(buy, s, r), r.stamp + 1)
    ensures forall i :: 0 <= i < |Insert(buy, s, r)| ==> Insert(buy, s, r)[i] == r || Insert(buy, s, r)[i] in s
  {
    hide Insert, InsertAt, Before, Better, Has;
    InsertSplit(buy, s, r);
    var k, t := InsertAt(buy, s, r), Insert(buy, s, r);
    forall i, j | 0 <= i < j < |t| ensures Before(buy, t[i], t[j]) && t[i].order.id != t[j].order.id {
      InsertPair(buy, s, r, k, i, j);
    }
    forall i | 0 <= i < |t| ensures t[i].order.qty > 0 && t[i].stamp < r.stamp + 1 && (t[i] == r || t[i] in s) {
      PutAt(s, k, r, i);
    }
  }

  // ---------- Consuming the opposite queue ----------

  /** `t` is the end of `s` with quantities possibly reduced. */
  ghost predicate EndOf(s: seq<Resting>, t: seq<Resting>) {
    && |t| <= |s|
    && forall i :: 0 <= i < |t| ==> SameOrder(s[|s| - |t| + i], t[i])
  }

  predicate SameOrder(r: Resting, t: Resting) {
    t.stamp == r.stamp && t.order.id == r.order.id && t.order.price == r.order.price && t.order.qty > 0
  }

  /** What is left of a queue after matching is its end. */
  lemma ConsumeIsEnd(s: seq<Resting>, n: nat, last: int)
    requires Positive(s) && n <= |s| && (n > 0 ==> 0 < last <= s[n - 1].order.qty)
    ensures EndOf(s, Consume(s, n, last))
  {
    var t := Consume(s, n, last);
    if n > 0 && last != s[n - 1].order.qty {
      assert t[0] == Reduced(s[n - 1], last);
      assert forall i :: 0 < i < |t| ==> t[i] == s[n + i - 1];
    } else {
      assert forall i :: 0 <= i < |t| ==> t[i] == s[n + i];
    }
  }

  lemma EndOk(buy: bool, s: seq<Resting>, t: seq<Resting>, next: nat)
    requires SideOk(buy, s, next) && EndOf(s, t)
    ensures SideOk(buy, t, next)
  {
    var d := |s| - |t|;
    forall i, j | 0 <= i < j < |t| ensures Before(buy, t[i], t[j]) && t[i].order.id != t[j].order.id {
      assert SameOrder(s[d + i], t[i]) && SameOrder(s[d + j], t[j]);
      assert Before(buy, s[d + i], s[d + j]);
    }
    forall i | 0 <= i < |t| ensures t[i].order.qty > 0 && t[i].stamp < next {
      assert SameOrder(s[d + i], t[i]);
    }
  }

  lemma EndUncrossed(s: seq<Resting>, t: seq<Resting>, bids: seq<Resting>, id: OrderId)
    requires EndOf(s, t)
    ensures Uncrossed(bids, s) ==> Uncrossed(bids, t)
    ensures DisjointIds(bids, s) ==> DisjointIds(bids, t)
    ensures !Has(s, id) ==> !Has(t, id)
  {
    forall j | 0 <= j < |t| ensures SameOrder(s[|s| - |t| + j], t[j]) {}
  }

  // ---------- Submit ----------

  /** A bid only rests when no acceptable ask is left. */
  lemma RemainderBelowAsks(b: Book, o: Order)
    requires BookOk(b) && o.qty >= 0
    requires Rests(o, FilledQty(Walk(true, o, b.asks, o.qty).fills))
    ensures forall j :: 0 <= j < |Walk(true, o, b.asks, o.qty).rest| ==> o.price < Walk(true, o, b.asks, o.qty).rest[j].order.price
    ensures FilledQty(Walk(true, o, b.asks, o.qty).fills) < o.qty
  {
    hide Walk, FilledQty;
    WalkShape(true, o, b.asks, o.qty);
    var w := Walk(true, o, b.asks, o.qty);
    var n := |w.fills|;
    assert w.rest == b.asks[n..];
    forall j | 0 <= j < |w.rest| ensures o.price < w.rest[j].order.price {
      assert w.rest[j] == b.asks[n + j];
      assert j > 0 ==> Before(false, b.asks[n], b.asks[n + j]);
    }
  }

  lemma SubmitBidMatches(b: Book, o: Order)
    requires BookOk(b) && o.qty >= 0
    ensures var w := Walk(true, o, b.asks, o.qty);
      && SideOk(false, w.rest, b.nextStamp) && Uncrossed(b.bids, w.rest) && DisjointIds(b.bids, w.rest)
      && (!Has(b.asks, o.id) ==> !Has(w.rest, o.id))
  {
    hide Walk, FilledQty, EndOf, Consume, Sorted, UniqueIds, Stamped, Uncrossed, DisjointIds, Has;
    WalkShape(true, o, b.asks, o.qty);
    var w := Walk(true, o, b.asks, o.qty);
    var n := |w.fills|;
    ConsumeIsEnd(b.asks, n, if n > 0 then w.fills[n - 1].qty else 0);
    EndOk(false, b.asks, w.rest, b.nextStamp);
    EndUncrossed(b.asks, w.rest, b.bids, o.id);
  }

  lemma SubmitBidOk(b: Book, o: Order, ts: nat)
    requires BookOk(b) && o.qty >= 0 && !Has(b.bids, o.id) && !Has(b.asks, o.id)
    ensures BookOk(SubmitBid(b, o, ts).book)
  {
    hide Walk, FilledQty, Insert, SideOk;
    SubmitBidMatches(b, o);
    var w := Walk(true, o, b.asks, o.qty);
    var filled := FilledQty(w.fills);
    if Rests(o, filled) {
      RemainderBelowAsks(b, o);
      var r := Resting(b.nextStamp, o.(qty := o.qty - filled));
      InsertOk(true, b.bids, r);
      var bids := Insert(true, b.bids, r);
      forall i, j | 0 <= i < |bids| && 0 <= j < |w.rest|
        ensures bids[i].order.price < w.rest[j].order.price && bids[i].order.id != w.rest[j].order.id
      {
        if bids[i] != r {
          var k :| 0 <= k < |b.bids| && b.bids[k] == bids[i];
        }
      }
      LaterStamps(false, w.rest, b.nextStamp);
    }
  }

  lemma LaterStamps(buy: bool, s: seq<Resting>, next: nat)
    requires SideOk(buy, s, next)
    ensures SideOk(buy, s, next + 1)
  {
  }

  lemma MirrorSideOk(buy: bool, s: seq<Resting>, next: nat)
    requires SideOk(buy, s, next)
    ensures SideOk(!buy, MirrorQueue(s), next)
  {
    forall i, j | 0 <= i < j < |s| ensures Before(!buy, MirrorQueue(s)[i], MirrorQueue(s)[j]) {
      assert Before(buy, s[i], s[j]);
    }
  }

  lemma MirrorOk(b: Book)
    requires BookOk(b)
    ensures BookOk(Mirror(b))
  {
    hide SideOk;
    MirrorSideOk(true, b.bids, b.nextStamp);
    MirrorSideOk(false, b.asks, b.nextStamp);
  }

  lemma MirrorHas(s: seq<Resting>, id: OrderId)
    ensures Has(MirrorQueue(s), id) == Has(s, id)
  {
    if Has(s, id) {
      var i :| 0 <= i < |s| && s[i].order.id == id;
      assert MirrorQueue(s)[i].order.id == id;
    }
  }

  /** Every submit of a non-negative quantity under a new id keeps the book ordered, uncrossed and positive. */
  lemma SubmitOk(b: Book, o: Order, ts: nat)
    requires BookOk(b) && o.qty >= 0 && !Has(b.bids, o.id) && !Has(b.asks, o.id)
    ensures BookOk(Submit(b, o, ts).book)
  {
    hide BookOk, SubmitBid, SubmitAsk, Has;
    if o.side == Bid {
      SubmitBidOk(b, o, ts);
    } else {
      MirrorHas(b.bids, o.id);
      MirrorHas(b.asks, o.id);
      MirrorOk(b);
      SubmitBidOk(Mirror(b), MirrorOrder(o), ts);
      MirrorOk(SubmitBid(Mirror(b), MirrorOrder(o), ts).book);
      AskIsMirroredBid(b, o, ts);
    }
  }

  // ---------- Cancel ----------

  /** Removing an order by its id takes out exactly that order and keeps everyone else's place. */
  lemma {:induction false} RemoveSplit(s: seq<Resting>, id: OrderId) returns (k: nat)
    requires Has(s, id)
    ensures k < |s| && s[k].order.id == id && Remove(s, id) == s[..k] + s[k + 1..]
  {
    if s[0].order.id == id {
      k := 0;
    } else {
      var i :| 0 <= i < |s| && s[i].order.id == id;
      assert s[1..][i - 1].order.id == id;
      var j := RemoveSplit(s[1..], id);
      k := j + 1;
      assert s[..k] == [s[0]] + s[1..][..j];
      assert s[1..][j + 1..] == s[k + 1..];
    }
  }

  lemma RemoveOk(buy: bool, s: seq<Resting>, id: OrderId, next: nat)
    requires SideOk(buy, s, next) && Has(s, id)
    ensures SideOk(buy, Remove(s, id), next) && !Has(Remove(s, id), id)
    ensures forall i :: 0 <= i < |Remove(s, id)| ==> Remove(s, id)[i] in s
    ensures forall x :: x != id ==> Has(Remove(s, id), x) == Has(s, x)
  {
    hide Remove, Has, Before, SideOk;
    var k := RemoveSplit(s, id);
    WithoutOk(buy, s, k, next);
    var t := Remove(s, id);
    forall i | 0 <= i < |t| ensures t[i] in s { TakenAt(s, k, i); }
    forall x | x != id ensures Has(t, x) == Has(s, x) { WithoutHas(s, k, x); }
  }

  /** Position `i` of a queue without position `k`. */
  lemma TakenAt(s: seq<Resting>, k: nat, i: nat)
    requires k < |s| && i < |s| - 1
    ensures (s[..k] + s[k + 1..])[i] == s[if i < k then i else i + 1]
  {
  }

  lemma WithoutOk(buy: bool, s: seq<Resting>, k: nat, next: nat)
    requires SideOk(buy, s, next) && k < |s|
    ensures SideOk(buy, s[..k] + s[k + 1..], next) && !Has(s[..k] + s[k + 1..], s[k].order.id)
  {
    hide Before;
    var t := s[..k] + s[k + 1..];
    assert forall i :: 0 <= i < |t| ==> t[i] == s[if i < k then i else i + 1];
  }

  lemma WithoutHas(s: seq<Resting>, k: nat, x: OrderId)
    requires k < |s| && x != s[k].order.id
    ensures Has(s[..k] + s[k + 1..], x) == Has(s, x)
  {
    var t := s[..k] + s[k + 1..];
    assert forall i :: 0 <= i < |t| ==> t[i] == s[if i < k then i else i + 1];
    if Has(s, x) {
      var i :| 0 <= i < |s| && s[i].order.id == x;
      assert t[if i < k then i else i - 1].order.id == x;
    }
  }

  lemma CancelOk(b: Book, id: OrderId, ts: nat)
    requires BookOk(b)
    ensures BookOk(Cancel(b, id, ts).book)
    ensures Cancel(b, id, ts).result.cancelOk <==> Has(b.bids, id) || Has(b.asks, id)
    ensures var b' := Cancel(b, id, ts).book;
      && !Has(b'.bids, id) && !Has(b'.asks, id)
      && forall x :: x != id ==> Has(b'.bids, x) == Has(b.bids, x) && Has(b'.asks, x) == Has(b.asks, x)
  {
    hide SideOk, Remove;
    if Has(b.bids, id) {
      RemoveOk(true, b.bids, id, b.nextStamp);
      var t := Remove(b.bids, id);
      forall i, j | 0 <= i < |t| && 0 <= j < |b.asks|
        ensures t[i].order.price < b.asks[j].order.price && t[i].order.id != b.asks[j].order.id
      {
        var k :| 0 <= k < |b.bids| && b.bids[k] == t[i];
      }
    } else if Has(b.asks, id) {
      RemoveOk(false, b.asks, id, b.nextStamp);
      var t := Remove(b.asks, id);
      forall i, j | 0 <= i < |b.bids| && 0 <= j < |t|
        ensures b.bids[i].order.price < t[j].order.price && b.bids[i].order.id != t[j].order.id
      {
        var k :| 0 <= k < |b.asks| && b.asks[k] == t[j];
      }
    }
  }

  /** Cancelling keeps the relative order of everyone else: the queue is the old one without the cancelled order. */
  lemma CancelKeepsPriority(b: Book, id: OrderId, ts: nat) returns (k: nat)
    requires BookOk(b) && (Has(b.bids, id) || Has(b.asks, id))
    ensures var b' := Cancel(b, id, ts).book;
      if Has(b.bids, id) then
        k < |b.bids| && b.bids[k].order.id == id && b' == b.(bids := b.bids[..k] + b.bids[k + 1..])
      else
        k < |b.asks| && b.asks[k].order.id == id && b' == b.(asks := b.asks[..k] + b.asks[k + 1..])
  {
    if Has(b.bids, id) { k := RemoveSplit(b.bids, id); } else { k := RemoveSplit(b.asks, id); }
  }

  /** A limit order that is QUEUED and then cancelled leaves the book as it was, up to the arrival counter. */
  lemma QueueThenCancelRestores(b: Book, o: Order, ts: nat, ts': nat)
    requires BookOk(b) && o.qty >= 0 && !Has(b.bids, o.id) && !Has(b.asks, o.id)
    requires Submit(b, o, ts).result.status == Queued
    ensures Cancel(Submit(b, o, ts).book, o.id, ts').book == b.(nextStamp := b.nextStamp + 1)
  {
    hide Walk, Insert, Remove;
    var buy := o.side == Bid;
    var opp := if buy then b.asks else b.bids;
    var own := if buy then b.bids else b.asks;
    WalkShape(buy, o, opp, o.qty);
    NothingFilled(buy, o, opp);
    var r := Resting(b.nextStamp, o);
    InsertRemove(buy, own, r);
  }

  lemma NothingFilled(buy: bool, o: Order, opp: seq<Resting>)
    requires Positive(opp) && o.qty >= 0 && FilledQty(Walk(buy, o, opp, o.qty).fills) == 0
    ensures Walk(buy, o, opp, o.qty) == WalkResult([], opp)
  {
    if opp == [] || o.qty <= 0 || !Crosses(buy, o, opp[0].order.price) {
    } else {
      WalkStep(buy, o, opp, o.qty);
      RestFilled(buy, o, opp[1..], o.qty - Min(o.qty, opp[0].order.qty));
    }
  }

  lemma {:induction false} InsertRemove(buy: bool, s: seq<Resting>, r: Resting)
    requires !Has(s, r.order.id)
    ensures Has(Insert(buy, s, r), r.order.id) && Remove(Insert(buy, s, r), r.order.id) == s
  {
    if s == [] || Better(buy, r.order.price, s[0].order.price) {
      assert ([r] + s)[0].order.id == r.order.id;
    } else {
      assert s[0].order.id != r.order.id;
      forall i | 0 <= i < |s[1..]| ensures s[1..][i].order.id != r.order.id { assert s[i + 1].order.id != r.order.id; }
      InsertRemove(buy, s[1..], r);
      HasBehind(s[0], Insert(buy, s[1..], r), r.order.id);
    }
  }

  lemma HasBehind(x: Resting, t: seq<Resting>, id: OrderId)
    requires Has(t, id) && x.order.id != id
    ensures Has([x] + t, id) && Remove([x] + t, id) == [x] + Remove(t, id)
  {
    var i :| 0 <= i < |t| && t[i].order.id == id;
    assert ([x] + t)[i + 1].order.id == id && ([x] + t)[1..] == t;
  }

  /** The one submit that breaks positivity: a negative quantity that is allowed to rest does rest.  A book stays
      positive exactly when that is not what is submitted. */
  lemma PositivityNeedsQuantity(b: Book, o: Order, ts: nat)
    requires BookOk(b) && !Has(b.bids, o.id) && !Has(b.asks, o.id)
    ensures Positive(Submit(b, o, ts).book.bids) && Positive(Submit(b, o, ts).book.asks)
       <==> o.qty >= 0 || o.otype == Market
  {
    if o.qty >= 0 {
      SubmitOk(b, o, ts);
    } else {
      var buy := o.side == Bid;
      var own := if buy then b.bids else b.asks;
      var r := Resting(b.nextStamp, o);
      WalkStops(buy, o, if buy then b.asks else b.bids, o.qty);
      assert FilledQty([]) == 0;
      InsertSplit(buy, own, r);
      var k := InsertAt(buy, own, r);
      assert Insert(buy, own, r)[k] == r;
    }
  }
}
