/** Top of book and depth rows: computed level by level, specified by price over the flat queue. */
module BookDepths {
  import opened MarketTypes
  import opened FlatBook
  import opened BookLevels
  import opened BookMatching
  import opened BookInvariant
  import opened BookRuns

  function SumQty(s: seq<Resting>): int {
    if s == [] then 0 else SumQty(s[..|s| - 1]) + s[|s| - 1].order.qty
  }

  lemma {:induction false} AtSplit(s: seq<Resting>, t: seq<Resting>, price: real)
    ensures QtyAt(s + t, price) == QtyAt(s, price) + QtyAt(t, price)
    ensures CountAt(s + t, price) == CountAt(s, price) + CountAt(t, price)
  {
    if s == [] {
      assert s + t == t;
    } else {
      AtSplit(s[1..], t, price);
      assert (s + t)[1..] == s[1..] + t;
    }
  }

  lemma {:induction false} AtLevel(s: seq<Resting>, price: real)
    requires forall i :: 0 <= i < |s| ==> s[i].order.price == price
    ensures QtyAt(s, price) == SumQty(s) && CountAt(s, price) == |s|
  {
    if s != [] {
      var n := |s| - 1;
      AtLevel(s[..n], price);
      AtSplit(s[..n], s[n..], price);
      assert s == s[..n] + s[n..];
      assert s[n..] == [s[n]];
      AtOne(s[n], price);
    }
  }

  lemma AtOne(r: Resting, price: real)
    requires r.order.price == price
    ensures QtyAt([r], price) == r.order.qty && CountAt([r], price) == 1
  {
    assert [r][1..] == [];
  }

  lemma {:induction false} AtElsewhere(s: seq<Resting>, price: real)
    requires forall i :: 0 <= i < |s| ==> s[i].order.price != price
    ensures QtyAt(s, price) == 0 && CountAt(s, price) == 0
  {
    if s != [] { AtElsewhere(s[1..], price); }
  }

  /** What rests at the price of a level is exactly the level. */
  lemma LevelTotals(buy: bool, ls: seq<Level>, k: nat)
    requires LevelsOk(buy, ls) && k < |ls|
    ensures QtyAt(Flatten(ls), ls[k].price) == SumQty(ls[k].orders)
    ensures CountAt(Flatten(ls), ls[k].price) == |ls[k].orders|
  {
    hide QtyAt, CountAt, Flatten, SumQty;
    var p, a, b := ls[k].price, Flatten(ls[..k]), Flatten(ls[k + 1..]);
    FlattenAt(ls, k);
    AtSplit(a + ls[k].orders, b, p);
    AtSplit(a, ls[k].orders, p);
    OtherLevels(ls[..k], p);
    OtherLevels(ls[k + 1..], p);
    assert LevelOk(ls[k]);
    AtLevel(ls[k].orders, p);
  }

  lemma OtherLevels(ls: seq<Level>, price: real)
    requires forall i :: 0 <= i < |ls| ==> LevelOk(ls[i]) && ls[i].price != price
    ensures QtyAt(Flatten(ls), price) == 0 && CountAt(Flatten(ls), price) == 0
  {
    hide QtyAt, CountAt, Flatten, LevelOk;
    forall i | 0 <= i < |Flatten(ls)| ensures Flatten(ls)[i].order.price != price {
      FlattenPrice(ls, i);
    }
    AtElsewhere(Flatten(ls), price);
  }

  // ---------- Distinct prices ----------

  lemma {:induction false} PricesOfLevel(s: seq<Resting>, t: seq<Resting>, price: real)
    requires s != [] && forall i :: 0 <= i < |s| ==> s[i].order.price == price
    requires t == [] || t[0].order.price != price
    ensures Prices(s + t) == [price] + Prices(t)
  {
    var u := s + t;
    if |s| == 1 {
      assert u[1..] == t;
    } else {
      PricesOfLevel(s[1..], t, price);
      assert u[1..] == s[1..] + t && u[1] == s[1];
    }
  }

  /** The distinct prices of a side are the keys of its map. */
  lemma {:induction false} PricesOfLevels(buy: bool, ls: seq<Level>)
    requires LevelsOk(buy, ls)
    ensures |Prices(Flatten(ls))| == |ls|
    ensures forall k :: 0 <= k < |ls| ==> Prices(Flatten(ls))[k] == ls[k].price
  {
    hide Prices;
    if ls == [] {
      PricesOfNone();
    } else {
      PricesOfLevels(buy, ls[1..]);
      assert LevelOk(ls[0]);
      if |ls| > 1 {
        FlattenHead(ls[1..]);
        assert Better(buy, ls[0].price, ls[1].price);
      }
      PricesOfLevel(ls[0].orders, Flatten(ls[1..]), ls[0].price);
      assert forall k :: 0 < k < |ls| ==> ls[k] == ls[1..][k - 1];
    }
  }

  lemma PricesOfNone()
    ensures Prices([]) == []
  {
  }

  /** The row of a level. */
  lemma LevelRow(buy: bool, ls: seq<Level>, k: nat)
    requires LevelsOk(buy, ls) && k < |ls|
    ensures |Rows(Flatten(ls))| == |ls|
    ensures Rows(Flatten(ls))[k] == DepthLevel(ls[k].price, SumQty(ls[k].orders), |ls[k].orders|)
  {
    hide Prices, QtyAt, CountAt, SumQty, Flatten;
    PricesOfLevels(buy, ls);
    LevelTotals(buy, ls, k);
  }

  // ---------- What a reader of the rows may rely on ----------

  lemma {:induction false} PricesSorted(buy: bool, s: seq<Resting>)
    requires forall i, j :: 0 <= i < j < |s| ==> !Better(buy, s[j].order.price, s[i].order.price)
    ensures forall i, j :: 0 <= i < j < |Prices(s)| ==> Better(buy, Prices(s)[i], Prices(s)[j])
    ensures s != [] ==> Prices(s) != [] && Prices(s)[0] == s[0].order.price
  {
    if s != [] {
      PricesSorted(buy, s[1..]);
      if |s| > 1 && s[1].order.price == s[0].order.price {
      } else {
        var ps := Prices(s[1..]);
        forall j | 0 <= j < |ps| ensures Better(buy, s[0].order.price, ps[j]) {
          assert !Better(buy, s[1].order.price, s[0].order.price);
          assert j > 0 ==> Better(buy, ps[0], ps[j]);
        }
      }
    }
  }

  /** Rows are strictly sorted, the first one is the top of book, and a deeper query only adds rows. */
  lemma RowsAreSorted(buy: bool, s: seq<Resting>, k: nat)
    requires Sorted(buy, s)
    ensures forall i, j :: 0 <= i < j < |FirstRows(s, k)| ==> Better(buy, FirstRows(s, k)[i].price, FirstRows(s, k)[j].price)
    ensures FirstRows(s, k) <= FirstRows(s, k + 1) && |FirstRows(s, k)| <= k
    ensures FirstRows(s, k) == [] <==> k == 0 || s == []
    ensures FirstRows(s, k) != [] ==> BestPrice(s) == Some(FirstRows(s, k)[0].price) && BestQty(s) == Some(FirstRows(s, k)[0].qty)
  {
    hide Prices, QtyAt, CountAt;
    forall i, j | 0 <= i < j < |s| ensures !Better(buy, s[j].order.price, s[i].order.price) {
      assert Before(buy, s[i], s[j]);
    }
    PricesSorted(buy, s);
    if s == [] { PricesOfNone(); }
  }

  /** After every run, the depth of the book is strictly price-sorted on both sides, each deeper query extends the
      shallower one, and its first rows are the published top. */
  lemma DepthAfterRun(ops: seq<Op>, k: nat, ts: nat)
    requires FreshIds(ops) && NonNegative(ops)
    ensures var b := After(ops); var d, d', top := DepthOf(b, k), DepthOf(b, k + 1), TopOf(b, ts);
      && d.bids <= d'.bids && d.asks <= d'.asks
      && (forall i, j :: 0 <= i < j < |d.bids| ==> d.bids[i].price > d.bids[j].price)
      && (forall i, j :: 0 <= i < j < |d.asks| ==> d.asks[i].price < d.asks[j].price)
      && (forall i, j :: 0 <= i < |d.bids| && 0 <= j < |d.asks| ==> d.bids[i].price < d.asks[j].price)
      && (k > 0 ==> (top.bidPrice.None? <==> d.bids == []) && (top.askPrice.None? <==> d.asks == []))
      && (d.bids != [] ==> top.bidPrice == Some(d.bids[0].price) && top.bidQty == Some(d.bids[0].qty))
      && (d.asks != [] ==> top.askPrice == Some(d.asks[0].price) && top.askQty == Some(d.asks[0].qty))
  {
    hide BookOk, FirstRows, After, QtyAt;
    RunOk(ops);
    var b := After(ops);
    OkSorted(b);
    RowsAreSorted(true, b.bids, k);
    RowsAreSorted(false, b.asks, k);
    var d := DepthOf(b, k);
    forall i, j | 0 <= i < |d.bids| && 0 <= j < |d.asks| ensures d.bids[i].price < d.asks[j].price {
      assert i > 0 ==> Better(true, d.bids[0].price, d.bids[i].price);
      assert j > 0 ==> Better(false, d.asks[0].price, d.asks[j].price);
    }
  }

  lemma OkSorted(b: Book)
    requires BookOk(b)
    ensures Sorted(true, b.bids) && Sorted(false, b.asks)
    ensures b.bids != [] && b.asks != [] ==> b.bids[0].order.price < b.asks[0].order.price
  {
  }
}
