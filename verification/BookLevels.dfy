/** Price levels: a side of the book as an ordered map from prices to lists, and how it flattens to one queue. */
module BookLevels {
  import opened MarketTypes
  import opened FlatBook

  datatype Level = Level(price: real, orders: seq<Resting>)

  function Flatten(ls: seq<Level>): seq<Resting> {
    if ls == [] then [] else ls[0].orders + Flatten(ls[1..])
  }

  predicate LevelOk(l: Level) {
    l.orders != [] && forall j :: 0 <= j < |l.orders| ==> l.orders[j].order.price == l.price
  }

  /** Levels are strictly ordered by price, none is empty and each holds only orders at its price. */
  ghost predicate LevelsOk(buy: bool, ls: seq<Level>) {
    && (forall i :: 0 <= i < |ls| ==> LevelOk(ls[i]))
    && (forall i, j :: 0 <= i < j < |ls| ==> Better(buy, ls[i].price, ls[j].price))
  }

  lemma {:induction false} FlattenSplit(ls: seq<Level>, k: nat)
    requires k <= |ls|
    ensures Flatten(ls) == Flatten(ls[..k]) + Flatten(ls[k..])
  {
    if k == 0 {
      assert ls[k..] == ls;
    } else {
      FlattenSplit(ls[1..], k - 1);
      assert ls[..k][1..] == ls[1..][..k - 1];
      assert ls[1..][k - 1..] == ls[k..];
    }
  }

  lemma FlattenCons(ls: seq<Level>, k: nat)
    requires k < |ls|
    ensures Flatten(ls[k..]) == ls[k].orders + Flatten(ls[k + 1..])
  {
    assert ls[k..][1..] == ls[k + 1..];
  }

  lemma FlattenSnoc(ls: seq<Level>, k: nat)
    requires k < |ls|
    ensures Flatten(ls[..k + 1]) == Flatten(ls[..k]) + ls[k].orders
  {
    FlattenSplit(ls[..k + 1], k);
    assert ls[..k + 1][..k] == ls[..k];
    assert ls[..k + 1][k..] == [ls[k]];
    assert Flatten([ls[k]]) == ls[k].orders;
  }

  lemma FlattenAt(ls: seq<Level>, k: nat)
    requires k < |ls|
    ensures Flatten(ls) == Flatten(ls[..k]) + ls[k].orders + Flatten(ls[k + 1..])
    ensures Flatten(ls[k..]) == ls[k].orders + Flatten(ls[k + 1..])
    ensures Flatten(ls[..k + 1]) == Flatten(ls[..k]) + ls[k].orders
  {
    hide Flatten;
    FlattenSplit(ls, k);
    FlattenCons(ls, k);
    FlattenSnoc(ls, k);
  }

  /** Replacing or erasing one level. */
  lemma FlattenReplace(ls: seq<Level>, k: nat, l: Level)
    requires k < |ls|
    ensures Flatten(ls[k := l]) == Flatten(ls[..k]) + l.orders + Flatten(ls[k + 1..])
    ensures Flatten(ls[..k] + ls[k + 1..]) == Flatten(ls[..k]) + Flatten(ls[k + 1..])
  {
    FlattenAt(ls[k := l], k);
    assert ls[k := l][..k] == ls[..k] && ls[k := l][k + 1..] == ls[k + 1..];
    var e := ls[..k] + ls[k + 1..];
    FlattenSplit(e, k);
    assert e[..k] == ls[..k] && e[k..] == ls[k + 1..];
  }

  lemma ReplaceOk(buy: bool, ls: seq<Level>, k: nat, orders: seq<Resting>)
    requires LevelsOk(buy, ls) && k < |ls| && LevelOk(Level(ls[k].price, orders))
    ensures LevelsOk(buy, ls[k := Level(ls[k].price, orders)])
  {
  }

  lemma EraseOk(buy: bool, ls: seq<Level>, k: nat)
    requires LevelsOk(buy, ls) && k < |ls|
    ensures LevelsOk(buy, ls[..k] + ls[k + 1..])
  {
    var e := ls[..k] + ls[k + 1..];
    assert forall i :: 0 <= i < |e| ==> e[i] == ls[if i < k then i else i + 1];
  }

  lemma FlattenPrice(ls: seq<Level>, i: nat)
    requires (forall k :: 0 <= k < |ls| ==> LevelOk(ls[k])) && i < |Flatten(ls)|
    ensures exists k :: 0 <= k < |ls| && ls[k].price == Flatten(ls)[i].order.price && Flatten(ls)[i] in ls[k].orders
  {
    if i < |ls[0].orders| {
      assert LevelOk(ls[0]);
    } else {
      var i' := i - |ls[0].orders|;
      FlattenPrice(ls[1..], i');
      var k :| 0 <= k < |ls[1..]| && ls[1..][k].price == Flatten(ls[1..])[i'].order.price && Flatten(ls[1..])[i'] in ls[1..][k].orders;
      assert ls[k + 1] == ls[1..][k];
    }
  }

  // ---------- Map and list operations ----------

  /** Position of a price in the ordered map: the first level that is not better. */
  function Find(buy: bool, ls: seq<Level>, price: real): (k: nat)
    ensures k <= |ls|
    ensures forall i :: 0 <= i < k ==> Better(buy, ls[i].price, price)
    ensures k < |ls| ==> !Better(buy, ls[k].price, price)
  {
    if ls == [] || !Better(buy, ls[0].price, price) then 0
    else
      var k := Find(buy, ls[1..], price);
      assert forall i :: 0 < i < k + 1 ==> ls[i] == ls[1..][i - 1];
      k + 1
  }

  /** map[price].push_back(r): the level is created when it does not exist. */
  function PushBack(buy: bool, ls: seq<Level>, r: Resting): seq<Level> {
    var k := Find(buy, ls, r.order.price);
    if k < |ls| && ls[k].price == r.order.price then ls[k := Level(ls[k].price, ls[k].orders + [r])]
    else ls[..k] + [Level(r.order.price, [r])] + ls[k..]
  }

  lemma {:induction false} InsertBehind(buy: bool, a: seq<Resting>, s: seq<Resting>, r: Resting)
    requires forall i :: 0 <= i < |a| ==> !Better(buy, r.order.price, a[i].order.price)
    ensures Insert(buy, a + s, r) == a + Insert(buy, s, r)
  {
    if a == [] {
      assert a + s == s;
    } else {
      InsertBehind(buy, a[1..], s, r);
      assert (a + s)[1..] == a[1..] + s;
    }
  }

  lemma InsertFront(buy: bool, s: seq<Resting>, r: Resting)
    requires s == [] || Better(buy, r.order.price, s[0].order.price)
    ensures Insert(buy, s, r) == [r] + s
  {
  }

  lemma FlattenHead(ls: seq<Level>)
    requires ls != [] && LevelOk(ls[0])
    ensures Flatten(ls) != [] && Flatten(ls)[0].order.price == ls[0].price
  {
  }

  lemma PrefixNotWorse(buy: bool, ls: seq<Level>, k: nat, price: real)
    requires LevelsOk(buy, ls) && k <= |ls| && forall i :: 0 <= i < k ==> !Better(buy, price, ls[i].price)
    ensures forall i :: 0 <= i < |Flatten(ls[..k])| ==> !Better(buy, price, Flatten(ls[..k])[i].order.price)
  {
    forall i | 0 <= i < |Flatten(ls[..k])| ensures !Better(buy, price, Flatten(ls[..k])[i].order.price) {
      FlattenPrice(ls[..k], i);
    }
  }

  /** The flat queue splits behind the last level that is at least as good as the new order. */
  lemma InsertAtLevel(buy: bool, ls: seq<Level>, r: Resting, n: nat)
    requires LevelsOk(buy, ls) && n <= |ls|
    requires forall i :: 0 <= i < n ==> !Better(buy, r.order.price, ls[i].price)
    requires n < |ls| ==> Better(buy, r.order.price, ls[n].price)
    ensures Insert(buy, Flatten(ls), r) == Flatten(ls[..n]) + ([r] + Flatten(ls[n..]))
  {
    hide Insert, Flatten;
    FlattenSplit(ls, n);
    PrefixNotWorse(buy, ls, n, r.order.price);
    InsertBehind(buy, Flatten(ls[..n]), Flatten(ls[n..]), r);
    if n < |ls| { FlattenHead(ls[n..]); } else { FlattenNone(ls[n..]); }
    InsertFront(buy, Flatten(ls[n..]), r);
  }

  lemma FlattenNone(ls: seq<Level>)
    requires ls == []
    ensures Flatten(ls) == []
  {
  }

  lemma PushOldLevel(buy: bool, ls: seq<Level>, k: nat, r: Resting)
    requires LevelsOk(buy, ls) && k < |ls| && ls[k].price == r.order.price
    ensures LevelsOk(buy, ls[k := Level(ls[k].price, ls[k].orders + [r])])
    ensures Flatten(ls[k := Level(ls[k].price, ls[k].orders + [r])]) == Flatten(ls[..k + 1]) + ([r] + Flatten(ls[k + 1..]))
  {
    hide Flatten;
    assert LevelOk(ls[k]);
    var l := Level(ls[k].price, ls[k].orders + [r]);
    FlattenSnoc(ls, k);
    FlattenReplace(ls, k, l);
    ReplaceOk(buy, ls, k, l.orders);
  }

  /** Appending to the level of its price puts an order exactly where price-time priority wants it. */
  lemma PushBackIsInsert(buy: bool, ls: seq<Level>, r: Resting)
    requires LevelsOk(buy, ls)
    ensures LevelsOk(buy, PushBack(buy, ls, r))
    ensures Flatten(PushBack(buy, ls, r)) == Insert(buy, Flatten(ls), r)
  {
    hide Insert, Flatten;
    var k := Find(buy, ls, r.order.price);
    if k < |ls| && ls[k].price == r.order.price {
      assert k + 1 < |ls| ==> Better(buy, ls[k].price, ls[k + 1].price);
      InsertAtLevel(buy, ls, r, k + 1);
      PushOldLevel(buy, ls, k, r);
    } else {
      InsertAtLevel(buy, ls, r, k);
      PushNewLevel(buy, ls, k, r);
    }
  }

  lemma PushNewLevel(buy: bool, ls: seq<Level>, k: nat, r: Resting)
    requires LevelsOk(buy, ls) && k <= |ls|
    requires forall i :: 0 <= i < k ==> Better(buy, ls[i].price, r.order.price)
    requires k < |ls| ==> Better(buy, r.order.price, ls[k].price)
    ensures LevelsOk(buy, ls[..k] + [Level(r.order.price, [r])] + ls[k..])
    ensures Flatten(ls[..k] + [Level(r.order.price, [r])] + ls[k..]) == Flatten(ls[..k]) + ([r] + Flatten(ls[k..]))
  {
    hide Flatten;
    var t := ls[..k] + [Level(r.order.price, [r])] + ls[k..];
    FlattenAt(t, k);
    assert t[..k] == ls[..k] && t[k + 1..] == ls[k..];
    assert forall i :: 0 <= i < |t| && i != k ==> t[i] == ls[if i < k then i else i - 1];
    forall i, j | 0 <= i < j < |t| ensures Better(buy, t[i].price, t[j].price) {
      assert i == k && j > k + 1 ==> Better(buy, ls[k].price, ls[j - 1].price);
    }
  }

  /** list.erase(it): drop the node with the given identity. */
  function EraseNode(s: seq<Resting>, stamp: nat): seq<Resting> {
    if s == [] then [] else if s[0].stamp == stamp then s[1..] else [s[0]] + EraseNode(s[1..], stamp)
  }

  lemma {:induction false} EraseNodeAt(s: seq<Resting>, j: nat)
    requires j < |s| && forall i :: 0 <= i < |s| && i != j ==> s[i].stamp != s[j].stamp
    ensures EraseNode(s, s[j].stamp) == s[..j] + s[j + 1..]
  {
    if j > 0 {
      EraseNodeAt(s[1..], j - 1);
      assert s[..j] == [s[0]] + s[1..][..j - 1];
      assert s[1..][j..] == s[j + 1..];
    }
  }

  lemma {:induction false} RemoveAt(s: seq<Resting>, j: nat)
    requires j < |s| && forall i :: 0 <= i < |s| && i != j ==> s[i].order.id != s[j].order.id
    ensures Remove(s, s[j].order.id) == s[..j] + s[j + 1..]
  {
    if j > 0 {
      RemoveAt(s[1..], j - 1);
      assert s[..j] == [s[0]] + s[1..][..j - 1];
      assert s[1..][j..] == s[j + 1..];
    }
  }
}
