/** The id index: a bijection between ids and resting orders, through side, price and list node. */
module BookIndex {
  import opened MarketTypes
  import opened FlatBook

  /** OrderLocation; the list iterator is represented by the identity of the node it points to. */
  datatype Location = Location(side: Side, price: real, node: nat)

  function Ids(s: seq<Resting>): set<OrderId> {
    set i | 0 <= i < |s| :: s[i].order.id
  }

  function LocationOf(side: Side, r: Resting): Location {
    Location(side, r.order.price, r.stamp)
  }

  /** Every order of the queue is found under its id. */
  ghost predicate Indexed(index: map<OrderId, Location>, side: Side, s: seq<Resting>) {
    forall i :: 0 <= i < |s| ==> s[i].order.id in index && index[s[i].order.id] == LocationOf(side, s[i])
  }

  ghost predicate DistinctNodes(s: seq<Resting>, next: nat) {
    && (forall i, j :: 0 <= i < j < |s| ==> s[i].stamp != s[j].stamp)
    && (forall i :: 0 <= i < |s| ==> s[i].stamp < next)
  }

  /** The index holds the orders of `s` (on `side`) and `t` (on the other side), and nothing else. */
  ghost predicate IndexOk(index: map<OrderId, Location>, side: Side, s: seq<Resting>, t: seq<Resting>, next: nat) {
    && side != SideUnspecified
    && Indexed(index, side, s)
    && Indexed(index, if side == Bid then Ask else Bid, t)
    && index.Keys == Ids(s) + Ids(t)
    && DistinctNodes(s, next) && DistinctNodes(t, next)
  }

  lemma OtherSide(index: map<OrderId, Location>, side: Side, s: seq<Resting>, t: seq<Resting>, next: nat)
    requires IndexOk(index, side, s, t, next)
    ensures IndexOk(index, if side == Bid then Ask else Bid, t, s, next)
  {
  }

  /** Orders with one id share one location, so ids are unique. */
  lemma IndexedUnique(index: map<OrderId, Location>, side: Side, s: seq<Resting>, t: seq<Resting>, next: nat)
    requires IndexOk(index, side, s, t, next)
    ensures forall i, j :: 0 <= i < |s| && 0 <= j < |s| && i != j ==> s[i].order.id != s[j].order.id
    ensures forall i, j :: 0 <= i < |s| && 0 <= j < |t| ==> s[i].order.id != t[j].order.id
  {
    forall i, j | 0 <= i < |s| && 0 <= j < |s| && i != j ensures s[i].order.id != s[j].order.id {
      assert s[i].stamp != s[j].stamp;
    }
  }

  lemma IdsHas(s: seq<Resting>, id: OrderId)
    ensures id in Ids(s) <==> Has(s, id)
  {
  }

  /** Erasing an order together with its index entry. */
  lemma IndexErase(index: map<OrderId, Location>, side: Side, a: seq<Resting>, x: Resting, b: seq<Resting>, t: seq<Resting>, next: nat)
    requires IndexOk(index, side, a + [x] + b, t, next)
    ensures IndexOk(index - {x.order.id}, side, a + b, t, next)
  {
    var s, s' := a + [x] + b, a + b;
    IndexedUnique(index, side, s, t, next);
    assert s[|a|] == x;
    assert forall i :: 0 <= i < |s'| ==> s'[i] == s[if i < |a| then i else i + 1];
    EraseNodes(a, x, b, next);
    EraseIds(a, x, b, t, index.Keys);
    forall i | 0 <= i < |s'| ensures s'[i].order.id in index - {x.order.id} && index[s'[i].order.id] == LocationOf(side, s'[i]) {
      var k := if i < |a| then i else i + 1;
      assert s'[i] == s[k] && k != |a|;
    }
  }

  lemma EraseNodes(a: seq<Resting>, x: Resting, b: seq<Resting>, next: nat)
    requires DistinctNodes(a + [x] + b, next)
    ensures DistinctNodes(a + b, next)
  {
    var s, s' := a + [x] + b, a + b;
    assert forall i :: 0 <= i < |s'| ==> s'[i] == s[if i < |a| then i else i + 1];
  }

  lemma EraseIds(a: seq<Resting>, x: Resting, b: seq<Resting>, t: seq<Resting>, keys: set<OrderId>)
    requires keys == Ids(a + [x] + b) + Ids(t)
    requires forall i :: 0 <= i < |a + b| ==> (a + b)[i].order.id != x.order.id
    requires forall i :: 0 <= i < |t| ==> t[i].order.id != x.order.id
    ensures keys - {x.order.id} == Ids(a + b) + Ids(t)
  {
    var s, s' := a + [x] + b, a + b;
    assert s[|a|] == x;
    forall id | id in keys && id != x.order.id ensures id in Ids(s') + Ids(t) {
      if id in Ids(s) {
        var i :| 0 <= i < |s| && s[i].order.id == id;
        assert s'[if i < |a| then i else i - 1] == s[i];
      }
    }
    forall id | id in Ids(s') ensures id in keys {
      var i :| 0 <= i < |s'| && s'[i].order.id == id;
      assert s[if i < |a| then i else i + 1] == s'[i];
    }
  }

  /** Reducing a quantity does not move an order. */
  lemma IndexReduce(index: map<OrderId, Location>, side: Side, s: seq<Resting>, k: nat, qty: int, t: seq<Resting>, next: nat)
    requires IndexOk(index, side, s, t, next) && k < |s|
    ensures IndexOk(index, side, s[k := Reduced(s[k], qty)], t, next)
  {
    var s' := s[k := Reduced(s[k], qty)];
    assert forall i :: 0 <= i < |s| ==> s'[i].order.id == s[i].order.id && s'[i].stamp == s[i].stamp && s'[i].order.price == s[i].order.price;
    assert Ids(s') == Ids(s) by {
      forall id | id in Ids(s) ensures id in Ids(s') {
        var i :| 0 <= i < |s| && s[i].order.id == id;
        assert s'[i].order.id == id;
      }
    }
  }

  /** `s'` is `s` with `r` put in at position `n`. */
  ghost predicate PutIn(s: seq<Resting>, s': seq<Resting>, n: nat, r: Resting) {
    && n <= |s| && |s'| == |s| + 1 && s'[n] == r
    && (forall i :: 0 <= i < |s'| && i != n ==> s'[i] == s[if i < n then i else i - 1])
    && (forall i :: 0 <= i < |s| ==> s[i] == s'[if i < n then i else i + 1])
  }

  lemma PutInIds(s: seq<Resting>, s': seq<Resting>, n: nat, r: Resting)
    requires PutIn(s, s', n, r)
    ensures Ids(s') == Ids(s) + {r.order.id}
  {
    forall id | id in Ids(s) ensures id in Ids(s') {
      var i :| 0 <= i < |s| && s[i].order.id == id;
      assert s'[if i < n then i else i + 1].order.id == id;
    }
    assert s'[n].order.id in Ids(s');
  }

  lemma PutInNodes(s: seq<Resting>, s': seq<Resting>, n: nat, r: Resting)
    requires PutIn(s, s', n, r) && DistinctNodes(s, r.stamp)
    ensures DistinctNodes(s', r.stamp + 1)
  {
  }

  lemma PutInIndexed(index: map<OrderId, Location>, side: Side, s: seq<Resting>, s': seq<Resting>, n: nat, r: Resting)
    requires PutIn(s, s', n, r) && Indexed(index, side, s) && r.order.id !in index
    ensures Indexed(index[r.order.id := LocationOf(side, r)], side, s')
  {
  }

  /** Inserting a new order together with its index entry. */
  lemma IndexInsert(index: map<OrderId, Location>, side: Side, a: seq<Resting>, b: seq<Resting>, t: seq<Resting>, r: Resting)
    requires IndexOk(index, side, a + b, t, r.stamp) && r.order.id !in index
    ensures IndexOk(index[r.order.id := LocationOf(side, r)], side, a + [r] + b, t, r.stamp + 1)
  {
    hide DistinctNodes, PutIn, Indexed, Ids;
    var s, s' := a + b, a + [r] + b;
    PutInMiddle(a, b, r);
    PutElsewhere(index, if side == Bid then Ask else Bid, t, r.order.id, LocationOf(side, r));
    PutInIds(s, s', |a|, r);
    PutInNodes(s, s', |a|, r);
    PutInIndexed(index, side, s, s', |a|, r);
    LaterNodes(t, r.stamp);
  }

  lemma PutInMiddle(a: seq<Resting>, b: seq<Resting>, r: Resting)
    ensures PutIn(a + b, a + [r] + b, |a|, r)
  {
  }

  lemma PutElsewhere(index: map<OrderId, Location>, side: Side, t: seq<Resting>, id: OrderId, loc: Location)
    requires Indexed(index, side, t) && id !in index
    ensures Indexed(index[id := loc], side, t)
  {
  }

  lemma LaterNodes(t: seq<Resting>, next: nat)
    requires DistinctNodes(t, next)
    ensures DistinctNodes(t, next + 1)
  {
  }

  /** The list node an index entry names. */
  lemma IndexFind(index: map<OrderId, Location>, side: Side, s: seq<Resting>, t: seq<Resting>, next: nat, id: OrderId) returns (k: nat)
    requires IndexOk(index, side, s, t, next) && id in index && index[id].side == side
    ensures k < |s| && s[k].order.id == id && index[id] == LocationOf(side, s[k])
  {
    assert id in Ids(s) + Ids(t);
    assert forall i :: 0 <= i < |t| ==> t[i].order.id != id;
    k :| 0 <= k < |s| && s[k].order.id == id;
  }
}
