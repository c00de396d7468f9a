/** What matching achieves: the shape of its trades, how much it fills and at what cost. */
module BookMatching {
  import opened MarketTypes
  import opened FlatBook

  ghost predicate Positive(s: seq<Resting>) {
    forall i :: 0 <= i < |s| ==> s[i].order.qty > 0
  }

  /** Price-time priority: better prices first, earlier arrivals first at one price. */
  predicate Before(buy: bool, r: Resting, t: Resting) {
    Better(buy, r.order.price, t.order.price) || (r.order.price == t.order.price && r.stamp < t.stamp)
  }

  ghost predicate Sorted(buy: bool, s: seq<Resting>) {
    forall i, j :: 0 <= i < j < |s| ==> Before(buy, s[i], s[j])
  }

  // ---------- Shape ----------

  /** The queue with its first `n` orders traded, the last of them for `last` only. */
  function Consume(s: seq<Resting>, n: nat, last: int): seq<Resting>
    requires n <= |s|
  {
    if n > 0 && last != s[n - 1].order.qty then [Reduced(s[n - 1], last)] + s[n..] else s[n..]
  }

  /** One step of the walk. */
  lemma WalkStep(buy: bool, o: Order, opp: seq<Resting>, rem: int)
    requires opp != [] && rem > 0 && Crosses(buy, o, opp[0].order.price)
    ensures var t := Min(rem, opp[0].order.qty); var w, w' := Walk(buy, o, opp, rem), Walk(buy, o, opp[1..], rem - t);
      && w.fills == [Fill(opp[0], t)] + w'.fills
      && w.rest == (if opp[0].order.qty == t then [] else [Reduced(opp[0], t)]) + w'.rest
      && FilledQty(w.fills) == t + FilledQty(w'.fills)
      && Notional(w.fills) == t as real * opp[0].order.price + Notional(w'.fills)
  {
    var t := Min(rem, opp[0].order.qty);
    var w, w' := Walk(buy, o, opp, rem), Walk(buy, o, opp[1..], rem - t);
    assert w.fills[1..] == w'.fills;
  }

  lemma WalkStops(buy: bool, o: Order, opp: seq<Resting>, rem: int)
    requires opp == [] || rem <= 0 || !Crosses(buy, o, opp[0].order.price)
    ensures Walk(buy, o, opp, rem) == WalkResult([], opp)
  {
  }

  /** Trades hit a prefix of the opposite queue in order; all but the last consume their order; what remains is the
      suffix with its head reduced; and the walk stops because the order is filled, the queue is exhausted or the
      next price is not acceptable. */
  ghost predicate Shape(buy: bool, o: Order, opp: seq<Resting>, rem: int, w: WalkResult) {
    var n := |w.fills|;
    && n <= |opp|
    && (forall i :: 0 <= i < n ==> w.fills[i].resting == opp[i] && Crosses(buy, o, opp[i].order.price))
    && (forall i :: 0 <= i < n - 1 ==> w.fills[i].qty == opp[i].order.qty)
    && (n > 0 ==> 0 < w.fills[n - 1].qty <= opp[n - 1].order.qty)
    && w.rest == Consume(opp, n, if n > 0 then w.fills[n - 1].qty else 0)
    && (FilledQty(w.fills) == rem || n == |opp| || !Crosses(buy, o, opp[n].order.price))
    && (n > 0 && w.fills[n - 1].qty < opp[n - 1].order.qty ==> FilledQty(w.fills) == rem)
    && 0 <= FilledQty(w.fills) <= rem
  }

  lemma ShapeStop(buy: bool, o: Order, opp: seq<Resting>, rem: int)
    requires rem >= 0 && (opp == [] || rem <= 0 || !Crosses(buy, o, opp[0].order.price))
    ensures Shape(buy, o, opp, rem, Walk(buy, o, opp, rem))
  {
    WalkStops(buy, o, opp, rem);
  }

  lemma ShapeLast(buy: bool, o: Order, opp: seq<Resting>, rem: int)
    requires Positive(opp) && opp != [] && 0 < rem < opp[0].order.qty && Crosses(buy, o, opp[0].order.price)
    ensures Shape(buy, o, opp, rem, Walk(buy, o, opp, rem))
  {
    WalkStep(buy, o, opp, rem);
    WalkStops(buy, o, opp[1..], 0);
  }

  lemma ShapeCons(buy: bool, o: Order, opp: seq<Resting>, rem: int, w: WalkResult, w': WalkResult)
    requires Positive(opp) && opp != [] && rem >= opp[0].order.qty && Crosses(buy, o, opp[0].order.price)
    requires Shape(buy, o, opp[1..], rem - opp[0].order.qty, w')
    requires w.fills == [Fill(opp[0], opp[0].order.qty)] + w'.fills && w.rest == w'.rest
    requires FilledQty(w.fills) == opp[0].order.qty + FilledQty(w'.fills)
    ensures Shape(buy, o, opp, rem, w)
  {
    hide Crosses, FilledQty, Consume;
    var n := |w'.fills|;
    assert forall i :: 0 < i < |w.fills| ==> w.fills[i] == w'.fills[i - 1];
    assert forall i :: 0 < i < |opp| ==> opp[i] == opp[1..][i - 1];
    ConsumeCons(opp, n, if n > 0 then w'.fills[n - 1].qty else 0);
  }

  lemma ConsumeCons(s: seq<Resting>, n: nat, last: int)
    requires s != [] && n <= |s[1..]|
    ensures Consume(s, n + 1, if n > 0 then last else s[0].order.qty) == Consume(s[1..], n, if n > 0 then last else 0)
  {
    assert s[1..][n..] == s[n + 1..];
  }

  lemma {:induction false} WalkShape(buy: bool, o: Order, opp: seq<Resting>, rem: int)
    requires Positive(opp) && rem >= 0
    ensures Shape(buy, o, opp, rem, Walk(buy, o, opp, rem))
  {
    hide Shape, Walk, Crosses, FilledQty;
    if opp == [] || rem <= 0 || !Crosses(buy, o, opp[0].order.price) {
      ShapeStop(buy, o, opp, rem);
    } else if rem < opp[0].order.qty {
      ShapeLast(buy, o, opp, rem);
    } else {
      WalkShape(buy, o, opp[1..], rem - opp[0].order.qty);
      WalkStep(buy, o, opp, rem);
      ShapeCons(buy, o, opp, rem, Walk(buy, o, opp, rem), Walk(buy, o, opp[1..], rem - opp[0].order.qty));
    }
  }

  // ---------- Amount ----------

  /** Total quantity of the resting orders the incoming order may trade with. */
  function EligibleQty(buy: bool, o: Order, s: seq<Resting>): int {
    if s == [] then 0
    else (if Crosses(buy, o, s[0].order.price) then s[0].order.qty else 0) + EligibleQty(buy, o, s[1..])
  }

  lemma EligibleNonNegative(buy: bool, o: Order, s: seq<Resting>)
    requires Positive(s)
    ensures EligibleQty(buy, o, s) >= 0
    ensures (forall i :: 0 <= i < |s| ==> !Crosses(buy, o, s[i].order.price)) ==> EligibleQty(buy, o, s) == 0
  {
    if s != [] { EligibleNonNegative(buy, o, s[1..]); }
  }

  /** An incoming order is filled as far as acceptable quantity exists. */
  lemma {:induction false} FillIsMaximal(buy: bool, o: Order, opp: seq<Resting>, rem: int)
    requires Positive(opp) && Sorted(!buy, opp) && rem >= 0
    ensures FilledQty(Walk(buy, o, opp, rem).fills) == Min(rem, EligibleQty(buy, o, opp))
  {
    hide Walk, FilledQty;
    EligibleNonNegative(buy, o, opp);
    if opp == [] || rem <= 0 {
      WalkStops(buy, o, opp, rem);
      NoFills(buy);
    } else if !Crosses(buy, o, opp[0].order.price) {
      forall i | 0 <= i < |opp| ensures !Crosses(buy, o, opp[i].order.price) {
        assert i > 0 ==> Before(!buy, opp[0], opp[i]);
      }
      WalkStops(buy, o, opp, rem);
      NoFills(buy);
    } else {
      var t := Min(rem, opp[0].order.qty);
      var w' := Walk(buy, o, opp[1..], rem - t);
      FillIsMaximal(buy, o, opp[1..], rem - t);
      WalkStep(buy, o, opp, rem);
      EligibleNonNegative(buy, o, opp[1..]);
    }
  }

  // ---------- Cost ----------

  /** Prices oriented so that the incoming order prefers smaller ones. */
  function Toward(buy: bool, price: real): real {
    if buy then price else -price
  }

  /** How much to take from each resting order. */
  ghost predicate Allocation(s: seq<Resting>, a: seq<int>) {
    |a| == |s| && forall i :: 0 <= i < |a| ==> 0 <= a[i] <= s[i].order.qty
  }

  function Total(a: seq<int>): int {
    if a == [] then 0 else a[0] + Total(a[1..])
  }

  function Cost(s: seq<Resting>, a: seq<int>): real
    requires |a| == |s|
  {
    if a == [] then 0.0 else a[0] as real * s[0].order.price + Cost(s[1..], a[1..])
  }

  lemma Spread(x: int, y: int, p: real)
    ensures (x + y) as real * p == x as real * p + y as real * p
  {
    assert (x + y) as real == x as real + y as real;
  }

  lemma Scale(x: int, p: real, q: real)
    requires x >= 0 && p <= q
    ensures x as real * p <= x as real * q
  {
    assert x as real >= 0.0;
  }

  lemma Orient(buy: bool, x: real, p: real)
    ensures Toward(buy, x * p) == x * Toward(buy, p)
  {
  }

  lemma TowardSum(buy: bool, x: real, y: real)
    ensures Toward(buy, x + y) == Toward(buy, x) + Toward(buy, y)
  {
  }

  /** Taking any amounts costs at least the lowest price for each unit. */
  lemma {:induction false} FloorCost(buy: bool, s: seq<Resting>, a: seq<int>, low: real)
    requires Allocation(s, a)
    requires forall i :: 0 <= i < |s| ==> low <= Toward(buy, s[i].order.price)
    ensures Total(a) as real * low <= Toward(buy, Cost(s, a))
    ensures Total(a) >= 0
  {
    hide Cost, Total, Toward;
    if a == [] {
      NothingTaken(buy, s, a, low);
    } else {
      FloorCost(buy, s[1..], a[1..], low);
      CostStep(s, a);
      FloorStep(buy, a[0], Total(a[1..]), s[0].order.price, Cost(s[1..], a[1..]), low, Total(a), Cost(s, a));
    }
  }

  lemma NothingTaken(buy: bool, s: seq<Resting>, a: seq<int>, low: real)
    requires s == [] && a == []
    ensures Total(a) == 0 && Total(a) as real * low <= Toward(buy, Cost(s, a))
  {
    assert Total(a) as real * low == 0.0 && Cost(s, a) == 0.0;
  }

  lemma CostStep(s: seq<Resting>, a: seq<int>)
    requires |a| == |s| && a != []
    ensures Total(a) == a[0] + Total(a[1..]) && Cost(s, a) == a[0] as real * s[0].order.price + Cost(s[1..], a[1..])
  {
  }

  lemma FloorStep(buy: bool, a0: int, rest: int, p: real, cost: real, low: real, total: int, cost': real)
    requires a0 >= 0 && low <= Toward(buy, p) && rest as real * low <= Toward(buy, cost)
    requires total == a0 + rest && cost' == a0 as real * p + cost
    ensures total as real * low <= Toward(buy, cost')
  {
    Spread(a0, rest, low);
    Scale(a0, low, Toward(buy, p));
    Orient(buy, a0 as real, p);
    TowardSum(buy, a0 as real * p, cost);
  }

  /** Paying `notional` for `filled` units is no worse than paying `cost` for `total` units, even when every unit beyond
      the filled ones is priced at `low`. */
  predicate NoWorse(buy: bool, filled: int, notional: real, total: int, cost: real, low: real) {
    Toward(buy, notional) + (total - filled) as real * low <= Toward(buy, cost)
  }

  /** Against any allocation of at least the filled quantity, matching is no more expensive, even when every unit the
      allocation takes beyond that is priced at the lowest price around. */
  lemma {:induction false} GreedyBound(buy: bool, o: Order, opp: seq<Resting>, rem: int, a: seq<int>, low: real)
    requires Positive(opp) && Sorted(!buy, opp) && rem >= 0 && Allocation(opp, a)
    requires forall i :: 0 <= i < |opp| ==> low <= Toward(buy, opp[i].order.price)
    requires Total(a) >= FilledQty(Walk(buy, o, opp, rem).fills)
    ensures NoWorse(buy, FilledQty(Walk(buy, o, opp, rem).fills), Notional(Walk(buy, o, opp, rem).fills),
                    Total(a), Cost(opp, a), low)
  {
    hide Walk, Crosses, FilledQty, Notional, Toward, Positive, Sorted, NoWorse;
    if opp == [] || rem <= 0 || !Crosses(buy, o, opp[0].order.price) {
      WalkStops(buy, o, opp, rem);
      FloorNoWorse(buy, opp, a, low);
    } else {
      var p, t := opp[0].order.price, Min(rem, opp[0].order.qty);
      var w' := Walk(buy, o, opp[1..], rem - t);
      WalkStep(buy, o, opp, rem);
      TailOk(buy, opp);
      FloorCost(buy, opp[1..], a[1..], Toward(buy, p));
      RestFilled(buy, o, opp[1..], rem - t);
      GreedyBound(buy, o, opp[1..], rem - t, a[1..], Toward(buy, p));
      var w := Walk(buy, o, opp, rem);
      GreedyArithmetic(buy, p, t, a[0], Total(a[1..]), FilledQty(w'.fills), Notional(w'.fills), Cost(opp[1..], a[1..]), low,
                       FilledQty(w.fills), Notional(w.fills), Total(a), Cost(opp, a));
    }
  }

  lemma FloorNoWorse(buy: bool, s: seq<Resting>, a: seq<int>, low: real)
    requires Allocation(s, a)
    requires forall i :: 0 <= i < |s| ==> low <= Toward(buy, s[i].order.price)
    ensures NoWorse(buy, FilledQty([]), Notional([]), Total(a), Cost(s, a), low)
  {
    hide Cost, Total, Toward;
    FloorCost(buy, s, a, low);
    NoFills(buy);
    NothingPaid(buy, Total(a), Cost(s, a), low);
  }

  lemma NothingPaid(buy: bool, total: int, cost: real, low: real)
    requires total as real * low <= Toward(buy, cost)
    ensures NoWorse(buy, 0, 0.0, total, cost, low)
  {
    assert total - 0 == total;
  }

  lemma NoFills(buy: bool)
    ensures FilledQty([]) == 0 && Notional([]) == 0.0 && Toward(buy, 0.0) == 0.0
  {
  }

  lemma TailOk(buy: bool, opp: seq<Resting>)
    requires opp != [] && Positive(opp) && Sorted(!buy, opp)
    ensures Positive(opp[1..]) && Sorted(!buy, opp[1..])
    ensures opp[0].order.qty > 0
    ensures forall i :: 0 <= i < |opp[1..]| ==> Toward(buy, opp[0].order.price) <= Toward(buy, opp[1..][i].order.price)
  {
    forall i | 0 <= i < |opp[1..]| ensures Toward(buy, opp[0].order.price) <= Toward(buy, opp[1..][i].order.price) {
      assert Before(!buy, opp[0], opp[i + 1]);
    }
  }

  lemma RestFilled(buy: bool, o: Order, opp: seq<Resting>, rem: int)
    requires Positive(opp) && rem >= 0
    ensures 0 <= FilledQty(Walk(buy, o, opp, rem).fills) <= rem
  {
    WalkShape(buy, o, opp, rem);
  }

  lemma GreedyArithmetic(buy: bool, p: real, t: int, a0: int, s: int, f: int, notional: real, cost: real, low: real,
                         filled': int, notional': real, total': int, cost': real)
    requires s >= f && a0 + s >= t + f && low <= Toward(buy, p)
    requires NoWorse(buy, f, notional, s, cost, Toward(buy, p))
    requires filled' == t + f && notional' == t as real * p + notional
    requires total' == a0 + s && cost' == a0 as real * p + cost
    ensures NoWorse(buy, filled', notional', total', cost', low)
  {
    var w := Toward(buy, p);
    Orient(buy, t as real, p);
    Orient(buy, a0 as real, p);
    TowardSum(buy, t as real * p, notional);
    TowardSum(buy, a0 as real * p, cost);
    Scale(a0 + s - (t + f), low, w);
    Spread(a0 - t, s - f, w);
    Spread(a0 - t, t, w);
  }

  /** Greedy optimality: among all ways to take the filled quantity from the resting orders, a bid pays the least and
      an ask receives the most. */
  lemma GreedyIsOptimal(buy: bool, o: Order, opp: seq<Resting>, rem: int, a: seq<int>)
    requires Positive(opp) && Sorted(!buy, opp) && rem >= 0
    requires Allocation(opp, a) && Total(a) == FilledQty(Walk(buy, o, opp, rem).fills)
    ensures buy ==> Notional(Walk(buy, o, opp, rem).fills) <= Cost(opp, a)
    ensures !buy ==> Notional(Walk(buy, o, opp, rem).fills) >= Cost(opp, a)
  {
    if opp != [] {
      var low := Toward(buy, opp[0].order.price);
      forall i | 0 <= i < |opp| ensures low <= Toward(buy, opp[i].order.price) {
        assert i > 0 ==> Before(!buy, opp[0], opp[i]);
      }
      GreedyBound(buy, o, opp, rem, a, low);
    }
  }

  /** The average price a submit reports, times the filled quantity, is the notional of its trades. */
  lemma AverageIsExact(fills: seq<Fill>)
    requires FilledQty(fills) > 0
    ensures AvgPrice(fills) * FilledQty(fills) as real == Notional(fills)
  {
    var f := FilledQty(fills) as real;
    assert f > 0.0;
    assert (Notional(fills) / f) * f == Notional(fills);
  }
}
