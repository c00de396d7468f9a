/** The matching loops over levels and lists, step by step against the one-pass walk. */
module BookLoops {
  import opened MarketTypes
  import F = FlatBook
  import opened BookLevels
  import opened BookIndex
  import opened BookMatching

  // ---------- The matching loops against the one-pass walk ----------

  /** The loops have traded `fills`, are done with `done` and still face `todo`; together that is the walk `w`. */
  ghost predicate Progress(w: F.WalkResult, buy: bool, o: Order, fills: seq<F.Fill>, done: seq<Resting>, todo: seq<Resting>, rem: int) {
    && w.fills == fills + F.Walk(buy, o, todo, rem).fills
    && w.rest == done + F.Walk(buy, o, todo, rem).rest
  }

  lemma ProgressTrade(w: F.WalkResult, buy: bool, o: Order, fills: seq<F.Fill>, done: seq<Resting>, x: Resting, todo: seq<Resting>, rem: int)
    requires Progress(w, buy, o, fills, done, [x] + todo, rem) && rem > 0 && F.Crosses(buy, o, x.order.price)
    ensures var t := Min(rem, x.order.qty);
      Progress(w, buy, o, fills + [F.Fill(x, t)], done + (if x.order.qty == t then [] else [F.Reduced(x, t)]), todo, rem - t)
  {
    hide F.Walk;
    WalkStep(buy, o, [x] + todo, rem);
    assert ([x] + todo)[1..] == todo;
  }

  lemma ProgressSkip(w: F.WalkResult, buy: bool, o: Order, fills: seq<F.Fill>, done: seq<Resting>, a: seq<Resting>, todo: seq<Resting>, rem: int)
    requires Progress(w, buy, o, fills, done, a + todo, rem) && (rem <= 0 || a == [])
    ensures Progress(w, buy, o, fills, done + a, todo, rem)
  {
    hide F.Walk;
    if rem <= 0 {
      WalkStops(buy, o, a + todo, rem);
      WalkStops(buy, o, todo, rem);
    } else {
      assert a + todo == todo && done + a == done;
    }
  }

  lemma ProgressEnds(w: F.WalkResult, buy: bool, o: Order, fills: seq<F.Fill>, done: seq<Resting>, todo: seq<Resting>, rem: int)
    requires Progress(w, buy, o, fills, done, todo, rem)
    requires todo == [] || rem <= 0 || !F.Crosses(buy, o, todo[0].order.price)
    ensures w == F.WalkResult(fills, done + todo)
  {
    hide F.Walk;
    WalkStops(buy, o, todo, rem);
  }

  /** The running totals of the loops. */
  ghost predicate Tally(o: Order, ts: nat, first: nat, fills: seq<F.Fill>, filled: int, notional: real, events: seq<MarketEvent>, next: nat) {
    && filled == F.FilledQty(fills) && notional == F.Notional(fills)
    && events == F.TradesOf(o, fills, first, ts) && next == first + |fills|
  }

  lemma {:induction false} TallyTrade(fills: seq<F.Fill>, f: F.Fill)
    ensures F.FilledQty(fills + [f]) == F.FilledQty(fills) + f.qty
    ensures F.Notional(fills + [f]) == F.Notional(fills) + f.qty as real * f.resting.order.price
  {
    if fills == [] {
      assert fills + [f] == [f];
    } else {
      TallyTrade(fills[1..], f);
      assert (fills + [f])[1..] == fills[1..] + [f];
    }
  }

  lemma TallyStep(o: Order, ts: nat, first: nat, fills: seq<F.Fill>, filled: int, notional: real, events: seq<MarketEvent>, next: nat,
                  r: Resting, qty: int, price: real)
    requires Tally(o, ts, first, fills, filled, notional, events, next) && r.order.price == price
    ensures Tally(o, ts, first, fills + [F.Fill(r, qty)], filled + qty, notional + qty as real * price,
                  events + [TradeEvent(Trade(next, price, qty, o.side, o.id, r.order.id, ts))], next + 1)
  {
    TallyTrade(fills, F.Fill(r, qty));
  }

  /** One trade with the order at position `j` of the current level. */
  lemma LevelTrade(w: F.WalkResult, buy: bool, o: Order, fills: seq<F.Fill>, done: seq<Resting>, resting: seq<Resting>, j: nat,
                   todo: seq<Resting>, rem: int)
    requires j < |resting| && rem > 0 && Progress(w, buy, o, fills, done + resting[..j], resting[j..] + todo, rem)
    requires F.Crosses(buy, o, resting[j].order.price)
    ensures var t := Min(rem, resting[j].order.qty); var fills' := fills + [F.Fill(resting[j], t)];
      if resting[j].order.qty == t then
        var resting' := resting[..j] + resting[j + 1..];
        resting'[..j] == resting[..j] && Progress(w, buy, o, fills', done + resting'[..j], resting'[j..] + todo, rem - t)
      else
        var resting' := resting[j := F.Reduced(resting[j], t)];
        Progress(w, buy, o, fills', done + resting'[..j + 1], resting'[j + 1..] + todo, rem - t)
  {
    hide Progress;
    var x, t := resting[j], Min(rem, resting[j].order.qty);
    assert resting[j..] + todo == [x] + (resting[j + 1..] + todo);
    ProgressTrade(w, buy, o, fills, done + resting[..j], x, resting[j + 1..] + todo, rem);
    if x.order.qty == t {
      var resting' := resting[..j] + resting[j + 1..];
      assert resting'[j..] == resting[j + 1..] && resting'[..j] == resting[..j];
      assert done + resting[..j] + [] == done + resting[..j];
    } else {
      var resting' := resting[j := F.Reduced(x, t)];
      assert resting'[j + 1..] == resting[j + 1..] && resting'[..j + 1] == resting[..j] + [F.Reduced(x, t)];
      assert done + resting[..j] + [F.Reduced(x, t)] == done + resting'[..j + 1];
    }
  }

  /** The index follows a trade: a consumed order leaves it, a reduced one stays. */
  lemma LevelIndex(index: map<OrderId, Location>, side: Side, pre: seq<Resting>, resting: seq<Resting>, j: nat,
                   post: seq<Resting>, other: seq<Resting>, next: nat, qty: int)
    requires j < |resting| && IndexOk(index, side, pre + resting + post, other, next)
    ensures IndexOk(index - {resting[j].order.id}, side, pre + (resting[..j] + resting[j + 1..]) + post, other, next)
    ensures IndexOk(index, side, pre + resting[j := F.Reduced(resting[j], qty)] + post, other, next)
  {
    hide IndexOk;
    var x := resting[j];
    var a, b := pre + resting[..j], resting[j + 1..] + post;
    assert pre + resting + post == a + [x] + b;
    IndexErase(index, side, a, x, b, other, next);
    assert a + b == pre + (resting[..j] + resting[j + 1..]) + post;
    var s := pre + resting + post;
    var k := |pre| + j;
    assert s[k] == x;
    IndexReduce(index, side, s, k, qty, other, next);
    assert s[k := F.Reduced(x, qty)] == pre + resting[j := F.Reduced(x, qty)] + post;
  }

  /** The end of a level: the list is erased with its level when it is empty and put back otherwise. */
  lemma LevelDone(buy: bool, ls: seq<Level>, i: nat, resting: seq<Resting>)
    requires LevelsOk(buy, ls) && i < |ls| && forall k :: 0 <= k < |resting| ==> resting[k].order.price == ls[i].price
    ensures resting == [] ==>
      var ls' := ls[..i] + ls[i + 1..];
      && LevelsOk(buy, ls') && Flatten(ls') == Flatten(ls[..i]) + resting + Flatten(ls[i + 1..])
      && ls'[..i] == ls[..i] && ls'[i..] == ls[i + 1..]
    ensures resting != [] ==>
      var ls' := ls[i := Level(ls[i].price, resting)];
      && LevelsOk(buy, ls') && Flatten(ls') == Flatten(ls[..i]) + resting + Flatten(ls[i + 1..])
      && Flatten(ls'[..i + 1]) == Flatten(ls[..i]) + resting && ls'[i + 1..] == ls[i + 1..]
  {
    hide Flatten;
    if resting == [] {
      EraseOk(buy, ls, i);
      FlattenReplace(ls, i, ls[i]);
      assert Flatten(ls[..i]) + resting == Flatten(ls[..i]);
    } else {
      var ls' := ls[i := Level(ls[i].price, resting)];
      ReplaceOk(buy, ls, i, resting);
      FlattenReplace(ls, i, Level(ls[i].price, resting));
      FlattenSnoc(ls', i);
      assert ls'[..i] == ls[..i];
    }
  }

  lemma MatchStart(w: F.WalkResult, buy: bool, o: Order, opp: seq<Resting>, ts: nat, first: nat)
    requires w == F.Walk(buy, o, opp, o.qty)
    ensures Progress(w, buy, o, [], [], opp, o.qty)
    ensures Tally(o, ts, first, [], 0, 0.0, [], first)
  {
    hide F.Walk;
    assert [] + w.fills == w.fills && [] + w.rest == w.rest;
  }

  /** The loops end at the end of the map, with nothing wanted, or at a level that is not acceptable. */
  lemma MatchEnd(w: F.WalkResult, buy: bool, o: Order, fills: seq<F.Fill>, ls: seq<Level>, i: nat, rem: int)
    requires i <= |ls| && LevelsOk(!buy, ls) && Progress(w, buy, o, fills, Flatten(ls[..i]), Flatten(ls[i..]), rem)
    requires i == |ls| || rem <= 0 || !F.Crosses(buy, o, ls[i].price)
    ensures w == F.WalkResult(fills, Flatten(ls))
  {
    hide Flatten, Progress, F.Walk;
    FlattenSplit(ls, i);
    if i < |ls| { FlattenHead(ls[i..]); } else { FlattenNone(ls[i..]); }
    ProgressEnds(w, buy, o, fills, Flatten(ls[..i]), Flatten(ls[i..]), rem);
  }

  lemma WholeLevels(ls: seq<Level>)
    ensures ls[0..] == ls && Flatten(ls[..0]) == []
  {
  }

  lemma LevelStart(buy: bool, ls: seq<Level>, i: nat)
    requires LevelsOk(buy, ls) && i < |ls|
    ensures Flatten(ls[i..]) == ls[i].orders + Flatten(ls[i + 1..])
    ensures Flatten(ls) == Flatten(ls[..i]) + ls[i].orders + Flatten(ls[i + 1..])
    ensures forall k :: 0 <= k < |ls[i].orders| ==> ls[i].orders[k].order.price == ls[i].price
  {
    FlattenAt(ls, i);
    assert LevelOk(ls[i]);
  }

  lemma NothingDone(pre: seq<Resting>, resting: seq<Resting>)
    ensures pre + resting[..0] == pre && resting[0..] == resting
  {
  }

  lemma LevelLeft(w: F.WalkResult, buy: bool, o: Order, fills: seq<F.Fill>, pre: seq<Resting>, resting: seq<Resting>, j: nat,
                  post: seq<Resting>, rem: int)
    requires j <= |resting| && Progress(w, buy, o, fills, pre + resting[..j], resting[j..] + post, rem)
    requires j == |resting| || rem <= 0
    ensures Progress(w, buy, o, fills, pre + resting, post, rem)
    ensures resting == [] ==> Progress(w, buy, o, fills, pre, post, rem)
  {
    hide Progress;
    ProgressSkip(w, buy, o, fills, pre + resting[..j], resting[j..], post, rem);
    assert pre + resting[..j] + resting[j..] == pre + resting;
    assert resting == [] ==> pre + resting == pre;
  }

  lemma InsertIndexed(index: map<OrderId, Location>, side: Side, buy: bool, s: seq<Resting>, t: seq<Resting>, r: Resting)
    requires IndexOk(index, side, s, t, r.stamp) && r.order.id !in index
    ensures IndexOk(index[r.order.id := LocationOf(side, r)], side, F.Insert(buy, s, r), t, r.stamp + 1)
  {
    hide IndexOk;
    var k := InsertPoint(buy, s, r);
    assert s == s[..k] + s[k..];
    IndexInsert(index, side, s[..k], s[k..], t, r);
  }

  lemma {:induction false} InsertPoint(buy: bool, s: seq<Resting>, r: Resting) returns (k: nat)
    ensures k <= |s| && F.Insert(buy, s, r) == s[..k] + [r] + s[k..]
  {
    if s == [] || F.Better(buy, r.order.price, s[0].order.price) {
      k := 0;
    } else {
      var j := InsertPoint(buy, s[1..], r);
      k := j + 1;
      assert s[..k] == [s[0]] + s[1..][..j] && s[1..][j..] == s[k..];
    }
  }

  // ---------- Cancel ----------

  /** Position `m` of the flat queue is position `j` of level `k`. */
  lemma {:induction false} Locate(ls: seq<Level>, m: nat) returns (k: nat, j: nat)
    requires m < |Flatten(ls)|
    ensures k < |ls| && j < |ls[k].orders| && m == |Flatten(ls[..k])| + j && ls[k].orders[j] == Flatten(ls)[m]
  {
    if m < |ls[0].orders| {
      k, j := 0, m;
    } else {
      var k', j' := Locate(ls[1..], m - |ls[0].orders|);
      k, j := k' + 1, j';
      assert ls[..k][1..] == ls[1..][..k'];
    }
  }

  lemma FindLevel(buy: bool, ls: seq<Level>, k: nat)
    requires LevelsOk(buy, ls) && k < |ls|
    ensures Find(buy, ls, ls[k].price) == k
  {
    var i := Find(buy, ls, ls[k].price);
    assert i > k ==> F.Better(buy, ls[k].price, ls[k].price);
    assert forall j :: 0 <= j < k ==> F.Better(buy, ls[j].price, ls[k].price);
  }

  /** Erasing node `j` from level `k` of a queue whose nodes and ids are distinct. */
  lemma EraseAt(index: map<OrderId, Location>, side: Side, pre: seq<Resting>, orders: seq<Resting>, j: nat, post: seq<Resting>,
                other: seq<Resting>, next: nat)
    requires j < |orders| && IndexOk(index, side, pre + orders + post, other, next)
    ensures EraseNode(orders, orders[j].stamp) == orders[..j] + orders[j + 1..]
    ensures F.Remove(pre + orders + post, orders[j].order.id) == pre + (orders[..j] + orders[j + 1..]) + post
    ensures IndexOk(index - {orders[j].order.id}, side, pre + (orders[..j] + orders[j + 1..]) + post, other, next)
  {
    hide EraseNode, F.Remove;
    var s, m := pre + orders + post, |pre| + j;
    assert s[m] == orders[j];
    IndexedUnique(index, side, s, other, next);
    forall i | 0 <= i < |orders| && i != j ensures orders[i].stamp != orders[j].stamp {
      assert s[|pre| + i] == orders[i];
    }
    EraseNodeAt(orders, j);
    RemoveAt(s, m);
    assert s[..m] + s[m + 1..] == pre + (orders[..j] + orders[j + 1..]) + post;
    LevelIndex(index, side, pre, orders, j, post, other, next, 0);
  }

  /** The index leads a cancel to the level and the list node of the order, and to no other. */
  lemma CancelLevel(index: map<OrderId, Location>, side: Side, ls: seq<Level>, other: seq<Resting>, next: nat, id: OrderId)
    requires LevelsOk(side == Bid, ls) && IndexOk(index, side, Flatten(ls), other, next)
    requires id in index && index[id].side == side
    ensures var k := Find(side == Bid, ls, index[id].price);
      && k < |ls| && ls[k].price == index[id].price && F.Has(Flatten(ls), id)
      && var orders := EraseNode(ls[k].orders, index[id].node);
         var ls' := if orders == [] then ls[..k] + ls[k + 1..] else ls[k := Level(ls[k].price, orders)];
         && LevelsOk(side == Bid, ls') && Flatten(ls') == F.Remove(Flatten(ls), id)
         && IndexOk(index - {id}, side, Flatten(ls'), other, next)
  {
    hide IndexOk, LevelsOk, Flatten, EraseNode, F.Remove;
    var m := IndexFind(index, side, Flatten(ls), other, next, id);
    var k, j := Locate(ls, m);
    LevelStart(side == Bid, ls, k);
    FindLevel(side == Bid, ls, k);
    EraseAt(index, side, Flatten(ls[..k]), ls[k].orders, j, Flatten(ls[k + 1..]), other, next);
    LevelDone(side == Bid, ls, k, ls[k].orders[..j] + ls[k].orders[j + 1..]);
  }

  lemma NotIndexed(index: map<OrderId, Location>, side: Side, s: seq<Resting>, t: seq<Resting>, next: nat, id: OrderId)
    requires IndexOk(index, side, s, t, next)
    ensures id in index <==> F.Has(s, id) || F.Has(t, id)
    ensures id in index && index[id].side == side ==> !F.Has(t, id)
    ensures id in index ==> index[id].side == Bid || index[id].side == Ask
  {
    IdsHas(s, id);
    IdsHas(t, id);
  }
}
