/** The order book: two ordered maps of price levels and an id index, updated in place. */
module OrderBooks {
  import opened MarketTypes
  import F = FlatBook
  import opened BookLevels
  import opened BookIndex
  import opened BookLoops
  import opened BookDepths

  class OrderBook {
    var bids: seq<Level>
    var asks: seq<Level>
    var index: map<OrderId, Location>
    // Identity of the next list node, and the counter of TradeIdGenerator.
    var nextStamp: nat
    var nextTrade: nat

    /** Levels in price order, none empty. */
    ghost predicate Ordered()
      reads this
    {
      LevelsOk(true, bids) && LevelsOk(false, asks)
    }

    /** The index is in bijection with the resting orders. */
    ghost predicate Exact()
      reads this
    {
      IndexOk(index, Bid, Flatten(bids), Flatten(asks), nextStamp)
    }

    ghost predicate Valid()
      reads this
    {
      Ordered() && Exact()
    }

    /** The book as two flat queues. */
    ghost function Abs(): F.Book
      reads this
    {
      F.Book(Flatten(bids), Flatten(asks), nextStamp, nextTrade)
    }

    constructor ()
      ensures Valid() && Abs() == F.EmptyBook() && index == map[]
    {
      bids, asks, index, nextStamp, nextTrade := [], [], map[], 0, 0;
    }

    /** The index stays exact under a new id; under a repeated one it forgets the older order. */
    method RestBid(order: Order)
      requires Ordered()
      modifies this
      ensures Ordered() && (old(Exact()) && order.id !in old(index) ==> Exact())
      ensures Abs() == old(Abs()).(bids := F.Insert(true, old(Flatten(bids)), Resting(old(nextStamp), order)), nextStamp := old(nextStamp) + 1)
    {
      hide LevelsOk, IndexOk, F.Insert, Flatten, PushBack;
      var r := Resting(nextStamp, order);
      PushBackIsInsert(true, bids, r);
      if Exact() && order.id !in index {
        InsertIndexed(index, Bid, true, Flatten(bids), Flatten(asks), r);
      }
      bids := PushBack(true, bids, r);
      index := index[order.id := Location(Bid, order.price, r.stamp)];
      nextStamp := nextStamp + 1;
    }

    method RestAsk(order: Order)
      requires Ordered()
      modifies this
      ensures Ordered() && (old(Exact()) && order.id !in old(index) ==> Exact())
      ensures Abs() == old(Abs()).(asks := F.Insert(false, old(Flatten(asks)), Resting(old(nextStamp), order)), nextStamp := old(nextStamp) + 1)
    {
      hide LevelsOk, IndexOk, F.Insert, Flatten, PushBack;
      var r := Resting(nextStamp, order);
      PushBackIsInsert(false, asks, r);
      if Exact() && order.id !in index {
        OtherSide(index, Bid, Flatten(bids), Flatten(asks), nextStamp);
        InsertIndexed(index, Ask, false, Flatten(asks), Flatten(bids), r);
        OtherSide(index[order.id := Location(Ask, order.price, r.stamp)], Ask, F.Insert(false, Flatten(asks), r), Flatten(bids), nextStamp + 1);
      }
      asks := PushBack(false, asks, r);
      index := index[order.id := Location(Ask, order.price, r.stamp)];
      nextStamp := nextStamp + 1;
    }

    /** The matching loops of a bid: levels from the best ask on, oldest order first within a level. */
    method MatchBid(order: Order, ts: nat) returns (filled: int, notional: real, events: seq<MarketEvent>, ghost fills: seq<F.Fill>)
      requires Ordered()
      modifies this`asks, this`index, this`nextTrade
      ensures Ordered() && (old(Exact()) ==> Exact()) && index.Keys <= old(index.Keys)
      ensures F.Walk(true, order, old(Flatten(asks)), order.qty) == F.WalkResult(fills, Flatten(asks))
      ensures Tally(order, ts, old(nextTrade), fills, filled, notional, events, nextTrade)
    {
      hide Progress, IndexOk, LevelsOk, Tally, F.Walk, Flatten, LevelOk, F.TradesOf, F.FilledQty, F.Notional;
      ghost var exact := Exact();
      ghost var w := F.Walk(true, order, Flatten(asks), order.qty);
      filled, notional, events, fills := 0, 0.0, [], [];
      MatchStart(w, true, order, Flatten(asks), ts, nextTrade);
      if exact { OtherSide(index, Bid, Flatten(bids), Flatten(asks), nextStamp); }
      var i := 0;
      WholeLevels(asks);
      while i < |asks| && filled < order.qty
        invariant 0 <= i <= |asks|
        invariant bids == old(bids) && nextStamp == old(nextStamp)
        invariant LevelsOk(false, asks)
        invariant exact ==> IndexOk(index, Ask, Flatten(asks), Flatten(bids), nextStamp)
        invariant index.Keys <= old(index.Keys)
        invariant Progress(w, true, order, fills, Flatten(asks[..i]), Flatten(asks[i..]), order.qty - filled)
        invariant Tally(order, ts, old(nextTrade), fills, filled, notional, events, nextTrade)
        decreases |asks| - i
      {
        var levelPrice := asks[i].price;
        if order.otype == Limit && levelPrice > order.price {
          break;
        }
        LevelStart(false, asks, i);
        var resting := asks[i].orders;
        ghost var pre, post := Flatten(asks[..i]), Flatten(asks[i + 1..]);
        ghost var levels := asks;
        var j := 0;
        NothingDone(pre, resting);
        while j < |resting| && filled < order.qty
          invariant 0 <= j <= |resting| && asks == levels && bids == old(bids) && nextStamp == old(nextStamp)
          invariant forall k :: 0 <= k < |resting| ==> resting[k].order.price == levelPrice
          invariant exact ==> IndexOk(index, Ask, pre + resting + post, Flatten(bids), nextStamp)
          invariant index.Keys <= old(index.Keys)
          invariant Progress(w, true, order, fills, pre + resting[..j], resting[j..] + post, order.qty - filled)
          invariant Tally(order, ts, old(nextTrade), fills, filled, notional, events, nextTrade)
          decreases |resting| - j
        {
          var remaining := order.qty - filled;
          var tradeQty := Min(remaining, resting[j].order.qty);
          LevelTrade(w, true, order, fills, pre, resting, j, post, remaining);
          if exact { LevelIndex(index, Ask, pre, resting, j, post, Flatten(bids), nextStamp, tradeQty); }
          TallyStep(order, ts, old(nextTrade), fills, filled, notional, events, nextTrade, resting[j], tradeQty, levelPrice);
          fills := fills + [F.Fill(resting[j], tradeQty)];
          filled := filled + tradeQty;
          notional := notional + tradeQty as real * levelPrice;
          events := events + [TradeEvent(Trade(nextTrade, levelPrice, tradeQty, order.side, order.id, resting[j].order.id, ts))];
          nextTrade := nextTrade + 1;
          resting := resting[j := F.Reduced(resting[j], tradeQty)];
          if resting[j].order.qty == 0 {
            index := index - {resting[j].order.id};
            resting := resting[..j] + resting[j + 1..];
          } else {
            j := j + 1;
          }
        }
        LevelDone(false, asks, i, resting);
        LevelLeft(w, true, order, fills, pre, resting, j, post, order.qty - filled);
        if resting == [] {
          asks := asks[..i] + asks[i + 1..];
        } else {
          asks := asks[i := Level(levelPrice, resting)];
          i := i + 1;
        }
      }
      MatchEnd(w, true, order, fills, asks, i, order.qty - filled);
      if exact { OtherSide(index, Ask, Flatten(asks), Flatten(bids), nextStamp); }
    }

    /** The matching loops of an ask: levels from the best bid on, oldest order first within a level. */
    method MatchAsk(order: Order, ts: nat) returns (filled: int, notional: real, events: seq<MarketEvent>, ghost fills: seq<F.Fill>)
      requires Ordered()
      modifies this`bids, this`index, this`nextTrade
      ensures Ordered() && (old(Exact()) ==> Exact()) && index.Keys <= old(index.Keys)
      ensures F.Walk(false, order, old(Flatten(bids)), order.qty) == F.WalkResult(fills, Flatten(bids))
      ensures Tally(order, ts, old(nextTrade), fills, filled, notional, events, nextTrade)
    {
      hide Progress, IndexOk, LevelsOk, Tally, F.Walk, Flatten, LevelOk, F.TradesOf, F.FilledQty, F.Notional;
      ghost var exact := Exact();
      ghost var w := F.Walk(false, order, Flatten(bids), order.qty);
      filled, notional, events, fills := 0, 0.0, [], [];
      MatchStart(w, false, order, Flatten(bids), ts, nextTrade);
      var i := 0;
      WholeLevels(bids);
      while i < |bids| && filled < order.qty
        invariant 0 <= i <= |bids|
        invariant asks == old(asks) && nextStamp == old(nextStamp)
        invariant LevelsOk(true, bids)
        invariant exact ==> IndexOk(index, Bid, Flatten(bids), Flatten(asks), nextStamp)
        invariant index.Keys <= old(index.Keys)
        invariant Progress(w, false, order, fills, Flatten(bids[..i]), Flatten(bids[i..]), order.qty - filled)
        invariant Tally(order, ts, old(nextTrade), fills, filled, notional, events, nextTrade)
        decreases |bids| - i
      {
        var levelPrice := bids[i].price;
        if order.otype == Limit && levelPrice < order.price {
          break;
        }
        LevelStart(true, bids, i);
        var resting := bids[i].orders;
        ghost var pre, post := Flatten(bids[..i]), Flatten(bids[i + 1..]);
        ghost var levels := bids;
        var j := 0;
        NothingDone(pre, resting);
        while j < |resting| && filled < order.qty
          invariant 0 <= j <= |resting| && bids == levels && asks == old(asks) && nextStamp == old(nextStamp)
          invariant forall k :: 0 <= k < |resting| ==> resting[k].order.price == levelPrice
          invariant exact ==> IndexOk(index, Bid, pre + resting + post, Flatten(asks), nextStamp)
          invariant index.Keys <= old(index.Keys)
          invariant Progress(w, false, order, fills, pre + resting[..j], resting[j..] + post, order.qty - filled)
          invariant Tally(order, ts, old(nextTrade), fills, filled, notional, events, nextTrade)
          decreases |resting| - j
        {
          var remaining := order.qty - filled;
          var tradeQty := Min(remaining, resting[j].order.qty);
          LevelTrade(w, false, order, fills, pre, resting, j, post, remaining);
          if exact { LevelIndex(index, Bid, pre, resting, j, post, Flatten(asks), nextStamp, tradeQty); }
          TallyStep(order, ts, old(nextTrade), fills, filled, notional, events, nextTrade, resting[j], tradeQty, levelPrice);
          fills := fills + [F.Fill(resting[j], tradeQty)];
          filled := filled + tradeQty;
          notional := notional + tradeQty as real * levelPrice;
          events := events + [TradeEvent(Trade(nextTrade, levelPrice, tradeQty, order.side, order.id, resting[j].order.id, ts))];
          nextTrade := nextTrade + 1;
          resting := resting[j := F.Reduced(resting[j], tradeQty)];
          if resting[j].order.qty == 0 {
            index := index - {resting[j].order.id};
            resting := resting[..j] + resting[j + 1..];
          } else {
            j := j + 1;
          }
        }
        LevelDone(true, bids, i, resting);
        LevelLeft(w, false, order, fills, pre, resting, j, post, order.qty - filled);
        if resting == [] {
          bids := bids[..i] + bids[i + 1..];
        } else {
          bids := bids[i := Level(levelPrice, resting)];
          i := i + 1;
        }
      }
      MatchEnd(w, false, order, fills, bids, i, order.qty - filled);
    }

    method SubmitBid(order: Order, ts: nat) returns (result: EngineResult, events: seq<MarketEvent>)
      requires Ordered()
      modifies this
      ensures Ordered() && (old(Exact()) && order.id !in old(index) ==> Exact())
      ensures F.Step(Abs(), result, events) == F.SubmitBid(old(Abs()), order, ts)
    {
      hide F.Walk, F.Insert, Flatten, IndexOk, LevelsOk, F.TradesOf, F.FilledQty, F.Notional, F.TopOf;
      var filled, notional, trades, fills := MatchBid(order, ts);
      var avgPrice := if filled > 0 then notional / filled as real else 0.0;
      var status, reason := Filled, NoReason;
      if filled != order.qty {
        if order.otype == Market {
          status, reason := Rejected, InsufficientLiquidity(filled, order.qty);
        } else {
          RestBid(order.(qty := order.qty - filled));
          status := if filled == 0 then Queued else Partial;
        }
      }
      var top := CurrentTopOfBook(ts);
      result := EngineResult(status, order.id, filled, avgPrice, ts, reason, false);
      events := trades + [TopEvent(top)];
    }

    method SubmitAsk(order: Order, ts: nat) returns (result: EngineResult, events: seq<MarketEvent>)
      requires Ordered()
      modifies this
      ensures Ordered() && (old(Exact()) && order.id !in old(index) ==> Exact())
      ensures F.Step(Abs(), result, events) == F.SubmitAsk(old(Abs()), order, ts)
    {
      hide F.Walk, F.Insert, Flatten, IndexOk, LevelsOk, F.TradesOf, F.FilledQty, F.Notional, F.TopOf;
      var filled, notional, trades, fills := MatchAsk(order, ts);
      var avgPrice := if filled > 0 then notional / filled as real else 0.0;
      var status, reason := Filled, NoReason;
      if filled != order.qty {
        if order.otype == Market {
          status, reason := Rejected, InsufficientLiquidity(filled, order.qty);
        } else {
          RestAsk(order.(qty := order.qty - filled));
          status := if filled == 0 then Queued else Partial;
        }
      }
      var top := CurrentTopOfBook(ts);
      result := EngineResult(status, order.id, filled, avgPrice, ts, reason, false);
      events := trades + [TopEvent(top)];
    }

    method Submit(order: Order, ts: nat) returns (result: EngineResult, events: seq<MarketEvent>)
      requires Ordered()
      modifies this
      ensures Ordered() && (old(Exact()) && order.id !in old(index) ==> Exact())
      ensures F.Step(Abs(), result, events) == F.Submit(old(Abs()), order, ts)
    {
      if order.side == Bid {
        result, events := SubmitBid(order, ts);
      } else {
        result, events := SubmitAsk(order, ts);
      }
    }

    /** The id index decides: an order is found exactly when it rests, and erasing its list node (and the level it
        leaves empty) is removing it from the flat queue. */
    method Cancel(orderId: OrderId, ts: nat) returns (result: EngineResult, events: seq<MarketEvent>)
      requires Valid()
      modifies this
      ensures Valid() && index.Keys == old(index.Keys) - {orderId}
      ensures result.cancelOk <==> orderId in old(index.Keys)
      ensures F.Step(Abs(), result, events) == F.Cancel(old(Abs()), orderId, ts)
    {
      hide F.Has, F.Remove, Flatten, IndexOk, LevelsOk, F.TopOf, EraseNode;
      NotIndexed(index, Bid, Flatten(bids), Flatten(asks), nextStamp, orderId);
      if orderId !in index {
        return EngineResult(StatusUnspecified, orderId, 0, 0.0, ts, OrderNotFound(orderId), false), [];
      }
      var loc := index[orderId];
      if loc.side == Bid {
        CancelLevel(index, Bid, bids, Flatten(asks), nextStamp, orderId);
        var k := Find(true, bids, loc.price);
        bids := bids[k := Level(bids[k].price, EraseNode(bids[k].orders, loc.node))];
        if bids[k].orders == [] {
          assert bids[..k] + bids[k + 1..] == old(bids)[..k] + old(bids)[k + 1..];
          bids := bids[..k] + bids[k + 1..];
        }
      } else {
        OtherSide(index, Bid, Flatten(bids), Flatten(asks), nextStamp);
        NotIndexed(index, Ask, Flatten(asks), Flatten(bids), nextStamp, orderId);
        CancelLevel(index, Ask, asks, Flatten(bids), nextStamp, orderId);
        var k := Find(false, asks, loc.price);
        asks := asks[k := Level(asks[k].price, EraseNode(asks[k].orders, loc.node))];
        if asks[k].orders == [] {
          assert asks[..k] + asks[k + 1..] == old(asks)[..k] + old(asks)[k + 1..];
          asks := asks[..k] + asks[k + 1..];
        }
        OtherSide(index - {orderId}, Ask, Flatten(asks), Flatten(bids), nextStamp);
      }
      index := index - {orderId};
      var top := CurrentTopOfBook(ts);
      result := EngineResult(StatusUnspecified, orderId, 0, 0.0, ts, NoReason, true);
      events := [TopEvent(top)];
    }

    method CurrentTopOfBook(ts: nat) returns (top: TopOfBook)
      requires Ordered()
      ensures top == F.TopOf(Abs(), ts)
    {
      hide IndexOk, Flatten, F.QtyAt;
      var bidPrice, bidQty := BestOf(true, bids);
      var askPrice, askQty := BestOf(false, asks);
      top := TopOfBook(bidPrice, bidQty, askPrice, askQty, ts);
    }

    method Depth(levels: nat) returns (d: BookDepth)
      requires Ordered()
      ensures d == F.DepthOf(Abs(), levels)
    {
      hide IndexOk, Flatten;
      var b := Collect(true, bids, levels);
      var a := Collect(false, asks, levels);
      d := BookDepth(b, a);
    }
  }

  /** Total quantity of a list of orders. */
  method Quantity(orders: seq<Resting>) returns (qty: int)
    ensures qty == SumQty(orders)
  {
    qty := 0;
    for i := 0 to |orders|
      invariant qty == SumQty(orders[..i])
    {
      assert orders[..i + 1][..i] == orders[..i];
      qty := qty + orders[i].order.qty;
    }
    assert orders[..|orders|] == orders;
  }

  /** One side of currentTopOfBook. */
  method BestOf(ghost buy: bool, side: seq<Level>) returns (price: Option<real>, qty: Option<int>)
    requires LevelsOk(buy, side)
    ensures price == F.BestPrice(Flatten(side)) && qty == F.BestQty(Flatten(side))
  {
    price, qty := None, None;
    if side != [] {
      var q := Quantity(side[0].orders);
      price, qty := Some(side[0].price), Some(q);
      assert LevelOk(side[0]);
      FlattenHead(side);
      LevelTotals(buy, side, 0);
    }
  }

  /** The collect step of depth. */
  method Collect(ghost buy: bool, side: seq<Level>, levels: nat) returns (rows: seq<DepthLevel>)
    requires LevelsOk(buy, side)
    ensures rows == F.FirstRows(Flatten(side), levels)
  {
    hide F.Rows, Flatten, SumQty, LevelsOk;
    rows := [];
    var i := 0;
    RowCount(buy, side);
    while i < |side| && |rows| < levels
      invariant 0 <= i <= |side| && i <= levels && rows == F.Rows(Flatten(side))[..i]
    {
      LevelRow(buy, side, i);
      var qty := Quantity(side[i].orders);
      rows := rows + [DepthLevel(side[i].price, qty, |side[i].orders|)];
      i := i + 1;
    }
  }

  lemma RowCount(buy: bool, side: seq<Level>)
    requires LevelsOk(buy, side)
    ensures |F.Rows(Flatten(side))| == |side|
  {
    hide F.QtyAt, F.CountAt, F.Prices, Flatten;
    PricesOfLevels(buy, side);
  }
}
