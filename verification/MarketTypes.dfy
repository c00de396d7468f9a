/** The records of the matching engine. Prices are real numbers and quantities unbounded integers. */
module MarketTypes {

  datatype Option<T> = None | Some(value: T)

  datatype Side = SideUnspecified | Bid | Ask

  datatype OrderType = TypeUnspecified | Market | Limit

  datatype OrderStatus = StatusUnspecified | Filled | Partial | Queued | Rejected

  type OrderId = string
  type NodeId = string

  datatype Order = Order(side: Side, otype: OrderType, price: real, qty: int, id: OrderId, node: NodeId)

  /** An order resting in the book. `stamp` identifies its list node and grows with arrival. */
  datatype Resting = Resting(stamp: nat, order: Order)

  datatype Trade = Trade(tradeId: nat, price: real, qty: int, aggressorSide: Side,
                         aggressorId: OrderId, restingId: OrderId, ts: nat)

  datatype TopOfBook = TopOfBook(bidPrice: Option<real>, bidQty: Option<int>,
                                 askPrice: Option<real>, askQty: Option<int>, ts: nat)

  datatype MarketEvent = TradeEvent(trade: Trade) | TopEvent(top: TopOfBook)

  datatype Reason = NoReason | InsufficientLiquidity(filled: int, wanted: int) | OrderNotFound(id: OrderId)

  datatype EngineResult = EngineResult(status: OrderStatus, orderId: OrderId, filled: int, avgPrice: real, ts: nat,
                                       reason: Reason, cancelOk: bool)

  datatype DepthLevel = DepthLevel(price: real, qty: int, orders: nat)

  datatype BookDepth = BookDepth(bids: seq<DepthLevel>, asks: seq<DepthLevel>)

  function Min(a: int, b: int): int {
    if a <= b then a else b
  }

  /** Position of the first occurrence of an id, or the length of the list. */
  function Position(ids: seq<string>, id: string): (k: nat)
    ensures k <= |ids| && (k < |ids| ==> ids[k] == id)
    ensures forall i :: 0 <= i < k ==> ids[i] != id
  {
    if ids == [] || ids[0] == id then 0 else 1 + Position(ids[1..], id)
  }
}
