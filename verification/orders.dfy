/** Order vocabulary (backend/interfaces/executor.py) and the order record
    (backend/execution/base.py). */
module Orders {
  import opened Payloads

  datatype OrderSide = Buy | Sell
  datatype OrderType = Market | Limit
  datatype OrderStatus = Pending | Submitted | Filled | Cancelled | Rejected

  /** The enum value string of a side, as it appears in payloads. */
  function SideName(s: OrderSide): string
  {
    match s
    case Buy => "BUY"
    case Sell => "SELL"
  }

  function TypeName(t: OrderType): string
  {
    match t
    case Market => "MARKET"
    case Limit => "LIMIT"
  }

  /** The fixed size of every order the fake strategies emit. */
  const StubQuantity: real := 0.1

  datatype Order = Order(symbol: string, side: OrderSide, orderType: OrderType, quantity: real,
                         price: real, orderId: string, status: OrderStatus)

  /** A new order: limit price 0, no id yet, pending. */
  function NewOrder(symbol: string, side: OrderSide, orderType: OrderType, quantity: real): Order
  {
    Order(symbol, side, orderType, quantity, 0.0, "", Pending)
  }

  /** The order dictionary the fake strategies publish as an ORDER_REQUEST: a market order
      of the stub size for `symbol`, at `price`, marked fake. */
  function StubOrder(symbol: Value, side: OrderSide, price: Value): Payload
  {
    map["symbol" := symbol, "side" := Str(SideName(side)), "order_type" := Str(TypeName(Market)),
        "quantity" := Num(StubQuantity), "price" := price, "fake" := Bool(true)]
  }
}
