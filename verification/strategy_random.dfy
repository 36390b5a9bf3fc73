/** The random strategy (backend/strategies/fake_strategy_random.py), with the draw of
    `random.random()` as a parameter. */
module RandomStrategy {
  import opened Payloads
  import opened Orders

  const Name: string := "FakeStrategyRandom"

  /** Draws below this buy; draws from it up to `SellBelow` sell. */
  const BuyBelow: real := 0.33
  const SellBelow: real := 0.66

  /** The side a draw picks, if any. */
  function SideFor(draw: real): (r: Option<OrderSide>)
    ensures r == Some(Buy) <==> draw < BuyBelow
    ensures r == Some(Sell) <==> BuyBelow <= draw < SellBelow
    ensures r == None <==> draw >= SellBelow
  {
    if draw < BuyBelow then Some(Buy)
    else if draw < SellBelow then Some(Sell)
    else None
  }

  /** `on_candle`: a fake market order of the stub size for BTC/USD at the candle's close
      (0.0 when missing), on the side the draw picks; nothing for a draw of 0.66 or more. */
  function OnCandle(candle: Payload, draw: real): (r: Option<Payload>)
    ensures r.Some? <==> draw < SellBelow
    ensures r.Some? ==> r.value.Keys == {"symbol", "side", "order_type", "quantity", "price", "fake"}
    ensures r.Some? ==> r.value["side"] == Str(if draw < BuyBelow then "BUY" else "SELL")
    ensures r.Some? ==> r.value["price"] == Get(candle, "close", Num(0.0))
    ensures r.Some? ==> r.value["quantity"] == Num(StubQuantity) && r.value["order_type"] == Str("MARKET")
    ensures r.Some? ==> r.value["symbol"] == Str(DefaultSymbol) && r.value["fake"] == Bool(true)
  {
    match SideFor(draw)
    case None => None
    case Some(side) => Some(StubOrder(Str(DefaultSymbol), side, Get(candle, "close", Num(0.0))))
  }
}
