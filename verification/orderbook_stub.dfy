/** The fill model (backend/market/orderbook_stub.py): every order fills in full
    at its own price or the reference close, moved against the order's side by a
    percentage slippage. */
module OrderBook {
  import opened Payloads

  datatype Book = Book(slippagePercent: real)

  /** The constructor clamps a negative slippage to zero. */
  function NewBook(slippagePercent: real): (b: Book)
    ensures b.slippagePercent >= 0.0
    ensures slippagePercent >= 0.0 ==> b.slippagePercent == slippagePercent
    ensures slippagePercent < 0.0 ==> b.slippagePercent == 0.0
  {
    Book(if slippagePercent >= 0.0 then slippagePercent else 0.0)
  }

  /** `order.get("price") or last_candle.close`: the order's own price unless it is
      missing, `None`, zero or otherwise false. */
  function BasePrice(order: Payload, close: Value): Value
  {
    var own := Get(order, "price", Null);
    if Truthy(own) then own else close
  }

  /** The fill price for a side: a BUY pays the slippage, a SELL gives it up, any
      other side value fills at the base. */
  function SidePrice(side: Value, base: real, slippagePercent: real): real
  {
    var slip := base * slippagePercent / 100.0;
    if side == Str("BUY") then base + slip
    else if side == Str("SELL") then base - slip
    else base
  }

  /** `fill_order`: fails only when the base price is not a number (the slippage
      arithmetic raises); otherwise a FILLED, fake fill that copies the order's id and
      side, defaults the symbol to BTC/USD and the quantity to 0, and prices it by side. */
  function FillOrder(b: Book, order: Payload, close: Value): (r: Result<Payload>)
    ensures r.Ok? <==> BasePrice(order, close).Num?
    ensures r.Ok? ==> r.value.Keys == {"order_id", "symbol", "side", "quantity", "price", "status", "fake"}
    ensures r.Ok? ==> r.value["price"] == Num(SidePrice(Get(order, "side", Null), BasePrice(order, close).n, b.slippagePercent))
    ensures r.Ok? ==> r.value["order_id"] == Get(order, "order_id", Null) && r.value["side"] == Get(order, "side", Null)
    ensures r.Ok? ==> r.value["symbol"] == Get(order, "symbol", Str(DefaultSymbol))
    ensures r.Ok? ==> r.value["quantity"] == Get(order, "quantity", Num(0.0))
    ensures r.Ok? ==> r.value["status"] == Str("FILLED") && r.value["fake"] == Bool(true)
  {
    match AsNumber(BasePrice(order, close))
    case Raised(e) => Raised(e)
    case Ok(base) =>
      Ok(map["order_id" := Get(order, "order_id", Null),
             "symbol" := Get(order, "symbol", Str(DefaultSymbol)),
             "side" := Get(order, "side", Null),
             "quantity" := Get(order, "quantity", Num(0.0)),
             "price" := Num(SidePrice(Get(order, "side", Null), base, b.slippagePercent)),
             "status" := Str("FILLED"),
             "fake" := Bool(true)])
  }

  /** Slippage is symmetric: a BUY and a SELL fill the same distance either side of the base.
      For a non-negative base it works against the trader, a BUY at or above the base and a
      SELL at or below it; for a negative base, since the offset is a share of the base, the
      two swap sides. Other sides, and every side at zero slippage, fill at the base itself. */
  lemma SlippageAgainstSide(b: Book, base: real, side: Value)
    requires b.slippagePercent >= 0.0
    ensures base >= 0.0 ==>
      SidePrice(Str("BUY"), base, b.slippagePercent) >= base >= SidePrice(Str("SELL"), base, b.slippagePercent)
    ensures base <= 0.0 ==>
      SidePrice(Str("BUY"), base, b.slippagePercent) <= base <= SidePrice(Str("SELL"), base, b.slippagePercent)
    ensures SidePrice(Str("BUY"), base, b.slippagePercent) - base == base - SidePrice(Str("SELL"), base, b.slippagePercent)
    ensures side != Str("BUY") && side != Str("SELL") ==> SidePrice(side, base, b.slippagePercent) == base
    ensures b.slippagePercent == 0.0 ==> SidePrice(side, base, b.slippagePercent) == base
  {
    if base >= 0.0 {
      assert base * b.slippagePercent >= 0.0;
    } else {
      assert base * b.slippagePercent <= 0.0;
    }
  }

  /** One percent of slippage on a reference price of 100: a BUY fills at 101, a SELL at 99. */
  lemma OnePercentExample()
    ensures FillOrder(NewBook(1.0), map["side" := Str("BUY")], Num(100.0)).value["price"] == Num(101.0)
    ensures FillOrder(NewBook(1.0), map["side" := Str("SELL")], Num(100.0)).value["price"] == Num(99.0)
  {
  }
}
