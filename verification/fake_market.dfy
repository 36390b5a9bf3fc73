/** The fake market (backend/market/fake_market.py): it owns a price feed and an
    order book and turns an order dictionary into a fill, published twice. */
module FakeMarket {
  import opened Payloads
  import opened EventBus
  import OrderBook
  import MarketFeed

  datatype Market = Market(running: bool, book: OrderBook.Book, feed: MarketFeed.Feed)

  const Source: string := "FakeMarket"

  function NewMarket(slippagePercent: real): (m: Market)
    ensures !m.running && m.feed == MarketFeed.NewFeed()
    ensures m.book.slippagePercent >= 0.0
  {
    Market(false, OrderBook.NewBook(slippagePercent), MarketFeed.NewFeed())
  }

  /** `start`: refused when running; otherwise running, and the owned feed is started
      with its candle handler `h` (the feed's own answer is not consulted). */
  function Start<H>(m: Market, bus: Bus<H>, h: H): (r: (Market, Bus<H>, bool))
    ensures r.2 <==> !m.running
    ensures r.0.running && r.0.book == m.book
    ensures r.2 ==> (r.0.feed, r.1) == (MarketFeed.Start(m.feed, bus, h).0, MarketFeed.Start(m.feed, bus, h).1)
    ensures !r.2 ==> r.0 == m && r.1 == bus
  {
    if m.running then (m, bus, false)
    else
      var (feed', bus', _) := MarketFeed.Start(m.feed, bus, h);
      (m.(running := true, feed := feed'), bus', true)
  }

  /** `stop`: refused when not running; otherwise stopped, and the owned feed is stopped too. */
  function Stop<H(==)>(m: Market, bus: Bus<H>, h: H): (r: (Market, Bus<H>, bool))
    ensures r.2 <==> m.running
    ensures !r.0.running && r.0.book == m.book
    ensures r.2 ==> (r.0.feed, r.1) == (MarketFeed.Stop(m.feed, bus, h).0, MarketFeed.Stop(m.feed, bus, h).1)
    ensures !r.2 ==> r.0 == m && r.1 == bus
  {
    if !m.running then (m, bus, false)
    else
      var (feed', bus', _) := MarketFeed.Stop(m.feed, bus, h);
      (m.(running := false, feed := feed'), bus', true)
  }

  /** The working copy of the order: an order without an `order_id` key gets the fresh id;
      an order that has the key, even holding `None`, keeps it. The caller's dictionary is
      a value here, so it cannot be changed. */
  function WithOrderId(order: Payload, freshId: string): Payload
  {
    if "order_id" in order then order else order["order_id" := Str(freshId)]
  }

  /** The close of the reference candle: the feed's last candle when there is one; otherwise
      a candle built from the order, whose close is `order.get("price", 0.0)`. */
  function ReferenceClose(m: Market, order: Payload): Value
  {
    match m.feed.lastCandle
    case Some(candle) => Get(candle, "close", Num(0.0))
    case None => Get(order, "price", Num(0.0))
  }

  /** `process_order`. The first component says whether a fresh id was drawn. The fill is the
      order book's fill of the working copy against the reference close; when it succeeds the
      same fill goes out as ORDER_FILLED and then as EXECUTION_RESULT, and when the fill raises
      nothing is published. */
  function ProcessOrder(m: Market, order: Payload, freshId: string): (r: (bool, Result<seq<Event>>))
    ensures r.0 <==> "order_id" !in order
    ensures r.1.Ok? <==> OrderBook.BasePrice(WithOrderId(order, freshId), ReferenceClose(m, order)).Num?
    ensures r.1.Ok? ==> |r.1.value| == 2
    ensures r.1.Ok? ==> r.1.value[0].kind == OrderFilled && r.1.value[1].kind == ExecutionResult
    ensures r.1.Ok? ==> r.1.value[0].data == r.1.value[1].data
    ensures r.1.Ok? ==> r.1.value[0].data == OrderBook.FillOrder(m.book, WithOrderId(order, freshId), ReferenceClose(m, order)).value
    ensures r.1.Ok? ==> r.1.value[0].data["order_id"] == (if "order_id" in order then order["order_id"] else Str(freshId))
  {
    var working := WithOrderId(order, freshId);
    var drew := "order_id" !in order;
    match OrderBook.FillOrder(m.book, working, ReferenceClose(m, order))
    case Raised(e) => (drew, Raised(e))
    case Ok(fill) => (drew, Ok([Event(OrderFilled, fill, Source), Event(ExecutionResult, fill, Source)]))
  }

  /** With a candle on record, an order without a usable price of its own fills at that
      candle's close moved by the slippage; with no candle, such an order fills at 0 when it has
      no price key, and raises when its price is `None` (the fallback candle's close is then
      `None` too). */
  lemma ReferenceCandleChoice(m: Market, order: Payload, freshId: string, close: real)
    requires !Truthy(Get(order, "price", Null))
    ensures m.feed.lastCandle.Some? && Get(m.feed.lastCandle.value, "close", Num(0.0)) == Num(close) ==>
      ProcessOrder(m, order, freshId).1.Ok? &&
      ProcessOrder(m, order, freshId).1.value[0].data["price"] ==
        Num(OrderBook.SidePrice(Get(order, "side", Null), close, m.book.slippagePercent))
    ensures m.feed.lastCandle.None? && "price" !in order ==>
      ProcessOrder(m, order, freshId).1.Ok? && ProcessOrder(m, order, freshId).1.value[0].data["price"] == Num(0.0)
    ensures m.feed.lastCandle.None? && Get(order, "price", Num(0.0)) == Null ==> ProcessOrder(m, order, freshId).1.Raised?
  {
  }

  /** Once the feed has handled a candle, an order without a usable price fills at that
      candle's close (0.0 when it had none) moved by the slippage. */
  lemma FillsAtLastFeedClose(m: Market, data: Payload, order: Payload, freshId: string, close: real)
    requires !Truthy(Get(order, "price", Null))
    requires Get(data, "close", Num(0.0)) == Num(close)
    ensures var m1 := m.(feed := MarketFeed.OnCandle(m.feed, data).0);
      ProcessOrder(m1, order, freshId).1.Ok? &&
      ProcessOrder(m1, order, freshId).1.value[0].data["price"] ==
        Num(OrderBook.SidePrice(Get(order, "side", Null), close, m.book.slippagePercent))
  {
    var m1 := m.(feed := MarketFeed.OnCandle(m.feed, data).0);
    assert Get(m1.feed.lastCandle.value, "close", Num(0.0)) == Num(close);
    ReferenceCandleChoice(m1, order, freshId, close);
  }
}
