/** The simulation price feed (backend/simulation/fake_price_feed.py): it listens to
    FAKE_CANDLE and answers each candle with one PRICE_UPDATE. Unlike the market feed
    it stores nothing and publishes no CANDLE_EVENT. */
module SimFeed {
  import opened Payloads
  import opened EventBus

  datatype SimFeed = SimFeed(running: bool)

  const Source: string := "FakePriceFeed"

  /** `start`: refused when running; otherwise running, with `h` added to FAKE_CANDLE. */
  function Start<H>(f: SimFeed, bus: Bus<H>, h: H): (r: (SimFeed, Bus<H>, bool))
    ensures r.2 <==> !f.running
    ensures r.0.running
    ensures r.1 == if r.2 then Subscribe(bus, FakeCandle, h) else bus
  {
    if f.running then (f, bus, false)
    else (SimFeed(true), Subscribe(bus, FakeCandle, h), true)
  }

  /** `stop`: refused when not running; otherwise stopped, with `h` taken off FAKE_CANDLE. */
  function Stop<H(==)>(f: SimFeed, bus: Bus<H>, h: H): (r: (SimFeed, Bus<H>, bool))
    ensures r.2 <==> f.running
    ensures !r.0.running
    ensures r.1 == if r.2 then Unsubscribe(bus, FakeCandle, h) else bus
  {
    if !f.running then (f, bus, false)
    else (SimFeed(false), Unsubscribe(bus, FakeCandle, h), true)
  }

  /** `_on_candle`: exactly one PRICE_UPDATE, whose price is the candle's close (0.0 when
      missing) and whose symbol is the candle's (BTC/USD when missing), marked fake and
      naming the feed as its source, inside the payload and on the event. */
  function OnCandle(data: Payload): (e: Event)
    ensures e.kind == PriceUpdate && e.source == Source
    ensures e.data.Keys == {"symbol", "price", "source", "fake"}
    ensures e.data["price"] == Get(data, "close", Num(0.0))
    ensures e.data["symbol"] == Get(data, "symbol", Str(DefaultSymbol))
    ensures e.data["source"] == Str(Source) && e.data["fake"] == Bool(true)
  {
    Event(PriceUpdate,
          map["symbol" := Get(data, "symbol", Str(DefaultSymbol)), "price" := Get(data, "close", Num(0.0)),
              "source" := Str(Source), "fake" := Bool(true)],
          Source)
  }
}
