/** The market price feed (backend/market/fake_price_feed.py): it listens to
    FAKE_CANDLE, remembers the candle, and republishes it as a PRICE_UPDATE
    followed by a CANDLE_EVENT. */
module MarketFeed {
  import opened Payloads
  import opened EventBus
  import Candles

  /** `lastCandle` is the stored candle in dictionary form: the dataclass does not check
      field types, so the six values are kept exactly as read. */
  datatype Feed = Feed(running: bool, lastCandle: Option<Payload>)

  const Source: string := "FakePriceFeed"

  function NewFeed(): Feed
  {
    Feed(false, None)
  }

  /** `start`: refused when running; otherwise running, with the handler `h` added to FAKE_CANDLE. */
  function Start<H>(f: Feed, bus: Bus<H>, h: H): (r: (Feed, Bus<H>, bool))
    ensures r.2 <==> !f.running
    ensures r.0.running && r.0.lastCandle == f.lastCandle
    ensures r.2 ==> r.1 == Subscribe(bus, FakeCandle, h)
    ensures !r.2 ==> r.0 == f && r.1 == bus
  {
    if f.running then (f, bus, false)
    else (f.(running := true), Subscribe(bus, FakeCandle, h), true)
  }

  /** `stop`: refused when not running; otherwise stopped, with the handler taken off FAKE_CANDLE. */
  function Stop<H(==)>(f: Feed, bus: Bus<H>, h: H): (r: (Feed, Bus<H>, bool))
    ensures r.2 <==> f.running
    ensures !r.0.running && r.0.lastCandle == f.lastCandle
    ensures r.2 ==> r.1 == Unsubscribe(bus, FakeCandle, h)
    ensures !r.2 ==> r.0 == f && r.1 == bus
  {
    if !f.running then (f, bus, false)
    else (f.(running := false), Unsubscribe(bus, FakeCandle, h), true)
  }

  /** `_on_candle`: the stored candle takes its six fields from the data (0.0 where one is
      missing); then exactly two events go out, a PRICE_UPDATE for BTC/USD carrying the close
      and the timestamp, and a CANDLE_EVENT carrying the incoming data unchanged. */
  function OnCandle(f: Feed, data: Payload): (r: (Feed, seq<Event>))
    ensures r.0.running == f.running
    ensures r.0.lastCandle == Some(Candles.Normalize(data))
    ensures |r.1| == 2
    ensures r.1[0].kind == PriceUpdate && r.1[0].source == Source
    ensures r.1[0].data == map["symbol" := Str(DefaultSymbol), "price" := Get(data, "close", Num(0.0)),
                               "timestamp" := Get(data, "timestamp", Num(0.0)), "fake" := Bool(true)]
    ensures r.1[1] == Event(CandleEvent, data, Source)
  {
    var candle := Candles.Normalize(data);
    var priceUpdate := map["symbol" := Str(DefaultSymbol), "price" := candle["close"],
                           "timestamp" := candle["timestamp"], "fake" := Bool(true)];
    (f.(lastCandle := Some(candle)), [Event(PriceUpdate, priceUpdate, Source), Event(CandleEvent, data, Source)])
  }

  /** For a candle's own dictionary the price update carries exactly its close and timestamp,
      and the feed remembers exactly that dictionary. */
  lemma OnCandleOfCandle(f: Feed, c: Candles.Candle)
    ensures OnCandle(f, Candles.ToDict(c)).1[0].data["price"] == Num(c.close)
    ensures OnCandle(f, Candles.ToDict(c)).1[0].data["timestamp"] == Num(c.timestamp)
    ensures OnCandle(f, Candles.ToDict(c)).0.lastCandle == Some(Candles.ToDict(c))
  {
    Candles.RoundTrip(c);
  }
}
