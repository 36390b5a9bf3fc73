/** The OHLCV record (backend/market/candle.py) and its dictionary form. */
module Candles {
  import opened Payloads

  datatype Candle = Candle(timestamp: real, open: real, high: real, low: real, close: real, volume: real)

  /** The dataclass constructor with `volume` left at its default of 0.0. */
  function WithoutVolume(timestamp: real, open: real, high: real, low: real, close: real): (c: Candle)
    ensures ToDict(c)["volume"] == Num(0.0)
    ensures c == FromRow(timestamp, open, high, low, close, 0.0)
  {
    Candle(timestamp, open, high, low, close, 0.0)
  }

  /** `from_row` with a numeric timestamp, which `_parse_timestamp` returns unchanged:
      the five numbers land in open, high, low, close and volume in that order. */
  function FromRow(ts: real, o: real, h: real, l: real, c: real, v: real): (r: Candle)
    ensures ToDict(r) == map["timestamp" := Num(ts), "open" := Num(o), "high" := Num(h),
                             "low" := Num(l), "close" := Num(c), "volume" := Num(v)]
  {
    Candle(ts, o, h, l, c, v)
  }

  /** The six field names, in declaration order. */
  const FieldNames: seq<string> := ["timestamp", "open", "high", "low", "close", "volume"]

  /** `to_dict`: exactly the six fields, each holding the candle's number. */
  function ToDict(c: Candle): (d: Payload)
    ensures d.Keys == set f | f in FieldNames
    ensures forall f :: f in d ==> d[f].Num?
    ensures d["close"] == Num(c.close) && d["timestamp"] == Num(c.timestamp)
  {
    map["timestamp" := Num(c.timestamp), "open" := Num(c.open), "high" := Num(c.high),
        "low" := Num(c.low), "close" := Num(c.close), "volume" := Num(c.volume)]
  }

  /** The six fields of a dictionary as the price feed stores them: each read with
      `get(field, 0.0)`, so a missing field becomes 0.0 and an extra key is dropped. */
  function Normalize(d: Payload): (r: Payload)
    ensures r.Keys == set f | f in FieldNames
    ensures forall f :: f in FieldNames ==> r[f] == Get(d, f, Num(0.0))
  {
    map f | f in FieldNames :: Get(d, f, Num(0.0))
  }

  /** Rebuilding a candle field by field from a dictionary: fails when some field
      holds something other than a number. */
  function FromDict(d: Payload): (r: Option<Candle>)
    ensures r.Some? <==> forall f :: f in FieldNames ==> Get(d, f, Num(0.0)).Num?
    ensures r.Some? ==> ToDict(r.value) == Normalize(d)
  {
    var ts := Get(d, "timestamp", Num(0.0));
    var o := Get(d, "open", Num(0.0));
    var h := Get(d, "high", Num(0.0));
    var l := Get(d, "low", Num(0.0));
    var c := Get(d, "close", Num(0.0));
    var v := Get(d, "volume", Num(0.0));
    if ts.Num? && o.Num? && h.Num? && l.Num? && c.Num? && v.Num? then
      Some(Candle(ts.n, o.n, h.n, l.n, c.n, v.n))
    else None
  }

  /** Round trip: a candle rebuilt from its dictionary is the same candle, and the
      dictionary is already in the shape the feed stores. */
  lemma RoundTrip(c: Candle)
    ensures FromDict(ToDict(c)) == Some(c)
    ensures Normalize(ToDict(c)) == ToDict(c)
  {
    var d := ToDict(c);
    assert Normalize(d) == d;
  }
}
