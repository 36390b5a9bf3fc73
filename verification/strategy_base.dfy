/** The strategy adapter (backend/strategies/base.py): it subscribes a strategy to
    CANDLE_EVENT and publishes whatever order the strategy returns as an ORDER_REQUEST.
    The two concrete strategies are the cases of `Logic`. */
module StrategyBase {
  import opened Payloads
  import opened EventBus
  import TrendStrategy
  import RandomStrategy

  datatype Logic = TrendLogic(trend: TrendStrategy.Trend) | RandomLogic

  datatype Strategy = Strategy(running: bool, logic: Logic)

  /** The class name, which is the source of the published events. */
  function NameOf(l: Logic): string
  {
    match l
    case TrendLogic(_) => TrendStrategy.Name
    case RandomLogic => RandomStrategy.Name
  }

  /** The backtest's `_build_strategy`: "fake_random" picks the random strategy (seeded,
      which the draw parameter stands for) and any other name the trend strategy with its
      default windows of 3 and 8. */
  function Build(name: string): (s: Strategy)
    ensures !s.running
    ensures s.logic.RandomLogic? <==> name == "fake_random"
    ensures s.logic.TrendLogic? ==> s.logic.trend == TrendStrategy.NewTrend(3, 8)
  {
    if name == "fake_random" then Strategy(false, RandomLogic)
    else Strategy(false, TrendLogic(TrendStrategy.NewTrend(TrendStrategy.DefaultFast, TrendStrategy.DefaultSlow)))
  }

  /** `start`: refused when running; otherwise running, with `h` added to CANDLE_EVENT. */
  function Start<H>(s: Strategy, bus: Bus<H>, h: H): (r: (Strategy, Bus<H>, bool))
    ensures r.2 <==> !s.running
    ensures r.0.running && r.0.logic == s.logic
    ensures r.1 == if r.2 then Subscribe(bus, CandleEvent, h) else bus
  {
    if s.running then (s, bus, false)
    else (s.(running := true), Subscribe(bus, CandleEvent, h), true)
  }

  /** `stop`: refused when not running; otherwise stopped, with `h` taken off CANDLE_EVENT. */
  function Stop<H(==)>(s: Strategy, bus: Bus<H>, h: H): (r: (Strategy, Bus<H>, bool))
    ensures r.2 <==> s.running
    ensures !r.0.running && r.0.logic == s.logic
    ensures r.1 == if r.2 then Unsubscribe(bus, CandleEvent, h) else bus
  {
    if !s.running then (s, bus, false)
    else (s.(running := false), Unsubscribe(bus, CandleEvent, h), true)
  }

  /** The strategy's own `on_candle`; `draw` is only read by the random strategy. */
  function OnCandle(l: Logic, candle: Payload, draw: real): (r: (Logic, Result<Option<Payload>>))
    ensures l.RandomLogic? ==> r == (l, Ok(RandomStrategy.OnCandle(candle, draw)))
    ensures l.TrendLogic? ==> r.0 == TrendLogic(TrendStrategy.OnCandle(l.trend, candle).0) &&
                              r.1 == TrendStrategy.OnCandle(l.trend, candle).1
  {
    match l
    case RandomLogic => (l, Ok(RandomStrategy.OnCandle(candle, draw)))
    case TrendLogic(t) =>
      var (t', res) := TrendStrategy.OnCandle(t, candle);
      (TrendLogic(t'), res)
  }

  /** `_on_candle_event`: the strategy sees the event's data; a returned order that is not
      empty goes out unchanged as one ORDER_REQUEST, named after the strategy's class; no order,
      or an empty one, publishes nothing. When the strategy raises, so does the handler, and
      nothing is published. */
  function OnCandleEvent(s: Strategy, data: Payload, draw: real): (r: (Strategy, Result<Option<Event>>))
    ensures r.0.running == s.running
    ensures r.0.logic == OnCandle(s.logic, data, draw).0
    ensures r.1.Raised? <==> OnCandle(s.logic, data, draw).1.Raised?
    ensures r.1.Ok? ==>
      var order := OnCandle(s.logic, data, draw).1.value;
      (r.1.value.Some? <==> order.Some? && |order.value| > 0) &&
      (r.1.value.Some? ==> r.1.value.value == Event(OrderRequest, order.value, NameOf(s.logic)))
  {
    var (l', res) := OnCandle(s.logic, data, draw);
    var s' := s.(logic := l');
    match res
    case Raised(e) => (s', Raised(e))
    case Ok(order) =>
      if order.Some? && |order.value| > 0 then (s', Ok(Some(Event(OrderRequest, order.value, NameOf(s.logic)))))
      else (s', Ok(None))
  }
}
