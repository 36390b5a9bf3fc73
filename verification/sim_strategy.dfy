/** The simulation strategy (backend/simulation/fake_strategy.py): it listens to
    MARKET_REGIME and sometimes answers with a fake BUY order request. The random draw
    is a parameter. */
module SimStrategy {
  import opened Payloads
  import opened EventBus
  import opened Orders

  datatype SimStrategy = SimStrategy(running: bool)

  const Source: string := "FakeStrategy"

  /** The probability of an unforced order. */
  const EmitThreshold: real := 0.3

  /** `start`: refused when running; otherwise running, with `h` added to MARKET_REGIME. */
  function Start<H>(s: SimStrategy, bus: Bus<H>, h: H): (r: (SimStrategy, Bus<H>, bool))
    ensures r.2 <==> !s.running
    ensures r.0.running
    ensures r.1 == if r.2 then Subscribe(bus, MarketRegime, h) else bus
  {
    if s.running then (s, bus, false)
    else (SimStrategy(true), Subscribe(bus, MarketRegime, h), true)
  }

  /** `stop`: refused when not running; otherwise stopped, with `h` taken off MARKET_REGIME. */
  function Stop<H(==)>(s: SimStrategy, bus: Bus<H>, h: H): (r: (SimStrategy, Bus<H>, bool))
    ensures r.2 <==> s.running
    ensures !r.0.running
    ensures r.1 == if r.2 then Unsubscribe(bus, MarketRegime, h) else bus
  {
    if !s.running then (s, bus, false)
    else (SimStrategy(false), Unsubscribe(bus, MarketRegime, h), true)
  }

  /** Whether the regime's `force_signal` is set (Python truthiness, absent meaning false). */
  predicate Forced(data: Payload)
  {
    Truthy(Get(data, "force_signal", Bool(false)))
  }

  /** `_on_regime` with `draw` standing for `random.random()`. The second component says
      whether the draw was consumed: `or` short-circuits, so a forced signal does not draw.
      At most one event goes out: an ORDER_REQUEST exactly when forced or the draw is
      below 0.3, holding a fake BUY market order of the stub size for the regime's symbol
      (BTC/USD when missing) at its `source_price` (0.0 when missing). */
  function OnRegime(data: Payload, draw: real): (r: (Option<Event>, bool))
    ensures r.1 <==> !Forced(data)
    ensures r.0.Some? <==> Forced(data) || draw < EmitThreshold
    ensures r.0.Some? ==> r.0.value.kind == OrderRequest && r.0.value.source == Source
    ensures r.0.Some? ==> r.0.value.data.Keys == {"symbol", "side", "order_type", "quantity", "price", "fake"}
    ensures r.0.Some? ==> r.0.value.data["side"] == Str("BUY") && r.0.value.data["order_type"] == Str("MARKET")
    ensures r.0.Some? ==> r.0.value.data["quantity"] == Num(0.1) && r.0.value.data["fake"] == Bool(true)
    ensures r.0.Some? ==> r.0.value.data["symbol"] == Get(data, "symbol", Str(DefaultSymbol))
    ensures r.0.Some? ==> r.0.value.data["price"] == Get(data, "source_price", Num(0.0))
  {
    var forced := Forced(data);
    var emit := forced || draw < EmitThreshold;
    var order := StubOrder(Get(data, "symbol", Str(DefaultSymbol)), Buy, Get(data, "source_price", Num(0.0)));
    (if emit then Some(Event(OrderRequest, order, Source)) else None, !forced)
  }

  /** Handling a run of regimes, each with the draw at hand: the draws actually consumed are
      taken from the front of `draws`. Returns the order requests and the draws left. */
  function OnRegimes(regimes: seq<Payload>, draws: seq<real>): (r: (seq<Event>, seq<real>))
    requires |draws| >= |regimes|
    ensures |r.0| <= |regimes|
    ensures forall e :: e in r.0 ==> e.kind == OrderRequest
    decreases |regimes|
  {
    if regimes == [] then ([], draws)
    else
      var (e, used) := OnRegime(regimes[0], draws[0]);
      var rest := OnRegimes(regimes[1..], if used then draws[1..] else draws);
      ((if e.Some? then [e.value] else []) + rest.0, rest.1)
  }

  /** The draws a run of regimes uses come off the front of the stream: what is left is a
      suffix of it. With every signal forced, each regime sends an order and no draw is used. */
  lemma {:induction false} OnRegimesDrawsFromFront(regimes: seq<Payload>, draws: seq<real>)
    requires |draws| >= |regimes|
    ensures var r := OnRegimes(regimes, draws);
      |r.1| <= |draws| && r.1 == draws[|draws| - |r.1|..]
    ensures (forall i :: 0 <= i < |regimes| ==> Forced(regimes[i])) ==>
      |OnRegimes(regimes, draws).0| == |regimes| && OnRegimes(regimes, draws).1 == draws
    decreases |regimes|
  {
    if regimes != [] {
      var used := OnRegime(regimes[0], draws[0]).1;
      var rest := if used then draws[1..] else draws;
      OnRegimesDrawsFromFront(regimes[1..], rest);
      var left := OnRegimes(regimes[1..], rest).1;
      assert OnRegimes(regimes, draws).1 == left;
      if used {
        assert rest[|rest| - |left|..] == draws[|draws| - |left|..];
      }
      if forall i :: 0 <= i < |regimes| ==> Forced(regimes[i]) {
        assert Forced(regimes[0]);
        assert forall i :: 0 <= i < |regimes[1..]| ==> Forced(regimes[1..][i]) by {
          forall i | 0 <= i < |regimes[1..]|
            ensures Forced(regimes[1..][i])
          {
            assert regimes[1..][i] == regimes[i + 1];
          }
        }
      }
    }
  }
}
