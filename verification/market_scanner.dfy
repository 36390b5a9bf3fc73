/** The market scanner agent (backend/agents/market_scanner/agent.py): a base agent
    that counts TICKs and answers each PRICE_UPDATE with a stub MARKET_REGIME. */
module MarketScanner {
  import opened Payloads
  import opened EventBus
  import BaseAgent

  const Name: string := "MarketScannerAgent"

  /** The placeholder regime every price update is classified as. */
  const Regime: string := "RANGE"

  function NewScanner(): BaseAgent.Agent
  {
    BaseAgent.NewAgent(Name)
  }

  /** `start`: the base start; when it runs, `onTick` joins TICK and then `onPrice` joins
      PRICE_UPDATE. */
  function Start<H>(a: BaseAgent.Agent, bus: Bus<H>, onTick: H, onPrice: H): (r: (BaseAgent.Agent, Bus<H>, bool))
    ensures (r.0, r.2) == BaseAgent.Start(a)
    ensures r.2 ==> r.1 == Subscribe(Subscribe(bus, Tick, onTick), PriceUpdate, onPrice)
    ensures !r.2 ==> r.1 == bus
  {
    var (a', ok) := BaseAgent.Start(a);
    (a', if ok then Subscribe(Subscribe(bus, Tick, onTick), PriceUpdate, onPrice) else bus, ok)
  }

  /** `stop`: the base stop; when it runs, both handlers leave their lists. */
  function Stop<H(==)>(a: BaseAgent.Agent, bus: Bus<H>, onTick: H, onPrice: H): (r: (BaseAgent.Agent, Bus<H>, bool))
    ensures (r.0, r.2) == BaseAgent.Stop(a)
    ensures r.2 ==> r.1 == Unsubscribe(Unsubscribe(bus, Tick, onTick), PriceUpdate, onPrice)
    ensures !r.2 ==> r.1 == bus
  {
    var (a', ok) := BaseAgent.Stop(a);
    (a', if ok then Unsubscribe(Unsubscribe(bus, Tick, onTick), PriceUpdate, onPrice) else bus, ok)
  }

  /** `_on_tick`: one more event counted, nothing published. */
  function OnTick(a: BaseAgent.Agent): (r: BaseAgent.Agent)
    ensures r.events == a.events + 1 && r.running == a.running && r.name == a.name
  {
    BaseAgent.LogEvent(a)
  }

  /** `_on_price_update`: one more event counted, and exactly one MARKET_REGIME published,
      with regime RANGE, the update's symbol (BTC/USD when missing), its price as
      `source_price` (None when missing), and marked fake. */
  function OnPriceUpdate(a: BaseAgent.Agent, data: Payload): (r: (BaseAgent.Agent, Event))
    ensures r.0.events == a.events + 1 && r.0.running == a.running && r.0.name == a.name
    ensures r.1.kind == MarketRegime && r.1.source == Name
    ensures r.1.data.Keys == {"symbol", "regime", "source_price", "fake"}
    ensures r.1.data["regime"] == Str(Regime) && r.1.data["fake"] == Bool(true)
    ensures r.1.data["symbol"] == Get(data, "symbol", Str(DefaultSymbol))
    ensures r.1.data["source_price"] == Get(data, "price", Null)
  {
    (BaseAgent.LogEvent(a),
     Event(MarketRegime,
           map["symbol" := Get(data, "symbol", Str(DefaultSymbol)), "regime" := Str(Regime),
               "source_price" := Get(data, "price", Null), "fake" := Bool(true)],
           Name))
  }

  /** A stopped scanner that is started and stopped again leaves every subscriber list as it
      found it, provided neither handler was subscribed before. */
  lemma StartStopRestoresBus<H>(a: BaseAgent.Agent, bus: Bus<H>, onTick: H, onPrice: H)
    requires !a.running
    requires onTick !in HandlersOf(bus, Tick) && onPrice !in HandlersOf(bus, PriceUpdate)
    ensures var (a1, bus1, _) := Start(a, bus, onTick, onPrice);
      forall k :: HandlersOf(Stop(a1, bus1, onTick, onPrice).1, k) == HandlersOf(bus, k)
  {
    var t := Subscribe(bus, Tick, onTick);
    var tp := Subscribe(t, PriceUpdate, onPrice);
    var u := Unsubscribe(tp, Tick, onTick);
    var v := Unsubscribe(u, PriceUpdate, onPrice);
    assert Start(a, bus, onTick, onPrice).1 == tp;
    assert Stop(Start(a, bus, onTick, onPrice).0, tp, onTick, onPrice).1 == v;
    forall k
      ensures HandlersOf(v, k) == HandlersOf(bus, k)
    {
      if k == Tick {
        UnsubscribeAfterSubscribe(bus, Tick, onTick);
        assert HandlersOf(tp, Tick) == HandlersOf(t, Tick);
        assert HandlersOf(u, Tick) == HandlersOf(Unsubscribe(t, Tick, onTick), Tick);
      } else if k == PriceUpdate {
        UnsubscribeAfterSubscribe(t, PriceUpdate, onPrice);
        assert HandlersOf(u, PriceUpdate) == HandlersOf(t, PriceUpdate) + [onPrice];
        assert HandlersOf(t, PriceUpdate) == HandlersOf(bus, PriceUpdate);
      }
    }
  }
}
