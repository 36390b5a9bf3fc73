/** The backtest engine (backend/backtest/backtest_engine.py) and the world it wires: one bus,
    a registry, the fake market with its feed, the execution agent, the portfolio agent and one
    strategy, plus the engine's own trade and equity lists. Handlers are named by `Handler`, the
    bus holds those names, and publishing an event runs the named handlers one after another,
    each handler's own publications being delivered, depth first, before the next handler runs. */
module Backtest {
  import opened Payloads
  import opened EventBus
  import Candles
  import Replayer
  import Registry
  import BaseAgent
  import FakeMarket
  import MarketFeed
  import ExecutionAgent
  import StrategyBase

  /** Every bound method the backtest puts on the bus. */
  datatype Handler =
    | FeedCandle      // the market's price feed, `_on_candle`
    | EngineFill      // the engine's `_on_fill`
    | EnginePrice     // the engine's `_on_price`
    | ExecOrder       // the execution agent's `_on_order_request`
    | PortfolioTick   // the portfolio agent's `_on_tick`
    | StrategyCandle  // the strategy's `_on_candle_event`

  const PortfolioName: string := "PortfolioManagerAgent"

  /** `idsUsed` and `drawsUsed` count how many fresh ids and random draws have been taken from
      the oracle; `slept` is the simulated time the replayer has paused for. */
  datatype World = World(
    bus: Bus<Handler>,
    registry: Registry.Registry<Registry.Component>,
    market: FakeMarket.Market,
    execution: ExecutionAgent.ExecAgent,
    portfolio: BaseAgent.Agent,
    strategy: StrategyBase.Strategy,
    trades: seq<Payload>,
    equity: seq<Payload>,
    lastPrice: Value,
    idsUsed: nat,
    drawsUsed: nat,
    slept: real)

  /** The outside world: the n-th random draw and the n-th fresh order id. */
  datatype Oracle = Oracle(draw: nat -> real, freshId: nat -> string)

  /** The nesting the backtest's publications reach: FAKE_CANDLE, then CANDLE_EVENT from the
      feed, then ORDER_REQUEST from the strategy, then ORDER_FILLED from the market. */
  const Depth: nat := 4

  // ---------------------------------------------------------------------------------------
  // Construction, start and stop
  // ---------------------------------------------------------------------------------------

  /** The constructor's handler table, as a literal. */
  function InitialBus(): (b: Bus<Handler>)
    ensures HandlersOf(b, OrderFilled) == [EngineFill] && HandlersOf(b, PriceUpdate) == [EnginePrice]
    ensures forall k :: k != OrderFilled && k != PriceUpdate ==> HandlersOf(b, k) == []
  {
    Bus(map[OrderFilled := [EngineFill], PriceUpdate := [EnginePrice]], 0)
  }

  /** The constructor's registry, as a literal. */
  function InitialRegistry(): Registry.Registry<Registry.Component>
  {
    Registry.Registry([FakeMarket.Source, ExecutionAgent.Name, PortfolioName],
                      map[FakeMarket.Source := Registry.Component(FakeMarket.Source),
                          ExecutionAgent.Name := Registry.Component(ExecutionAgent.Name),
                          PortfolioName := Registry.Component(PortfolioName)])
  }

  /** The literal table is what the constructor's two subscriptions, fills then prices,
      build on a fresh bus. */
  lemma InitialBusIsSubscriptions()
    ensures InitialBus() == Subscribe(Subscribe(NewBus(), OrderFilled, EngineFill), PriceUpdate, EnginePrice)
  {
    var b1 := Subscribe(NewBus(), OrderFilled, EngineFill);
    assert [] + [EngineFill] == [EngineFill] && [] + [EnginePrice] == [EnginePrice];
    assert b1.subscribers == map[OrderFilled := [EngineFill]];
    var b2 := Subscribe(b1, PriceUpdate, EnginePrice);
    assert b2.subscribers == InitialBus().subscribers;
  }

  /** The literal registry is what the constructor's three registrations build on an empty
      one: the market, the execution agent and the portfolio agent, in that order. */
  lemma InitialRegistryIsRegistrations()
    ensures Registry.Valid(InitialRegistry())
    ensures InitialRegistry() ==
      Registry.Register(Registry.Register(Registry.Register(Registry.NewRegistry(),
        FakeMarket.Source, Registry.Component(FakeMarket.Source)),
        ExecutionAgent.Name, Registry.Component(ExecutionAgent.Name)),
        PortfolioName, Registry.Component(PortfolioName))
    ensures ExecutionAgent.MarketRegistered(InitialRegistry())
  {
    var r1 := Registry.Register(Registry.NewRegistry(), FakeMarket.Source, Registry.Component(FakeMarket.Source));
    var r2 := Registry.Register(r1, ExecutionAgent.Name, Registry.Component(ExecutionAgent.Name));
    var r3 := Registry.Register(r2, PortfolioName, Registry.Component(PortfolioName));
    assert r3.names == InitialRegistry().names;
    assert r3.entries == InitialRegistry().entries;
  }

  /** The constructor: the three components registered by name, then the engine's fill and
      price handlers subscribed; the strategy is the one `_build_strategy` picks. */
  function Setup(strategyName: string): (w: World)
    ensures w.bus == InitialBus() && w.registry == InitialRegistry()
    ensures w.strategy == StrategyBase.Build(strategyName) && !w.strategy.running
    ensures !w.market.running && !w.market.feed.running && !w.execution.agent.running && !w.portfolio.running
    ensures w.trades == [] && w.equity == [] && w.lastPrice == Num(0.0)
  {
    World(InitialBus(), InitialRegistry(), FakeMarket.NewMarket(0.0), ExecutionAgent.NewExecAgent(),
          BaseAgent.NewAgent(PortfolioName), StrategyBase.Build(strategyName), [], [], Num(0.0), 0, 0, 0.0)
  }

  /** The portfolio agent's start: the base start, and when it runs, `_on_tick` joins TICK. */
  function PortfolioStart(a: BaseAgent.Agent, bus: Bus<Handler>): (r: (BaseAgent.Agent, Bus<Handler>, bool))
    ensures (r.0, r.2) == BaseAgent.Start(a)
    ensures r.1 == if r.2 then Subscribe(bus, Tick, PortfolioTick) else bus
  {
    var (a', ok) := BaseAgent.Start(a);
    (a', if ok then Subscribe(bus, Tick, PortfolioTick) else bus, ok)
  }

  /** The portfolio agent's stop: the base stop, and when it runs, `_on_tick` leaves TICK. */
  function PortfolioStop(a: BaseAgent.Agent, bus: Bus<Handler>): (r: (BaseAgent.Agent, Bus<Handler>, bool))
    ensures (r.0, r.2) == BaseAgent.Stop(a)
    ensures r.1 == if r.2 then Unsubscribe(bus, Tick, PortfolioTick) else bus
  {
    var (a', ok) := BaseAgent.Stop(a);
    (a', if ok then Unsubscribe(bus, Tick, PortfolioTick) else bus, ok)
  }

  /** The market's start, inside the world: its feed joins FAKE_CANDLE when both were stopped. */
  function StartMarket(w: World): (r: World)
    ensures r.market.running && r.market.feed.running == (w.market.feed.running || !w.market.running)
    ensures r.bus == if !w.market.running && !w.market.feed.running then Subscribe(w.bus, FakeCandle, FeedCandle) else w.bus
    ensures r.execution == w.execution && r.portfolio == w.portfolio && r.strategy == w.strategy
    ensures r.registry == w.registry && r.trades == w.trades && r.equity == w.equity
  {
    var (m, bus, _) := FakeMarket.Start(w.market, w.bus, FeedCandle);
    w.(bus := bus, market := m)
  }

  /** The execution agent's start, inside the world: it joins ORDER_REQUEST and looks the
      market up in the world's registry. */
  function StartExecution(w: World): (r: World)
    ensures r.execution.agent.running
    ensures r.bus == if !w.execution.agent.running then Subscribe(w.bus, OrderRequest, ExecOrder) else w.bus
    ensures r.execution.bound <==> w.execution.bound || (!w.execution.agent.running && ExecutionAgent.MarketRegistered(w.registry))
    ensures r.market == w.market && r.portfolio == w.portfolio && r.strategy == w.strategy
    ensures r.registry == w.registry && r.trades == w.trades && r.equity == w.equity
  {
    var (e, bus, _) := ExecutionAgent.Start(w.execution, w.bus, w.registry, ExecOrder);
    w.(bus := bus, execution := e)
  }

  function StartPortfolio(w: World): (r: World)
    ensures r.portfolio.running
    ensures r.bus == if !w.portfolio.running then Subscribe(w.bus, Tick, PortfolioTick) else w.bus
    ensures r.market == w.market && r.execution == w.execution && r.strategy == w.strategy
    ensures r.registry == w.registry && r.trades == w.trades && r.equity == w.equity
  {
    var (p, bus, _) := PortfolioStart(w.portfolio, w.bus);
    w.(bus := bus, portfolio := p)
  }

  function StartStrategy(w: World): (r: World)
    ensures r.strategy.running && r.strategy.logic == w.strategy.logic
    ensures r.bus == if !w.strategy.running then Subscribe(w.bus, CandleEvent, StrategyCandle) else w.bus
    ensures r.market == w.market && r.execution == w.execution && r.portfolio == w.portfolio
    ensures r.registry == w.registry && r.trades == w.trades && r.equity == w.equity
  {
    var (s, bus, _) := StrategyBase.Start(w.strategy, w.bus, StrategyCandle);
    w.(bus := bus, strategy := s)
  }

  /** The first half of `run`: market, execution agent, portfolio agent, strategy. */
  function StartAll(w: World): World
  {
    StartStrategy(StartPortfolio(StartExecution(StartMarket(w))))
  }

  function StopStrategy(w: World): (r: World)
    ensures !r.strategy.running && r.strategy.logic == w.strategy.logic
    ensures r.bus == if w.strategy.running then Unsubscribe(w.bus, CandleEvent, StrategyCandle) else w.bus
    ensures r.market == w.market && r.execution == w.execution && r.portfolio == w.portfolio
    ensures r.registry == w.registry && r.trades == w.trades && r.equity == w.equity
  {
    var (s, bus, _) := StrategyBase.Stop(w.strategy, w.bus, StrategyCandle);
    w.(bus := bus, strategy := s)
  }

  function StopPortfolio(w: World): (r: World)
    ensures !r.portfolio.running
    ensures r.bus == if w.portfolio.running then Unsubscribe(w.bus, Tick, PortfolioTick) else w.bus
    ensures r.market == w.market && r.execution == w.execution && r.strategy == w.strategy
    ensures r.registry == w.registry && r.trades == w.trades && r.equity == w.equity
  {
    var (p, bus, _) := PortfolioStop(w.portfolio, w.bus);
    w.(bus := bus, portfolio := p)
  }

  function StopExecution(w: World): (r: World)
    ensures !r.execution.agent.running && r.execution.bound == w.execution.bound
    ensures r.bus == if w.execution.agent.running then Unsubscribe(w.bus, OrderRequest, ExecOrder) else w.bus
    ensures r.market == w.market && r.portfolio == w.portfolio && r.strategy == w.strategy
    ensures r.registry == w.registry && r.trades == w.trades && r.equity == w.equity
  {
    var (e, bus, _) := ExecutionAgent.Stop(w.execution, w.bus, ExecOrder);
    w.(bus := bus, execution := e)
  }

  function StopMarket(w: World): (r: World)
    ensures !r.market.running && r.market.feed.running == (w.market.feed.running && !w.market.running)
    ensures r.bus == if w.market.running && w.market.feed.running then Unsubscribe(w.bus, FakeCandle, FeedCandle) else w.bus
    ensures r.execution == w.execution && r.portfolio == w.portfolio && r.strategy == w.strategy
    ensures r.registry == w.registry && r.trades == w.trades && r.equity == w.equity
  {
    var (m, bus, _) := FakeMarket.Stop(w.market, w.bus, FeedCandle);
    w.(bus := bus, market := m)
  }

  /** The second half of `run`: strategy, portfolio agent, execution agent, market. */
  function StopAll(w: World): World
  {
    StopMarket(StopExecution(StopPortfolio(StopStrategy(w))))
  }

  /** The routing the replay runs under: each kind the backtest publishes has exactly the
      handler the constructor or `run` gave it, and every other kind, EXECUTION_RESULT among
      them, has none. */
  function Route(k: EventKind): seq<Handler>
  {
    match k
    case FakeCandle => [FeedCandle]
    case PriceUpdate => [EnginePrice]
    case CandleEvent => [StrategyCandle]
    case OrderRequest => [ExecOrder]
    case OrderFilled => [EngineFill]
    case Tick => [PortfolioTick]
    case _ => []
  }

  /** The bus routes as `Route` says, and the execution agent holds the market. */
  predicate Wired(w: World)
  {
    (forall k :: HandlersOf(w.bus, k) == Route(k)) && w.execution.bound
  }

  /** The world `run` replays into: constructed, then started. */
  function Started(strategyName: string): World
  {
    StartAll(Setup(strategyName))
  }

  /** After the constructor and the starts, every component is running and the routing is the
      one the replay relies on; the execution agent found the market because the constructor
      registered it before `run`. */
  lemma StartedIsWired(strategyName: string)
    ensures Wired(Started(strategyName))
    ensures Started(strategyName).market.running && Started(strategyName).execution.agent.running
    ensures Started(strategyName).trades == [] && Started(strategyName).equity == []
    ensures Started(strategyName).strategy.logic == StrategyBase.Build(strategyName).logic
  {
    InitialRegistryIsRegistrations();
    StartWires(Setup(strategyName));
  }

  /** The general form: from the constructor's table, with nothing running, the starts
      subscribe one handler each to the four kinds the components listen to. */
  lemma StartWires(w: World)
    requires !w.market.running && !w.market.feed.running && !w.execution.agent.running
    requires !w.portfolio.running && !w.strategy.running
    requires w.bus == InitialBus() && ExecutionAgent.MarketRegistered(w.registry)
    ensures Wired(StartAll(w))
    ensures StartAll(w).market.running && StartAll(w).execution.agent.running
    ensures StartAll(w).trades == w.trades && StartAll(w).equity == w.equity
    ensures StartAll(w).strategy.logic == w.strategy.logic
  {
    assert StartAll(w).bus == StartSubscriptions(w.bus);
    StartTableRoutes(w.bus);
  }

  /** The constructor's table with the four start subscriptions is the replay's routing. */
  lemma StartTableRoutes(b: Bus<Handler>)
    requires forall k :: HandlersOf(b, k) == HandlersOf(InitialBus(), k)
    ensures forall k :: HandlersOf(StartSubscriptions(b), k) == Route(k)
  {
    assert HandlersOf(b, FakeCandle) == HandlersOf(InitialBus(), FakeCandle);
    assert HandlersOf(b, OrderRequest) == HandlersOf(InitialBus(), OrderRequest);
    assert HandlersOf(b, Tick) == HandlersOf(InitialBus(), Tick);
    assert HandlersOf(b, CandleEvent) == HandlersOf(InitialBus(), CandleEvent);
    forall k
      ensures HandlersOf(StartSubscriptions(b), k) == Route(k)
    {
      StartRoutesAt(b, k);
    }
  }

  /** One kind of the started table. */
  lemma StartRoutesAt(b: Bus<Handler>, k: EventKind)
    requires HandlersOf(b, FakeCandle) == [] && HandlersOf(b, OrderRequest) == []
    requires HandlersOf(b, Tick) == [] && HandlersOf(b, CandleEvent) == []
    requires HandlersOf(b, k) == HandlersOf(InitialBus(), k)
    ensures HandlersOf(StartSubscriptions(b), k) == Route(k)
  {
    if Joined(k) {
      StartRoutesJoined(b, k);
    } else {
      StartRoutesElsewhere(b, k);
    }
  }

  lemma StartRoutesJoined(b: Bus<Handler>, k: EventKind)
    requires HandlersOf(b, FakeCandle) == [] && HandlersOf(b, OrderRequest) == []
    requires HandlersOf(b, Tick) == [] && HandlersOf(b, CandleEvent) == []
    requires Joined(k)
    ensures HandlersOf(StartSubscriptions(b), k) == Route(k)
  {
    StartTable(b);
    RouteOfJoined();
  }

  lemma StartRoutesElsewhere(b: Bus<Handler>, k: EventKind)
    requires HandlersOf(b, k) == HandlersOf(InitialBus(), k)
    requires !Joined(k)
    ensures HandlersOf(StartSubscriptions(b), k) == Route(k)
  {
    InitialIsRouteBeforeStarts(k);
    StartKeepsTable(b, k);
  }

  /** The routing of the four kinds the components join. */
  lemma RouteOfJoined()
    ensures Route(FakeCandle) == [FeedCandle] && Route(OrderRequest) == [ExecOrder]
    ensures Route(Tick) == [PortfolioTick] && Route(CandleEvent) == [StrategyCandle]
  {
  }

  /** The four kinds the components join when started. */
  predicate Joined(k: EventKind)
  {
    k == FakeCandle || k == OrderRequest || k == Tick || k == CandleEvent
  }

  /** The four subscriptions the starts make, in order. */
  function StartSubscriptions(b: Bus<Handler>): Bus<Handler>
  {
    var b1 := Subscribe(b, FakeCandle, FeedCandle);
    var b2 := Subscribe(b1, OrderRequest, ExecOrder);
    var b3 := Subscribe(b2, Tick, PortfolioTick);
    Subscribe(b3, CandleEvent, StrategyCandle)
  }

  /** Each listened-to kind that had no handler gets exactly its component's... */
  lemma StartTable(b: Bus<Handler>)
    requires HandlersOf(b, FakeCandle) == [] && HandlersOf(b, OrderRequest) == []
    requires HandlersOf(b, Tick) == [] && HandlersOf(b, CandleEvent) == []
    ensures HandlersOf(StartSubscriptions(b), FakeCandle) == [FeedCandle]
    ensures HandlersOf(StartSubscriptions(b), OrderRequest) == [ExecOrder]
    ensures HandlersOf(StartSubscriptions(b), Tick) == [PortfolioTick]
    ensures HandlersOf(StartSubscriptions(b), CandleEvent) == [StrategyCandle]
  {
  }

  /** ...and every other kind keeps its list. */
  lemma StartKeepsTable(b: Bus<Handler>, k: EventKind)
    requires !Joined(k)
    ensures HandlersOf(StartSubscriptions(b), k) == HandlersOf(b, k)
  {
    var b1 := Subscribe(b, FakeCandle, FeedCandle);
    var b2 := Subscribe(b1, OrderRequest, ExecOrder);
    var b3 := Subscribe(b2, Tick, PortfolioTick);
    assert HandlersOf(b1, k) == HandlersOf(b, k);
    assert HandlersOf(b2, k) == HandlersOf(b, k);
    assert HandlersOf(b3, k) == HandlersOf(b, k);
  }

  /** The four unsubscriptions the stops make, in order. */
  function StopSubscriptions(b: Bus<Handler>): Bus<Handler>
  {
    var b1 := Unsubscribe(b, CandleEvent, StrategyCandle);
    var b2 := Unsubscribe(b1, Tick, PortfolioTick);
    var b3 := Unsubscribe(b2, OrderRequest, ExecOrder);
    Unsubscribe(b3, FakeCandle, FeedCandle)
  }

  /** Each kind a component listened to with its one handler is left with none... */
  lemma StopTable(b: Bus<Handler>)
    requires HandlersOf(b, FakeCandle) == [FeedCandle] && HandlersOf(b, OrderRequest) == [ExecOrder]
    requires HandlersOf(b, Tick) == [PortfolioTick] && HandlersOf(b, CandleEvent) == [StrategyCandle]
    ensures HandlersOf(StopSubscriptions(b), FakeCandle) == []
    ensures HandlersOf(StopSubscriptions(b), OrderRequest) == []
    ensures HandlersOf(StopSubscriptions(b), Tick) == []
    ensures HandlersOf(StopSubscriptions(b), CandleEvent) == []
  {
    var b1 := Unsubscribe(b, CandleEvent, StrategyCandle);
    UnsubscribeSole(b, CandleEvent, StrategyCandle);
    var b2 := Unsubscribe(b1, Tick, PortfolioTick);
    assert HandlersOf(b1, Tick) == [PortfolioTick];
    UnsubscribeSole(b1, Tick, PortfolioTick);
    var b3 := Unsubscribe(b2, OrderRequest, ExecOrder);
    assert HandlersOf(b2, OrderRequest) == [ExecOrder] && HandlersOf(b2, CandleEvent) == [];
    UnsubscribeSole(b2, OrderRequest, ExecOrder);
    assert HandlersOf(b3, FakeCandle) == [FeedCandle] && HandlersOf(b3, CandleEvent) == [] && HandlersOf(b3, Tick) == [];
    UnsubscribeSole(b3, FakeCandle, FeedCandle);
  }

  /** ...and every other kind keeps its list. */
  lemma StopKeepsTable(b: Bus<Handler>, k: EventKind)
    requires !Joined(k)
    ensures HandlersOf(StopSubscriptions(b), k) == HandlersOf(b, k)
  {
    var b1 := Unsubscribe(b, CandleEvent, StrategyCandle);
    var b2 := Unsubscribe(b1, Tick, PortfolioTick);
    var b3 := Unsubscribe(b2, OrderRequest, ExecOrder);
    assert HandlersOf(b1, k) == HandlersOf(b, k);
    assert HandlersOf(b2, k) == HandlersOf(b, k);
    assert HandlersOf(b3, k) == HandlersOf(b, k);
  }

  /** With every component running on the replay's routing, the stops leave every component
      stopped and the bus routing as the constructor left it: the engine's two handlers, and
      an empty list for each kind a component had joined. */
  lemma StopUnwires(w: World)
    requires Wired(w) && Live(w)
    ensures forall k :: HandlersOf(StopAll(w).bus, k) == HandlersOf(InitialBus(), k)
    ensures var r := StopAll(w);
      !r.market.running && !r.market.feed.running && !r.execution.agent.running && !r.portfolio.running && !r.strategy.running
  {
    assert StopAll(w).bus == StopSubscriptions(w.bus);
    StopTableRoutes(w.bus);
  }

  lemma StopTableRoutes(b: Bus<Handler>)
    requires forall k :: HandlersOf(b, k) == Route(k)
    ensures forall k :: HandlersOf(StopSubscriptions(b), k) == HandlersOf(InitialBus(), k)
  {
    RouteOfJoined();
    assert HandlersOf(b, FakeCandle) == Route(FakeCandle) && HandlersOf(b, OrderRequest) == Route(OrderRequest);
    assert HandlersOf(b, Tick) == Route(Tick) && HandlersOf(b, CandleEvent) == Route(CandleEvent);
    forall k
      ensures HandlersOf(StopSubscriptions(b), k) == HandlersOf(InitialBus(), k)
    {
      StopRoutesAt(b, k);
    }
  }

  /** One kind of the stopped table. */
  lemma StopRoutesAt(b: Bus<Handler>, k: EventKind)
    requires HandlersOf(b, FakeCandle) == [FeedCandle] && HandlersOf(b, OrderRequest) == [ExecOrder]
    requires HandlersOf(b, Tick) == [PortfolioTick] && HandlersOf(b, CandleEvent) == [StrategyCandle]
    requires HandlersOf(b, k) == Route(k)
    ensures HandlersOf(StopSubscriptions(b), k) == HandlersOf(InitialBus(), k)
  {
    InitialIsRouteBeforeStarts(k);
    if Joined(k) {
      StopTable(b);
    } else {
      StopKeepsTable(b, k);
    }
  }

  /** The constructor's table is the replay's routing without the four kinds the components
      join when started. */
  lemma InitialIsRouteBeforeStarts(k: EventKind)
    ensures HandlersOf(InitialBus(), k) == if Joined(k) then [] else Route(k)
  {
  }

  // ---------------------------------------------------------------------------------------
  // The engine's handlers and the accounting
  // ---------------------------------------------------------------------------------------

  /** `_on_fill`: the fill's payload is appended to the trades, in arrival order. */
  function OnFill(w: World, data: Payload): (r: World)
    ensures r.trades == w.trades + [data]
    ensures r.equity == w.equity && r.bus == w.bus && r.execution == w.execution
  {
    w.(trades := w.trades + [data])
  }

  /** One equity sample: with no `get_equity` on the portfolio agent, equity is the price. */
  function Sample(price: Value): Payload
  {
    map["price" := price, "equity" := price]
  }

  /** `_on_price`: the last price becomes the update's price, or stays when the update has
      none, and exactly one sample of it is appended to the equity curve. */
  function OnPrice(w: World, data: Payload): (r: World)
    ensures r.lastPrice == (if "price" in data then data["price"] else w.lastPrice)
    ensures r.equity == w.equity + [Sample(r.lastPrice)]
    ensures r.trades == w.trades && r.bus == w.bus && r.execution == w.execution
  {
    var price := Get(data, "price", w.lastPrice);
    w.(lastPrice := price, equity := w.equity + [Sample(price)])
  }

  /** The feed's `_on_candle` inside the market: the market's feed remembers the candle, and
      the feed's two publications come back. */
  function FeedStep(w: World, data: Payload): (r: (World, seq<Event>))
    ensures r.0.market.feed.lastCandle == Some(Candles.Normalize(data))
    ensures r.1 == MarketFeed.OnCandle(w.market.feed, data).1
    ensures r.0.bus == w.bus && r.0.execution == w.execution && r.0.trades == w.trades && r.0.equity == w.equity
  {
    var step := MarketFeed.OnCandle(w.market.feed, data);
    (w.(market := w.market.(feed := step.0)), step.1)
  }

  /** The strategy's `_on_candle_event`: the random strategy takes the next draw, the trend
      strategy none; the ORDER_REQUEST, if any, comes back. A strategy that raises publishes
      nothing (the bus swallows the error). */
  function StrategyStep(w: World, data: Payload, o: Oracle): (r: (World, seq<Event>))
    ensures |r.1| <= 1
    ensures |r.1| == 1 ==> r.1[0].kind == OrderRequest
    ensures r.0.drawsUsed == w.drawsUsed + (if w.strategy.logic.RandomLogic? then 1 else 0)
    ensures r.0.bus == w.bus && r.0.execution == w.execution && r.0.market == w.market
    ensures r.0.trades == w.trades && r.0.equity == w.equity
    ensures r.0.portfolio == w.portfolio && r.0.lastPrice == w.lastPrice && r.0.slept == w.slept
  {
    var step := StrategyBase.OnCandleEvent(w.strategy, data, o.draw(w.drawsUsed));
    var used := if w.strategy.logic.RandomLogic? then w.drawsUsed + 1 else w.drawsUsed;
    (w.(strategy := step.0, drawsUsed := used), if step.1.Ok? && step.1.value.Some? then [step.1.value.value] else [])
  }

  /** The execution agent's `_on_order_request`: counted, and when the agent holds the market,
      handed to `process_order`, which takes a fresh id when the order has none; the fill's two
      publications come back. */
  function ExecStep(w: World, data: Payload, o: Oracle): (r: (World, seq<Event>))
    ensures r.0.execution.bound == w.execution.bound
    ensures r.0.execution.agent.events == w.execution.agent.events + 1
    ensures !w.execution.bound ==> r.1 == []
    ensures forall e :: e in r.1 ==> e.kind == OrderFilled || e.kind == ExecutionResult
    ensures r.0.bus == w.bus && r.0.market == w.market && r.0.trades == w.trades && r.0.equity == w.equity
    ensures r.0.portfolio == w.portfolio && r.0.lastPrice == w.lastPrice && r.0.slept == w.slept
  {
    var (e', fwd) := ExecutionAgent.OnOrderRequest(w.execution, data);
    if fwd.None? then (w.(execution := e'), [])
    else
      var (drew, res) := FakeMarket.ProcessOrder(w.market, fwd.value, o.freshId(w.idsUsed));
      (w.(execution := e', idsUsed := if drew then w.idsUsed + 1 else w.idsUsed), if res.Ok? then res.value else [])
  }

  /** The portfolio agent's `_on_tick`: one more event counted. */
  function TickStep(w: World): (r: World)
    ensures r.portfolio.events == w.portfolio.events + 1
    ensures r.bus == w.bus && r.execution == w.execution && r.trades == w.trades && r.equity == w.equity
  {
    w.(portfolio := BaseAgent.LogEvent(w.portfolio))
  }

  /** Every component of the world is running. */
  predicate Live(w: World)
  {
    w.market.running && w.market.feed.running && w.execution.agent.running && w.portfolio.running && w.strategy.running
  }

  /** Running one handler on one event: the world it leaves and the events it publishes, in
      the order it publishes them. Every handler here changes its state before its first
      publication, so delivering those publications afterwards is the order the program has. */
  function Invoke(w: World, h: Handler, ev: Event, o: Oracle): (r: (World, seq<Event>))
    ensures r.0.bus == w.bus && r.0.registry == w.registry && r.0.execution.bound == w.execution.bound
    ensures Live(r.0) == Live(w)
  {
    match h
    case FeedCandle => FeedStep(w, ev.data)
    case EnginePrice => (OnPrice(w, ev.data), [])
    case EngineFill => (OnFill(w, ev.data), [])
    case PortfolioTick => (TickStep(w), [])
    case StrategyCandle => StrategyStep(w, ev.data, o)
    case ExecOrder => ExecStep(w, ev.data, o)
  }

  // ---------------------------------------------------------------------------------------
  // Publishing through the bus
  // ---------------------------------------------------------------------------------------

  /** The world with one more event counted by the bus. */
  function Counted(w: World): World
  {
    w.(bus := Announce(w.bus))
  }

  /** `publish`: one more event counted, then the kind's handlers run in list order. `fuel`
      bounds the nesting of publications; with none left the event is counted and not
      delivered. No handler of the backtest subscribes or unsubscribes, so the list as it
      stands at the call is the list the loop walks. */
  function Publish(w: World, ev: Event, o: Oracle, fuel: nat): (r: World)
    ensures r.bus.subscribers == w.bus.subscribers && r.registry == w.registry
    ensures r.execution.bound == w.execution.bound
    ensures Live(r) == Live(w)
    ensures r.bus.published > w.bus.published
    decreases fuel, 0, 0
  {
    if fuel == 0 then Counted(w) else Deliver(Counted(w), HandlersOf(w.bus, ev.kind), ev, o, fuel - 1)
  }

  /** The delivery loop: each handler runs, then what it published is published in turn. */
  function Deliver(w: World, hs: seq<Handler>, ev: Event, o: Oracle, fuel: nat): (r: World)
    ensures r.bus.subscribers == w.bus.subscribers && r.registry == w.registry
    ensures r.execution.bound == w.execution.bound
    ensures Live(r) == Live(w)
    ensures r.bus.published >= w.bus.published
    decreases fuel, 2, |hs|
  {
    if hs == [] then w
    else
      var (w1, out) := Invoke(w, hs[0], ev, o);
      Deliver(PublishAll(w1, out, o, fuel), hs[1..], ev, o, fuel)
  }

  function PublishAll(w: World, evs: seq<Event>, o: Oracle, fuel: nat): (r: World)
    ensures r.bus.subscribers == w.bus.subscribers && r.registry == w.registry
    ensures r.execution.bound == w.execution.bound
    ensures Live(r) == Live(w)
    ensures r.bus.published >= w.bus.published + |evs|
    decreases fuel, 1, |evs|
  {
    if evs == [] then w else PublishAll(Publish(w, evs[0], o, fuel), evs[1..], o, fuel)
  }

  /** Performing a replayer trace: sleeps add up, publications go through the bus. */
  function Perform(w: World, trace: seq<Replayer.Action>, o: Oracle): (r: World)
    ensures r.bus.subscribers == w.bus.subscribers && r.registry == w.registry
    ensures r.execution.bound == w.execution.bound
    ensures Live(r) == Live(w)
    decreases |trace|
  {
    if trace == [] then w
    else
      var w1 := match trace[0]
        case Sleep(d) => w.(slept := w.slept + d)
        case Publish(ev) => Publish(w, ev, o, Depth);
      Perform(w1, trace[1..], o)
  }

  // ---------------------------------------------------------------------------------------
  // The same run without the bus
  // ---------------------------------------------------------------------------------------

  /** The payloads of the ORDER_FILLED events among `evs`, in order. */
  function Fills(evs: seq<Event>): (r: seq<Payload>)
    ensures |r| <= |evs|
  {
    if evs == [] then [] else (if evs[0].kind == OrderFilled then [evs[0].data] else []) + Fills(evs[1..])
  }

  /** The fills are exactly the payloads of the ORDER_FILLED events: each such payload is
      among them, each of them comes from one, and there are none without one. */
  lemma {:induction false} FillsAreFilledPayloads(evs: seq<Event>)
    ensures forall e :: e in evs && e.kind == OrderFilled ==> e.data in Fills(evs)
    ensures forall p :: p in Fills(evs) ==> exists e :: e in evs && e.kind == OrderFilled && e.data == p
    ensures Fills(evs) == [] <==> forall e :: e in evs ==> e.kind != OrderFilled
    decreases |evs|
  {
    if evs != [] {
      FillsAreFilledPayloads(evs[1..]);
      assert forall e :: e in evs <==> e == evs[0] || e in evs[1..];
    }
  }

  /** The fills keep the order of their events: those of a later batch come after. */
  lemma {:induction false} FillsAppend(a: seq<Event>, b: seq<Event>)
    ensures Fills(a + b) == Fills(a) + Fills(b)
    decreases |a|
  {
    if a != [] {
      var head := if a[0].kind == OrderFilled then [a[0].data] else [];
      assert (a + b)[0] == a[0] && (a + b)[1..] == a[1..] + b;
      FillsAppend(a[1..], b);
      calc {
        Fills(a + b);
        head + Fills(a[1..] + b);
        head + (Fills(a[1..]) + Fills(b));
        (head + Fills(a[1..])) + Fills(b);
        Fills(a) + Fills(b);
      }
    } else {
      assert a + b == b;
    }
  }

  /** The market's publications once routed: an ORDER_FILLED reaches `_on_fill`, an
      EXECUTION_RESULT reaches nobody; each is counted. The trades grow by exactly the fills. */
  function Settle(w: World, evs: seq<Event>): (r: World)
    ensures r.bus.subscribers == w.bus.subscribers && r.execution == w.execution
    ensures r.trades == w.trades + Fills(evs)
    ensures r.equity == w.equity && r.portfolio == w.portfolio && r.lastPrice == w.lastPrice && r.slept == w.slept
    decreases |evs|
  {
    if evs == [] then w
    else
      var w1 := if evs[0].kind == OrderFilled then OnFill(Counted(w), evs[0].data) else Counted(w);
      var r := Settle(w1, evs[1..]);
      assert r.trades == w.trades + ((if evs[0].kind == OrderFilled then [evs[0].data] else []) + Fills(evs[1..]));
      r
  }

  /** What an order request does once routed: the execution agent's step, then its fill's
      publications settle. */
  function OrderFlow(w: World, order: Event, o: Oracle): (r: World)
    ensures r.bus.subscribers == w.bus.subscribers && r.execution.bound == w.execution.bound
    ensures r.equity == w.equity && r.portfolio == w.portfolio && r.lastPrice == w.lastPrice && r.slept == w.slept
  {
    var step := ExecStep(Counted(w), order.data, o);
    Settle(step.0, step.1)
  }

  /** What a CANDLE_EVENT does once routed: the strategy's step, and its order request, if
      any, flows on. */
  function CandleEventFlow(w: World, ev: Event, o: Oracle): (r: World)
    ensures r.bus.subscribers == w.bus.subscribers && r.execution.bound == w.execution.bound
    ensures r.equity == w.equity && r.portfolio == w.portfolio && r.lastPrice == w.lastPrice && r.slept == w.slept
  {
    var step := StrategyStep(Counted(w), ev.data, o);
    if step.1 == [] then step.0 else OrderFlow(step.0, step.1[0], o)
  }

  /** What a FAKE_CANDLE does once routed: the feed's step; its PRICE_UPDATE reaches
      `_on_price`, then its CANDLE_EVENT flows on. */
  function CandleFlow(w: World, data: Payload, o: Oracle): (r: World)
    ensures r.bus.subscribers == w.bus.subscribers && r.execution.bound == w.execution.bound
    ensures r.lastPrice == Get(data, "close", Num(0.0))
    ensures r.equity == w.equity + [Sample(r.lastPrice)]
    ensures r.portfolio == w.portfolio && r.slept == w.slept
  {
    var step := FeedStep(Counted(w), data);
    CandleEventFlow(OnPrice(Counted(step.0), step.1[0].data), step.1[1], o)
  }

  /** One candle of `replay`, written out: FAKE_CANDLE flows, TICK reaches the portfolio
      agent, then the pause. */
  function CandleStep(w: World, c: Candles.Candle, o: Oracle): (r: World)
    ensures r.bus.subscribers == w.bus.subscribers && r.execution.bound == w.execution.bound
    ensures r.lastPrice == Num(c.close) && r.equity == w.equity + [Sample(Num(c.close))]
    ensures r.portfolio.events == w.portfolio.events + 1 && r.slept == w.slept + Replayer.Pause
  {
    var w1 := TickStep(Counted(CandleFlow(w, Candles.ToDict(c), o)));
    w1.(slept := w1.slept + Replayer.Pause)
  }

  /** The candles one after another. */
  function Reference(w: World, candles: seq<Candles.Candle>, o: Oracle): (r: World)
    ensures r.bus.subscribers == w.bus.subscribers && r.execution.bound == w.execution.bound
  {
    if candles == [] then w
    else
      var n := |candles| - 1;
      CandleStep(Reference(w, candles[..n], o), candles[n], o)
  }

  // ---------------------------------------------------------------------------------------
  // The bus delivers as written out
  // ---------------------------------------------------------------------------------------

  /** Routing depends on the handler table and the binding alone. */
  lemma WiredKeeps(w: World, w': World)
    requires Wired(w) && w'.bus.subscribers == w.bus.subscribers && w'.execution.bound
    ensures Wired(w')
  {
    forall k ensures HandlersOf(w'.bus, k) == Route(k) {
      assert HandlersOf(w'.bus, k) == HandlersOf(w.bus, k);
    }
  }

  /** A kind with one subscriber: that handler runs on the counted world, and what it
      published is published next, one level deeper. */
  lemma {:induction false} DeliverOne(w: World, ev: Event, o: Oracle, fuel: nat, h: Handler)
    requires HandlersOf(w.bus, ev.kind) == [h] && fuel >= 1
    ensures Publish(w, ev, o, fuel) ==
      PublishAll(Invoke(Counted(w), h, ev, o).0, Invoke(Counted(w), h, ev, o).1, o, fuel - 1)
  {
    var r := Invoke(Counted(w), h, ev, o);
    assert [h][1..] == [];
    assert Deliver(Counted(w), [h], ev, o, fuel - 1) == Deliver(PublishAll(r.0, r.1, o, fuel - 1), [], ev, o, fuel - 1);
  }

  lemma {:induction false} FillRouted(w: World, ev: Event, o: Oracle, fuel: nat)
    requires Wired(w) && ev.kind == OrderFilled && fuel >= 1
    ensures Publish(w, ev, o, fuel) == OnFill(Counted(w), ev.data)
  {
    DeliverOne(w, ev, o, fuel, EngineFill);
  }

  lemma {:induction false} ResultRouted(w: World, ev: Event, o: Oracle, fuel: nat)
    requires Wired(w) && ev.kind == ExecutionResult
    ensures Publish(w, ev, o, fuel) == Counted(w)
  {
    assert HandlersOf(w.bus, ev.kind) == [];
  }

  /** Publications whose kinds only `_on_fill` or nobody hears settle without going deeper. */
  lemma {:induction false} SettleRouted(w: World, evs: seq<Event>, o: Oracle, fuel: nat)
    requires Wired(w) && fuel >= 1
    requires forall e :: e in evs ==> e.kind == OrderFilled || e.kind == ExecutionResult
    ensures PublishAll(w, evs, o, fuel) == Settle(w, evs)
    decreases |evs|
  {
    if evs != [] {
      var w1 := Publish(w, evs[0], o, fuel);
      if evs[0].kind == OrderFilled {
        FillRouted(w, evs[0], o, fuel);
      } else {
        ResultRouted(w, evs[0], o, fuel);
      }
      WiredKeeps(w, w1);
      assert forall e :: e in evs[1..] ==> e in evs;
      SettleRouted(w1, evs[1..], o, fuel);
    }
  }

  lemma InvokeExec(w: World, ev: Event, o: Oracle)
    ensures Invoke(w, ExecOrder, ev, o) == ExecStep(w, ev.data, o)
  {
  }

  lemma OrderDelivered(w: World, ev: Event, o: Oracle, fuel: nat)
    requires Wired(w) && ev.kind == OrderRequest && fuel >= 1
    ensures var step := ExecStep(Counted(w), ev.data, o);
      Publish(w, ev, o, fuel) == PublishAll(step.0, step.1, o, fuel - 1)
  {
    DeliverOne(w, ev, o, fuel, ExecOrder);
    InvokeExec(Counted(w), ev, o);
  }

  /** What the execution agent publishes for an order settles on the still wired world. */
  lemma {:induction false} ExecSettles(w: World, ev: Event, o: Oracle, fuel: nat)
    requires Wired(w) && fuel >= 1
    ensures var step := ExecStep(Counted(w), ev.data, o);
      PublishAll(step.0, step.1, o, fuel) == Settle(step.0, step.1)
  {
    var step := ExecStep(Counted(w), ev.data, o);
    WiredKeeps(w, step.0);
    SettleRouted(step.0, step.1, o, fuel);
  }

  /** An order request's single subscriber is the execution agent; its publications, when the
      order fills, are delivered before `publish` returns. */
  lemma {:induction false} OrderRouted(w: World, ev: Event, o: Oracle, fuel: nat)
    requires Wired(w) && ev.kind == OrderRequest && fuel >= 2
    ensures Publish(w, ev, o, fuel) == OrderFlow(w, ev, o)
  {
    var step := ExecStep(Counted(w), ev.data, o);
    calc {
      Publish(w, ev, o, fuel);
      { OrderDelivered(w, ev, o, fuel); }
      PublishAll(step.0, step.1, o, fuel - 1);
      { ExecSettles(w, ev, o, fuel - 1); }
      Settle(step.0, step.1);
      { OrderFlowUnfolds(w, ev, o); }
      OrderFlow(w, ev, o);
    }
  }

  lemma OrderFlowUnfolds(w: World, ev: Event, o: Oracle)
    ensures var step := ExecStep(Counted(w), ev.data, o);
      OrderFlow(w, ev, o) == Settle(step.0, step.1)
  {
  }

  lemma InvokeStrategy(w: World, ev: Event, o: Oracle)
    ensures Invoke(w, StrategyCandle, ev, o) == StrategyStep(w, ev.data, o)
  {
  }

  lemma InvokeFeed(w: World, ev: Event, o: Oracle)
    ensures Invoke(w, FeedCandle, ev, o) == FeedStep(w, ev.data)
  {
  }

  /** Publishing two events is publishing one, then the other. */
  lemma PublishTwo(w: World, a: Event, b: Event, o: Oracle, fuel: nat)
    ensures PublishAll(w, [a, b], o, fuel) == Publish(Publish(w, a, o, fuel), b, o, fuel)
  {
    assert [a, b][1..] == [b] && [b][1..] == [];
    var w1 := Publish(w, a, o, fuel);
    assert PublishAll(w, [a, b], o, fuel) == PublishAll(w1, [b], o, fuel);
    assert PublishAll(w1, [b], o, fuel) == PublishAll(Publish(w1, b, o, fuel), [], o, fuel);
  }

  lemma {:induction false} PriceRouted(w: World, ev: Event, o: Oracle, fuel: nat)
    requires Wired(w) && ev.kind == PriceUpdate && fuel >= 1
    ensures Publish(w, ev, o, fuel) == OnPrice(Counted(w), ev.data)
  {
    DeliverOne(w, ev, o, fuel, EnginePrice);
  }

  lemma {:induction false} TickRouted(w: World, ev: Event, o: Oracle, fuel: nat)
    requires Wired(w) && ev.kind == Tick && fuel >= 1
    ensures Publish(w, ev, o, fuel) == TickStep(Counted(w))
  {
    DeliverOne(w, ev, o, fuel, PortfolioTick);
  }

  /** The strategy's order request, if it made one, flows on the still wired world. */
  lemma {:induction false} StrategySettles(w: World, ev: Event, o: Oracle, fuel: nat)
    requires Wired(w) && fuel >= 2
    ensures var step := StrategyStep(Counted(w), ev.data, o);
      PublishAll(step.0, step.1, o, fuel) == (if step.1 == [] then step.0 else OrderFlow(step.0, step.1[0], o))
  {
    var step := StrategyStep(Counted(w), ev.data, o);
    if step.1 != [] {
      WiredKeeps(w, step.0);
      OrderRouted(step.0, step.1[0], o, fuel);
      assert step.1[1..] == [];
    }
  }

  /** A CANDLE_EVENT's single subscriber is the strategy. */
  lemma {:induction false} CandleEventRouted(w: World, ev: Event, o: Oracle, fuel: nat)
    requires Wired(w) && ev.kind == CandleEvent && fuel >= 3
    ensures Publish(w, ev, o, fuel) == CandleEventFlow(w, ev, o)
  {
    DeliverOne(w, ev, o, fuel, StrategyCandle);
    InvokeStrategy(Counted(w), ev, o);
    StrategySettles(w, ev, o, fuel - 1);
  }

  /** The feed's PRICE_UPDATE reaches `_on_price`, then its CANDLE_EVENT flows on. */
  lemma {:induction false} FeedSettles(w: World, data: Payload, o: Oracle, fuel: nat)
    requires Wired(w) && fuel >= 3
    ensures var step := FeedStep(Counted(w), data);
      PublishAll(step.0, step.1, o, fuel) == CandleFlow(w, data, o)
  {
    var step := FeedStep(Counted(w), data);
    assert step.1 == [step.1[0], step.1[1]];
    PublishTwo(step.0, step.1[0], step.1[1], o, fuel);
    WiredKeeps(w, step.0);
    PriceRouted(step.0, step.1[0], o, fuel);
    var w2 := OnPrice(Counted(step.0), step.1[0].data);
    WiredKeeps(w, w2);
    CandleEventRouted(w2, step.1[1], o, fuel);
  }

  /** A FAKE_CANDLE's single subscriber is the market's feed. */
  lemma {:induction false} CandleRouted(w: World, ev: Event, o: Oracle, fuel: nat)
    requires Wired(w) && ev.kind == FakeCandle && fuel >= 4
    ensures Publish(w, ev, o, fuel) == CandleFlow(w, ev.data, o)
  {
    DeliverOne(w, ev, o, fuel, FeedCandle);
    InvokeFeed(Counted(w), ev, o);
    FeedSettles(w, ev.data, o, fuel - 1);
  }

  // ---------------------------------------------------------------------------------------
  // Replaying through the bus is the written-out run
  // ---------------------------------------------------------------------------------------

  /** Two publications and a pause, performed. */
  lemma PerformThree(w: World, t: seq<Replayer.Action>, a: Event, b: Event, d: real, o: Oracle)
    requires |t| == 3 && t[0] == Replayer.Publish(a) && t[1] == Replayer.Publish(b) && t[2] == Replayer.Sleep(d)
    ensures var w2 := Publish(Publish(w, a, o, Depth), b, o, Depth);
      Perform(w, t, o) == w2.(slept := w2.slept + d)
  {
    var w1 := Publish(w, a, o, Depth);
    var w2 := Publish(w1, b, o, Depth);
    assert Perform(w, t, o) == Perform(w1, t[1..], o);
    assert Perform(w1, t[1..], o) == Perform(w2, t[2..], o);
    assert Perform(w2, t[2..], o) == Perform(w2.(slept := w2.slept + d), t[3..], o);
  }

  /** A candle's FAKE_CANDLE then its TICK, through the bus, then the pause: `CandleStep`. */
  lemma CandleThenTick(w: World, c: Candles.Candle, o: Oracle)
    requires Wired(w)
    ensures var w1 := Publish(w, Event(FakeCandle, Candles.ToDict(c), Replayer.Source), o, Depth);
      var w2 := Publish(w1, Event(Tick, map["tick_number" := Num(c.timestamp)], Replayer.Source), o, Depth);
      w2.(slept := w2.slept + Replayer.Pause) == CandleStep(w, c, o)
  {
    var a := Event(FakeCandle, Candles.ToDict(c), Replayer.Source);
    var t := Event(Tick, map["tick_number" := Num(c.timestamp)], Replayer.Source);
    CandleRouted(w, a, o, Depth);
    var w1 := CandleFlow(w, a.data, o);
    WiredKeeps(w, w1);
    TickRouted(w1, t, o, Depth);
  }

  /** One candle's steps of `replay` do on a wired world what `CandleStep` writes out. */
  lemma {:induction false} PerformStep(w: World, c: Candles.Candle, o: Oracle)
    requires Wired(w)
    ensures Perform(w, Replayer.ReplayStep(c), o) == CandleStep(w, c, o)
  {
    var a := Event(FakeCandle, Candles.ToDict(c), Replayer.Source);
    var b := Event(Tick, map["tick_number" := Num(c.timestamp)], Replayer.Source);
    PerformThree(w, Replayer.ReplayStep(c), a, b, Replayer.Pause, o);
    CandleThenTick(w, c, o);
  }

  /** Performing a trace in two parts is performing it whole. */
  lemma {:induction false} PerformAppend(w: World, t1: seq<Replayer.Action>, t2: seq<Replayer.Action>, o: Oracle)
    ensures Perform(w, t1 + t2, o) == Perform(Perform(w, t1, o), t2, o)
    decreases |t1|
  {
    if t1 != [] {
      assert (t1 + t2)[0] == t1[0] && (t1 + t2)[1..] == t1[1..] + t2;
      var w1 := match t1[0]
        case Sleep(d) => w.(slept := w.slept + d)
        case Publish(ev) => Publish(w, ev, o, Depth);
      PerformAppend(w1, t1[1..], t2, o);
    } else {
      assert t1 + t2 == t2;
    }
  }

  /** `run`'s replay: on the wired world, replaying the candles through the bus ends in the
      world `Reference` writes out candle by candle, without a bus. */
  lemma {:induction false} ReplayIsReference(w: World, candles: seq<Candles.Candle>, o: Oracle)
    requires Wired(w)
    ensures Perform(w, Replayer.Replay(candles), o) == Reference(w, candles, o)
    decreases |candles|
  {
    if candles != [] {
      var n := |candles| - 1;
      var init := candles[..n];
      assert Replayer.Replay(candles) == Replayer.Replay(init) + Replayer.ReplayStep(candles[n]);
      PerformAppend(w, Replayer.Replay(init), Replayer.ReplayStep(candles[n]), o);
      ReplayIsReference(w, init, o);
      var mid := Reference(w, init, o);
      WiredKeeps(w, mid);
      PerformStep(mid, candles[n], o);
    }
  }

  // ---------------------------------------------------------------------------------------
  // What a run accounts for
  // ---------------------------------------------------------------------------------------

  lemma ReferenceSnoc(w: World, candles: seq<Candles.Candle>, o: Oracle)
    requires candles != []
    ensures Reference(w, candles, o) == CandleStep(Reference(w, candles[..|candles| - 1], o), candles[|candles| - 1], o)
  {
  }

  /** The samples a run's candles put on the equity curve: each candle's close, in order. */
  function Curve(candles: seq<Candles.Candle>): (r: seq<Payload>)
    ensures |r| == |candles|
    ensures forall i :: 0 <= i < |candles| ==> r[i] == Sample(Num(candles[i].close))
  {
    seq(|candles|, i requires 0 <= i < |candles| => Sample(Num(candles[i].close)))
  }

  lemma CurveSnoc(candles: seq<Candles.Candle>)
    requires candles != []
    ensures Curve(candles) == Curve(candles[..|candles| - 1]) + [Sample(Num(candles[|candles| - 1].close))]
  {
    var n := |candles| - 1;
    assert forall i :: 0 <= i < n ==> candles[..n][i] == candles[i];
  }

  /** The equity curve keeps what it had and gains one sample per candle, holding that
      candle's close. */
  lemma {:induction false} ReferenceEquity(w: World, candles: seq<Candles.Candle>, o: Oracle)
    ensures Reference(w, candles, o).equity == w.equity + Curve(candles)
    decreases |candles|
  {
    if candles != [] {
      var n := |candles| - 1;
      var init, c := candles[..n], candles[n];
      ReferenceEquity(w, init, o);
      ReferenceSnoc(w, candles, o);
      CurveSnoc(candles);
      SnocAssociates(w.equity, Curve(init), Sample(Num(c.close)));
    }
  }

  lemma SnocAssociates(a: seq<Payload>, b: seq<Payload>, x: Payload)
    ensures a + b + [x] == a + (b + [x])
  {
  }

  /** The portfolio agent counts one tick per candle, and the pauses add up. */
  lemma {:induction false} ReferenceTicks(w: World, candles: seq<Candles.Candle>, o: Oracle)
    ensures Reference(w, candles, o).portfolio.events == w.portfolio.events + |candles|
    ensures Reference(w, candles, o).slept == w.slept + |candles| as real * Replayer.Pause
    decreases |candles|
  {
    if candles != [] {
      var n := |candles| - 1;
      ReferenceTicks(w, candles[..n], o);
      ReferenceSnoc(w, candles, o);
    }
  }

  /** The market's two publications for a fill hold one fill. */
  lemma FillsOfProcessed(evs: seq<Event>)
    requires |evs| == 2 && evs[0].kind == OrderFilled && evs[1].kind == ExecutionResult
    ensures Fills(evs) == [evs[0].data]
  {
    assert evs[1..][1..] == [];
  }

  /** With the market held, the execution agent's step is `process_order` on the order, with
      the next fresh id, which is used up only when the order had no id; without it the order
      goes nowhere. */
  lemma ExecStepIsProcessOrder(w: World, data: Payload, o: Oracle)
    ensures var res := FakeMarket.ProcessOrder(w.market, data, o.freshId(w.idsUsed)).1;
      ExecStep(w, data, o).1 == (if w.execution.bound && res.Ok? then res.value else [])
    ensures ExecStep(w, data, o).0.idsUsed == w.idsUsed + (if w.execution.bound && "order_id" !in data then 1 else 0)
  {
  }

  /** One order request records at most one trade, after the ones already recorded. */
  lemma OrderFlowTrades(w: World, order: Event, o: Oracle)
    ensures var t := OrderFlow(w, order, o).trades;
      w.trades <= t && |t| <= |w.trades| + 1
  {
    var step := ExecStep(Counted(w), order.data, o);
    ExecStepIsProcessOrder(Counted(w), order.data, o);
    if step.1 != [] {
      FillsOfProcessed(step.1);
    }
  }

  /** One candle records at most one trade, after the ones already recorded. */
  lemma CandleStepTrades(w: World, c: Candles.Candle, o: Oracle)
    ensures var t := CandleStep(w, c, o).trades;
      w.trades <= t && |t| <= |w.trades| + 1
  {
    var feed := FeedStep(Counted(w), Candles.ToDict(c));
    var w2 := OnPrice(Counted(feed.0), feed.1[0].data);
    var strat := StrategyStep(Counted(w2), feed.1[1].data, o);
    if strat.1 != [] {
      OrderFlowTrades(strat.0, strat.1[0], o);
    }
  }

  /** Over the candles, at most one trade each, after the ones already recorded. */
  lemma {:induction false} ReferenceTrades(w: World, candles: seq<Candles.Candle>, o: Oracle)
    ensures var t := Reference(w, candles, o).trades;
      w.trades <= t && |t| <= |w.trades| + |candles|
    decreases |candles|
  {
    if candles != [] {
      var n := |candles| - 1;
      ReferenceTrades(w, candles[..n], o);
      ReferenceSnoc(w, candles, o);
      CandleStepTrades(Reference(w, candles[..n], o), candles[n], o);
    }
  }

  // ---------------------------------------------------------------------------------------
  // The total return and `run`
  // ---------------------------------------------------------------------------------------

  /** One trade's signed amount: a BUY spends quantity times price, any other side earns it.
      A missing quantity or price reads 0.0; one that is not a number raises. */
  function Signed(t: Payload): Result<real>
  {
    var qty := AsNumber(Get(t, "quantity", Num(0.0)));
    var price := AsNumber(Get(t, "price", Num(0.0)));
    if qty.Raised? || price.Raised? then Raised(TypeError)
    else if Get(t, "side", Null) == Str("BUY") then Ok(-(qty.value * price.value))
    else Ok(qty.value * price.value)
  }

  /** The signed amounts added up, or the error of the first trade that raises. */
  function SignedSum(trades: seq<Payload>): Result<real>
  {
    if trades == [] then Ok(0.0)
    else
      match Signed(trades[0])
      case Raised(e) => Raised(e)
      case Ok(x) =>
        match SignedSum(trades[1..])
        case Raised(e) => Raised(e)
        case Ok(y) => Ok(x + y)
  }

  /** `_total_return`: 0.0 without trades, otherwise the running sum over the trades in
      order, which is the signed sum. */
  method TotalReturn(trades: seq<Payload>) returns (r: Result<real>)
    ensures r == SignedSum(trades)
  {
    if |trades| == 0 {
      return Ok(0.0);
    }
    var pnl := 0.0;
    var i := 0;
    while i < |trades|
      invariant 0 <= i <= |trades|
      invariant SignedSum(trades) == (match SignedSum(trades[i..]) case Raised(e) => Raised(e) case Ok(y) => Ok(pnl + y))
    {
      assert trades[i..][0] == trades[i] && trades[i..][1..] == trades[i + 1..];
      var s := Signed(trades[i]);
      if s.Raised? {
        return Raised(TypeError);
      }
      pnl := pnl + s.value;
      i := i + 1;
    }
    return Ok(pnl);
  }

  /** The total return raises exactly when some trade's quantity or price is not a number. */
  lemma {:induction false} SignedSumRaisesIff(trades: seq<Payload>)
    ensures SignedSum(trades).Raised? <==> exists i :: 0 <= i < |trades| && Signed(trades[i]).Raised?
    ensures SignedSum(trades).Raised? ==> SignedSum(trades).error == TypeError
  {
    if trades != [] {
      SignedSumRaisesIff(trades[1..]);
      if Signed(trades[0]).Ok? {
        forall i | 0 <= i < |trades| && Signed(trades[i]).Raised?
          ensures 0 <= i - 1 < |trades[1..]| && Signed(trades[1..][i - 1]).Raised?
        {
        }
      } else {
        assert Signed(trades[0]).Raised?;
      }
    }
  }

  /** The total over two runs of trades is the sum of their totals. */
  lemma {:induction false} SignedSumAppend(a: seq<Payload>, b: seq<Payload>)
    requires SignedSum(a).Ok? && SignedSum(b).Ok?
    ensures SignedSum(a + b) == Ok(SignedSum(a).value + SignedSum(b).value)
  {
    if a == [] {
      assert a + b == b;
    } else {
      assert (a + b)[0] == a[0] && (a + b)[1..] == a[1..] + b;
      SignedSumAppend(a[1..], b);
    }
  }

  /** What `run` returns. */
  datatype Outcome = Outcome(trades: seq<Payload>, equityCurve: seq<Payload>, totalReturn: real, numTrades: nat)

  /** The world after `run`'s replay, before the stops. */
  function Replayed(candles: seq<Candles.Candle>, strategyName: string, o: Oracle): World
  {
    Perform(Started(strategyName), Replayer.Replay(candles), o)
  }

  /** `run`: the starts, the replay, the stops, then the report; the report raises when the
      total return does. */
  function Run(candles: seq<Candles.Candle>, strategyName: string, o: Oracle): (r: (World, Result<Outcome>))
  {
    var w := StopAll(Replayed(candles, strategyName, o));
    var total := SignedSum(w.trades);
    (w, if total.Ok? then Ok(Outcome(w.trades, w.equity, total.value, |w.trades|)) else Raised(total.error))
  }

  /** Every component is running once `run` has started them. */
  lemma StartedIsLive(strategyName: string)
    ensures Live(Started(strategyName))
  {
  }

  /** The replay's world is the written-out one, from the started world. */
  lemma ReplayedIsReference(candles: seq<Candles.Candle>, strategyName: string, o: Oracle)
    ensures Replayed(candles, strategyName, o) == Reference(Started(strategyName), candles, o)
    ensures Wired(Replayed(candles, strategyName, o)) && Live(Replayed(candles, strategyName, o))
  {
    StartedIsWired(strategyName);
    StartedIsLive(strategyName);
    ReplayIsReference(Started(strategyName), candles, o);
    WiredKeeps(Started(strategyName), Replayed(candles, strategyName, o));
  }

  /** `run`'s report: one equity sample per candle, holding its close, and at most one trade
      per candle; the trade count is the number of trades; the total is the signed sum, and the
      report raises exactly when some trade's quantity or price is not a number. */
  lemma RunReport(candles: seq<Candles.Candle>, strategyName: string, o: Oracle)
    ensures var w := Run(candles, strategyName, o).0;
      w.equity == Curve(candles) && |w.trades| <= |candles|
    ensures var r := Run(candles, strategyName, o);
      r.1.Ok? <==> forall i :: 0 <= i < |r.0.trades| ==> Signed(r.0.trades[i]).Ok?
    ensures var r := Run(candles, strategyName, o);
      r.1.Ok? ==> (r.1.value.trades == r.0.trades && r.1.value.equityCurve == Curve(candles) &&
                   r.1.value.numTrades == |r.0.trades| && Ok(r.1.value.totalReturn) == SignedSum(r.0.trades))
  {
    var w0 := Started(strategyName);
    StartedIsWired(strategyName);
    ReplayedIsReference(candles, strategyName, o);
    ReferenceEquity(w0, candles, o);
    ReferenceTrades(w0, candles, o);
    SignedSumRaisesIff(Run(candles, strategyName, o).0.trades);
  }

  /** After `run`, every component is stopped and the bus routes as the constructor left it:
      the engine's own two handlers, and no handler for any kind a component had joined. */
  lemma RunStops(candles: seq<Candles.Candle>, strategyName: string, o: Oracle)
    ensures var w := Run(candles, strategyName, o).0;
      forall k :: HandlersOf(w.bus, k) == HandlersOf(InitialBus(), k)
    ensures var w := Run(candles, strategyName, o).0;
      !w.market.running && !w.execution.agent.running && !w.portfolio.running && !w.strategy.running
  {
    ReplayedIsReference(candles, strategyName, o);
    StopUnwires(Replayed(candles, strategyName, o));
  }
}
