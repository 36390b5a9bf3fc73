# Project Predator: simulation pipeline and platform core, in Dafny

This project models the core of Project Predator, a paper-trading platform written in
Python, and proves properties of the model. It covers two parts.

- **The platform.** The event bus, the component registry, the policy guard, the
  configuration gate, the core engine's lifecycle state machine, the base agent lifecycle,
  and the metrics counters.
- **The simulation and backtest pipeline.** Candles, the historical replayer, the time
  source, the two price feeds, the fake market with its order book, the fake executor, the
  strategy adapter with the trend and random strategies, the simulation strategy, the
  market-scanner and execution agents, the backtest engine and the backtest report.

Every Python dictionary on the bus is a `Payload`, a map from field name to a dynamically
typed `Value`. Arithmetic on a value that is not a number raises, as the Python code would.
That outcome is modelled with a `Result` value, `Raised(TypeError)`. Handlers are pure
functions: each takes a state and returns the new state plus the events it publishes.

The central result is `Backtest.ReplayIsReference`. Driving a replay through the bus gives
the same world as a direct, bus-free fold over the candles, once the constructor and `run`
have wired the components. The bus run uses nested synchronous dispatch, handler lists,
fuel, the market's fills and the strategy's orders. From that equality the model derives:

- what `run` reports (`Backtest.RunReport`);
- that the components are stopped and unsubscribed afterwards (`Backtest.RunStops`);
- that the report on a backtest's curve never raises and reads its figures off the candles'
  closes (`BacktestReport.RunSummary`).

Randomness (`random.random()`), fresh ids (`uuid.uuid4()`) and wall-clock readings are
parameters. The backtest draws them from an `Oracle`. Logging is not modelled.

## Model

| member | source | states |
|---|---|---|
| EventBus.Subscribe | backend/core/event_bus.py:82-85 | The handler goes to the end of its kind's list, created when absent; every other kind's list, the counter, and the key set apart from the new kind stay as they were. |
| EventBus.Unsubscribe | backend/core/event_bus.py:96-101 | An unknown kind or an absent handler leaves the bus unchanged; other kinds' lists, the key set (an emptied list keeps its key) and the counter never change. |
| EventBus.UnsubscribeRemovesFirst | backend/core/event_bus.py:96-98 | `list.remove` semantics: exactly the first copy of the handler leaves, the list is one shorter, and its multiset loses one copy of the handler. |
| EventBus.UnsubscribeSole | backend/core/event_bus.py:96-98 | A kind whose only handler is removed has an empty list afterwards. |
| EventBus.UnsubscribeAfterSubscribe | backend/core/event_bus.py:82-98 | Subscribe then unsubscribe of one handler restores the kind's handlers as a multiset, restores the exact list when the handler was new, and leaves other kinds alone. |
| EventBus.ResubscribeReorders | backend/core/event_bus.py:82-98 | The round trip can reorder: with [1, 2], subscribing and unsubscribing 1 leaves [2, 1], because the earliest copy is removed. |
| EventBus.Dispatch | backend/core/event_bus.py:127-132 | Every handler of the list is called once, in list order, with the event; a raising handler is recorded as failed and the loop goes on. |
| EventBus.Publish | backend/core/event_bus.py:103-132 | The counter grows by one whether or not anyone listens, the table is untouched, and the deliveries follow the kind's handler list one for one. |
| EventBus.EachCopyDelivered | backend/core/event_bus.py:127-130 | A handler subscribed n times to a kind receives the event n times. |
| EventBus.FailureIsIsolated | backend/core/event_bus.py:128-132 | A handler that raises does not stop later handlers from being called, and there are as many deliveries as when nothing raises. |
| EventBus.SubscribeCounts | backend/core/event_bus.py:82-85 | `subscriber_count` grows by one per subscription; `event_types_subscribed` grows by one only for a new kind; the publish counter is unchanged. See also lines 134-140. |
| EventBus.UnsubscribeCounts | backend/core/event_bus.py:96-101 | Removing a present handler lowers `subscriber_count` by one and an absent one by nothing; `event_types_subscribed` never drops, because the key stays. See also lines 134-140. |
| EventBus.DeclaredKindNamed | backend/core/event_bus.py:12-45 | Member lookup over the enum as declared: a found kind has the looked-up name and is none of the five kinds that only the simulation code uses. |
| EventBus.DeclaredEnumMissesUsedKinds | backend/core/event_bus.py:12-45 | As written, a kind's name fails to resolve exactly when it is one of PRICE_UPDATE, FAKE_CANDLE, CANDLE_EVENT, EXECUTION_RESULT and MARKET_REGIME; every declared kind resolves to itself. |
| EventBus.KindNamed | backend/core/event_bus.py:12-45 | Lookup over the completed enum: a found kind always carries the looked-up name. |
| EventBus.KindNameRoundTrip | backend/core/event_bus.py:12-45 | With the completed enum, every kind the code uses resolves by its own value string. |
| Registry.NewRegistry | backend/core/registry.py:17-19 | A fresh registry is well formed and holds no component. |
| Registry.Register | backend/core/registry.py:22-33 | After registering, the name maps to the new component and other names are unaffected; a new name goes to the end of the listing, and an existing name is overwritten in place. |
| Registry.Unregister | backend/core/registry.py:51-67 | True exactly when the name was registered; afterwards it is absent and every other name is unaffected; an unknown name changes nothing. |
| Registry.CountIsListLength | backend/core/registry.py:69-78 | `component_count` equals the length of `list_components`. |
| Registry.RegisterCount | backend/core/registry.py:22-33 | Registering a new name adds one to the count, and overwriting a name adds nothing. See also lines 73-78. |
| PolicyGuard.CheckSystemStart | backend/core/policy_guard.py:54-69 | Allowed exactly when the kill switch is off, so a halt alone does not block a start; one decision is counted, plus one denial when denied; the flags are kept. |
| PolicyGuard.CheckOrderSubmission | backend/core/policy_guard.py:71-95 | Allowed exactly when neither the kill switch nor the halt flag is set; the kill switch reason takes precedence; the counters move as for a start check. |
| PolicyGuard.ActivateKillSwitch | backend/core/policy_guard.py:97-113 | Both flags are set, the counters are kept, and exactly one KILL_SWITCH_ACTIVATED event carrying the reason is published. |
| PolicyGuard.DeactivateKillSwitch | backend/core/policy_guard.py:115-119 | Both flags are cleared, including a halt that came from `halt_system`, and the counters are kept. |
| PolicyGuard.HaltSystem | backend/core/policy_guard.py:121-135 | Only the halt flag is set, and exactly one SYSTEM_ERROR event with the reason and action HALT is published. |
| PolicyGuard.DenialRate | backend/core/policy_guard.py:148 | The rate is denials over max(1, decisions): between 0 and 1 when every denial is also a decision, and the raw denial count when no decision was made. |
| PolicyGuard.HaltBlocksOrdersOnly | backend/core/policy_guard.py:54-95 | After a halt without the kill switch, starts are allowed and orders are not; deactivating the kill switch lifts the halt for orders too. See also lines 115-135. |
| PolicyGuard.KillSwitchBlocksEverything | backend/core/policy_guard.py:54-119 | With the kill switch on, both checks deny until the switch is deactivated. |
| Config.Lower | backend/core/config.py:42-43 | Lower-casing keeps the length and folds each ASCII capital. |
| Config.ParseFlag | backend/core/config.py:42-43 | A flag is set exactly when its text spells "true" in any mix of cases. |
| Config.FlagFromEnvironment | backend/core/config.py:42-43 | An unset variable reads as its default text, and a set one as its own text. |
| Config.Validate | backend/core/config.py:45-63 | In phase 2 or earlier the configuration is valid exactly when neither real-exchange nor real-trading permission is set; after phase 2 it is always valid. |
| Config.DefaultsAreValid | backend/core/config.py:24-63 | The defaults (phase 2, both permissions "false") pass validation, as does any flag text other than "true". |
| CoreEngine.NewEngine | backend/core/engine.py:29-52 | A fresh engine is INIT with a fresh guard and no agent, and the five core components are registered in order, each under its own name. |
| CoreEngine.RegisterAgent | backend/core/engine.py:174-183 | The agent joins the end of the agent list, and the registry maps its name to it while every other name is unaffected; state, guard and trace are kept. |
| CoreEngine.StartAgents | backend/core/engine.py:98-102 | Every agent is started, one start call per agent in registration order. |
| CoreEngine.StopAgents | backend/core/engine.py:149-153 | Every agent is stopped, one stop call per agent in registration order. |
| CoreEngine.Start | backend/core/engine.py:56-123 | A running engine refuses with no change. An invalid configuration leads to ERROR and one SYSTEM_ERROR, without asking the guard. A guard denial leads to ERROR and a SYSTEM_ERROR carrying the guard's reason. Otherwise SYSTEM_BOOT is announced, the agents start in order, the result is RUNNING, and the call reports true. |
| CoreEngine.Stop | backend/core/engine.py:125-167 | A halted engine refuses with no change. From any other state the agents are stopped in order, SYSTEM_SHUTDOWN is announced, the result is HALTED and the call reports true. |
| CoreEngine.HealthCheck | backend/core/engine.py:189-207 | Status is "healthy" exactly when the state is RUNNING and "unhealthy" otherwise; the agents' names are listed in order, along with the phase. |
| CoreEngine.Apply | backend/core/engine.py:56-183 | Any start, stop or registration keeps every agent entry of the registry pointing at an agent of the engine. |
| CoreEngine.ApplyAll | backend/core/engine.py:56-183 | Any sequence of starts, stops and registrations keeps every agent entry of the registry pointing at an agent of the engine. |
| CoreEngine.NeverIdle | backend/core/engine.py:26-183 | Starting from a state other than IDLE or BOOTING, no sequence of starts, stops and registrations ever leaves the engine IDLE or BOOTING. |
| CoreEngine.StopOrderIsStartOrder | backend/core/engine.py:100-101 | Agents are stopped in the same order they were started, not in reverse. See also lines 151-152. |
| CoreEngine.BootThenShutdown | backend/core/engine.py:56-167 | From an engine that is not running, whose agents are all stopped, with a valid configuration and the kill switch off, start then stop gives the trace SYSTEM_BOOT, the agent starts, the agent stops, then SYSTEM_SHUTDOWN. It ends HALTED with every agent as it was before. |
| Metrics.NewCollector | backend/monitor/metrics.py:16-18 | A fresh collector holds no counter. |
| Metrics.Increment | backend/monitor/metrics.py:21-31 | The named counter exists afterwards and equals its old value plus the step, an unseen counter counting as 0. No other counter appears, disappears or changes. |
| Metrics.GetMetrics | backend/monitor/metrics.py:33-35 | The copy has the same names and values as the counters. |
| Metrics.IncrementsAccumulate | backend/monitor/metrics.py:29-31 | Repeated increments add up: the counter grows by the sum of the steps, and every other counter stays put. |
| Metrics.DefaultStepsCount | backend/monitor/metrics.py:21 | k increments with the default step add exactly k. |
| Metrics.IncrementsCommute | backend/monitor/metrics.py:29-31 | Two increments give the same counters in either order. |
| Metrics.SnapshotIsDetached | backend/monitor/metrics.py:35 | A snapshot reads what the counters held when it was taken, and a later snapshot shows the increment on top of it. |
| BaseAgent.Start | backend/agents/base.py:34-47 | Refused with no change when running; otherwise running afterwards and true; name and event count kept. |
| BaseAgent.Stop | backend/agents/base.py:49-62 | Refused with no change when stopped; otherwise stopped afterwards and true; name and event count kept. |
| BaseAgent.LogEvent | backend/agents/base.py:92-99 | Exactly one more event processed, and nothing else changes. |
| BaseAgent.StartStopRoundTrip | backend/agents/base.py:34-74 | Start then stop gives back the stopped agent; a second start is refused; health reports the agent running. |
| Candles.WithoutVolume | backend/market/candle.py:21-28 | Volume defaults to 0.0. |
| Candles.FromRow | backend/market/candle.py:30-32 | With a numeric timestamp the five row numbers land in the candle's fields in order. |
| Candles.ToDict | backend/market/candle.py:34-42 | Exactly the six fields, each holding a number. |
| Candles.Normalize | backend/market/fake_price_feed.py:44-52 | The feed keeps the six fields, each read with a 0.0 default, and drops extra keys. |
| Candles.FromDict | backend/market/candle.py:34-42 | The inverse of `to_dict`, used to read candles back off FAKE_CANDLE events: it gives a candle exactly when each of the six fields (0.0 when missing) is a number, and that candle's dictionary is the normalized input. |
| Candles.RoundTrip | backend/market/candle.py:34-42 | Rebuilding a candle from its own dictionary gives the candle back, and that dictionary is already normalized. |
| OrderBook.NewBook | backend/market/orderbook_stub.py:15-16 | A negative slippage is clamped to 0; any other is kept. |
| OrderBook.FillOrder | backend/market/orderbook_stub.py:18-33 | Raises exactly when the base price (the order's truthy price, else the close) is not a number. Otherwise the fill is FILLED and fake, has the seven listed keys, copies id and side, and defaults the symbol and quantity. Its price is the base moved by the side. |
| OrderBook.SlippageAgainstSide | backend/market/orderbook_stub.py:20-24 | A BUY and a SELL fill equally far either side of the base. For a non-negative base, a BUY fills at or above it and a SELL at or below it; for a negative base the two swap sides. Other sides, and zero slippage, fill at the base. |
| OrderBook.OnePercentExample | backend/market/orderbook_stub.py:18-33 | At 1% slippage on 100, a BUY fills at 101 and a SELL at 99. |
| MarketFeed.Start | backend/market/fake_price_feed.py:23-31 | Refused when running; otherwise running, with its handler added to FAKE_CANDLE. |
| MarketFeed.Stop | backend/market/fake_price_feed.py:33-41 | Refused when stopped; otherwise stopped, with its handler removed from FAKE_CANDLE. |
| MarketFeed.OnCandle | backend/market/fake_price_feed.py:43-64 | The normalized candle is remembered. Exactly two events follow: a PRICE_UPDATE for BTC/USD with the close and timestamp, then a CANDLE_EVENT with the incoming data unchanged. |
| MarketFeed.OnCandleOfCandle | backend/market/fake_price_feed.py:43-64 | For a candle's own dictionary the price update carries its close and timestamp, and the feed remembers that dictionary. |
| FakeMarket.NewMarket | backend/market/fake_market.py:23-29 | A new market is stopped, has a fresh feed and a non-negative slippage. |
| FakeMarket.Start | backend/market/fake_market.py:35-42 | Refused when running; otherwise running, with its feed started as well. |
| FakeMarket.Stop | backend/market/fake_market.py:44-51 | Refused when stopped; otherwise stopped, with its feed stopped as well. |
| FakeMarket.ProcessOrder | backend/market/fake_market.py:53-73 | A fresh id is drawn exactly when the order has no `order_id` key. The fill raises exactly when the order book's base price is not a number. Otherwise the same fill goes out as ORDER_FILLED and then EXECUTION_RESULT, carrying the order's id or the fresh one. |
| FakeMarket.ReferenceCandleChoice | backend/market/fake_market.py:60-71 | With a candle on record whose close reads as a number, an order without a usable price fills at that close moved by slippage. Without one, such an order fills at 0 when it has no price key, and raises when its price is None. |
| FakeMarket.FillsAtLastFeedClose | backend/market/fake_market.py:60-62 | After the feed has handled a candle whose close reads as a number or is missing (then 0.0), an order without a usable price fills at that close, moved by slippage. |
| FakeExecutor.SubmitOrder | backend/execution/fake_executor.py:37-95 | The order is stored under the fresh id as FILLED, with no other entry changed, and the id is returned. ORDER_SUBMITTED then ORDER_FILLED are published; the fill repeats the submission's fields and adds the order's own price and the fake flag. |
| FakeExecutor.CancelOrder | backend/execution/fake_executor.py:97-115 | True exactly for a known id, which becomes CANCELLED whatever its status; unknown ids change nothing. |
| FakeExecutor.GetOrderStatus | backend/execution/fake_executor.py:117-130 | None exactly for an unknown id, otherwise the stored status. |
| FakeExecutor.SubmitThenStatus | backend/execution/fake_executor.py:37-130 | A submitted order's status is FILLED, and after a cancel it is CANCELLED. |
| FakeExecutor.TotalCountsSubmissions | backend/execution/fake_executor.py:48-51 | With distinct fresh ids, `total_orders` grows by the number of submissions. See also lines 132-138. |
| TimeSource.ClampSpeed | backend/simulation/time_source.py:44 | The speed is at least the 0.0001 floor and is either the requested speed or the floor. The floor is the constant at line 20. |
| TimeSource.NewClock | backend/simulation/time_source.py:19-22 | The clock is valid with the clamped speed, and `now` at construction is the starting simulated time. |
| TimeSource.SleepWall | backend/simulation/time_source.py:32-38 | A non-positive sleep takes no wall time; a positive one takes dt/speed wall seconds. |
| TimeSource.SetSpeed | backend/simulation/time_source.py:40-44 | Only the speed changes, to the clamped value; both anchors stay. |
| TimeSource.SleepAdvancesNow | backend/simulation/time_source.py:24-38 | Sleeping a positive dt advances `now` by exactly dt, and a non-positive one does not advance it. |
| TimeSource.SetSpeedRescalesElapsed | backend/simulation/time_source.py:24-44 | Once wall time has passed since construction, changing the speed to a different clamped value rescales the simulated time already elapsed: `now` jumps as if the new speed had held since construction. |
| Replayer.Replay | backend/simulation/historical_replayer.py:23-33 | Three actions per candle in input order: FAKE_CANDLE with its dictionary, TICK with its timestamp, then the fixed pause. |
| Replayer.ReplayIsFaithful | backend/simulation/historical_replayer.py:23-33 | Two publications per candle, and the candles can be read back from the trace, in order. |
| Replayer.Delay | backend/simulation/historical_replayer.py:39-46 | The delay before candle i is non-negative: zero for the first, then the timestamp gap clipped at zero. |
| Replayer.ReplayWithSpacing | backend/simulation/historical_replayer.py:35-46 | Two actions per candle, and nothing for no candles. |
| Replayer.SpacingShape | backend/simulation/historical_replayer.py:42-46 | For each candle: a sleep of its delay, then FAKE_CANDLE; no TICK is published. |
| Replayer.SpacingSpansTheData | backend/simulation/historical_replayer.py:39-46 | For candles in time order, the pauses add up to the span from the first timestamp to the last. |
| Replayer.SpacingIsFaithful | backend/simulation/historical_replayer.py:42-46 | No candle is dropped by the spaced replay. |
| SimFeed.Start | backend/simulation/fake_price_feed.py:28-36 | Refused when running; otherwise running, with its handler added to FAKE_CANDLE. |
| SimFeed.Stop | backend/simulation/fake_price_feed.py:38-46 | Refused when stopped; otherwise stopped, with its handler removed. |
| SimFeed.OnCandle | backend/simulation/fake_price_feed.py:48-56 | Exactly one PRICE_UPDATE with the close (default 0.0) and the symbol (default BTC/USD), marked fake and naming the feed. |
| SimStrategy.Start | backend/simulation/fake_strategy.py:32-40 | Refused when running; otherwise running, with its handler added to MARKET_REGIME. |
| SimStrategy.Stop | backend/simulation/fake_strategy.py:42-50 | Refused when stopped; otherwise stopped, with its handler removed. |
| SimStrategy.OnRegime | backend/simulation/fake_strategy.py:52-72 | A draw is consumed exactly when the signal is not forced. An order goes out exactly when forced or the draw is below 0.3; it is a fake BUY market order of 0.1 for the regime's symbol at its source price. |
| SimStrategy.OnRegimes | backend/simulation/fake_strategy.py:52-72 | Over many regimes, at most one order request per regime, and nothing but order requests. |
| SimStrategy.OnRegimesDrawsFromFront | backend/simulation/fake_strategy.py:52-72 | The draws left after a run of regimes are a suffix of the stream, so the draws used come off its front; with every signal forced, each regime sends an order and no draw is used. |
| MarketScanner.Start | backend/agents/market_scanner/agent.py:26-32 | The base start; when it runs, the tick handler joins TICK and then the price handler joins PRICE_UPDATE. |
| MarketScanner.Stop | backend/agents/market_scanner/agent.py:35-40 | The base stop; when it runs, both handlers leave their lists. |
| MarketScanner.OnTick | backend/agents/market_scanner/agent.py:42-48 | One more event counted, nothing published. |
| MarketScanner.OnPriceUpdate | backend/agents/market_scanner/agent.py:51-69 | One more event counted and exactly one MARKET_REGIME published: RANGE, the update's symbol, its price (None when missing), fake. |
| MarketScanner.StartStopRestoresBus | backend/agents/market_scanner/agent.py:26-40 | Starting then stopping a stopped scanner restores every handler list, provided neither of its handlers was already subscribed. |
| ExecutionAgent.Start | backend/agents/execution/agent.py:28-35 | The base start; when it runs, the handler joins ORDER_REQUEST and the agent binds to a FakeMarket found in the registry. |
| ExecutionAgent.Stop | backend/agents/execution/agent.py:39-42 | The base stop; when it runs, the handler leaves ORDER_REQUEST; the binding is kept. |
| ExecutionAgent.OnOrderRequest | backend/agents/execution/agent.py:44-57 | One more event counted; the order reaches the market exactly when the agent is bound, unchanged, and is dropped otherwise. |
| ExecutionAgent.LateRegistrationNeedsRestart | backend/agents/execution/agent.py:28-35 | A market registered after the start is not used until the agent is stopped and started again. |
| StrategyBase.Build | backend/backtest/backtest_engine.py:48-51 | "fake_random" selects the random strategy and any other name the trend strategy with windows 3 and 8. |
| StrategyBase.Start | backend/strategies/base.py:22-30 | Refused when running; otherwise running, with its handler added to CANDLE_EVENT. |
| StrategyBase.Stop | backend/strategies/base.py:32-40 | Refused when stopped; otherwise stopped, with its handler removed. |
| StrategyBase.OnCandle | backend/strategies/base.py:47-52 | Dispatches to the concrete strategy; only the random strategy reads the draw. See also backend/strategies/fake_strategy_random.py:16-31, backend/strategies/fake_strategy_trend.py:23-53. |
| StrategyBase.OnCandleEvent | backend/strategies/base.py:42-45 | A returned order that is not empty goes out unchanged as one ORDER_REQUEST named after the strategy. No order or an empty one publishes nothing, and a raising strategy raises. |
| RandomStrategy.SideFor | backend/strategies/fake_strategy_random.py:17-23 | A draw below 0.33 picks BUY, one below 0.66 picks SELL, and anything else picks nothing. |
| RandomStrategy.OnCandle | backend/strategies/fake_strategy_random.py:16-31 | An order exactly when the draw is below 0.66: a fake BTC/USD market order of 0.1 at the close, on the drawn side. |
| TrendStrategy.Push | backend/strategies/fake_strategy_trend.py:16-26 | A `deque(maxlen=n)` append: the value goes last, the length never exceeds n, and nothing drops while there is room. |
| TrendStrategy.Average | backend/strategies/fake_strategy_trend.py:20-21 | Raises exactly when some value is not a number; 0.0 for an empty window; otherwise the mean. |
| TrendStrategy.Decide | backend/strategies/fake_strategy_trend.py:23-53 | Both windows take the close. There is no decision until both are full. A BUY needs fast > slow and a latch not already LONG, a SELL the mirror case; the latch moves only with an order. |
| TrendStrategy.OnCandle | backend/strategies/fake_strategy_trend.py:23-53 | The decision as an order: a fake BTC/USD market order of 0.1 at the close as read, on the decided side. |
| TrendStrategy.Run | backend/strategies/fake_strategy_trend.py:23-53 | Over a candle sequence, consecutive orders alternate sides. The first differs from the starting latch, and the latch ends on the last order's side. |
| TrendStrategy.Closes | backend/strategies/fake_strategy_trend.py:24 | The closes the windows see are each candle's close, 0.0 when missing. |
| TrendStrategy.WindowsAreRecentCloses | backend/strategies/fake_strategy_trend.py:16-26 | The windows always hold exactly the last `fast` and last `slow` closes seen. |
| TrendStrategy.SilentWhileFilling | backend/strategies/fake_strategy_trend.py:27-28 | A fresh strategy emits no order before it has seen max(fast, slow) candles. |
| Backtest.InitialBusIsSubscriptions | backend/backtest/backtest_engine.py:41-44 | The constructor's table is the fill handler on ORDER_FILLED and the price handler on PRICE_UPDATE. |
| Backtest.InitialRegistryIsRegistrations | backend/backtest/backtest_engine.py:37-40 | The constructor's registry is market, execution agent and portfolio agent, in that order. |
| Backtest.Setup | backend/backtest/backtest_engine.py:24-46 | A constructed backtest has nothing running, empty trades and curve, last price 0, and the strategy that `_build_strategy` picks. |
| Backtest.PortfolioStart | backend/agents/portfolio/agent.py:26-30 | The base start; when it runs, the tick handler joins TICK. |
| Backtest.PortfolioStop | backend/agents/portfolio/agent.py:32-35 | The base stop; when it runs, the tick handler leaves TICK. |
| Backtest.StartMarket | backend/market/fake_market.py:35-42 | The market ends running; a stopped market with a stopped feed subscribes the feed's handler to FAKE_CANDLE; the other components, registry, trades and equity are kept. See also backend/backtest/backtest_engine.py:55. |
| Backtest.StartExecution | backend/agents/execution/agent.py:28-35 | The agent ends running; a stopped agent subscribes to ORDER_REQUEST and binds exactly when the registry holds the market, and a running one changes nothing. See also backend/backtest/backtest_engine.py:56. |
| Backtest.StartPortfolio | backend/agents/portfolio/agent.py:26-30 | The portfolio agent ends running, subscribing to TICK only when it was stopped; everything else is kept. See also backend/backtest/backtest_engine.py:57. |
| Backtest.StartStrategy | backend/strategies/base.py:22-30 | The strategy ends running with its logic kept, subscribing to CANDLE_EVENT only when it was stopped; everything else is kept. See also backend/backtest/backtest_engine.py:58. |
| Backtest.StopStrategy | backend/strategies/base.py:32-40 | The strategy ends stopped with its logic kept, leaving CANDLE_EVENT only when it was running; everything else is kept. See also backend/backtest/backtest_engine.py:61. |
| Backtest.StopPortfolio | backend/agents/portfolio/agent.py:32-35 | The portfolio agent ends stopped, leaving TICK only when it was running; everything else is kept. See also backend/backtest/backtest_engine.py:62. |
| Backtest.StopExecution | backend/agents/execution/agent.py:39-42 | The agent ends stopped with its binding kept, leaving ORDER_REQUEST only when it was running; everything else is kept. See also backend/backtest/backtest_engine.py:63. |
| Backtest.StopMarket | backend/market/fake_market.py:44-51 | The market ends stopped; a running market with a running feed unsubscribes the feed's handler; everything else is kept. See also backend/backtest/backtest_engine.py:64. |
| Backtest.StartWires | backend/backtest/backtest_engine.py:55-58 | From the constructor's table with a market registered and nothing running, the four starts wire every kind to its one handler and keep trades, equity and strategy logic. |
| Backtest.StartedIsWired | backend/backtest/backtest_engine.py:37-58 | After the constructor and `run`'s starts, each published kind has exactly its one handler, and the execution agent holds the market. |
| Backtest.StartedIsLive | backend/backtest/backtest_engine.py:55-58 | After `run`'s starts every component is running. |
| Backtest.StopUnwires | backend/backtest/backtest_engine.py:61-64 | The stops leave every component stopped and the routing as the constructor left it. |
| Backtest.FeedStep | backend/market/fake_price_feed.py:43-64 | The market's feed remembers the normalized candle and emits what the feed's `_on_candle` emits; table, execution agent, trades and equity are kept. |
| Backtest.TickStep | backend/agents/portfolio/agent.py:37-44 | The portfolio agent counts one more event, and nothing else that is recorded changes. |
| Backtest.Invoke | backend/core/event_bus.py:127-130 | Calling any one handler keeps the table, the registry and the execution agent's binding, and keeps the components live exactly when they were. |
| Backtest.OnFill | backend/backtest/backtest_engine.py:72-74 | The fill's payload is appended to the trades and nothing else changes. |
| Backtest.OnPrice | backend/backtest/backtest_engine.py:76-80 | The last price becomes the update's price, or stays when it has none, and exactly one sample holding it as price and equity is appended. |
| Backtest.StrategyStep | backend/strategies/base.py:42-45 | At most one ORDER_REQUEST; a draw is taken exactly when the strategy is the random one; the rest of the world is untouched. |
| Backtest.ExecStep | backend/agents/execution/agent.py:44-57 | The agent counts one more event and keeps its binding. Unbound, it publishes nothing. Bound, it publishes only ORDER_FILLED and EXECUTION_RESULT events, and the rest of the world stays as it was. |
| Backtest.ExecStepIsProcessOrder | backend/market/fake_market.py:53-73 | With the market held, the step is `process_order` on the order with the next fresh id, used up only for an order without an id; without it nothing is published. See also backend/agents/execution/agent.py:50-54. |
| Backtest.Publish | backend/core/event_bus.py:103-132 | A publication, together with every publication its handlers make in turn, leaves the handler table, the registry and the execution agent's binding as they were. It keeps the components live exactly when they were, and counts at least itself. |
| Backtest.Deliver | backend/core/event_bus.py:127-132 | Calling a list of handlers in order, each with its nested publications, keeps table, registry and binding, and never lowers the publish counter. |
| Backtest.PublishAll | backend/core/event_bus.py:103-132 | Publishing a handler's events one after another counts at least one publication each, and keeps table, registry and binding. |
| Backtest.Perform | backend/simulation/historical_replayer.py:23-33 | Carrying out a replay trace of publications and pauses keeps table, registry and binding, and keeps the components live exactly when they were. |
| Backtest.FillsAreFilledPayloads | backend/backtest/backtest_engine.py:72-74 | The trades a batch of market events adds are exactly the payloads of its ORDER_FILLED events: each is recorded, nothing else is, and a batch without fills adds nothing. |
| Backtest.FillsAppend | backend/backtest/backtest_engine.py:72-74 | Fills are recorded in event order: those of a later batch come after those of an earlier one. |
| Backtest.Settle | backend/backtest/backtest_engine.py:72-74 | Delivering the market's events appends the payload of each ORDER_FILLED among them to the trades, in order. Table, execution agent, equity, portfolio, last price and pauses are kept. |
| Backtest.CandleStep | backend/simulation/historical_replayer.py:27-33 | One candle adds one equity sample at its close, one portfolio tick and one pause. |
| Backtest.OrderFlow | backend/agents/execution/agent.py:44-57 | Handling an order request leaves the table, the binding, the equity, the portfolio agent, the last price and the pauses as they were. See also backend/backtest/backtest_engine.py:72-74. |
| Backtest.CandleEventFlow | backend/strategies/base.py:42-45 | Handling a candle event, including any order it causes, keeps the table, the binding, equity, portfolio agent, last price and pauses. |
| Backtest.CandleFlow | backend/market/fake_price_feed.py:43-64 | Handling a candle sets the last price to its close (0.0 when missing) and appends one equity sample of it; table, binding, portfolio agent and pauses are kept. See also backend/backtest/backtest_engine.py:76-80. |
| Backtest.Reference | backend/backtest/backtest_engine.py:60 | The bus-free fold over candles keeps the handler table and the execution agent's binding. |
| Backtest.OrderRouted | backend/core/event_bus.py:127-130 | On the wired world, with at least two levels of nesting left, an order request reaches only the execution agent, and its fill events are delivered before `publish` returns. See also backend/agents/execution/agent.py:44-54. |
| Backtest.CandleRouted | backend/market/fake_price_feed.py:43-64 | On the wired world, with at least four levels of nesting left, a FAKE_CANDLE reaches only the market's feed: its price update reaches `_on_price`, then its candle event flows to the strategy. |
| Backtest.PerformStep | backend/simulation/historical_replayer.py:27-33 | One candle's replay steps do on the wired world what `CandleStep` writes out. |
| Backtest.PerformAppend | backend/simulation/historical_replayer.py:27 | Performing a trace in two parts is performing it whole. |
| Backtest.ReplayIsReference | backend/backtest/backtest_engine.py:60 | On the wired world, replaying candles through the bus ends in the same world as the bus-free fold over the candles. See also backend/simulation/historical_replayer.py:23-33. |
| Backtest.ReferenceEquity | backend/backtest/backtest_engine.py:76-80 | The equity curve keeps its samples and gains one per candle, holding that candle's close. |
| Backtest.Curve | backend/backtest/backtest_engine.py:76-80 | The curve a backtest records has one sample per candle, each holding that candle's close as price and equity. |
| Backtest.ReferenceTicks | backend/agents/portfolio/agent.py:37-44 | The portfolio agent counts one tick per candle, and the pauses add up to 0.01 per candle. See also backend/simulation/historical_replayer.py:33. |
| Backtest.OrderFlowTrades | backend/backtest/backtest_engine.py:72-74 | An order request records at most one trade, after those already recorded. |
| Backtest.ReferenceTrades | backend/backtest/backtest_engine.py:72-74 | Over the candles, at most one trade per candle is recorded, after those already there. |
| Backtest.TotalReturn | backend/backtest/backtest_engine.py:82-94 | The loop computes the signed sum: minus quantity times price for a BUY, plus for any other side, with missing fields as 0.0, and 0.0 without trades. |
| Backtest.SignedSumRaisesIff | backend/backtest/backtest_engine.py:86-94 | The total raises exactly when some trade's quantity or price is not a number. |
| Backtest.SignedSumAppend | backend/backtest/backtest_engine.py:86-94 | When neither run of trades raises, the total over both is the sum of their totals. |
| Backtest.ReplayedIsReference | backend/backtest/backtest_engine.py:53-60 | `run`'s replay ends in the bus-free fold from the started world, still wired and running. |
| Backtest.RunReport | backend/backtest/backtest_engine.py:53-94 | The report has one equity sample per candle holding its close, and at most one trade per candle. `num_trades` is the trade count and the total is the signed sum. The report raises exactly when a trade's amount does. |
| Backtest.RunStops | backend/backtest/backtest_engine.py:61-64 | After `run` every component is stopped, and the bus has only the engine's two handlers. |
| BacktestReport.LevelsOf | backend/backtest/backtest_report.py:44-47 | The levels are the samples' equities, in order. |
| BacktestReport.CountSide | backend/backtest/backtest_report.py:16-17 | A side count never exceeds the number of trades. |
| BacktestReport.SidesFitInTotal | backend/backtest/backtest_report.py:16-17 | BUY and SELL counts together never exceed the number of trades. |
| BacktestReport.Winrate | backend/backtest/backtest_report.py:12-21 | The win rate lies between 0 and 1, is positive exactly when SELLs outnumber BUYs, and is 0 without trades. |
| BacktestReport.AllSellsWinAll | backend/backtest/backtest_report.py:12-21 | A non-empty run of SELL trades has win rate 1. |
| BacktestReport.TotalReturn | backend/backtest/backtest_report.py:27-31 | 0.0 for an empty curve; otherwise it succeeds exactly when the first and last equities are numbers, and is last minus first. |
| BacktestReport.Peak | backend/backtest/backtest_report.py:44-49 | The running peak is a level of the curve, and none is higher. |
| BacktestReport.MaxDip | backend/backtest/backtest_report.py:41-53 | The drawdown is never negative. |
| BacktestReport.MaxDipIsLargestDrop | backend/backtest/backtest_report.py:46-52 | The drawdown bounds every level's drop below its running peak, and is 0 or one of those drops. |
| BacktestReport.NonDecreasingHasNoDip | backend/backtest/backtest_report.py:41-53 | A curve that never goes down has drawdown 0. |
| BacktestReport.ExampleDrawdown | backend/backtest/backtest_report.py:41-53 | From 100 up to 120, down to 90, up to 130, the drawdown is 30. |
| BacktestReport.MaxDrawdown | backend/backtest/backtest_report.py:41-53 | The loop agrees with the recursive drawdown: it raises at the first equity that is not a number, and otherwise returns `MaxDip` of the levels, the largest drop below the running peak. |
| BacktestReport.Summarize | backend/backtest/backtest_report.py:10-38 | The summary succeeds exactly when every equity is a number. Its figures are then the trade count, `Winrate` of the trades, the last-minus-first `TotalReturn` of the curve and `MaxDip` of its levels: a win rate in [0, 1] and a non-negative drawdown, both 0 for an empty curve. |
| BacktestReport.CurveSummary | backend/backtest/backtest_report.py:10-53 | A backtest-shaped curve can always be summarized: return is last close minus first, and drawdown is the largest drop of the closes. See also backend/backtest/backtest_engine.py:76-80. |
| BacktestReport.RunSummary | backend/backtest/backtest_report.py:10-53 | The report of a finished backtest run never raises, counts at most one trade per candle, and reads its return and drawdown off the candles' closes. See also backend/backtest/backtest_engine.py:53-70. |

## Left out

- Logging, the capture time of an event, and the `to_csv` export are left out: they are I/O and clocks.
- `random.random()`, `uuid.uuid4()` and the wall clock are parameters, not computations. The backtest reads the n-th draw and the n-th fresh id from an `Oracle`.
- `Payloads.AsNumber` treats a Python `bool` as a non-number. Python would compute with it as 0 or 1; no source path puts a boolean where a number is read.
- The scheduler (backend/core/scheduler.py) is not part of this model. `CoreEngine.Start` and `CoreEngine.Stop` leave out its start and stop, and `CoreEngine.HealthCheck` leaves out the component statistics.
- CoreEngine.Start and CoreEngine.Stop do not model an exception raised by an agent's own start or stop, which the engine would turn into ERROR. No modelled agent raises there.
- CoreEngine.NewEngine builds the registry of the five core components directly rather than through five `register` calls. That yields the same names, order and entries.
- CoreEngine: the global configuration object is a parameter of `Start` and `HealthCheck`, and reading the environment is not modelled (`Config` models the parsed values and the flag parsing).
- Config: only the flags and `validate` are modelled; the numeric settings (intervals, limits, port) are parsed from text and used by no modelled code.
- Candles.FromRow only takes a numeric timestamp; parsing ISO-8601 text with `datetime.fromisoformat` is left out.
- Metrics.Increment takes an integer step, as the signature declares; a float step would work in Python too.
- EventBus.Publish walks the handler list as it stands when the call starts. Handlers that subscribe or unsubscribe mid-publish are left out; no modelled handler does that.
- Backtest.Publish bounds nested publications with fuel; `Backtest.Depth` (4) covers the deepest chain the backtest has (FAKE_CANDLE, CANDLE_EVENT, ORDER_REQUEST, ORDER_FILLED), and the theorems are stated at that depth.
- Backtest.StartedIsWired does not state that the portfolio agent and strategy are running; `Backtest.StartedIsLive` states it.
- Backtest: the portfolio agent keeps no ledger (no positions, average cost or PnL) and has no `get_equity`, so the equity the backtest records is the last price.
- TimeSource.SetSpeed only swaps the multiplier, as `set_speed` does, so `now()` rescales the simulated time already elapsed (`TimeSource.SetSpeedRescalesElapsed`); keeping the accrued time across a speed change is not something the code does.
- SimStrategy.OnRegimes needs at least one draw per regime, standing for the unbounded `random` stream.
- TrendStrategy.Decide, like TrendStrategy.Average, TrendStrategy.OnCandle, OrderBook.FillOrder, Backtest.TotalReturn and the BacktestReport figures, computes with exact reals where Python uses binary floating point. Rounding is left out, so near-ties can decide differently: eight closes of 0.1 with windows 3 and 8 have equal exact means and give no order here, while Python's rounded fast mean is the larger and gives a BUY. Slippage prices and sums can also differ from Python's in the last bits.
- FakeExecutor.SubmitOrder takes every submission to be a distinct `Order` object. Python stores the caller's object itself and sets its id and status in place, so submitting one object twice leaves both ids pointing at it, carrying the second id; a later `cancel_order` on either id then cancels both. The frame clauses of `FakeExecutor.SubmitOrder` and `FakeExecutor.CancelOrder` hold only for distinct objects.
- FakeExecutor.SubmitOrder stores the order as FILLED at once and returns both events. In Python the status is SUBMITTED while ORDER_SUBMITTED is being delivered and becomes FILLED only in `_fake_fill`; a handler that reads the status during that delivery is not modelled.
- FakeExecutor.CancelOrder: see the line above on shared `Order` objects; an id whose object another id also holds is not modelled.
- Candles.FromDict has no counterpart in the source: Python builds a `Candle` from whatever values arrive, and the model's candle holds numbers only. A dictionary with a non-numeric field gives no candle here, where Python would build one that raises only when its fields are used in arithmetic.
- FakeMarket.ProcessOrder returns the events to publish instead of publishing them. The caller's dictionary is an immutable value, so the copy made by `dict(order)` is implicit.
- The other agents (ASPA, CRO, performance, RRS, data engineering), `main.py`, the demo scripts and the loaders are not part of this model.

## Findings

| source | as written | input that shows it | evidently intended | confidence | as-written member | corrected member |
|---|---|---|---|---|---|---|
| backend/core/event_bus.py:12-45 | `EventType` declares 17 members; PRICE_UPDATE, FAKE_CANDLE, CANDLE_EVENT, EXECUTION_RESULT and MARKET_REGIME are missing | `EventType.PRICE_UPDATE`, read by backend/backtest/backtest_engine.py:44 and backend/simulation/fake_price_feed.py:56, fails to resolve (an AttributeError) | the enum also declares the five kinds the market, simulation and backtest code publish and subscribe to | not executed | EventBus.DeclaredEnumMissesUsedKinds | EventBus.KindNameRoundTrip |
