/** The central publish/subscribe bus (backend/core/event_bus.py).

    The bus is a table from event kind to an ordered list of handlers plus a
    counter of published events. Handlers are opaque identities of type `H`
    (a bound method in the source); what a handler does when it is called is
    not the bus's business, so publishing is modelled as the list of
    deliveries the call makes, each marked with whether that handler raised. */
module EventBus {
  import opened Payloads
  import Seqs

  /** The event kinds the code publishes or subscribes to. The first seventeen are
      the members of the source's `EventType` enum; the last five are used by the
      market, simulation and backtest code but are missing from that enum. */
  datatype EventKind =
    | SystemBoot | SystemShutdown | SystemError | Heartbeat
    | Tick | MarketTick
    | OrderRequest | OrderSubmitted | OrderFilled | OrderRejected
    | PositionUpdate
    | RiskCheck | RiskBreach | KillSwitchActivated
    | PerformanceUpdate
    | HealthCheck | MetricPublished
    | PriceUpdate | FakeCandle | CandleEvent | ExecutionResult | MarketRegime

  /** The enum value string of each kind. */
  function Name(k: EventKind): string
  {
    match k
    case SystemBoot => "SYSTEM_BOOT"
    case SystemShutdown => "SYSTEM_SHUTDOWN"
    case SystemError => "SYSTEM_ERROR"
    case Heartbeat => "HEARTBEAT"
    case Tick => "TICK"
    case MarketTick => "MARKET_TICK"
    case OrderRequest => "ORDER_REQUEST"
    case OrderSubmitted => "ORDER_SUBMITTED"
    case OrderFilled => "ORDER_FILLED"
    case OrderRejected => "ORDER_REJECTED"
    case PositionUpdate => "POSITION_UPDATE"
    case RiskCheck => "RISK_CHECK"
    case RiskBreach => "RISK_BREACH"
    case KillSwitchActivated => "KILL_SWITCH_ACTIVATED"
    case PerformanceUpdate => "PERFORMANCE_UPDATE"
    case HealthCheck => "HEALTH_CHECK"
    case MetricPublished => "METRIC_PUBLISHED"
    case PriceUpdate => "PRICE_UPDATE"
    case FakeCandle => "FAKE_CANDLE"
    case CandleEvent => "CANDLE_EVENT"
    case ExecutionResult => "EXECUTION_RESULT"
    case MarketRegime => "MARKET_REGIME"
  }

  /** Member lookup `EventType.<NAME>` over the enum as the source declares it:
      the five kinds added by the simulation code are not there, so looking them
      up fails (an `AttributeError` in Python). */
  function DeclaredKindNamed(name: string): (r: Option<EventKind>)
    ensures r.Some? ==> Name(r.value) == name && !r.value.PriceUpdate? && !r.value.FakeCandle?
    ensures r.Some? ==> !r.value.CandleEvent? && !r.value.ExecutionResult? && !r.value.MarketRegime?
  {
    if name == "SYSTEM_BOOT" then Some(SystemBoot)
    else if name == "SYSTEM_SHUTDOWN" then Some(SystemShutdown)
    else if name == "SYSTEM_ERROR" then Some(SystemError)
    else if name == "HEARTBEAT" then Some(Heartbeat)
    else if name == "TICK" then Some(Tick)
    else if name == "MARKET_TICK" then Some(MarketTick)
    else if name == "ORDER_REQUEST" then Some(OrderRequest)
    else if name == "ORDER_SUBMITTED" then Some(OrderSubmitted)
    else if name == "ORDER_FILLED" then Some(OrderFilled)
    else if name == "ORDER_REJECTED" then Some(OrderRejected)
    else if name == "POSITION_UPDATE" then Some(PositionUpdate)
    else if name == "RISK_CHECK" then Some(RiskCheck)
    else if name == "RISK_BREACH" then Some(RiskBreach)
    else if name == "KILL_SWITCH_ACTIVATED" then Some(KillSwitchActivated)
    else if name == "PERFORMANCE_UPDATE" then Some(PerformanceUpdate)
    else if name == "HEALTH_CHECK" then Some(HealthCheck)
    else if name == "METRIC_PUBLISHED" then Some(MetricPublished)
    else None
  }

  /** The kinds the simulation code uses that the declared enum lacks. */
  predicate Undeclared(k: EventKind)
  {
    k.PriceUpdate? || k.FakeCandle? || k.CandleEvent? || k.ExecutionResult? || k.MarketRegime?
  }

  /** The five added kinds do not resolve... */
  lemma UsedKindsMissing(k: EventKind)
    requires Undeclared(k)
    ensures DeclaredKindNamed(Name(k)) == None
  {
    match k
    case PriceUpdate =>
    case FakeCandle =>
    case CandleEvent =>
    case ExecutionResult =>
    case MarketRegime =>
  }

  /** ...while every declared kind resolves to itself. */
  lemma DeclaredKindsResolve(k: EventKind)
    requires !Undeclared(k)
    ensures DeclaredKindNamed(Name(k)) == Some(k)
  {
    if k.SystemBoot? || k.SystemShutdown? || k.SystemError? || k.Heartbeat? || k.Tick? || k.MarketTick?
      || k.OrderRequest? || k.OrderSubmitted? || k.OrderFilled?
    {
      EarlyKindsResolve(k);
    } else {
      LateKindsResolve(k);
    }
  }

  lemma EarlyKindsResolve(k: EventKind)
    requires k.SystemBoot? || k.SystemShutdown? || k.SystemError? || k.Heartbeat? || k.Tick? || k.MarketTick?
      || k.OrderRequest? || k.OrderSubmitted? || k.OrderFilled?
    ensures DeclaredKindNamed(Name(k)) == Some(k)
  {
    match k
    case SystemBoot =>
    case SystemShutdown =>
    case SystemError =>
    case Heartbeat =>
    case Tick =>
    case MarketTick =>
    case OrderRequest =>
    case OrderSubmitted =>
    case OrderFilled =>
  }

  lemma LateKindsResolve(k: EventKind)
    requires k.OrderRejected? || k.PositionUpdate? || k.RiskCheck? || k.RiskBreach? || k.KillSwitchActivated?
      || k.PerformanceUpdate? || k.HealthCheck? || k.MetricPublished?
    ensures DeclaredKindNamed(Name(k)) == Some(k)
  {
    match k
    case OrderRejected =>
    case PositionUpdate =>
    case RiskCheck =>
    case RiskBreach =>
    case KillSwitchActivated =>
    case PerformanceUpdate =>
    case HealthCheck =>
    case MetricPublished =>
  }

  /** As written, every one of the five added kinds fails to resolve, while every
      declared kind resolves to itself. */
  lemma DeclaredEnumMissesUsedKinds(k: EventKind)
    ensures DeclaredKindNamed(Name(k)).None? <==> Undeclared(k)
    ensures !Undeclared(k) ==> DeclaredKindNamed(Name(k)) == Some(k)
  {
    if Undeclared(k) {
      UsedKindsMissing(k);
    } else {
      DeclaredKindsResolve(k);
    }
  }

  /** Member lookup over the completed enum, with all twenty-two kinds. */
  function KindNamed(name: string): (r: Option<EventKind>)
    ensures r.Some? ==> Name(r.value) == name
  {
    match DeclaredKindNamed(name)
    case Some(k) => Some(k)
    case None =>
      if name == "PRICE_UPDATE" then Some(PriceUpdate)
      else if name == "FAKE_CANDLE" then Some(FakeCandle)
      else if name == "CANDLE_EVENT" then Some(CandleEvent)
      else if name == "EXECUTION_RESULT" then Some(ExecutionResult)
      else if name == "MARKET_REGIME" then Some(MarketRegime)
      else None
  }

  /** With the completed enum every kind the code uses resolves by its name. */
  lemma KindNameRoundTrip(k: EventKind)
    ensures KindNamed(Name(k)) == Some(k)
  {
    DeclaredEnumMissesUsedKinds(k);
  }

  /** Every kind, each once. */
  const AllKinds: seq<EventKind> := [
    SystemBoot, SystemShutdown, SystemError, Heartbeat, Tick, MarketTick,
    OrderRequest, OrderSubmitted, OrderFilled, OrderRejected, PositionUpdate,
    RiskCheck, RiskBreach, KillSwitchActivated, PerformanceUpdate, HealthCheck,
    MetricPublished, PriceUpdate, FakeCandle, CandleEvent, ExecutionResult, MarketRegime]

  /** An event as handlers receive it. The wall-clock capture time is not modelled;
      a `None` payload is represented by the empty map, since every consumer
      reads `event.data or {}`. */
  datatype Event = Event(kind: EventKind, data: Payload, source: string)

  /** The subscriber table (a dict of lists in the source) and the published-event counter. */
  datatype Bus<H> = Bus(subscribers: map<EventKind, seq<H>>, published: nat)

  function NewBus<H>(): Bus<H>
  {
    Bus(map[], 0)
  }

  /** The handler list of a kind; a kind never subscribed to has none. */
  function HandlersOf<H>(b: Bus<H>, kind: EventKind): seq<H>
  {
    if kind in b.subscribers then b.subscribers[kind] else []
  }

  /** `subscribe`: the handler goes to the end of its kind's list, which is created when absent.
      Nothing stops the same handler from being added twice. */
  function Subscribe<H>(b: Bus<H>, kind: EventKind, h: H): (r: Bus<H>)
    ensures HandlersOf(r, kind) == HandlersOf(b, kind) + [h]
    ensures forall k :: k != kind ==> HandlersOf(r, k) == HandlersOf(b, k)
    ensures r.subscribers.Keys == b.subscribers.Keys + {kind}
    ensures r.published == b.published
  {
    b.(subscribers := b.subscribers[kind := HandlersOf(b, kind) + [h]])
  }

  /** `unsubscribe`: one occurrence of the handler leaves its kind's list. An unknown kind or
      a handler that is not in the list leaves the bus as it was. The kind's entry stays in
      the table even when its list becomes empty. */
  function Unsubscribe<H(==)>(b: Bus<H>, kind: EventKind, h: H): (r: Bus<H>)
    ensures h !in HandlersOf(b, kind) ==> r == b
    ensures forall k :: k != kind ==> HandlersOf(r, k) == HandlersOf(b, k)
    ensures r.subscribers.Keys == b.subscribers.Keys
    ensures r.published == b.published
  {
    if kind in b.subscribers then
      var remaining := Seqs.RemoveFirst(b.subscribers[kind], h);
      if h in b.subscribers[kind] then b.(subscribers := b.subscribers[kind := remaining])
      else b
    else b
  }

  /** The kind's list loses the first copy of the handler, and only that copy. */
  lemma UnsubscribeRemovesFirst<H>(b: Bus<H>, kind: EventKind, h: H)
    ensures var r := Unsubscribe(b, kind, h);
      h in HandlersOf(b, kind) ==> |HandlersOf(r, kind)| == |HandlersOf(b, kind)| - 1
    ensures var r := Unsubscribe(b, kind, h);
      h in HandlersOf(b, kind) ==>
        var i := Seqs.FirstIndex(HandlersOf(b, kind), h);
        HandlersOf(r, kind) == HandlersOf(b, kind)[..i] + HandlersOf(b, kind)[i + 1..]
    ensures multiset(HandlersOf(Unsubscribe(b, kind, h), kind)) == multiset(HandlersOf(b, kind)) - multiset{h}
  {
    var hs := HandlersOf(b, kind);
    if h in hs {
      assert HandlersOf(Unsubscribe(b, kind, h), kind) == Seqs.RemoveFirst(hs, h);
    }
  }

  /** A kind whose only handler leaves has none left. */
  lemma UnsubscribeSole<H>(b: Bus<H>, kind: EventKind, h: H)
    requires HandlersOf(b, kind) == [h]
    ensures HandlersOf(Unsubscribe(b, kind, h), kind) == []
  {
    UnsubscribeRemovesFirst(b, kind, h);
  }

  /** Subscribing and then unsubscribing the same handler gives back the same handlers; when
      the handler was already subscribed, the copy that leaves is the earlier one, so the
      list comes back in a different order. */
  lemma UnsubscribeAfterSubscribe<H>(b: Bus<H>, kind: EventKind, h: H)
    ensures multiset(HandlersOf(Unsubscribe(Subscribe(b, kind, h), kind, h), kind)) == multiset(HandlersOf(b, kind))
    ensures h !in HandlersOf(b, kind) ==> HandlersOf(Unsubscribe(Subscribe(b, kind, h), kind, h), kind) == HandlersOf(b, kind)
    ensures forall k :: k != kind ==> HandlersOf(Unsubscribe(Subscribe(b, kind, h), kind, h), k) == HandlersOf(b, k)
  {
    var hs := HandlersOf(b, kind);
    var b1 := Subscribe(b, kind, h);
    var b2 := Unsubscribe(b1, kind, h);
    assert HandlersOf(b1, kind) == hs + [h];
    AppendedLeaves(b1, kind, h, hs);
    if h !in hs {
      FreshHandlerLeavesLast(b1, kind, h, hs);
    }
  }

  /** Removing a handler from a list that ends with it gives back the list's other handlers. */
  lemma AppendedLeaves<H>(b: Bus<H>, kind: EventKind, h: H, hs: seq<H>)
    requires HandlersOf(b, kind) == hs + [h]
    ensures multiset(HandlersOf(Unsubscribe(b, kind, h), kind)) == multiset(hs)
  {
    UnsubscribeRemovesFirst(b, kind, h);
    assert multiset(hs + [h]) == multiset(hs) + multiset{h};
  }

  /** A handler appended to a list that lacked it is the copy `unsubscribe` removes. */
  lemma FreshHandlerLeavesLast<H>(b: Bus<H>, kind: EventKind, h: H, hs: seq<H>)
    requires HandlersOf(b, kind) == hs + [h] && h !in hs
    ensures HandlersOf(Unsubscribe(b, kind, h), kind) == hs
  {
    UnsubscribeRemovesFirst(b, kind, h);
    var i := Seqs.FirstIndex(hs + [h], h);
    assert i == |hs|;
    assert (hs + [h])[..|hs|] == hs;
  }

  /** The reordering is real: with handlers [1, 2], subscribing and unsubscribing 1 leaves [2, 1]. */
  lemma ResubscribeReorders()
    ensures var b := Bus(map[Tick := [1, 2]], 0);
      HandlersOf(Unsubscribe(Subscribe(b, Tick, 1), Tick, 1), Tick) == [2, 1]
  {
    var b := Bus(map[Tick := [1, 2]], 0);
    assert HandlersOf(Subscribe(b, Tick, 1), Tick) == [1, 2, 1];
    assert Seqs.FirstIndex([1, 2, 1], 1) == 0;
    UnsubscribeRemovesFirst(Subscribe(b, Tick, 1), Tick, 1);
  }

  /** One handler call made by `publish`, and whether that handler raised. */
  datatype Delivery<H> = Delivery(handler: H, event: Event, failed: bool)

  /** The publish loop: every handler in the list is called in list order with the event;
      a handler that raises is logged and the loop goes on. `raises` says which handlers
      raise on this event. */
  function Dispatch<H>(hs: seq<H>, ev: Event, raises: H -> bool): (r: seq<Delivery<H>>)
    ensures |r| == |hs|
    ensures forall i :: 0 <= i < |r| ==> r[i].handler == hs[i] && r[i].event == ev
    ensures forall i :: 0 <= i < |r| ==> r[i].failed == raises(hs[i])
  {
    if hs == [] then []
    else [Delivery(hs[0], ev, raises(hs[0]))] + Dispatch(hs[1..], ev, raises)
  }

  /** The counter update of `publish`; the table itself is only read. */
  function Announce<H>(b: Bus<H>): Bus<H>
  {
    b.(published := b.published + 1)
  }

  /** `publish`: one more event counted, whether or not anyone listens; the handlers
      of the event's kind, as the list stands when the call starts, each called once
      per occurrence in order; the table left untouched. Handlers that subscribe or
      unsubscribe while the loop runs are outside this model. */
  function Publish<H>(b: Bus<H>, ev: Event, raises: H -> bool): (r: (Bus<H>, seq<Delivery<H>>))
    ensures r.0.published == b.published + 1
    ensures r.0.subscribers == b.subscribers
    ensures |r.1| == |HandlersOf(b, ev.kind)|
    ensures forall i :: 0 <= i < |r.1| ==> r.1[i].handler == HandlersOf(b, ev.kind)[i]
    ensures forall i :: 0 <= i < |r.1| ==> r.1[i].event == ev && r.1[i].failed == raises(r.1[i].handler)
  {
    (Announce(b), Dispatch(HandlersOf(b, ev.kind), ev, raises))
  }

  /** How many of the deliveries went to handler `h`. */
  function DeliveriesTo<H(==)>(ds: seq<Delivery<H>>, h: H): nat
  {
    if ds == [] then 0 else (if ds[0].handler == h then 1 else 0) + DeliveriesTo(ds[1..], h)
  }

  /** A handler subscribed several times to a kind is called once per copy, raising or not. */
  lemma {:induction false} EachCopyDelivered<H>(hs: seq<H>, ev: Event, raises: H -> bool, h: H)
    ensures DeliveriesTo(Dispatch(hs, ev, raises), h) == multiset(hs)[h]
  {
    if hs != [] {
      EachCopyDelivered(hs[1..], ev, raises, h);
      assert hs == [hs[0]] + hs[1..];
    }
  }

  /** A failing handler does not cut the loop short: the handlers after it are still
      delivered to, in order, and there are as many deliveries as with no failure at all. */
  lemma FailureIsIsolated<H>(b: Bus<H>, ev: Event, raises: H -> bool, i: nat, j: nat)
    requires i < j < |HandlersOf(b, ev.kind)|
    requires raises(HandlersOf(b, ev.kind)[i])
    ensures Publish(b, ev, raises).1[j].handler == HandlersOf(b, ev.kind)[j]
    ensures |Publish(b, ev, raises).1| == |Publish(b, ev, _ => false).1|
  {
  }

  /** Sum of the list lengths over the given kinds. */
  function CountOver<H>(b: Bus<H>, ks: seq<EventKind>): nat
  {
    if ks == [] then 0 else |HandlersOf(b, ks[0])| + CountOver(b, ks[1..])
  }

  /** `subscriber_count` of `get_stats`: the total length of all handler lists. */
  function SubscriberCount<H>(b: Bus<H>): nat
  {
    CountOver(b, AllKinds)
  }

  /** `event_types_subscribed` of `get_stats`: how many kinds have an entry, empty or not. */
  function KindsSubscribed<H>(b: Bus<H>): nat
  {
    |b.subscribers.Keys|
  }

  datatype Stats = Stats(totalEventsPublished: nat, subscriberCount: nat, eventTypesSubscribed: nat)

  function GetStats<H>(b: Bus<H>): Stats
  {
    Stats(b.published, SubscriberCount(b), KindsSubscribed(b))
  }

  /** When only one kind's list changes, the total over distinct kinds changes by that list's growth. */
  lemma {:induction false} CountOverOneKind<H>(b: Bus<H>, b': Bus<H>, kind: EventKind, ks: seq<EventKind>)
    requires Seqs.Distinct(ks)
    requires forall k :: k != kind ==> HandlersOf(b', k) == HandlersOf(b, k)
    ensures kind in ks ==> CountOver(b', ks) + |HandlersOf(b, kind)| == CountOver(b, ks) + |HandlersOf(b', kind)|
    ensures kind !in ks ==> CountOver(b', ks) == CountOver(b, ks)
  {
    if ks != [] {
      assert Seqs.Distinct(ks[1..]);
      CountOverOneKind(b, b', kind, ks[1..]);
      assert ks[0] == kind ==> kind !in ks[1..];
    }
  }

  lemma AllKindsDistinctComplete(kind: EventKind)
    ensures Seqs.Distinct(AllKinds)
    ensures kind in AllKinds
  {
  }

  /** Each subscription adds one to the subscriber count, and a kind seen for the first time
      adds one to the kinds count. */
  lemma SubscribeCounts<H>(b: Bus<H>, kind: EventKind, h: H)
    ensures SubscriberCount(Subscribe(b, kind, h)) == SubscriberCount(b) + 1
    ensures KindsSubscribed(Subscribe(b, kind, h)) == KindsSubscribed(b) + (if kind in b.subscribers then 0 else 1)
    ensures GetStats(Subscribe(b, kind, h)).totalEventsPublished == b.published
  {
    AllKindsDistinctComplete(kind);
    CountOverOneKind(b, Subscribe(b, kind, h), kind, AllKinds);
  }

  /** Removing a subscribed handler takes one off the subscriber count; the kinds count never
      changes, because the emptied list keeps its key. */
  lemma UnsubscribeCounts<H>(b: Bus<H>, kind: EventKind, h: H)
    ensures h in HandlersOf(b, kind) ==> SubscriberCount(Unsubscribe(b, kind, h)) == SubscriberCount(b) - 1
    ensures h !in HandlersOf(b, kind) ==> SubscriberCount(Unsubscribe(b, kind, h)) == SubscriberCount(b)
    ensures KindsSubscribed(Unsubscribe(b, kind, h)) == KindsSubscribed(b)
  {
    AllKindsDistinctComplete(kind);
    UnsubscribeRemovesFirst(b, kind, h);
    CountOverOneKind(b, Unsubscribe(b, kind, h), kind, AllKinds);
  }
}
