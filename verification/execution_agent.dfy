/** The execution agent (backend/agents/execution/agent.py): a base agent that takes
    ORDER_REQUESTs and routes them to the fake market when it found one at start. */
module ExecutionAgent {
  import opened Payloads
  import opened EventBus
  import BaseAgent
  import Registry

  const Name: string := "ExecutionAgent"

  /** The registry entry the agent looks for, and the class it must be an instance of. */
  const MarketName: string := "FakeMarket"

  /** `bound` records whether the agent holds a fake market. It is set by a start that finds
      one and never cleared, not even by a later start that finds none. */
  datatype ExecAgent = ExecAgent(agent: BaseAgent.Agent, bound: bool)

  function NewExecAgent(): ExecAgent
  {
    ExecAgent(BaseAgent.NewAgent(Name), false)
  }

  /** Whether the registry holds a fake market under "FakeMarket". */
  predicate MarketRegistered(reg: Registry.Registry<Registry.Component>)
  {
    Registry.Get(reg, MarketName) == Some(Registry.Component(MarketName))
  }

  /** `start`: the base start; when it runs, `h` joins ORDER_REQUEST and the agent binds to the
      fake market if the registry holds one. */
  function Start<H>(s: ExecAgent, bus: Bus<H>, reg: Registry.Registry<Registry.Component>, h: H): (r: (ExecAgent, Bus<H>, bool))
    ensures (r.0.agent, r.2) == BaseAgent.Start(s.agent)
    ensures r.1 == if r.2 then Subscribe(bus, OrderRequest, h) else bus
    ensures r.0.bound <==> s.bound || (r.2 && MarketRegistered(reg))
  {
    var (a', ok) := BaseAgent.Start(s.agent);
    if ok then (ExecAgent(a', s.bound || MarketRegistered(reg)), Subscribe(bus, OrderRequest, h), true)
    else (s, bus, false)
  }

  /** `stop`: the base stop; when it runs, `h` leaves ORDER_REQUEST. The binding is kept. */
  function Stop<H(==)>(s: ExecAgent, bus: Bus<H>, h: H): (r: (ExecAgent, Bus<H>, bool))
    ensures (r.0.agent, r.2) == BaseAgent.Stop(s.agent)
    ensures r.1 == if r.2 then Unsubscribe(bus, OrderRequest, h) else bus
    ensures r.0.bound == s.bound
  {
    var (a', ok) := BaseAgent.Stop(s.agent);
    (s.(agent := a'), if ok then Unsubscribe(bus, OrderRequest, h) else bus, ok)
  }

  /** `_on_order_request`: one more event counted; the order (the event's data) is handed to the
      fake market exactly when the agent is bound, and otherwise dropped. */
  function OnOrderRequest(s: ExecAgent, data: Payload): (r: (ExecAgent, Option<Payload>))
    ensures r.0.agent.events == s.agent.events + 1 && r.0.agent.running == s.agent.running
    ensures r.0.bound == s.bound
    ensures r.1.Some? <==> s.bound
    ensures r.1.Some? ==> r.1.value == data
  {
    (s.(agent := BaseAgent.LogEvent(s.agent)), if s.bound then Some(data) else None)
  }

  /** The binding is decided at the first start that finds the market: registering it only
      after the agent started does not bind it until a stop and a new start. */
  lemma LateRegistrationNeedsRestart<H>(bus: Bus<H>, reg: Registry.Registry<Registry.Component>, h: H)
    requires Registry.Valid(reg) && !MarketRegistered(reg)
    ensures var s1 := Start(NewExecAgent(), bus, reg, h).0;
      var reg' := Registry.Register(reg, MarketName, Registry.Component(MarketName));
      !s1.bound && OnOrderRequest(s1, map[]).1 == None &&
      Start(s1, bus, reg', h).0 == s1 &&
      Start(Stop(s1, bus, h).0, bus, reg', h).0.bound
  {
  }
}
