/** The core engine (backend/core/engine.py): the platform's lifecycle state machine.
    Starting validates the configuration, asks the policy guard, announces the boot and
    starts the registered agents in order; stopping stops them in the same order and
    announces the shutdown. The configuration is a parameter, the scheduler is not part of
    this model, and what the engine publishes is kept as a trace next to the agent calls. */
module CoreEngine {
  import opened Payloads
  import opened EventBus
  import Config
  import PolicyGuard
  import Registry
  import Seqs
  import BaseAgent

  /** `EngineState`. */
  datatype State = Init | Booting | Idle | Running | Halted | Error

  function StateValue(s: State): string
  {
    match s
    case Init => "INIT"
    case Booting => "BOOTING"
    case Idle => "IDLE"
    case Running => "RUNNING"
    case Halted => "HALTED"
    case Error => "ERROR"
  }

  /** What the registry holds: one of the engine's own components, or the agent at a
      position of the agent list. */
  datatype Entry = Core(className: string) | AgentAt(index: nat)

  /** One observable step of the engine, in the order it happens. */
  datatype Step = Announced(event: Event) | StartedAgent(name: string) | StoppedAgent(name: string)

  datatype Engine = Engine(
    state: State,
    guard: PolicyGuard.Guard,
    registry: Registry.Registry<Entry>,
    agents: seq<BaseAgent.Agent>,
    trace: seq<Step>)

  const Source: string := "CoreEngine"

  /** The components the engine registers about itself, in registration order. */
  const CoreNames: seq<string> := ["EventBus", "Registry", "PolicyGuard", "Scheduler", "CoreEngine"]

  /** Every agent the registry names points into the agent list. */
  predicate Valid(e: Engine)
  {
    && Registry.Valid(e.registry)
    && forall n :: n in e.registry.entries && e.registry.entries[n].AgentAt? ==>
         e.registry.entries[n].index < |e.agents|
  }

  /** A fresh engine: INIT, a fresh guard, no agent, and the five core components
      registered in order, each under its own name. */
  function NewEngine(): (r: Engine)
    ensures r.state == Init && r.agents == [] && r.trace == [] && r.guard == PolicyGuard.NewGuard()
    ensures Valid(r)
    ensures r.registry.names == CoreNames
    ensures forall n :: n in r.registry.entries ==> r.registry.entries[n] == Core(n)
  {
    var reg := Registry.Registry(CoreNames, map n | n in CoreNames :: Core(n));
    CoreNamesDistinct();
    Engine(Init, PolicyGuard.NewGuard(), reg, [], [])
  }

  lemma CoreNamesDistinct()
    ensures Seqs.Distinct(CoreNames)
  {
  }

  /** `register_agent`: the agent joins the end of the list and the registry names it,
      replacing whatever held that name before. */
  function RegisterAgent(e: Engine, a: BaseAgent.Agent): (r: Engine)
    requires Valid(e)
    ensures Valid(r)
    ensures r.agents == e.agents + [a]
    ensures Registry.Get(r.registry, a.name) == Some(AgentAt(|e.agents|))
    ensures forall n :: n != a.name ==> Registry.Get(r.registry, n) == Registry.Get(e.registry, n)
    ensures r.state == e.state && r.guard == e.guard && r.trace == e.trace
  {
    Engine(e.state, e.guard, Registry.Register(e.registry, a.name, AgentAt(|e.agents|)), e.agents + [a], e.trace)
  }

  /** The agents started one after the other, and the calls made, in list order. */
  function StartAgents(agents: seq<BaseAgent.Agent>): (r: (seq<BaseAgent.Agent>, seq<Step>))
    ensures |r.0| == |agents| && |r.1| == |agents|
    ensures forall i :: 0 <= i < |agents| ==> r.0[i] == BaseAgent.Start(agents[i]).0
    ensures forall i :: 0 <= i < |agents| ==> r.1[i] == StartedAgent(agents[i].name)
  {
    if agents == [] then ([], [])
    else
      var rest := StartAgents(agents[1..]);
      ([BaseAgent.Start(agents[0]).0] + rest.0, [StartedAgent(agents[0].name)] + rest.1)
  }

  /** The agents stopped one after the other, and the calls made, in list order. */
  function StopAgents(agents: seq<BaseAgent.Agent>): (r: (seq<BaseAgent.Agent>, seq<Step>))
    ensures |r.0| == |agents| && |r.1| == |agents|
    ensures forall i :: 0 <= i < |agents| ==> r.0[i] == BaseAgent.Stop(agents[i]).0
    ensures forall i :: 0 <= i < |agents| ==> r.1[i] == StoppedAgent(agents[i].name)
  {
    if agents == [] then ([], [])
    else
      var rest := StopAgents(agents[1..]);
      ([BaseAgent.Stop(agents[0]).0] + rest.0, [StoppedAgent(agents[0].name)] + rest.1)
  }

  function ErrorEvent(message: string): Event
  {
    Event(SystemError, map["error" := Str(message), "state" := Str("BOOT_FAILED")], Source)
  }

  function BootEvent(cfg: Config.Config): Event
  {
    Event(SystemBoot, map["phase" := Num(cfg.currentPhase as real), "environment" := Str(cfg.environment)], Source)
  }

  const ShutdownEvent: Event := Event(SystemShutdown, map["reason" := Str("Normal shutdown")], Source)

  const ConfigFailure: string := "Configuration validation failed"

  const DenialPrefix: string := "PolicyGuard denied system start: "

  /** `start`. A running engine refuses and nothing changes. Otherwise an invalid
      configuration fails the boot before the guard is asked; a guard denial fails it after;
      either failure leaves the engine in ERROR with one SYSTEM_ERROR event and the agents
      untouched. A boot that passes both announces SYSTEM_BOOT, then starts every agent in
      registration order, and ends RUNNING. */
  function Start(e: Engine, cfg: Config.Config): (r: (Engine, bool))
    ensures e.state == Running ==> r == (e, false)
    ensures r.1 <==> e.state != Running && Config.Validate(cfg) && !e.guard.killSwitch
    ensures e.state != Running ==> r.0.state == (if r.1 then Running else Error)
    ensures r.0.registry == e.registry
    ensures e.state != Running && !Config.Validate(cfg) ==>
      r.0.guard == e.guard && r.0.agents == e.agents && r.0.trace == e.trace + [Announced(ErrorEvent(ConfigFailure))]
    ensures e.state != Running && Config.Validate(cfg) ==>
      r.0.guard == PolicyGuard.CheckSystemStart(e.guard).0
    ensures e.state != Running && Config.Validate(cfg) && e.guard.killSwitch ==>
      r.0.agents == e.agents
      && r.0.trace == e.trace + [Announced(ErrorEvent(DenialPrefix + PolicyGuard.CheckSystemStart(e.guard).1.reason))]
    ensures r.1 ==>
      && |r.0.agents| == |e.agents|
      && (forall i :: 0 <= i < |e.agents| ==> r.0.agents[i].running && r.0.agents[i].name == e.agents[i].name)
      && r.0.trace == e.trace + [Announced(BootEvent(cfg))] + StartAgents(e.agents).1
  {
    if e.state == Running then (e, false)
    else if !Config.Validate(cfg) then
      (e.(state := Error, trace := e.trace + [Announced(ErrorEvent(ConfigFailure))]), false)
    else
      var check := PolicyGuard.CheckSystemStart(e.guard);
      if !check.1.allowed then
        (e.(state := Error, guard := check.0,
            trace := e.trace + [Announced(ErrorEvent(DenialPrefix + check.1.reason))]), false)
      else
        var started := StartAgents(e.agents);
        (e.(state := Running, guard := check.0, agents := started.0,
            trace := e.trace + [Announced(BootEvent(cfg))] + started.1), true)
  }

  /** `stop`. A halted engine refuses and nothing changes. From any other state, including
      INIT and ERROR, every agent is stopped in registration order (not in reverse), then
      SYSTEM_SHUTDOWN is announced and the engine is HALTED. */
  function Stop(e: Engine): (r: (Engine, bool))
    ensures e.state == Halted ==> r == (e, false)
    ensures r.1 <==> e.state != Halted
    ensures r.0.state == Halted
    ensures r.0.registry == e.registry && r.0.guard == e.guard
    ensures r.1 ==>
      && |r.0.agents| == |e.agents|
      && (forall i :: 0 <= i < |e.agents| ==> !r.0.agents[i].running && r.0.agents[i].name == e.agents[i].name)
      && r.0.trace == e.trace + StopAgents(e.agents).1 + [Announced(ShutdownEvent)]
  {
    if e.state == Halted then (e, false)
    else
      var stopped := StopAgents(e.agents);
      (e.(state := Halted, agents := stopped.0, trace := e.trace + stopped.1 + [Announced(ShutdownEvent)]), true)
  }

  /** `get_state`. */
  function GetState(e: Engine): State
  {
    e.state
  }

  datatype Health = Health(status: string, state: string, agents: seq<string>, phase: int)

  /** `health_check`: healthy exactly when RUNNING, the state's value, the agents' names in
      registration order, and the configured phase. The component statistics are left out. */
  function HealthCheck(e: Engine, cfg: Config.Config): (r: Health)
    ensures r.status == "healthy" <==> e.state == Running
    ensures r.status == "healthy" || r.status == "unhealthy"
    ensures |r.agents| == |e.agents| && forall i :: 0 <= i < |e.agents| ==> r.agents[i] == e.agents[i].name
    ensures r.phase == cfg.currentPhase
  {
    Health(if e.state == Running then "healthy" else "unhealthy", StateValue(e.state),
      seq(|e.agents|, i requires 0 <= i < |e.agents| => e.agents[i].name), cfg.currentPhase)
  }

  // ---------------------------------------------------------------------------------------
  // Properties of whole runs
  // ---------------------------------------------------------------------------------------

  /** A call a caller can make on the engine. */
  datatype Command = StartCmd(cfg: Config.Config) | StopCmd | RegisterCmd(agent: BaseAgent.Agent)

  function Apply(e: Engine, c: Command): (r: Engine)
    requires Valid(e)
    ensures Valid(r)
  {
    match c
    case StartCmd(cfg) => Start(e, cfg).0
    case StopCmd => Stop(e).0
    case RegisterCmd(a) => RegisterAgent(e, a)
  }

  function ApplyAll(e: Engine, cs: seq<Command>): (r: Engine)
    requires Valid(e)
    ensures Valid(r)
    decreases |cs|
  {
    if cs == [] then e else ApplyAll(Apply(e, cs[0]), cs[1..])
  }

  /** The engine never rests in BOOTING or IDLE: after any sequence of calls from a fresh
      engine the state is one of INIT, RUNNING, HALTED and ERROR. */
  lemma {:induction false} NeverIdle(e: Engine, cs: seq<Command>)
    requires Valid(e)
    requires e.state != Idle && e.state != Booting
    ensures ApplyAll(e, cs).state != Idle && ApplyAll(e, cs).state != Booting
    decreases |cs|
  {
    if cs != [] {
      NeverIdle(Apply(e, cs[0]), cs[1..]);
    }
  }

  /** The agents are stopped in the order they were started. */
  lemma {:induction false} StopOrderIsStartOrder(agents: seq<BaseAgent.Agent>)
    ensures |StopAgents(agents).1| == |StartAgents(agents).1|
    ensures forall i :: 0 <= i < |agents| ==>
      StopAgents(agents).1[i].name == StartAgents(agents).1[i].name
  {
  }

  /** An engine that is not running, with stopped agents, a valid configuration and a guard
      without a kill switch: start succeeds and announces the boot before starting the
      agents in order, and a following stop stops them in the same order before the
      shutdown announcement, handing back every agent as it was. */
  lemma BootThenShutdown(e: Engine, cfg: Config.Config)
    requires e.state != Running && Config.Validate(cfg) && !e.guard.killSwitch
    requires forall i :: 0 <= i < |e.agents| ==> !e.agents[i].running
    ensures Start(e, cfg).1 && Stop(Start(e, cfg).0).1
    ensures Stop(Start(e, cfg).0).0.state == Halted
    ensures Stop(Start(e, cfg).0).0.trace
      == e.trace + [Announced(BootEvent(cfg))] + StartAgents(e.agents).1 + StopAgents(e.agents).1 + [Announced(ShutdownEvent)]
    ensures Stop(Start(e, cfg).0).0.agents == e.agents
  {
    var s := Start(e, cfg).0;
    var h := Stop(s).0;
    forall i | 0 <= i < |e.agents|
      ensures h.agents[i] == e.agents[i]
    {
      assert s.agents[i] == BaseAgent.Start(e.agents[i]).0;
      BaseAgent.StartStopRoundTrip(e.agents[i]);
    }
  }
}
