/** The common agent lifecycle (backend/agents/base.py): idempotent start and stop
    guarded by a running flag, and an event counter. Subclasses hook their
    subscriptions into start and stop; a start or stop that returns true is the
    one that runs the hook, which the concrete agents model by subscribing
    exactly when the base step says so. */
module BaseAgent {

  datatype Agent = Agent(name: string, running: bool, events: nat)

  function NewAgent(name: string): Agent
  {
    Agent(name, false, 0)
  }

  /** `start`: refused (false, nothing changes) when already running; otherwise the
      agent is running afterwards and the call reports true. */
  function Start(a: Agent): (r: (Agent, bool))
    ensures r.1 <==> !a.running
    ensures r.0.running
    ensures r.0.name == a.name && r.0.events == a.events
    ensures !r.1 ==> r.0 == a
  {
    if a.running then (a, false) else (a.(running := true), true)
  }

  /** `stop`: refused when not running; otherwise running is cleared and the call reports true. */
  function Stop(a: Agent): (r: (Agent, bool))
    ensures r.1 <==> a.running
    ensures !r.0.running
    ensures r.0.name == a.name && r.0.events == a.events
    ensures !r.1 ==> r.0 == a
  {
    if !a.running then (a, false) else (a.(running := false), true)
  }

  /** `_log_event`: exactly one more event processed, nothing else changes. */
  function LogEvent(a: Agent): (r: Agent)
    ensures r.events == a.events + 1
    ensures r.name == a.name && r.running == a.running
  {
    a.(events := a.events + 1)
  }

  datatype Health = Health(name: string, running: bool, eventsProcessed: nat)

  function HealthCheck(a: Agent): Health
  {
    Health(a.name, a.running, a.events)
  }

  /** A start followed by a stop gives back the stopped agent; a second start in a row is
      refused and leaves the running agent as the first start left it. */
  lemma StartStopRoundTrip(a: Agent)
    requires !a.running
    ensures Stop(Start(a).0) == (a, true)
    ensures Start(Start(a).0) == (Start(a).0, false)
    ensures HealthCheck(Start(a).0) == Health(a.name, true, a.events)
  {
  }
}
