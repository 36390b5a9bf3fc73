/** The policy guard (backend/core/policy_guard.py): a kill switch, a halt flag and
    two decision counters. Checks return a decision and count themselves; the
    kill switch and the halt announce themselves on the bus, modelled as the list
    of events they publish. */
module PolicyGuard {
  import opened Payloads
  import opened EventBus
  import Shares

  datatype Decision = Decision(allowed: bool, reason: string)

  datatype Guard = Guard(killSwitch: bool, halted: bool, decisions: nat, denials: nat)

  const Source: string := "PolicyGuard"

  function NewGuard(): Guard
  {
    Guard(false, false, 0, 0)
  }

  /** Every denial is also a decision. */
  predicate Counted(g: Guard)
  {
    g.denials <= g.decisions
  }

  /** `check_system_start`: denied exactly when the kill switch is on; a halt alone does not
      stop a start. The check counts one decision, and one denial when it denies. */
  function CheckSystemStart(g: Guard): (r: (Guard, Decision))
    ensures r.1.allowed <==> !g.killSwitch
    ensures r.0.decisions == g.decisions + 1
    ensures r.0.denials == g.denials + (if r.1.allowed then 0 else 1)
    ensures r.0.killSwitch == g.killSwitch && r.0.halted == g.halted
    ensures Counted(g) ==> Counted(r.0)
  {
    var counted := g.(decisions := g.decisions + 1);
    if g.killSwitch then (counted.(denials := g.denials + 1), Decision(false, "Global kill switch active"))
    else (counted, Decision(true, "System start permitted"))
  }

  /** `check_order_submission`: denied when the kill switch or the halt flag is set, and
      allowed otherwise (the order itself is not inspected). */
  function CheckOrderSubmission(g: Guard): (r: (Guard, Decision))
    ensures r.1.allowed <==> !g.killSwitch && !g.halted
    ensures g.killSwitch ==> r.1.reason == "Global kill switch active"
    ensures !g.killSwitch && g.halted ==> r.1.reason == "System halted"
    ensures r.0.decisions == g.decisions + 1
    ensures r.0.denials == g.denials + (if r.1.allowed then 0 else 1)
    ensures r.0.killSwitch == g.killSwitch && r.0.halted == g.halted
    ensures Counted(g) ==> Counted(r.0)
  {
    var counted := g.(decisions := g.decisions + 1);
    if g.killSwitch then (counted.(denials := g.denials + 1), Decision(false, "Global kill switch active"))
    else if g.halted then (counted.(denials := g.denials + 1), Decision(false, "System halted"))
    else (counted, Decision(true, "Order permitted (stub)"))
  }

  /** `activate_kill_switch`: both flags set, counters kept, one KILL_SWITCH_ACTIVATED
      event carrying the reason. */
  function ActivateKillSwitch(g: Guard, reason: string): (r: (Guard, seq<Event>))
    ensures r.0.killSwitch && r.0.halted
    ensures r.0.decisions == g.decisions && r.0.denials == g.denials
    ensures r.1 == [Event(KillSwitchActivated, map["reason" := Str(reason)], Source)]
  {
    (g.(killSwitch := true, halted := true), [Event(KillSwitchActivated, map["reason" := Str(reason)], Source)])
  }

  /** `deactivate_kill_switch`: both flags cleared, including a halt that came from
      `halt_system`; nothing is published. */
  function DeactivateKillSwitch(g: Guard): (r: Guard)
    ensures !r.killSwitch && !r.halted
    ensures r.decisions == g.decisions && r.denials == g.denials
  {
    g.(killSwitch := false, halted := false)
  }

  /** `halt_system`: only the halt flag is set, and one SYSTEM_ERROR event carries the reason. */
  function HaltSystem(g: Guard, reason: string): (r: (Guard, seq<Event>))
    ensures r.0.halted && r.0.killSwitch == g.killSwitch
    ensures r.0.decisions == g.decisions && r.0.denials == g.denials
    ensures r.1 == [Event(SystemError, map["reason" := Str(reason), "action" := Str("HALT")], Source)]
  {
    (g.(halted := true), [Event(SystemError, map["reason" := Str(reason), "action" := Str("HALT")], Source)])
  }

  function IsSystemHalted(g: Guard): bool
  {
    g.halted
  }

  /** `denial_rate`: denials over decisions, with at least one decision in the divisor;
      a fraction between 0 and 1 whenever the counters are consistent. */
  function DenialRate(g: Guard): (rate: real)
    ensures Counted(g) ==> 0.0 <= rate <= 1.0
    ensures g.decisions == 0 ==> rate == g.denials as real
    ensures g.decisions > 0 ==> rate * g.decisions as real == g.denials as real
  {
    var divisor := if g.decisions > 1 then g.decisions else 1;
    Shares.ShareBounds(g.denials, divisor);
    g.denials as real / divisor as real
  }

  datatype GuardStats = GuardStats(globalKillSwitch: bool, systemHalted: bool, decisionsMade: nat, denials: nat, denialRate: real)

  function GetStats(g: Guard): GuardStats
  {
    GuardStats(g.killSwitch, g.halted, g.decisions, g.denials, DenialRate(g))
  }

  /** After a halt without the kill switch, a start is still allowed but an order is not;
      clearing the kill switch also lifts the halt, so orders are allowed again. */
  lemma HaltBlocksOrdersOnly(g: Guard, reason: string)
    requires !g.killSwitch
    ensures CheckSystemStart(HaltSystem(g, reason).0).1.allowed
    ensures !CheckOrderSubmission(HaltSystem(g, reason).0).1.allowed
    ensures CheckOrderSubmission(DeactivateKillSwitch(HaltSystem(g, reason).0)).1.allowed
  {
  }

  /** The kill switch blocks both kinds of check until it is deactivated. */
  lemma KillSwitchBlocksEverything(g: Guard, reason: string)
    ensures !CheckSystemStart(ActivateKillSwitch(g, reason).0).1.allowed
    ensures !CheckOrderSubmission(ActivateKillSwitch(g, reason).0).1.allowed
    ensures CheckSystemStart(DeactivateKillSwitch(ActivateKillSwitch(g, reason).0)).1.allowed
  {
  }
}
