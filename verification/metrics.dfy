/** The metrics collector (backend/monitor/metrics.py): named integer counters that
    start at zero the first time they are incremented. Python integers are unbounded,
    and so are the counters here. */
module Metrics {

  type Counters = map<string, int>

  /** The step of an `increment` call that gives none. */
  const DefaultStep: int := 1

  function NewCollector(): (r: Counters)
    ensures forall name :: name !in r
  {
    map[]
  }

  /** A counter's value, reading a counter never incremented as 0. */
  function Count(m: Counters, name: string): int
  {
    if name in m then m[name] else 0
  }

  /** `increment`: the named counter exists afterwards and has grown by `value` from its
      old value, 0 when it was unseen; every other counter is exactly as before. */
  function Increment(m: Counters, name: string, value: int): (r: Counters)
    ensures name in r && r[name] == Count(m, name) + value
    ensures forall n :: n != name ==> (n in r <==> n in m)
    ensures forall n :: n != name && n in m ==> r[n] == m[n]
    ensures r.Keys == m.Keys + {name}
  {
    var base := if name !in m then m[name := 0] else m;
    base[name := base[name] + value]
  }

  /** `get_metrics`: a copy of the counters. */
  function GetMetrics(m: Counters): (r: Counters)
    ensures r.Keys == m.Keys
    ensures forall n :: n in r ==> r[n] == m[n]
  {
    map n | n in m :: m[n]
  }

  /** Several increments of one counter, applied in order. */
  function IncrementEach(m: Counters, name: string, values: seq<int>): Counters
    decreases |values|
  {
    if values == [] then m else IncrementEach(Increment(m, name, values[0]), name, values[1..])
  }

  function Sum(values: seq<int>): int
  {
    if values == [] then 0 else values[0] + Sum(values[1..])
  }

  /** Increments accumulate: a counter grows by the sum of the steps applied to it, and
      the other counters do not move. */
  lemma {:induction false} IncrementsAccumulate(m: Counters, name: string, values: seq<int>)
    ensures Count(IncrementEach(m, name, values), name) == Count(m, name) + Sum(values)
    ensures forall n :: n != name ==> Count(IncrementEach(m, name, values), n) == Count(m, n)
    decreases |values|
  {
    if values != [] {
      var m' := Increment(m, name, values[0]);
      IncrementsAccumulate(m', name, values[1..]);
      forall n | n != name
        ensures Count(IncrementEach(m, name, values), n) == Count(m, n)
      {
        assert Count(m', n) == Count(m, n);
      }
    }
  }

  /** `k` increments with the default step on a fresh collector leave the counter at `k`. */
  lemma {:induction false} DefaultStepsCount(m: Counters, name: string, k: nat)
    ensures Count(IncrementEach(m, name, seq(k, _ => DefaultStep)), name) == Count(m, name) + k
  {
    var steps := seq(k, _ => DefaultStep);
    IncrementsAccumulate(m, name, steps);
    OnesSum(steps);
  }

  lemma {:induction false} OnesSum(values: seq<int>)
    requires forall i :: 0 <= i < |values| ==> values[i] == 1
    ensures Sum(values) == |values|
  {
    if values != [] {
      OnesSum(values[1..]);
    }
  }

  /** Increments of different counters commute, and so do two of the same counter. */
  lemma IncrementsCommute(m: Counters, a: string, x: int, b: string, y: int)
    ensures Increment(Increment(m, a, x), b, y) == Increment(Increment(m, b, y), a, x)
  {
    var l := Increment(Increment(m, a, x), b, y);
    var r := Increment(Increment(m, b, y), a, x);
    assert l.Keys == r.Keys;
    forall n | n in l
      ensures l[n] == r[n]
    {
      if n == a && n == b {
      } else if n == a {
      } else if n == b {
      }
    }
  }

  /** A snapshot taken before an increment keeps the old reading, while a snapshot taken
      after it shows the new one: the collector hands out copies. */
  lemma SnapshotIsDetached(m: Counters, name: string, value: int)
    ensures Count(GetMetrics(m), name) == Count(m, name)
    ensures Count(GetMetrics(Increment(m, name, value)), name) == Count(GetMetrics(m), name) + value
  {
  }
}
