/** The historical replayer (backend/simulation/historical_replayer.py): a candle list
    becomes a trace of sleeps and publications, in the order the replayer performs them. */
module Replayer {
  import opened Payloads
  import opened EventBus
  import opened Candles

  /** One step of a replay: sleep for a number of simulated seconds (the time source turns it
      into wall time), or publish an event. */
  datatype Action = Sleep(seconds: real) | Publish(event: Event)

  const Source: string := "HistoricalReplayer"

  /** The fixed pause `replay` takes after each candle. */
  const Pause: real := 0.01

  function CandleAction(c: Candle): Action
  {
    Publish(Event(FakeCandle, ToDict(c), Source))
  }

  function TickAction(c: Candle): Action
  {
    Publish(Event(Tick, map["tick_number" := Num(c.timestamp)], Source))
  }

  /** What `replay` does for one candle: FAKE_CANDLE with its dictionary, TICK with its
      timestamp as the tick number, then the fixed pause. */
  function ReplayStep(c: Candle): seq<Action>
  {
    [CandleAction(c), TickAction(c), Sleep(Pause)]
  }

  /** Appending a three-action step keeps the earlier steps and puts the new one last. */
  lemma SlicesOfAppend(init: seq<Action>, step: seq<Action>)
    requires |init| % 3 == 0 && |step| == 3
    ensures forall i :: 0 <= i < |init| / 3 ==> (init + step)[3 * i..3 * i + 3] == init[3 * i..3 * i + 3]
    ensures (init + step)[|init|..|init| + 3] == step
  {
  }

  /** `replay`: the steps of the candles, in input order. */
  function Replay(candles: seq<Candle>): (r: seq<Action>)
    ensures |r| == 3 * |candles|
    ensures forall i :: 0 <= i < |candles| ==> r[3 * i..3 * i + 3] == ReplayStep(candles[i])
  {
    if candles == [] then []
    else
      var n := |candles| - 1;
      var init := Replay(candles[..n]);
      var r := init + ReplayStep(candles[n]);
      SlicesOfAppend(init, ReplayStep(candles[n]));
      r
  }

  /** The events of a trace, in order. */
  function Published(trace: seq<Action>): (r: seq<Event>)
    ensures |r| <= |trace|
  {
    if trace == [] then []
    else Published(trace[..|trace| - 1]) + (if trace[|trace| - 1].Publish? then [trace[|trace| - 1].event] else [])
  }

  lemma {:induction false} PublishedAppend(a: seq<Action>, b: seq<Action>)
    ensures Published(a + b) == Published(a) + Published(b)
    decreases |b|
  {
    if b != [] {
      var n := |b| - 1;
      assert (a + b)[..|a + b| - 1] == a + b[..n];
      PublishedAppend(a, b[..n]);
    } else {
      assert a + b == a;
    }
  }

  /** The candles a trace carries: every FAKE_CANDLE publication, rebuilt from its payload
      (a payload that is not a candle is skipped). */
  function CandlesOf(trace: seq<Action>): seq<Candle>
  {
    if trace == [] then []
    else
      var last := trace[|trace| - 1];
      CandlesOf(trace[..|trace| - 1]) +
      (if last.Publish? && last.event.kind == FakeCandle && FromDict(last.event.data).Some?
       then [FromDict(last.event.data).value] else [])
  }

  lemma {:induction false} CandlesOfAppend(a: seq<Action>, b: seq<Action>)
    ensures CandlesOf(a + b) == CandlesOf(a) + CandlesOf(b)
    decreases |b|
  {
    if b != [] {
      var n := |b| - 1;
      assert (a + b)[..|a + b| - 1] == a + b[..n];
      CandlesOfAppend(a, b[..n]);
    } else {
      assert a + b == a;
    }
  }

  /** One candle's step publishes its two events and carries back exactly that candle. */
  lemma ReplayStepCarries(c: Candle)
    ensures Published(ReplayStep(c)) == [CandleAction(c).event, TickAction(c).event]
    ensures CandlesOf(ReplayStep(c)) == [c]
  {
    var step := ReplayStep(c);
    assert step[..2] == [CandleAction(c), TickAction(c)];
    assert step[..2][..1] == [CandleAction(c)];
    assert Published(step[..2][..1]) == [CandleAction(c).event];
    RoundTrip(c);
    assert CandlesOf(step[..2][..1]) == [c];
    assert TickAction(c).event.kind != FakeCandle;
    assert CandlesOf(step[..2]) == [c];
  }

  /** The trace of a non-empty replay is that of all but the last candle, then the last one's step. */
  lemma ReplaySnoc(candles: seq<Candle>)
    requires candles != []
    ensures Replay(candles) == Replay(candles[..|candles| - 1]) + ReplayStep(candles[|candles| - 1])
  {
  }

  /** `replay` publishes exactly two events per candle and drops none: the candles can be read
      back from the trace, in order. */
  lemma {:induction false} ReplayIsFaithful(candles: seq<Candle>)
    ensures |Published(Replay(candles))| == 2 * |candles|
    ensures CandlesOf(Replay(candles)) == candles
  {
    if candles != [] {
      var n := |candles| - 1;
      var init, c := candles[..n], candles[n];
      assert candles == init + [c];
      ReplayIsFaithful(init);
      FaithfulStep(Replay(init), init, c);
      ReplaySnoc(candles);
    }
  }

  /** Appending one candle's step to a trace that carries `cs` gives one that carries `cs`
      and the candle. */
  lemma FaithfulStep(trace: seq<Action>, cs: seq<Candle>, c: Candle)
    requires |Published(trace)| == 2 * |cs| && CandlesOf(trace) == cs
    ensures |Published(trace + ReplayStep(c))| == 2 * (|cs| + 1)
    ensures CandlesOf(trace + ReplayStep(c)) == cs + [c]
  {
    PublishedAppend(trace, ReplayStep(c));
    CandlesOfAppend(trace, ReplayStep(c));
    ReplayStepCarries(c);
  }

  /** The delay `replay_with_spacing` takes before candle `i`: none before the first, and
      afterwards the gap to the previous timestamp, clipped at zero. */
  function Delay(candles: seq<Candle>, i: nat): (d: real)
    requires i < |candles|
    ensures d >= 0.0
    ensures i == 0 ==> d == 0.0
    ensures i > 0 ==> d >= candles[i].timestamp - candles[i - 1].timestamp
    ensures i > 0 && candles[i - 1].timestamp <= candles[i].timestamp ==>
      d == candles[i].timestamp - candles[i - 1].timestamp
  {
    if i == 0 then 0.0
    else
      var gap := candles[i].timestamp - candles[i - 1].timestamp;
      if gap > 0.0 then gap else 0.0
  }

  /** One iteration of `replay_with_spacing`'s loop: sleep the candle's delay, then publish it. */
  function SpacedStep(candles: seq<Candle>, i: nat): seq<Action>
    requires i < |candles|
  {
    [Sleep(Delay(candles, i)), CandleAction(candles[i])]
  }

  /** `replay_with_spacing`: the loop's iterations, in input order; nothing for no candles. */
  function ReplayWithSpacing(candles: seq<Candle>): (r: seq<Action>)
    ensures |r| == 2 * |candles|
  {
    if candles == [] then []
    else
      var n := |candles| - 1;
      ReplayWithSpacing(candles[..n]) + SpacedStep(candles, n)
  }

  /** Per candle in input order, a sleep of its delay and then FAKE_CANDLE with its dictionary.
      No TICK is published, and a candle whose timestamp goes backwards is still published,
      after no pause. */
  lemma {:induction false} SpacingShape(candles: seq<Candle>)
    ensures forall i :: 0 <= i < |candles| ==>
      ReplayWithSpacing(candles)[2 * i] == Sleep(Delay(candles, i)) &&
      ReplayWithSpacing(candles)[2 * i + 1] == CandleAction(candles[i])
  {
    if candles != [] {
      var n := |candles| - 1;
      var init := ReplayWithSpacing(candles[..n]);
      var r := ReplayWithSpacing(candles);
      assert r == init + SpacedStep(candles, n);
      SpacingShape(candles[..n]);
      forall i | 0 <= i < |candles|
        ensures r[2 * i] == Sleep(Delay(candles, i)) && r[2 * i + 1] == CandleAction(candles[i])
      {
        if i < n {
          assert r[2 * i] == init[2 * i] && r[2 * i + 1] == init[2 * i + 1];
          assert Delay(candles[..n], i) == Delay(candles, i);
          assert candles[..n][i] == candles[i];
        } else {
          assert i == n && |init| == 2 * n;
          assert r[2 * n] == SpacedStep(candles, n)[0];
          assert r[2 * n + 1] == SpacedStep(candles, n)[1];
        }
      }
    }
  }

  /** The simulated seconds a trace sleeps. */
  function TotalSleep(trace: seq<Action>): real
  {
    if trace == [] then 0.0
    else
      var last := trace[|trace| - 1];
      TotalSleep(trace[..|trace| - 1]) + (if last.Sleep? then last.seconds else 0.0)
  }

  predicate NonDecreasing(candles: seq<Candle>)
  {
    forall i :: 0 < i < |candles| ==> candles[i - 1].timestamp <= candles[i].timestamp
  }

  lemma {:induction false} TotalSleepAppend(a: seq<Action>, b: seq<Action>)
    ensures TotalSleep(a + b) == TotalSleep(a) + TotalSleep(b)
    decreases |b|
  {
    if b != [] {
      var n := |b| - 1;
      assert (a + b)[..|a + b| - 1] == a + b[..n];
      TotalSleepAppend(a, b[..n]);
    } else {
      assert a + b == a;
    }
  }

  /** One iteration sleeps exactly the candle's delay and carries back exactly that candle. */
  lemma SpacedStepCarries(candles: seq<Candle>, i: nat)
    requires i < |candles|
    ensures TotalSleep(SpacedStep(candles, i)) == Delay(candles, i)
    ensures CandlesOf(SpacedStep(candles, i)) == [candles[i]]
  {
    var step := SpacedStep(candles, i);
    assert step[..1] == [Sleep(Delay(candles, i))];
    assert step[..1][..0] == [];
    assert TotalSleep(step[..1]) == Delay(candles, i);
    RoundTrip(candles[i]);
    assert CandlesOf(step[..1]) == [];
  }

  /** For candles in time order the pauses add up to exactly the span from the first
      timestamp to the last, so the replay keeps the data's own timing. */
  lemma {:induction false} SpacingSpansTheData(candles: seq<Candle>)
    requires candles != [] && NonDecreasing(candles)
    ensures TotalSleep(ReplayWithSpacing(candles)) == candles[|candles| - 1].timestamp - candles[0].timestamp
  {
    var n := |candles| - 1;
    assert ReplayWithSpacing(candles) == ReplayWithSpacing(candles[..n]) + SpacedStep(candles, n);
    TotalSleepAppend(ReplayWithSpacing(candles[..n]), SpacedStep(candles, n));
    SpacedStepCarries(candles, n);
    if n > 0 {
      SpacingSpansTheData(candles[..n]);
    }
  }

  /** `replay_with_spacing` also drops no candle. */
  lemma {:induction false} SpacingIsFaithful(candles: seq<Candle>)
    ensures CandlesOf(ReplayWithSpacing(candles)) == candles
  {
    if candles != [] {
      var n := |candles| - 1;
      var init, c := candles[..n], candles[n];
      assert candles == init + [c];
      SpacingIsFaithful(init);
      SpacedStepCarries(candles, n);
      CarriesStep(ReplayWithSpacing(init), init, SpacedStep(candles, n), c);
      SpacingSnoc(candles);
    }
  }

  /** The spaced trace of a non-empty list is that of all but the last candle, then the last
      one's step. */
  lemma SpacingSnoc(candles: seq<Candle>)
    requires candles != []
    ensures ReplayWithSpacing(candles) == ReplayWithSpacing(candles[..|candles| - 1]) + SpacedStep(candles, |candles| - 1)
  {
  }

  /** A trace carrying `cs` followed by a step carrying `c` carries `cs` and then `c`. */
  lemma CarriesStep(trace: seq<Action>, cs: seq<Candle>, step: seq<Action>, c: Candle)
    requires CandlesOf(trace) == cs && CandlesOf(step) == [c]
    ensures CandlesOf(trace + step) == cs + [c]
  {
    CandlesOfAppend(trace, step);
  }

}
