/** The simulation clock (backend/simulation/time_source.py) as arithmetic: wall-clock
    readings are parameters, and times are seconds as reals. */
module TimeSource {

  /** The floor that keeps the speed positive, so that a sleep never divides by zero. */
  const MinSpeed: real := 0.0001

  /** `startWall` is the wall reading at construction, `startSim` the simulated epoch then. */
  datatype Clock = Clock(speed: real, startWall: real, startSim: real)

  function ClampSpeed(speed: real): (r: real)
    ensures r >= MinSpeed && r >= speed
    ensures r == speed || r == MinSpeed
  {
    if speed > MinSpeed then speed else MinSpeed
  }

  predicate Valid(c: Clock)
  {
    c.speed >= MinSpeed
  }

  /** The constructor, given the two clock readings it takes. */
  function NewClock(speed: real, wallNow: real, simNow: real): (c: Clock)
    ensures Valid(c) && c.speed == ClampSpeed(speed)
    ensures Now(c, wallNow) == simNow
  {
    Clock(ClampSpeed(speed), wallNow, simNow)
  }

  /** `now` at wall reading `wall`: wall time elapsed since construction, scaled by the speed. */
  function Now(c: Clock, wall: real): real
  {
    c.startSim + (wall - c.startWall) * c.speed
  }

  /** `sleep(dt)`: the number of wall seconds slept. */
  function SleepWall(c: Clock, dt: real): (w: real)
    requires Valid(c)
    ensures dt <= 0.0 ==> w == 0.0
    ensures dt > 0.0 ==> w > 0.0 && w * c.speed == dt
  {
    if dt <= 0.0 then 0.0 else dt / c.speed
  }

  /** `set_speed`: only the speed changes, to the clamped value. */
  function SetSpeed(c: Clock, speed: real): (r: Clock)
    ensures Valid(r) && r.speed == ClampSpeed(speed)
    ensures r.startWall == c.startWall && r.startSim == c.startSim
  {
    c.(speed := ClampSpeed(speed))
  }

  /** Sleeping `dt > 0` simulated seconds advances `now` by exactly `dt`; a non-positive `dt`
      does not advance it. */
  lemma SleepAdvancesNow(c: Clock, wall: real, dt: real)
    requires Valid(c)
    ensures Now(c, wall + SleepWall(c, dt)) == Now(c, wall) + (if dt > 0.0 then dt else 0.0)
  {
  }

  /** Because the anchors stay put, `set_speed` rescales the simulated time already elapsed:
      right after the change, `now` is as if the new speed had held since construction. */
  lemma SetSpeedRescalesElapsed(c: Clock, speed: real, wall: real)
    requires Valid(c) && wall > c.startWall && ClampSpeed(speed) != c.speed
    ensures Now(SetSpeed(c, speed), wall) - c.startSim == (wall - c.startWall) * ClampSpeed(speed)
    ensures Now(SetSpeed(c, speed), wall) != Now(c, wall)
  {
    var e := wall - c.startWall;
    var d := ClampSpeed(speed) - c.speed;
    assert Now(SetSpeed(c, speed), wall) - Now(c, wall) == e * d;
    if d > 0.0 {
      assert e * d > 0.0;
    } else {
      assert e * -d > 0.0;
    }
  }
}
