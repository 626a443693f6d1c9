/** The witness clock: wall time gated by a monotonic clock and, unless told otherwise, a time monitor. */
module Clock {
  import opened Text

  datatype Mode = Bounded | Operational | System

  datatype Uncertainty = Null | Millis(ms: int) | Malformed

  /** The monitor's health file; None stands for a missing file, key or integer. */
  datatype Health =
    | Unreadable
    | Health(synchronized: bool, checkedAt: Option<int>, uncertainty: Uncertainty,
             mode: string, source: string, lastSync: Option<int>)

  datatype ClockState = ClockState(wall: real, monotonic: real, failed: bool)

  /** A successful sample: milliseconds, and the uncertainty where the mode claims one. */
  datatype Sample = Sample(now: int, uncertainty: Option<int>)

  const STEP_TOLERANCE: real := 0.25

  function Abs(x: real): real {
    if x < 0.0 then -x else x
  }

  /** Python's int() of a float: truncation toward zero. */
  function Truncate(x: real): int {
    if x >= 0.0 then x.Floor else -((-x).Floor)
  }

  function ToMillis(wall: real): int {
    Truncate(wall * 1000.0)
  }

  /** Whether wall time moved against monotonic time by more than the tolerance between two samples. */
  predicate Stepped(s: ClockState, wall: real, monotonic: real) {
    Abs((wall - s.wall) - (monotonic - s.monotonic)) > STEP_TOLERANCE
  }

  function Advance(s: ClockState, wall: real, monotonic: real): ClockState {
    ClockState(wall, monotonic, s.failed || Stepped(s, wall, monotonic))
  }

  predicate Fresh(health: Health, now: int) {
    health.Health? && health.synchronized && health.checkedAt.Some? && 0 <= now - health.checkedAt.value <= 30000
  }

  predicate OperationalHealth(health: Health, now: int)
    requires health.Health? && health.checkedAt.Some?
  {
    && health.mode == "operational" && health.uncertainty.Null? && health.source == "systemd-timesyncd"
    && health.lastSync.Some?
    && 0 <= health.checkedAt.value - health.lastSync.value <= 7200000
    && 0 <= now - health.lastSync.value <= 7200000
  }

  /** What a clock in state `s`, just advanced, reports. */
  function Reading(s: ClockState, mode: Mode, health: Health): Option<Sample> {
    var now := ToMillis(s.wall);
    if s.failed then None
    else match mode
      case System => Some(Sample(now, None))
      case Bounded =>
        if Fresh(health, now) && health.uncertainty.Millis? && 0 <= health.uncertainty.ms <= 1000
        then Some(Sample(now, Some(health.uncertainty.ms))) else None
      case Operational =>
        if Fresh(health, now) && OperationalHealth(health, now) then Some(Sample(now, None)) else None
  }

  class WitnessClock {
    const mode: Mode
    var previous: (real, real)
    var failed: bool

    constructor (mode: Mode, wall: real, monotonic: real)
      ensures this.mode == mode && State() == ClockState(wall, monotonic, false)
    {
      this.mode := mode;
      previous, failed := (wall, monotonic), false;
    }

    function State(): ClockState
      reads this
    {
      ClockState(previous.0, previous.1, failed)
    }

    /** sample: always remembers the new readings, latches a step, and then consults the monitor. */
    method TakeSample(wall: real, monotonic: real, health: Health) returns (r: Option<Sample>)
      modifies this
      ensures State() == Advance(old(State()), wall, monotonic)
      ensures r == Reading(State(), mode, health)
    {
      var oldWall, oldMonotonic := previous.0, previous.1;
      previous := (wall, monotonic);
      if Abs((wall - oldWall) - (monotonic - oldMonotonic)) > STEP_TOLERANCE {
        failed := true;
      }
      if failed {
        return None;
      }
      var now := ToMillis(wall);
      if mode.System? {
        return Some(Sample(now, None));
      }
      if !Fresh(health, now) {
        return None;
      }
      if mode.Bounded? {
        if !health.uncertainty.Millis? || !(0 <= health.uncertainty.ms <= 1000) {
          return None;
        }
        return Some(Sample(now, Some(health.uncertainty.ms)));
      }
      r := if OperationalHealth(health, now) then Some(Sample(now, None)) else None;
    }
  }

  /** When the clock reports, and what. Without a step: in system mode always; in bounded mode on a synchronized
      health file at most 30 s old that states at most a second of uncertainty; in operational mode on such a file
      of the named source, without uncertainty, synchronized within the two hours before its check and before now. */
  lemma ReportsIff(s: ClockState, mode: Mode, health: Health)
    ensures Reading(s, mode, health).Some? <==>
      !s.failed
      && (mode.System?
          || (health.Health? && health.synchronized && health.checkedAt.Some?
              && health.checkedAt.value <= ToMillis(s.wall) <= health.checkedAt.value + 30 * 1000
              && if mode.Bounded? then health.uncertainty.Millis? && 0 <= health.uncertainty.ms <= 1000
                 else health.mode == "operational" && health.uncertainty.Null? && health.source == "systemd-timesyncd"
                      && health.lastSync.Some? && health.lastSync.value <= health.checkedAt.value
                      && ToMillis(s.wall) <= health.lastSync.value + 2 * 60 * 60 * 1000))
    ensures Reading(s, mode, health).Some? ==>
      Reading(s, mode, health).value
      == Sample(ToMillis(s.wall), if mode.Bounded? then Some(health.uncertainty.ms) else None)
  {
  }

  /** Milliseconds are whole ones, rounded toward the epoch. */
  lemma MillisRoundDown(wall: real)
    requires 0.0 <= wall
    ensures ToMillis(wall) as real <= wall * 1000.0 < (ToMillis(wall) + 1) as real
  {
  }

  // ----- Runs of samples

  /** The clock after each of a run of samples; element i is the state after i samples. */
  function AdvanceAll(s: ClockState, samples: seq<(real, real)>, n: nat): ClockState
    requires n <= |samples|
  {
    if n == 0 then s else Advance(AdvanceAll(s, samples, n - 1), samples[n - 1].0, samples[n - 1].1)
  }

  /** Once a step was seen the clock reports nothing ever again, in any mode, for any monitor. */
  lemma {:induction false} LatchedForever(s: ClockState, samples: seq<(real, real)>, i: nat, j: nat, mode: Mode,
    health: Health)
    requires i <= j <= |samples| && AdvanceAll(s, samples, i).failed
    ensures AdvanceAll(s, samples, j).failed && Reading(AdvanceAll(s, samples, j), mode, health).None?
  {
    if i < j {
      LatchedForever(s, samples, i, j - 1, mode, health);
    }
  }

  /** Between any two samples of an unlatched clock, wall time and monotonic time drifted apart by at
      most a quarter second per sample. */
  lemma {:induction false} DriftIsBounded(s: ClockState, samples: seq<(real, real)>, i: nat, j: nat)
    requires i <= j <= |samples| && !AdvanceAll(s, samples, j).failed
    ensures var a, b := ReadingsAfter(s, samples, i), ReadingsAfter(s, samples, j);
      -0.25 * ((j - i) as real) <= (b.0 - a.0) - (b.1 - a.1) <= 0.25 * ((j - i) as real)
  {
    if i < j {
      DriftIsBounded(s, samples, i, j - 1);
      assert 0.25 * ((j - i) as real) == 0.25 * ((j - 1 - i) as real) + 0.25;
    }
  }

  /** The last wall and monotonic readings after n samples. */
  function ReadingsAfter(s: ClockState, samples: seq<(real, real)>, n: nat): (real, real)
    requires n <= |samples|
  {
    if n == 0 then (s.wall, s.monotonic) else samples[n - 1]
  }

  predicate StepsAt(s: ClockState, samples: seq<(real, real)>, i: nat)
    requires i < |samples|
  {
    var before := ReadingsAfter(s, samples, i);
    var drift := (samples[i].0 - before.0) - (samples[i].1 - before.1);
    drift > 0.25 || drift < -0.25
  }

  /** The clock latches exactly when some single sample steps; no slow sequence of drifts does it. */
  lemma {:induction false} LatchedIff(s: ClockState, samples: seq<(real, real)>, n: nat)
    requires n <= |samples| && !s.failed
    ensures AdvanceAll(s, samples, n).failed <==> exists i :: 0 <= i < n && StepsAt(s, samples, i)
  {
    if n > 0 {
      LatchedIff(s, samples, n - 1);
      assert AdvanceAll(s, samples, n).failed <==> AdvanceAll(s, samples, n - 1).failed || StepsAt(s, samples, n - 1);
    }
  }

  /** On a monotonic clock that never runs backwards, wall time falls by at most that much. */
  lemma WallFallsSlowly(s: ClockState, samples: seq<(real, real)>, i: nat, j: nat)
    requires i <= j <= |samples| && !AdvanceAll(s, samples, j).failed
    requires ReadingsAfter(s, samples, i).1 <= ReadingsAfter(s, samples, j).1
    ensures ReadingsAfter(s, samples, i).0 - ReadingsAfter(s, samples, j).0 <= 0.25 * ((j - i) as real)
  {
    DriftIsBounded(s, samples, i, j);
  }
}
