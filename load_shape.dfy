/**
 * The diurnal load shape tester of simulate_load_shape.py: a configuration
 * fixed at construction, a `Tick` that maps a run time in seconds to a
 * (user count, spawn rate) pair, and the loop of the script's `main` that
 * records one user count per second of the run.
 */
module LoadShape {
  import opened Wrappers
  import Diurnal

  const SecondsPerDay: int := 86400
  const MinutesPerDayInt: int := 1440

  /** Raised by the constructor when the run time is zero. */
  datatype InitError = ZeroDivisionError

  /** The fields of a DiurnalShapeTester; `simulate_load_shape.py` never updates them. */
  datatype ShapeTester = ShapeTester(
    totalRunTime: int,
    baseUsers: int,
    peakUserAdd: int,
    randomNoiseRange: int,
    scalingParam: int)

  /** One result of `tick`: the user count and the spawn rate. */
  datatype UserTick = UserTick(userCount: int, spawnRate: int)

  function Abs(x: int): nat { if x < 0 then -x else x }

  function Max(a: real, b: real): real { if a < b then b else a }

  /**
   * `int(86400 / total_run_time)`: true division, then truncation toward
   * zero.  The result is the largest whole number of `total_run_time`s that
   * fit in a day, with the sign of `total_run_time`.
   */
  function ScalingParam(totalRunTime: int): (s: int)
    requires totalRunTime != 0
    ensures Abs(s) * Abs(totalRunTime) <= SecondsPerDay < (Abs(s) + 1) * Abs(totalRunTime)
    ensures totalRunTime > 0 ==> s >= 0
    ensures totalRunTime < 0 ==> s <= 0
  {
    if totalRunTime > 0 then SecondsPerDay / totalRunTime
    else -(SecondsPerDay / -totalRunTime)
  }

  /** The truncation drops the fraction: a run longer than a day scales by 0. */
  lemma ScalingParamOfLongRun(totalRunTime: int)
    requires totalRunTime > SecondsPerDay
    ensures ScalingParam(totalRunTime) == 0
  {
  }

  /**
   * `DiurnalShapeTester.__init__`: stores the configuration and derives
   * `scaling_param`; a zero run time raises ZeroDivisionError.
   */
  function NewShapeTester(totalRunTime: int, baseUsers: int, peakUserAdd: int, randomNoiseRange: int)
    : (r: Result<ShapeTester, InitError>)
    ensures r.Failure? <==> totalRunTime == 0
    ensures r.Success? ==>
      && r.value.totalRunTime == totalRunTime
      && r.value.baseUsers == baseUsers
      && r.value.peakUserAdd == peakUserAdd
      && r.value.randomNoiseRange == randomNoiseRange
      && r.value.scalingParam == ScalingParam(totalRunTime)
  {
    if totalRunTime == 0 then Failure(ZeroDivisionError)
    else Success(ShapeTester(totalRunTime, baseUsers, peakUserAdd, randomNoiseRange, ScalingParam(totalRunTime)))
  }

  /**
   * `(run_time * scaling_param // 60) % 1440`: the simulated minute of the
   * day.  Python's `//` and `%` by a positive divisor floor, as Dafny's do.
   */
  function CurrentMinute(shape: ShapeTester, runTime: int): (m: int)
    ensures 0 <= m < MinutesPerDayInt
  {
    (runTime * shape.scalingParam / 60) % MinutesPerDayInt
  }

  /** `noise` is a value `random.uniform(-range, range)` can return. */
  predicate NoiseInRange(shape: ShapeTester, noise: real)
  {
    -(Abs(shape.randomNoiseRange) as real) <= noise <= Abs(shape.randomNoiseRange) as real
  }

  /**
   * `peak1 + peak2` at minute `m`: the noon peak at full height plus the
   * evening peak at half height, so in (0, 1.5] whenever `exp` is.
   */
  function PeakSum(exp: real -> real, m: real): (p: real)
    requires Diurnal.IsExpOnNonPositive(exp)
    ensures 0.0 < p <= 1.5
  {
    var peak1 := exp(Diurnal.GaussianExponent(m, Diurnal.NoonMinute));
    var peak2 := 0.5 * exp(Diurnal.GaussianExponent(m, Diurnal.EveningMinute));
    peak1 + peak2
  }

  /** `base_users + peak_user_add * (peak1 + peak2) + noise`, before the clamp. */
  function RawUserCount(shape: ShapeTester, exp: real -> real, runTime: int, noise: real): real
    requires Diurnal.IsExpOnNonPositive(exp)
  {
    shape.baseUsers as real + shape.peakUserAdd as real * PeakSum(exp, CurrentMinute(shape, runTime) as real) + noise
  }

  /**
   * `DiurnalShapeTester.tick`: None past the end of the run; otherwise the
   * raw count clamped at 0 and truncated by `int()`, returned as both the
   * user count and the spawn rate.
   */
  function Tick(shape: ShapeTester, exp: real -> real, runTime: int, noise: real): (r: Option<UserTick>)
    requires Diurnal.IsExpOnNonPositive(exp)
    ensures r.None? <==> runTime > shape.totalRunTime
    ensures r.Some? ==> r.value.userCount >= 0 && r.value.spawnRate == r.value.userCount
    ensures r.Some? ==> r.value.userCount as real <= Max(0.0, RawUserCount(shape, exp, runTime, noise))
    ensures r.Some? ==> Max(0.0, RawUserCount(shape, exp, runTime, noise)) < r.value.userCount as real + 1.0
  {
    if runTime > shape.totalRunTime then None
    else
      var userCount := Max(0.0, RawUserCount(shape, exp, runTime, noise)).Floor;
      Some(UserTick(userCount, userCount))
  }

  /** Scaling by a non-negative factor keeps the order. */
  lemma ScaleMonotone(a: real, x: real, y: real)
    requires 0.0 <= a && 0.0 <= x <= y
    ensures 0.0 <= a * x <= a * y
  {
  }

  /**
   * With a non-negative peak addition and noise within its range, a tick's
   * user count is at most `base_users + 1.5 * peak_user_add + range` (or 0
   * when that is negative), and at least `base_users - range` when that is
   * not negative.
   */
  lemma TickUserCountBounds(shape: ShapeTester, exp: real -> real, runTime: int, noise: real)
    requires Diurnal.IsExpOnNonPositive(exp)
    requires shape.peakUserAdd >= 0
    requires NoiseInRange(shape, noise)
    requires runTime <= shape.totalRunTime
    ensures Tick(shape, exp, runTime, noise).Some?
    ensures Tick(shape, exp, runTime, noise).value.userCount as real
         <= Max(0.0, shape.baseUsers as real + 1.5 * shape.peakUserAdd as real + Abs(shape.randomNoiseRange) as real)
    ensures shape.baseUsers - Abs(shape.randomNoiseRange) >= 0 ==>
              Tick(shape, exp, runTime, noise).value.userCount >= shape.baseUsers - Abs(shape.randomNoiseRange)
  {
    var q := PeakSum(exp, CurrentMinute(shape, runTime) as real);
    var add := shape.peakUserAdd as real;
    ScaleMonotone(add, q, 1.5);
    var raw := RawUserCount(shape, exp, runTime, noise);
    var bound := shape.baseUsers as real + 1.5 * add + Abs(shape.randomNoiseRange) as real;
    assert raw <= bound;
    assert Max(0.0, raw) <= Max(0.0, bound);
  }

  /**
   * The loop of the script's `main`: ticks every second of
   * `range(total_run_time + 1)`, stopping at the first None, and records
   * `(t, user_count)`; `noises[t]` is the noise drawn by the tick at `t`.
   * No tick in that range returns None, so every second is recorded.
   */
  method RecordShape(shape: ShapeTester, exp: real -> real, noises: seq<real>) returns (results: seq<(int, int)>)
    requires Diurnal.IsExpOnNonPositive(exp)
    requires |noises| == if shape.totalRunTime >= 0 then shape.totalRunTime + 1 else 0
    ensures |results| == |noises|
    ensures forall t :: 0 <= t < |results| ==>
              && results[t].0 == t
              && Tick(shape, exp, t, noises[t]).Some?
              && results[t].1 == Tick(shape, exp, t, noises[t]).value.userCount
    ensures forall i, j :: 0 <= i < j < |results| ==> results[i].0 < results[j].0
  {
    results := [];
    var t := 0;
    while t < shape.totalRunTime + 1
      invariant 0 <= t <= |noises|
      invariant |results| == t
      invariant forall i :: 0 <= i < t ==>
                  && results[i].0 == i
                  && Tick(shape, exp, i, noises[i]).Some?
                  && results[i].1 == Tick(shape, exp, i, noises[i]).value.userCount
    {
      var tickResult := Tick(shape, exp, t, noises[t]);
      if tickResult.None? {
        break;
      }
      results := results + [(t, tickResult.value.userCount)];
      t := t + 1;
    }
  }

  /**
   * The script's `main`: a one-day run with 50 base users, a peak addition
   * of 200 and a noise range of 5.  All 86401 seconds are recorded, and
   * every user count lies between 45 and 355.
   */
  method SimulateDay(exp: real -> real, noises: seq<real>) returns (results: seq<(int, int)>)
    requires Diurnal.IsExpOnNonPositive(exp)
    requires |noises| == SecondsPerDay + 1
    requires forall t :: 0 <= t < |noises| ==> -5.0 <= noises[t] <= 5.0
    ensures |results| == SecondsPerDay + 1
    ensures forall t :: 0 <= t < |results| ==> results[t].0 == t && 45 <= results[t].1 <= 355
  {
    var created := NewShapeTester(SecondsPerDay, 50, 200, 5);
    var shape := created.value;
    results := RecordShape(shape, exp, noises);
    forall t | 0 <= t < |results|
      ensures 45 <= results[t].1 <= 355
    {
      TickUserCountBounds(shape, exp, t, noises[t]);
    }
  }
}
