/**
 * The two-peak diurnal curve that paces the synthetic traffic.
 *
 * Three scripts use the same curve: a Gaussian bump of width 120 minutes
 * centred at noon (minute 720) and a second bump of half the height
 * centred at 18:00 (minute 1080), on top of a base rate.  The exponential
 * function is not modelled numerically: every member that evaluates the
 * curve takes the exponential as a parameter `exp` and assumes only
 * `IsExpOnNonPositive(exp)`, i.e. that exp maps every non-positive real
 * into (0, 1].
 */
module Diurnal {

  const MinutesPerDay: real := 1440.0
  const PeakWidth: real := 120.0
  const NoonMinute: real := 720.0
  const EveningMinute: real := 1080.0
  const BaseRate: real := 50.0
  const PeakRateAdd: real := 30.0
  /** Fallback delay, in seconds, used when the rate is not positive. */
  const FallbackDelay: real := 60.0

  /** The only facts about the exponential that the model relies on. */
  ghost predicate IsExpOnNonPositive(exp: real -> real)
  {
    forall x: real :: x <= 0.0 ==> 0.0 < exp(x) <= 1.0
  }

  /** The exponent -((m - center)^2) / (2 * 120^2) of a Gaussian bump. */
  function GaussianExponent(m: real, center: real): (e: real)
    ensures e <= 0.0
  {
    -((m - center) * (m - center)) / (2.0 * PeakWidth * PeakWidth)
  }

  /**
   * `x - floor(x / 1440) * 1440`: the position of minute `x` within its
   * day.  Python's float `x % 1440` computes the same value.
   */
  function MinutesOfDay(x: real): (m: real)
    ensures 0.0 <= m < MinutesPerDay
  {
    x - (x / MinutesPerDay).Floor as real * MinutesPerDay
  }

  /** Adding whole days does not move the minute of the day. */
  lemma MinutesOfDayPeriodic(x: real, days: int)
    ensures MinutesOfDay(x + days as real * MinutesPerDay) == MinutesOfDay(x)
  {
    var y := x / MinutesPerDay;
    assert (x + days as real * MinutesPerDay) / MinutesPerDay == y + days as real;
    assert (y + days as real).Floor == y.Floor + days;
  }

  /** A minute that already lies within a day is its own minute of the day. */
  lemma MinutesOfDayWithinDay(x: real)
    requires 0.0 <= x < MinutesPerDay
    ensures MinutesOfDay(x) == x
  {
    assert (x / MinutesPerDay).Floor == 0;
  }

  /**
   * The diurnal rate before any clamp, in calls per minute:
   * 50 + 30 * (peak1 + peak2) + (noiseDraw * 10 - 5), where the peaks are
   * centred at 720 + shift1 and 1080 + shift2 and `noiseDraw` is the value
   * of `random.random()`.
   */
  function Rate(exp: real -> real, m: real, shift1: real, shift2: real, noiseDraw: real): real
  {
    var peak1 := exp(GaussianExponent(m, NoonMinute + shift1));
    var peak2 := 0.5 * exp(GaussianExponent(m, EveningMinute + shift2));
    BaseRate + PeakRateAdd * (peak1 + peak2) + (noiseDraw * 10.0 - 5.0)
  }

  /**
   * Whatever the minute and the peak shifts, the peaks are positive and at
   * most 1 and 0.5, and the noise lies in [-5, 5), so the rate lies
   * strictly between 45 and 100.
   */
  lemma RateBand(exp: real -> real, m: real, shift1: real, shift2: real, noiseDraw: real)
    requires IsExpOnNonPositive(exp)
    requires 0.0 <= noiseDraw < 1.0
    ensures 45.0 < Rate(exp, m, shift1, shift2, noiseDraw) < 100.0
  {
    var e1 := GaussianExponent(m, NoonMinute + shift1);
    var e2 := GaussianExponent(m, EveningMinute + shift2);
    assert 0.0 < exp(e1) <= 1.0;
    assert 0.0 < exp(e2) <= 1.0;
  }

  /**
   * Seconds to wait between calls at `rate` calls per minute: 60 / rate
   * when the rate is positive, the fixed fallback of 60 otherwise.
   */
  function DelayForRate(rate: real): (delay: real)
    ensures delay > 0.0
    ensures rate > 0.0 ==> delay * rate == 60.0
    ensures rate <= 0.0 ==> delay == FallbackDelay
  {
    if rate > 0.0 then 60.0 / rate else FallbackDelay
  }

  /** A rate in (45, 100) yields a delay in (0.6, 60/45), never the fallback. */
  lemma DelayBand(rate: real)
    requires 45.0 < rate < 100.0
    ensures 0.6 < DelayForRate(rate) < 60.0 / 45.0
    ensures DelayForRate(rate) < FallbackDelay
  {
    var d := DelayForRate(rate);
    assert d * rate == 60.0;
    assert d * 100.0 > 60.0;
    assert d * 45.0 < 60.0;
  }
}
