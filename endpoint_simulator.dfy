/**
 * The API call simulator of test_endpoint.py: a fixed table of endpoint
 * weights normalised to probabilities, the diurnal rate, the weighted
 * endpoint choice made by `random.choices`, and the pacing loop of `run`.
 */
module EndpointSimulator {
  import Diurnal

  /** One entry of the simulator's `endpoints` dictionary. */
  datatype Endpoint = Endpoint(name: string, weight: int)

  /** The `endpoints` dictionary, in its insertion order. */
  const Endpoints: seq<Endpoint> := [
    Endpoint("index", 1),
    Endpoint("setCurrency", 2),
    Endpoint("browseProduct", 10),
    Endpoint("addToCart", 2),
    Endpoint("viewCart", 3),
    Endpoint("checkout", 1)
  ]

  function Names(es: seq<Endpoint>): (ns: seq<string>)
    ensures |ns| == |es|
    ensures forall i :: 0 <= i < |es| ==> ns[i] == es[i].name
  {
    seq(|es|, i requires 0 <= i < |es| => es[i].name)
  }

  /** `sum(endpoints.values())`. */
  function TotalWeight(es: seq<Endpoint>): int
  {
    if es == [] then 0 else es[0].weight + TotalWeight(es[1..])
  }

  /** With every weight positive, the total is at least the number of endpoints, so never 0 for a non-empty table. */
  lemma {:induction false} TotalWeightOfPositive(es: seq<Endpoint>)
    requires forall i :: 0 <= i < |es| ==> es[i].weight > 0
    ensures TotalWeight(es) >= |es|
  {
    if es != [] {
      assert forall i :: 0 <= i < |es[1..]| ==> es[1..][i].weight > 0 by {
        forall i | 0 <= i < |es[1..]| ensures es[1..][i].weight > 0 {
          assert es[1..][i] == es[i + 1];
        }
      }
      TotalWeightOfPositive(es[1..]);
    }
  }

  function Sum(xs: seq<real>): real
  {
    if xs == [] then 0.0 else xs[0] + Sum(xs[1..])
  }

  /** Each weight divided by `total`, in table order. */
  function Shares(es: seq<Endpoint>, total: real): (ps: seq<real>)
    requires total != 0.0
    ensures |ps| == |es|
    ensures forall i :: 0 <= i < |es| ==> ps[i] * total == es[i].weight as real
  {
    seq(|es|, i requires 0 <= i < |es| => es[i].weight as real / total)
  }

  /** `{k: v / total_weight for k, v in endpoints.items()}`, as a sequence in table order. */
  function Probabilities(es: seq<Endpoint>): (ps: seq<real>)
    requires TotalWeight(es) != 0
    ensures |ps| == |es|
    ensures forall i :: 0 <= i < |es| ==> ps[i] * TotalWeight(es) as real == es[i].weight as real
  {
    Shares(es, TotalWeight(es) as real)
  }

  /** Dividing every weight by the same total divides their sum by it. */
  lemma {:induction false} SumOfShares(es: seq<Endpoint>, total: real)
    requires total != 0.0
    ensures Sum(Shares(es, total)) == TotalWeight(es) as real / total
  {
    if es != [] {
      assert Shares(es, total)[1..] == Shares(es[1..], total);
      SumOfShares(es[1..], total);
    }
  }

  lemma DivSelf(t: real)
    requires t != 0.0
    ensures t / t == 1.0
  {
    assert (t / t) * t == 1.0 * t;
  }

  /** Normalised weights sum to exactly 1 (over the reals). */
  lemma ProbabilitiesSumToOne(es: seq<Endpoint>)
    requires TotalWeight(es) != 0
    ensures Sum(Probabilities(es)) == 1.0
  {
    var total := TotalWeight(es) as real;
    SumOfShares(es, total);
    DivSelf(total);
  }

  /**
   * The table has six distinct names with positive weights totalling 19,
   * so each probability is its weight divided by 19.
   */
  lemma EndpointTableFacts()
    ensures |Endpoints| == 6
    ensures forall i :: 0 <= i < |Endpoints| ==> Endpoints[i].weight > 0
    ensures forall i, j :: 0 <= i < j < |Endpoints| ==> Endpoints[i].name != Endpoints[j].name
    ensures TotalWeight(Endpoints) == 19
    ensures forall i :: 0 <= i < |Endpoints| ==> Probabilities(Endpoints)[i] == Endpoints[i].weight as real / 19.0
  {
    assert TotalWeight(Endpoints[5..]) == 1;
    assert TotalWeight(Endpoints[4..]) == 4;
    assert TotalWeight(Endpoints[3..]) == 6;
    assert TotalWeight(Endpoints[2..]) == 16;
    assert TotalWeight(Endpoints[1..]) == 18;
  }

  /** The total of the first `i` probabilities. */
  function WeightBefore(ps: seq<real>, i: nat): real
    requires i <= |ps|
  {
    if i == 0 then 0.0 else ps[0] + WeightBefore(ps[1..], i - 1)
  }

  /**
   * The index `bisect(cum_weights, x, 0, n - 1)` that `random.choices`
   * returns: the first index whose cumulative weight exceeds `x`, or the
   * last index when none before it does.
   */
  function PickIndex(ps: seq<real>, x: real): (i: nat)
    requires |ps| > 0
    requires 0.0 <= x
    ensures i < |ps|
    ensures WeightBefore(ps, i) <= x
    ensures i == |ps| - 1 || x < WeightBefore(ps, i + 1)
  {
    if |ps| == 1 || x < ps[0] then 0
    else 1 + PickIndex(ps[1..], x - ps[0])
  }

  predicate NonNegative(ps: seq<real>)
  {
    forall i :: 0 <= i < |ps| ==> 0.0 <= ps[i]
  }

  lemma {:induction false} WeightBeforeNonNegative(ps: seq<real>, i: nat)
    requires i <= |ps|
    requires NonNegative(ps)
    ensures 0.0 <= WeightBefore(ps, i)
  {
    if i > 0 {
      WeightBeforeNonNegative(ps[1..], i - 1);
    }
  }

  /** The interval of index `i` has the width of its probability. */
  lemma {:induction false} WeightBeforeStep(ps: seq<real>, i: nat)
    requires i < |ps|
    ensures WeightBefore(ps, i + 1) == WeightBefore(ps, i) + ps[i]
  {
    if i > 0 {
      WeightBeforeStep(ps[1..], i - 1);
    }
  }

  lemma {:induction false} WeightBeforeAll(ps: seq<real>)
    ensures WeightBefore(ps, |ps|) == Sum(ps)
  {
    if ps != [] {
      WeightBeforeAll(ps[1..]);
    }
  }

  /** Every draw inside the interval of index `i` selects `i`. */
  lemma {:induction false} PickIndexOfInterval(ps: seq<real>, x: real, i: nat)
    requires NonNegative(ps)
    requires i < |ps|
    requires WeightBefore(ps, i) <= x < WeightBefore(ps, i + 1)
    ensures 0.0 <= x && PickIndex(ps, x) == i
  {
    WeightBeforeNonNegative(ps, i);
    if i > 0 {
      WeightBeforeNonNegative(ps[1..], i - 1);
      PickIndexOfInterval(ps[1..], x - ps[0], i - 1);
    }
  }

  /**
   * `select_endpoint`: `random.choices(keys, weights=probabilities)[0]`,
   * where `pickDraw` is the `random.random()` that `random.choices` scales
   * by the total of the weights.
   */
  function SelectEndpoint(pickDraw: real): (name: string)
    requires 0.0 <= pickDraw < 1.0
    ensures name in Names(Endpoints)
  {
    EndpointTableFacts();
    ProbabilitiesSumToOne(Endpoints);
    var ps := Probabilities(Endpoints);
    Endpoints[PickIndex(ps, pickDraw * Sum(ps))].name
  }

  /**
   * Endpoint `i` is selected exactly when the draw falls in an interval of
   * width weight / 19, the endpoint's probability; the six intervals tile
   * [0, 1).
   */
  lemma SelectEndpointInterval(pickDraw: real, i: nat)
    requires 0.0 <= pickDraw < 1.0
    requires i < |Endpoints|
    ensures SelectEndpoint(pickDraw) == Endpoints[i].name <==>
              && WeightBefore(Probabilities(Endpoints), i) <= pickDraw
              && pickDraw < WeightBefore(Probabilities(Endpoints), i) + Endpoints[i].weight as real / 19.0
  {
    EndpointTableFacts();
    ProbabilitiesSumToOne(Endpoints);
    var ps := Probabilities(Endpoints);
    assert pickDraw * Sum(ps) == pickDraw;
    WeightBeforeStep(ps, i);
    WeightBeforeAll(ps);
    var r := PickIndex(ps, pickDraw);
    assert SelectEndpoint(pickDraw) == Endpoints[r].name;
    if WeightBefore(ps, i) <= pickDraw < WeightBefore(ps, i + 1) {
      assert NonNegative(ps);
      PickIndexOfInterval(ps, pickDraw, i);
    }
    if Endpoints[r].name == Endpoints[i].name {
      assert r == i;
    }
  }

  /**
   * `calculate_rate`: the diurnal rate at minute `x` with both peaks
   * unshifted, clamped by `max(0, rate)`.  The raw rate already lies in
   * (45, 100), so the clamp never changes it.
   */
  function CalculateRate(exp: real -> real, x: real, noiseDraw: real): (rate: real)
    requires Diurnal.IsExpOnNonPositive(exp)
    requires 0.0 <= noiseDraw < 1.0
    ensures rate >= 0.0
    ensures 45.0 < rate < 100.0
    ensures rate == Diurnal.Rate(exp, Diurnal.MinutesOfDay(x), 0.0, 0.0, noiseDraw)
  {
    var rate := Diurnal.Rate(exp, Diurnal.MinutesOfDay(x), 0.0, 0.0, noiseDraw);
    Diurnal.RateBand(exp, Diurnal.MinutesOfDay(x), 0.0, 0.0, noiseDraw);
    if rate < 0.0 then 0.0 else rate
  }

  /** `int(x)` on a float: truncation toward zero. */
  function Truncate(x: real): (n: int)
    ensures x >= 0.0 ==> n as real <= x < n as real + 1.0
    ensures x < 0.0 ==> n as real - 1.0 < x <= n as real
  {
    if x >= 0.0 then x.Floor else -((-x).Floor)
  }

  /** The random values one iteration of `run` draws. */
  datatype RunDraw = RunDraw(noiseDraw: real, pickDraw: real)

  predicate ValidDraw(d: RunDraw)
  {
    0.0 <= d.noiseDraw < 1.0 && 0.0 <= d.pickDraw < 1.0
  }

  /** What one iteration of `run` does: which endpoint it calls and how long it then sleeps. */
  datatype ApiCall = ApiCall(endpoint: string, delay: real)

  /**
   * One iteration of `run`, `elapsedSeconds` after the start: the rate at
   * minute `elapsedSeconds / 60`, its delay, and the selected endpoint.
   */
  function RunStep(exp: real -> real, elapsedSeconds: real, d: RunDraw): (call: ApiCall)
    requires Diurnal.IsExpOnNonPositive(exp)
    requires ValidDraw(d)
    ensures call.endpoint in Names(Endpoints)
    ensures 0.6 < call.delay < 60.0 / 45.0
  {
    var rate := CalculateRate(exp, elapsedSeconds / 60.0, d.noiseDraw);
    Diurnal.DelayBand(rate);
    ApiCall(SelectEndpoint(d.pickDraw), Diurnal.DelayForRate(rate))
  }

  /**
   * How many iterations `run` makes when `minute_counter` starts at
   * `counter` and the clock reads `elapsed` at the top of each iteration:
   * it continues while the counter is below the duration, and each
   * iteration sets the counter to its truncated minute.
   */
  function Iterations(counter: int, durationMinutes: int, elapsed: seq<real>): (n: nat)
    ensures n <= |elapsed|
    decreases |elapsed|
  {
    if counter >= durationMinutes || elapsed == [] then 0
    else 1 + Iterations(Truncate(elapsed[0] / 60.0), durationMinutes, elapsed[1..])
  }

  /**
   * The loop stops only because the duration is reached: every iteration
   * but the last saw a minute below the duration, and when readings are
   * left over the last iteration saw a minute at or past it.
   */
  lemma {:induction false} IterationsStopAtDuration(counter: int, durationMinutes: int, elapsed: seq<real>)
    ensures forall i :: 0 <= i < Iterations(counter, durationMinutes, elapsed) - 1 ==>
              Truncate(elapsed[i] / 60.0) < durationMinutes
    ensures Iterations(counter, durationMinutes, elapsed) < |elapsed| ==>
              if Iterations(counter, durationMinutes, elapsed) == 0 then counter >= durationMinutes
              else Truncate(elapsed[Iterations(counter, durationMinutes, elapsed) - 1] / 60.0) >= durationMinutes
    decreases |elapsed|
  {
    if counter < durationMinutes && elapsed != [] {
      var next := Truncate(elapsed[0] / 60.0);
      IterationsStopAtDuration(next, durationMinutes, elapsed[1..]);
      var n := Iterations(counter, durationMinutes, elapsed);
      assert n == 1 + Iterations(next, durationMinutes, elapsed[1..]);
      forall i | 0 <= i < n - 1
        ensures Truncate(elapsed[i] / 60.0) < durationMinutes
      {
        if i > 0 {
          assert elapsed[i] == elapsed[1..][i - 1];
        } else if n == 1 {
        } else {
          assert Iterations(next, durationMinutes, elapsed[1..]) > 0;
        }
      }
    }
  }

  lemma IterationsUnfold(counter: int, durationMinutes: int, elapsed: seq<real>, k: nat)
    requires k < |elapsed|
    requires counter < durationMinutes
    ensures Iterations(counter, durationMinutes, elapsed[k..])
         == 1 + Iterations(Truncate(elapsed[k] / 60.0), durationMinutes, elapsed[k + 1..])
  {
    assert elapsed[k..][0] == elapsed[k] && elapsed[k..][1..] == elapsed[k + 1..];
  }

  /**
   * The body of one `run` iteration: the rate at the current minute, the
   * delay for that rate (60 seconds when the rate is not positive), and
   * the selected endpoint.
   */
  method PaceOnce(exp: real -> real, elapsedSeconds: real, d: RunDraw) returns (call: ApiCall)
    requires Diurnal.IsExpOnNonPositive(exp)
    requires ValidDraw(d)
    ensures call == RunStep(exp, elapsedSeconds, d)
  {
    var currentMinute := elapsedSeconds / 60.0;
    var currentRate := CalculateRate(exp, currentMinute, d.noiseDraw);
    var delay;
    if currentRate > 0.0 {
      delay := 60.0 / currentRate;
    } else {
      delay := Diurnal.FallbackDelay;
    }
    var endpoint := SelectEndpoint(d.pickDraw);
    call := ApiCall(endpoint, delay);
  }

  /**
   * One iteration of the `run` loop taken at reading `k`: it appends the
   * call `RunStep` specifies and sets the counter to the truncated minute,
   * so one iteration fewer remains.
   */
  method RunNext(exp: real -> real, durationMinutes: int, elapsed: seq<real>, draws: seq<RunDraw>,
                 k: nat, minuteCounter: int, calls: seq<ApiCall>)
    returns (calls': seq<ApiCall>, minuteCounter': int)
    requires Diurnal.IsExpOnNonPositive(exp)
    requires |draws| == |elapsed| && k < |elapsed|
    requires forall j :: 0 <= j < |draws| ==> ValidDraw(draws[j])
    requires minuteCounter < durationMinutes
    requires |calls| == k
    requires forall j :: 0 <= j < k ==> calls[j] == RunStep(exp, elapsed[j], draws[j])
    ensures |calls'| == k + 1
    ensures forall j :: 0 <= j < k + 1 ==> calls'[j] == RunStep(exp, elapsed[j], draws[j])
    ensures Iterations(minuteCounter, durationMinutes, elapsed[k..])
         == 1 + Iterations(minuteCounter', durationMinutes, elapsed[k + 1..])
  {
    var currentMinute := elapsed[k] / 60.0;
    var call := PaceOnce(exp, elapsed[k], draws[k]);
    calls' := calls + [call];
    IterationsUnfold(minuteCounter, durationMinutes, elapsed, k);
    minuteCounter' := Truncate(currentMinute);
  }

  /**
   * `run(duration_minutes)`: the pacing loop, given the clock readings
   * (seconds since the start) at the top of successive iterations and the
   * random draws of each iteration.  The model stops when the readings run
   * out; it returns the calls made, each with the delay slept after it.
   */
  method Run(exp: real -> real, durationMinutes: int, elapsed: seq<real>, draws: seq<RunDraw>)
    returns (calls: seq<ApiCall>)
    requires Diurnal.IsExpOnNonPositive(exp)
    requires |draws| == |elapsed|
    requires forall k :: 0 <= k < |draws| ==> ValidDraw(draws[k])
    ensures |calls| == Iterations(0, durationMinutes, elapsed)
    ensures forall k :: 0 <= k < |calls| ==> calls[k] == RunStep(exp, elapsed[k], draws[k])
  {
    var minuteCounter := 0;
    var k := 0;
    calls := [];
    assert elapsed[k..] == elapsed;
    while minuteCounter < durationMinutes && k < |elapsed|
      invariant 0 <= k <= |elapsed|
      invariant |calls| == k
      invariant forall j :: 0 <= j < k ==> calls[j] == RunStep(exp, elapsed[j], draws[j])
      invariant Iterations(0, durationMinutes, elapsed) == k + Iterations(minuteCounter, durationMinutes, elapsed[k..])
      decreases |elapsed| - k
    {
      calls, minuteCounter := RunNext(exp, durationMinutes, elapsed, draws, k, minuteCounter, calls);
      k := k + 1;
    }
  }
}
