# Diurnal load-testing demo, modelled in Dafny

The repository is a small load-testing demo for an online shop. Its logic
is spread over four scripts:

- **simulate_load_shape.py** — a `DiurnalShapeTester`. It maps the seconds
  since the start of a run to a user count that follows a two-peak daily
  curve (noon and 18:00) plus noise. Its `main` records one count per
  second of a one-day run.
- **test_endpoint.py** — an `APICallSimulator`. It has a fixed endpoint
  weight table normalised to probabilities, a weighted endpoint
  selector, the same curve read as calls per minute, and a pacing loop
  that sleeps `60 / rate` seconds between calls.
- **locustfile_updated.py** — the Locust user. Its task functions each
  issue a fixed sequence of shop requests with random product ids,
  currencies, quantities and card fields. It also has a task weight
  table, `on_start`, and a wait time between tasks derived from the
  curve.
- **orchestrate_load_test.py** — the orchestrator. A collector loop
  polls the cluster's pod-resource endpoint and appends one record per
  pod to a shared list until a stop flag is set. `main` runs the Locust
  driver, waits, stops and joins the collector, then saves the list as
  CSV.

The model has one module per script and two shared modules:

| file | module | contents |
|---|---|---|
| wrappers.dfy | `Wrappers` | `Option` and `Result` |
| diurnal.dfy | `Diurnal` | the curve, the minute of the day, the rate band and the rate-to-delay rule shared by three scripts |
| load_shape.dfy | `LoadShape` | `DiurnalShapeTester` and the recording loop of its `main` |
| endpoint_simulator.dfy | `EndpointSimulator` | the weight table, probabilities, the weighted selector, `calculate_rate` and the `run` loop |
| locust_traffic.dfy | `LocustTraffic` | the Locust task functions as methods appending to the client's request trace, the `UserBehavior.tasks` table, `on_start`, sessions, `diurnal_wait_time` |
| orchestration.dfy | `Orchestration` | `collect_resources` over a class-held buffer, `save_data_to_csv`, and the order of `main` |

Effects the scripts take from the outside world are parameters:

- The exponential is a parameter `exp: real -> real`. The only fact
  assumed about it is that it maps every non-positive real into (0, 1].
- Each random draw is a parameter constrained to the range its call
  returns:
  - `random.random()` lies in [0, 1);
  - `random.uniform(-r, r)` lies in [-|r|, |r|];
  - `random.choice(s)` is an index below `|s|`;
  - `random.randint(a, b)` is an offset of at most `b - a`.
- Clock readings are parameters: the wall-clock hour, minute and second,
  the current year, the elapsed seconds at the top of each `run`
  iteration, and the timestamp of each collector iteration.
- Each resource fetch is an outcome: the decoded JSON array, or a failure.
- Each check of the stop flag is the boolean it returned.

Python's `//` and `%` by a positive divisor floor, as Dafny's do. `int()`
on a float truncates toward zero and is written out as such.

## Model

| member | source | states |
|---|---|---|
| Diurnal.GaussianExponent | test_endpoint.py:33-35 | the exponent of each Gaussian bump is never positive, so each bump lies in (0, 1] |
| Diurnal.MinutesOfDay | test_endpoint.py:30 | `x - floor(x/1440)*1440` always lies in [0, 1440) |
| Diurnal.MinutesOfDayPeriodic | test_endpoint.py:30 | adding any whole number of days to `x` leaves the minute of the day unchanged |
| Diurnal.MinutesOfDayWithinDay | locustfile_updated.py:87-88 | a minute already in [0, 1440) is its own minute of the day, so the `% 1440` there changes nothing |
| Diurnal.Rate | test_endpoint.py:33-38 | the diurnal curve itself: 50 plus 30 times the noon bump and the half-height evening bump, centred at the shifted peaks, plus the noise `random()*10-5`; its bounds are stated by `Diurnal.RateBand` |
| Diurnal.RateBand | test_endpoint.py:33-38 | for any minute and any peak shifts, with noise `random()*10-5`, the rate lies strictly between 45 and 100 |
| Diurnal.DelayForRate | test_endpoint.py:67-70 | the delay is always positive; it is 60/rate when the rate is positive and the 60-second fallback otherwise |
| Diurnal.DelayBand | locustfile_updated.py:103-105 | a rate in (45, 100) gives a delay in (0.6, 60/45), which is below the fallback, so the fallback is never taken |
| LoadShape.ScalingParam | simulate_load_shape.py:15 | `int(86400 / t)` is the truncated quotient: `|s|*|t| <= 86400 < (|s|+1)*|t|`, with the sign of `t` |
| LoadShape.ScalingParamOfLongRun | simulate_load_shape.py:15 | a run longer than a day has scaling parameter 0 |
| LoadShape.NewShapeTester | simulate_load_shape.py:6-15 | construction fails with ZeroDivisionError exactly when the run time is 0; otherwise it stores the four settings and the scaling parameter |
| LoadShape.CurrentMinute | simulate_load_shape.py:21-23 | the simulated minute always lies in [0, 1440), for any run time and scaling parameter |
| LoadShape.PeakSum | simulate_load_shape.py:25-26 | the two peaks together lie in (0, 1.5]: the noon bump at most 1, the half-height evening bump at most 0.5 |
| LoadShape.RawUserCount | simulate_load_shape.py:30 | the user count before the clamp: `base_users + peak_user_add * (peak1 + peak2) + noise`; its bounds are stated by `LoadShape.TickUserCountBounds` |
| LoadShape.Tick | simulate_load_shape.py:17-39 | None exactly when the run time exceeds the total; otherwise the user count is a non-negative integer, the floor of the raw count clamped at 0, and the spawn rate equals it |
| LoadShape.TickUserCountBounds | simulate_load_shape.py:25-35 | with a non-negative peak addition and noise within its range, a tick in the run returns a count of at most `base + 1.5*peak + range` (or 0), and at least `base - range` when that is not negative |
| LoadShape.RecordShape | simulate_load_shape.py:49-56 | the loop over `range(total_run_time + 1)` never meets None; it records `total_run_time + 1` pairs `(t, count of tick t)` with strictly increasing `t` |
| LoadShape.SimulateDay | simulate_load_shape.py:41-56 | the script's one-day run records 86401 seconds, each with a user count between 45 and 355 |
| EndpointSimulator.TotalWeight | test_endpoint.py:25 | `sum(endpoints.values())`, the sum of the weights in table order |
| EndpointSimulator.TotalWeightOfPositive | test_endpoint.py:25 | with every weight positive the total is at least the number of endpoints, so the division at line 26 never divides by 0 for a non-empty table |
| EndpointSimulator.Shares | test_endpoint.py:26 | each share times the total is that endpoint's weight |
| EndpointSimulator.Probabilities | test_endpoint.py:25-26 | one probability per endpoint, in table order, each of which times the total weight is that endpoint's weight |
| EndpointSimulator.SumOfShares | test_endpoint.py:25-26 | the shares sum to the total weight divided by the divisor |
| EndpointSimulator.ProbabilitiesSumToOne | test_endpoint.py:25-26 | the normalised probabilities of any table with non-zero total sum to exactly 1 |
| EndpointSimulator.EndpointTableFacts | test_endpoint.py:15-26 | the table has six distinct names with positive weights totalling 19, and each probability is weight/19 |
| EndpointSimulator.PickIndex | test_endpoint.py:43-46 | weighted choice by bisection over cumulative weights: the chosen index's cumulative interval holds the scaled draw |
| EndpointSimulator.PickIndexOfInterval | test_endpoint.py:43-46 | a draw inside an index's cumulative interval picks exactly that index |
| EndpointSimulator.SelectEndpoint | test_endpoint.py:41-46 | the selected endpoint is always a key of the weight table |
| EndpointSimulator.SelectEndpointInterval | test_endpoint.py:41-46 | endpoint `i` is selected if and only if the draw lies in its interval, of width weight/19, above the cumulative probability of the endpoints before it |
| EndpointSimulator.CalculateRate | test_endpoint.py:28-39 | the rate is never negative; it lies in (45, 100), so `max(0, ·)` returns the unclamped curve value at the minute of the day of `x` |
| EndpointSimulator.Truncate | test_endpoint.py:77 | `int()` truncates toward zero: the result is within 1 of `x`, on the zero side |
| EndpointSimulator.RunStep | test_endpoint.py:63-76 | one iteration calls a table endpoint and then sleeps between 0.6 and 60/45 seconds |
| EndpointSimulator.PaceOnce | test_endpoint.py:63-76 | the statements of one loop iteration compute the call and delay `RunStep` specifies |
| EndpointSimulator.RunNext | test_endpoint.py:62-77 | an iteration taken while the counter is below the duration appends the specified call and leaves exactly one iteration fewer to run |
| EndpointSimulator.Iterations | test_endpoint.py:62-77 | the number of iterations `while minute_counter < duration_minutes` makes, when each iteration sets the counter to its truncated minute; never more than the clock readings available |
| EndpointSimulator.IterationsStopAtDuration | test_endpoint.py:62-77 | every iteration but the last saw a minute below the duration; when readings remain, the last one saw a minute at or past it |
| EndpointSimulator.Run | test_endpoint.py:58-77 | the loop makes the number of iterations the duration rule gives, and the k-th call is the step taken at the k-th clock reading |
| LocustTraffic.Choice | locustfile_updated.py:42 | `random.choice` returns an element of the list |
| LocustTraffic.RandInt | locustfile_updated.py:55 | `random.randint(lo, hi)` lies in [lo, hi] |
| LocustTraffic.DecimalString | locustfile_updated.py:74 | formatting a number gives a non-empty string of decimal digits without a leading zero |
| LocustTraffic.DecimalRoundTrip | locustfile_updated.py:74 | reading the formatted string back as a decimal gives the number |
| LocustTraffic.ThreeDigits | locustfile_updated.py:74 | a number in [100, 999] is written with exactly three digits |
| LocustTraffic.Client.Get | locustfile_updated.py:38 | a GET appends one request, with no form, to the client's trace |
| LocustTraffic.Client.Post | locustfile_updated.py:42 | a POST appends one request with its form to the client's trace |
| LocustTraffic.Index | locustfile_updated.py:37-38 | appends GET `/` |
| LocustTraffic.SetCurrency | locustfile_updated.py:40-42 | appends POST `/setCurrency` with a currency code from the list |
| LocustTraffic.BrowseProduct | locustfile_updated.py:44-45 | appends GET `/product/<id>` for a catalogue id |
| LocustTraffic.ViewCart | locustfile_updated.py:47-48 | appends GET `/cart` |
| LocustTraffic.AddToCart | locustfile_updated.py:50-56 | appends the product view and the cart post for the same drawn product |
| LocustTraffic.EmptyCart | locustfile_updated.py:58-59 | appends POST `/cart/empty` |
| LocustTraffic.Checkout | locustfile_updated.py:61-75 | appends the add-to-cart pair and then the checkout post, with next year as `current_year` |
| LocustTraffic.Logout | locustfile_updated.py:77-78 | appends GET `/logout` |
| LocustTraffic.AddToCartShape | locustfile_updated.py:50-56 | add-to-cart is GET `/product/p` for a catalogue `p`, then POST `/cart` with `product_id` equal to that same `p` and a quantity in [1, 10] |
| LocustTraffic.CheckoutShape | locustfile_updated.py:61-75 | checkout is the add-to-cart pair, then POST `/cart/checkout` with month in [1, 12], year in [Y+1, Y+71] and a three-digit CVV string whose value is in [100, 999] |
| LocustTraffic.TaskTableMatchesEndpointTable | locustfile_updated.py:111-118 | the `UserBehavior.tasks` table has six distinct tasks whose names, weights and order match the simulator's endpoint table, totalling 19 |
| LocustTraffic.ExecuteTask | locustfile_updated.py:111-118 | running a scheduled task appends exactly that task's requests |
| LocustTraffic.OnStart | locustfile_updated.py:108-109 | a new user first issues GET `/` |
| LocustTraffic.SessionRequests | locustfile_updated.py:108-118 | every session's first request is GET `/` |
| LocustTraffic.ProductPathOf | locustfile_updated.py:44-45 | a product path built from a drawn catalogue id is `/product/` followed by a catalogue id |
| LocustTraffic.TaskRequestsAreSiteOperations | locustfile_updated.py:26-75 | every request of a task is one of the shop's operations: GETs carry no form, product ids come from the catalogue both in product paths and in cart posts, quantities lie in [1, 10], currency codes come from the list, and checkout posts carry ten fields with a month in [1, 12] and a three-digit CVV |
| LocustTraffic.RunsRequestsAreSiteOperations | locustfile_updated.py:111-118 | every request of any sequence of scheduled tasks is a shop operation |
| LocustTraffic.SessionRequestsAreSiteOperations | locustfile_updated.py:108-118 | every request of a whole session is a shop operation |
| LocustTraffic.ClockMinute | locustfile_updated.py:84-88 | the wall-clock minute lies in [0, 1440) and is its own minute of the day |
| LocustTraffic.DiurnalWaitTime | locustfile_updated.py:82-105 | the wait times the rate is 60, so the wait is 60/rate; it lies in (0.6, 60/45) and is never the 60-second fallback |
| Orchestration.SampleOf | orchestrate_load_test.py:19-26 | a record carries the iteration's timestamp and the entry's five values unchanged |
| Orchestration.CompletePrefixIsFirstIncomplete | orchestrate_load_test.py:18-27 | the entries before the position where the loop over entries stops all have every key, and the entry at that position, if there is one, lacks a key |
| Orchestration.SamplesAt | orchestrate_load_test.py:18-27 | the j-th record is built from the j-th entry, so records are in response order |
| Orchestration.TickRecordsTimestamps | orchestrate_load_test.py:17-27 | every record of one iteration carries that iteration's timestamp |
| Orchestration.TickRecords | orchestrate_load_test.py:12-30 | the records one iteration leaves in the buffer: none on a failed fetch, otherwise one per entry before the first entry that lacks a key; its properties are stated by `SuccessfulTick`, `PartialTick` and `SamplesAt` |
| Orchestration.TickRaises | orchestrate_load_test.py:12-30 | whether one iteration raises and logs an exception: the fetch failed, or the loop over entries stopped before the end |
| Orchestration.TickRaisesIffMissingKey | orchestrate_load_test.py:12-30 | an iteration raises exactly when the fetch fails or some entry lacks one of the five keys |
| Orchestration.SuccessfulTick | orchestrate_load_test.py:17-27 | when every entry has its keys, the iteration raises nothing and appends exactly one record per entry, in order, all with the same timestamp |
| Orchestration.PartialTick | orchestrate_load_test.py:18-30 | when entry k is the first missing a key, the iteration raises, and the records of entries 0..k-1 stay in the buffer |
| Orchestration.Collected | orchestrate_load_test.py:10-32 | the records a run of iterations leaves in the buffer: each iteration's records, in iteration order; its properties are stated by the lemmas below |
| Orchestration.CollectedOfConcat | orchestrate_load_test.py:10-32 | the records of two runs of iterations back to back are the records of the first followed by those of the second |
| Orchestration.CollectedIsAppendOnly | orchestrate_load_test.py:10-32 | the records of the first j iterations are those of the first i followed by those of iterations i..j-1, so earlier records are never changed or reordered |
| Orchestration.CollectedTimestamps | orchestrate_load_test.py:17-27 | every collected record carries the timestamp of some iteration |
| Orchestration.SampleBuffer.Append | orchestrate_load_test.py:27 | appends one record at the end of the list |
| Orchestration.AppendEntries | orchestrate_load_test.py:18-30 | the loop over entries appends one record per entry up to the first entry missing a key, then stops and reports the KeyError; nothing else of the buffer changes |
| Orchestration.CollectTick | orchestrate_load_test.py:12-30 | one iteration appends its records to the shared buffer and reports whether it raised; a failed fetch appends nothing |
| Orchestration.FirstSet | orchestrate_load_test.py:11 | the position of the first check that saw the flag set |
| Orchestration.FirstSetAfterClears | orchestrate_load_test.py:11 | when the flag is seen clear n times and then set, the loop stops after exactly n iterations |
| Orchestration.CollectNext | orchestrate_load_test.py:11-32 | one more iteration extends the buffer by that iteration's records and the failure count by one exactly when it raised |
| Orchestration.CollectResources | orchestrate_load_test.py:10-32 | the loop runs exactly as many iterations as checks saw the flag clear; no fetch begins after it is seen set; the buffer gains all their records in order; errors are counted and never end the loop |
| Orchestration.Row | orchestrate_load_test.py:41-46 | a row has the six columns in header order and reads back as its record |
| Orchestration.ParseRowsOfRecords | orchestrate_load_test.py:43-46 | rows written from records read back as exactly those records |
| Orchestration.SaveDataToCsv | orchestrate_load_test.py:40-46 | the header is the six field names in order, then one row per record in buffer order; reading the table back gives the buffer |
| Orchestration.StopEvent.Set | orchestrate_load_test.py:101 | after `set` the flag reads true |
| Orchestration.JoinCollector | orchestrate_load_test.py:99-102 | once the flag is set after the last fetch, joining leaves the buffer extended by the records of every iteration, in order |
| Orchestration.RunLoadTest | orchestrate_load_test.py:77-108 | `main` starts the collector, waits for the driver, waits 10 seconds, sets the flag, joins, saves and plots, in that order; the saved table holds every collected record whatever the driver's return code |

## Left out

- Threads, `threading.Event` and `join` are not modelled as concurrency. The collector's history is two inputs: the outcome of each fetch and the result of each check of the stop flag. `RunLoadTest` replays that history at the join, which is the point where `main` next reads the buffer. The daemon flag is not modelled.
- HTTP and subprocess calls are outside the model. `requests.get`, `raise_for_status` and `response.json()` become a fetch outcome. `subprocess.Popen` and `wait` become the driver's return code, which `main` only prints. The Locust client becomes a request trace.
- Payloads that are not a JSON array, and array elements that are not objects, are represented by their effect only. A `null`, number or boolean payload makes `for res in resources` raise TypeError before any element, so nothing is appended: that is `FetchFailed`. A string payload, or an object payload with keys, raises on its first element: that is an entry lacking a key at position 0. An empty object or string appends nothing: that is a fetch with no entries. A non-object array element raises when indexed: that is an entry lacking a key. Only the exception's type differs.
- The exception text and its logging to stderr are not modelled. The model keeps only whether an iteration raised, counted by `CollectResources`.
- `time.sleep` is not modelled: the 2-second collector interval (the `interval` argument of `collect_resources`), the 10-second grace wait (kept as a step of `main`) and the delays in `run`.
- The clocks `time.time()` and `datetime.now()` are parameters. The `run` loop in test_endpoint.py depends on the clock for termination; the model runs it over a finite sequence of clock readings and stops when they run out.
- `math.exp` and `np.exp` are a parameter bounded in (0, 1] on non-positive arguments. The shape of the Gaussian and floating-point rounding are not modelled; all arithmetic is exact over `real`.
- EndpointSimulator.ProbabilitiesSumToOne: the sum is exactly 1 over the reals. A float sum can differ from 1 by rounding, which `random.choices` absorbs by scaling the draw by the actual total.
- The statistical behaviour of `random.choices`, `random.choice` and `random.randint` is not modelled, only the range of each draw and the selection rule.
- Faker output (email, address, card number) is a record of opaque strings.
- Which task Locust's scheduler runs next, and its user loop, belong to Locust. A session is modelled as `on_start` followed by any sequence of scheduled tasks.
- `logout` and `empty_cart` are defined but never scheduled. They are modelled as task functions (`LocustTraffic.Logout`, `LocustTraffic.EmptyCart`) and have no entry in `UserBehavior.tasks`.
- `simulate_api_call` in test_endpoint.py only prints; `RunStep` records the endpoint it would call.
- Plotting is not modelled: `plot_usage`, and the plots in simulate_load_shape.py's `main`. `RunLoadTest` records only that the plot was requested.
- CSV files are modelled as a header plus rows of values in column order. Quoting, stringification of values and the file itself are not modelled.
- forecasting.py, data_converter.py and plot_function.py are not part of this model: LSTM training, pandas conversion and plotting scripts.
- The `DiurnalShapeTester` settings are integers; Python would also accept floats. `int(86400 / t)` is modelled as the exact truncated quotient; the float division can only differ from it by rounding when `86400 / t` is within rounding of an integer.
- A negative run time is accepted by the code, which truncates `86400 / t` toward zero; the model follows the code. A run time of 0 raises ZeroDivisionError in the code and is the error result of `NewShapeTester` here.
- Behaviours the code does not have are not modelled: a fetch timeout, a join timeout, a configurable grace period, an exit status kept in a result, and an atomic per-iteration append. A failing iteration keeps the records it appended, as the code does.
