/**
 * The load-test orchestration of orchestrate_load_test.py: a collector
 * loop that polls the cluster's pod-resource endpoint and appends one
 * record per pod to a shared buffer until a stop flag is seen, the CSV
 * export of that buffer, and the order in which `main` runs the driver,
 * stops and joins the collector, and saves the data.
 *
 * The collector thread is modelled sequentially.  What each
 * `stop_event.is_set()` returned is a sequence of booleans, and what each
 * fetch produced is a sequence of outcomes; since the buffer has one
 * writer and `main` reads it only after `join`, the collector's work can
 * be replayed at the join.
 */
module Orchestration {
  import opened Wrappers

  /** A JSON value as `response.json()` yields it; a record copies it unchanged. */
  datatype JsonValue =
    | JNull
    | JBool(b: bool)
    | JNumber(n: real)
    | JString(s: string)
    | JArray(items: seq<JsonValue>)
    | JObject(fields: map<string, JsonValue>)

  /** One element of the endpoint's JSON array. */
  type ResourceEntry = map<string, JsonValue>

  /**
   * One attempt of `requests.get` / `raise_for_status` / `json`: the
   * decoded array, or an exception (connection error, HTTP error status,
   * malformed JSON).
   */
  datatype FetchOutcome = Fetched(entries: seq<ResourceEntry>) | FetchFailed

  /** One row of the buffer: the capture timestamp and five copied fields. */
  datatype Sample = Sample(
    timestamp: string,
    nodeId: JsonValue,
    nodeName: JsonValue,
    podName: JsonValue,
    usageCpu: JsonValue,
    usageMemory: JsonValue)

  /** The entry has every key the record copies; otherwise indexing raises KeyError. */
  predicate HasAllKeys(e: ResourceEntry)
  {
    "node_id" in e && "node_name" in e && "pod_name" in e && "usage_cpu" in e && "usage_memory" in e
  }

  /** The `data_point` dictionary built from one entry. */
  function SampleOf(e: ResourceEntry, timestamp: string): (s: Sample)
    requires HasAllKeys(e)
    ensures s.timestamp == timestamp
    ensures s.nodeId == e["node_id"] && s.nodeName == e["node_name"] && s.podName == e["pod_name"]
    ensures s.usageCpu == e["usage_cpu"] && s.usageMemory == e["usage_memory"]
  {
    Sample(timestamp, e["node_id"], e["node_name"], e["pod_name"], e["usage_cpu"], e["usage_memory"])
  }

  /** How many leading entries have all keys: where the `for` loop raises, if it does. */
  function CompletePrefixLength(entries: seq<ResourceEntry>): (n: nat)
    ensures n <= |entries|
  {
    if entries == [] || !HasAllKeys(entries[0]) then 0
    else 1 + CompletePrefixLength(entries[1..])
  }

  /**
   * The entries before `CompletePrefixLength` all have every key, and the
   * entry at it, if any, lacks one: it is the first incomplete entry.
   */
  lemma {:induction false} CompletePrefixIsFirstIncomplete(entries: seq<ResourceEntry>)
    ensures forall j :: 0 <= j < CompletePrefixLength(entries) ==> HasAllKeys(entries[j])
    ensures CompletePrefixLength(entries) < |entries| ==> !HasAllKeys(entries[CompletePrefixLength(entries)])
  {
    if entries != [] && HasAllKeys(entries[0]) {
      CompletePrefixIsFirstIncomplete(entries[1..]);
      forall j | 0 < j < CompletePrefixLength(entries)
        ensures HasAllKeys(entries[j])
      {
        assert entries[j] == entries[1..][j - 1];
      }
    }
  }

  /** One record per entry, in order, all with the same timestamp. */
  function Samples(entries: seq<ResourceEntry>, timestamp: string): (r: seq<Sample>)
    requires forall j :: 0 <= j < |entries| ==> HasAllKeys(entries[j])
    ensures |r| == |entries|
  {
    if entries == [] then []
    else Samples(entries[..|entries| - 1], timestamp) + [SampleOf(entries[|entries| - 1], timestamp)]
  }

  /** Extending the entries by one extends the records by that entry's record. */
  lemma SamplesStep(entries: seq<ResourceEntry>, timestamp: string, i: nat)
    requires i < |entries|
    requires forall j :: 0 <= j <= i ==> HasAllKeys(entries[j])
    ensures Samples(entries[..i + 1], timestamp) == Samples(entries[..i], timestamp) + [SampleOf(entries[i], timestamp)]
  {
    assert entries[..i + 1][..i] == entries[..i];
  }

  /** The `j`-th record is built from the `j`-th entry. */
  lemma {:induction false} SamplesAt(entries: seq<ResourceEntry>, timestamp: string)
    requires forall j :: 0 <= j < |entries| ==> HasAllKeys(entries[j])
    ensures forall j :: 0 <= j < |entries| ==> Samples(entries, timestamp)[j] == SampleOf(entries[j], timestamp)
  {
    if entries != [] {
      SamplesAt(entries[..|entries| - 1], timestamp);
    }
  }

  /**
   * The records one iteration of the collector leaves in the buffer: one
   * per entry before the first entry that lacks a key, none on a failed
   * fetch.  Records appended before a KeyError are not rolled back.
   */
  function TickRecords(outcome: FetchOutcome, timestamp: string): seq<Sample>
  {
    match outcome
    case FetchFailed => []
    case Fetched(entries) =>
      CompletePrefixIsFirstIncomplete(entries);
      Samples(entries[..CompletePrefixLength(entries)], timestamp)
  }

  /** Whether an iteration raises (and logs) an exception. */
  predicate TickRaises(outcome: FetchOutcome)
  {
    match outcome
    case FetchFailed => true
    case Fetched(entries) => CompletePrefixLength(entries) < |entries|
  }

  /** An iteration raises exactly when its fetch fails or some entry lacks a key. */
  lemma TickRaisesIffMissingKey(outcome: FetchOutcome)
    ensures TickRaises(outcome) <==>
      (outcome.FetchFailed? || exists j :: 0 <= j < |outcome.entries| && !HasAllKeys(outcome.entries[j]))
  {
    if outcome.Fetched? {
      var entries := outcome.entries;
      CompletePrefixIsFirstIncomplete(entries);
      if CompletePrefixLength(entries) < |entries| {
        assert !HasAllKeys(entries[CompletePrefixLength(entries)]);
      }
    }
  }

  /**
   * A successful iteration appends exactly one record per entry, in
   * response order, each stamped with the iteration's timestamp and
   * holding the entry's five values unchanged.
   */
  lemma SuccessfulTick(entries: seq<ResourceEntry>, timestamp: string)
    requires forall j :: 0 <= j < |entries| ==> HasAllKeys(entries[j])
    ensures !TickRaises(Fetched(entries))
    ensures |TickRecords(Fetched(entries), timestamp)| == |entries|
    ensures forall j :: 0 <= j < |entries| ==>
              TickRecords(Fetched(entries), timestamp)[j] == SampleOf(entries[j], timestamp)
  {
    CompletePrefixIsFirstIncomplete(entries);
    var n := CompletePrefixLength(entries);
    assert n == |entries|;
    assert entries[..n] == entries;
    SamplesAt(entries, timestamp);
  }

  /**
   * When entry `k` is the first that lacks a key, the iteration raises,
   * and the records of entries 0 .. k-1 stay in the buffer: partial data.
   */
  lemma PartialTick(entries: seq<ResourceEntry>, timestamp: string, k: nat)
    requires k < |entries|
    requires forall j :: 0 <= j < k ==> HasAllKeys(entries[j])
    requires !HasAllKeys(entries[k])
    ensures TickRaises(Fetched(entries))
    ensures TickRecords(Fetched(entries), timestamp) == Samples(entries[..k], timestamp)
  {
    CompletePrefixIsFirstIncomplete(entries);
    assert CompletePrefixLength(entries) == k;
  }

  /** One iteration of the collector: what it fetched and when. */
  datatype SamplerTick = SamplerTick(outcome: FetchOutcome, timestamp: string)

  /** Every record of one iteration carries that iteration's timestamp. */
  lemma TickRecordsTimestamps(outcome: FetchOutcome, timestamp: string)
    ensures forall r :: r in TickRecords(outcome, timestamp) ==> r.timestamp == timestamp
  {
    match outcome
    case FetchFailed =>
    case Fetched(entries) =>
      CompletePrefixIsFirstIncomplete(entries);
      SamplesAt(entries[..CompletePrefixLength(entries)], timestamp);
  }

  /** The records of each iteration, in iteration order. */
  function Batches(ticks: seq<SamplerTick>): (b: seq<seq<Sample>>)
    ensures |b| == |ticks|
  {
    seq(|ticks|, k requires 0 <= k < |ticks| => TickRecords(ticks[k].outcome, ticks[k].timestamp))
  }

  /** Batches of records laid end to end. */
  function Flatten(batches: seq<seq<Sample>>): seq<Sample>
  {
    if batches == [] then []
    else Flatten(batches[..|batches| - 1]) + batches[|batches| - 1]
  }

  lemma {:induction false} FlattenOfConcat(a: seq<seq<Sample>>, b: seq<seq<Sample>>)
    ensures Flatten(a + b) == Flatten(a) + Flatten(b)
  {
    if b == [] {
      assert a + b == a;
    } else {
      var init := b[..|b| - 1];
      FlattenOfConcat(a, init);
      assert (a + b)[..|a + b| - 1] == a + init;
      assert (a + b)[|a + b| - 1] == b[|b| - 1];
    }
  }

  /** Everything a run of iterations appends, in order. */
  function Collected(ticks: seq<SamplerTick>): seq<Sample>
  {
    Flatten(Batches(ticks))
  }

  /** How many of the iterations raised and logged an error. */
  function Failures(ticks: seq<SamplerTick>): (n: nat)
    ensures n <= |ticks|
  {
    if ticks == [] then 0
    else Failures(ticks[..|ticks| - 1]) + (if TickRaises(ticks[|ticks| - 1].outcome) then 1 else 0)
  }

  /**
   * Iterations contribute independently: the records of two runs of
   * iterations, one after the other, are the records of the first run
   * followed by those of the second.
   */
  lemma CollectedOfConcat(a: seq<SamplerTick>, b: seq<SamplerTick>)
    ensures Collected(a + b) == Collected(a) + Collected(b)
  {
    assert Batches(a + b) == Batches(a) + Batches(b) by {
      forall k | 0 <= k < |a + b|
        ensures Batches(a + b)[k] == (Batches(a) + Batches(b))[k]
      {
        if k < |a| {
          assert (a + b)[k] == a[k];
        } else {
          assert (a + b)[k] == b[k - |a|];
        }
      }
    }
    FlattenOfConcat(Batches(a), Batches(b));
  }

  /** One more iteration adds its own records and, if it raised, one failure. */
  lemma CollectedStep(ticks: seq<SamplerTick>, i: nat)
    requires i < |ticks|
    ensures Collected(ticks[..i + 1]) == Collected(ticks[..i]) + TickRecords(ticks[i].outcome, ticks[i].timestamp)
    ensures Failures(ticks[..i + 1]) == Failures(ticks[..i]) + (if TickRaises(ticks[i].outcome) then 1 else 0)
  {
    assert ticks[..i + 1] == ticks[..i] + [ticks[i]];
    CollectedOfConcat(ticks[..i], [ticks[i]]);
    var last := Batches([ticks[i]]);
    assert last == [TickRecords(ticks[i].outcome, ticks[i].timestamp)];
    assert Flatten(last) == Flatten(last[..0]) + last[0];
    assert ticks[..i + 1][..i] == ticks[..i];
  }

  /**
   * The buffer only grows: the records of the first `j` iterations are
   * those of the first `i` followed by those of iterations `i` to `j - 1`.
   */
  lemma CollectedIsAppendOnly(ticks: seq<SamplerTick>, i: nat, j: nat)
    requires i <= j <= |ticks|
    ensures Collected(ticks[..j]) == Collected(ticks[..i]) + Collected(ticks[i..j])
    ensures Collected(ticks[..i]) <= Collected(ticks[..j])
  {
    assert ticks[..j] == ticks[..i] + ticks[i..j];
    CollectedOfConcat(ticks[..i], ticks[i..j]);
  }

  /**
   * Every record comes from some iteration and carries that iteration's
   * timestamp.
   */
  lemma {:induction false} CollectedTimestamps(ticks: seq<SamplerTick>)
    ensures forall r :: r in Collected(ticks) ==> exists k :: 0 <= k < |ticks| && r.timestamp == ticks[k].timestamp
  {
    if ticks != [] {
      var n := |ticks| - 1;
      var init := ticks[..n];
      CollectedTimestamps(init);
      CollectedStep(ticks, n);
      assert ticks[..n + 1] == ticks;
      TickRecordsTimestamps(ticks[n].outcome, ticks[n].timestamp);
      forall r | r in Collected(ticks)
        ensures exists k :: 0 <= k < |ticks| && r.timestamp == ticks[k].timestamp
      {
        if r in Collected(init) {
          var k :| 0 <= k < |init| && r.timestamp == init[k].timestamp;
          assert ticks[k] == init[k];
        } else {
          assert r.timestamp == ticks[n].timestamp;
        }
      }
    }
  }

  /** The shared `data_list`, which the collector appends to in place. */
  class SampleBuffer {
    var records: seq<Sample>

    constructor ()
      ensures records == []
    {
      records := [];
    }

    method Append(s: Sample)
      modifies this
      ensures records == old(records) + [s]
    {
      records := records + [s];
    }
  }

  /**
   * The `for res in resources` loop: appends one record per entry, in
   * order, until an entry lacks a key, and reports whether one did.
   */
  method AppendEntries(buffer: SampleBuffer, entries: seq<ResourceEntry>, timestamp: string) returns (raised: bool)
    modifies buffer
    ensures buffer.records == old(buffer.records) + TickRecords(Fetched(entries), timestamp)
    ensures raised == TickRaises(Fetched(entries))
  {
    raised := false;
    CompletePrefixIsFirstIncomplete(entries);
    var i := 0;
    while i < |entries|
      invariant 0 <= i <= CompletePrefixLength(entries)
      invariant forall j :: 0 <= j < i ==> HasAllKeys(entries[j])
      invariant buffer.records == old(buffer.records) + Samples(entries[..i], timestamp)
      invariant !raised
    {
      var res := entries[i];
      if !HasAllKeys(res) {
        raised := true;
        break;
      }
      SamplesStep(entries, timestamp, i);
      buffer.Append(SampleOf(res, timestamp));
      i := i + 1;
    }
  }

  /**
   * The body of one collector iteration: fetch, then append one record
   * per entry until an entry lacks a key.  Returns whether an exception
   * was raised (and logged).
   */
  method CollectTick(buffer: SampleBuffer, tick: SamplerTick) returns (raised: bool)
    modifies buffer
    ensures buffer.records == old(buffer.records) + TickRecords(tick.outcome, tick.timestamp)
    ensures raised == TickRaises(tick.outcome)
  {
    match tick.outcome
    case FetchFailed =>
      raised := true;
    case Fetched(entries) =>
      raised := AppendEntries(buffer, entries, tick.timestamp);
  }

  /**
   * One pass of the collector's loop body: the iteration `i` appends its
   * records and, if it raised, the error is counted.
   */
  method CollectNext(buffer: SampleBuffer, ticks: seq<SamplerTick>, i: nat, failures: nat, ghost start: seq<Sample>)
    returns (failures': nat)
    requires i < |ticks|
    requires buffer.records == start + Collected(ticks[..i])
    requires failures == Failures(ticks[..i])
    modifies buffer
    ensures buffer.records == start + Collected(ticks[..i + 1])
    ensures failures' == Failures(ticks[..i + 1])
  {
    var raised := CollectTick(buffer, ticks[i]);
    failures' := if raised then failures + 1 else failures;
    CollectedStep(ticks, i);
    ghost var added := TickRecords(ticks[i].outcome, ticks[i].timestamp);
    assert buffer.records == start + (Collected(ticks[..i]) + added);
  }

  /** The index of the first `true` in the observations of the stop flag. */
  function FirstSet(stopChecks: seq<bool>): (n: nat)
    requires true in stopChecks
    ensures n < |stopChecks| && stopChecks[n]
    ensures forall j :: 0 <= j < n ==> !stopChecks[j]
  {
    if stopChecks[0] then 0 else 1 + FirstSet(stopChecks[1..])
  }

  /** Checks that saw the flag clear `n` times and then set stop the loop after `n` iterations. */
  lemma FirstSetAfterClears(stopChecks: seq<bool>, n: nat)
    requires |stopChecks| == n + 1 && stopChecks[n]
    requires forall j :: 0 <= j < n ==> !stopChecks[j]
    ensures true in stopChecks && FirstSet(stopChecks) == n
  {
    assert stopChecks[n] in stopChecks;
  }

  /**
   * `collect_resources`: while the stop flag reads false at the top of an
   * iteration, run one iteration.  `stopChecks[k]` is what the k-th check
   * of the flag returned and `ticks[k]` what the k-th iteration fetched.
   * No fetch begins once the flag has been seen set, every iteration that
   * did begin contributed its records, and errors never end the loop.
   */
  method CollectResources(buffer: SampleBuffer, stopChecks: seq<bool>, ticks: seq<SamplerTick>)
    returns (iterations: nat, failures: nat)
    requires true in stopChecks
    requires FirstSet(stopChecks) <= |ticks|
    modifies buffer
    ensures iterations == FirstSet(stopChecks)
    ensures buffer.records == old(buffer.records) + Collected(ticks[..iterations])
    ensures failures == Failures(ticks[..iterations])
  {
    ghost var first := FirstSet(stopChecks);
    ghost var start := buffer.records;
    iterations := 0;
    failures := 0;
    assert ticks[..0] == [];
    assert buffer.records == start + [];
    while !stopChecks[iterations]
      invariant iterations <= first
      invariant buffer.records == start + Collected(ticks[..iterations])
      invariant failures == Failures(ticks[..iterations])
      decreases first - iterations
    {
      assert iterations != first;
      failures := CollectNext(buffer, ticks, iterations, failures, start);
      iterations := iterations + 1;
    }
    assert iterations == first;
  }

  // ---------------------------------------------------------------------
  // CSV export.
  // ---------------------------------------------------------------------

  /** The `fieldnames` of the CSV writer, in column order. */
  const FieldNames: seq<string> := ["timestamp", "node_id", "node_name", "pod_name", "usage_cpu", "usage_memory"]

  /** A written CSV file: the header and one row of cells per record. */
  datatype CsvTable = CsvTable(header: seq<string>, rows: seq<seq<JsonValue>>)

  /** Reads one row back, in `FieldNames` order. */
  function SampleOfRow(row: seq<JsonValue>): Option<Sample>
  {
    if |row| == |FieldNames| && row[0].JString? then
      Some(Sample(row[0].s, row[1], row[2], row[3], row[4], row[5]))
    else None
  }

  /** The row `writer.writerow` writes for a record, in `FieldNames` order. */
  function Row(s: Sample): (row: seq<JsonValue>)
    ensures |row| == |FieldNames|
    ensures SampleOfRow(row) == Some(s)
  {
    [JString(s.timestamp), s.nodeId, s.nodeName, s.podName, s.usageCpu, s.usageMemory]
  }

  /** Reads every row back; None if one is malformed. */
  function ParseRows(rows: seq<seq<JsonValue>>): (r: Option<seq<Sample>>)
    ensures r.Some? ==> |r.value| == |rows|
  {
    if rows == [] then Some([])
    else
      match (ParseRows(rows[..|rows| - 1]), SampleOfRow(rows[|rows| - 1]))
      case (Some(init), Some(last)) => Some(init + [last])
      case _ => None
  }

  /** Rows written from records read back as exactly those records. */
  lemma {:induction false} ParseRowsOfRecords(records: seq<Sample>, rows: seq<seq<JsonValue>>)
    requires |rows| == |records|
    requires forall i :: 0 <= i < |rows| ==> rows[i] == Row(records[i])
    ensures ParseRows(rows) == Some(records)
  {
    if rows != [] {
      var n := |rows| - 1;
      ParseRowsOfRecords(records[..n], rows[..n]);
      assert records[..n] + [records[n]] == records;
    }
  }

  /**
   * `save_data_to_csv`: the header, then one row per record in buffer
   * order.  Reading the table back yields the buffer exactly.
   */
  method SaveDataToCsv(records: seq<Sample>) returns (table: CsvTable)
    ensures table.header == FieldNames
    ensures |table.rows| == |records|
    ensures forall i :: 0 <= i < |records| ==> table.rows[i] == Row(records[i])
    ensures ParseRows(table.rows) == Some(records)
  {
    var rows: seq<seq<JsonValue>> := [];
    for i := 0 to |records|
      invariant |rows| == i
      invariant forall k :: 0 <= k < i ==> rows[k] == Row(records[k])
    {
      rows := rows + [Row(records[i])];
    }
    table := CsvTable(FieldNames, rows);
    ParseRowsOfRecords(records, rows);
  }

  // ---------------------------------------------------------------------
  // The orchestration in `main`.
  // ---------------------------------------------------------------------

  /** Seconds `main` waits after the driver exits before stopping the collector. */
  const GraceSeconds: nat := 10

  /** The observable steps of `main`, in the order it takes them. */
  datatype Step =
    | CollectorStarted
    | DriverFinished(returnCode: int)
    | GraceWait(seconds: nat)
    | StopSignalled
    | CollectorJoined
    | CsvSaved(rows: nat)
    | PlotRequested(records: nat)

  /** `threading.Event`: a flag whose only transition is from clear to set. */
  class StopEvent {
    var flag: bool

    constructor ()
      ensures !flag
    {
      flag := false;
    }

    predicate IsSet()
      reads this
    {
      flag
    }

    method Set()
      modifies this
      ensures flag
    {
      flag := true;
    }
  }

  /**
   * `collector_thread.join()`, with the stop event already set: every
   * iteration the collector began before it saw the flag has appended its
   * records, in order.  The flag is set after the last tick of `ticks`, so
   * the collector runs exactly `|ticks|` iterations.
   */
  method JoinCollector(buffer: SampleBuffer, stopEvent: StopEvent, ticks: seq<SamplerTick>)
    requires stopEvent.IsSet()
    modifies buffer
    ensures buffer.records == old(buffer.records) + Collected(ticks)
  {
    var stopChecks := seq(|ticks|, _ => false) + [stopEvent.IsSet()];
    FirstSetAfterClears(stopChecks, |ticks|);
    var iterations, failures := CollectResources(buffer, stopChecks, ticks);
    assert ticks[..iterations] == ticks;
  }

  /**
   * `main`: start the collector, run the driver to completion (its return
   * code is only printed), wait the grace period, set the stop flag, join
   * the collector and save the whole buffer, then plot it.  `ticks` are
   * the collector iterations that began before the flag was set.  The
   * saved table holds every collected record whatever the return code.
   */
  method RunLoadTest(driverReturnCode: int, ticks: seq<SamplerTick>) returns (steps: seq<Step>, table: CsvTable)
    ensures steps == [
      CollectorStarted, DriverFinished(driverReturnCode), GraceWait(GraceSeconds), StopSignalled,
      CollectorJoined, CsvSaved(|Collected(ticks)|), PlotRequested(|Collected(ticks)|)]
    ensures table.header == FieldNames
    ensures ParseRows(table.rows) == Some(Collected(ticks))
  {
    var dataList := new SampleBuffer();
    var stopEvent := new StopEvent();
    steps := [CollectorStarted];
    steps := steps + [DriverFinished(driverReturnCode)];
    steps := steps + [GraceWait(GraceSeconds)];
    stopEvent.Set();
    steps := steps + [StopSignalled];
    JoinCollector(dataList, stopEvent, ticks);
    assert dataList.records == Collected(ticks);
    steps := steps + [CollectorJoined];
    table := SaveDataToCsv(dataList.records);
    steps := steps + [CsvSaved(|table.rows|)];
    steps := steps + [PlotRequested(|dataList.records|)];
  }
}
