/** The command-line tool of src/greenpipeline/cli.py: it runs a command, builds a
    measurement record from a fixed 25 W draw (it does not call the estimator),
    keeps a history of the last 100 records, lists and totals that history, and
    compares the carbon of one command across four grid locations.
    The history file is the field `historyFile`: None when the file is absent. */
module Cli {
  import opened PyBuiltins
  import opened Units

  /** The draw assumed for every command, in watts. */
  const AverageWatts: real := 25.0
  /** Placeholder utilisation and memory written into every record. */
  const PlaceholderCpuPercent: real := 45.0
  const PlaceholderMemoryMb: real := 512.0
  /** Smartphone charges are the carbon in milligrams divided by 0.062. */
  const SmartphoneChargeDivisor: real := 0.062
  /** Grams of CO2e an average car emits per kilometre. */
  const GramsPerKm: real := 192.0
  /** The history keeps at most this many records. */
  const MaxHistory: nat := 100

  /** Grid intensity in g CO2e per kWh: Germany, Colombia, otherwise 389. */
  function CarbonIntensityFor(location: string): (intensity: real)
    ensures intensity == 420.0 <==> location == "DE"
    ensures intensity == 165.0 <==> location == "CO"
    ensures intensity == 389.0 <==> location != "DE" && location != "CO"
  {
    if location == "DE" then 420.0 else if location == "CO" then 165.0 else 389.0
  }

  /** California, France and the default location all fall back to 389. */
  lemma FallbackIntensities()
    ensures CarbonIntensityFor("US-CA") == 389.0
    ensures CarbonIntensityFor("FR") == 389.0
    ensures CarbonIntensityFor("GLOBAL") == 389.0
  {
  }

  /** What running the command through the shell produced. */
  datatype Execution =
    | Exited(returnCode: int, stdout: string, stderr: string)
    | Raised(message: string)

  datatype Status = Status(success: bool, output: string)

  /** Success is a zero exit status; the output shown is stdout on success, stderr
      on a non-zero exit, and the exception's text when running raised. */
  function ExecutionStatus(execution: Execution): (s: Status)
    ensures s.success <==> execution.Exited? && execution.returnCode == 0
    ensures s.success ==> s.output == execution.stdout
    ensures execution.Exited? && !s.success ==> s.output == execution.stderr
    ensures execution.Raised? ==> s.output == execution.message
  {
    match execution
    case Exited(code, out, err) =>
      var success := code == 0;
      Status(success, if success then out else err)
    case Raised(message) => Status(false, message)
  }

  datatype RunMetrics = RunMetrics(
    cpuPercent: real,
    memoryMb: real,
    energyJoules: real,
    energyKwh: real,
    carbonGrams: real,
    carbonIntensity: real)

  datatype Equivalents = Equivalents(smartphoneCharges: real, kmDriven: real)

  /** One entry of the history (values before rounding). */
  datatype RunRecord = RunRecord(
    timestamp: string,
    command: string,
    location: string,
    success: bool,
    durationSeconds: real,
    metrics: RunMetrics,
    equivalents: Equivalents)

  /** The record `run_command` builds. Carbon is energy in kWh times the
      location's intensity, and the two equivalents are carbon rescaled. */
  function BuildRecord(timestamp: string, command: string, location: string, duration: real,
                       execution: Execution): (r: RunRecord)
    ensures r.timestamp == timestamp && r.command == command && r.location == location
    ensures r.durationSeconds == duration
    ensures r.success <==> execution.Exited? && execution.returnCode == 0
    ensures r.metrics.carbonIntensity == CarbonIntensityFor(location)
    ensures r.metrics.energyKwh * JoulesPerKwh == r.metrics.energyJoules
    ensures r.metrics.carbonGrams == r.metrics.energyJoules / JoulesPerKwh * r.metrics.carbonIntensity
    ensures r.equivalents.smartphoneCharges * SmartphoneChargeDivisor == r.metrics.carbonGrams * 1000.0
    ensures r.equivalents.kmDriven * GramsPerKm == r.metrics.carbonGrams
  {
    var carbonIntensity := CarbonIntensityFor(location);
    var status := ExecutionStatus(execution);
    var energyJoules := duration * AverageWatts;
    var energyKwh := energyJoules / JoulesPerKwh;
    var carbonGrams := energyKwh * carbonIntensity;
    RunRecord(timestamp, command, location, status.success, duration,
      RunMetrics(PlaceholderCpuPercent, PlaceholderMemoryMb, energyJoules, energyKwh, carbonGrams, carbonIntensity),
      Equivalents(carbonGrams * 1000.0 / SmartphoneChargeDivisor, carbonGrams / GramsPerKm))
  }

  /** The record does not depend on the command's load: every run is charged
      25 W for its duration and carries the placeholder 45% and 512 MB. */
  lemma FixedPowerDraw(timestamp: string, command: string, location: string, duration: real, execution: Execution)
    ensures BuildRecord(timestamp, command, location, duration, execution).metrics.energyJoules == duration * AverageWatts
    ensures BuildRecord(timestamp, command, location, duration, execution).metrics.cpuPercent == PlaceholderCpuPercent
    ensures BuildRecord(timestamp, command, location, duration, execution).metrics.memoryMb == PlaceholderMemoryMb
  {
  }

  /** A failed run is accounted exactly like a successful one of the same duration:
      only the success flag differs. */
  lemma FailedRunStillAccounted(timestamp: string, command: string, location: string, duration: real,
                                e1: Execution, e2: Execution)
    ensures BuildRecord(timestamp, command, location, duration, e1).metrics
         == BuildRecord(timestamp, command, location, duration, e2).metrics
    ensures BuildRecord(timestamp, command, location, duration, e1).equivalents
         == BuildRecord(timestamp, command, location, duration, e2).equivalents
  {
  }

  /** A non-negative duration gives non-negative energy, carbon and equivalents. */
  lemma RecordNonNegative(timestamp: string, command: string, location: string, duration: real, execution: Execution)
    requires 0.0 <= duration
    ensures var r := BuildRecord(timestamp, command, location, duration, execution);
      && 0.0 <= r.metrics.energyJoules && 0.0 <= r.metrics.energyKwh
      && 0.0 <= r.metrics.carbonGrams
      && 0.0 <= r.equivalents.smartphoneCharges && 0.0 <= r.equivalents.kmDriven
  {
  }

  /** For the same positive duration, Colombia emits least, Germany most, and
      every other location in between. */
  lemma CarbonOrderByLocation(timestamp: string, command: string, other: string, duration: real, execution: Execution)
    requires 0.0 < duration
    requires other != "DE" && other != "CO"
    ensures BuildRecord(timestamp, command, "CO", duration, execution).metrics.carbonGrams
          < BuildRecord(timestamp, command, other, duration, execution).metrics.carbonGrams
          < BuildRecord(timestamp, command, "DE", duration, execution).metrics.carbonGrams
  {
    var kwh := duration * AverageWatts / JoulesPerKwh;
    assert 0.0 < kwh;
    assert kwh * 165.0 < kwh * 389.0 < kwh * 420.0;
  }

  /** `(history + [data])[-100:]`. */
  function BoundedAppend(history: seq<RunRecord>, data: RunRecord): (r: seq<RunRecord>)
    ensures 1 <= |r| <= MaxHistory
    ensures r[|r| - 1] == data
  {
    SliceFrom(history + [data], -(MaxHistory as int))
  }

  /** After an append the log holds at most 100 records, ends with the new one,
      and is the most recent part of the old log followed by it, in order; a log
      with room left simply grows by one, a full one drops its oldest record. */
  lemma BoundedAppendShape(history: seq<RunRecord>, data: RunRecord)
    ensures var r := BoundedAppend(history, data);
      && |r| == Min(|history| + 1, MaxHistory)
      && r[|r| - 1] == data
      && r[..|r| - 1] == history[|history| + 1 - |r|..]
      && (|history| < MaxHistory ==> r == history + [data])
      && (|history| == MaxHistory ==> r == history[1..] + [data])
  {
    var all := history + [data];
    SliceFromLast(all, MaxHistory);
    var r := BoundedAppend(history, data);
    assert r == all[|all| - |r|..];
    assert r[..|r| - 1] == history[|history| + 1 - |r|..];
    if |history| == MaxHistory {
      assert r == all[1..];
    }
  }

  /** The log after appending each of `records` in turn, one save at a time. */
  function AppendAll(history: seq<RunRecord>, records: seq<RunRecord>): seq<RunRecord>
  {
    if |records| == 0 then history
    else BoundedAppend(AppendAll(history, records[..|records| - 1]), records[|records| - 1])
  }

  /** Keeping the last 100 of a log with one record added is keeping the last
      100 of its last 100 with that record added. */
  lemma BoundedAppendOfSuffix(log: seq<RunRecord>, data: RunRecord)
    ensures BoundedAppend(SliceFrom(log, -(MaxHistory as int)), data)
         == SliceFrom(log + [data], -(MaxHistory as int))
  {
    var n := MaxHistory;
    var kept := SliceFrom(log, -(n as int));
    SliceFromLast(log, n);
    if |log| >= n {
      assert kept == log[|log| - n..];
      var grown := kept + [data];
      SliceFromLast(grown, n);
      assert SliceFrom(grown, -(n as int)) == grown[1..];
      assert grown[1..] == log[|log| - n + 1..] + [data];
      var all := log + [data];
      SliceFromLast(all, n);
      assert SliceFrom(all, -(n as int)) == all[|log| + 1 - n..];
      assert all[|log| + 1 - n..] == log[|log| + 1 - n..] + [data];
    } else {
      assert kept == log;
    }
  }

  /** Whatever sequence of records is saved, the log then holds exactly the most
      recent 100 records of the old log followed by them, oldest dropped first. */
  lemma {:induction false} AppendsKeepMostRecent(history: seq<RunRecord>, records: seq<RunRecord>)
    requires |records| >= 1
    ensures AppendAll(history, records) == SliceFrom(history + records, -(MaxHistory as int))
  {
    var init := records[..|records| - 1];
    var last := records[|records| - 1];
    assert history + records == (history + init) + [last];
    if |init| == 0 {
      assert history + init == history;
    } else {
      AppendsKeepMostRecent(history, init);
      BoundedAppendOfSuffix(history + init, last);
    }
  }

  function CarbonColumn(history: seq<RunRecord>): seq<real>
  {
    seq(|history|, k requires 0 <= k < |history| => history[k].metrics.carbonGrams)
  }

  function EnergyColumn(history: seq<RunRecord>): seq<real>
  {
    seq(|history|, k requires 0 <= k < |history| => history[k].metrics.energyJoules)
  }

  /** What `show_history` shows: the listed records and the totals over the log. */
  datatype HistoryView = HistoryView(listed: seq<RunRecord>, count: nat, totalCarbon: real, totalEnergy: real)

  /** One printed line of the comparison. */
  datatype ComparisonRow = ComparisonRow(name: string, carbonGrams: real, deltaPercent: real)

  /** Change of `carbon` relative to `baseline`, in percent. */
  function DeltaPercent(carbon: real, baseline: real): (delta: real)
    requires baseline != 0.0
    ensures delta == 0.0 <==> carbon == baseline
  {
    (carbon - baseline) / baseline * 100.0
  }

  /** The delta is zero at the baseline, positive exactly above it (for a positive
      baseline), and the carbon can be recovered from it. */
  lemma DeltaPercentMeaning(carbon: real, baseline: real)
    requires 0.0 < baseline
    ensures DeltaPercent(baseline, baseline) == 0.0
    ensures DeltaPercent(carbon, baseline) > 0.0 <==> carbon > baseline
    ensures baseline * (1.0 + DeltaPercent(carbon, baseline) / 100.0) == carbon
  {
    var d := DeltaPercent(carbon, baseline);
    assert d / 100.0 == (carbon - baseline) / baseline;
    assert baseline * ((carbon - baseline) / baseline) == carbon - baseline;
  }

  /** The locations compared, in the order they are run and reported. */
  const ComparedLocations: seq<(string, string)> :=
    [("Colombia", "CO"), ("Alemania", "DE"), ("California", "US-CA"), ("Francia", "FR")]

  /** What one run of the command yields from the outside world. */
  datatype Observation = Observation(timestamp: string, duration: real, execution: Execution)

  /** The (name, record) pairs of the comparison runs, in location order. */
  function ComparisonRuns(command: string, observations: seq<Observation>): (runs: seq<(string, RunRecord)>)
    requires |observations| == |ComparedLocations|
    ensures |runs| == |ComparedLocations|
    ensures forall k :: 0 <= k < |runs| ==>
      runs[k].0 == ComparedLocations[k].0 && runs[k].1.location == ComparedLocations[k].1
      && runs[k].1.durationSeconds == observations[k].duration && runs[k].1.command == command
  {
    seq(|ComparedLocations|, k requires 0 <= k < |ComparedLocations| =>
      (ComparedLocations[k].0,
       BuildRecord(observations[k].timestamp, command, ComparedLocations[k].1,
                   observations[k].duration, observations[k].execution)))
  }

  /** The comparison table: one row per result, in the same order, with the delta
      against the first result; None when that first carbon is 0 (division by zero). */
  function Deltas(results: seq<(string, RunRecord)>): (report: Option<seq<ComparisonRow>>)
    requires |results| > 0
    ensures report.None? <==> results[0].1.metrics.carbonGrams == 0.0
    ensures report.Some? ==> |report.value| == |results|
  {
    var baseline := results[0].1.metrics.carbonGrams;
    if baseline == 0.0 then None
    else Some(seq(|results|, k requires 0 <= k < |results| =>
      ComparisonRow(results[k].0, results[k].1.metrics.carbonGrams,
                    DeltaPercent(results[k].1.metrics.carbonGrams, baseline))))
  }

  /** The report keeps the runs' order and names, the baseline row shows 0%, and
      a row shows an increase exactly when it emits more than the baseline. */
  lemma DeltasReportInOrder(results: seq<(string, RunRecord)>)
    requires |results| > 0
    requires results[0].1.metrics.carbonGrams > 0.0
    ensures Deltas(results).Some?
    ensures |Deltas(results).value| == |results|
    ensures Deltas(results).value[0].deltaPercent == 0.0
    ensures forall k :: 0 <= k < |results| ==>
      && Deltas(results).value[k].name == results[k].0
      && Deltas(results).value[k].carbonGrams == results[k].1.metrics.carbonGrams
      && (Deltas(results).value[k].deltaPercent > 0.0 <==>
          results[k].1.metrics.carbonGrams > results[0].1.metrics.carbonGrams)
  {
    var baseline := results[0].1.metrics.carbonGrams;
    forall k | 0 <= k < |results|
      ensures Deltas(results).value[k].deltaPercent > 0.0 <==> results[k].1.metrics.carbonGrams > baseline
    {
      DeltaPercentMeaning(results[k].1.metrics.carbonGrams, baseline);
    }
  }

  /** The carbon of the k-th comparison run: its duration at 25 W, in kWh, times
      the intensity of the k-th location. */
  lemma ComparisonRunCarbon(command: string, observations: seq<Observation>, k: nat)
    requires |observations| == |ComparedLocations| && k < |ComparedLocations|
    ensures ComparisonRuns(command, observations)[k].1.metrics.carbonGrams
         == observations[k].duration * AverageWatts / JoulesPerKwh * CarbonIntensityFor(ComparedLocations[k].1)
  {
  }

  /** With the same energy, the delta between two locations is the relative
      difference of their intensities. */
  lemma DeltaOfSameEnergy(kwh: real, intensity: real, baseIntensity: real)
    requires 0.0 < kwh && 0.0 < baseIntensity
    ensures DeltaPercent(kwh * intensity, kwh * baseIntensity)
         == (intensity - baseIntensity) / baseIntensity * 100.0
  {
    assert kwh * intensity - kwh * baseIntensity == kwh * (intensity - baseIntensity);
    assert kwh * (intensity - baseIntensity) / (kwh * baseIntensity) == (intensity - baseIntensity) / baseIntensity;
  }

  /** When every run takes the same positive time the deltas only reflect the
      intensities: Germany +1700/11 % (about +154.5%), California and France
      +4480/33 % (about +135.8%). A zero-length first run makes the comparison fail. */
  lemma ComparisonOfEqualRuns(command: string, observations: seq<Observation>)
    requires |observations| == |ComparedLocations|
    requires forall k :: 0 <= k < |observations| ==> observations[k].duration == observations[0].duration
    ensures observations[0].duration == 0.0 ==> Deltas(ComparisonRuns(command, observations)) == None
    ensures observations[0].duration > 0.0 ==>
      var rows := Deltas(ComparisonRuns(command, observations));
      && rows.Some? && |rows.value| == 4
      && rows.value[0].deltaPercent == 0.0
      && rows.value[1].deltaPercent == 1700.0 / 11.0
      && rows.value[2].deltaPercent == 4480.0 / 33.0
      && rows.value[3].deltaPercent == 4480.0 / 33.0
  {
    var runs := ComparisonRuns(command, observations);
    var kwh := observations[0].duration * AverageWatts / JoulesPerKwh;
    ComparisonRunCarbon(command, observations, 0);
    ComparisonRunCarbon(command, observations, 1);
    ComparisonRunCarbon(command, observations, 2);
    ComparisonRunCarbon(command, observations, 3);
    assert runs[0].1.metrics.carbonGrams == kwh * 165.0;
    assert runs[1].1.metrics.carbonGrams == kwh * 420.0;
    assert runs[2].1.metrics.carbonGrams == kwh * 389.0;
    assert runs[3].1.metrics.carbonGrams == kwh * 389.0;
    if observations[0].duration > 0.0 {
      assert 0.0 < kwh;
      DeltaOfSameEnergy(kwh, 420.0, 165.0);
      DeltaOfSameEnergy(kwh, 389.0, 165.0);
      DeltaOfSameEnergy(kwh, 165.0, 165.0);
    }
  }

  /** The table printed after the comparison runs, with the baseline taken from
      the first run; the division by a zero baseline is reported as None. */
  method ReportDeltas(results: seq<(string, RunRecord)>) returns (report: Option<seq<ComparisonRow>>)
    requires |results| > 0
    ensures report == Deltas(results)
  {
    var baseline := results[0].1.metrics.carbonGrams;
    if baseline == 0.0 {
      return None;
    }
    var rows: seq<ComparisonRow> := [];
    for k := 0 to |results|
      invariant |rows| == k
      invariant forall j :: 0 <= j < k ==>
        rows[j] == ComparisonRow(results[j].0, results[j].1.metrics.carbonGrams,
                                 DeltaPercent(results[j].1.metrics.carbonGrams, baseline))
    {
      var carbon := results[k].1.metrics.carbonGrams;
      var diffPercent := ((carbon - baseline) / baseline) * 100.0;
      rows := rows + [ComparisonRow(results[k].0, carbon, diffPercent)];
    }
    assert rows == Deltas(results).value;
    report := Some(rows);
  }

  class GreenPipelineCli {
    /** The history file's contents; None while the file does not exist. */
    var historyFile: Option<seq<RunRecord>>

    /** The tool over a history file in the given state. */
    constructor (existing: Option<seq<RunRecord>>)
      ensures historyFile == existing
    {
      historyFile := existing;
    }

    /** The log as `_save_to_history` loads it: an absent file is an empty log. */
    function StoredHistory(): (history: seq<RunRecord>)
      reads this
      ensures historyFile.None? ==> history == []
      ensures historyFile.Some? ==> history == historyFile.value
    {
      match historyFile
      case None => []
      case Some(history) => history
    }

    /** `_save_to_history`: load, append, keep the last 100, write back. */
    method SaveToHistory(data: RunRecord)
      modifies this
      ensures historyFile == Some(BoundedAppend(old(StoredHistory()), data))
      ensures old(|StoredHistory()|) < MaxHistory ==>
        && Sum(CarbonColumn(StoredHistory())) == old(Sum(CarbonColumn(StoredHistory()))) + data.metrics.carbonGrams
        && Sum(EnergyColumn(StoredHistory())) == old(Sum(EnergyColumn(StoredHistory()))) + data.metrics.energyJoules
      ensures old(|StoredHistory()|) == MaxHistory ==>
        && Sum(CarbonColumn(StoredHistory()))
           == old(Sum(CarbonColumn(StoredHistory())) - StoredHistory()[0].metrics.carbonGrams) + data.metrics.carbonGrams
        && Sum(EnergyColumn(StoredHistory()))
           == old(Sum(EnergyColumn(StoredHistory())) - StoredHistory()[0].metrics.energyJoules) + data.metrics.energyJoules
    {
      ghost var before := StoredHistory();
      var history: seq<RunRecord> := [];
      if historyFile.Some? {
        history := historyFile.value;
      }
      history := history + [data];
      history := SliceFrom(history, -(MaxHistory as int));
      historyFile := Some(history);
      if |before| < MaxHistory {
        TotalsAfterSave(before, data);
      } else if |before| == MaxHistory {
        TotalsAfterFullSave(before, data);
      }
    }

    /** `run_command`: build the record and save it only when asked to. */
    method RunCommand(command: string, timestamp: string, duration: real, execution: Execution,
                      location: string := "GLOBAL", saveHistory: bool := true) returns (data: RunRecord)
      modifies this
      ensures data == BuildRecord(timestamp, command, location, duration, execution)
      ensures saveHistory ==> historyFile == Some(BoundedAppend(old(StoredHistory()), data))
      ensures !saveHistory ==> historyFile == old(historyFile)
    {
      data := BuildRecord(timestamp, command, location, duration, execution);
      if saveHistory {
        SaveToHistory(data);
      }
    }

    /** `show_history(limit)`: nothing when the file is absent; otherwise the
        records `history[-limit:]` and the count and totals over the whole log. */
    function ShowHistory(limit: int := 10): (view: Option<HistoryView>)
      reads this
      ensures view.None? <==> historyFile.None?
      ensures view.Some? ==> view.value.count == |historyFile.value|
    {
      match historyFile
      case None => None
      case Some(history) =>
        Some(HistoryView(SliceFrom(history, -limit), |history|,
                         Sum(CarbonColumn(history)), Sum(EnergyColumn(history))))
    }

    /** `compare_locations`: run the command once per location without saving,
        then report the deltas against the first location. Each run's duration,
        outcome and timestamp come from `observations`, in location order. */
    method CompareLocations(command: string, observations: seq<Observation>)
      returns (results: seq<(string, RunRecord)>, report: Option<seq<ComparisonRow>>)
      requires |observations| == |ComparedLocations|
      modifies this
      ensures historyFile == old(historyFile)
      ensures results == ComparisonRuns(command, observations)
      ensures report == Deltas(results)
    {
      results := [];
      var i := 0;
      while i < |ComparedLocations|
        invariant 0 <= i <= |ComparedLocations|
        invariant historyFile == old(historyFile)
        invariant results == ComparisonRuns(command, observations)[..i]
      {
        var (name, code) := ComparedLocations[i];
        var run := observations[i];
        var result := RunCommand(command, run.timestamp, run.duration, run.execution, location := code, saveHistory := false);
        results := results + [(name, result)];
        i := i + 1;
      }
      report := ReportDeltas(results);
    }
  }

  /** For a limit of at least 1 the listing is the last min(limit, count) records
      in chronological order; a limit of 0 lists the whole log. */
  lemma ShowHistoryListsLatest(cli: GreenPipelineCli, limit: int)
    requires cli.historyFile.Some?
    ensures var h := cli.historyFile.value;
      var listed := cli.ShowHistory(limit).value.listed;
      && (limit >= 1 ==> |listed| == Min(limit, |h|) && listed == h[|h| - |listed|..])
      && (limit == 0 ==> listed == h)
  {
    var h := cli.historyFile.value;
    if limit >= 1 {
      SliceFromLast(h, limit);
    }
  }

  /** The count and the totals do not depend on the limit. */
  lemma ShowHistoryTotalsIgnoreLimit(cli: GreenPipelineCli, limit1: int, limit2: int)
    requires cli.historyFile.Some?
    ensures cli.ShowHistory(limit1).value.count == cli.ShowHistory(limit2).value.count
    ensures cli.ShowHistory(limit1).value.totalCarbon == cli.ShowHistory(limit2).value.totalCarbon
    ensures cli.ShowHistory(limit1).value.totalEnergy == cli.ShowHistory(limit2).value.totalEnergy
  {
  }

  /** Saving a record to a log with room left adds its carbon and energy to the totals. */
  lemma TotalsAfterSave(history: seq<RunRecord>, data: RunRecord)
    requires |history| < MaxHistory
    ensures Sum(CarbonColumn(BoundedAppend(history, data)))
         == Sum(CarbonColumn(history)) + data.metrics.carbonGrams
    ensures Sum(EnergyColumn(BoundedAppend(history, data)))
         == Sum(EnergyColumn(history)) + data.metrics.energyJoules
  {
    BoundedAppendShape(history, data);
    assert CarbonColumn(history + [data]) == CarbonColumn(history) + [data.metrics.carbonGrams];
    assert EnergyColumn(history + [data]) == EnergyColumn(history) + [data.metrics.energyJoules];
    SumAppend(CarbonColumn(history), [data.metrics.carbonGrams]);
    SumAppend(EnergyColumn(history), [data.metrics.energyJoules]);
  }

  /** Saving a record to a full log drops the oldest record's carbon and energy
      from the totals and adds the new record's. */
  lemma TotalsAfterFullSave(history: seq<RunRecord>, data: RunRecord)
    requires |history| == MaxHistory
    ensures Sum(CarbonColumn(BoundedAppend(history, data)))
         == Sum(CarbonColumn(history)) - history[0].metrics.carbonGrams + data.metrics.carbonGrams
    ensures Sum(EnergyColumn(BoundedAppend(history, data)))
         == Sum(EnergyColumn(history)) - history[0].metrics.energyJoules + data.metrics.energyJoules
  {
    BoundedAppendShape(history, data);
    var rest := history[1..];
    assert history == [history[0]] + rest;
    assert CarbonColumn(rest + [data]) == CarbonColumn(rest) + [data.metrics.carbonGrams];
    assert EnergyColumn(rest + [data]) == EnergyColumn(rest) + [data.metrics.energyJoules];
    assert CarbonColumn(history) == [history[0].metrics.carbonGrams] + CarbonColumn(rest);
    assert EnergyColumn(history) == [history[0].metrics.energyJoules] + EnergyColumn(rest);
    SumAppend(CarbonColumn(rest), [data.metrics.carbonGrams]);
    SumAppend(EnergyColumn(rest), [data.metrics.energyJoules]);
    SumAppend([history[0].metrics.carbonGrams], CarbonColumn(rest));
    SumAppend([history[0].metrics.energyJoules], EnergyColumn(rest));
    assert [history[0].metrics.carbonGrams][..0] == [];
    assert [history[0].metrics.energyJoules][..0] == [];
  }

  /** A log of records with non-negative carbon and energy has non-negative totals. */
  lemma TotalsNonNegative(cli: GreenPipelineCli, limit: int)
    requires cli.historyFile.Some?
    requires forall k :: 0 <= k < |cli.historyFile.value| ==>
      0.0 <= cli.historyFile.value[k].metrics.carbonGrams && 0.0 <= cli.historyFile.value[k].metrics.energyJoules
    ensures 0.0 <= cli.ShowHistory(limit).value.totalCarbon
    ensures 0.0 <= cli.ShowHistory(limit).value.totalEnergy
  {
    var h := cli.historyFile.value;
    SumNonNegative(CarbonColumn(h));
    SumNonNegative(EnergyColumn(h));
  }
}
