/** The operations controller: its settings, the decision rules of its three workers
    (collection, anomaly detection, prediction), each modelled as one cycle, and the
    start/stop state machine. */
module Controller {
  import opened Wrappers
  import opened Json
  import opened Sequences
  import opened Metrics
  import Config
  import Alerting
  import Remediation
  import AnomalyDetection
  import Analytics

  // ----- Settings -------------------------------------------------------------------------

  /** The parts of the merged controller configuration the workers read. */
  datatype Settings = Settings(
    autoRemediation: bool,
    thresholds: map<string, real>,
    anomalyModelPath: string,
    predictionModelPath: string)

  /** A threshold table whose values are all numbers. None for a table the model
      excludes: one that is not a dict, or has a value that is not a number (the source
      raises only when it compares such a value, in `value >= threshold` or
      `threshold * 0.9`). */
  function ThresholdsOf(j: Json): (r: Option<map<string, real>>)
    ensures r.Some? <==> j.Obj? && forall k | k in j.fields :: NumberOf(j.fields[k]).Some?
    ensures r.Some? ==> r.value.Keys == j.fields.Keys
    ensures r.Some? ==> forall k | k in r.value :: NumberOf(j.fields[k]) == Some(r.value[k])
  {
    if !j.Obj? then None
    else if exists k | k in j.fields :: NumberOf(j.fields[k]).None? then None
    else Some(map k | k in j.fields :: NumberOf(j.fields[k]).value)
  }

  /** A model path setting: a string is used as is, a falsy value means "unset" (""), and
      a truthy value of another type is excluded (None). */
  function PathSetting(cfg: Config.Settings, key: string, default: string): Option<string> {
    if key !in cfg then Some(default)
    else match cfg[key]
      case Str(s) => Some(s)
      case other => if Truthy(other) then None else Some("")
  }

  /** The settings of a merged configuration. None for a configuration the model excludes:
      a threshold table `ThresholdsOf` rejects, or a model path that is truthy but not a
      string. */
  function SettingsOf(cfg: Config.Settings): (r: Option<Settings>)
    ensures r.None? <==>
      || ("thresholds" in cfg && ThresholdsOf(cfg["thresholds"]).None?)
      || ("anomaly_model_path" in cfg && !cfg["anomaly_model_path"].Str? && Truthy(cfg["anomaly_model_path"]))
      || ("prediction_model_path" in cfg && !cfg["prediction_model_path"].Str? && Truthy(cfg["prediction_model_path"]))
    ensures r.Some? ==>
      && r.value.autoRemediation == ("auto_remediation" !in cfg || Truthy(cfg["auto_remediation"]))
      && ("thresholds" in cfg ==> Some(r.value.thresholds) == ThresholdsOf(cfg["thresholds"]))
      && ("anomaly_model_path" !in cfg ==> r.value.anomalyModelPath == "models/anomaly_model.pkl")
      && ("prediction_model_path" !in cfg ==> r.value.predictionModelPath == "models/prediction_model.h5")
      && ("anomaly_model_path" in cfg && cfg["anomaly_model_path"].Str? ==>
            r.value.anomalyModelPath == cfg["anomaly_model_path"].s)
      && ("prediction_model_path" in cfg && cfg["prediction_model_path"].Str? ==>
            r.value.predictionModelPath == cfg["prediction_model_path"].s)
      && ("anomaly_model_path" in cfg && !Truthy(cfg["anomaly_model_path"]) ==> r.value.anomalyModelPath == "")
      && ("prediction_model_path" in cfg && !Truthy(cfg["prediction_model_path"]) ==> r.value.predictionModelPath == "")
  {
    var auto := if "auto_remediation" in cfg then Truthy(cfg["auto_remediation"]) else true;
    var thresholds := if "thresholds" in cfg then ThresholdsOf(cfg["thresholds"]) else Some(map[]);
    var anomalyPath := PathSetting(cfg, "anomaly_model_path", "models/anomaly_model.pkl");
    var predictionPath := PathSetting(cfg, "prediction_model_path", "models/prediction_model.h5");
    if thresholds.None? || anomalyPath.None? || predictionPath.None? then None
    else Some(Settings(auto, thresholds.value, anomalyPath.value, predictionPath.value))
  }

  /** Built-in configuration: remediation on, thresholds 90/85/90, the two default paths. */
  lemma DefaultSettings()
    ensures SettingsOf(Config.ControllerDefaults()) == Some(Settings(
      true,
      map[CpuPercent := 90.0, MemoryPercent := 85.0, DiskUsage := 90.0],
      "models/anomaly_model.pkl",
      "models/prediction_model.h5"))
  {
    var fields := Config.ControllerDefaults()["thresholds"].fields;
    assert !exists k | k in fields :: NumberOf(fields[k]).None?;
    var expected := map[CpuPercent := 90.0, MemoryPercent := 85.0, DiskUsage := 90.0];
    assert ThresholdsOf(Config.ControllerDefaults()["thresholds"]).value == expected;
  }

  // ----- Decision rules -----------------------------------------------------------------

  const DetectionWindow: nat := 10
  const TrainingMinimum: nat := 60
  const ForecastMinimum: nat := 30
  const PersistEvery: nat := 100
  const EscalationLevel: real := 90.0
  const DefaultThreshold: real := 90.0
  const ForecastDays: nat := 1
  /** The look-back the forecast uses; training uses it too (see `MatchedLookBackReachesRegressor`). */
  const PredictionLookBack: nat := 6
  /** The look-back the prediction worker passes to training as written. */
  const AsWrittenTrainingLookBack: nat := 24

  /** The `threshold_exceeded` alert raised for one violation. */
  function ThresholdAlert(v: Violation): Alerting.AlertRequest {
    Alerting.AlertRequest("threshold_exceeded", v.metric, "warning",
      Alerting.ThresholdExceeded(v.metric, v.value, v.threshold),
      Obj(map["metric" := Str(v.metric), "value" := Num(v.value), "threshold" := Num(v.threshold)]))
  }

  /** One alert per violation, in order. */
  function ThresholdAlerts(violations: seq<Violation>): (reqs: seq<Alerting.AlertRequest>)
    ensures |reqs| == |violations|
    ensures forall i | 0 <= i < |reqs| ::
      && reqs[i].alertType == "threshold_exceeded" && reqs[i].severity == "warning"
      && reqs[i].resourceId == violations[i].metric
  {
    seq(|violations|, i requires 0 <= i < |violations| => ThresholdAlert(violations[i]))
  }

  /** The `anomaly_detected` alert raised for one anomalous row. */
  function AnomalyAlert(row: Sample): Alerting.AlertRequest {
    Alerting.AlertRequest("anomaly_detected", "system", "critical", Alerting.Text("系统异常行为检测"), AsJson(row))
  }

  /** The issue types remediated for an anomalous row, in the order cpu, memory, disk. */
  function EscalationIssues(row: Sample): seq<string> {
    (if MetricOr0(row, CpuPercent) > EscalationLevel then ["high_cpu"] else [])
    + (if MetricOr0(row, MemoryPercent) > EscalationLevel then ["memory_leak"] else [])
    + (if MetricOr0(row, DiskUsage) > EscalationLevel then ["disk_full"] else [])
  }

  /** One issue per metric strictly above 90 (a missing metric counts as 0), each at most
      once, cpu first and disk last; the configured thresholds play no part. */
  lemma EscalationRule(row: Sample)
    ensures var issues := EscalationIssues(row);
      && (forall i | 0 <= i < |issues| :: issues[i] in {"high_cpu", "memory_leak", "disk_full"})
      && ("high_cpu" in issues <==> MetricOr0(row, CpuPercent) > EscalationLevel)
      && ("memory_leak" in issues <==> MetricOr0(row, MemoryPercent) > EscalationLevel)
      && ("disk_full" in issues <==> MetricOr0(row, DiskUsage) > EscalationLevel)
      && ("high_cpu" in issues ==> issues[0] == "high_cpu")
      && ("disk_full" in issues ==> issues[|issues| - 1] == "disk_full")
      && (forall i, j | 0 <= i < j < |issues| :: issues[i] != issues[j])
  {
  }

  /** The `remediate` calls for one row, in order; an exception ends the cycle, so the
      calls after a raising one are not made (the flag says whether one raised). */
  function RowRemediations(issues: seq<string>, remediate: string -> Remediation.Run)
    : (seq<(string, Remediation.Run)>, bool)
    decreases |issues|
  {
    if issues == [] then ([], false)
    else
      var (runs, raised) := RowRemediations(issues[..|issues| - 1], remediate);
      if raised then (runs, true)
      else
        var issue := issues[|issues| - 1];
        var run := remediate(issue);
        (runs + [(issue, run)], run.outcome.Raised?)
  }

  /** The calls are made in issue order, each with its issue, and only the last one made
      may raise; when none raises, every issue gets its call. */
  lemma {:induction false} RowRemediationsInOrder(issues: seq<string>, remediate: string -> Remediation.Run)
    ensures var (runs, raised) := RowRemediations(issues, remediate);
      && |runs| <= |issues|
      && (forall j | 0 <= j < |runs| :: runs[j] == (issues[j], remediate(issues[j])))
      && (forall j | 0 <= j < |runs| - 1 :: runs[j].1.outcome.Returned?)
      && (!raised ==> |runs| == |issues|)
      && (raised <==> |runs| > 0 && runs[|runs| - 1].1.outcome.Raised?)
    decreases |issues|
  {
    if issues != [] {
      var front := issues[..|issues| - 1];
      RowRemediationsInOrder(front, remediate);
      assert forall j | 0 <= j < |front| :: front[j] == issues[j];
    }
  }

  /** With a `remediate` that never raises `TypeError`, as the engine's argumentless calls
      (`Remediation.ArgumentlessNeverTypeError`), the calls for a row stop only at an
      `OSError`, which is then the last call made. */
  lemma {:induction false} RemediationCalls(issues: seq<string>, remediate: string -> Remediation.Run)
    requires forall i | 0 <= i < |issues| :: remediate(issues[i]).outcome != Remediation.Raised(Remediation.TypeError)
    ensures var (runs, raised) := RowRemediations(issues, remediate);
      && (forall j | 0 <= j < |runs| :: runs[j].1.outcome != Remediation.Raised(Remediation.TypeError))
      && (raised <==> |runs| > 0 && runs[|runs| - 1].1.outcome == Remediation.Raised(Remediation.OSError))
    decreases |issues|
  {
    if issues != [] {
      var front := issues[..|issues| - 1];
      assert forall i | 0 <= i < |front| :: front[i] == issues[i];
      RemediationCalls(front, remediate);
      var issue := issues[|issues| - 1];
      assert remediate(issue).outcome != Remediation.Raised(Remediation.TypeError);
      if remediate(issue).outcome.Raised? {
        assert remediate(issue).outcome.error == Remediation.OSError;
      }
    }
  }

  /** What one detection cycle did: the alerts it requested, the remediation calls, and
      whether an exception ended the cycle early. */
  datatype Reaction = Reaction(
    requests: seq<Alerting.AlertRequest>,
    remediations: seq<(string, Remediation.Run)>,
    aborted: bool)

  const NoReaction: Reaction := Reaction([], [], false)

  /** The reaction to the anomaly indices found among the `recent` rows: per index, the
      alert, then (with auto-remediation) the remediation calls. An index outside the rows
      makes `iloc` raise before the alert; a raising remediation ends the cycle after it. */
  function AnomalyReaction(recent: seq<Sample>, indices: seq<nat>, autoRemediation: bool,
                           remediate: string -> Remediation.Run): Reaction
    decreases |indices|
  {
    if indices == [] then NoReaction
    else
      var before := AnomalyReaction(recent, indices[..|indices| - 1], autoRemediation, remediate);
      var idx := indices[|indices| - 1];
      if before.aborted then before
      else if idx >= |recent| then before.(aborted := true)
      else
        var row := recent[idx];
        var (runs, raised) :=
          RowRemediations(if autoRemediation then EscalationIssues(row) else [], remediate);
        Reaction(before.requests + [AnomalyAlert(row)], before.remediations + runs, raised)
  }

  /** The reaction to one more index, before any abort. */
  lemma ReactionStep(recent: seq<Sample>, indices: seq<nat>, k: nat, autoRemediation: bool,
                     remediate: string -> Remediation.Run)
    requires k < |indices| && !AnomalyReaction(recent, indices[..k], autoRemediation, remediate).aborted
    ensures var before := AnomalyReaction(recent, indices[..k], autoRemediation, remediate);
      var after := AnomalyReaction(recent, indices[..k + 1], autoRemediation, remediate);
      if indices[k] >= |recent| then after == before.(aborted := true)
      else
        var runs := RowRemediations(if autoRemediation then EscalationIssues(recent[indices[k]]) else [], remediate);
        after == Reaction(before.requests + [AnomalyAlert(recent[indices[k]])], before.remediations + runs.0, runs.1)
  {
    assert indices[..k + 1][..k] == indices[..k];
  }

  /** One more alert extends the alert series. */
  lemma AlertAppended(history: seq<Alerting.AlertRecord>, requests: seq<Alerting.AlertRequest>,
                      request: Alerting.AlertRequest, now: int, cooldownMinutes: real)
    ensures Alerting.FireAll(history, requests + [request], now, cooldownMinutes)
      == Alerting.Fire(Alerting.FireAll(history, requests, now, cooldownMinutes), request, now, cooldownMinutes)
  {
    assert (requests + [request])[..|requests|] == requests;
  }

  /** Two alert series one after the other. */
  lemma {:induction false} AlertsConcatenated(history: seq<Alerting.AlertRecord>, first: seq<Alerting.AlertRequest>,
                                              second: seq<Alerting.AlertRequest>, now: int, cooldownMinutes: real)
    ensures Alerting.FireAll(history, first + second, now, cooldownMinutes)
      == Alerting.FireAll(Alerting.FireAll(history, first, now, cooldownMinutes), second, now, cooldownMinutes)
    decreases |second|
  {
    if second == [] {
      assert first + second == first;
    } else {
      var n := |second| - 1;
      AlertsConcatenated(history, first, second[..n], now, cooldownMinutes);
      assert (first + second)[..|first + second| - 1] == first + second[..n];
    }
  }

  /** Once a cycle is aborted, later indices add nothing. */
  lemma {:induction false} ReactionStopsAtAbort(recent: seq<Sample>, indices: seq<nat>, k: nat, autoRemediation: bool,
                                                remediate: string -> Remediation.Run)
    requires k <= |indices| && AnomalyReaction(recent, indices[..k], autoRemediation, remediate).aborted
    ensures AnomalyReaction(recent, indices, autoRemediation, remediate)
      == AnomalyReaction(recent, indices[..k], autoRemediation, remediate)
    decreases |indices| - k
  {
    if k < |indices| {
      assert indices[..k + 1][..k] == indices[..k];
      ReactionStopsAtAbort(recent, indices, k + 1, autoRemediation, remediate);
    } else {
      assert indices[..k] == indices;
    }
  }

  /** Each anomaly index yields exactly one `anomaly_detected` alert for its row, in index
      order, until the cycle aborts. */
  lemma {:induction false} ReactionAlerts(recent: seq<Sample>, indices: seq<nat>, autoRemediation: bool,
                                          remediate: string -> Remediation.Run)
    ensures var r := AnomalyReaction(recent, indices, autoRemediation, remediate);
      && |r.requests| <= |indices|
      && (forall j | 0 <= j < |r.requests| ::
            indices[j] < |recent| && r.requests[j] == AnomalyAlert(recent[indices[j]]))
      && (!r.aborted ==> |r.requests| == |indices|)
    decreases |indices|
  {
    if indices != [] {
      var n := |indices| - 1;
      var front := indices[..n];
      ReactionAlerts(recent, front, autoRemediation, remediate);
      var before := AnomalyReaction(recent, front, autoRemediation, remediate);
      var r := AnomalyReaction(recent, indices, autoRemediation, remediate);
      if before.aborted || indices[n] >= |recent| {
        assert r.requests == before.requests && r.aborted;
      } else {
        assert r.requests == before.requests + [AnomalyAlert(recent[indices[n]])];
      }
      assert forall j | 0 <= j < n :: front[j] == indices[j];
    }
  }

  /** Without auto-remediation no remediation is called, and only an anomaly index outside
      the rows ends the cycle early. */
  lemma {:induction false} ReactionWithoutRemediation(recent: seq<Sample>, indices: seq<nat>,
                                                      remediate: string -> Remediation.Run)
    ensures var r := AnomalyReaction(recent, indices, false, remediate);
      && r.remediations == []
      && (r.aborted <==> exists j | 0 <= j < |indices| :: indices[j] >= |recent|)
    decreases |indices|
  {
    if indices != [] {
      var front := indices[..|indices| - 1];
      ReactionWithoutRemediation(recent, front, remediate);
      assert forall j | 0 <= j < |front| :: front[j] == indices[j];
      var r := AnomalyReaction(recent, indices, false, remediate);
      if r.aborted && !AnomalyReaction(recent, front, false, remediate).aborted {
        assert indices[|indices| - 1] >= |recent|;
      }
    }
  }

  /** The reaction of one detection cycle to the `recent` rows and what the detector found
      on them: nothing unless the rows' columns include the three features. */
  function DetectionReaction(recent: seq<Sample>, found: Option<seq<nat>>, autoRemediation: bool,
                             remediate: string -> Remediation.Run): Reaction {
    if !FeaturesPresent(recent) || found.None? then NoReaction
    else AnomalyReaction(recent, found.value, autoRemediation, remediate)
  }

  // ----- Prediction warnings ------------------------------------------------------------

  /** `thresholds.get(feature, 90)`. */
  function ThresholdFor(thresholds: map<string, real>, feature: string): real {
    if feature in thresholds then thresholds[feature] else DefaultThreshold
  }

  /** The `prediction_warning` alert for feature `i` of forecast day `day`. */
  function WarningAlert(day: nat, i: nat, value: real, current: Row, thresholds: map<string, real>): Alerting.AlertRequest
    requires i < |Features| && |current| == |Features|
  {
    var feature := Features[i];
    var threshold := ThresholdFor(thresholds, feature);
    Alerting.AlertRequest("prediction_warning", feature, "warning",
      Alerting.PredictionReached(day + 1, feature, value),
      Obj(map[
        "feature" := Str(feature),
        "current_value" := Num(current[i]),
        "predicted_value" := Num(value),
        "days_ahead" := Num((day + 1) as real),
        "threshold" := Num(threshold)]))
  }

  /** A forecast value warns when it exceeds 90% of its feature's threshold. */
  predicate Warns(value: real, thresholds: map<string, real>, feature: string) {
    value > ThresholdFor(thresholds, feature) * 0.9
  }

  /** The warnings for the first `k` features of one forecast row. */
  function DayWarnings(day: nat, row: Row, current: Row, thresholds: map<string, real>, k: nat): seq<Alerting.AlertRequest>
    requires k <= |Features| && |row| == |Features| && |current| == |Features|
    decreases k
  {
    if k == 0 then []
    else
      DayWarnings(day, row, current, thresholds, k - 1)
      + (if Warns(row[k - 1], thresholds, Features[k - 1])
         then [WarningAlert(day, k - 1, row[k - 1], current, thresholds)] else [])
  }

  /** The warnings for a whole forecast, day by day. */
  function Warnings(forecast: seq<Row>, current: Row, thresholds: map<string, real>): seq<Alerting.AlertRequest>
    requires Uniform(forecast, |Features|) && |current| == |Features|
    decreases |forecast|
  {
    if forecast == [] then []
    else
      var n := |forecast| - 1;
      Warnings(forecast[..n], current, thresholds) + DayWarnings(n, forecast[n], current, thresholds, |Features|)
  }

  lemma {:induction false} DayWarningsSound(day: nat, row: Row, current: Row, thresholds: map<string, real>, k: nat)
    requires k <= |Features| && |row| == |Features| && |current| == |Features|
    ensures forall r | r in DayWarnings(day, row, current, thresholds, k) ::
      exists i | 0 <= i < k :: Warns(row[i], thresholds, Features[i]) && r == WarningAlert(day, i, row[i], current, thresholds)
    decreases k
  {
    if k > 0 {
      DayWarningsSound(day, row, current, thresholds, k - 1);
    }
  }

  lemma {:induction false} DayWarningsComplete(day: nat, row: Row, current: Row, thresholds: map<string, real>, k: nat, i: nat)
    requires k <= |Features| && |row| == |Features| && |current| == |Features| && i < k
    requires Warns(row[i], thresholds, Features[i])
    ensures WarningAlert(day, i, row[i], current, thresholds) in DayWarnings(day, row, current, thresholds, k)
    decreases k
  {
    if i < k - 1 {
      DayWarningsComplete(day, row, current, thresholds, k - 1, i);
    }
  }

  /** Two warnings are equal only for the same day and feature. */
  lemma WarningAlertInjective(d1: nat, i1: nat, v1: real, d2: nat, i2: nat, v2: real, current: Row, thresholds: map<string, real>)
    requires i1 < |Features| && i2 < |Features| && |current| == |Features|
    requires WarningAlert(d1, i1, v1, current, thresholds) == WarningAlert(d2, i2, v2, current, thresholds)
    ensures d1 == d2 && i1 == i2
  {
    assert Features[i1] == Features[i2];
    assert CpuPercent[0] != MemoryPercent[0] && CpuPercent[0] != DiskUsage[0] && MemoryPercent[0] != DiskUsage[0];
  }

  /** The warnings of one forecast row all name that row's day. */
  lemma {:induction false} DayWarningsDay(day: nat, row: Row, current: Row, thresholds: map<string, real>, k: nat)
    requires k <= |Features| && |row| == |Features| && |current| == |Features|
    ensures forall r | r in DayWarnings(day, row, current, thresholds, k) ::
      r.message.PredictionReached? && r.message.daysAhead == day + 1
    decreases k
  {
    if k > 0 {
      DayWarningsDay(day, row, current, thresholds, k - 1);
    }
  }

  /** Every warning of a forecast names a day inside it. */
  lemma {:induction false} WarningsDays(forecast: seq<Row>, current: Row, thresholds: map<string, real>)
    requires Uniform(forecast, |Features|) && |current| == |Features|
    ensures forall r | r in Warnings(forecast, current, thresholds) ::
      r.message.PredictionReached? && 1 <= r.message.daysAhead <= |forecast|
    decreases |forecast|
  {
    if forecast != [] {
      var n := |forecast| - 1;
      assert Uniform(forecast[..n], |Features|);
      WarningsDays(forecast[..n], current, thresholds);
      DayWarningsDay(n, forecast[n], current, thresholds, |Features|);
    }
  }

  /** A warning fires for forecast day `day` and feature `i` exactly when the forecast value
      exceeds 90% of the feature's threshold (90 when none is configured); it names the
      feature as its resource and `day + 1` as the days ahead. */
  lemma {:induction false} WarningsExact(forecast: seq<Row>, current: Row, thresholds: map<string, real>, day: nat, i: nat)
    requires Uniform(forecast, |Features|) && |current| == |Features|
    requires day < |forecast| && i < |Features|
    ensures WarningAlert(day, i, forecast[day][i], current, thresholds) in Warnings(forecast, current, thresholds)
      <==> Warns(forecast[day][i], thresholds, Features[i])
    ensures WarningAlert(day, i, forecast[day][i], current, thresholds).resourceId == Features[i]
    ensures WarningAlert(day, i, forecast[day][i], current, thresholds).message.daysAhead == day + 1
    decreases |forecast|
  {
    var n := |forecast| - 1;
    var w := WarningAlert(day, i, forecast[day][i], current, thresholds);
    var front := forecast[..n];
    assert Uniform(front, |Features|);
    var last := DayWarnings(n, forecast[n], current, thresholds, |Features|);
    assert Warnings(forecast, current, thresholds) == Warnings(front, current, thresholds) + last;
    if day < n {
      assert front[day] == forecast[day];
      WarningsExact(front, current, thresholds, day, i);
      DayWarningsDay(n, forecast[n], current, thresholds, |Features|);
      assert w !in last;
    } else {
      WarningsDays(front, current, thresholds);
      assert w !in Warnings(front, current, thresholds);
      if Warns(forecast[day][i], thresholds, Features[i]) {
        DayWarningsComplete(n, forecast[n], current, thresholds, |Features|, i);
      }
      if w in last {
        DayWarningsSound(n, forecast[n], current, thresholds, |Features|);
        var j :| 0 <= j < |Features| && Warns(forecast[n][j], thresholds, Features[j])
          && w == WarningAlert(n, j, forecast[n][j], current, thresholds);
        WarningAlertInjective(day, i, forecast[day][i], n, j, forecast[n][j], current, thresholds);
      }
    }
  }

  // ----- Persistence and the data lock ----------------------------------------------------

  /** The sample buffer `metrics_data` and the snapshots written to the CSV file. */
  datatype Buffer = Buffer(data: seq<Sample>, persisted: seq<seq<Sample>>)

  /** `_save_metrics_to_csv` with the lock available: nothing for an empty buffer,
      otherwise a snapshot of the whole buffer. */
  function Saved(b: Buffer): Buffer {
    if b.data == [] then b else b.(persisted := b.persisted + [b.data])
  }

  /** The state of the non-reentrant `data_lock` as seen by the calling thread. */
  datatype Lock = Free | HeldByCaller

  /** The end of a storing step: the new buffer, or a thread blocked for ever. */
  datatype Stored = Stored(buffer: Buffer) | Deadlocked

  /** `_save_metrics_to_csv` as written: it takes `data_lock`, which blocks for ever when the
      calling thread already holds it. */
  function SaveAsWritten(b: Buffer, lock: Lock): Stored {
    if b.data == [] then Stored(b)
    else if lock == HeldByCaller then Deadlocked
    else Stored(Saved(b))
  }

  /** The storing step of the collection cycle as written: append and, on every 100th
      sample, save while still holding `data_lock`. */
  function StoreAsWritten(b: Buffer, sample: Sample): Stored {
    var appended := b.(data := b.data + [sample]);
    if |appended.data| % PersistEvery == 0 then SaveAsWritten(appended, HeldByCaller) else Stored(appended)
  }

  /** As written, the collection worker blocks for ever exactly on the samples that should
      be persisted, starting with the 100th. */
  lemma StoreAsWrittenDeadlocks(b: Buffer, sample: Sample)
    ensures StoreAsWritten(b, sample).Deadlocked? <==> (|b.data| + 1) % PersistEvery == 0
    ensures |b.data| == 99 ==> StoreAsWritten(b, sample) == Deadlocked
  {
  }

  /** The storing step with the save made after `data_lock` is released. */
  function StoreCorrected(b: Buffer, sample: Sample): Buffer {
    var appended := b.(data := b.data + [sample]);
    if |appended.data| % PersistEvery == 0 then Saved(appended) else appended
  }

  /** Samples stored one after the other. */
  function StoreAll(b: Buffer, samples: seq<Sample>): Buffer
    decreases |samples|
  {
    if samples == [] then b else StoreCorrected(StoreAll(b, samples[..|samples| - 1]), samples[|samples| - 1])
  }

  /** How the number of completed hundreds moves when one more sample arrives. */
  lemma HundredsStep(n: nat)
    requires n > 0
    ensures n % PersistEvery == 0 ==> n / PersistEvery == (n - 1) / PersistEvery + 1
    ensures n % PersistEvery != 0 ==> n / PersistEvery == (n - 1) / PersistEvery
  {
    var q, r := (n - 1) / PersistEvery, (n - 1) % PersistEvery;
    assert n == PersistEvery * q + r + 1;
    if r == PersistEvery - 1 {
      assert n == PersistEvery * (q + 1);
    } else {
      assert n % PersistEvery == r + 1;
    }
  }

  /** From an empty buffer, storing samples keeps every one of them and writes one snapshot
      per 100 samples: snapshot `k` holds the first `100 * (k + 1)` samples. */
  lemma {:induction false} StoreCorrectedPersists(samples: seq<Sample>)
    ensures var b := StoreAll(Buffer([], []), samples);
      && b.data == samples
      && |b.persisted| == |samples| / PersistEvery
      && forall k | 0 <= k < |b.persisted| :: b.persisted[k] == samples[..PersistEvery * (k + 1)]
    decreases |samples|
  {
    if samples != [] {
      var n := |samples|;
      var front := samples[..n - 1];
      StoreCorrectedPersists(front);
      HundredsStep(n);
      var b := StoreAll(Buffer([], []), front);
      var appended := Buffer(samples, b.persisted);
      assert b.data + [samples[n - 1]] == samples;
      assert StoreAll(Buffer([], []), samples) == StoreCorrected(b, samples[n - 1]);
      forall k | 0 <= k < |b.persisted| ensures b.persisted[k] == samples[..PersistEvery * (k + 1)] {
        assert front[..PersistEvery * (k + 1)] == samples[..PersistEvery * (k + 1)];
      }
      if n % PersistEvery == 0 {
        assert StoreCorrected(b, samples[n - 1]) == Buffer(samples, b.persisted + [samples]);
        assert PersistEvery * (|b.persisted| + 1) == n;
        assert samples[..n] == samples;
      } else {
        assert StoreCorrected(b, samples[n - 1]) == appended;
      }
    }
  }

  // ----- The controller -----------------------------------------------------------------

  /** The three worker threads `start` launches. */
  datatype Worker = Collection | Detection | Prediction

  const Workers: seq<Worker> := [Collection, Detection, Prediction]

  class AIOpsController {
    const settings: Settings
    const alerts: Alerting.AlertManager
    const detector: AnomalyDetection.AnomalyDetector
    const analytics: Analytics.PredictiveAnalytics
    /** `metrics_data`: every sample collected, oldest first. */
    var metricsData: seq<Sample>
    /** The buffer snapshots written to the metrics CSV file, oldest first. */
    var persisted: seq<seq<Sample>>
    var running: bool
    var threads: seq<Worker>

    /** Workers exist exactly while the system runs, and every buffered sample carries
        numeric cpu, memory and disk values, as the collector produces them. */
    predicate Valid()
      reads this
    {
      && threads == (if running then Workers else [])
      && forall i | 0 <= i < |metricsData| :: WellFormed(metricsData[i])
    }

    constructor (settings: Settings, alertSettings: Alerting.AlertSettings, transport: Alerting.Transport)
      ensures Valid() && this.settings == settings
      ensures !running && metricsData == [] && persisted == []
      ensures fresh(alerts) && alerts.settings == alertSettings && alerts.transport == transport && alerts.history == []
      ensures fresh(detector) && detector.modelPath == settings.anomalyModelPath && detector.model == None
      ensures fresh(analytics) && analytics.modelPath == settings.predictionModelPath && analytics.model == None
    {
      this.settings := settings;
      alerts := new Alerting.AlertManager(alertSettings, transport);
      detector := new AnomalyDetection.AnomalyDetector(settings.anomalyModelPath);
      analytics := new Analytics.PredictiveAnalytics(settings.predictionModelPath);
      metricsData := [];
      persisted := [];
      running := false;
      threads := [];
    }

    /** `start`: nothing happens while running; otherwise the system runs with its three
        workers. */
    method Start()
      requires Valid()
      modifies this
      ensures Valid() && running
      ensures old(running) ==> threads == old(threads)
      ensures !old(running) ==> threads == Workers
      ensures metricsData == old(metricsData) && persisted == old(persisted)
    {
      if running {
        return;
      }
      running := true;
      for i := 0 to |Workers|
        invariant threads == Workers[..i] && running
        invariant metricsData == old(metricsData) && persisted == old(persisted)
      {
        threads := threads + [Workers[i]];
      }
    }

    /** `_save_metrics_to_csv`, called with the lock free. */
    method SaveMetrics()
      modifies this
      ensures Buffer(metricsData, persisted) == Saved(Buffer(old(metricsData), old(persisted)))
      ensures running == old(running) && threads == old(threads)
    {
      if metricsData == [] {
        return;
      }
      persisted := persisted + [metricsData];
    }

    /** `stop`: false and no save while stopped; otherwise the workers are dropped, the
        buffer is saved and the result is true. */
    method Stop() returns (stopped: bool)
      requires Valid()
      modifies this
      ensures Valid() && !running && threads == []
      ensures stopped == old(running)
      ensures metricsData == old(metricsData)
      ensures persisted == old(persisted) + (if old(running) && metricsData != [] then [metricsData] else [])
    {
      if !running {
        return false;
      }
      running := false;
      threads := [];
      SaveMetrics();
      stopped := true;
    }

    /** Triggers the requested alerts one after the other. */
    method TriggerAll(requests: seq<Alerting.AlertRequest>, now: int)
      modifies alerts
      ensures alerts.history == Alerting.FireAll(old(alerts.history), requests, now, alerts.settings.cooldownMinutes)
    {
      for i := 0 to |requests|
        invariant alerts.history == Alerting.FireAll(old(alerts.history), requests[..i], now, alerts.settings.cooldownMinutes)
      {
        assert requests[..i + 1][..i] == requests[..i];
        var _, _ := alerts.TriggerAlert(requests[i], now);
      }
      assert requests[..|requests|] == requests;
    }

    /** One cycle of the collection worker with the sample the collector returned (None
        when it raised): one `threshold_exceeded` alert per violation, then the sample is
        stored, and on every 100th sample the buffer is saved. */
    method CollectionStep(sample: Option<Sample>, now: int) returns (violations: seq<Violation>)
      requires Valid() && (sample.Some? ==> WellFormed(sample.value))
      modifies this, alerts
      ensures Valid() && running == old(running) && threads == old(threads)
      ensures !old(running) || sample.None? ==>
        && violations == [] && metricsData == old(metricsData) && persisted == old(persisted)
        && alerts.history == old(alerts.history)
      ensures old(running) && sample.Some? ==>
        && violations == Violations(sample.value, settings.thresholds)
        && alerts.history == Alerting.FireAll(old(alerts.history), ThresholdAlerts(violations), now, alerts.settings.cooldownMinutes)
        && Buffer(metricsData, persisted) == StoreCorrected(Buffer(old(metricsData), old(persisted)), sample.value)
    {
      if !running || sample.None? {
        return [];
      }
      var metrics := sample.value;
      violations := CheckThresholds(metrics, settings.thresholds);
      TriggerAll(ThresholdAlerts(violations), now);
      metricsData := metricsData + [metrics];
      if |metricsData| % PersistEvery == 0 {
        SaveMetrics();
      }
    }

    /** The model step of the detection worker: load the model, and train it on the whole
        buffer when loading failed and more than 60 samples are buffered. */
    method RefreshAnomalyModel(storage: AnomalyDetection.Storage, fit: seq<Row> -> Option<nat>,
                               dump: (AnomalyDetection.Forest, string) -> bool)
      returns (trained: bool)
      modifies detector
      ensures trained == (!AnomalyDetection.LoadSucceeds(detector.modelPath, storage) && |metricsData| > TrainingMinimum)
      ensures var loaded := AnomalyDetection.ModelAfterLoad(old(detector.model), detector.modelPath, storage);
        detector.model == (if trained then AnomalyDetection.ModelAfterTrain(loaded, Some(FeatureMatrix(metricsData)), fit) else loaded)
      ensures !trained ==> detector.written == old(detector.written)
    {
      var loaded := detector.LoadModel(storage);
      trained := !loaded && |metricsData| > TrainingMinimum;
      if trained {
        var _ := detector.Train(Some(FeatureMatrix(metricsData)), true, fit, dump);
      }
    }

    /** The reaction of the detection worker to the anomaly indices among the `recent`
        rows: alerts and remediation calls until the first exception. */
    method React(recent: seq<Sample>, indices: seq<nat>, remediate: string -> Remediation.Run, now: int)
      returns (reaction: Reaction)
      modifies alerts
      ensures reaction == AnomalyReaction(recent, indices, settings.autoRemediation, remediate)
      ensures alerts.history == Alerting.FireAll(old(alerts.history), reaction.requests, now, alerts.settings.cooldownMinutes)
    {
      var auto := settings.autoRemediation;
      reaction := NoReaction;
      var k := 0;
      while k < |indices|
        invariant 0 <= k <= |indices|
        invariant reaction == AnomalyReaction(recent, indices[..k], auto, remediate)
        invariant !reaction.aborted
        invariant alerts.history == Alerting.FireAll(old(alerts.history), reaction.requests, now, alerts.settings.cooldownMinutes)
      {
        ReactionStep(recent, indices, k, auto, remediate);
        var idx := indices[k];
        if idx >= |recent| {
          reaction := reaction.(aborted := true);
          ReactionStopsAtAbort(recent, indices, k + 1, auto, remediate);
          return;
        }
        var row := recent[idx];
        var request := AnomalyAlert(row);
        var history := alerts.history;
        var _, _ := alerts.TriggerAlert(request, now);
        AlertAppended(history, reaction.requests, request, now, alerts.settings.cooldownMinutes);
        var (runs, raised) := RowRemediations(if auto then EscalationIssues(row) else [], remediate);
        reaction := Reaction(reaction.requests + [request], reaction.remediations + runs, raised);
        k := k + 1;
        if raised {
          ReactionStopsAtAbort(recent, indices, k, auto, remediate);
          return;
        }
      }
      assert indices[..|indices|] == indices;
    }

    /** When the columns of the `recent` rows include the three features, runs the
        detector on them and reacts to each anomaly found. */
    method DetectAndReact(recent: seq<Sample>, predict: (nat, seq<Row>) -> Option<seq<int>>,
                          remediate: string -> Remediation.Run, now: int)
      returns (reaction: Reaction)
      modifies alerts
      ensures reaction == DetectionReaction(recent, detector.DetectAnomalies(FeatureMatrix(recent), predict),
                                            settings.autoRemediation, remediate)
      ensures alerts.history == Alerting.FireAll(old(alerts.history), reaction.requests, now, alerts.settings.cooldownMinutes)
    {
      reaction := NoReaction;
      if !FeaturesPresent(recent) {
        return;
      }
      var found := detector.DetectAnomalies(FeatureMatrix(recent), predict);
      if found.Some? {
        reaction := React(recent, found.value, remediate, now);
      }
    }

    /** One cycle of the anomaly detection worker: refresh the model; then, with more than
        10 samples whose columns include the three features, run the detector on the last
        10 and react to each anomaly. `remediate` is the remediation engine's entry point
        as the controller calls it, without keyword arguments
        (`issue => Remediation.Remediate(issue, map[], host, shell)`); `RemediationCalls`
        and `Remediation.ArgumentlessNeverTypeError` say what those calls do. */
    method DetectionStep(storage: AnomalyDetection.Storage, fit: seq<Row> -> Option<nat>,
                         dump: (AnomalyDetection.Forest, string) -> bool,
                         predict: (nat, seq<Row>) -> Option<seq<int>>,
                         remediate: string -> Remediation.Run, now: int)
      returns (trained: bool, reaction: Reaction)
      modifies alerts, detector
      ensures !running ==>
        && !trained && reaction == NoReaction && alerts.history == old(alerts.history)
        && detector.model == old(detector.model) && detector.written == old(detector.written)
      ensures running ==>
        && trained == (!AnomalyDetection.LoadSucceeds(detector.modelPath, storage) && |metricsData| > TrainingMinimum)
        && var loaded := AnomalyDetection.ModelAfterLoad(old(detector.model), detector.modelPath, storage);
        detector.model == (if trained then AnomalyDetection.ModelAfterTrain(loaded, Some(FeatureMatrix(metricsData)), fit) else loaded)
      ensures !trained ==> detector.written == old(detector.written)
      ensures running && |metricsData| > DetectionWindow ==>
        var recent := metricsData[|metricsData| - DetectionWindow..];
        reaction == DetectionReaction(recent, detector.DetectAnomalies(FeatureMatrix(recent), predict),
                                      settings.autoRemediation, remediate)
      ensures |metricsData| <= DetectionWindow ==> reaction == NoReaction
      ensures alerts.history == Alerting.FireAll(old(alerts.history), reaction.requests, now, alerts.settings.cooldownMinutes)
    {
      if !running {
        return false, NoReaction;
      }
      trained := RefreshAnomalyModel(storage, fit, dump);
      reaction := NoReaction;
      if |metricsData| > DetectionWindow {
        reaction := DetectAndReact(metricsData[|metricsData| - DetectionWindow..], predict, remediate, now);
      }
    }

    /** The model step of the prediction worker: load the model and scaler, and train them
        on the whole buffer when loading failed and more than 60 samples are buffered. */
    method RefreshPredictionModel(storage: Analytics.Storage,
                                  fitScaler: seq<Row> -> Option<(nat, seq<Row>)>,
                                  fit: (seq<seq<real>>, seq<Row>) -> Option<nat>,
                                  dump: string -> bool)
      returns (trained: bool)
      modifies analytics
      ensures trained == (!Analytics.LoadSucceeds(analytics.modelPath, storage) && |metricsData| > TrainingMinimum)
      ensures var loaded := Analytics.AfterLoad(Analytics.Estimator(old(analytics.model), old(analytics.scaler)), analytics.modelPath, storage);
        Analytics.Estimator(analytics.model, analytics.scaler)
          == (if trained
              then Analytics.AfterTrain(loaded, Some(FeatureMatrix(metricsData)), |Features|, PredictionLookBack, fitScaler, fit)
              else loaded)
      ensures !trained ==> analytics.written == old(analytics.written)
    {
      var loaded := analytics.LoadModel(storage);
      trained := !loaded && |metricsData| > TrainingMinimum;
      if trained {
        var _ := analytics.Train(Some(FeatureMatrix(metricsData)), |Features|, PredictionLookBack, fitScaler, fit, dump);
      }
    }

    /** Raises the warnings of one forecast day, feature by feature. */
    method RaiseDayWarnings(day: nat, row: Row, current: Row, now: int) returns (warnings: seq<Alerting.AlertRequest>)
      requires |row| == |Features| && |current| == |Features|
      modifies alerts
      ensures warnings == DayWarnings(day, row, current, settings.thresholds, |Features|)
      ensures alerts.history == Alerting.FireAll(old(alerts.history), warnings, now, alerts.settings.cooldownMinutes)
    {
      warnings := [];
      for i := 0 to |Features|
        invariant warnings == DayWarnings(day, row, current, settings.thresholds, i)
        invariant alerts.history == Alerting.FireAll(old(alerts.history), warnings, now, alerts.settings.cooldownMinutes)
      {
        if row[i] > ThresholdFor(settings.thresholds, Features[i]) * 0.9 {
          var request := WarningAlert(day, i, row[i], current, settings.thresholds);
          var _, _ := alerts.TriggerAlert(request, now);
          AlertAppended(old(alerts.history), warnings, request, now, alerts.settings.cooldownMinutes);
          warnings := warnings + [request];
        }
      }
    }

    /** Raises the warnings of a forecast, day by day. */
    method RaiseWarnings(days: seq<Row>, current: Row, now: int) returns (warnings: seq<Alerting.AlertRequest>)
      requires Uniform(days, |Features|) && |current| == |Features|
      modifies alerts
      ensures warnings == Warnings(days, current, settings.thresholds)
      ensures alerts.history == Alerting.FireAll(old(alerts.history), warnings, now, alerts.settings.cooldownMinutes)
    {
      warnings := [];
      for day := 0 to |days|
        invariant warnings == Warnings(days[..day], current, settings.thresholds)
        invariant alerts.history == Alerting.FireAll(old(alerts.history), warnings, now, alerts.settings.cooldownMinutes)
      {
        assert days[..day + 1][..day] == days[..day];
        var more := RaiseDayWarnings(day, days[day], current, now);
        AlertsConcatenated(old(alerts.history), warnings, more, now, alerts.settings.cooldownMinutes);
        warnings := warnings + more;
      }
      assert days[..|days|] == days;
    }

    /** Forecasts from the last rows of `data` and raises the warnings of the forecast,
        reporting the `current` values beside them. */
    method ForecastAndWarn(data: seq<Row>, current: Row, predictor: Analytics.Predictor, now: int)
      returns (forecast: Option<seq<Row>>, warnings: seq<Alerting.AlertRequest>)
      requires |current| == |Features|
      modifies alerts
      ensures forecast == (if analytics.model.None? then None
                           else Analytics.ForecastFrom(analytics.model, analytics.scaler, Analytics.Tail(data, PredictionLookBack),
                                                       |Features|, ForecastDays, PredictionLookBack, predictor))
      ensures forecast.None? ==> warnings == []
      ensures forecast.Some? ==>
        && Uniform(forecast.value, |Features|) && |forecast.value| <= ForecastDays
        && warnings == Warnings(forecast.value, current, settings.thresholds)
      ensures alerts.history == Alerting.FireAll(old(alerts.history), warnings, now, alerts.settings.cooldownMinutes)
    {
      warnings := [];
      forecast := analytics.ForecastNextDays(data, |Features|, ForecastDays, PredictionLookBack, predictor);
      if forecast.Some? {
        Analytics.ForecastShape(analytics.model, analytics.scaler, Analytics.Tail(data, PredictionLookBack),
                                |Features|, ForecastDays, PredictionLookBack, predictor);
        warnings := RaiseWarnings(forecast.value, current, now);
      }
    }

    /** One cycle of the prediction worker: refresh the model; then, with more than 30
        samples whose columns include the three features, forecast one step from the last
        rows and raise one warning per forecast value above 90% of its threshold. */
    method PredictionStep(storage: Analytics.Storage,
                          fitScaler: seq<Row> -> Option<(nat, seq<Row>)>,
                          fit: (seq<seq<real>>, seq<Row>) -> Option<nat>,
                          dump: string -> bool, predictor: Analytics.Predictor, now: int)
      returns (trained: bool, forecast: Option<seq<Row>>, warnings: seq<Alerting.AlertRequest>)
      modifies alerts, analytics
      ensures !running ==>
        && !trained && forecast.None? && warnings == [] && alerts.history == old(alerts.history)
        && analytics.model == old(analytics.model) && analytics.scaler == old(analytics.scaler)
        && analytics.written == old(analytics.written)
      ensures running ==>
        && trained == (!Analytics.LoadSucceeds(analytics.modelPath, storage) && |metricsData| > TrainingMinimum)
        && var loaded := Analytics.AfterLoad(Analytics.Estimator(old(analytics.model), old(analytics.scaler)), analytics.modelPath, storage);
        Analytics.Estimator(analytics.model, analytics.scaler)
          == (if trained
              then Analytics.AfterTrain(loaded, Some(FeatureMatrix(metricsData)), |Features|, PredictionLookBack, fitScaler, fit)
              else loaded)
      ensures !trained ==> analytics.written == old(analytics.written)
      ensures running && |metricsData| > ForecastMinimum ==>
        forecast == (if !FeaturesPresent(metricsData) || analytics.model.None? then None
                     else Analytics.ForecastFrom(analytics.model, analytics.scaler, Analytics.Tail(FeatureMatrix(metricsData), PredictionLookBack),
                                                 |Features|, ForecastDays, PredictionLookBack, predictor))
      ensures |metricsData| <= ForecastMinimum ==> forecast.None?
      ensures forecast.None? ==> warnings == []
      ensures forecast.Some? ==>
        && Uniform(forecast.value, |Features|) && |forecast.value| <= ForecastDays
        && |metricsData| > 0
        && warnings == Warnings(forecast.value, FeatureRow(metricsData[|metricsData| - 1]), settings.thresholds)
      ensures alerts.history == Alerting.FireAll(old(alerts.history), warnings, now, alerts.settings.cooldownMinutes)
    {
      if !running {
        return false, None, [];
      }
      trained := RefreshPredictionModel(storage, fitScaler, fit, dump);
      forecast := None;
      warnings := [];
      if |metricsData| > ForecastMinimum && FeaturesPresent(metricsData) {
        forecast, warnings := ForecastAndWarn(FeatureMatrix(metricsData), FeatureRow(metricsData[|metricsData| - 1]), predictor, now);
      }
    }
  }

  // ----- The look-back mismatch ---------------------------------------------------------

  /** As written, the prediction worker trains with a look-back of 24 and forecasts with a
      look-back of 6: a regressor fitted on three-column data then expects 72 inputs, the
      forecast window holds 18, every prediction is rejected and the forecast is empty. */
  lemma MismatchedLookBackForecastsNothing(
    e: Analytics.Estimator, data: seq<Row>,
    fitScaler: seq<Row> -> Option<(nat, seq<Row>)>, fit: (seq<seq<real>>, seq<Row>) -> Option<nat>,
    predictor: Analytics.Predictor)
    requires Uniform(data, |Features|) && |data| > ForecastMinimum
    requires Analytics.Fits(Some(data), |Features|, AsWrittenTrainingLookBack, fitScaler, fit)
    requires Uniform(fitScaler(data).value.1, |Features|)
    ensures var trained := Analytics.AfterTrain(e, Some(data), |Features|, AsWrittenTrainingLookBack, fitScaler, fit);
      Analytics.ForecastFrom(trained.model, trained.scaler, Analytics.Tail(data, PredictionLookBack),
                             |Features|, ForecastDays, PredictionLookBack, predictor) == Some([])
  {
    Analytics.TrainedWidth(e, Some(data), |Features|, AsWrittenTrainingLookBack, fitScaler, fit);
    var window := Analytics.Tail(data, PredictionLookBack);
    assert Uniform(window, |Features|);
    FlattenLength(window, |Features|);
  }

  /** With one look-back for training and forecasting, the window has exactly as many
      values as the regressor expects, so the forecast holds the regressor's prediction. */
  lemma MatchedLookBackReachesRegressor(
    e: Analytics.Estimator, data: seq<Row>,
    fitScaler: seq<Row> -> Option<(nat, seq<Row>)>, fit: (seq<seq<real>>, seq<Row>) -> Option<nat>,
    predictor: Analytics.Predictor)
    requires Uniform(data, |Features|) && |data| > ForecastMinimum
    requires Analytics.Fits(Some(data), |Features|, PredictionLookBack, fitScaler, fit)
    requires Uniform(fitScaler(data).value.1, |Features|)
    ensures var trained := Analytics.AfterTrain(e, Some(data), |Features|, PredictionLookBack, fitScaler, fit);
      var window := Analytics.Tail(data, PredictionLookBack);
      && Analytics.Predict(trained.model, trained.scaler, window, PredictionLookBack, predictor)
         == predictor(trained.scaler, trained.model.value.id, window)
      && (predictor(trained.scaler, trained.model.value.id, window).Some?
          && |predictor(trained.scaler, trained.model.value.id, window).value| == |Features| ==>
            Analytics.ForecastFrom(trained.model, trained.scaler, window, |Features|, ForecastDays, PredictionLookBack, predictor)
              == Some([predictor(trained.scaler, trained.model.value.id, window).value]))
  {
    Analytics.TrainedWidth(e, Some(data), |Features|, PredictionLookBack, fitScaler, fit);
    var window := Analytics.Tail(data, PredictionLookBack);
    assert Uniform(window, |Features|);
    FlattenLength(window, |Features|);
    var trained := Analytics.AfterTrain(e, Some(data), |Features|, PredictionLookBack, fitScaler, fit);
    var next := predictor(trained.scaler, trained.model.value.id, window);
    if next.Some? && |next.value| == |Features| {
      var shifted := Analytics.Shift(window, next.value);
      assert Analytics.ForecastFrom(trained.model, trained.scaler, shifted, |Features|, 0, PredictionLookBack, predictor) == Some([]);
      assert [next.value] + [] == [next.value];
    }
  }
}
