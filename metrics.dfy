/** Metric samples and the threshold check the collection worker runs on each of them. */
module Metrics {
  import opened Wrappers
  import opened Json
  import opened Sequences

  /** One collected sample: metric name to value, in the order the collector inserted them
      (`timestamp`, `cpu_percent`, `memory_percent`, `disk_usage`, `network_io`). */
  type Sample = seq<(string, Json)>

  /** One row of the feature matrix handed to the models. */
  type Row = seq<real>

  const CpuPercent: string := "cpu_percent"
  const MemoryPercent: string := "memory_percent"
  const DiskUsage: string := "disk_usage"

  /** The feature columns both models are trained on, in column order. */
  const Features: seq<string> := [CpuPercent, MemoryPercent, DiskUsage]

  /** A Python dict never repeats a key. */
  predicate UniqueKeys(s: Sample) {
    forall i, j | 0 <= i < j < |s| :: s[i].0 != s[j].0
  }

  function Lookup(s: Sample, key: string): Option<Json>
    decreases |s|
  {
    if s == [] then None else if s[0].0 == key then Some(s[0].1) else Lookup(s[1..], key)
  }

  /** A sample as the collector produces it: the three feature metrics are present and numeric. */
  predicate WellFormed(s: Sample) {
    && UniqueKeys(s)
    && (forall f | f in Features :: Lookup(s, f).Some? && NumberOf(Lookup(s, f).value).Some?)
  }

  /** `sample.get(key, 0)` read as a number. */
  function MetricOr0(s: Sample, key: string): real {
    match Lookup(s, key)
    case None => 0.0
    case Some(v) => match NumberOf(v) case Some(n) => n case None => 0.0
  }

  /** The `[cpu_percent, memory_percent, disk_usage]` row of one sample. */
  function FeatureRow(s: Sample): Row {
    [MetricOr0(s, CpuPercent), MetricOr0(s, MemoryPercent), MetricOr0(s, DiskUsage)]
  }

  /** `DataFrame(samples)[features].values`. */
  function FeatureMatrix(samples: seq<Sample>): (m: seq<Row>)
    ensures |m| == |samples| && Uniform(m, |Features|)
    decreases |samples|
  {
    if samples == [] then []
    else FeatureMatrix(samples[..|samples| - 1]) + [FeatureRow(samples[|samples| - 1])]
  }

  /** Row `i` of the matrix holds the features of sample `i`. */
  lemma {:induction false} FeatureMatrixRows(samples: seq<Sample>)
    ensures forall i | 0 <= i < |samples| :: FeatureMatrix(samples)[i] == FeatureRow(samples[i])
    decreases |samples|
  {
    if samples != [] {
      var front := samples[..|samples| - 1];
      FeatureMatrixRows(front);
      assert forall i | 0 <= i < |front| :: front[i] == samples[i];
    }
  }

  /** Every feature is a column of `DataFrame(samples)`: some sample carries it. */
  predicate FeaturesPresent(samples: seq<Sample>) {
    forall f | f in Features :: exists i | 0 <= i < |samples| :: Lookup(samples[i], f).Some?
  }

  /** The sample as a dictionary value (`to_dict()`). */
  function AsJson(s: Sample): Json {
    Obj(ToMap(s))
  }

  function ToMap(s: Sample): map<string, Json>
    decreases |s|
  {
    if s == [] then map[] else ToMap(s[..|s| - 1])[s[|s| - 1].0 := s[|s| - 1].1]
  }

  /** One threshold violation: `{metric, value, threshold}`. */
  datatype Violation = Violation(metric: string, value: real, threshold: real)

  /** The entry has a configured threshold, is an int or float, and reaches the threshold. */
  predicate Qualifies(thresholds: map<string, real>, entry: (string, Json)) {
    && entry.0 in thresholds
    && NumberOf(entry.1).Some?
    && NumberOf(entry.1).value >= thresholds[entry.0]
  }

  function ViolationOf(thresholds: map<string, real>, entry: (string, Json)): Violation
    requires Qualifies(thresholds, entry)
  {
    Violation(entry.0, NumberOf(entry.1).value, thresholds[entry.0])
  }

  /** The violations of a sample, in the sample's iteration order. */
  function Violations(s: Sample, thresholds: map<string, real>): seq<Violation>
    decreases |s|
  {
    if s == [] then []
    else
      Violations(s[..|s| - 1], thresholds)
      + (if Qualifies(thresholds, s[|s| - 1]) then [ViolationOf(thresholds, s[|s| - 1])] else [])
  }

  /** `_check_thresholds`: one pass over the sample, collecting violations. */
  method CheckThresholds(metrics: Sample, thresholds: map<string, real>) returns (alerts: seq<Violation>)
    ensures alerts == Violations(metrics, thresholds)
  {
    alerts := [];
    for i := 0 to |metrics|
      invariant alerts == Violations(metrics[..i], thresholds)
    {
      assert metrics[..i + 1][..i] == metrics[..i];
      var (metric, value) := metrics[i];
      if metric in thresholds && NumberOf(value).Some? {
        var threshold := thresholds[metric];
        if NumberOf(value).value >= threshold {
          alerts := alerts + [Violation(metric, NumberOf(value).value, threshold)];
        }
      }
    }
    assert metrics[..|metrics|] == metrics;
  }

  /** The violations are exactly the qualifying entries of the sample, one each, in sample
      order: the i-th violation comes from the i-th qualifying position. */
  lemma {:induction false} ViolationsFollowSample(s: Sample, thresholds: map<string, real>)
    ensures var idx := Where(s, e => Qualifies(thresholds, e));
      && |Violations(s, thresholds)| == |idx|
      && forall j | 0 <= j < |idx| :: Violations(s, thresholds)[j] == ViolationOf(thresholds, s[idx[j]])
    decreases |s|
  {
    if s != [] {
      var init := s[..|s| - 1];
      ViolationsFollowSample(init, thresholds);
      assert forall i | 0 <= i < |init| :: init[i] == s[i];
    }
  }

  /** In a sample with unique keys every violating metric is reported exactly once. */
  lemma ViolationMetricsDistinct(s: Sample, thresholds: map<string, real>)
    requires UniqueKeys(s)
    ensures forall j, k | 0 <= j < k < |Violations(s, thresholds)| ::
      Violations(s, thresholds)[j].metric != Violations(s, thresholds)[k].metric
  {
    ViolationsFollowSample(s, thresholds);
  }

  /** Every qualifying entry, and nothing else, is reported. */
  lemma ViolationsExact(s: Sample, thresholds: map<string, real>)
    ensures forall i | 0 <= i < |s| && Qualifies(thresholds, s[i]) ::
      ViolationOf(thresholds, s[i]) in Violations(s, thresholds)
    ensures forall v | v in Violations(s, thresholds) ::
      exists i | 0 <= i < |s| :: Qualifies(thresholds, s[i]) && v == ViolationOf(thresholds, s[i])
  {
    ViolationsFollowSample(s, thresholds);
    var idx := Where(s, e => Qualifies(thresholds, e));
    var vs := Violations(s, thresholds);
    forall i | 0 <= i < |s| && Qualifies(thresholds, s[i]) ensures ViolationOf(thresholds, s[i]) in vs {
      var j :| 0 <= j < |idx| && idx[j] == i;
      assert vs[j] == ViolationOf(thresholds, s[i]);
    }
    forall v | v in vs
      ensures exists i | 0 <= i < |s| :: Qualifies(thresholds, s[i]) && v == ViolationOf(thresholds, s[i])
    {
      var j :| 0 <= j < |vs| && vs[j] == v;
      assert Qualifies(thresholds, s[idx[j]]);
    }
  }

  /** The comparison is `>=`: a value equal to its threshold is a violation, and values
      that are not int or float (the timestamp string, the network counters) never are. */
  lemma ThresholdBoundary(thresholds: map<string, real>, metric: string, value: Json)
    requires metric in thresholds
    ensures value == Num(thresholds[metric]) ==> Qualifies(thresholds, (metric, value))
    ensures (value.Str? || value.Obj? || value.Arr? || value.Null?) ==> !Qualifies(thresholds, (metric, value))
  {
  }
}
