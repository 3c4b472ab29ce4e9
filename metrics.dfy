/**
 * Metrics over a list of decisions (src/utils/metrics.py): count, mean, min,
 * max and sample standard deviation per field, and the per-mode counts. The
 * square root is a parameter `sqrt`.
 */
module Metrics {
  import opened Common
  import opened Models
  import opened Text

  /** Mean, minimum and maximum of one field. */
  datatype Summary = Summary(mean: real, min: real, max: real)

  /** A summary with the standard deviation, as reported for score and confidence. */
  datatype Spread = Spread(mean: real, min: real, max: real, std: real)

  datatype MetricsReport = MetricsReport(
    count: nat,
    score: Spread,
    confidence: Spread,
    battery: Summary,
    network: Summary,
    carbon: Summary,
    modeDistribution: map<string, nat>)

  /** `{"mean": sum(s) / len(s), "min": min(s), "max": max(s)}`. */
  function Summarize(s: seq<real>): (r: Summary)
    requires |s| > 0
    ensures r.min <= r.mean <= r.max
    ensures r.min in s && r.max in s
    ensures forall i :: 0 <= i < |s| ==> r.min <= s[i] <= r.max
  {
    MeanBetweenMinMax(s);
    Summary(Mean(s), SeqMin(s), SeqMax(s))
  }

  /** `sum((x - mean) ** 2 for x in values)`. */
  function SquaredDeviations(s: seq<real>, mean: real): (r: real)
    ensures r >= 0.0
    ensures (forall i :: 0 <= i < |s| ==> s[i] == mean) ==> r == 0.0
  {
    if s == [] then 0.0
    else
      var rest := SquaredDeviations(s[1..], mean);
      assert forall i :: 0 <= i < |s| - 1 ==> s[1..][i] == s[i + 1];
      var d := s[0] - mean;
      SquareNonNegative(d);
      d * d + rest
  }

  lemma SquareNonNegative(x: real)
    ensures x * x >= 0.0
  {
    if x < 0.0 {
      assert x * x == (-x) * (-x);
    }
  }

  /** The sample variance, with the `n - 1` denominator. */
  function SampleVariance(s: seq<real>): (r: real)
    requires |s| >= 2
    ensures r >= 0.0
  {
    SquaredDeviations(s, Mean(s)) / (|s| - 1) as real
  }

  /** `_calculate_std(values)`: 0 for fewer than two values, else the root of the sample variance. */
  function StdDev(s: seq<real>, sqrt: real -> real): (r: real)
    ensures |s| < 2 ==> r == 0.0
    ensures |s| >= 2 ==> r == sqrt(SampleVariance(s))
  {
    if |s| < 2 then 0.0 else sqrt(SampleVariance(s))
  }

  /** The mean of a list whose values are all `c` is `c`. */
  lemma MeanOfConstant(s: seq<real>, c: real)
    requires |s| > 0
    requires forall i :: 0 <= i < |s| ==> s[i] == c
    ensures Mean(s) == c
  {
    MeanBetween(s, c, c);
  }

  /** A list of equal values has variance 0, so its deviation is the root of 0. */
  lemma StdDevOfConstant(s: seq<real>, c: real, sqrt: real -> real)
    requires |s| >= 2
    requires forall i :: 0 <= i < |s| ==> s[i] == c
    ensures SampleVariance(s) == 0.0
    ensures StdDev(s, sqrt) == sqrt(0.0)
  {
    MeanOfConstant(s, c);
  }

  /** The modes occurring in a prefix grow by the mode of the next decision. */
  lemma ModeSetStep(ds: seq<Decision>, i: nat)
    requires i < |ds|
    ensures (set d | d in ds[..i + 1] :: d.recommendedMode.Value())
         == (set d | d in ds[..i] :: d.recommendedMode.Value()) + {ds[i].recommendedMode.Value()}
  {
    assert ds[..i + 1] == ds[..i] + [ds[i]];
  }

  /** Incrementing the entry of the next decision's mode keeps every count in step with the prefix. */
  lemma CountsStep(ds: seq<Decision>, i: nat, counts: map<string, nat>)
    requires i < |ds|
    requires forall m: ExecutionMode :: Get(counts, m.Value(), 0) == CountMode(ds[..i], m)
    ensures var mode := ds[i].recommendedMode.Value();
      forall m: ExecutionMode :: Get(counts[mode := Get(counts, mode, 0) + 1], m.Value(), 0) == CountMode(ds[..i + 1], m)
  {
    var mode := ds[i].recommendedMode.Value();
    assert ds[..i + 1] == ds[..i] + [ds[i]];
    forall m: ExecutionMode
      ensures Get(counts[mode := Get(counts, mode, 0) + 1], m.Value(), 0) == CountMode(ds[..i + 1], m)
    {
      CountModeAppend(ds[..i], ds[i], m);
      ModesEnumerated(m);
      ModesEnumerated(ds[i].recommendedMode);
    }
  }

  /** The counting loop of `calculate_metrics`: one key per mode that occurs, holding how often it occurs. */
  method ModeCounts(ds: seq<Decision>) returns (counts: map<string, nat>)
    ensures counts.Keys == set d | d in ds :: d.recommendedMode.Value()
    ensures forall m: ExecutionMode :: Get(counts, m.Value(), 0) == CountMode(ds, m)
  {
    counts := map[];
    var i := 0;
    while i < |ds|
      invariant 0 <= i <= |ds|
      invariant counts.Keys == set d | d in ds[..i] :: d.recommendedMode.Value()
      invariant forall m: ExecutionMode :: Get(counts, m.Value(), 0) == CountMode(ds[..i], m)
    {
      var mode := ds[i].recommendedMode.Value();
      ModeSetStep(ds, i);
      CountsStep(ds, i, counts);
      counts := counts[mode := Get(counts, mode, 0) + 1];
      i := i + 1;
    }
    assert ds[..i] == ds;
  }

  /** The per-mode counts add up to the number of decisions. */
  lemma ModeCountsTotal(ds: seq<Decision>, counts: map<string, nat>)
    requires forall m: ExecutionMode :: Get(counts, m.Value(), 0) == CountMode(ds, m)
    ensures Get(counts, "edge_only", 0) + Get(counts, "cloud_only", 0) + Get(counts, "hybrid", 0) + Get(counts, "deferred", 0) == |ds|
  {
    assert Get(counts, EdgeOnly.Value(), 0) == CountMode(ds, EdgeOnly);
    assert Get(counts, CloudOnly.Value(), 0) == CountMode(ds, CloudOnly);
    assert Get(counts, Hybrid.Value(), 0) == CountMode(ds, Hybrid);
    assert Get(counts, Deferred.Value(), 0) == CountMode(ds, Deferred);
    CountModesSum(ds);
  }

  /** `calculate_metrics(decisions)`: `None` stands for the empty dict returned for no decisions. */
  method CalculateMetrics(ds: seq<Decision>, sqrt: real -> real) returns (r: Option<MetricsReport>)
    ensures r.None? <==> ds == []
    ensures r.Some? ==> r.value.count == |ds|
    ensures r.Some? ==> var s := Column(ds, ScoreField);
              r.value.score == Spread(Mean(s), SeqMin(s), SeqMax(s), StdDev(s, sqrt))
    ensures r.Some? ==> var c := Column(ds, ConfidenceField);
              r.value.confidence == Spread(Mean(c), SeqMin(c), SeqMax(c), StdDev(c, sqrt))
    ensures r.Some? ==> r.value.battery == Summarize(Column(ds, BatteryField))
    ensures r.Some? ==> r.value.network == Summarize(Column(ds, NetworkField))
    ensures r.Some? ==> r.value.carbon == Summarize(Column(ds, CarbonField))
    ensures r.Some? ==> r.value.modeDistribution.Keys == set d | d in ds :: d.recommendedMode.Value()
    ensures r.Some? ==> forall m: ExecutionMode :: Get(r.value.modeDistribution, m.Value(), 0) == CountMode(ds, m)
  {
    if ds == [] {
      return None;
    }
    var counts := ModeCounts(ds);
    var s := Summarize(Column(ds, ScoreField));
    var c := Summarize(Column(ds, ConfidenceField));
    r := Some(MetricsReport(
      |ds|,
      Spread(s.mean, s.min, s.max, StdDev(Column(ds, ScoreField), sqrt)),
      Spread(c.mean, c.min, c.max, StdDev(Column(ds, ConfidenceField), sqrt)),
      Summarize(Column(ds, BatteryField)),
      Summarize(Column(ds, NetworkField)),
      Summarize(Column(ds, CarbonField)),
      counts));
  }

  // ---------------------------------------------------------------------
  // format_metrics
  // ---------------------------------------------------------------------

  const NoMetrics: string := "No metrics available"

  /**
   * The first line of `format_metrics(metrics)`: the whole text for empty
   * metrics, the "Total Decisions" line otherwise.
   */
  function FormatMetricsHead(metrics: Option<MetricsReport>): (r: string)
    ensures metrics.None? ==> r == NoMetrics
    ensures metrics.Some? ==> |r| > 17 && r[..17] == "Total Decisions: " && r[17..] == NatToString(metrics.value.count)
    ensures metrics.Some? ==> r != NoMetrics
  {
    match metrics
    case None => NoMetrics
    case Some(m) =>
      var r := "Total Decisions: " + NatToString(m.count);
      assert r[0] == 'T' && NoMetrics[0] == 'N';
      r
  }
}
