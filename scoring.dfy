/**
 * The scoring functions (src/orchestrator/scoring.py): the clamped weighted
 * sustainability score, the confidence value, and the four tradeoff blends.
 * The square root of `calculate_confidence` is a parameter `sqrt`; lemmas that
 * need its behaviour on [0, 1] ask for `SqrtOnUnit(sqrt)`.
 */
module Scoring {
  import opened Common
  import opened Models

  /** The reading used for a signal missing from the values dict. */
  const MissingReading: real := 0.5

  /** The three readings and weights after `dict.get` with the source's defaults. */
  function ReadingOf(values: map<string, real>, key: string): real
  {
    Get(values, key, MissingReading)
  }

  function WeightOf(weights: map<string, real>, key: string): (r: real)
    ensures key == "battery" && key !in weights ==> r == 0.4
    ensures key == "network" && key !in weights ==> r == 0.3
    ensures key == "carbon" && key !in weights ==> r == 0.3
    ensures key in weights ==> r == weights[key]
  {
    Get(weights, key, Get(DefaultWeights, key, 0.0))
  }

  /** The clamped weighted sum of the three readings, with carbon entering as `1 - carbon`. */
  function Score(battery: real, network: real, carbon: real, wb: real, wn: real, wc: real): (r: real)
    ensures 0.0 <= r <= 1.0
  {
    Clamp(0.0, 1.0, battery * wb + network * wn + (1.0 - carbon) * wc)
  }

  /** `calculate_sustainability_score(monitor_values, weights)`. */
  function SustainabilityScore(values: map<string, real>, weights: map<string, real>): (r: real)
    ensures 0.0 <= r <= 1.0
  {
    Score(ReadingOf(values, "battery"), ReadingOf(values, "network"), ReadingOf(values, "carbon"),
          WeightOf(weights, "battery"), WeightOf(weights, "network"), WeightOf(weights, "carbon"))
  }

  /** Missing readings count as 0.5 and missing weights as 0.4 / 0.3 / 0.3. */
  lemma ScoreDefaults(values: map<string, real>, weights: map<string, real>)
    requires "battery" !in values && "network" !in values && "carbon" !in values
    requires "battery" !in weights && "network" !in weights && "carbon" !in weights
    ensures SustainabilityScore(values, weights) == Score(0.5, 0.5, 0.5, 0.4, 0.3, 0.3)
    ensures SustainabilityScore(values, weights) == 0.5
  {
  }

  /** With weights summing to 1 and every reading 0.5, the score is exactly 0.5. */
  lemma NeutralScore(wb: real, wn: real, wc: real)
    requires wb + wn + wc == 1.0
    ensures Score(0.5, 0.5, 0.5, wb, wn, wc) == 0.5
  {
  }

  /** Multiplying by a non-negative weight keeps the order. */
  lemma ScaleMonotone(a: real, b: real, w: real)
    requires a <= b && w >= 0.0
    ensures a * w <= b * w
  {
    assert b * w - a * w == (b - a) * w;
  }

  lemma ClampMonotone(x: real, y: real)
    requires x <= y
    ensures Clamp(0.0, 1.0, x) <= Clamp(0.0, 1.0, y)
  {
  }

  /** With non-negative weights, more battery or network never lowers the score and more carbon never raises it. */
  lemma ScoreMonotone(b1: real, b2: real, n1: real, n2: real, c1: real, c2: real, wb: real, wn: real, wc: real)
    requires wb >= 0.0 && wn >= 0.0 && wc >= 0.0
    requires b1 <= b2 && n1 <= n2 && c2 <= c1
    ensures Score(b1, n1, c1, wb, wn, wc) <= Score(b2, n2, c2, wb, wn, wc)
  {
    WeightedSumMonotone(b1, b2, n1, n2, 1.0 - c1, 1.0 - c2, wb, wn, wc);
    ClampMonotone(b1 * wb + n1 * wn + (1.0 - c1) * wc, b2 * wb + n2 * wn + (1.0 - c2) * wc);
  }

  lemma WeightedSumMonotone(x1: real, x2: real, y1: real, y2: real, z1: real, z2: real, wx: real, wy: real, wz: real)
    requires wx >= 0.0 && wy >= 0.0 && wz >= 0.0
    requires x1 <= x2 && y1 <= y2 && z1 <= z2
    ensures x1 * wx + y1 * wy + z1 * wz <= x2 * wx + y2 * wy + z2 * wz
  {
    ScaleMonotone(x1, x2, wx);
    ScaleMonotone(y1, y2, wy);
    ScaleMonotone(z1, z2, wz);
  }

  // ---------------------------------------------------------------------
  // calculate_confidence
  // ---------------------------------------------------------------------

  /** `1 - |x - 0.5| * 2`: 1 at the middle, 0 at both ends of [0, 1]. */
  function SubConfidence(x: real): (r: real)
    ensures r <= 1.0
    ensures r == 1.0 <==> x == 0.5
    ensures 0.0 <= x <= 1.0 ==> 0.0 <= r
    ensures x == 0.0 || x == 1.0 ==> r == 0.0
  {
    1.0 - Abs(x - 0.5) * 2.0
  }

  /** Sub-confidence is symmetric about 0.5 and shrinks towards the extremes. */
  lemma SubConfidenceShape(x: real, y: real)
    ensures SubConfidence(x) == SubConfidence(1.0 - x)
    ensures 0.5 <= x <= y ==> SubConfidence(y) <= SubConfidence(x)
    ensures y <= x <= 0.5 ==> SubConfidence(y) <= SubConfidence(x)
  {
  }

  /** The mean of the four sub-confidences, before the square root. */
  function ConfidenceMean(score: real, context: SystemContext): (r: real)
    ensures r <= (3.0 + context.network) / 4.0
    ensures score == 0.5 && context.battery == 0.5 && context.carbon == 0.5 ==> r == (3.0 + context.network) / 4.0
  {
    (SubConfidence(score) + SubConfidence(context.battery) + context.network + SubConfidence(context.carbon)) / 4.0
  }

  /** For readings in [0, 1] the pre-root mean lies in [0, 1]. */
  lemma ConfidenceMeanInUnit(score: real, context: SystemContext)
    requires 0.0 <= score <= 1.0 && 0.0 <= context.battery <= 1.0
    requires 0.0 <= context.network <= 1.0 && 0.0 <= context.carbon <= 1.0
    ensures 0.0 <= ConfidenceMean(score, context) <= 1.0
  {
  }

  /** `x ** 0.5` of a negative float is a complex number, on which `min` raises `TypeError`. */
  datatype ScoringError = ComplexConfidence(mean: real)

  ghost predicate SqrtOnUnit(sqrt: real -> real)
  {
    && (forall x :: 0.0 <= x <= 1.0 ==> 0.0 <= sqrt(x) <= 1.0)
    && (forall x, y :: 0.0 <= x <= y ==> sqrt(x) <= sqrt(y))
  }

  /** `calculate_confidence(score, context)`. */
  function Confidence(score: real, context: SystemContext, sqrt: real -> real): (r: Result<real, ScoringError>)
    ensures r.Err? <==> ConfidenceMean(score, context) < 0.0
    ensures r.Err? ==> r.error == ComplexConfidence(ConfidenceMean(score, context))
    ensures r.Ok? ==> 0.0 <= r.value <= 1.0
  {
    var mean := ConfidenceMean(score, context);
    if mean < 0.0 then Err(ComplexConfidence(mean))
    else Ok(Clamp(0.0, 1.0, sqrt(mean)))
  }

  /** For readings in [0, 1] confidence never fails and is the square root of the mean, unclamped. */
  lemma ConfidenceIsRoot(score: real, context: SystemContext, sqrt: real -> real)
    requires SqrtOnUnit(sqrt)
    requires 0.0 <= score <= 1.0 && 0.0 <= context.battery <= 1.0
    requires 0.0 <= context.network <= 1.0 && 0.0 <= context.carbon <= 1.0
    ensures Confidence(score, context, sqrt) == Ok(sqrt(ConfidenceMean(score, context)))
  {
    ConfidenceMeanInUnit(score, context);
  }

  /** Better network quality never lowers confidence. */
  lemma ConfidenceMonotone(score: real, c1: SystemContext, c2: SystemContext, sqrt: real -> real)
    requires SqrtOnUnit(sqrt)
    requires 0.0 <= c1.network <= c2.network
    requires c1.carbon == c2.carbon && c1.battery == c2.battery
    requires ConfidenceMean(score, c1) >= 0.0
    ensures Confidence(score, c1, sqrt).Ok? && Confidence(score, c2, sqrt).Ok?
    ensures Confidence(score, c1, sqrt).value <= Confidence(score, c2, sqrt).value
  {
    assert ConfidenceMean(score, c1) <= ConfidenceMean(score, c2);
    ClampMonotone(sqrt(ConfidenceMean(score, c1)), sqrt(ConfidenceMean(score, c2)));
  }

  // ---------------------------------------------------------------------
  // analyze_tradeoffs
  // ---------------------------------------------------------------------

  /** `analyze_tradeoffs(battery, network, carbon)`. */
  function AnalyzeTradeoffs(battery: real, network: real, carbon: real): (r: map<string, real>)
    ensures r.Keys == {"battery_vs_performance", "network_vs_latency", "carbon_vs_speed", "overall_tradeoff"}
    ensures r["battery_vs_performance"] == 0.3 + 0.4 * battery
    ensures r["network_vs_latency"] == 0.4 + 0.2 * network
    ensures r["carbon_vs_speed"] == 0.8 - 0.6 * carbon
    ensures r["overall_tradeoff"] == Mean([battery, network, 1.0 - carbon])
  {
    var overall := (battery + network + (1.0 - carbon)) / 3.0;
    SumOfThree(battery, network, 1.0 - carbon);
    map[
      "battery_vs_performance" := battery * 0.7 + (1.0 - battery) * 0.3,
      "network_vs_latency" := network * 0.6 + (1.0 - network) * 0.4,
      "carbon_vs_speed" := (1.0 - carbon) * 0.8 + carbon * 0.2,
      "overall_tradeoff" := overall
    ]
  }

  /** For readings in [0, 1] every tradeoff lies in [0, 1]. */
  lemma TradeoffsInUnit(battery: real, network: real, carbon: real)
    requires 0.0 <= battery <= 1.0 && 0.0 <= network <= 1.0 && 0.0 <= carbon <= 1.0
    ensures forall k :: k in AnalyzeTradeoffs(battery, network, carbon) ==> 0.0 <= AnalyzeTradeoffs(battery, network, carbon)[k] <= 1.0
  {
    var r := AnalyzeTradeoffs(battery, network, carbon);
    var s := [battery, network, 1.0 - carbon];
    MeanBetween(s, 0.0, 1.0);
  }
}
