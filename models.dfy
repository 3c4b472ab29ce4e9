/**
 * The orchestrator's data model: execution modes, the system context and
 * decision records, and the configuration object with its validation and its
 * in-place weight update (src/orchestrator/models.py).
 */
module Models {
  import opened Common

  datatype ExecutionMode = EdgeOnly | CloudOnly | Hybrid | Deferred
  {
    /** The enum member's string value. */
    function Value(): string
    {
      match this
      case EdgeOnly => "edge_only"
      case CloudOnly => "cloud_only"
      case Hybrid => "hybrid"
      case Deferred => "deferred"
    }
  }

  /** The members of the enum in declaration order, as `for mode in ExecutionMode` visits them. */
  const AllModes: seq<ExecutionMode> := [EdgeOnly, CloudOnly, Hybrid, Deferred]

  /** `ExecutionMode(value)`: the member with that value, if any. */
  function ModeOfValue(s: string): (r: Option<ExecutionMode>)
    ensures r.Some? ==> r.value.Value() == s
    ensures (exists m: ExecutionMode :: m.Value() == s) ==> r.Some?
  {
    if s == "edge_only" then Some(EdgeOnly)
    else if s == "cloud_only" then Some(CloudOnly)
    else if s == "hybrid" then Some(Hybrid)
    else if s == "deferred" then Some(Deferred)
    else None
  }

  /** Every mode is listed once in AllModes, and values tell modes apart. */
  lemma ModesEnumerated(m: ExecutionMode)
    ensures m in AllModes
    ensures ModeOfValue(m.Value()) == Some(m)
  {
  }

  datatype SystemContext = SystemContext(
    battery: real,
    network: real,
    carbon: real,
    platform: string,
    timestamp: real,
    additionalData: map<string, string>)

  datatype Decision = Decision(
    score: real,
    confidence: real,
    battery: real,
    network: real,
    carbon: real,
    timestamp: real,
    recommendedMode: ExecutionMode,
    explanation: string,
    tradeoffs: map<string, real>)

  /** The numeric fields of a decision, for the per-field lists `[d.score for d in decisions]` and the like. */
  datatype DecisionField = ScoreField | ConfidenceField | BatteryField | NetworkField | CarbonField

  function FieldValue(d: Decision, field: DecisionField): real
  {
    match field
    case ScoreField => d.score
    case ConfidenceField => d.confidence
    case BatteryField => d.battery
    case NetworkField => d.network
    case CarbonField => d.carbon
  }

  /** `[d.<field> for d in decisions]`. */
  function Column(ds: seq<Decision>, field: DecisionField): (r: seq<real>)
    ensures |r| == |ds|
    ensures forall i :: 0 <= i < |ds| ==> r[i] == FieldValue(ds[i], field)
  {
    seq(|ds|, i requires 0 <= i < |ds| => FieldValue(ds[i], field))
  }

  /** `len([d for d in decisions if d.recommended_mode == mode])`. */
  function CountMode(ds: seq<Decision>, mode: ExecutionMode): (r: nat)
    ensures r <= |ds|
  {
    if ds == [] then 0
    else (if ds[0].recommendedMode == mode then 1 else 0) + CountMode(ds[1..], mode)
  }

  /** Counting over a list extended at the end. */
  lemma {:induction false} CountModeAppend(ds: seq<Decision>, d: Decision, mode: ExecutionMode)
    ensures CountMode(ds + [d], mode) == CountMode(ds, mode) + if d.recommendedMode == mode then 1 else 0
  {
    if ds != [] {
      assert (ds + [d])[1..] == ds[1..] + [d];
      CountModeAppend(ds[1..], d, mode);
    }
  }

  /** Every decision has exactly one mode, so the four counts add up to the length. */
  lemma {:induction false} CountModesSum(ds: seq<Decision>)
    ensures CountMode(ds, EdgeOnly) + CountMode(ds, CloudOnly) + CountMode(ds, Hybrid) + CountMode(ds, Deferred) == |ds|
  {
    if ds != [] {
      CountModesSum(ds[1..]);
    }
  }

  /** A mode that no decision has is counted 0 times, and one that occurs at least once. */
  lemma {:induction false} CountModePositive(ds: seq<Decision>, mode: ExecutionMode)
    ensures CountMode(ds, mode) > 0 <==> exists d :: d in ds && d.recommendedMode == mode
  {
    if ds != [] {
      CountModePositive(ds[1..], mode);
      assert forall d :: d in ds <==> d == ds[0] || d in ds[1..];
    }
  }

  /** The `ValueError`s raised by `validate` and `update_weights`. */
  datatype ConfigError =
    | ThresholdOutOfRange(threshold: real)
    | WeightSumNotOne(total: real)

  const DefaultWeights: map<string, real> := map["battery" := 0.4, "network" := 0.3, "carbon" := 0.3]
  const DefaultThreshold: real := 0.5
  const DefaultHardEdgeBattery: real := 0.2
  const DefaultHardCloudBattery: real := 0.8
  const DefaultCarbonZone: string := "IN"
  const DefaultLogLevel: string := "INFO"
  const DefaultVersion: string := "1.0.0"
  const DefaultHistorySize: int := 1000

  /** Tolerance of the weight-sum check. */
  const WeightTolerance: real := 0.001

  /** `abs(sum(weights.values()) - 1.0) <= 0.001`. */
  ghost predicate WeightsSumToOne(weights: map<string, real>)
  {
    Abs(SumValues(weights) - 1.0) <= WeightTolerance
  }

  /**
   * What `validate` decides: the threshold check first, then the weight sum.
   * Only `threshold` and `weights` take part; the battery bounds and the history
   * size are never checked.
   */
  ghost function ValidateSpec(threshold: real, weights: map<string, real>): (r: Outcome<ConfigError>)
    ensures r == Pass <==> 0.0 <= threshold <= 1.0 && WeightsSumToOne(weights)
    ensures !(0.0 <= threshold <= 1.0) ==> r == Fail(ThresholdOutOfRange(threshold))
    ensures 0.0 <= threshold <= 1.0 && !WeightsSumToOne(weights) ==> r == Fail(WeightSumNotOne(SumValues(weights)))
  {
    if !(0.0 <= threshold <= 1.0) then Fail(ThresholdOutOfRange(threshold))
    else if !WeightsSumToOne(weights) then Fail(WeightSumNotOne(SumValues(weights)))
    else Pass
  }

  /** `weights.update(new)`: keys of `incoming` take its values, every other key keeps its own. */
  function UpdatedWeights(current: map<string, real>, incoming: map<string, real>): (r: map<string, real>)
    ensures r.Keys == current.Keys + incoming.Keys
    ensures forall k :: k in incoming ==> r[k] == incoming[k]
    ensures forall k :: k in current && k !in incoming ==> r[k] == current[k]
  {
    current + incoming
  }

  /** The defaults pass validation. */
  lemma DefaultsValid()
    ensures ValidateSpec(DefaultThreshold, DefaultWeights) == Pass
  {
    SumValuesOfThree("battery", 0.4, "network", 0.3, "carbon", 0.3);
  }

  /** An empty weights dict fails on its sum of 0, before any emptiness test is reached. */
  lemma EmptyWeightsRejected(threshold: real)
    requires 0.0 <= threshold <= 1.0
    ensures ValidateSpec(threshold, map[]) == Fail(WeightSumNotOne(0.0))
  {
    SumValuesOfNone();
  }

  /** A partial update whose own values sum to 1 is accepted although the merged weights do not sum to 1. */
  lemma PartialUpdateDrifts()
    ensures WeightsSumToOne(map["battery" := 1.0])
    ensures UpdatedWeights(DefaultWeights, map["battery" := 1.0]) == map["battery" := 1.0, "network" := 0.3, "carbon" := 0.3]
    ensures !WeightsSumToOne(UpdatedWeights(DefaultWeights, map["battery" := 1.0]))
  {
    var single := map["battery" := 1.0];
    SumValuesRemove(single, "battery");
    assert single - {"battery"} == map[];
    var merged := UpdatedWeights(DefaultWeights, single);
    assert merged == map["battery" := 1.0, "network" := 0.3, "carbon" := 0.3];
    SumValuesOfThree("battery", 1.0, "network", 0.3, "carbon", 0.3);
  }

  /** The configuration object; `update_weights` changes its weights dict in place. */
  class OrchestratorConfig {
    var weights: map<string, real>
    var threshold: real
    var hardEdgeBattery: real
    var hardCloudBattery: real
    var useRealBattery: bool
    var useRealNetwork: bool
    var useRealCarbon: bool
    var carbonZone: string
    var logLevel: string
    var logFile: Option<string>
    var version: string
    var decisionHistorySize: int

    /** The dataclass defaults. */
    constructor ()
      ensures weights == DefaultWeights && threshold == DefaultThreshold
      ensures hardEdgeBattery == DefaultHardEdgeBattery && hardCloudBattery == DefaultHardCloudBattery
      ensures useRealBattery && useRealNetwork && useRealCarbon
      ensures carbonZone == DefaultCarbonZone && logLevel == DefaultLogLevel && logFile == None
      ensures version == DefaultVersion && decisionHistorySize == DefaultHistorySize
    {
      weights := DefaultWeights;
      threshold := DefaultThreshold;
      hardEdgeBattery := DefaultHardEdgeBattery;
      hardCloudBattery := DefaultHardCloudBattery;
      useRealBattery, useRealNetwork, useRealCarbon := true, true, true;
      carbonZone := DefaultCarbonZone;
      logLevel := DefaultLogLevel;
      logFile := None;
      version := DefaultVersion;
      decisionHistorySize := DefaultHistorySize;
    }

    /** `validate()`: `Fail` stands for the raised `ValueError`. */
    method Validate() returns (r: Outcome<ConfigError>)
      ensures r == ValidateSpec(threshold, weights)
    {
      if !(0.0 <= threshold <= 1.0) {
        return Fail(ThresholdOutOfRange(threshold));
      }
      var total := SumOfValues(weights);
      if Abs(total - 1.0) > WeightTolerance {
        return Fail(WeightSumNotOne(total));
      }
      return Pass;
    }

    /** `update_weights(new)`: rejects a new dict whose own sum is off, otherwise merges it in. */
    method UpdateWeights(incoming: map<string, real>) returns (r: Outcome<ConfigError>)
      modifies this`weights
      ensures r.Pass? <==> WeightsSumToOne(incoming)
      ensures r.Fail? ==> r == Fail(WeightSumNotOne(SumValues(incoming))) && weights == old(weights)
      ensures r.Pass? ==> weights == UpdatedWeights(old(weights), incoming)
    {
      var total := SumOfValues(incoming);
      if Abs(total - 1.0) > WeightTolerance {
        return Fail(WeightSumNotOne(total));
      }
      weights := weights + incoming;
      return Pass;
    }
  }
}
