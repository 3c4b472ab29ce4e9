/**
 * The decision engine (src/orchestrator/decision_engine.py): building the
 * configuration from the loaded dictionary, probing the monitors, the
 * four-way execution-mode rule, the size-bounded decision history, and the
 * history queries. The clock reading and the square root are parameters.
 */
module DecisionEngine {
  import opened Common
  import opened Models
  import opened Scoring
  import opened ConfigData

  // ---------------------------------------------------------------------
  // The execution-mode rule
  // ---------------------------------------------------------------------

  /** The network quality above which a full battery may run on the edge; a literal, not a setting. */
  const EdgeNetworkBound: real := 0.7

  /** The fixed explanation attached to each mode. */
  function Explanation(mode: ExecutionMode): (r: string)
    ensures r == "Battery too low for edge processing" <==> mode == CloudOnly
    ensures r == "High battery and good network for edge processing" <==> mode == EdgeOnly
    ensures r == "Good conditions for hybrid processing" <==> mode == Hybrid
    ensures r == "Poor conditions, defer processing" <==> mode == Deferred
  {
    match mode
    case CloudOnly => "Battery too low for edge processing"
    case EdgeOnly => "High battery and good network for edge processing"
    case Hybrid => "Good conditions for hybrid processing"
    case Deferred => "Poor conditions, defer processing"
  }

  /** Different modes carry different explanations, so the explanation names the mode. */
  lemma ExplanationsDistinct(m1: ExecutionMode, m2: ExecutionMode)
    requires m1 != m2
    ensures Explanation(m1) != Explanation(m2)
  {
  }

  /** The first-match rule: low battery, then full battery with good network, then score above threshold. */
  function ChooseMode(battery: real, network: real, score: real, hardEdge: real, hardCloud: real, threshold: real): (r: ExecutionMode)
    ensures r == CloudOnly <==> battery < hardEdge
    ensures r == EdgeOnly <==> battery >= hardEdge && battery > hardCloud && network > EdgeNetworkBound
    ensures r == Hybrid <==> battery >= hardEdge && !(battery > hardCloud && network > EdgeNetworkBound) && score > threshold
    ensures r == Deferred <==> battery >= hardEdge && !(battery > hardCloud && network > EdgeNetworkBound) && score <= threshold
  {
    if battery < hardEdge then CloudOnly
    else if battery > hardCloud && network > EdgeNetworkBound then EdgeOnly
    else if score > threshold then Hybrid
    else Deferred
  }

  /** The comparisons are strict: a battery at the edge bound, or a score equal to the threshold, does not trigger its mode. */
  lemma ModeBoundariesStrict(network: real, score: real, hardEdge: real, hardCloud: real, threshold: real)
    requires hardEdge <= hardCloud
    ensures ChooseMode(hardEdge, network, score, hardEdge, hardCloud, threshold) != CloudOnly
    ensures ChooseMode(hardCloud, network, score, hardEdge, hardCloud, threshold) != EdgeOnly
    ensures ChooseMode(hardCloud, network, threshold, hardEdge, hardCloud, threshold) == Deferred
    ensures ChooseMode(1.0, EdgeNetworkBound, 1.0, 0.2, 0.8, 0.5) == Hybrid
  {
  }

  /** Raising the score can only turn DEFERRED into HYBRID; it never changes any other mode. */
  lemma ModeMonotoneInScore(battery: real, network: real, s1: real, s2: real, hardEdge: real, hardCloud: real, threshold: real)
    requires s1 <= s2
    ensures var m1 := ChooseMode(battery, network, s1, hardEdge, hardCloud, threshold);
            var m2 := ChooseMode(battery, network, s2, hardEdge, hardCloud, threshold);
            m1 == m2 || (m1 == Deferred && m2 == Hybrid)
  {
  }

  // ---------------------------------------------------------------------
  // Probing the monitors
  // ---------------------------------------------------------------------

  /**
   * What `hasattr` finds on a monitor object: the values of the three readers
   * the engine probes for one signal, in probing order (`get_level`, `read`,
   * `battery_level` for the battery; `get_speed`, `read`, `network_quality`;
   * `get_carbon_intensity`, `read`, `carbon_intensity`). `None` is an absent attribute.
   */
  datatype ProbeSurface = ProbeSurface(first: Option<real>, second: Option<real>, third: Option<real>)

  /** A monitor object that has none of the probed attributes. */
  const Opaque: ProbeSurface := ProbeSurface(None, None, None)

  /** The reading taken for one signal: the first attribute found, 0.5 when none is or the monitor is missing. */
  function ProbeSignal(monitor: Option<ProbeSurface>): (r: real)
    ensures monitor.None? ==> r == MissingReading
    ensures monitor == Some(Opaque) ==> r == MissingReading
    ensures monitor.Some? && monitor.value.first.Some? ==> r == monitor.value.first.value
    ensures monitor.Some? && monitor.value.first.None? && monitor.value.second.Some? ==> r == monitor.value.second.value
    ensures monitor.Some? && monitor.value.first.None? && monitor.value.second.None? && monitor.value.third.Some? ==> r == monitor.value.third.value
    ensures monitor.Some? && monitor.value.first.None? && monitor.value.second.None? && monitor.value.third.None? ==> r == MissingReading
  {
    match monitor
    case None => MissingReading
    case Some(m) =>
      if m.first.Some? then m.first.value
      else if m.second.Some? then m.second.value
      else if m.third.Some? then m.third.value
      else MissingReading
  }

  // ---------------------------------------------------------------------
  // One decision
  // ---------------------------------------------------------------------

  /** The decision `make_decision` builds from the three readings, or the error that confidence raises. */
  function BuildDecision(battery: real, network: real, carbon: real, weights: map<string, real>,
                         hardEdge: real, hardCloud: real, threshold: real, platform: string,
                         now: real, sqrt: real -> real): (r: Result<Decision, ScoringError>)
    ensures var values := map["battery" := battery, "network" := network, "carbon" := carbon];
            var score := SustainabilityScore(values, weights);
            var context := SystemContext(battery, network, carbon, platform, now, map[]);
            && (r.Err? <==> Confidence(score, context, sqrt).Err?)
            && (r.Ok? ==>
                  && r.value.score == score
                  && r.value.confidence == Confidence(score, context, sqrt).value
                  && r.value.battery == battery && r.value.network == network && r.value.carbon == carbon
                  && r.value.timestamp == now
                  && r.value.recommendedMode == ChooseMode(battery, network, score, hardEdge, hardCloud, threshold)
                  && r.value.explanation == Explanation(r.value.recommendedMode)
                  && r.value.tradeoffs == AnalyzeTradeoffs(battery, network, carbon))
  {
    var values := map["battery" := battery, "network" := network, "carbon" := carbon];
    var score := SustainabilityScore(values, weights);
    var context := SystemContext(battery, network, carbon, platform, now, map[]);
    match Confidence(score, context, sqrt)
    case Err(e) => Err(e)
    case Ok(confidence) =>
      var mode := ChooseMode(battery, network, score, hardEdge, hardCloud, threshold);
      Ok(Decision(score, confidence, battery, network, carbon, now, mode, Explanation(mode),
                  AnalyzeTradeoffs(battery, network, carbon)))
  }

  /** With readings in [0, 1] no decision fails, and score and confidence both lie in [0, 1]. */
  lemma DecisionInRange(battery: real, network: real, carbon: real, weights: map<string, real>,
                        hardEdge: real, hardCloud: real, threshold: real, platform: string,
                        now: real, sqrt: real -> real)
    requires SqrtOnUnit(sqrt)
    requires 0.0 <= battery <= 1.0 && 0.0 <= network <= 1.0 && 0.0 <= carbon <= 1.0
    ensures var r := BuildDecision(battery, network, carbon, weights, hardEdge, hardCloud, threshold, platform, now, sqrt);
            r.Ok? && 0.0 <= r.value.score <= 1.0 && 0.0 <= r.value.confidence <= 1.0
  {
    var values := map["battery" := battery, "network" := network, "carbon" := carbon];
    var score := SustainabilityScore(values, weights);
    ConfidenceIsRoot(score, SystemContext(battery, network, carbon, platform, now, map[]), sqrt);
  }

  /**
   * No monitor class has an attribute the engine probes, so each reading is
   * 0.5. Under the default weights, bounds and threshold the score is then
   * exactly the threshold, and every decision is DEFERRED with confidence
   * sqrt((1 + 1 + 0.5 + 1) / 4) = sqrt(0.875).
   */
  lemma OpaqueMonitorsAlwaysDefer(battery: Option<ProbeSurface>, network: Option<ProbeSurface>, carbon: Option<ProbeSurface>,
                                  platform: string, now: real, sqrt: real -> real)
    requires battery == None || battery == Some(Opaque)
    requires network == None || network == Some(Opaque)
    requires carbon == None || carbon == Some(Opaque)
    requires SqrtOnUnit(sqrt)
    ensures var r := BuildDecision(ProbeSignal(battery), ProbeSignal(network), ProbeSignal(carbon), DefaultWeights,
                                   DefaultHardEdgeBattery, DefaultHardCloudBattery, DefaultThreshold, platform, now, sqrt);
            r.Ok? && r.value.score == 0.5 && r.value.recommendedMode == Deferred && r.value.confidence == sqrt(0.875)
  {
    assert ProbeSignal(battery) == 0.5 && ProbeSignal(network) == 0.5 && ProbeSignal(carbon) == 0.5;
    NeutralDecision(platform, now, sqrt);
  }

  /** All readings 0.5 under the defaults: score 0.5, DEFERRED, confidence the root of 0.875. */
  lemma NeutralDecision(platform: string, now: real, sqrt: real -> real)
    requires SqrtOnUnit(sqrt)
    ensures var r := BuildDecision(0.5, 0.5, 0.5, DefaultWeights,
                                   DefaultHardEdgeBattery, DefaultHardCloudBattery, DefaultThreshold, platform, now, sqrt);
            r.Ok? && r.value.score == 0.5 && r.value.recommendedMode == Deferred && r.value.confidence == sqrt(0.875)
  {
    NeutralDefaultScore();
    NeutralConfidence(platform, now, sqrt);
    assert ChooseMode(0.5, 0.5, 0.5, DefaultHardEdgeBattery, DefaultHardCloudBattery, DefaultThreshold) == Deferred;
  }

  lemma NeutralDefaultScore()
    ensures SustainabilityScore(map["battery" := 0.5, "network" := 0.5, "carbon" := 0.5], DefaultWeights) == 0.5
  {
    var values := map["battery" := 0.5, "network" := 0.5, "carbon" := 0.5];
    assert ReadingOf(values, "battery") == 0.5 && ReadingOf(values, "network") == 0.5 && ReadingOf(values, "carbon") == 0.5;
    assert WeightOf(DefaultWeights, "battery") == 0.4;
    assert WeightOf(DefaultWeights, "network") == 0.3 && WeightOf(DefaultWeights, "carbon") == 0.3;
    NeutralScore(0.4, 0.3, 0.3);
  }

  lemma NeutralConfidence(platform: string, now: real, sqrt: real -> real)
    requires SqrtOnUnit(sqrt)
    ensures Confidence(0.5, SystemContext(0.5, 0.5, 0.5, platform, now, map[]), sqrt) == Ok(sqrt(0.875))
  {
    assert SubConfidence(0.5) == 1.0;
    assert 0.0 <= sqrt(0.875) <= 1.0;
  }

  // ---------------------------------------------------------------------
  // The bounded history
  // ---------------------------------------------------------------------

  /** `h[-size:] if len(h) > size else h`: the trimming step after an append. */
  function Retain<T>(h: seq<T>, size: int): (r: seq<T>)
    ensures |r| <= |h| && r == h[|h| - |r|..]
    ensures |h| <= size ==> r == h
  {
    if |h| > size then PyTail(h, size) else h
  }

  /** For a positive size the retained history is at most `size` long and is the newest part of `h`, in order. */
  lemma RetainBounded<T>(h: seq<T>, size: int)
    requires size >= 1
    ensures |Retain(h, size)| <= size
    ensures |Retain(h, size)| == if |h| <= size then |h| else size
    ensures Retain(h, size) == h[|h| - |Retain(h, size)|..]
  {
    if |h| > size {
      PyTailPositive(h, size);
    }
  }

  /** A size of 0 keeps everything: `h[-0:]` is the whole list. */
  lemma RetainZeroKeepsAll<T>(h: seq<T>)
    ensures Retain(h, 0) == h
  {
    PyTailZero(h);
  }

  /** The newest `n` entries (all of them when fewer): what trimming to `n` evidently intends. */
  function Newest<T>(h: seq<T>, n: nat): (r: seq<T>)
    ensures |r| == Min(n as real, |h| as real) as int
    ensures |r| <= n
    ensures r == h[|h| - |r|..]
  {
    if n <= |h| then h[|h| - n..] else h
  }

  /** `Newest` agrees with `Retain` for every positive size, and keeps nothing for size 0. */
  lemma NewestMatchesRetain<T>(h: seq<T>, n: nat)
    ensures n >= 1 ==> Newest(h, n) == Retain(h, n)
    ensures Newest(h, 0) == []
  {
    if n >= 1 {
      RetainBounded(h, n);
    }
  }

  /** A decision appended and trimmed to a positive size is the newest entry. */
  lemma AppendedIsLast<T>(h: seq<T>, d: T, size: int)
    requires size >= 1
    ensures var kept := Retain(h + [d], size);
            |kept| >= 1 && kept[|kept| - 1] == d
  {
    RetainBounded(h + [d], size);
  }

  /** `get_recent_decisions(count)`. */
  function RecentDecisions<T>(h: seq<T>, count: int := 10): (r: seq<T>)
    ensures |r| <= |h|
    ensures r == h[|h| - |r|..]
    ensures count >= 1 ==> |r| == if count <= |h| then count else |h|
  {
    if |h| == 0 then [] else
      if count >= 1 then PyTailPositive(h, count); PyTail(h, count)
      else PyTail(h, count)
  }

  /** `get_recent_decisions(0)` returns the whole history rather than nothing. */
  lemma RecentZeroReturnsAll<T>(h: seq<T>)
    ensures RecentDecisions(h, 0) == h
    ensures |h| > 0 ==> RecentDecisions(h, 0) != Newest(h, 0)
  {
    PyTailZero(h);
  }

  // ---------------------------------------------------------------------
  // get_statistics
  // ---------------------------------------------------------------------

  datatype EngineStatistics = EngineStatistics(
    totalDecisions: nat,
    averageScore: real,
    averageConfidence: real,
    minScore: real,
    maxScore: real,
    modeDistribution: map<string, nat>)

  /** The `mode_distribution` dict: one count per mode value. */
  function ModeDistribution(h: seq<Decision>): (r: map<string, nat>)
    ensures r.Keys == {"edge_only", "cloud_only", "hybrid", "deferred"}
    ensures forall m: ExecutionMode :: r[m.Value()] == CountMode(h, m)
    ensures r["edge_only"] + r["cloud_only"] + r["hybrid"] + r["deferred"] == |h|
  {
    CountModesSum(h);
    map[
      EdgeOnly.Value() := CountMode(h, EdgeOnly),
      CloudOnly.Value() := CountMode(h, CloudOnly),
      Hybrid.Value() := CountMode(h, Hybrid),
      Deferred.Value() := CountMode(h, Deferred)
    ]
  }

  /** Every decision's score lies between the minimum and the maximum of the score column. */
  lemma ScoresWithinExtremes(h: seq<Decision>)
    requires h != []
    ensures forall d :: d in h ==> SeqMin(Column(h, ScoreField)) <= d.score <= SeqMax(Column(h, ScoreField))
  {
    var scores := Column(h, ScoreField);
    forall d | d in h ensures SeqMin(scores) <= d.score <= SeqMax(scores) {
      var i :| 0 <= i < |h| && h[i] == d;
      assert scores[i] == d.score;
    }
  }

  /** `get_statistics()`: `None` stands for the empty dict returned on an empty history. */
  function Statistics(h: seq<Decision>): (r: Option<EngineStatistics>)
    ensures r.None? <==> h == []
    ensures r.Some? ==> r.value.totalDecisions == |h|
    ensures r.Some? ==> r.value.averageScore == Mean(Column(h, ScoreField))
    ensures r.Some? ==> r.value.averageConfidence == Mean(Column(h, ConfidenceField))
    ensures r.Some? ==> r.value.minScore == SeqMin(Column(h, ScoreField)) && r.value.maxScore == SeqMax(Column(h, ScoreField))
    ensures r.Some? ==> r.value.minScore <= r.value.averageScore <= r.value.maxScore
    ensures r.Some? ==> forall d :: d in h ==> r.value.minScore <= d.score <= r.value.maxScore
    ensures r.Some? ==> r.value.modeDistribution == ModeDistribution(h)
  {
    if h == [] then None
    else
      var scores := Column(h, ScoreField);
      MeanBetweenMinMax(scores);
      ScoresWithinExtremes(h);
      Some(EngineStatistics(|h|, Mean(scores), Mean(Column(h, ConfidenceField)), SeqMin(scores), SeqMax(scores), ModeDistribution(h)))
  }

  // ---------------------------------------------------------------------
  // Building the configuration from the loaded dictionary
  // ---------------------------------------------------------------------

  /** The loop over `orchestrator.weights`: only keys the defaults already have are overwritten. */
  function MergeKnownWeights(base: map<string, real>, incoming: map<string, real>): (r: map<string, real>)
    ensures r.Keys == base.Keys
    ensures forall k :: k in base && k in incoming ==> r[k] == incoming[k]
    ensures forall k :: k in base && k !in incoming ==> r[k] == base[k]
  {
    map k | k in base :: if k in incoming then incoming[k] else base[k]
  }

  lemma MergeNothing(base: map<string, real>)
    ensures MergeKnownWeights(base, map[]) == base
  {
  }

  /** Merging known keys is the dict update restricted to keys already present. */
  lemma MergeKnownIsUpdate(base: map<string, real>, incoming: map<string, real>)
    requires incoming.Keys <= base.Keys
    ensures MergeKnownWeights(base, incoming) == UpdatedWeights(base, incoming)
  {
  }

  /** Unknown keys in the loaded weights are dropped, so the merged weights may fail validation. */
  lemma UnknownWeightIgnored()
    ensures MergeKnownWeights(DefaultWeights, map["gpu" := 1.0]) == DefaultWeights
    ensures MergeKnownWeights(DefaultWeights, map["battery" := 0.1]) == map["battery" := 0.1, "network" := 0.3, "carbon" := 0.3]
  {
    var a := MergeKnownWeights(DefaultWeights, map["gpu" := 1.0]);
    assert a.Keys == DefaultWeights.Keys;
    var b := MergeKnownWeights(DefaultWeights, map["battery" := 0.1]);
    assert b.Keys == DefaultWeights.Keys;
  }

  /** `_create_config_from_data()`: defaults overwritten by whatever the loaded dictionary holds. */
  method CreateConfigFromData(doc: ConfigDoc) returns (config: OrchestratorConfig)
    ensures fresh(config)
    ensures config.weights == MergeKnownWeights(DefaultWeights, OrchestratorOf(doc).weights.GetOr(map[]))
    ensures config.threshold == OrchestratorOf(doc).threshold.GetOr(DefaultThreshold)
    ensures config.hardEdgeBattery == OrchestratorOf(doc).hardEdgeBattery.GetOr(DefaultHardEdgeBattery)
    ensures config.hardCloudBattery == OrchestratorOf(doc).hardCloudBattery.GetOr(DefaultHardCloudBattery)
    ensures config.useRealBattery == SignalEnabled(doc, "battery")
    ensures config.useRealNetwork == SignalEnabled(doc, "network")
    ensures config.useRealCarbon == SignalEnabled(doc, "carbon")
    ensures config.carbonZone == CarbonZone(doc)
    ensures config.logLevel == (if doc.logging.Some? then doc.logging.value.level.GetOr(DefaultLogLevel) else DefaultLogLevel)
    ensures config.logFile == (if doc.logging.Some? then doc.logging.value.file else None)
    ensures config.version == DefaultVersion && config.decisionHistorySize == DefaultHistorySize
  {
    config := new OrchestratorConfig();
    if doc.orchestrator.Some? {
      ApplyOrchestratorSection(config, doc.orchestrator.value);
    } else {
      MergeNothing(DefaultWeights);
    }
    ApplyMonitorSections(config, doc);
    if doc.logging.Some? {
      var log := doc.logging.value;
      config.logLevel := log.level.GetOr(DefaultLogLevel);
      if log.file.Some? {
        config.logFile := log.file;
      }
    }
  }

  /** The `orchestrator` part of `_create_config_from_data`. */
  method ApplyOrchestratorSection(config: OrchestratorConfig, orch: OrchestratorSection)
    modifies config
    requires config.weights == DefaultWeights
    ensures config.weights == MergeKnownWeights(DefaultWeights, orch.weights.GetOr(map[]))
    ensures config.threshold == orch.threshold.GetOr(old(config.threshold))
    ensures config.hardEdgeBattery == orch.hardEdgeBattery.GetOr(old(config.hardEdgeBattery))
    ensures config.hardCloudBattery == orch.hardCloudBattery.GetOr(old(config.hardCloudBattery))
    ensures config.useRealBattery == old(config.useRealBattery) && config.useRealNetwork == old(config.useRealNetwork)
    ensures config.useRealCarbon == old(config.useRealCarbon) && config.carbonZone == old(config.carbonZone)
    ensures config.logLevel == old(config.logLevel) && config.logFile == old(config.logFile)
    ensures config.version == old(config.version) && config.decisionHistorySize == old(config.decisionHistorySize)
  {
    if orch.weights.Some? {
      OverwriteKnownWeights(config, orch.weights.value);
    }
    if orch.threshold.Some? {
      config.threshold := orch.threshold.value;
    }
    if orch.hardEdgeBattery.Some? {
      config.hardEdgeBattery := orch.hardEdgeBattery.value;
    }
    if orch.hardCloudBattery.Some? {
      config.hardCloudBattery := orch.hardCloudBattery.value;
    }
  }

  /** `for key, value in weights.items(): if key in config.weights: config.weights[key] = value`. */
  method OverwriteKnownWeights(config: OrchestratorConfig, incoming: map<string, real>)
    modifies config`weights
    ensures config.weights == MergeKnownWeights(old(config.weights), incoming)
  {
    ghost var base := config.weights;
    var rest := incoming.Keys;
    while rest != {}
      invariant rest <= incoming.Keys
      invariant config.weights.Keys == base.Keys
      invariant forall k :: k in base ==> config.weights[k] == if k in incoming && k !in rest then incoming[k] else base[k]
      decreases |rest|
    {
      var key :| key in rest;
      if key in config.weights {
        config.weights := config.weights[key := incoming[key]];
      }
      rest := rest - {key};
    }
  }

  /** The `monitors` part of `_create_config_from_data`, applied to the defaults. */
  method ApplyMonitorSections(config: OrchestratorConfig, doc: ConfigDoc)
    modifies config
    requires config.useRealBattery && config.useRealNetwork && config.useRealCarbon
    requires config.carbonZone == DefaultCarbonZone
    ensures config.useRealBattery == SignalEnabled(doc, "battery")
    ensures config.useRealNetwork == SignalEnabled(doc, "network")
    ensures config.useRealCarbon == SignalEnabled(doc, "carbon")
    ensures config.carbonZone == CarbonZone(doc)
    ensures config.weights == old(config.weights) && config.threshold == old(config.threshold)
    ensures config.hardEdgeBattery == old(config.hardEdgeBattery) && config.hardCloudBattery == old(config.hardCloudBattery)
    ensures config.logLevel == old(config.logLevel) && config.logFile == old(config.logFile)
    ensures config.version == old(config.version) && config.decisionHistorySize == old(config.decisionHistorySize)
  {
    if doc.monitors.None? {
      return;
    }
    var sections := doc.monitors.value;
    if "battery" in sections {
      config.useRealBattery := sections["battery"].enabled.GetOr(true);
    }
    if "network" in sections {
      config.useRealNetwork := sections["network"].enabled.GetOr(true);
    }
    if "carbon" in sections {
      config.useRealCarbon := sections["carbon"].enabled.GetOr(true);
      config.carbonZone := sections["carbon"].zone.GetOr(DefaultCarbonZone);
    }
  }

  /** `use_real_<signal>`: the section's `enabled` flag, true when the flag or the section is absent. */
  function SignalEnabled(doc: ConfigDoc, name: string): (r: bool)
    ensures SectionOf(doc, name).enabled.None? ==> r
    ensures SectionOf(doc, name).enabled.Some? ==> r == SectionOf(doc, name).enabled.value
  {
    SectionOf(doc, name).enabled.GetOr(true)
  }

  /** `carbon_zone`: the carbon section's `zone`, "IN" when absent. */
  function CarbonZone(doc: ConfigDoc): (r: string)
    ensures SectionOf(doc, "carbon").zone.None? ==> r == DefaultCarbonZone
    ensures SectionOf(doc, "carbon").zone.Some? ==> r == SectionOf(doc, "carbon").zone.value
  {
    SectionOf(doc, "carbon").zone.GetOr(DefaultCarbonZone)
  }

  // ---------------------------------------------------------------------
  // The orchestrator object
  // ---------------------------------------------------------------------

  /** The parts of the orchestrator that decisions use: its configuration, its monitors and its history. */
  class DynamicGreenOrchestrator {
    const config: OrchestratorConfig
    const monitors: map<string, ProbeSurface>
    const platformSystem: string
    var decisionHistory: seq<Decision>

    /** The end of `__init__`, once the configuration has been built and validated. */
    constructor (config: OrchestratorConfig, monitors: map<string, ProbeSurface>, platformSystem: string)
      ensures this.config == config && this.monitors == monitors && this.platformSystem == platformSystem
      ensures decisionHistory == []
    {
      this.config := config;
      this.monitors := monitors;
      this.platformSystem := platformSystem;
      decisionHistory := [];
    }

    /** The reading the engine takes for one signal. */
    function Reading(name: string): real
    {
      ProbeSignal(if name in monitors then Some(monitors[name]) else None)
    }

    /**
     * `make_decision()`: read the three signals, score, choose a mode, and
     * append the decision to the history, trimmed to `decision_history_size`.
     * An error in the confidence computation propagates and leaves the history alone.
     */
    method MakeDecision(now: real, sqrt: real -> real) returns (r: Result<Decision, ScoringError>)
      modifies this`decisionHistory
      ensures r == BuildDecision(Reading("battery"), Reading("network"), Reading("carbon"), config.weights,
                                 config.hardEdgeBattery, config.hardCloudBattery, config.threshold,
                                 platformSystem, now, sqrt)
      ensures r.Ok? ==> decisionHistory == Retain(old(decisionHistory) + [r.value], config.decisionHistorySize)
      ensures r.Err? ==> decisionHistory == old(decisionHistory)
    {
      r := BuildDecision(Reading("battery"), Reading("network"), Reading("carbon"), config.weights,
                         config.hardEdgeBattery, config.hardCloudBattery, config.threshold,
                         platformSystem, now, sqrt);
      if r.Ok? {
        decisionHistory := decisionHistory + [r.value];
        if |decisionHistory| > config.decisionHistorySize {
          decisionHistory := PyTail(decisionHistory, config.decisionHistorySize);
        }
      }
    }
  }

  /** `__init__`: build the configuration, then validate it; a failed validation raises. */
  method NewOrchestrator(doc: ConfigDoc, monitors: map<string, ProbeSurface>, platformSystem: string)
    returns (r: Result<DynamicGreenOrchestrator, ConfigError>)
    ensures var threshold := OrchestratorOf(doc).threshold.GetOr(DefaultThreshold);
            var weights := MergeKnownWeights(DefaultWeights, OrchestratorOf(doc).weights.GetOr(map[]));
            && (r.Err? <==> ValidateSpec(threshold, weights).Fail?)
            && (r.Err? ==> r.error == ValidateSpec(threshold, weights).error)
            && (r.Ok? ==> r.value.config.threshold == threshold && r.value.config.weights == weights)
    ensures r.Ok? ==> fresh(r.value) && fresh(r.value.config) && r.value.decisionHistory == []
    ensures r.Ok? ==> r.value.config.hardEdgeBattery == OrchestratorOf(doc).hardEdgeBattery.GetOr(DefaultHardEdgeBattery)
    ensures r.Ok? ==> r.value.config.hardCloudBattery == OrchestratorOf(doc).hardCloudBattery.GetOr(DefaultHardCloudBattery)
    ensures r.Ok? ==> r.value.config.useRealBattery == SignalEnabled(doc, "battery")
    ensures r.Ok? ==> r.value.config.useRealNetwork == SignalEnabled(doc, "network")
    ensures r.Ok? ==> r.value.config.useRealCarbon == SignalEnabled(doc, "carbon")
    ensures r.Ok? ==> r.value.config.carbonZone == CarbonZone(doc)
    ensures r.Ok? ==> r.value.config.decisionHistorySize == DefaultHistorySize
    ensures r.Ok? ==> ValidateSpec(r.value.config.threshold, r.value.config.weights) == Pass
    ensures r.Ok? ==> r.value.monitors == monitors && r.value.platformSystem == platformSystem
  {
    var config := CreateConfigFromData(doc);
    var outcome := config.Validate();
    if outcome.Fail? {
      return Err(outcome.error);
    }
    var orchestrator := new DynamicGreenOrchestrator(config, monitors, platformSystem);
    return Ok(orchestrator);
  }
}
