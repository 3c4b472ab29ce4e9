# Green AI Orchestrator — a verified Dafny model

The Green AI Orchestrator decides where a workload should run: on the
device (EDGE_ONLY), in the cloud (CLOUD_ONLY), split between the two (HYBRID)
or later (DEFERRED). It reads three signals:

- the battery level;
- the network quality;
- the carbon intensity of the grid.

From these it computes a clamped weighted sustainability score and a
confidence. A first-match rule then picks the mode, and each decision is
kept in a bounded history. Around this core sit several pieces:

- the monitors that produce the signals: a cached base monitor, and network,
  carbon and battery monitors with real and simulated back ends;
- a factory that picks a monitor for each signal from the configuration;
- platform detection;
- configuration and reading validation;
- summary metrics;
- the HTTP layer's decision history: paging, lookup by id, batch recording,
  statistics and request validators.

This project models that core in Dafny 4.11 and proves properties of it. It
has one module per source file:

- `Models`, `Scoring`, `DecisionEngine`;
- `Metrics`, `Validation`, `Platform`;
- `BaseMonitor`, `NetworkMonitor`, `CarbonMonitor`, `BatteryMonitor`;
- `Factory`;
- `HistoryApi`, which covers the history logic shared by `src/api/server.py`
  and `api_server.py`.

Three support modules are shared:

- `Common` holds Option/Result, min/max/clamp, sums and means, Python's
  negative slicing and round-half-even;
- `Text` holds ASCII lower-casing, containment, split/join and digit parsing;
- `ConfigData` is the loaded configuration dictionary.

The model keeps the source's form. Pure computations are functions with
lemmas. Objects whose fields change are classes whose methods have
`modifies` clauses:

- the cached monitor;
- the configuration object;
- the orchestrator with its history;
- the universal and simulated battery monitors;
- the simulated network monitor;
- the HTTP history.

The source's loops are methods with loop invariants, each proved against a
specification function:

- mode counting;
- the two validators;
- the weight sum;
- the pmset line parser;
- the ping host scan;
- batch recording.

Everything outside the program is a parameter:

- the clock (`now`);
- the random draws (`draw`, `flipDraw`, …);
- `platform.system()` and `platform.release()`;
- the environment variable holding the Electricity Maps key;
- whether `speedtest` can be imported;
- the results of pings, HTTP calls, subprocesses and file reads;
- the square root (`sqrt`).

Python floats are modelled as Dafny `real`. `round(x, n)` is modelled as
round-half-even on the exact value.

## Model

| member | source | states |
|---|---|---|
| Models.ModeOfValue | src/orchestrator/models.py:11-16 | `ExecutionMode(value)` finds the member carrying that value, and does so for every value some member carries |
| Models.ModesEnumerated | src/orchestrator/models.py:11-16 | every mode is among the four enum members and is recovered from its own value |
| Models.Column | src/utils/metrics.py:14-18 | the per-field list has one entry per decision, holding that decision's field |
| Models.CountMode | src/orchestrator/decision_engine.py:327 | the number of decisions with a given mode is at most the number of decisions |
| Models.CountModesSum | src/orchestrator/decision_engine.py:326-329 | the four per-mode counts add up to the number of decisions |
| Models.CountModePositive | src/orchestrator/decision_engine.py:327 | a mode's count is positive exactly when some decision has that mode |
| Models.UpdatedWeights | src/orchestrator/models.py:90 | `dict.update`: keys of the new dict take its values; every other old key keeps its value; the key set is the union |
| Models.DefaultsValid | src/orchestrator/models.py:48-83 | the default weights 0.4/0.3/0.3 and threshold 0.5 pass `validate()` |
| Models.ValidateSpec | src/orchestrator/models.py:73-83 | passes iff the threshold is in [0, 1] and the weights sum to 1 within 0.001; a bad threshold is reported first, then the weight sum |
| Models.EmptyWeightsRejected | src/orchestrator/models.py:73-83 | an empty weights dict fails on its sum of 0, so the emptiness check after it is never reached |
| Models.PartialUpdateDrifts | src/orchestrator/models.py:85-90 | `update_weights` checks only the new dict's own sum, so `{"battery": 1.0}` is accepted and leaves merged weights summing to 1.6 |
| Models.OrchestratorConfig.constructor | src/orchestrator/models.py:45-71 | every dataclass default: weights, threshold 0.5, hard bounds 0.2/0.8, monitors on, zone "IN", level "INFO", history size 1000 |
| Models.OrchestratorConfig.Validate | src/orchestrator/models.py:73-83 | a threshold outside [0, 1] fails first, then a weight sum off 1 by more than 0.001; otherwise it passes (the later emptiness test can never fire) |
| Models.OrchestratorConfig.UpdateWeights | src/orchestrator/models.py:85-90 | fails, leaving weights alone, exactly when the new dict's sum is off 1 by more than 0.001; otherwise merges it in |
| Scoring.WeightOf | src/orchestrator/scoring.py:22-24 | a present weight is used as is; missing weights default to 0.4 / 0.3 / 0.3 |
| Scoring.Score | src/orchestrator/scoring.py:26-38 | the weighted sum with carbon entering as `1 - carbon` is clamped into [0, 1] |
| Scoring.SustainabilityScore | src/orchestrator/scoring.py:10-38 | the score always lies in [0, 1] |
| Scoring.ScoreDefaults | src/orchestrator/scoring.py:22-34 | with no readings and no weights every reading is 0.5 and the score is exactly 0.5 |
| Scoring.NeutralScore | src/orchestrator/scoring.py:26-38 | with weights summing to 1 and every reading 0.5 the score is 0.5 |
| Scoring.ScoreMonotone | src/orchestrator/scoring.py:26-38 | with non-negative weights, more battery or network never lowers the score and more carbon never raises it |
| Scoring.SubConfidence | src/orchestrator/scoring.py:53-63 | `1 - abs(x - 0.5) * 2` is at most 1, is 1 exactly at 0.5, is 0 at both ends and is non-negative on [0, 1] |
| Scoring.SubConfidenceShape | src/orchestrator/scoring.py:53-63 | sub-confidence is symmetric about 0.5 and shrinks towards either end |
| Scoring.ConfidenceMeanInUnit | src/orchestrator/scoring.py:53-66 | for readings in [0, 1] the mean of the four sub-confidences lies in [0, 1] |
| Scoring.ConfidenceMean | src/orchestrator/scoring.py:53-66 | the mean never exceeds (3 + network) / 4, and equals it when score, battery and carbon are all 0.5 |
| Scoring.Confidence | src/orchestrator/scoring.py:41-71 | fails, with the mean as the error, exactly when the pre-root mean is negative (a complex `** 0.5`); otherwise the result lies in [0, 1] |
| Scoring.ConfidenceIsRoot | src/orchestrator/scoring.py:66-71 | for readings in [0, 1] confidence never fails and is the square root of the mean, which the clamp leaves unchanged |
| Scoring.ConfidenceMonotone | src/orchestrator/scoring.py:53-71 | better network quality never lowers confidence |
| Scoring.AnalyzeTradeoffs | src/orchestrator/scoring.py:74-91 | exactly four keys: battery 0.3 + 0.4b, network 0.4 + 0.2n, carbon 0.8 − 0.6c, and the mean of b, n and 1 − c |
| Scoring.TradeoffsInUnit | src/orchestrator/scoring.py:74-91 | for readings in [0, 1] every tradeoff lies in [0, 1] |
| DecisionEngine.ExplanationsDistinct | src/orchestrator/decision_engine.py:258-269 | the explanation attached to a mode identifies the mode |
| DecisionEngine.Explanation | src/orchestrator/decision_engine.py:258-269 | each of the four explanation texts is attached to exactly one mode |
| DecisionEngine.ChooseMode | src/orchestrator/decision_engine.py:258-269 | each of the four modes is chosen iff its branch condition holds and every earlier branch's fails |
| DecisionEngine.ModeBoundariesStrict | src/orchestrator/decision_engine.py:258-269 | all comparisons are strict: a battery equal to a bound, or a score equal to the threshold, does not trigger its mode |
| DecisionEngine.ModeMonotoneInScore | src/orchestrator/decision_engine.py:258-269 | raising the score can only turn DEFERRED into HYBRID |
| DecisionEngine.ProbeSignal | src/orchestrator/decision_engine.py:186-232 | the first of the three probed attributes a monitor has (first, then second, then third) gives the reading; 0.5 when the monitor is missing or has none of them |
| DecisionEngine.BuildDecision | src/orchestrator/decision_engine.py:234-282 | the decision carries the three readings, their score, mode, explanation and tradeoffs and the clock, or confidence's error |
| DecisionEngine.DecisionInRange | src/orchestrator/decision_engine.py:234-282 | with readings in [0, 1] no decision fails, and its score and confidence lie in [0, 1] |
| DecisionEngine.NeutralDecision | src/orchestrator/decision_engine.py:234-282 | with all three readings 0.5 and the default weights, bounds and threshold, the decision succeeds with score 0.5, mode DEFERRED and confidence sqrt(0.875) |
| DecisionEngine.OpaqueMonitorsAlwaysDefer | src/orchestrator/decision_engine.py:186-232 | monitors that are missing or have none of the probed attributes read 0.5, so under the defaults every decision is DEFERRED with score 0.5 |
| DecisionEngine.RetainBounded | src/orchestrator/decision_engine.py:287-289 | for a positive size the trimmed history is at most that long and is the newest part, in order |
| DecisionEngine.Retain | src/orchestrator/decision_engine.py:287-289 | the trim after an append (as written) keeps a suffix of the history, and the whole history when it fits the size |
| DecisionEngine.RetainZeroKeepsAll | src/orchestrator/decision_engine.py:289 | a size of 0 keeps the whole history (`h[-0:]`) |
| DecisionEngine.Newest | src/orchestrator/decision_engine.py:287-289 | the newest `min(n, len)` entries in order, a suffix at most `n` long |
| DecisionEngine.NewestMatchesRetain | src/orchestrator/decision_engine.py:287-289 | the corrected trim agrees with the source for every positive size and keeps nothing for 0 |
| DecisionEngine.AppendedIsLast | src/orchestrator/decision_engine.py:285-289 | after an append and a trim to a positive size, the new decision is the last entry |
| DecisionEngine.RecentDecisions | src/orchestrator/decision_engine.py:294-296 | a suffix of the history, exactly `count` long (or the whole history) for a positive count; `count` defaults to 10 |
| DecisionEngine.RecentZeroReturnsAll | src/orchestrator/decision_engine.py:296 | `get_recent_decisions(0)` returns the whole history, not nothing |
| DecisionEngine.Statistics | src/orchestrator/decision_engine.py:312-330 | empty dict iff no history; otherwise the count, the mean of the scores and of the confidences, the minimum and maximum score (min ≤ mean ≤ max, bounding every score), and the mode distribution |
| DecisionEngine.ModeDistribution | src/orchestrator/decision_engine.py:326-329 | one entry per mode value holding that mode's count; the four counts add up to the number of decisions |
| DecisionEngine.ScoresWithinExtremes | src/orchestrator/decision_engine.py:322-325 | every decision's score lies between the minimum and the maximum of the score column |
| DecisionEngine.MergeKnownWeights | src/orchestrator/decision_engine.py:85-88 | the key set is unchanged; known keys take the loaded value and the rest keep theirs |
| DecisionEngine.MergeNothing | src/orchestrator/decision_engine.py:85-88 | merging no weights leaves the defaults |
| DecisionEngine.MergeKnownIsUpdate | src/orchestrator/decision_engine.py:85-88 | for loaded keys that are all known, the loop equals `dict.update` |
| DecisionEngine.UnknownWeightIgnored | src/orchestrator/decision_engine.py:85-88 | an unknown weight key is dropped, and a partial one leaves merged weights that sum to 0.7 |
| DecisionEngine.CreateConfigFromData | src/orchestrator/decision_engine.py:75-119 | every field of the new config is its loaded value when present, else the default |
| DecisionEngine.ApplyOrchestratorSection | src/orchestrator/decision_engine.py:81-96 | weights merged, the three thresholds overwritten when present; nothing else changes |
| DecisionEngine.OverwriteKnownWeights | src/orchestrator/decision_engine.py:86-88 | the loop leaves the weights equal to the known-keys merge |
| DecisionEngine.ApplyMonitorSections | src/orchestrator/decision_engine.py:99-110 | the three enabled flags and the carbon zone come from their sections; nothing else changes |
| DecisionEngine.SignalEnabled | src/orchestrator/decision_engine.py:102-109 | a section's `enabled` flag, true when the flag or the section is absent |
| DecisionEngine.CarbonZone | src/orchestrator/decision_engine.py:108-110 | the carbon section's `zone`, "IN" when absent |
| DecisionEngine.DynamicGreenOrchestrator.constructor | src/orchestrator/decision_engine.py:64-67 | the orchestrator keeps its config and monitors and starts with an empty history |
| DecisionEngine.DynamicGreenOrchestrator.MakeDecision | src/orchestrator/decision_engine.py:181-292 | the result is the decision built from the probed readings; a success is appended and trimmed, a failure leaves the history as it was |
| DecisionEngine.NewOrchestrator | src/orchestrator/decision_engine.py:29-74 | fails, with the validation error, exactly when the threshold and merged weights built from the document fail `validate()`; on success the config holds the values built from the document, and the orchestrator has its monitors and an empty history |
| Metrics.Summarize | src/utils/metrics.py:28-55 | min ≤ mean ≤ max; min and max occur in the list and bound every element |
| Metrics.SquaredDeviations | src/utils/metrics.py:64-65 | non-negative, and 0 when every value equals the mean |
| Metrics.SampleVariance | src/utils/metrics.py:64-65 | the `n - 1` variance is non-negative |
| Metrics.StdDev | src/utils/metrics.py:59-66 | 0 for fewer than two values, else the root of the sample variance |
| Metrics.MeanOfConstant | src/utils/metrics.py:28-55 | the mean of equal values is that value |
| Metrics.StdDevOfConstant | src/utils/metrics.py:59-66 | equal values have variance 0 |
| Metrics.ModeCounts | src/utils/metrics.py:20-24 | the counting loop gives one key per occurring mode, holding how often it occurs |
| Metrics.ModeCountsTotal | src/utils/metrics.py:20-27 | the counts add up to the number of decisions |
| Metrics.CalculateMetrics | src/utils/metrics.py:9-56 | empty iff no decisions; otherwise the count, the summaries of every column and the mode distribution |
| Metrics.FormatMetricsHead | src/utils/metrics.py:69-75 | "No metrics available" for no metrics, else a first line "Total Decisions: " followed by the count in decimal |
| Validation.SectionErrors | src/utils/validation.py:14-17 | at most one error per section, each naming a missing required section |
| Validation.WeightErrors | src/utils/validation.py:20-29 | at most one error per signal, each naming a missing weight |
| Validation.ConfigErrors | src/utils/validation.py:9-36 | the reference error list that `ValidateConfig` and `ConfigValidIff` are stated against; without an orchestrator section it is exactly the missing-section errors, in order |
| Validation.ValidateConfig | src/utils/validation.py:9-36 | the loops collect exactly the specified errors, in order, and the flag is true iff there are none |
| Validation.SectionErrorsEmpty | src/utils/validation.py:14-17 | no section errors iff every required section is present |
| Validation.WeightErrorsEmpty | src/utils/validation.py:20-29 | no weight errors iff every signal has a weight |
| Validation.ConfigValidIff | src/utils/validation.py:9-36 | a config is valid iff both sections are present and, when weights are given, all three keys are present and they sum to 1 within 0.001 |
| Validation.MissingSectionsCounted | src/utils/validation.py:14-17 | without an orchestrator section the errors are exactly the missing sections |
| Validation.NumericValue | src/utils/validation.py:47-49 | only non-numeric values fail the `isinstance(value, (int, float))` test |
| Validation.ValidateMonitorData | src/utils/validation.py:39-55 | true iff each of battery, network and carbon is present, numeric and in [0, 1] |
| Validation.ExtraKeysIgnored | src/utils/validation.py:39-55 | keys other than the three signals never change the verdict |
| Validation.FlagsAccepted | src/utils/validation.py:47-53 | `True` and `False` pass as readings, since `bool` is an `int` |
| BaseMonitor.EmptyCacheMisses | src/monitors/base_monitor.py:37-38 | an empty cache always misses |
| BaseMonitor.CacheHit | src/monitors/base_monitor.py:37-38 | a hit needs a non-empty cache younger than the ttl; with a non-positive ttl only a clock that ran backwards hits |
| BaseMonitor.AgeEqualToTtlMisses | src/monitors/base_monitor.py:37-38 | an entry exactly `cache_ttl` seconds old is stale |
| BaseMonitor.FreshFetchHits | src/monitors/base_monitor.py:37-45 | after a non-empty fetch at `t`, every call before `t + ttl` is answered from the cache |
| BaseMonitor.Monitor.constructor | src/monitors/base_monitor.py:16-20 | empty cache, last update 0, ttl 300 |
| BaseMonitor.Monitor.GetCachedInfo | src/monitors/base_monitor.py:32-47 | fetches exactly on a miss; a hit returns the cache unchanged; a fetch stores the reading and the clock |
| BaseMonitor.Monitor.Refresh | src/monitors/base_monitor.py:49-52 | empties the cache and returns a fresh reading without storing it |
| BaseMonitor.Monitor.SetCacheTtl | src/monitors/base_monitor.py:54-56 | sets the ttl and nothing else |
| BaseMonitor.RefreshForcesFetch | src/monitors/base_monitor.py:37-52 | a lookup after a refresh always fetches |
| NetworkMonitor.SpeedScore | src/monitors/network_monitor.py:79 | speed over 200 Mbps, at most 1, non-negative for non-negative speed, 1 from 200 Mbps |
| NetworkMonitor.NewNetworkCache | src/monitors/network_monitor.py:23-25 | the base monitor named "network" with an empty cache and the ttl shortened to 60 s |
| NetworkMonitor.LatencyScore | src/monitors/network_monitor.py:80 | `1 - latency/500` floored at 0: 1 at 0 ms, 0 from 500 ms |
| NetworkMonitor.Quality | src/monitors/network_monitor.py:73-84 | quality always lies in [0, 1] |
| NetworkMonitor.QualityMonotone | src/monitors/network_monitor.py:73-84 | more speed never lowers quality and more latency never raises it |
| NetworkMonitor.QualityUnclamped | src/monitors/network_monitor.py:73-84 | for non-negative inputs the final clamp never bites: quality is 0.7·speed score + 0.3·latency score |
| NetworkMonitor.QualityExtremes | src/monitors/network_monitor.py:73-84 | 200 Mbps at 0 ms is quality 1; no speed at 500 ms or more is quality 0 |
| NetworkMonitor.Fallback | src/monitors/network_monitor.py:61-71 | 10 Mbps, 100 ms, quality 0.5, connected, source "fallback" |
| NetworkMonitor.GetInfo | src/monitors/network_monitor.py:32-59 | a failed read gives the fallback; otherwise missing fields get their defaults and quality is clamped into [0, 1] |
| NetworkMonitor.GetInfoKeepsUnitQuality | src/monitors/network_monitor.py:49 | a raw quality already in [0, 1] passes through unchanged |
| NetworkMonitor.BandOf | src/monitors/network_monitor.py:173-180 | the four latency bands and their speed ranges |
| NetworkMonitor.EstimatedSpeed | src/monitors/network_monitor.py:173-180 | for a draw within its band's width the estimate lies in the band of its latency, and always within [1, 100] Mbps |
| NetworkMonitor.BandsOrdered | src/monitors/network_monitor.py:173-180 | of two latencies in different bands the lower never gets the lower speed, and every estimate lies in [1, 100] |
| NetworkMonitor.FirstResponsive | src/monitors/network_monitor.py:164-170 | the first host in list order whose ping gave a positive latency, or none |
| NetworkMonitor.PingReading | src/monitors/network_monitor.py:181-192 | the raw dict of one ping: connected, source `ping_<host>`, speed and latency rounded to 0.1, quality to 0.001 |
| NetworkMonitor.RoundedQualityInUnit | src/monitors/network_monitor.py:190 | rounding to three places keeps quality in [0, 1] |
| NetworkMonitor.PingRawInfo | src/monitors/network_monitor.py:152-199 | the host loop fails iff no host answers, and otherwise reports the first host that does |
| NetworkMonitor.FirstResponsiveIs | src/monitors/network_monitor.py:164-170 | the host the scan stops at is the first responsive one |
| NetworkMonitor.PingInfoConnected | src/monitors/network_monitor.py:32-59 | a ping reading passes through `get_info` connected, with its rounded quality kept |
| NetworkMonitor.Trunc | src/monitors/network_monitor.py:262 | Python's `int()` truncates toward zero |
| NetworkMonitor.Simulate | src/monitors/network_monitor.py:250-276 | connected iff the draw exceeds 0.05; connected readings keep the 0.1 Mbps and 1 ms floors; disconnected ones are 0 Mbps, 1000 ms, quality 0 |
| NetworkMonitor.SlowdownShift | src/monitors/network_monitor.py:262-264 | in the first 30 s of every 5 minutes a connected reading is 30 Mbps slower and 50 ms later |
| NetworkMonitor.SlowdownPeriodic | src/monitors/network_monitor.py:262 | slowdown windows recur every 300 s |
| NetworkMonitor.SimulatedRaw | src/monitors/network_monitor.py:280-291 | the simulated raw dict carries the connection flag and source "simulation" |
| NetworkMonitor.SimulatedRawBounds | src/monitors/network_monitor.py:266-291 | the reported, rounded simulator values keep the floors |
| NetworkMonitor.SimulatedNetworkMonitor.RawInfo | src/monitors/network_monitor.py:250-291 | returns the rounded simulated step and sets `last_update` to the clock |
| NetworkMonitor.SimulatedNetworkMonitor.constructor | src/monitors/network_monitor.py:243-247 | `last_update` starts at the clock reading; the base speed and latency are the constants 50 and 30 |
| NetworkMonitor.InSlowdown | src/monitors/network_monitor.py:262 | the first 30 seconds of the 300-second cycle are a slowdown, and the other 270 are not |
| CarbonMonitor.Fallback | src/monitors/carbon_monitor.py:54-63 | 400 gCO2/kWh, not green, the requested zone, source "fallback" |
| CarbonMonitor.IsGreenGrid | src/monitors/carbon_monitor.py:65-67 | green iff at or below the threshold, 300 by default; green under a threshold up to 300 means at most 300, and a non-positive intensity is always green |
| CarbonMonitor.GetInfo | src/monitors/carbon_monitor.py:30-52 | a failed read gives the fallback; otherwise missing fields default to 0, not green, the requested zone and "unknown" |
| CarbonMonitor.EmptyRawDefaults | src/monitors/carbon_monitor.py:36-43 | an empty raw dict reads as intensity 0, not green, in the requested zone |
| CarbonMonitor.EffectiveKey | src/monitors/carbon_monitor.py:75 | `api_key or getenv(...)`: a non-empty argument wins; a missing or empty one falls through to the environment |
| CarbonMonitor.ElectricityMapsRaw | src/monitors/carbon_monitor.py:81-111 | a reading exists iff the key is non-empty and a response arrived; its intensity is the response's `carbonIntensity`, or 0 when absent, and it is green iff at most 300 |
| CarbonMonitor.ElectricityMapsAvailable | src/monitors/carbon_monitor.py:78-79 | available only when a key is set, and an empty key still counts as available |
| CarbonMonitor.EmptyKeyAvailableButFallsBack | src/monitors/carbon_monitor.py:78-83 | an empty key counts as available, yet every reading falls back |
| CarbonMonitor.BaseIntensity | src/monitors/carbon_monitor.py:119-138 | the zone's base intensity, 400 for unknown zones, always in [30, 700] |
| CarbonMonitor.SecondsOfDay | src/monitors/carbon_monitor.py:141 | Python's float `%` by 86400 lies in [0, 86400) |
| CarbonMonitor.HourOfDay | src/monitors/carbon_monitor.py:141 | the hour lies in [0, 24) |
| CarbonMonitor.DailyVariationBounds | src/monitors/carbon_monitor.py:144-146 | the daily variation lies in [−15%, +30%] of the base, peaks at 14:00, is ≤ 0 at night and ≥ 0 by day |
| CarbonMonitor.DailyVariation | src/monitors/carbon_monitor.py:144-146 | 30% of the base scaled by the hour factor by day, −15% of the base scaled by it at night |
| CarbonMonitor.NightVariationNegative | src/monitors/carbon_monitor.py:144-146 | at night, except exactly at midnight, the variation is strictly negative |
| CarbonMonitor.SimulatedIntensity | src/monitors/carbon_monitor.py:149-153 | the simulated intensity never falls below 10 |
| CarbonMonitor.SimulatedIntensityBounds | src/monitors/carbon_monitor.py:138-153 | with the draw in range the intensity lies between 75% and 140% of the base, floored at 10 |
| CarbonMonitor.SimulatedZonesClassified | src/monitors/carbon_monitor.py:119-155 | Sweden is always green and China never is |
| CarbonMonitor.SimulatedRaw | src/monitors/carbon_monitor.py:155-161 | green-ness is decided on the unrounded intensity; the reported intensity is rounded to 0.1 |
| CarbonMonitor.RoundingKeepsGreen | src/monitors/carbon_monitor.py:155-158 | a green reading is reported at or below 300 |
| CarbonMonitor.ReportedGreenButFlaggedNot | src/monitors/carbon_monitor.py:155-158 | 300.04 is flagged not green yet reported as 300.0 |
| BatteryMonitor.Fallback | src/monitors/battery_monitor.py:59-68 | 85%, charging, status and source "fallback" |
| BatteryMonitor.GetInfo | src/monitors/battery_monitor.py:32-57 | a failed read gives the fallback; otherwise missing fields get their defaults and the percentage is clamped into [0, 100] |
| BatteryMonitor.GetInfoClamps | src/monitors/battery_monitor.py:48 | a percentage in [0, 100] is kept; one outside is pulled to the nearer end |
| BatteryMonitor.ClassifyAsWritten | src/monitors/battery_monitor.py:106-117 | the status test as written: one of four statuses, "charging" and "full" set the flag, "unknown" keeps it |
| BatteryMonitor.ClassifyAsWrittenNeverDischarging | src/monitors/battery_monitor.py:107-112 | as written, the test never yields "discharging" |
| BatteryMonitor.Classify | src/monitors/battery_monitor.py:106-117 | the corrected status test: text with "discharging" is not charging; anything else is as written |
| BatteryMonitor.ChargingInDischarging | src/monitors/battery_monitor.py:107-110 | "charging" occurs inside "discharging" |
| BatteryMonitor.DischargingReadAsCharging | src/monitors/battery_monitor.py:107-112 | as written, every text mentioning "discharging" is classified as charging |
| BatteryMonitor.DischargingCounterexample | src/monitors/battery_monitor.py:107-112 | "67%; discharging;" is read as charging as written and as discharging corrected |
| BatteryMonitor.MentionsBatteryIsBattery | src/monitors/battery_monitor.py:95 | `'InternalBattery' in line or 'Battery' in line` is just `'Battery' in line` |
| BatteryMonitor.PmsetLine | src/monitors/battery_monitor.py:95-117 | for either status order (as written or corrected): a line not about the battery, or without a tab field, changes nothing, and a consistent state stays consistent |
| BatteryMonitor.PmsetLines | src/monitors/battery_monitor.py:94-117 | after any lines the state is consistent: percentage ≥ 0, one of four statuses, flag agreeing with it, never "discharging" as written |
| BatteryMonitor.PmsetRaw | src/monitors/battery_monitor.py:119-125 | for either status order: source "macos_pmset", a percentage ≥ 0, a status among charging/discharging/full/unknown with "charging" and "full" charging and "discharging" not; as written, never "discharging" |
| BatteryMonitor.ParsePmset | src/monitors/battery_monitor.py:87-125 | the line loop as written, "charging" tested first, ends in the state of `PmsetRaw` with the as-written order |
| BatteryMonitor.PmsetNoBatteryLines | src/monitors/battery_monitor.py:90-95 | output with no battery line keeps the defaults: 100%, not charging, "unknown" |
| BatteryMonitor.PmsetLastLineWins | src/monitors/battery_monitor.py:94-117 | a battery line with a percentage placed last sets the percentage to its own, and classifies its field into the flag and status given the previous flag, by the as-written or the corrected test |
| BatteryMonitor.PmsetIgnoresTail | src/monitors/battery_monitor.py:94-98 | trailing lines that do not mention the battery or have no tab-separated field leave the parsed state unchanged |
| BatteryMonitor.PmsetLastBatteryLineWins | src/monitors/battery_monitor.py:94-117 | when the last line the loop reads a field from carries a percentage, that percentage is reported and its field decides flag and status, whatever other lines follow it |
| BatteryMonitor.PmsetPercentageSurvives | src/monitors/battery_monitor.py:100-103 | later battery fields without a percentage keep the earlier percentage, although they may still change the status |
| BatteryMonitor.PmsetOrdersAgree | src/monitors/battery_monitor.py:106-117 | the as-written and corrected parsers agree on any output whose battery fields never mention "discharging" |
| BatteryMonitor.PmsetSkipsShortLines | src/monitors/battery_monitor.py:97-98 | a line without a tab-separated second field changes nothing |
| BatteryMonitor.SysfsInfo | src/monitors/battery_monitor.py:190-207 | capacity and `sysfs_<name>`; with a status file, its lowercased text and charging iff "charging" or "full"; without one, "unknown" and not charging, which is the corrected behaviour (as written that case raises, see `ReadSysfsAsWritten`) |
| BatteryMonitor.ReadSysfsAsWritten | src/monitors/battery_monitor.py:175-213 | `_read_from_sysfs` as written: it crashes iff the first battery whose capacity reads has no status file; otherwise it returns what `ReadSysfs` returns, and that is the not-found sentinel or a reading with a status |
| BatteryMonitor.ReadSysfs | src/monitors/battery_monitor.py:175-213 | the corrected reader: "not found" iff no battery directory reads; otherwise the reading of the first one that does, with its capacity and status; charging only for "charging" or "full" |
| BatteryMonitor.Found | src/monitors/battery_monitor.py:156 | a reading that passes the `percentage >= 0` test is never the not-found sentinel |
| BatteryMonitor.ReadSysfsAgrees | src/monitors/battery_monitor.py:175-213 | as written and corrected agree except where the first readable battery has no status file |
| BatteryMonitor.MissingStatusCounterexample | src/monitors/battery_monitor.py:194-207 | BAT0 at 50% without a status file crashes as written, so a bare Linux monitor reports the 85%-charging fallback; corrected, it reads 50%, not charging |
| BatteryMonitor.CrashHandsOverToSimulator | src/monitors/battery_monitor.py:375-396 | under the universal monitor on Linux the same crash is caught and the reading comes from the simulator after the Linux monitor |
| BatteryMonitor.ReadProc | src/monitors/battery_monitor.py:215-256 | "not found" iff no ACPI directory reads; otherwise `ProcInfo` of the first one that does, whose percentage is non-negative |
| BatteryMonitor.ProcInfo | src/monitors/battery_monitor.py:235-248 | the percentage is the matched capacity or 0; the status is the lowercased state or "unknown"; charging iff the status is "charging", "charged" or "full"; source `proc_acpi_<name>` |
| BatteryMonitor.ChargingSetsDiffer | src/monitors/battery_monitor.py:199-242 | "charged" counts as charging in /proc/acpi (line 242) but not in sysfs (line 199) |
| BatteryMonitor.LinuxRaw | src/monitors/battery_monitor.py:154-165 | with the corrected sysfs reader: sysfs first, then /proc/acpi; fails iff neither finds a non-negative percentage |
| BatteryMonitor.LinuxRawAsWritten | src/monitors/battery_monitor.py:154-165 | as written: raises iff sysfs crashes or neither source finds a non-negative percentage, otherwise agrees with the corrected reading |
| BatteryMonitor.NegativeCapacitySkipsSysfs | src/monitors/battery_monitor.py:157-163 | a negative sysfs capacity is taken for "not found" |
| BatteryMonitor.WindowsStatus | src/monitors/battery_monitor.py:315-324 | codes 1-6 name their status; any other code is "unknown" |
| BatteryMonitor.WindowsCharging | src/monitors/battery_monitor.py:325 | a code counts as charging only when it is one of the six known codes and its status is not "discharging" |
| BatteryMonitor.WindowsChargingCodes | src/monitors/battery_monitor.py:324-325 | codes 2, 3 and 6 are exactly those whose status names power coming in |
| BatteryMonitor.WindowsRaw | src/monitors/battery_monitor.py:310-334 | the percentage is the parsed one or 0; for a status code, the status is its `WindowsStatus` name and the flag is `WindowsCharging` of it; a missing code reads as 1, discharging; source "windows_wmi" |
| BatteryMonitor.MonitorsFor | src/monitors/battery_monitor.py:353-365 | the native monitor for the system, if any, then always the simulator |
| BatteryMonitor.FirstAvailable | src/monitors/battery_monitor.py:367-373 | the first available monitor in list order, none iff none is available |
| BatteryMonitor.UniversalChoice | src/monitors/battery_monitor.py:353-373 | some monitor is always available: the simulator on Linux without a battery, the native one on macOS and Windows |
| BatteryMonitor.UniversalBatteryMonitor.constructor | src/monitors/battery_monitor.py:347-351 | the list for the system and no current monitor |
| BatteryMonitor.UniversalBatteryMonitor.IsAvailable | src/monitors/battery_monitor.py:367-373 | true iff some monitor is available, and then that monitor becomes current |
| BatteryMonitor.UniversalBatteryMonitor.GetRaw | src/monitors/battery_monitor.py:375-396 | the current monitor's reading; if it raises, the next working available one, which becomes current; else the simulator |
| BatteryMonitor.UniversalBatteryMonitor.FirstAvailableIs | src/monitors/battery_monitor.py:369-372 | the monitor the scan stops at is the first available one |
| BatteryMonitor.UniversalBatteryMonitor.NextWorking | src/monitors/battery_monitor.py:387-393 | the first index from `i` on, other than the current monitor, whose monitor is available and reads; none iff there is no such index |
| BatteryMonitor.SimulatorCatchesAll | src/monitors/battery_monitor.py:364-396 | when the simulator at the end reads, the retry loop never reaches its last resort |
| BatteryMonitor.Drift | src/monitors/battery_monitor.py:414-432 | charging that reaches 99.9 stops at 100; draining that reaches 20 starts charging |
| BatteryMonitor.SimStep | src/monitors/battery_monitor.py:414-438 | the drift, then the 5% flip of the charging flag; the clock is recorded |
| BatteryMonitor.SimStatus | src/monitors/battery_monitor.py:440-444 | "full" from 99.9, "critical" at 5 or below, otherwise charging or discharging by the flag |
| BatteryMonitor.SimRaw | src/monitors/battery_monitor.py:446-456 | the raw dict carries the charging flag, the status and source "simulation" |
| BatteryMonitor.SimStepInRange | src/monitors/battery_monitor.py:418-447 | with the clock not running backwards a percentage in [0, 100] stays there, also after rounding |
| BatteryMonitor.SimStepBackwardsClock | src/monitors/battery_monitor.py:419-420 | a clock running backwards drains a charging battery below 0 |
| BatteryMonitor.SimFullStopsCharging | src/monitors/battery_monitor.py:423-442 | an unflipped full battery stops charging and reports "full" |
| BatteryMonitor.SimulatedBatteryMonitor.constructor | src/monitors/battery_monitor.py:402-408 | the initial percentage (85 by default), charging, and the clock |
| BatteryMonitor.SimulatedBatteryMonitor.RawInfo | src/monitors/battery_monitor.py:413-456 | the fields take one simulator step and the result is its raw dict |
| Factory.CreateBatteryMonitor | src/monitors/factory.py:37-72 | simulation wins, then universal, then the native monitor for exactly "Darwin", "Linux" or "Windows", else the simulator |
| Factory.CreateNetworkMonitor | src/monitors/factory.py:75-115 | simulation wins, then speedtest when importable, then ping when allowed, else the simulator |
| Factory.CreateCarbonMonitor | src/monitors/factory.py:118-155 | fails iff simulation is off, the key argument is empty or missing and the simulated fallback is off; simulation always gives the simulator, and an Electricity Maps monitor always has a non-empty key |
| Factory.KeyedCarbonIsElectricityMaps | src/monitors/factory.py:140-146 | with a non-empty key the Electricity Maps monitor is always taken |
| Factory.CarbonIgnoresZone | src/monitors/factory.py:118-155 | the zone argument never changes the monitor built |
| Factory.ConfigKey | src/monitors/factory.py:171-174 | the configured Electricity Maps key, if any |
| Factory.FactoryKey | src/monitors/factory.py:171-174 | the configured key when non-empty, else the environment's |
| Factory.Enabled | src/monitors/factory.py:178 | a missing `enabled` flag means enabled, and `false` means disabled |
| Factory.BatteryFor | src/monitors/factory.py:178-182 | `use_simulation: true` gives the simulator; with simulation off or missing and `use_universal` true or missing, the universal monitor |
| Factory.NetworkFor | src/monitors/factory.py:186-191 | `use_simulation: true` gives the simulator; an empty section gives speedtest when importable, else ping |
| Factory.CarbonFor | src/monitors/factory.py:195-202 | fails iff `use_simulation` is false and no non-empty key is found; a missing flag never fails; true gives the simulator |
| Factory.CreateAllMonitors | src/monitors/factory.py:158-205 | one entry per enabled signal, each the monitor its section selects; fails iff carbon is enabled and its creation fails |
| Factory.CreateAllFailsIff | src/monitors/factory.py:194-202 | fails exactly when carbon is enabled, simulation is off and no key is found |
| Factory.MissingSimulationFlagNeverFails | src/monitors/factory.py:194-202 | without a `use_simulation` flag the factory never fails |
| Factory.ConfigKeyTakesPrecedence | src/monitors/factory.py:171-174 | a configured key is used even when the environment has one |
| Factory.EmptyConfigDefaults | src/monitors/factory.py:158-205 | an empty configuration yields all three monitors: universal battery, speedtest or ping, simulated carbon |
| Platform.DetectPlatformIff | src/utils/platform.py:21-32 | each platform iff its lowercased name; unknown iff none of the three |
| Platform.DetectPlatform | src/utils/platform.py:21-32 | the platform is unknown iff the lowercased system name is none of "windows", "darwin" and "linux" |
| Platform.DetectIgnoresCase | src/utils/platform.py:23 | names that agree once lowercased get the same platform |
| Platform.ReportedNamesDetected | src/utils/platform.py:21-32 | "Windows", "Darwin" and "Linux" are recognised |
| Platform.IsMobile | src/utils/platform.py:83-86 | always false |
| Platform.GetCapabilities | src/utils/platform.py:89-99 | battery and GPU iff a known platform; network always; never mobile; server iff Linux with "server" in the lowercased release |
| Platform.ServerIsLinux | src/utils/platform.py:98 | a server is a Linux machine |
| Platform.NativeBatteryClaimsBattery | src/utils/platform.py:94 | every system (the factory's native branches at src/monitors/factory.py:61-69) the factory builds a native battery monitor for claims a battery |
| Platform.CaseSensitiveFactory | src/monitors/factory.py:61-72 | "LINUX" claims a battery, since detection lowercases the name, but the factory's exact comparison gives it the simulator |
| HistoryApi.GetDecisions | src/api/server.py:293-308 | rejects a limit outside [1, 1000] or a negative offset; otherwise the page is the `limit` entries from `offset`, as many as exist |
| HistoryApi.PagesConcatenate | src/api/server.py:300-307 | two consecutive pages make up the page of twice the size |
| HistoryApi.FindDecision | src/api/server.py:317-319 | the first entry carrying the id, none iff no entry does |
| HistoryApi.GetDecision | src/api/server.py:311-321 | the first entry with the id, or 404 |
| HistoryApi.FreshIdFoundLast | src/api/server.py:317-319 | a decision whose id is new is found after it is recorded |
| HistoryApi.AfterRecord | src/api/server.py:273-277 | the new entry is last and the result is a suffix of old history plus entry; it grows by one below 1000 entries and keeps its length from 1000 on |
| HistoryApi.RecordMatchesRetain | src/api/server.py:273-277 | on a history within capacity, append-and-pop equals the orchestrator's own trim to 1000 |
| HistoryApi.SinglePopKeepsOverflow | src/api/server.py:276-277 | on an overfull history one pop leaves it over capacity |
| HistoryApi.Successes | src/api/server.py:381-388 | the decisions a batch records, in order |
| HistoryApi.ResultOf | src/api/server.py:390-403 | a success carries its index and decision, a failure its index and error |
| HistoryApi.BatchKeepsItsDecisions | src/api/server.py:388-407 | a batch of at most 1000 successes ends the history with exactly those decisions |
| HistoryApi.SingleBatchIsRecord | src/api/server.py:388-407 | a one-request batch on a history within capacity records like a single decision |
| HistoryApi.DecisionHistory.constructor | src/api/server.py:47 | an empty history |
| HistoryApi.DecisionHistory.Record | src/api/server.py:273-277 | the history becomes the append-and-pop of the old one and stays within 1000 |
| HistoryApi.DecisionHistory.RecordBatch | src/api/server.py:363-419 | the history becomes the old one plus the successes trimmed to 1000; one result per request; successes plus failures equal the total |
| HistoryApi.CountEdge | src/api/server.py:342 | the number of entries whose mode is the literal "EDGE", at most the length |
| HistoryApi.Scores | src/api/server.py:345 | one score per entry |
| HistoryApi.Confidences | src/api/server.py:346 | one confidence per entry |
| HistoryApi.Percentages | src/api/server.py:352-353 | the two percentages lie in [0, 100] and add up to 100 |
| HistoryApi.Aggregate | src/api/server.py:341-360 | the totals, cloud = total − edge, each percentage its count over the total times 100 (summing to 100), the averages the means of scores and confidences (between min and max), first and last timestamps |
| HistoryApi.ServerStatistics | src/api/server.py:324-360 | all zeros and no time range for an empty history, exactly the aggregate otherwise |
| HistoryApi.RootStatistics | api_server.py:265-290 | a "No decisions made yet" message for an empty history, otherwise the same statistics as the package server |
| HistoryApi.EnumModesNeverEdge | src/api/server.py:342 | when every mode is an `ExecutionMode` value the "EDGE" count is 0 |
| HistoryApi.EnumModesAllCloud | src/api/server.py:341-353 | so such a history reports every decision as cloud, 100% |
| HistoryApi.ValidateRange | src/api/server.py:81-91 | passes iff the value is absent or within [lo, hi]; a failure carries the validator's message |
| HistoryApi.ValidateBattery | src/api/server.py:81-85 | passes iff the battery percentage is absent or in [0, 100], else fails with its message |
| HistoryApi.ValidateNetworkQuality | src/api/server.py:87-91 | passes iff the network quality is absent or in [0, 1], else fails with its message |
| HistoryApi.ValidateThreshold | src/api/server.py:119-123 | passes iff the threshold is absent or in [0, 1], else fails with its message |
| HistoryApi.ValidateWeights | src/api/server.py:111-117 | passes iff the weights are absent or sum to 1 within 0.01 |
| HistoryApi.ConfigWeightsAccepted | src/api/server.py:111-117 | weights the configuration's 0.001 check accepts are accepted by the API |
| HistoryApi.ApiToleranceLooser | src/api/server.py:115 | 0.5/0.3/0.205 passes the API's 0.01 check but fails the configuration's 0.001 check |

## Left out

- ParsePmset, PmsetLine, PmsetLines, PmsetRaw, PmsetLastLineWins: the loop method and `StatusOrder.AsWritten` follow the code as written; `StatusOrder.Corrected` is the corrected test of the first finding, not the program's behaviour.
- SysfsInfo: its no-status-file case is the corrected behaviour of the second finding; as written that case raises (`ReadSysfsAsWritten`).
- LinuxRaw: built on the corrected `ReadSysfs`; the Linux monitor as written is `LinuxRawAsWritten`, which also raises when the first readable sysfs battery has no status file.
- Platform I/O is not modelled: subprocess calls (`pmset`, PowerShell, `ping`), file reads under `/sys` and `/proc`, HTTP requests and `os.path.exists`. Their outcomes are parameters.
- `SpeedTestMonitor._get_raw_network_info` is not modelled. It wraps the external `speedtest` library; only whether it can be imported is a parameter.
- `PingMonitor._ping_host` is not modelled. Its output parsing uses `re`, which `network_monitor.py` never imports, so each call raises and the host loop counts it as a failed host. The model's `ping` parameter stands for the per-host outcome.
- The clock, the random draws and the square root are parameters. Floats are exact reals, and `round` is round-half-even on exact values, so binary floating-point effects are not captured.
- Lower-casing is ASCII only, as in `Text.Lower`.
- `format_metrics` is modelled up to its first line only. The later lines are float formatting.
- `get_platform_info`, the logging setup, `save_decision_history` and `_initialize_monitors` of the engine are left out. They are reporting and I/O around the modelled decisions.
- The servers' decision calls are not modelled, because they fail as written. Both servers call `make_decision` with keyword arguments (src/api/server.py:263-267, src/api/server.py:381-385, api_server.py:171, api_server.py:234), which `make_decision(self)` (src/orchestrator/decision_engine.py:181) rejects. They then call `to_dict` on the decision, `collect_context` and `_save_decision`, none of which `Decision` (src/orchestrator/models.py:30-41) or the engine defines. So every POST /decision takes the 500 path, every batch item fails, and `decision_history` stays empty for the statistics and lookup endpoints. The `HistoryApi` members model the list logic as it would run if that call succeeded: the entry passed to `HistoryApi.DecisionHistory.Record` and the `outcomes` of `HistoryApi.DecisionHistory.RecordBatch` stand for its results.
- The HTTP request/response plumbing (FastAPI, pydantic `Field` bounds, background tasks, the 503 and 500 paths) is not modelled. Only the validators' own checks are. FastAPI reports every invalid query parameter, while `HistoryApi.GetDecisions` reports the first.
- The package server's batch result projection (`decision_id`, `execution_mode`, `score`) and the root server's full decision are both abstracted to the decision entry in `HistoryApi.BatchResult`.
- Configuration values are typed (real, bool, string). A wrongly typed value in the loaded dictionary, or NaN, is not modelled.
- The empty-weights test at the end of `validate()` (src/orchestrator/models.py:82-83) is not modelled. It cannot fire after the sum check, as `Models.EmptyWeightsRejected` shows.
- The universal battery monitor's branch for no monitor being available (src/monitors/battery_monitor.py:378-379) is not modelled. It cannot be reached, since the simulator is always in the list, as `BatteryMonitor.UniversalChoice` shows.
- The JSON parsing of the PowerShell output on Windows, including the list-or-object choice, is not modelled. The parsed percentage and status code are parameters of `BatteryMonitor.WindowsRaw`.
- `NetworkMonitor.SimulatedNetworkMonitor.RawInfo`: the draws come in as parameters, so the contract does not state their ranges; `NetworkMonitor.BandsOrdered` and `NetworkMonitor.SimulatedRawBounds` state what holds for in-range draws.

## Findings

| source | as written | input that shows it | evidently intended | confidence | as-written member | corrected member |
|---|---|---|---|---|---|---|
| src/monitors/battery_monitor.py:107-112 | `'charging' in s` is tested before `'discharging' in s`, and "charging" is a substring of "discharging", so the discharging branch is unreachable | pmset field `"67%; discharging;"` is reported as charging | test "discharging" first | high, not executed | BatteryMonitor.ClassifyAsWritten (with BatteryMonitor.DischargingCounterexample) | BatteryMonitor.Classify |
| src/monitors/battery_monitor.py:194-207 | `is_charging` is assigned only when the status file exists, so the return raises `UnboundLocalError`, which the `except (IOError, ValueError)` does not catch | BAT0 with capacity 50 and no status file: a bare `LinuxBatteryMonitor` reports the 85%-charging fallback; the default universal monitor catches the crash and reports the simulator's reading instead of the battery's | default `is_charging` to False next to `status = "unknown"` | high, not executed | BatteryMonitor.ReadSysfsAsWritten (with BatteryMonitor.MissingStatusCounterexample) | BatteryMonitor.ReadSysfs |
| src/orchestrator/decision_engine.py:288-289, src/orchestrator/decision_engine.py:296 | `h[-n:]` with n = 0 is `h[0:]`, the whole list | `decision_history_size = 0` keeps every decision; `get_recent_decisions(0)` returns the whole history | keep or return the newest n entries, none for n = 0 | medium, not executed | DecisionEngine.RetainZeroKeepsAll (with DecisionEngine.RecentZeroReturnsAll) | DecisionEngine.Newest (with DecisionEngine.NewestMatchesRetain) |

The model also records behaviour that looks unintended but is not a wrong
result for any single call:

- `CarbonMonitor.ReportedGreenButFlaggedNot`: the simulated carbon monitor decides "green" before rounding, so 300.04 is reported as 300.0 yet not green.
- `HistoryApi.EnumModesNeverEdge`: the statistics endpoints count the literal `"EDGE"`, which no execution mode's value equals.
- `HistoryApi.ApiToleranceLooser`: the API accepts weights within 0.01 of 1, while the configuration demands 0.001.
- `Platform.CaseSensitiveFactory`: detection lowercases the system name, but the factory compares it exactly.
- `Factory.CarbonIgnoresZone`: the factory ignores the `zone` argument.
- `Factory.KeyedCarbonIsElectricityMaps`: with a key, the factory's "not available" branch is dead, since `is_available` only checks the key.
- `CarbonMonitor.EmptyKeyAvailableButFallsBack`: an empty key counts as available but always falls back.
- `Models.PartialUpdateDrifts`: `update_weights` checks only the new weights' sum.
- `DecisionEngine.OpaqueMonitorsAlwaysDefer`: no monitor class defines `get_level`, `read`, `battery_level`, `get_speed`, `network_quality`, `get_carbon_intensity` or `carbon_intensity`, so the engine reads 0.5 for every signal and, under the default configuration, every decision is DEFERRED with score 0.5, whatever the battery, network or grid.
