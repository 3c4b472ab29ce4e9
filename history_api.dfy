/**
 * The in-memory decision history of the two HTTP front ends
 * (src/api/server.py and api_server.py): the global list both append to and
 * trim, its pagination, lookup by id and statistics, and the request
 * validators of src/api/server.py. The decision engine call behind each
 * request is a parameter: its outcome (an entry or an error message).
 */
module HistoryApi {
  import opened Common
  import Models
  import DecisionEngine

  /** Both servers keep at most this many decisions. */
  const HistoryCapacity: nat := 1000
  /** The query bounds of `GET /decisions`. */
  const MaxLimit: int := 1000
  const DefaultLimit: int := 100
  /** `HTTPException(status_code=404)`. */
  const NotFound: nat := 404

  /** The fields of a decision dict the history handlers read. */
  datatype HistoryEntry = HistoryEntry(
    decisionId: Option<string>,
    executionMode: string,
    score: real,
    confidence: real,
    timestamp: string)

  // ---------------------------------------------------------------------
  // GET /decisions
  // ---------------------------------------------------------------------

  /** The query parameter rejected first (FastAPI answers 422). */
  datatype QueryError = LimitOutOfRange(limit: int) | OffsetNegative(offset: int)

  datatype Page = Page(total: nat, offset: int, limit: int, decisions: seq<HistoryEntry>)

  /** `get_decisions(limit, offset)`, the same in both servers. */
  function GetDecisions(h: seq<HistoryEntry>, limit: int, offset: int): (r: Result<Page, QueryError>)
    ensures r.Err? <==> !(1 <= limit <= MaxLimit) || offset < 0
    ensures r.Ok? ==> r.value.total == |h| && r.value.offset == offset && r.value.limit == limit
    ensures r.Ok? ==> |r.value.decisions| <= limit
    ensures r.Ok? && offset >= |h| ==> r.value.decisions == []
    ensures r.Ok? && offset < |h| ==> |r.value.decisions| == if offset + limit <= |h| then limit else |h| - offset
    ensures r.Ok? ==> forall i :: 0 <= i < |r.value.decisions| ==> offset + i < |h| && r.value.decisions[i] == h[offset + i]
  {
    if !(1 <= limit <= MaxLimit) then Err(LimitOutOfRange(limit))
    else if offset < 0 then Err(OffsetNegative(offset))
    else
      var start := if offset <= |h| then offset else |h|;
      var end := if start + limit <= |h| then start + limit else |h|;
      Ok(Page(|h|, offset, limit, h[start..end]))
  }

  /** Two consecutive pages put together are the page of twice the size: paging neither skips nor repeats. */
  lemma PagesConcatenate(h: seq<HistoryEntry>, limit: int, offset: int)
    requires 1 <= limit && 2 * limit <= MaxLimit && offset >= 0
    ensures GetDecisions(h, limit, offset).value.decisions + GetDecisions(h, limit, offset + limit).value.decisions
         == GetDecisions(h, 2 * limit, offset).value.decisions
  {
    var a := GetDecisions(h, limit, offset).value.decisions;
    var b := GetDecisions(h, limit, offset + limit).value.decisions;
    var c := GetDecisions(h, 2 * limit, offset).value.decisions;
    assert |a + b| == |c|;
    forall i | 0 <= i < |c|
      ensures (a + b)[i] == c[i]
    {
      if i >= |a| {
        assert (a + b)[i] == b[i - |a|];
      }
    }
  }

  // ---------------------------------------------------------------------
  // GET /decisions/{decision_id}
  // ---------------------------------------------------------------------

  /** The position of the first entry whose `decision_id` is `id`. */
  function FindDecision(h: seq<HistoryEntry>, id: string): (r: Option<nat>)
    ensures r.Some? ==> r.value < |h| && h[r.value].decisionId == Some(id)
    ensures r.Some? ==> forall j :: 0 <= j < r.value ==> h[j].decisionId != Some(id)
    ensures r.None? ==> forall j :: 0 <= j < |h| ==> h[j].decisionId != Some(id)
    decreases |h|
  {
    if h == [] then None
    else if h[0].decisionId == Some(id) then Some(0)
    else match FindDecision(h[1..], id)
      case None => None
      case Some(i) => Some(i + 1)
  }

  /** `get_decision(decision_id)`: the first match, or 404. */
  function GetDecision(h: seq<HistoryEntry>, id: string): (r: Result<HistoryEntry, nat>)
    ensures r.Err? <==> forall j :: 0 <= j < |h| ==> h[j].decisionId != Some(id)
    ensures r.Err? ==> r.error == NotFound
    ensures r.Ok? ==> r.value.decisionId == Some(id)
    ensures r.Ok? ==> exists i :: 0 <= i < |h| && h[i] == r.value && forall j :: 0 <= j < i ==> h[j].decisionId != Some(id)
  {
    match FindDecision(h, id)
    case None => Err(NotFound)
    case Some(i) => Ok(h[i])
  }

  /** A decision recorded under a fresh id is found again, at the end. */
  lemma {:induction false} FreshIdFoundLast(h: seq<HistoryEntry>, e: HistoryEntry, id: string)
    requires e.decisionId == Some(id)
    requires forall j :: 0 <= j < |h| ==> h[j].decisionId != Some(id)
    ensures FindDecision(h + [e], id) == Some(|h|)
    decreases |h|
  {
    if h != [] {
      assert (h + [e])[1..] == h[1..] + [e];
      FreshIdFoundLast(h[1..], e, id);
    }
  }

  // ---------------------------------------------------------------------
  // POST /decision and the batch endpoint: appending and trimming
  // ---------------------------------------------------------------------

  /** The history after one append followed by a single `pop(0)` when it grew past the capacity. */
  function AfterRecord(h: seq<HistoryEntry>, e: HistoryEntry): (r: seq<HistoryEntry>)
    ensures |r| >= 1 && r[|r| - 1] == e
    ensures |r| <= |h| + 1 && r == (h + [e])[|h| + 1 - |r|..]
    ensures |h| < HistoryCapacity ==> |r| == |h| + 1
    ensures |h| >= HistoryCapacity ==> |r| == |h|
  {
    var appended := h + [e];
    if |appended| > HistoryCapacity then appended[1..] else appended
  }

  /** Up to the capacity, the single pop agrees with trimming to the newest 1000. */
  lemma RecordMatchesRetain(h: seq<HistoryEntry>, e: HistoryEntry)
    requires |h| <= HistoryCapacity
    ensures AfterRecord(h, e) == DecisionEngine.Retain(h + [e], HistoryCapacity)
    ensures |AfterRecord(h, e)| <= HistoryCapacity
  {
    DecisionEngine.RetainBounded(h + [e], HistoryCapacity);
  }

  /** A single pop only removes one entry, so a history already past the capacity stays past it. */
  lemma SinglePopKeepsOverflow(h: seq<HistoryEntry>, e: HistoryEntry)
    requires |h| > HistoryCapacity
    ensures |AfterRecord(h, e)| == |h| > HistoryCapacity
  {
  }

  /** The entries of the successful outcomes, in request order. */
  function Successes(outcomes: seq<Result<HistoryEntry, string>>): (r: seq<HistoryEntry>)
    ensures |r| <= |outcomes|
    ensures forall e :: e in r ==> Ok(e) in outcomes
  {
    if outcomes == [] then []
    else
      var last := outcomes[|outcomes| - 1];
      Successes(outcomes[..|outcomes| - 1]) + if last.Ok? then [last.value] else []
  }

  /** One entry of the batch response; src/api/server.py shows a projection of the entry, api_server.py all of it. */
  datatype BatchResult = Succeeded(index: nat, entry: HistoryEntry) | Failed(index: nat, error: string)

  function ResultOf(i: nat, outcome: Result<HistoryEntry, string>): (r: BatchResult)
    ensures r.index == i
    ensures r.Succeeded? <==> outcome.Ok?
  {
    match outcome
    case Ok(e) => Succeeded(i, e)
    case Err(msg) => Failed(i, msg)
  }

  datatype BatchSummary = BatchSummary(total: nat, successful: nat, failed: nat)

  /** A batch of successes that fits the capacity ends the trimmed history, in order. */
  lemma BatchKeepsItsDecisions(h: seq<HistoryEntry>, outcomes: seq<Result<HistoryEntry, string>>)
    requires |Successes(outcomes)| <= HistoryCapacity
    ensures var kept := DecisionEngine.Retain(h + Successes(outcomes), HistoryCapacity);
      && |kept| <= HistoryCapacity
      && |kept| >= |Successes(outcomes)|
      && kept[|kept| - |Successes(outcomes)|..] == Successes(outcomes)
  {
    var s := Successes(outcomes);
    var all := h + s;
    DecisionEngine.RetainBounded(all, HistoryCapacity);
    var kept := DecisionEngine.Retain(all, HistoryCapacity);
    assert kept == all[|all| - |kept|..];
    assert all[|all| - |s|..] == s;
  }

  /** A batch of one successful request leaves the history as the single endpoint does. */
  lemma SingleBatchIsRecord(h: seq<HistoryEntry>, e: HistoryEntry)
    requires |h| <= HistoryCapacity
    ensures DecisionEngine.Retain(h + Successes([Ok(e)]), HistoryCapacity) == AfterRecord(h, e)
  {
    var one: seq<Result<HistoryEntry, string>> := [Ok(e)];
    assert one[..0] == [];
    assert Successes(one) == [e];
    RecordMatchesRetain(h, e);
  }

  /** The global `decision_history` list of either server. */
  class DecisionHistory {
    var entries: seq<HistoryEntry>

    ghost predicate Valid()
      reads this
    {
      |entries| <= HistoryCapacity
    }

    /** `decision_history = []` at start-up. */
    constructor ()
      ensures entries == [] && Valid()
    {
      entries := [];
    }

    /** `make_decision`: append, then `pop(0)` when the list grew past 1000. */
    method Record(e: HistoryEntry)
      modifies this
      ensures entries == AfterRecord(old(entries), e)
      ensures old(Valid()) ==> Valid()
    {
      entries := entries + [e];
      if |entries| > HistoryCapacity {
        entries := entries[1..];
      }
    }

    /**
     * `make_batch_decisions`: every successful outcome is appended in order,
     * each request gets a result at its index, and the list is trimmed to its
     * newest 1000 once at the end.
     */
    method RecordBatch(outcomes: seq<Result<HistoryEntry, string>>) returns (results: seq<BatchResult>, summary: BatchSummary)
      modifies this
      ensures entries == DecisionEngine.Retain(old(entries) + Successes(outcomes), HistoryCapacity)
      ensures Valid()
      ensures |results| == |outcomes|
      ensures forall i :: 0 <= i < |outcomes| ==> results[i] == ResultOf(i, outcomes[i])
      ensures summary.total == |outcomes| && summary.successful == |Successes(outcomes)|
      ensures summary.successful + summary.failed == summary.total
    {
      results := [];
      var successful := 0;
      var failed := 0;
      var start := entries;
      var i := 0;
      while i < |outcomes|
        invariant 0 <= i <= |outcomes|
        invariant entries == start + Successes(outcomes[..i])
        invariant |results| == i
        invariant forall j :: 0 <= j < i ==> results[j] == ResultOf(j, outcomes[j])
        invariant successful == |Successes(outcomes[..i])| && successful + failed == i
      {
        assert outcomes[..i + 1][..i] == outcomes[..i];
        match outcomes[i] {
          case Ok(e) =>
            entries := entries + [e];
            successful := successful + 1;
          case Err(_) =>
            failed := failed + 1;
        }
        results := results + [ResultOf(i, outcomes[i])];
        i := i + 1;
      }
      assert outcomes[..i] == outcomes;
      if |entries| > HistoryCapacity {
        entries := PyTail(entries, HistoryCapacity);
      }
      DecisionEngine.RetainBounded(start + Successes(outcomes), HistoryCapacity);
      summary := BatchSummary(|outcomes|, successful, failed);
    }
  }

  // ---------------------------------------------------------------------
  // GET /stats
  // ---------------------------------------------------------------------

  /** The number of entries whose mode is the literal string "EDGE". */
  function CountEdge(h: seq<HistoryEntry>): (r: nat)
    ensures r <= |h|
  {
    if h == [] then 0
    else CountEdge(h[..|h| - 1]) + if h[|h| - 1].executionMode == "EDGE" then 1 else 0
  }

  function Scores(h: seq<HistoryEntry>): (r: seq<real>)
    ensures |r| == |h| && forall i :: 0 <= i < |h| ==> r[i] == h[i].score
  {
    seq(|h|, i requires 0 <= i < |h| => h[i].score)
  }

  function Confidences(h: seq<HistoryEntry>): (r: seq<real>)
    ensures |r| == |h| && forall i :: 0 <= i < |h| ==> r[i] == h[i].confidence
  {
    seq(|h|, i requires 0 <= i < |h| => h[i].confidence)
  }

  datatype HistoryStats = HistoryStats(
    total: nat,
    edge: nat,
    cloud: int,
    edgePercentage: real,
    cloudPercentage: real,
    averageScore: real,
    averageConfidence: real,
    first: Option<string>,
    last: Option<string>)

  lemma DivideSum(a: real, b: real, n: real)
    requires n > 0.0
    ensures a / n + b / n == (a + b) / n
  {
  }

  lemma DivideAtMost(a: real, n: real)
    requires n > 0.0 && 0.0 <= a <= n
    ensures 0.0 <= a / n <= 1.0
  {
  }

  /** The edge and cloud shares of a non-empty total are percentages that add up to 100. */
  lemma Percentages(edge: nat, total: nat)
    requires 0 < total && edge <= total
    ensures 0.0 <= edge as real / total as real * 100.0 <= 100.0
    ensures edge as real / total as real * 100.0 == 0.0 <==> edge == 0
    ensures edge as real / total as real * 100.0 + (total - edge) as real / total as real * 100.0 == 100.0
  {
    var n := total as real;
    var e := edge as real;
    var c := (total - edge) as real;
    DivideSum(e, c, n);
    DivideAtMost(e, n);
    var p := e / n;
    var q := c / n;
    assert p + q == n / n == 1.0;
    assert p * 100.0 + q * 100.0 == (p + q) * 100.0;
  }

  /** The statistics of a non-empty history, as both servers compute them. */
  function Aggregate(h: seq<HistoryEntry>): (r: HistoryStats)
    requires |h| > 0
    ensures r.total == |h| && r.edge == CountEdge(h) && r.cloud >= 0 && r.edge + r.cloud == r.total
    ensures 0.0 <= r.edgePercentage <= 100.0 && r.edgePercentage + r.cloudPercentage == 100.0
    ensures r.edgePercentage == r.edge as real / r.total as real * 100.0
    ensures r.cloudPercentage == r.cloud as real / r.total as real * 100.0
    ensures r.edgePercentage == 0.0 <==> r.edge == 0
    ensures r.averageScore == Mean(Scores(h)) && r.averageConfidence == Mean(Confidences(h))
    ensures SeqMin(Scores(h)) <= r.averageScore <= SeqMax(Scores(h))
    ensures SeqMin(Confidences(h)) <= r.averageConfidence <= SeqMax(Confidences(h))
    ensures r.first == Some(h[0].timestamp) && r.last == Some(h[|h| - 1].timestamp)
  {
    var total := |h|;
    var edge := CountEdge(h);
    var cloud := total - edge;
    var edgePct := edge as real / total as real * 100.0;
    var cloudPct := cloud as real / total as real * 100.0;
    Percentages(edge, total);
    MeanBetweenMinMax(Scores(h));
    MeanBetweenMinMax(Confidences(h));
    HistoryStats(total, edge, cloud, edgePct, cloudPct, Mean(Scores(h)), Mean(Confidences(h)),
      Some(h[0].timestamp), Some(h[|h| - 1].timestamp))
  }

  /** `get_statistics()` of src/api/server.py: every field zero and no time range on an empty history. */
  function ServerStatistics(h: seq<HistoryEntry>): (r: HistoryStats)
    ensures r.total == |h| && r.edge + r.cloud == r.total && r.cloud >= 0
    ensures h == [] ==> r == HistoryStats(0, 0, 0, 0.0, 0.0, 0.0, 0.0, None, None)
    ensures h != [] ==> r == Aggregate(h)
    ensures h != [] ==> r.edgePercentage + r.cloudPercentage == 100.0 && r.first.Some? && r.last.Some?
  {
    if h == [] then HistoryStats(0, 0, 0, 0.0, 0.0, 0.0, 0.0, None, None)
    else Aggregate(h)
  }

  datatype RootStatsResponse = NoDecisionsYet(message: string) | Stats(stats: HistoryStats)

  /** `get_statistics()` of api_server.py: only a message on an empty history, otherwise the same figures as src/api/server.py. */
  function RootStatistics(h: seq<HistoryEntry>): (r: RootStatsResponse)
    ensures r.NoDecisionsYet? <==> h == []
    ensures r.Stats? ==> r.stats == ServerStatistics(h) && r.stats.first == Some(h[0].timestamp)
  {
    if h == [] then NoDecisionsYet("No decisions made yet")
    else Stats(Aggregate(h))
  }

  /**
   * Entries whose mode is the value of an `ExecutionMode` member never count
   * as edge: the statistics compare against "EDGE", which no member has.
   */
  lemma {:induction false} EnumModesNeverEdge(h: seq<HistoryEntry>)
    requires forall i :: 0 <= i < |h| ==> Models.ModeOfValue(h[i].executionMode).Some?
    ensures CountEdge(h) == 0
    decreases |h|
  {
    if h != [] {
      var init := h[..|h| - 1];
      EnumModesNeverEdge(init);
      var m := Models.ModeOfValue(h[|h| - 1].executionMode).value;
      assert m.Value() != "EDGE";
    }
  }

  /** So a history of enum values reports every decision as cloud. */
  lemma EnumModesAllCloud(h: seq<HistoryEntry>)
    requires h != []
    requires forall i :: 0 <= i < |h| ==> Models.ModeOfValue(h[i].executionMode).Some?
    ensures ServerStatistics(h).cloud == |h| && ServerStatistics(h).cloudPercentage == 100.0
  {
    EnumModesNeverEdge(h);
  }

  // ---------------------------------------------------------------------
  // Request validators of src/api/server.py
  // ---------------------------------------------------------------------

  /** A range validator: `None` passes, a present value must lie in [lo, hi]. */
  function ValidateRange(v: Option<real>, lo: real, hi: real, message: string): (r: Outcome<string>)
    requires lo <= hi
    ensures r.Pass? <==> v.None? || Clamp(lo, hi, v.value) == v.value
    ensures r.Fail? ==> r.error == message
  {
    if v.Some? && !(lo <= v.value <= hi) then Fail(message) else Pass
  }

  /** `validate_battery`. */
  function ValidateBattery(v: Option<real>): (r: Outcome<string>)
    ensures r.Pass? <==> v.None? || 0.0 <= v.value <= 100.0
    ensures r.Fail? ==> r.error == "Battery percentage must be between 0 and 100"
  {
    ValidateRange(v, 0.0, 100.0, "Battery percentage must be between 0 and 100")
  }

  /** `validate_network_quality`. */
  function ValidateNetworkQuality(v: Option<real>): (r: Outcome<string>)
    ensures r.Pass? <==> v.None? || 0.0 <= v.value <= 1.0
    ensures r.Fail? ==> r.error == "Network quality must be between 0 and 1"
  {
    ValidateRange(v, 0.0, 1.0, "Network quality must be between 0 and 1")
  }

  /** `validate_threshold`. */
  function ValidateThreshold(v: Option<real>): (r: Outcome<string>)
    ensures r.Pass? <==> v.None? || 0.0 <= v.value <= 1.0
    ensures r.Fail? ==> r.error == "Threshold must be between 0 and 1"
  {
    ValidateRange(v, 0.0, 1.0, "Threshold must be between 0 and 1")
  }

  /** The tolerance of the request's weight-sum check. */
  const ApiWeightTolerance: real := 0.01

  ghost predicate ApiWeightsAccepted(w: map<string, real>)
  {
    Abs(SumValues(w) - 1.0) <= ApiWeightTolerance
  }

  /** `validate_weights`: absent weights pass; present ones must sum to 1 within 0.01. */
  method ValidateWeights(v: Option<map<string, real>>) returns (r: Outcome<string>)
    ensures r.Pass? <==> v.None? || ApiWeightsAccepted(v.value)
  {
    if v.Some? {
      var total := SumOfValues(v.value);
      if Abs(total - 1.0) > ApiWeightTolerance {
        return Fail("Weights must sum to approximately 1.0");
      }
    }
    return Pass;
  }

  /** Weights the configuration accepts are accepted by the request validator. */
  lemma ConfigWeightsAccepted(w: map<string, real>)
    requires Models.WeightsSumToOne(w)
    ensures ApiWeightsAccepted(w)
  {
  }

  /** The converse fails: weights summing to 1.005 pass the request validator and fail the configuration's check. */
  lemma ApiToleranceLooser()
    ensures var w := map["battery" := 0.5, "network" := 0.3, "carbon" := 0.205];
      ApiWeightsAccepted(w) && !Models.WeightsSumToOne(w)
  {
    SumValuesOfThree("battery", 0.5, "network", 0.3, "carbon", 0.205);
  }
}
