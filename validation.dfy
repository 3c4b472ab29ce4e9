/**
 * The configuration and reading validators (src/utils/validation.py).
 * `validate_config` collects one error per problem it finds; the error
 * messages are represented by the datatype they are formatted from.
 */
module Validation {
  import opened Common
  import opened ConfigData

  datatype ValidationError =
    | MissingSection(section: string)
    | MissingWeight(weight: string)
    | WeightSumOff(total: real)

  const RequiredSections: seq<string> := ["orchestrator", "monitors"]
  /** The three signals: the required weight keys and the required readings. */
  const SignalNames: seq<string> := ["battery", "network", "carbon"]

  /** `section in config_data`, for the two sections the validator asks about. */
  predicate HasSection(doc: ConfigDoc, section: string)
  {
    (section == "orchestrator" && doc.orchestrator.Some?) || (section == "monitors" && doc.monitors.Some?)
  }

  /** The "Missing required section" errors for `sections`, in order. */
  function SectionErrors(doc: ConfigDoc, sections: seq<string>): (r: seq<ValidationError>)
    ensures |r| <= |sections|
    ensures forall e :: e in r ==> e.MissingSection? && e.section in sections && !HasSection(doc, e.section)
  {
    if sections == [] then []
    else
      var last := sections[|sections| - 1];
      SectionErrors(doc, sections[..|sections| - 1])
        + if HasSection(doc, last) then [] else [MissingSection(last)]
  }

  /** The "Missing weight" errors for `names`, in order. */
  function WeightErrors(weights: map<string, real>, names: seq<string>): (r: seq<ValidationError>)
    ensures |r| <= |names|
    ensures forall e :: e in r ==> e.MissingWeight? && e.weight in names && e.weight !in weights
  {
    if names == [] then []
    else
      var last := names[|names| - 1];
      WeightErrors(weights, names[..|names| - 1])
        + if last in weights then [] else [MissingWeight(last)]
  }

  lemma SectionErrorsStep(doc: ConfigDoc, sections: seq<string>, i: nat)
    requires i < |sections|
    ensures SectionErrors(doc, sections[..i + 1])
         == SectionErrors(doc, sections[..i]) + if HasSection(doc, sections[i]) then [] else [MissingSection(sections[i])]
  {
    assert sections[..i + 1][..i] == sections[..i];
  }

  lemma WeightErrorsStep(weights: map<string, real>, names: seq<string>, i: nat)
    requires i < |names|
    ensures WeightErrors(weights, names[..i + 1])
         == WeightErrors(weights, names[..i]) + if names[i] in weights then [] else [MissingWeight(names[i])]
  {
    assert names[..i + 1][..i] == names[..i];
  }

  /** The errors of a present `weights` dict: missing keys, then an off sum. */
  ghost function WeightsErrors(weights: map<string, real>): seq<ValidationError>
  {
    var total := SumValues(weights);
    WeightErrors(weights, SignalNames) + if Abs(total - 1.0) > 0.001 then [WeightSumOff(total)] else []
  }

  /** The whole error list of `validate_config`. */
  ghost function ConfigErrors(doc: ConfigDoc): (r: seq<ValidationError>)
    ensures doc.orchestrator.None? ==> r == SectionErrors(doc, RequiredSections)
  {
    SectionErrors(doc, RequiredSections)
      + match doc.orchestrator
        case Some(OrchestratorSection(Some(weights), _, _, _)) => WeightsErrors(weights)
        case _ => []
  }

  /** `validate_config(config_data)`: the flag and the error list. */
  method ValidateConfig(doc: ConfigDoc) returns (ok: bool, errors: seq<ValidationError>)
    ensures errors == ConfigErrors(doc)
    ensures ok <==> errors == []
  {
    errors := [];
    var i := 0;
    while i < |RequiredSections|
      invariant 0 <= i <= |RequiredSections|
      invariant errors == SectionErrors(doc, RequiredSections[..i])
    {
      var section := RequiredSections[i];
      SectionErrorsStep(doc, RequiredSections, i);
      if !HasSection(doc, section) {
        errors := errors + [MissingSection(section)];
      }
      i := i + 1;
    }
    assert RequiredSections[..i] == RequiredSections;
    if doc.orchestrator.Some? && doc.orchestrator.value.weights.Some? {
      var weights := doc.orchestrator.value.weights.value;
      var sectionErrors := errors;
      var j := 0;
      while j < |SignalNames|
        invariant 0 <= j <= |SignalNames|
        invariant errors == sectionErrors + WeightErrors(weights, SignalNames[..j])
      {
        var weight := SignalNames[j];
        WeightErrorsStep(weights, SignalNames, j);
        if weight !in weights {
          errors := errors + [MissingWeight(weight)];
        }
        j := j + 1;
      }
      assert SignalNames[..j] == SignalNames;
      var total := SumOfValues(weights);
      if Abs(total - 1.0) > 0.001 {
        errors := errors + [WeightSumOff(total)];
      }
    }
    ok := |errors| == 0;
  }

  lemma {:induction false} SectionErrorsEmpty(doc: ConfigDoc, sections: seq<string>)
    ensures SectionErrors(doc, sections) == [] <==> forall s :: s in sections ==> HasSection(doc, s)
  {
    if sections != [] {
      var init := sections[..|sections| - 1];
      SectionErrorsEmpty(doc, init);
      assert forall s :: s in sections <==> s in init || s == sections[|sections| - 1];
    }
  }

  lemma {:induction false} WeightErrorsEmpty(weights: map<string, real>, names: seq<string>)
    ensures WeightErrors(weights, names) == [] <==> forall n :: n in names ==> n in weights
  {
    if names != [] {
      var init := names[..|names| - 1];
      WeightErrorsEmpty(weights, init);
      assert forall n :: n in names <==> n in init || n == names[|names| - 1];
    }
  }

  /**
   * A configuration passes iff both sections are present and, when the
   * orchestrator section has weights, all three are there and they sum to 1
   * within 0.001.
   */
  lemma ConfigValidIff(doc: ConfigDoc)
    ensures ConfigErrors(doc) == [] <==>
      && doc.orchestrator.Some? && doc.monitors.Some?
      && (doc.orchestrator.value.weights.Some? ==>
            var w := doc.orchestrator.value.weights.value;
            "battery" in w && "network" in w && "carbon" in w && Abs(SumValues(w) - 1.0) <= 0.001)
  {
    SectionErrorsEmpty(doc, RequiredSections);
    assert forall s :: s in RequiredSections <==> s == "orchestrator" || s == "monitors";
    if doc.orchestrator.Some? && doc.orchestrator.value.weights.Some? {
      var w := doc.orchestrator.value.weights.value;
      WeightErrorsEmpty(w, SignalNames);
      assert forall n :: n in SignalNames <==> n == "battery" || n == "network" || n == "carbon";
    }
  }

  /** Each missing section adds exactly one error, and without an orchestrator section nothing else is reported. */
  lemma MissingSectionsCounted(doc: ConfigDoc)
    requires doc.orchestrator.None?
    ensures ConfigErrors(doc) == [MissingSection("orchestrator")] + if doc.monitors.Some? then [] else [MissingSection("monitors")]
  {
    assert RequiredSections[..1] == ["orchestrator"];
    assert ["orchestrator"][..0] == [];
    assert SectionErrors(doc, ["orchestrator"]) == [MissingSection("orchestrator")];
  }

  // ---------------------------------------------------------------------
  // validate_monitor_data
  // ---------------------------------------------------------------------

  /**
   * A value in the readings dict. `bool` is a subclass of `int` in Python, so
   * a flag passes the numeric test and compares as 0 or 1.
   */
  datatype Reading = Num(x: real) | Flag(b: bool) | NonNumeric

  /** The number a reading stands for when `isinstance(value, (int, float))` holds. */
  function NumericValue(v: Reading): (r: Option<real>)
    ensures r.None? <==> v.NonNumeric?
  {
    match v
    case Num(x) => Some(x)
    case Flag(b) => Some(if b then 1.0 else 0.0)
    case NonNumeric => None
  }

  /** The reading is present, numeric and within [0, 1]. */
  predicate AcceptedReading(values: map<string, Reading>, key: string)
  {
    key in values && NumericValue(values[key]).Some? && 0.0 <= NumericValue(values[key]).value <= 1.0
  }

  /** One signal whose reading is not accepted fails the whole check. */
  lemma RejectedKey(values: map<string, Reading>, i: nat)
    requires i < |SignalNames| && !AcceptedReading(values, SignalNames[i])
    ensures !forall k :: k in SignalNames ==> AcceptedReading(values, k)
  {
    assert SignalNames[i] in SignalNames;
  }

  /** `validate_monitor_data(monitor_values)`: returns at the first key that fails. */
  method ValidateMonitorData(values: map<string, Reading>) returns (ok: bool)
    ensures ok <==> forall k :: k in SignalNames ==> AcceptedReading(values, k)
  {
    var i := 0;
    while i < |SignalNames|
      invariant 0 <= i <= |SignalNames|
      invariant forall j :: 0 <= j < i ==> AcceptedReading(values, SignalNames[j])
    {
      var key := SignalNames[i];
      if key !in values {
        RejectedKey(values, i);
        return false;
      }
      var value := values[key];
      if value.NonNumeric? {
        RejectedKey(values, i);
        return false;
      }
      var x := NumericValue(value).value;
      if x < 0.0 || x > 1.0 {
        RejectedKey(values, i);
        return false;
      }
      i := i + 1;
    }
    return true;
  }

  /** Keys other than battery, network and carbon never change the verdict. */
  lemma ExtraKeysIgnored(values: map<string, Reading>, key: string, v: Reading)
    requires key !in SignalNames
    ensures (forall k :: k in SignalNames ==> AcceptedReading(values, k))
        <==> (forall k :: k in SignalNames ==> AcceptedReading(values[key := v], k))
  {
    forall k | k in SignalNames
      ensures AcceptedReading(values, k) <==> AcceptedReading(values[key := v], k)
    {
      assert k != key;
    }
  }

  /** Both boolean flags pass as readings, since they compare as 0 and 1. */
  lemma FlagsAccepted(b: bool, key: string)
    ensures AcceptedReading(map[key := Flag(b)], key)
  {
  }
}
