/**
 * The battery monitors (src/monitors/battery_monitor.py) without their I/O:
 * the standardisation in `get_info` and its fallback, the pmset text parser,
 * the Linux sysfs-then-proc search, the Windows status codes, the universal
 * monitor's choice of a platform monitor, and the simulator step. Command
 * output, file contents, clock readings and random draws are parameters.
 */
module BatteryMonitor {
  import opened Common
  import opened Text

  /** The raw dict a concrete monitor returns; any field may be missing. */
  datatype RawBatteryInfo = RawBatteryInfo(
    percentage: Option<real>,
    isCharging: Option<bool>,
    status: Option<string>,
    source: Option<string>)

  /** The standardised dict of `get_info`. */
  datatype BatteryInfo = BatteryInfo(percentage: real, isCharging: bool, status: string, source: string, timestamp: real)

  /** `_get_fallback_info()` at clock reading `now`. */
  function Fallback(now: real): (r: BatteryInfo)
    ensures r.percentage == 85.0 && r.isCharging && r.status == "fallback" && r.source == "fallback"
  {
    BatteryInfo(85.0, true, "fallback", "fallback", now)
  }

  /** `get_info()` at clock reading `now`; `raw` is `None` when the concrete monitor raised. */
  function GetInfo(raw: Option<RawBatteryInfo>, now: real): (r: BatteryInfo)
    ensures 0.0 <= r.percentage <= 100.0
    ensures r.timestamp == now
    ensures raw.None? ==> r == Fallback(now)
    ensures raw.Some? ==>
      && r.percentage == Clamp(0.0, 100.0, raw.value.percentage.GetOr(0.0))
      && r.isCharging == raw.value.isCharging.GetOr(false)
      && r.status == raw.value.status.GetOr("unknown")
      && r.source == raw.value.source.GetOr("unknown")
  {
    match raw
    case None => Fallback(now)
    case Some(info) =>
      BatteryInfo(
        Clamp(0.0, 100.0, info.percentage.GetOr(0.0)),
        info.isCharging.GetOr(false),
        info.status.GetOr("unknown"),
        info.source.GetOr("unknown"),
        now)
  }

  /** A percentage already in [0, 100] is kept; one outside is pulled to the nearer end. */
  lemma GetInfoClamps(raw: RawBatteryInfo, now: real)
    requires raw.percentage.Some?
    ensures 0.0 <= raw.percentage.value <= 100.0 ==> GetInfo(Some(raw), now).percentage == raw.percentage.value
    ensures raw.percentage.value > 100.0 ==> GetInfo(Some(raw), now).percentage == 100.0
    ensures raw.percentage.value < 0.0 ==> GetInfo(Some(raw), now).percentage == 0.0
  {
  }

  // ---------------------------------------------------------------------
  // MacOSBatteryMonitor: parsing `pmset -g batt`
  // ---------------------------------------------------------------------

  /** The parser's running state: percentage, charging flag, status. */
  datatype PmsetState = PmsetState(percentage: real, isCharging: bool, status: string)

  const PmsetStart: PmsetState := PmsetState(100.0, false, "unknown")

  /**
   * The status test as written: "charging" is tried first, and since it is
   * part of "discharging" the second branch is never taken.
   */
  function ClassifyAsWritten(text: string, isCharging: bool): (r: (bool, string))
    ensures r.1 in ["charging", "discharging", "full", "unknown"]
    ensures r.1 in ["charging", "full"] ==> r.0
    ensures r.1 == "unknown" ==> r.0 == isCharging
  {
    if Contains(text, "charging") then (true, "charging")
    else if Contains(text, "discharging") then (false, "discharging")
    else if Contains(text, "charged") || Contains(text, "full") then (true, "full")
    else (isCharging, "unknown")
  }

  /** The status test with "discharging" tried before "charging". */
  function Classify(text: string, isCharging: bool): (r: (bool, string))
    ensures Contains(text, "discharging") ==> r == (false, "discharging")
    ensures !Contains(text, "discharging") ==> r == ClassifyAsWritten(text, isCharging)
  {
    if Contains(text, "discharging") then (false, "discharging")
    else ClassifyAsWritten(text, isCharging)
  }

  lemma ChargingInDischarging()
    ensures Contains("discharging", "charging")
  {
    assert "discharging"[3..3 + |"charging"|] == "charging";
    ContainsAt("discharging", "charging", 3);
  }

  /** As written, any text mentioning "discharging" is classified as charging. */
  lemma DischargingReadAsCharging(text: string, isCharging: bool)
    requires Contains(text, "discharging")
    ensures ClassifyAsWritten(text, isCharging) == (true, "charging")
    ensures Classify(text, isCharging) == (false, "discharging")
  {
    ChargingInDischarging();
    ContainsTransitive(text, "discharging", "charging");
  }

  /** A concrete pmset line fragment on which the two disagree. */
  lemma DischargingCounterexample()
    ensures ClassifyAsWritten("67%; discharging;", true) == (true, "charging")
    ensures Classify("67%; discharging;", true) == (false, "discharging")
  {
    assert "67%; discharging;"[5..5 + |"discharging"|] == "discharging";
    ContainsAt("67%; discharging;", "discharging", 5);
    DischargingReadAsCharging("67%; discharging;", true);
  }

  /** `'InternalBattery' in line or 'Battery' in line`; the first test implies the second. */
  predicate MentionsBattery(line: string)
  {
    Contains(line, "InternalBattery") || Contains(line, "Battery")
  }

  lemma MentionsBatteryIsBattery(line: string)
    ensures MentionsBattery(line) <==> Contains(line, "Battery")
  {
    if Contains(line, "InternalBattery") {
      assert "InternalBattery"[8..8 + |"Battery"|] == "Battery";
      ContainsAt("InternalBattery", "Battery", 8);
      ContainsTransitive(line, "InternalBattery", "Battery");
    }
  }

  /** Which status test the pmset parser applies: the order as written, or the corrected one. */
  datatype StatusOrder = AsWritten | Corrected

  function ClassifyBy(order: StatusOrder, text: string, isCharging: bool): (bool, string)
  {
    if order.AsWritten? then ClassifyAsWritten(text, isCharging) else Classify(text, isCharging)
  }

  /** As written, the parser never reports "discharging". */
  lemma ClassifyAsWrittenNeverDischarging(text: string, isCharging: bool)
    ensures ClassifyAsWritten(text, isCharging).1 != "discharging"
  {
    if Contains(text, "discharging") {
      DischargingReadAsCharging(text, isCharging);
    }
  }

  /**
   * What the parser's state always satisfies: a non-negative percentage, one
   * of four statuses, a flag that agrees with "charging", "full" and
   * "discharging", and, in the order as written, never "discharging".
   */
  ghost predicate PmsetConsistent(order: StatusOrder, st: PmsetState)
  {
    && st.percentage >= 0.0
    && st.status in ["charging", "discharging", "full", "unknown"]
    && (st.status == "charging" || st.status == "full" ==> st.isCharging)
    && (st.status == "discharging" ==> !st.isCharging)
    && (order.AsWritten? ==> st.status != "discharging")
  }

  /** One iteration of the line loop. */
  function PmsetLine(order: StatusOrder, st: PmsetState, line: string): (r: PmsetState)
    ensures !MentionsBattery(line) || |Split(line, '\t')| <= 1 ==> r == st
    ensures PmsetConsistent(order, st) ==> PmsetConsistent(order, r)
  {
    var parts := Split(line, '\t');
    if MentionsBattery(line) && |parts| > 1 then
      var field := parts[1];
      var percentage := match FirstPercent(field) case Some(p) => p as real case None => st.percentage;
      ClassifyAsWrittenNeverDischarging(Lower(field), st.isCharging);
      var (charging, status) := ClassifyBy(order, Lower(field), st.isCharging);
      PmsetState(percentage, charging, status)
    else st
  }

  /** The state after the loop has seen `lines`, in order. */
  function PmsetLines(order: StatusOrder, lines: seq<string>): (r: PmsetState)
    ensures PmsetConsistent(order, r)
  {
    if lines == [] then PmsetStart
    else PmsetLine(order, PmsetLines(order, lines[..|lines| - 1]), lines[|lines| - 1])
  }

  /** The raw dict of `_get_raw_battery_info` on the macOS monitor, for pmset output `output`. */
  function PmsetRaw(order: StatusOrder, output: string): (r: RawBatteryInfo)
    ensures r.source == Some("macos_pmset")
    ensures r.percentage.Some? && r.percentage.value >= 0.0
    ensures r.isCharging.Some? && r.status.Some?
    ensures r.status.value in ["charging", "discharging", "full", "unknown"]
    ensures r.status.value in ["charging", "full"] ==> r.isCharging.value
    ensures r.status.value == "discharging" ==> !r.isCharging.value
    ensures order.AsWritten? ==> r.status.value != "discharging"
  {
    var st := PmsetLines(order, Split(output, '\n'));
    RawBatteryInfo(Some(st.percentage), Some(st.isCharging), Some(st.status), Some("macos_pmset"))
  }

  /** The line loop of the pmset parser as written, updating its three variables line by line. */
  method ParsePmset(output: string) returns (r: RawBatteryInfo)
    ensures r == PmsetRaw(AsWritten, output)
  {
    var lines := Split(output, '\n');
    var percentage, isCharging, status := 100.0, false, "unknown";
    var i := 0;
    while i < |lines|
      invariant 0 <= i <= |lines|
      invariant PmsetState(percentage, isCharging, status) == PmsetLines(AsWritten, lines[..i])
    {
      var line := lines[i];
      assert lines[..i + 1][..i] == lines[..i];
      if MentionsBattery(line) {
        var parts := Split(line, '\t');
        if |parts| > 1 {
          var field := parts[1];
          var found := FirstPercent(field);
          if found.Some? {
            percentage := found.value as real;
          }
          var lowered := Lower(field);
          if Contains(lowered, "charging") {
            isCharging, status := true, "charging";
          } else if Contains(lowered, "discharging") {
            isCharging, status := false, "discharging";
          } else if Contains(lowered, "charged") || Contains(lowered, "full") {
            isCharging, status := true, "full";
          } else {
            status := "unknown";
          }
        }
      }
      i := i + 1;
    }
    assert lines[..i] == lines;
    return RawBatteryInfo(Some(percentage), Some(isCharging), Some(status), Some("macos_pmset"));
  }

  /** Output with no line about the battery leaves the defaults: 100%, not charging, status unknown. */
  lemma {:induction false} PmsetNoBatteryLines(order: StatusOrder, lines: seq<string>)
    requires forall i :: 0 <= i < |lines| ==> !MentionsBattery(lines[i])
    ensures PmsetLines(order, lines) == PmsetStart
  {
    if lines != [] {
      PmsetNoBatteryLines(order, lines[..|lines| - 1]);
    }
  }

  /** A line whose battery field, lowered, does not mention "discharging". */
  predicate NoDischargingField(line: string)
  {
    var parts := Split(line, '\t');
    !(MentionsBattery(line) && |parts| > 1) || !Contains(Lower(parts[1]), "discharging")
  }

  /** The two orders parse alike unless some battery field mentions "discharging". */
  lemma {:induction false} PmsetOrdersAgree(lines: seq<string>)
    requires forall i :: 0 <= i < |lines| ==> NoDischargingField(lines[i])
    ensures PmsetLines(AsWritten, lines) == PmsetLines(Corrected, lines)
  {
    if lines != [] {
      PmsetOrdersAgree(lines[..|lines| - 1]);
    }
  }

  /** When several lines carry a percentage the last one wins, whatever came before. */
  lemma PmsetLastLineWins(order: StatusOrder, lines: seq<string>, line: string, p: nat)
    requires MentionsBattery(line) && |Split(line, '\t')| > 1
    requires FirstPercent(Split(line, '\t')[1]) == Some(p)
    ensures PmsetLines(order, lines + [line]).percentage == p as real
    ensures order.AsWritten? ==>
      (PmsetLines(order, lines + [line]).isCharging, PmsetLines(order, lines + [line]).status) == ClassifyAsWritten(Lower(Split(line, '\t')[1]), PmsetLines(order, lines).isCharging)
    ensures order.Corrected? ==>
      (PmsetLines(order, lines + [line]).isCharging, PmsetLines(order, lines + [line]).status) == Classify(Lower(Split(line, '\t')[1]), PmsetLines(order, lines).isCharging)
  {
    assert (lines + [line])[..|lines|] == lines;
  }

  /** A line the loop reads a field from: it mentions the battery and has a tab-separated second field. */
  predicate BatteryField(line: string)
  {
    MentionsBattery(line) && |Split(line, '\t')| > 1
  }

  /** Trailing lines the loop takes no field from change nothing. */
  lemma {:induction false} PmsetIgnoresTail(order: StatusOrder, lines: seq<string>, rest: seq<string>)
    requires forall i :: 0 <= i < |rest| ==> !BatteryField(rest[i])
    ensures PmsetLines(order, lines + rest) == PmsetLines(order, lines)
  {
    if rest != [] {
      var init := rest[..|rest| - 1];
      PmsetIgnoresTail(order, lines, init);
      assert (lines + rest)[..|lines + rest| - 1] == lines + init;
      assert (lines + rest)[|lines + rest| - 1] == rest[|rest| - 1];
    } else {
      assert lines + rest == lines;
    }
  }

  /**
   * The last battery line with a field decides the result when it carries a
   * percentage: the percentage is its own and the status is classified from
   * its field, whatever lines without a battery field follow it.
   */
  lemma PmsetLastBatteryLineWins(order: StatusOrder, lines: seq<string>, line: string, p: nat, rest: seq<string>)
    requires BatteryField(line)
    requires FirstPercent(Split(line, '\t')[1]) == Some(p)
    requires forall i :: 0 <= i < |rest| ==> !BatteryField(rest[i])
    ensures PmsetLines(order, lines + [line] + rest).percentage == p as real
    ensures PmsetLines(order, lines + [line] + rest).isCharging
         == ClassifyBy(order, Lower(Split(line, '\t')[1]), PmsetLines(order, lines).isCharging).0
    ensures PmsetLines(order, lines + [line] + rest).status
         == ClassifyBy(order, Lower(Split(line, '\t')[1]), PmsetLines(order, lines).isCharging).1
  {
    PmsetIgnoresTail(order, lines + [line], rest);
    assert (lines + [line])[..|lines|] == lines;
  }

  /** Later battery fields without a percentage keep the percentage, though they may change the status. */
  lemma {:induction false} PmsetPercentageSurvives(order: StatusOrder, lines: seq<string>, rest: seq<string>)
    requires forall i :: 0 <= i < |rest| && BatteryField(rest[i]) ==> FirstPercent(Split(rest[i], '\t')[1]).None?
    ensures PmsetLines(order, lines + rest).percentage == PmsetLines(order, lines).percentage
  {
    if rest != [] {
      var init := rest[..|rest| - 1];
      PmsetPercentageSurvives(order, lines, init);
      assert (lines + rest)[..|lines + rest| - 1] == lines + init;
      assert (lines + rest)[|lines + rest| - 1] == rest[|rest| - 1];
    } else {
      assert lines + rest == lines;
    }
  }

  /** A line without a tab-separated second field changes nothing. */
  lemma PmsetSkipsShortLines(order: StatusOrder, lines: seq<string>, line: string)
    requires |Split(line, '\t')| <= 1
    ensures PmsetLines(order, lines + [line]) == PmsetLines(order, lines)
  {
    assert (lines + [line])[..|lines|] == lines;
  }

  // ---------------------------------------------------------------------
  // LinuxBatteryMonitor
  // ---------------------------------------------------------------------

  /** What reading one sysfs battery directory finds. */
  datatype SysfsEntry =
    | SysfsMissing                                      // the directory does not exist
    | SysfsNotPresent                                   // its `present` file is not "1"
    | SysfsNoCapacity                                   // no `capacity` file
    | SysfsUnreadable                                   // IOError or ValueError while reading
    | SysfsReading(capacity: real, status: Option<string>)  // `status` is `None` when the status file is missing

  const SysfsNames: seq<string> := ["BAT0", "BAT1", "BAT2"]
  const ProcNames: seq<string> := ["BAT0", "BAT1"]

  /** `{"percentage": -1, "is_charging": False}`: nothing found. */
  const NotFound: RawBatteryInfo := RawBatteryInfo(Some(-1.0), Some(false), None, None)

  /**
   * The raw dict of a sysfs battery. A missing status file gives status
   * "unknown" and `is_charging` False: the corrected behaviour, which only
   * `ReadSysfs` reaches; as written that case raises (`ReadSysfsAsWritten`).
   */
  function SysfsInfo(name: string, capacity: real, status: Option<string>): (r: RawBatteryInfo)
    ensures r.percentage == Some(capacity) && r.source == Some("sysfs_" + name)
    ensures status.None? ==> r.isCharging == Some(false) && r.status == Some("unknown")
    ensures status.Some? ==> r.status == Some(Lower(status.value))
    ensures status.Some? ==> (r.isCharging == Some(true) <==> Lower(status.value) in ["charging", "full"])
  {
    match status
    case None => RawBatteryInfo(Some(capacity), Some(false), Some("unknown"), Some("sysfs_" + name))
    case Some(s) =>
      var lowered := Lower(s);
      RawBatteryInfo(Some(capacity), Some(lowered in ["charging", "full"]), Some(lowered), Some("sysfs_" + name))
  }

  /** `_read_from_sysfs()`: the first directory, in order, with a readable capacity. */
  function ReadSysfs(names: seq<string>, read: string -> SysfsEntry): (r: RawBatteryInfo)
    ensures r == NotFound <==> forall i :: 0 <= i < |names| ==> !read(names[i]).SysfsReading?
    ensures forall i :: 0 <= i < |names| && read(names[i]).SysfsReading? && (forall j :: 0 <= j < i ==> !read(names[j]).SysfsReading?) ==>
      r == SysfsInfo(names[i], read(names[i]).capacity, read(names[i]).status)
    ensures r == NotFound || (r.isCharging.Some? && r.status.Some? && r.source.Some?)
    ensures r.isCharging == Some(true) ==> r.status.Some? && r.status.value in ["charging", "full"]
  {
    if names == [] then NotFound
    else match read(names[0])
      case SysfsReading(capacity, status) => SysfsInfo(names[0], capacity, status)
      case _ =>
        assert forall i :: 1 <= i < |names| ==> names[i] == names[1..][i - 1];
        ReadSysfs(names[1..], read)
  }

  /** The outcome of `_read_from_sysfs` as written: `Crashed` is the escaping `UnboundLocalError`. */
  datatype SysfsOutcome = Returned(info: RawBatteryInfo) | Crashed

  /**
   * As written, `is_charging` is only bound inside the status-file branch: a
   * battery without a status file raises `UnboundLocalError`, which the
   * `except (IOError, ValueError)` does not catch.
   */
  function ReadSysfsAsWritten(names: seq<string>, read: string -> SysfsEntry): (r: SysfsOutcome)
    ensures r.Crashed? <==> exists i :: 0 <= i < |names| && read(names[i]).SysfsReading? && read(names[i]).status.None?
                                       && (forall j :: 0 <= j < i ==> !read(names[j]).SysfsReading?)
    ensures r.Returned? ==> r.info == ReadSysfs(names, read) && (r.info == NotFound || r.info.status.Some?)
  {
    if names == [] then Returned(NotFound)
    else match read(names[0])
      case SysfsReading(capacity, None) => Crashed
      case SysfsReading(capacity, status) => Returned(SysfsInfo(names[0], capacity, status))
      case _ =>
        assert forall i :: 1 <= i < |names| ==> names[i] == names[1..][i - 1];
        var rest := ReadSysfsAsWritten(names[1..], read);
        assert rest.Crashed? ==> exists i :: 0 <= i < |names| && read(names[i]).SysfsReading? && read(names[i]).status.None?
                                  && (forall j :: 0 <= j < i ==> !read(names[j]).SysfsReading?) by {
          if rest.Crashed? {
            var k :| 0 <= k < |names[1..]| && read(names[1..][k]).SysfsReading? && read(names[1..][k]).status.None?
                     && (forall j :: 0 <= j < k ==> !read(names[1..][j]).SysfsReading?);
            assert forall j :: 1 <= j < k + 1 ==> names[j] == names[1..][j - 1];
          }
        }
        rest
  }

  /** The two agree except where the first readable battery has no status file. */
  lemma {:induction false} ReadSysfsAgrees(names: seq<string>, read: string -> SysfsEntry)
    ensures ReadSysfsAsWritten(names, read).Crashed? || ReadSysfsAsWritten(names, read) == Returned(ReadSysfs(names, read))
    ensures ReadSysfsAsWritten(names, read).Crashed? ==> ReadSysfs(names, read).isCharging == Some(false) && ReadSysfs(names, read).status == Some("unknown")
  {
    if names != [] && !read(names[0]).SysfsReading? {
      ReadSysfsAgrees(names[1..], read);
    }
  }

  /** What reading one `/proc/acpi/battery` directory finds; `capacity` and `state` are the regex groups. */
  datatype ProcEntry =
    | ProcMissing                                         // the directory does not exist
    | ProcIncomplete                                      // the state or the info file is missing
    | ProcUnreadable                                      // IOError, ValueError or AttributeError
    | ProcReading(capacity: Option<nat>, state: Option<string>)

  /** The raw dict of a /proc/acpi battery: missing groups read 0 and "unknown". */
  function ProcInfo(name: string, capacity: Option<nat>, state: Option<string>): (r: RawBatteryInfo)
    ensures r.percentage == Some(if capacity.Some? then capacity.value as real else 0.0)
    ensures r.status == Some(if state.Some? then Lower(state.value) else "unknown")
    ensures r.isCharging == Some(r.status.value in ["charging", "charged", "full"])
    ensures r.source == Some("proc_acpi_" + name)
  {
    var status := match state case Some(s) => Lower(s) case None => "unknown";
    RawBatteryInfo(
      Some(match capacity case Some(c) => c as real case None => 0.0),
      Some(status in ["charging", "charged", "full"]),
      Some(status),
      Some("proc_acpi_" + name))
  }

  /** `_read_from_proc_acpi()`: the first directory with both files, else the not-found sentinel. */
  function ReadProc(names: seq<string>, read: string -> ProcEntry): (r: RawBatteryInfo)
    ensures r == NotFound <==> forall i :: 0 <= i < |names| ==> !read(names[i]).ProcReading?
    ensures forall i :: 0 <= i < |names| && read(names[i]).ProcReading? && (forall j :: 0 <= j < i ==> !read(names[j]).ProcReading?) ==>
      r == ProcInfo(names[i], read(names[i]).capacity, read(names[i]).state)
    ensures r == NotFound || (r.percentage.Some? && r.percentage.value >= 0.0)
  {
    if names == [] then NotFound
    else match read(names[0])
      case ProcReading(capacity, state) => ProcInfo(names[0], capacity, state)
      case _ =>
        assert forall i :: 1 <= i < |names| ==> names[i] == names[1..][i - 1];
        ReadProc(names[1..], read)
  }

  /** "charged" counts as charging in /proc/acpi but not in sysfs. */
  lemma ChargingSetsDiffer(capacity: real)
    ensures SysfsInfo("BAT0", capacity, Some("charged")).isCharging == Some(false)
    ensures ReadProc(ProcNames, _ => ProcReading(None, Some("charged"))).isCharging == Some(true)
  {
    assert Lower("charged") == "charged";
  }

  /** `info["percentage"] >= 0`: the sentinel test. */
  function Found(info: RawBatteryInfo): (r: bool)
    ensures r ==> info != NotFound
  {
    info.percentage.Some? && info.percentage.value >= 0.0
  }

  /** The search of `_get_raw_battery_info()` on Linux once sysfs has answered `fromSysfs`. */
  function LinuxFrom(fromSysfs: RawBatteryInfo, proc: string -> ProcEntry): Option<RawBatteryInfo>
  {
    if Found(fromSysfs) then Some(fromSysfs)
    else
      var fromProc := ReadProc(ProcNames, proc);
      if Found(fromProc) then Some(fromProc) else None
  }

  /**
   * `_get_raw_battery_info()` on Linux with the corrected sysfs reader:
   * sysfs first, then /proc/acpi; `None` is the `RuntimeError`.
   */
  function LinuxRaw(sysfs: string -> SysfsEntry, proc: string -> ProcEntry): (r: Option<RawBatteryInfo>)
    ensures r.Some? ==> Found(r.value)
    ensures Found(ReadSysfs(SysfsNames, sysfs)) ==> r == Some(ReadSysfs(SysfsNames, sysfs))
    ensures !Found(ReadSysfs(SysfsNames, sysfs)) && Found(ReadProc(ProcNames, proc)) ==> r == Some(ReadProc(ProcNames, proc))
    ensures r.None? <==> !Found(ReadSysfs(SysfsNames, sysfs)) && !Found(ReadProc(ProcNames, proc))
  {
    LinuxFrom(ReadSysfs(SysfsNames, sysfs), proc)
  }

  /**
   * `_get_raw_battery_info()` on Linux as written; `None` is an exception:
   * the `RuntimeError` when nothing is found, or the `UnboundLocalError` of
   * a first readable sysfs battery without a status file.
   */
  function LinuxRawAsWritten(sysfs: string -> SysfsEntry, proc: string -> ProcEntry): (r: Option<RawBatteryInfo>)
    ensures ReadSysfsAsWritten(SysfsNames, sysfs).Crashed? ==> r.None?
    ensures !ReadSysfsAsWritten(SysfsNames, sysfs).Crashed? ==> r == LinuxRaw(sysfs, proc)
    ensures r.None? <==> ReadSysfsAsWritten(SysfsNames, sysfs).Crashed? || (!Found(ReadSysfs(SysfsNames, sysfs)) && !Found(ReadProc(ProcNames, proc)))
  {
    ReadSysfsAgrees(SysfsNames, sysfs);
    match ReadSysfsAsWritten(SysfsNames, sysfs)
    case Crashed => None
    case Returned(fromSysfs) => LinuxFrom(fromSysfs, proc)
  }

  /**
   * BAT0 with capacity 50 and no status file. As written the Linux monitor
   * raises, so on its own it reports the 85%-charging fallback; the corrected
   * reader reports 50%, not charging.
   */
  lemma MissingStatusCounterexample(sysfs: string -> SysfsEntry, proc: string -> ProcEntry, now: real)
    requires sysfs("BAT0") == SysfsReading(50.0, None)
    ensures ReadSysfsAsWritten(SysfsNames, sysfs) == Crashed
    ensures LinuxRawAsWritten(sysfs, proc) == None
    ensures GetInfo(LinuxRawAsWritten(sysfs, proc), now) == Fallback(now)
    ensures ReadSysfs(SysfsNames, sysfs) == RawBatteryInfo(Some(50.0), Some(false), Some("unknown"), Some("sysfs_BAT0"))
    ensures LinuxRaw(sysfs, proc) == Some(ReadSysfs(SysfsNames, sysfs))
    ensures GetInfo(LinuxRaw(sysfs, proc), now) == BatteryInfo(50.0, false, "unknown", "sysfs_BAT0", now)
  {
    assert SysfsNames[0] == "BAT0";
    assert "sysfs_" + "BAT0" == "sysfs_BAT0";
  }

  /** A negative capacity in sysfs is taken for "not found" and the search moves on to /proc/acpi. */
  lemma NegativeCapacitySkipsSysfs(proc: string -> ProcEntry)
    ensures LinuxRaw(_ => SysfsReading(-3.0, Some("full")), proc) ==
      (if Found(ReadProc(ProcNames, proc)) then Some(ReadProc(ProcNames, proc)) else None)
  {
  }

  // ---------------------------------------------------------------------
  // WindowsBatteryMonitor
  // ---------------------------------------------------------------------

  /** `status_map.get(status_code, "unknown")`. */
  function WindowsStatus(code: int): (r: string)
    ensures !(1 <= code <= 6) ==> r == "unknown"
  {
    match code
    case 1 => "discharging"
    case 2 => "ac_power"
    case 3 => "fully_charged"
    case 4 => "low"
    case 5 => "critical"
    case 6 => "charging"
    case _ => "unknown"
  }

  /** `status_code in [2, 3, 6]`. */
  function WindowsCharging(code: int): (r: bool)
    ensures r ==> 1 <= code <= 6 && WindowsStatus(code) != "discharging"
  {
    code in [2, 3, 6]
  }

  /** The charging codes are exactly those whose status names power coming in. */
  lemma WindowsChargingCodes(code: int)
    ensures WindowsCharging(code) <==> WindowsStatus(code) in ["ac_power", "fully_charged", "charging"]
    ensures WindowsStatus(code) == "unknown" ==> !WindowsCharging(code)
  {
  }

  /**
   * The raw dict of the Windows monitor for the first battery record, whose
   * `Percentage` and `Status` may be missing (0 and 1).
   */
  function WindowsRaw(percentage: Option<real>, statusCode: Option<int>): (r: RawBatteryInfo)
    ensures r.percentage == Some(percentage.GetOr(0.0))
    ensures statusCode.Some? ==> r.status == Some(WindowsStatus(statusCode.value)) && r.isCharging == Some(WindowsCharging(statusCode.value))
    ensures statusCode.None? ==> r.status == Some("discharging") && r.isCharging == Some(false)
    ensures r.source == Some("windows_wmi")
  {
    var code := statusCode.GetOr(1);
    RawBatteryInfo(Some(percentage.GetOr(0.0)), Some(WindowsCharging(code)), Some(WindowsStatus(code)), Some("windows_wmi"))
  }

  // ---------------------------------------------------------------------
  // UniversalBatteryMonitor
  // ---------------------------------------------------------------------

  datatype BatteryKind = MacOS | Linux | Windows | Simulated

  /** `_initialize_monitors()`: the native monitor for the system, if any, then the simulator. */
  function MonitorsFor(system: string): (r: seq<BatteryKind>)
    ensures |r| >= 1 && r[|r| - 1] == Simulated
    ensures system !in ["Darwin", "Linux", "Windows"] ==> r == [Simulated]
  {
    if system == "Darwin" then [MacOS, Simulated]
    else if system == "Linux" then [Linux, Simulated]
    else if system == "Windows" then [Windows, Simulated]
    else [Simulated]
  }

  /** Each monitor's `is_available()`; `linuxBattery` stands for one of the five battery paths existing. */
  predicate KindAvailable(kind: BatteryKind, system: string, linuxBattery: bool)
  {
    match kind
    case MacOS => system == "Darwin"
    case Linux => system == "Linux" && linuxBattery
    case Windows => system == "Windows"
    case Simulated => true
  }

  /** The first available monitor in list order. */
  function FirstAvailable(kinds: seq<BatteryKind>, system: string, linuxBattery: bool): (r: Option<nat>)
    ensures r.Some? ==> r.value < |kinds| && KindAvailable(kinds[r.value], system, linuxBattery)
    ensures r.Some? ==> forall j :: 0 <= j < r.value ==> !KindAvailable(kinds[j], system, linuxBattery)
    ensures r.None? <==> forall j :: 0 <= j < |kinds| ==> !KindAvailable(kinds[j], system, linuxBattery)
  {
    if kinds == [] then None
    else if KindAvailable(kinds[0], system, linuxBattery) then Some(0)
    else match FirstAvailable(kinds[1..], system, linuxBattery)
      case None => None
      case Some(i) => Some(i + 1)
  }

  /** On Linux without a battery the simulator is chosen; on macOS and Windows the native monitor is. */
  lemma UniversalChoice(system: string, linuxBattery: bool)
    ensures FirstAvailable(MonitorsFor(system), system, linuxBattery).Some?
    ensures system == "Linux" && !linuxBattery ==> FirstAvailable(MonitorsFor(system), system, linuxBattery) == Some(1)
    ensures system in ["Darwin", "Windows"] ==> FirstAvailable(MonitorsFor(system), system, linuxBattery) == Some(0)
  {
    var kinds := MonitorsFor(system);
    assert KindAvailable(kinds[|kinds| - 1], system, linuxBattery);
  }

  class UniversalBatteryMonitor {
    const system: string
    const linuxBattery: bool
    const monitors: seq<BatteryKind>
    var current: Option<nat>

    ghost predicate Valid()
      reads this
    {
      && monitors == MonitorsFor(system)
      && (current.Some? ==> current.value < |monitors|)
    }

    constructor (system: string, linuxBattery: bool)
      ensures this.system == system && this.linuxBattery == linuxBattery
      ensures Valid() && current.None?
    {
      this.system := system;
      this.linuxBattery := linuxBattery;
      monitors := MonitorsFor(system);
      current := None;
    }

    /** `is_available()`: scans the list and remembers the first available monitor. */
    method IsAvailable() returns (r: bool)
      requires Valid()
      modifies this`current
      ensures Valid()
      ensures r <==> FirstAvailable(monitors, system, linuxBattery).Some?
      ensures r ==> current == FirstAvailable(monitors, system, linuxBattery)
      ensures !r ==> current == old(current)
    {
      var i := 0;
      while i < |monitors|
        invariant 0 <= i <= |monitors|
        invariant forall j :: 0 <= j < i ==> !KindAvailable(monitors[j], system, linuxBattery)
      {
        if KindAvailable(monitors[i], system, linuxBattery) {
          current := Some(i);
          FirstAvailableIs(monitors, i);
          return true;
        }
        i := i + 1;
      }
      return false;
    }

    lemma FirstAvailableIs(kinds: seq<BatteryKind>, i: nat)
      requires i < |kinds| && KindAvailable(kinds[i], system, linuxBattery)
      requires forall j :: 0 <= j < i ==> !KindAvailable(kinds[j], system, linuxBattery)
      ensures FirstAvailable(kinds, system, linuxBattery) == Some(i)
    {
      var r := FirstAvailable(kinds, system, linuxBattery);
      if r.value < i {
        assert false;
      } else if r.value > i {
        assert false;
      }
    }

    /**
     * `_get_raw_battery_info()`. `raw(i)` is the outcome of monitor `i`'s own
     * reading (`None` when it raised); `lastResort` is the reading of a new
     * simulator, used when every monitor failed. The branch for no monitor
     * being available is not written: the simulator at the end of the list
     * is always available. The retry loop here skips the fixed index `first`,
     * while the source skips the moving `current_monitor`, so once that has
     * moved past an earlier failing monitor the source tries `first` again.
     * Its outcome `raw(first)` is fixed for the call and already failed, so
     * the retry changes neither the result nor the monitor finally chosen.
     */
    method GetRaw(raw: nat -> Option<RawBatteryInfo>, lastResort: RawBatteryInfo) returns (r: RawBatteryInfo)
      requires Valid()
      modifies this`current
      ensures Valid() && current.Some?
      ensures var first := if old(current).Some? then old(current).value else FirstAvailable(monitors, system, linuxBattery).value;
        if raw(first).Some? then r == raw(first).value && current == Some(first)
        else match NextWorking(monitors, first, raw, 0)
          case Some(j) => r == raw(j).value && current == Some(j)
          case None => r == lastResort
    {
      if current.None? {
        var _ := IsAvailable();
        UniversalChoice(system, linuxBattery);
      }
      var first := current.value;
      if raw(first).Some? {
        return raw(first).value;
      }
      var i := 0;
      while i < |monitors|
        invariant 0 <= i <= |monitors|
        invariant Valid() && current.Some?
        invariant NextWorking(monitors, first, raw, 0) == NextWorking(monitors, first, raw, i)
      {
        if i != first && KindAvailable(monitors[i], system, linuxBattery) {
          current := Some(i);
          if raw(i).Some? {
            assert NextWorking(monitors, first, raw, i) == Some(i);
            return raw(i).value;
          }
        }
        i := i + 1;
      }
      return lastResort;
    }

    /** The first monitor from position `i` on, other than `first`, that is available and reads without raising. */
    function NextWorking(kinds: seq<BatteryKind>, first: nat, raw: nat -> Option<RawBatteryInfo>, i: nat): (r: Option<nat>)
      reads this
      requires i <= |kinds|
      decreases |kinds| - i
      ensures r.Some? ==> i <= r.value < |kinds| && r.value != first && KindAvailable(kinds[r.value], system, linuxBattery) && raw(r.value).Some?
      ensures r.Some? ==> forall j :: i <= j < r.value ==> !(j != first && KindAvailable(kinds[j], system, linuxBattery) && raw(j).Some?)
      ensures r.None? <==> forall j :: i <= j < |kinds| ==> !(j != first && KindAvailable(kinds[j], system, linuxBattery) && raw(j).Some?)
    {
      if i == |kinds| then None
      else if i != first && KindAvailable(kinds[i], system, linuxBattery) && raw(i).Some? then Some(i)
      else NextWorking(kinds, first, raw, i + 1)
    }
  }

  /** When the simulator at the end of the list reads, the universal monitor never needs the last resort. */
  lemma SimulatorCatchesAll(m: UniversalBatteryMonitor, first: nat, raw: nat -> Option<RawBatteryInfo>)
    requires m.Valid() && first < |m.monitors| - 1
    requires raw(|m.monitors| - 1).Some?
    ensures m.NextWorking(m.monitors, first, raw, 0).Some?
  {
    var last := |m.monitors| - 1;
    NextWorkingReaches(m, first, raw, 0, last);
  }

  lemma {:induction false} NextWorkingReaches(m: UniversalBatteryMonitor, first: nat, raw: nat -> Option<RawBatteryInfo>, i: nat, j: nat)
    requires i <= j < |m.monitors| && j != first
    requires KindAvailable(m.monitors[j], m.system, m.linuxBattery) && raw(j).Some?
    ensures m.NextWorking(m.monitors, first, raw, i).Some?
    decreases j - i
  {
    if i < j {
      NextWorkingReaches(m, first, raw, i + 1, j);
    }
  }

  /**
   * The universal monitor on Linux with a battery present: when BAT0 has no
   * status file the Linux monitor, first in the list, raises as written, and
   * `GetRaw` hands the reading over to the simulator after it.
   */
  lemma CrashHandsOverToSimulator(m: UniversalBatteryMonitor, sysfs: string -> SysfsEntry, proc: string -> ProcEntry, raw: nat -> Option<RawBatteryInfo>)
    requires m.Valid() && m.system == "Linux" && m.linuxBattery
    requires sysfs("BAT0") == SysfsReading(50.0, None)
    requires raw(0) == LinuxRawAsWritten(sysfs, proc) && raw(1).Some?
    ensures m.monitors == [Linux, Simulated]
    ensures FirstAvailable(m.monitors, m.system, m.linuxBattery) == Some(0)
    ensures raw(0).None?
    ensures m.NextWorking(m.monitors, 0, raw, 0) == Some(1)
  {
    MissingStatusCounterexample(sysfs, proc, 0.0);
    assert m.NextWorking(m.monitors, 0, raw, 1) == Some(1);
  }

  // ---------------------------------------------------------------------
  // SimulatedBatteryMonitor
  // ---------------------------------------------------------------------

  const ChargeRate: real := 0.5
  const DischargeRate: real := 0.05

  /** The simulator's fields. */
  datatype SimState = SimState(percentage: real, isCharging: bool, lastUpdate: real)

  /** Charge or drain for the elapsed time, then the full and low thresholds, before the random flip. */
  function Drift(st: SimState, now: real): (r: SimState)
    ensures r.lastUpdate == now
    ensures st.isCharging && r.percentage >= 99.9 ==> r.percentage == 100.0 && !r.isCharging
    ensures !st.isCharging && r.percentage <= 20.0 ==> r.isCharging
  {
    var minutes := (now - st.lastUpdate) / 60.0;
    if st.isCharging then
      var p := Min(100.0, st.percentage + ChargeRate * minutes);
      if p >= 99.9 then SimState(100.0, false, now) else SimState(p, true, now)
    else
      var p := Max(0.0, st.percentage - DischargeRate * minutes);
      SimState(p, p <= 20.0, now)
  }

  /** One step: the drift, then `random.random() < 0.05` flips the charging flag. */
  function SimStep(st: SimState, now: real, flipDraw: real): (r: SimState)
    ensures r.percentage == Drift(st, now).percentage && r.lastUpdate == now
    ensures r.isCharging == (if flipDraw < 0.05 then !Drift(st, now).isCharging else Drift(st, now).isCharging)
  {
    var d := Drift(st, now);
    if flipDraw < 0.05 then d.(isCharging := !d.isCharging) else d
  }

  /** The reported status: "full" from 99.9, "critical" up to 5, otherwise the charging flag. */
  function SimStatus(st: SimState): (r: string)
    ensures st.percentage >= 99.9 ==> r == "full"
    ensures st.percentage <= 5.0 ==> r == "critical"
    ensures 5.0 < st.percentage < 99.9 ==> r == (if st.isCharging then "charging" else "discharging")
  {
    if st.percentage >= 99.9 then "full"
    else if st.percentage <= 5.0 then "critical"
    else if st.isCharging then "charging" else "discharging"
  }

  /** The raw dict of a simulator step. */
  function SimRaw(st: SimState): (r: RawBatteryInfo)
    ensures r.isCharging == Some(st.isCharging) && r.status == Some(SimStatus(st)) && r.source == Some("simulation")
  {
    RawBatteryInfo(Some(RoundTo(st.percentage, 10)), Some(st.isCharging), Some(SimStatus(st)), Some("simulation"))
  }

  /** With the clock not running backwards, a percentage in [0, 100] stays there. */
  lemma SimStepInRange(st: SimState, now: real, flipDraw: real)
    requires 0.0 <= st.percentage <= 100.0 && now >= st.lastUpdate
    ensures 0.0 <= SimStep(st, now, flipDraw).percentage <= 100.0
    ensures 0.0 <= RoundTo(SimStep(st, now, flipDraw).percentage, 10) <= 100.0
  {
    var p := SimStep(st, now, flipDraw).percentage;
    RoundToGrid(p, 0, 10);
    RoundToGrid(p, 1000, 10);
  }

  /** A clock that runs backwards can drain a charging battery below 0. */
  lemma SimStepBackwardsClock()
    ensures SimStep(SimState(0.0, true, 120.0), 0.0, 1.0).percentage == -1.0
  {
  }

  /** A full battery that is not flipped stops charging and reports "full". */
  lemma SimFullStopsCharging(st: SimState, now: real, flipDraw: real)
    requires st.isCharging && flipDraw >= 0.05
    requires Drift(st, now).percentage >= 99.9
    ensures SimStep(st, now, flipDraw).percentage == 100.0
    ensures !SimStep(st, now, flipDraw).isCharging
    ensures SimStatus(SimStep(st, now, flipDraw)) == "full"
  {
  }

  class SimulatedBatteryMonitor {
    var percentage: real
    var isCharging: bool
    var lastUpdate: real

    /** `__init__(initial_percentage)` at clock reading `now`: charging, 85% by default. */
    constructor (now: real, initialPercentage: real := 85.0)
      ensures percentage == initialPercentage && isCharging && lastUpdate == now
    {
      percentage := initialPercentage;
      isCharging := true;
      lastUpdate := now;
    }

    /** `_get_raw_battery_info()` at clock reading `now`, with `flipDraw` the value of `random.random()`. */
    method RawInfo(now: real, flipDraw: real) returns (r: RawBatteryInfo)
      modifies this
      ensures SimState(percentage, isCharging, lastUpdate) == SimStep(old(SimState(percentage, isCharging, lastUpdate)), now, flipDraw)
      ensures r == SimRaw(SimState(percentage, isCharging, lastUpdate))
    {
      var minutes := (now - lastUpdate) / 60.0;
      if isCharging {
        percentage := Min(100.0, percentage + ChargeRate * minutes);
        if percentage >= 99.9 {
          isCharging := false;
          percentage := 100.0;
        }
      } else {
        percentage := Max(0.0, percentage - DischargeRate * minutes);
        if percentage <= 20.0 {
          isCharging := true;
        }
      }
      if flipDraw < 0.05 {
        isCharging := !isCharging;
      }
      lastUpdate := now;
      var status := if isCharging then "charging" else "discharging";
      if percentage >= 99.9 {
        status := "full";
      } else if percentage <= 5.0 {
        status := "critical";
      }
      return RawBatteryInfo(Some(RoundTo(percentage, 10)), Some(isCharging), Some(status), Some("simulation"));
    }
  }
}
