/**
 * The carbon-intensity monitors (src/monitors/carbon_monitor.py) without their
 * I/O: the green-grid test, the standardisation in `get_info` and its
 * fallback, the Electricity Maps key handling, and the simulated intensity.
 * The HTTP response, the clock reading and the random draw are parameters.
 */
module CarbonMonitor {
  import opened Common

  const DefaultZone: string := "IN"
  const GreenThreshold: real := 300.0

  /** `_is_green_grid(intensity, threshold)`: at or below the threshold, inclusive. */
  function IsGreenGrid(intensity: real, threshold: real := GreenThreshold): (r: bool)
    ensures r && threshold <= GreenThreshold ==> intensity <= GreenThreshold
    ensures intensity <= 0.0 && threshold >= 0.0 ==> r
  {
    intensity <= threshold
  }

  /** The raw dict a concrete monitor returns; any field may be missing. */
  datatype RawCarbonInfo = RawCarbonInfo(
    intensity: Option<real>,
    isGreen: Option<bool>,
    zone: Option<string>,
    source: Option<string>)

  /** The standardised dict of `get_info`. */
  datatype CarbonInfo = CarbonInfo(intensity: real, isGreen: bool, zone: string, source: string, timestamp: real)

  /** `_get_fallback_info(zone)` at clock reading `now`. */
  function Fallback(zone: string, now: real): (r: CarbonInfo)
    ensures r.intensity == 400.0 && !r.isGreen && r.zone == zone && r.source == "fallback"
    ensures !IsGreenGrid(r.intensity, GreenThreshold)
  {
    CarbonInfo(400.0, false, zone, "fallback", now)
  }

  /** `get_info(zone)` at clock reading `now`; `raw` is `None` when the concrete monitor raised. */
  function GetInfo(raw: Option<RawCarbonInfo>, zone: string, now: real): (r: CarbonInfo)
    ensures r.timestamp == now
    ensures raw.None? ==> r == Fallback(zone, now)
    ensures raw.Some? ==>
      && r.intensity == raw.value.intensity.GetOr(0.0)
      && r.isGreen == raw.value.isGreen.GetOr(false)
      && r.zone == raw.value.zone.GetOr(zone)
      && r.source == raw.value.source.GetOr("unknown")
  {
    match raw
    case None => Fallback(zone, now)
    case Some(info) =>
      CarbonInfo(info.intensity.GetOr(0.0), info.isGreen.GetOr(false), info.zone.GetOr(zone), info.source.GetOr("unknown"), now)
  }

  /** An empty raw dict reads as intensity 0, not green, in the requested zone. */
  lemma EmptyRawDefaults(zone: string, now: real)
    ensures GetInfo(Some(RawCarbonInfo(None, None, None, None)), zone, now) == CarbonInfo(0.0, false, zone, "unknown", now)
  {
  }

  // ---------------------------------------------------------------------
  // ElectricityMapsMonitor
  // ---------------------------------------------------------------------

  /** `api_key or os.getenv(...)`: an empty or missing argument falls through to the environment. */
  function EffectiveKey(apiKey: Option<string>, env: Option<string>): (r: Option<string>)
    ensures apiKey.Some? && apiKey.value != "" ==> r == apiKey
    ensures (apiKey.None? || apiKey == Some("")) ==> r == env
  {
    if apiKey.Some? && apiKey.value != "" then apiKey else env
  }

  /** `is_available()`: the key is not `None`. */
  function ElectricityMapsAvailable(key: Option<string>): (r: bool)
    ensures key == Some("") ==> r
    ensures r ==> key.Some?
  {
    key.Some?
  }

  /**
   * `_get_raw_carbon_info(zone)` of the Electricity Maps monitor. `response`
   * is `None` when the request failed, otherwise the `carbonIntensity` field
   * of the JSON body (`None` when absent). `None` as a result is a raise.
   */
  function ElectricityMapsRaw(key: Option<string>, zone: string, response: Option<Option<real>>): (r: Option<RawCarbonInfo>)
    ensures (key.None? || key == Some("")) ==> r.None?
    ensures response.None? ==> r.None?
    ensures r.Some? ==> r.value.source == Some("electricity_maps") && r.value.zone == Some(zone)
    ensures r.Some? ==> r.value.intensity.Some? && r.value.isGreen == Some(IsGreenGrid(r.value.intensity.value, GreenThreshold))
    ensures r.Some? <==> key.Some? && key.value != "" && response.Some?
    ensures r.Some? ==> r.value.intensity == Some(response.value.GetOr(0.0))
  {
    if key.None? || key.value == "" then None
    else match response
      case None => None
      case Some(field) =>
        var intensity := field.GetOr(0.0);
        Some(RawCarbonInfo(Some(intensity), Some(IsGreenGrid(intensity, GreenThreshold)), Some(zone), Some("electricity_maps")))
  }

  /** An empty key from the environment counts as available, yet every reading falls back. */
  lemma EmptyKeyAvailableButFallsBack(zone: string, response: Option<Option<real>>, now: real)
    ensures ElectricityMapsAvailable(EffectiveKey(Some(""), Some("")))
    ensures GetInfo(ElectricityMapsRaw(EffectiveKey(Some(""), Some("")), zone, response), zone, now) == Fallback(zone, now)
  {
  }

  // ---------------------------------------------------------------------
  // SimulatedCarbonMonitor
  // ---------------------------------------------------------------------

  const ZoneIntensities: map<string, real> :=
    map["IN" := 650.0, "US-CAL" := 250.0, "DE" := 350.0, "FR" := 50.0, "SE" := 30.0, "CN" := 700.0, "GB" := 200.0]

  /** `zone_intensities.get(zone, 400)`. */
  function BaseIntensity(zone: string): (r: real)
    ensures zone !in ZoneIntensities ==> r == 400.0
    ensures 30.0 <= r <= 700.0
  {
    Get(ZoneIntensities, zone, 400.0)
  }

  /** Python's `current_time % 86400` on floats: the result has the sign of the divisor. */
  function SecondsOfDay(now: real): (r: real)
    ensures 0.0 <= r < 86400.0
  {
    var q := (now / 86400.0).Floor as real;
    assert q <= now / 86400.0 < q + 1.0;
    now - 86400.0 * q
  }

  /** `(current_time % 86400) / 3600`: the hour of day as a real in [0, 24). */
  function HourOfDay(now: real): (r: real)
    ensures 0.0 <= r < 24.0
  {
    SecondsOfDay(now) / 3600.0
  }

  /** `1 - abs(hour - 14) / 14`: 1 at 14:00, falling to 0 at midnight. */
  function HourFactor(hour: real): real
  {
    1.0 - Abs(hour - 14.0) / 14.0
  }

  predicate IsNight(hour: real)
  {
    hour < 4.0 || hour > 20.0
  }

  /** The daily variation: 30% of the base scaled by the hour factor, turned into half as much the other way at night. */
  function DailyVariation(base: real, hour: real): (r: real)
    ensures !IsNight(hour) ==> r == 0.3 * base * HourFactor(hour)
    ensures IsNight(hour) ==> r == -0.15 * base * HourFactor(hour)
  {
    var v := 0.3 * base * HourFactor(hour);
    if IsNight(hour) then v * -0.5 else v
  }

  lemma ProductInRange(b: real, f: real)
    requires b >= 0.0 && 0.0 <= f <= 1.0
    ensures 0.0 <= b * f <= b
  {
    assert b - b * f == b * (1.0 - f);
  }

  /**
   * Over a day the variation lies in [-0.15 base, 0.3 base], peaks at 14:00,
   * is never positive at night and never negative by day.
   */
  lemma DailyVariationBounds(base: real, hour: real)
    requires base >= 0.0 && 0.0 <= hour < 24.0
    ensures -0.15 * base <= DailyVariation(base, hour) <= 0.3 * base
    ensures DailyVariation(base, hour) <= DailyVariation(base, 14.0)
    ensures IsNight(hour) ==> DailyVariation(base, hour) <= 0.0
    ensures !IsNight(hour) ==> DailyVariation(base, hour) >= 0.0
    ensures DailyVariation(base, hour) < 0.0 ==> IsNight(hour)
  {
    var f := HourFactor(hour);
    assert 0.0 <= f <= 1.0;
    ProductInRange(base, f);
    var v := 0.3 * (base * f);
    assert 0.3 * base * f == v;
    assert 0.0 <= v <= 0.3 * base;
    assert DailyVariation(base, hour) == if IsNight(hour) then v * -0.5 else v;
    assert HourFactor(14.0) == 1.0;
  }

  /** At night, except exactly at midnight, the variation is strictly negative for any positive base. */
  lemma NightVariationNegative(base: real, hour: real)
    requires base > 0.0 && IsNight(hour) && 0.0 < hour < 24.0
    ensures DailyVariation(base, hour) < 0.0
  {
    var f := HourFactor(hour);
    assert f > 0.0;
    assert 0.3 * base * f == 0.3 * (base * f);
    assert base * f > 0.0;
  }

  /** The simulated intensity before rounding; `draw` is `random.uniform(-0.1, 0.1)`. */
  function SimulatedIntensity(zone: string, now: real, draw: real): (r: real)
    ensures r >= 10.0
  {
    var base := BaseIntensity(zone);
    Max(10.0, base + DailyVariation(base, HourOfDay(now)) + draw * base)
  }

  /** With the draw in range the intensity lies between 75% and 140% of the base, floored at 10. */
  lemma SimulatedIntensityBounds(zone: string, now: real, draw: real)
    requires -0.1 <= draw <= 0.1
    ensures var base := BaseIntensity(zone);
      Max(10.0, 0.75 * base) <= SimulatedIntensity(zone, now, draw) <= Max(10.0, 1.4 * base)
  {
    var base := BaseIntensity(zone);
    DailyVariationBounds(base, HourOfDay(now));
    var t := draw + 0.1;
    assert 0.0 <= t <= 0.2;
    assert t * base >= 0.0;
    assert t * base <= 0.2 * base by {
      assert 0.2 * base - t * base == (0.2 - t) * base;
    }
    assert draw * base == t * base - 0.1 * base;
  }

  /** Sweden is always green in the simulation and China never is. */
  lemma SimulatedZonesClassified(now: real, draw: real)
    requires -0.1 <= draw <= 0.1
    ensures IsGreenGrid(SimulatedIntensity("SE", now, draw), GreenThreshold)
    ensures !IsGreenGrid(SimulatedIntensity("CN", now, draw), GreenThreshold)
  {
    SimulatedIntensityBounds("SE", now, draw);
    SimulatedIntensityBounds("CN", now, draw);
  }

  /** `SimulatedCarbonMonitor._get_raw_carbon_info(zone)`: green-ness is decided before rounding. */
  function SimulatedRaw(zone: string, now: real, draw: real): (r: RawCarbonInfo)
    ensures r.zone == Some(zone) && r.source == Some("simulation")
    ensures r.isGreen == Some(IsGreenGrid(SimulatedIntensity(zone, now, draw), GreenThreshold))
    ensures r.intensity == Some(RoundTo(SimulatedIntensity(zone, now, draw), 10))
  {
    var intensity := SimulatedIntensity(zone, now, draw);
    RawCarbonInfo(Some(RoundTo(intensity, 10)), Some(IsGreenGrid(intensity, GreenThreshold)), Some(zone), Some("simulation"))
  }

  /** A green reading is reported at or below the threshold; a reported value above it was not green. */
  lemma RoundingKeepsGreen(x: real)
    ensures IsGreenGrid(x, GreenThreshold) ==> IsGreenGrid(RoundTo(x, 10), GreenThreshold)
    ensures !IsGreenGrid(RoundTo(x, 10), GreenThreshold) ==> !IsGreenGrid(x, GreenThreshold)
  {
    RoundToGrid(x, 3000, 10);
  }

  /** The converse fails: 300.04 is not green, yet it is reported as 300.0, which is. */
  lemma ReportedGreenButFlaggedNot()
    ensures !IsGreenGrid(300.04, GreenThreshold)
    ensures RoundTo(300.04, 10) == 300.0
    ensures IsGreenGrid(RoundTo(300.04, 10), GreenThreshold)
  {
    RoundToUnfold(300.04, 10);
    assert (3000.4).Floor == 3000;
    assert RoundHalfEven(300.04 * 10 as real) == 3000;
  }
}
