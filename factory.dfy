/**
 * The monitor factory (src/monitors/factory.py): which concrete monitor each
 * signal gets, as ordered decisions over the flags, the platform name and the
 * availability of the optional back-ends. The platform name, the speedtest
 * library's presence and the environment variable are parameters.
 */
module Factory {
  import opened Common
  import opened ConfigData
  import CarbonMonitor

  datatype BatteryChoice = UniversalBattery | MacOSBattery | LinuxBattery | WindowsBattery | SimulatedBattery
  datatype NetworkChoice = SpeedTest | Ping | SimulatedNetwork
  /** Electricity Maps carries the key the monitor was built with. */
  datatype CarbonChoice = ElectricityMaps(key: string) | SimulatedCarbon

  /** One entry of the dict `create_all_monitors` returns. */
  datatype MonitorChoice = Battery(battery: BatteryChoice) | Network(network: NetworkChoice) | Carbon(carbon: CarbonChoice)

  /** The `ValueError` of `create_carbon_monitor`. */
  const NoKeyError: string := "No API key provided and simulation disabled"

  /** The platform names with a native battery monitor. */
  predicate NativeBatteryPlatform(system: string)
  {
    system == "Darwin" || system == "Linux" || system == "Windows"
  }

  /** `create_battery_monitor(use_universal, use_simulation)` on a platform whose `platform.system()` is `system`. */
  function CreateBatteryMonitor(useUniversal: bool, useSimulation: bool, system: string): (r: BatteryChoice)
    ensures r == SimulatedBattery <==> useSimulation || (!useUniversal && !NativeBatteryPlatform(system))
    ensures r == UniversalBattery <==> !useSimulation && useUniversal
    ensures r == MacOSBattery <==> !useSimulation && !useUniversal && system == "Darwin"
    ensures r == LinuxBattery <==> !useSimulation && !useUniversal && system == "Linux"
    ensures r == WindowsBattery <==> !useSimulation && !useUniversal && system == "Windows"
  {
    if useSimulation then SimulatedBattery
    else if useUniversal then UniversalBattery
    else if system == "Darwin" then MacOSBattery
    else if system == "Linux" then LinuxBattery
    else if system == "Windows" then WindowsBattery
    else SimulatedBattery
  }

  /**
   * `create_network_monitor(use_speedtest, fallback_to_ping, use_simulation)`;
   * `speedtestAvailable` is whether the speedtest library imports. Building a
   * ping monitor cannot fail, so its `except` branch is never taken.
   */
  function CreateNetworkMonitor(useSpeedtest: bool, fallbackToPing: bool, useSimulation: bool, speedtestAvailable: bool): (r: NetworkChoice)
    ensures r == SpeedTest <==> !useSimulation && useSpeedtest && speedtestAvailable
    ensures r == Ping <==> !useSimulation && !(useSpeedtest && speedtestAvailable) && fallbackToPing
    ensures r == SimulatedNetwork <==> useSimulation || (!(useSpeedtest && speedtestAvailable) && !fallbackToPing)
  {
    if useSimulation then SimulatedNetwork
    else if useSpeedtest && speedtestAvailable then SpeedTest
    else if fallbackToPing then Ping
    else SimulatedNetwork
  }

  /** Python truthiness of an optional string: present and non-empty. */
  predicate Truthy(key: Option<string>)
  {
    key.Some? && key.value != ""
  }

  /**
   * `create_carbon_monitor(api_key, use_simulation_if_no_key, zone, use_simulation)`,
   * with `env` the value of `ELECTRICITY_MAPS_API_KEY`. The monitor is built
   * without the zone, which is only logged.
   */
  function CreateCarbonMonitor(apiKey: Option<string>, useSimulationIfNoKey: bool, zone: string, useSimulation: bool, env: Option<string>): (r: Result<CarbonChoice, string>)
    ensures useSimulation ==> r == Ok(SimulatedCarbon)
    ensures r.Ok? && r.value.ElectricityMaps? ==> !useSimulation && Some(r.value.key) == apiKey && r.value.key != ""
    ensures r.Err? <==> !useSimulation && !Truthy(apiKey) && !useSimulationIfNoKey
    ensures r.Err? ==> r.error == NoKeyError
  {
    if useSimulation then Ok(SimulatedCarbon)
    else if Truthy(apiKey) && CarbonMonitor.ElectricityMapsAvailable(CarbonMonitor.EffectiveKey(apiKey, env)) then
      Ok(ElectricityMaps(CarbonMonitor.EffectiveKey(apiKey, env).value))
    else if useSimulationIfNoKey then Ok(SimulatedCarbon)
    else Err(NoKeyError)
  }

  /**
   * A truthy key always yields an Electricity Maps monitor: the monitor keeps
   * the key it is given, so its availability check cannot fail and the
   * "key invalid" branch is never taken.
   */
  lemma KeyedCarbonIsElectricityMaps(apiKey: string, useSimulationIfNoKey: bool, zone: string, env: Option<string>)
    requires apiKey != ""
    ensures CreateCarbonMonitor(Some(apiKey), useSimulationIfNoKey, zone, false, env) == Ok(ElectricityMaps(apiKey))
  {
  }

  /** The zone never influences which carbon monitor is built. */
  lemma CarbonIgnoresZone(apiKey: Option<string>, useSimulationIfNoKey: bool, z1: string, z2: string, useSimulation: bool, env: Option<string>)
    ensures CreateCarbonMonitor(apiKey, useSimulationIfNoKey, z1, useSimulation, env)
         == CreateCarbonMonitor(apiKey, useSimulationIfNoKey, z2, useSimulation, env)
  {
  }

  // ---------------------------------------------------------------------
  // create_all_monitors
  // ---------------------------------------------------------------------

  /** `config.get("api_keys", {}).get("electricity_maps")`. */
  function ConfigKey(doc: ConfigDoc): (r: Option<string>)
    ensures doc.apiKeys.None? ==> r.None?
    ensures doc.apiKeys.Some? && "electricity_maps" in doc.apiKeys.value ==> r == doc.apiKeys.value["electricity_maps"]
  {
    match doc.apiKeys
    case None => None
    case Some(keys) => if "electricity_maps" in keys then keys["electricity_maps"] else None
  }

  /** The key handed to the carbon monitor: the configured one when truthy, else the environment's. */
  function FactoryKey(doc: ConfigDoc, env: Option<string>): (r: Option<string>)
    ensures Truthy(ConfigKey(doc)) ==> r == ConfigKey(doc)
    ensures !Truthy(ConfigKey(doc)) ==> r == env
  {
    CarbonMonitor.EffectiveKey(ConfigKey(doc), env)
  }

  /** Whether the section for `name` is enabled; a missing flag means enabled. */
  function Enabled(doc: ConfigDoc, name: string): (r: bool)
    ensures SectionOf(doc, name).enabled.None? ==> r
    ensures SectionOf(doc, name).enabled == Some(false) ==> !r
  {
    SectionOf(doc, name).enabled.GetOr(true)
  }

  /** The battery monitor `create_all_monitors` builds from its section. */
  function BatteryFor(doc: ConfigDoc, system: string): (r: BatteryChoice)
    ensures SectionOf(doc, "battery").useSimulation == Some(true) ==> r == SimulatedBattery
    ensures SectionOf(doc, "battery").useSimulation.GetOr(false) == false && SectionOf(doc, "battery").useUniversal.GetOr(true) ==> r == UniversalBattery
  {
    var s := SectionOf(doc, "battery");
    CreateBatteryMonitor(s.useUniversal.GetOr(true), s.useSimulation.GetOr(false), system)
  }

  /** The network monitor `create_all_monitors` builds from its section. */
  function NetworkFor(doc: ConfigDoc, speedtestAvailable: bool): (r: NetworkChoice)
    ensures SectionOf(doc, "network").useSimulation == Some(true) ==> r == SimulatedNetwork
    ensures SectionOf(doc, "network") == EmptySection ==> r == (if speedtestAvailable then SpeedTest else Ping)
  {
    var s := SectionOf(doc, "network");
    CreateNetworkMonitor(s.useSpeedtest.GetOr(true), s.fallbackToPing.GetOr(true), s.useSimulation.GetOr(false), speedtestAvailable)
  }

  /** The carbon monitor: the one "use_simulation" key feeds both flags, with different defaults. */
  function CarbonFor(doc: ConfigDoc, env: Option<string>): (r: Result<CarbonChoice, string>)
    ensures SectionOf(doc, "carbon").useSimulation.None? ==> r.Ok?
    ensures SectionOf(doc, "carbon").useSimulation == Some(true) ==> r == Ok(SimulatedCarbon)
    ensures r.Err? <==> SectionOf(doc, "carbon").useSimulation == Some(false) && !Truthy(FactoryKey(doc, env))
  {
    var s := SectionOf(doc, "carbon");
    CreateCarbonMonitor(FactoryKey(doc, env), s.useSimulation.GetOr(true), s.zone.GetOr(CarbonMonitor.DefaultZone), s.useSimulation.GetOr(false), env)
  }

  /**
   * `create_all_monitors(config)`: a dict with one entry per enabled signal,
   * filled in the order battery, network, carbon; the carbon factory's
   * `ValueError` propagates.
   */
  function CreateAllMonitors(doc: ConfigDoc, env: Option<string>, system: string, speedtestAvailable: bool): (r: Result<map<string, MonitorChoice>, string>)
    ensures r.Ok? ==> r.value.Keys <= {"battery", "network", "carbon"}
    ensures r.Ok? ==> ("battery" in r.value <==> Enabled(doc, "battery"))
    ensures r.Ok? ==> ("network" in r.value <==> Enabled(doc, "network"))
    ensures r.Ok? ==> ("carbon" in r.value <==> Enabled(doc, "carbon"))
    ensures r.Ok? && "battery" in r.value ==> r.value["battery"] == Battery(BatteryFor(doc, system))
    ensures r.Ok? && "network" in r.value ==> r.value["network"] == Network(NetworkFor(doc, speedtestAvailable))
    ensures r.Ok? && "carbon" in r.value ==> CarbonFor(doc, env).Ok? && r.value["carbon"] == Carbon(CarbonFor(doc, env).value)
    ensures r.Err? <==> Enabled(doc, "carbon") && CarbonFor(doc, env).Err?
  {
    var withBattery: map<string, MonitorChoice> :=
      if Enabled(doc, "battery") then map["battery" := Battery(BatteryFor(doc, system))] else map[];
    var withNetwork :=
      if Enabled(doc, "network") then withBattery["network" := Network(NetworkFor(doc, speedtestAvailable))] else withBattery;
    if Enabled(doc, "carbon") then
      match CarbonFor(doc, env)
      case Err(e) => Err(e)
      case Ok(c) => Ok(withNetwork["carbon" := Carbon(c)])
    else Ok(withNetwork)
  }

  /**
   * Building every monitor fails exactly when the carbon section is enabled,
   * sets "use_simulation" to false, and neither the configuration nor the
   * environment supplies a non-empty key.
   */
  lemma CreateAllFailsIff(doc: ConfigDoc, env: Option<string>, system: string, speedtestAvailable: bool)
    ensures CreateAllMonitors(doc, env, system, speedtestAvailable).Err? <==>
      && Enabled(doc, "carbon")
      && SectionOf(doc, "carbon").useSimulation == Some(false)
      && !Truthy(FactoryKey(doc, env))
  {
  }

  /** Without a "use_simulation" entry the carbon monitor is simulated unless a key is found, so the factory cannot fail. */
  lemma MissingSimulationFlagNeverFails(doc: ConfigDoc, env: Option<string>, system: string, speedtestAvailable: bool)
    requires SectionOf(doc, "carbon").useSimulation.None?
    ensures CreateAllMonitors(doc, env, system, speedtestAvailable).Ok?
    ensures Enabled(doc, "carbon") ==>
      CreateAllMonitors(doc, env, system, speedtestAvailable).value["carbon"]
        == Carbon(if Truthy(FactoryKey(doc, env)) then ElectricityMaps(FactoryKey(doc, env).value) else SimulatedCarbon)
  {
  }

  /** A truthy configured key wins over the environment variable. */
  lemma ConfigKeyTakesPrecedence(doc: ConfigDoc, env: Option<string>, system: string, speedtestAvailable: bool)
    requires Truthy(ConfigKey(doc))
    requires Enabled(doc, "carbon") && SectionOf(doc, "carbon").useSimulation != Some(true)
    ensures CreateAllMonitors(doc, env, system, speedtestAvailable) == CreateAllMonitors(doc, None, system, speedtestAvailable)
    ensures CreateAllMonitors(doc, env, system, speedtestAvailable).Ok?
    ensures CreateAllMonitors(doc, env, system, speedtestAvailable).value["carbon"] == Carbon(ElectricityMaps(ConfigKey(doc).value))
  {
  }

  /** An empty configuration builds all three monitors with the defaults: universal battery, speedtest or ping, and simulated carbon when no key is in the environment. */
  lemma EmptyConfigDefaults(system: string, speedtestAvailable: bool)
    ensures var r := CreateAllMonitors(ConfigDoc(None, None, None, None), None, system, speedtestAvailable);
      && r.Ok?
      && r.value == map[
           "battery" := Battery(UniversalBattery),
           "network" := Network(if speedtestAvailable then SpeedTest else Ping),
           "carbon" := Carbon(SimulatedCarbon)]
  {
  }
}
