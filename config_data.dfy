/**
 * The configuration dictionary as loaded from YAML or JSON, with the keys the
 * orchestrator, the validator and the monitor factory read. Every key may be
 * absent (`None`); a present key holds a value of the type the code expects.
 */
module ConfigData {
  import opened Common

  /** One `monitors.<signal>` section. */
  datatype MonitorSection = MonitorSection(
    enabled: Option<bool>,
    useUniversal: Option<bool>,
    useSimulation: Option<bool>,
    useSpeedtest: Option<bool>,
    fallbackToPing: Option<bool>,
    zone: Option<string>)

  /** The `orchestrator` section. */
  datatype OrchestratorSection = OrchestratorSection(
    weights: Option<map<string, real>>,
    threshold: Option<real>,
    hardEdgeBattery: Option<real>,
    hardCloudBattery: Option<real>)

  /** The `logging` section. */
  datatype LoggingSection = LoggingSection(level: Option<string>, file: Option<string>)

  /** The whole dictionary; `monitors` maps a signal name to its section, `apiKeys` a service name to its key. */
  datatype ConfigDoc = ConfigDoc(
    orchestrator: Option<OrchestratorSection>,
    monitors: Option<map<string, MonitorSection>>,
    logging: Option<LoggingSection>,
    apiKeys: Option<map<string, Option<string>>>)

  /** `{}` as a monitor section. */
  const EmptySection: MonitorSection := MonitorSection(None, None, None, None, None, None)

  /** An absent `orchestrator` section reads like an empty one. */
  function OrchestratorOf(doc: ConfigDoc): (r: OrchestratorSection)
    ensures doc.orchestrator.Some? ==> r == doc.orchestrator.value
    ensures doc.orchestrator.None? ==> r.weights.None? && r.threshold.None? && r.hardEdgeBattery.None? && r.hardCloudBattery.None?
  {
    doc.orchestrator.GetOr(OrchestratorSection(None, None, None, None))
  }

  /** `config.get("monitors", {}).get(name, {})`. */
  function SectionOf(doc: ConfigDoc, name: string): (r: MonitorSection)
    ensures doc.monitors.None? ==> r == EmptySection
    ensures doc.monitors.Some? && name in doc.monitors.value ==> r == doc.monitors.value[name]
    ensures doc.monitors.Some? && name !in doc.monitors.value ==> r == EmptySection
  {
    match doc.monitors
    case None => EmptySection
    case Some(sections) => Get(sections, name, EmptySection)
  }
}
