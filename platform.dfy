/**
 * Platform detection (src/utils/platform.py): the platform enum read from
 * the system name, and the capability flags derived from it. The system and
 * release strings that `platform.system()` and `platform.release()` report
 * are parameters.
 */
module Platform {
  import opened Text
  import Factory

  datatype PlatformType = Windows | MacOS | Linux | Unknown

  /** `detect_platform()`: the lowercased system name decides. */
  function DetectPlatform(system: string): (r: PlatformType)
    ensures r == Unknown <==> Lower(system) !in {"windows", "darwin", "linux"}
  {
    var s := Lower(system);
    if s == "windows" then Windows
    else if s == "darwin" then MacOS
    else if s == "linux" then Linux
    else Unknown
  }

  /** Each platform is recognised by exactly one lowercased name; every other name is unknown. */
  lemma DetectPlatformIff(system: string)
    ensures DetectPlatform(system) == Windows <==> Lower(system) == "windows"
    ensures DetectPlatform(system) == MacOS <==> Lower(system) == "darwin"
    ensures DetectPlatform(system) == Linux <==> Lower(system) == "linux"
    ensures DetectPlatform(system) == Unknown <==> Lower(system) !in {"windows", "darwin", "linux"}
  {
  }

  /** The detection ignores case: names that agree once lowercased get the same platform. */
  lemma DetectIgnoresCase(a: string, b: string)
    requires Lower(a) == Lower(b)
    ensures DetectPlatform(a) == DetectPlatform(b)
    ensures DetectPlatform(Lower(a)) == DetectPlatform(a)
  {
    LowerIdempotent(a);
  }

  /** The names `platform.system()` reports on the three supported systems. */
  lemma ReportedNamesDetected()
    ensures DetectPlatform("Windows") == Windows
    ensures DetectPlatform("Darwin") == MacOS
    ensures DetectPlatform("Linux") == Linux
  {
    assert Lower("Windows") == "windows";
    assert Lower("Darwin") == "darwin";
    assert Lower("Linux") == "linux";
  }

  /** `is_mobile()`: a placeholder that always answers no. */
  function IsMobile(): (r: bool)
    ensures !r
  {
    false
  }

  datatype Capabilities = Capabilities(hasBattery: bool, hasNetwork: bool, supportsGpu: bool, isMobile: bool, isServer: bool)

  /** `get_platform_capabilities()` for the given system and release names. */
  function GetCapabilities(system: string, release: string): (r: Capabilities)
    ensures r.hasBattery <==> DetectPlatform(system) != Unknown
    ensures r.supportsGpu <==> DetectPlatform(system) != Unknown
    ensures r.hasNetwork && !r.isMobile
    ensures r.isServer <==> DetectPlatform(system) == Linux && Contains(Lower(release), "server")
  {
    var plat := DetectPlatform(system);
    Capabilities(
      plat in [MacOS, Linux, Windows],
      true,
      plat in [MacOS, Windows, Linux],
      IsMobile(),
      plat == Linux && Contains(Lower(release), "server"))
  }

  /** A server is always a Linux machine with a battery and GPU support claimed. */
  lemma ServerIsLinux(system: string, release: string)
    requires GetCapabilities(system, release).isServer
    ensures Lower(system) == "linux"
    ensures GetCapabilities(system, release).hasBattery && GetCapabilities(system, release).supportsGpu
  {
    DetectPlatformIff(system);
  }

  /** Every system name the monitor factory builds a native battery monitor for is one that claims a battery. */
  lemma NativeBatteryClaimsBattery(system: string, release: string)
    requires Factory.NativeBatteryPlatform(system)
    ensures GetCapabilities(system, release).hasBattery
  {
    ReportedNamesDetected();
  }

  /**
   * The converse fails: the factory compares the system name exactly while
   * detection lowercases it, so "LINUX" claims a battery yet gets no native
   * battery monitor.
   */
  lemma CaseSensitiveFactory(release: string)
    ensures GetCapabilities("LINUX", release).hasBattery
    ensures Factory.CreateBatteryMonitor(false, false, "LINUX") == Factory.SimulatedBattery
  {
    assert Lower("LINUX") == "linux";
  }
}
