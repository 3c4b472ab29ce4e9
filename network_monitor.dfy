/**
 * The network monitors (src/monitors/network_monitor.py) without their I/O:
 * the quality formula, the standardisation in `get_info` and its fallback,
 * the ping host loop with its latency-to-speed bands, and the simulator step.
 * Ping results, random draws and clock readings are parameters.
 */
module NetworkMonitor {
  import opened Common
  import BaseMonitor

  /** `NetworkMonitor.__init__` shortens the base ttl to one minute. */
  const NetworkCacheTtl: int := 60

  /** `NetworkMonitor.__init__`: the base monitor named "network", its ttl shortened to a minute. */
  method NewNetworkCache<V>() returns (m: BaseMonitor.Monitor<V>)
    ensures fresh(m) && m.name == "network"
    ensures m.cacheTtl == NetworkCacheTtl && m.cache == map[] && m.lastUpdateTime == 0.0
  {
    m := new BaseMonitor.Monitor("network");
    m.SetCacheTtl(NetworkCacheTtl);
  }

  // ---------------------------------------------------------------------
  // _calculate_quality
  // ---------------------------------------------------------------------

  /** Speed normalised over 0-200 Mbps, capped at 1. */
  function SpeedScore(speed: real): (r: real)
    ensures r <= 1.0
    ensures speed >= 0.0 ==> r >= 0.0
    ensures speed >= 200.0 ==> r == 1.0
  {
    Min(1.0, speed / 200.0)
  }

  /** Latency normalised over 0-500 ms and inverted, floored at 0. */
  function LatencyScore(latency: real): (r: real)
    ensures r >= 0.0
    ensures latency >= 0.0 ==> r <= 1.0
    ensures latency >= 500.0 ==> r == 0.0
    ensures latency == 0.0 ==> r == 1.0
  {
    Max(0.0, 1.0 - latency / 500.0)
  }

  /** `_calculate_quality(speed_mbps, latency_ms)`: 70% speed, 30% latency, clamped to [0, 1]. */
  function Quality(speed: real, latency: real): (r: real)
    ensures 0.0 <= r <= 1.0
  {
    Clamp(0.0, 1.0, 0.7 * SpeedScore(speed) + 0.3 * LatencyScore(latency))
  }

  /** More speed never lowers quality and more latency never raises it. */
  lemma QualityMonotone(s1: real, s2: real, l1: real, l2: real)
    requires s1 <= s2 && l2 <= l1
    ensures Quality(s1, l1) <= Quality(s2, l2)
  {
    assert SpeedScore(s1) <= SpeedScore(s2);
    assert LatencyScore(l1) <= LatencyScore(l2);
  }

  /**
   * For non-negative inputs the clamp is never needed: speed contributes at
   * most 0.7 and latency at most 0.3.
   */
  lemma QualityUnclamped(speed: real, latency: real)
    requires speed >= 0.0 && latency >= 0.0
    ensures Quality(speed, latency) == 0.7 * SpeedScore(speed) + 0.3 * LatencyScore(latency)
    ensures 0.7 * SpeedScore(speed) <= 0.7 && 0.3 * LatencyScore(latency) <= 0.3
  {
  }

  /** 200 Mbps or more with no latency is perfect quality; no speed with 500 ms or more is none. */
  lemma QualityExtremes(speed: real, latency: real)
    ensures speed >= 200.0 ==> Quality(speed, 0.0) == 1.0
    ensures speed <= 0.0 && latency >= 500.0 ==> Quality(speed, latency) == 0.0
  {
  }

  // ---------------------------------------------------------------------
  // get_info and the fallback
  // ---------------------------------------------------------------------

  /** The raw dict a concrete monitor returns; any field may be missing. */
  datatype RawNetworkInfo = RawNetworkInfo(
    speed: Option<real>,
    latency: Option<real>,
    quality: Option<real>,
    connected: Option<bool>,
    source: Option<string>)

  /** The standardised dict of `get_info`. */
  datatype NetworkInfo = NetworkInfo(
    speed: real,
    latency: real,
    quality: real,
    connected: bool,
    source: string,
    timestamp: real)

  /** `_get_fallback_info()` at clock reading `now`. */
  function Fallback(now: real): (r: NetworkInfo)
    ensures r.speed == 10.0 && r.latency == 100.0 && r.quality == 0.5
    ensures r.connected && r.source == "fallback" && r.timestamp == now
  {
    NetworkInfo(10.0, 100.0, 0.5, true, "fallback", now)
  }

  /**
   * `get_info()` at clock reading `now`; `raw` is `None` when
   * `_get_raw_network_info` raised, which yields the fallback.
   */
  function GetInfo(raw: Option<RawNetworkInfo>, now: real): (r: NetworkInfo)
    ensures 0.0 <= r.quality <= 1.0
    ensures r.timestamp == now
    ensures raw.None? ==> r == Fallback(now)
    ensures raw.Some? ==>
      && r.speed == raw.value.speed.GetOr(0.0)
      && r.latency == raw.value.latency.GetOr(0.0)
      && r.quality == Clamp(0.0, 1.0, raw.value.quality.GetOr(0.0))
      && r.connected == raw.value.connected.GetOr(false)
      && r.source == raw.value.source.GetOr("unknown")
  {
    match raw
    case None => Fallback(now)
    case Some(info) =>
      NetworkInfo(
        info.speed.GetOr(0.0),
        info.latency.GetOr(0.0),
        Clamp(0.0, 1.0, info.quality.GetOr(0.0)),
        info.connected.GetOr(false),
        info.source.GetOr("unknown"),
        now)
  }

  /** A raw quality already in [0, 1] passes through `get_info` unchanged. */
  lemma GetInfoKeepsUnitQuality(raw: RawNetworkInfo, now: real)
    requires raw.quality.Some? && 0.0 <= raw.quality.value <= 1.0
    ensures GetInfo(Some(raw), now).quality == raw.quality.value
  {
  }

  // ---------------------------------------------------------------------
  // PingMonitor
  // ---------------------------------------------------------------------

  const PingHosts: seq<string> := ["8.8.8.8", "1.1.1.1", "208.67.222.222"]

  /** The speed band `[low, low + width]` estimated from a latency. */
  datatype SpeedBand = SpeedBand(low: real, width: real)

  function BandOf(latency: real): (r: SpeedBand)
    ensures latency < 50.0 ==> r == SpeedBand(50.0, 50.0)
    ensures 50.0 <= latency < 100.0 ==> r == SpeedBand(20.0, 30.0)
    ensures 100.0 <= latency < 200.0 ==> r == SpeedBand(5.0, 15.0)
    ensures 200.0 <= latency ==> r == SpeedBand(1.0, 4.0)
  {
    if latency < 50.0 then SpeedBand(50.0, 50.0)
    else if latency < 100.0 then SpeedBand(20.0, 30.0)
    else if latency < 200.0 then SpeedBand(5.0, 15.0)
    else SpeedBand(1.0, 4.0)
  }

  /** The band's low end plus `draw`, the value of `random.uniform(0, width)`. */
  function EstimatedSpeed(latency: real, draw: real): (r: real)
    ensures 0.0 <= draw <= BandOf(latency).width ==> BandOf(latency).low <= r <= BandOf(latency).low + BandOf(latency).width
    ensures 0.0 <= draw <= BandOf(latency).width ==> 1.0 <= r <= 100.0
  {
    BandOf(latency).low + draw
  }

  /** Of two latencies in different bands, the lower never gets the lower speed; every estimate lies in [1, 100]. */
  lemma BandsOrdered(l1: real, l2: real, d1: real, d2: real)
    requires l1 <= l2 && BandOf(l1) != BandOf(l2)
    requires 0.0 <= d1 <= BandOf(l1).width && 0.0 <= d2 <= BandOf(l2).width
    ensures EstimatedSpeed(l2, d2) <= EstimatedSpeed(l1, d1)
    ensures 1.0 <= EstimatedSpeed(l2, d2) <= 100.0
  {
  }

  /** The first host, in list order, whose ping gave a positive latency. */
  function FirstResponsive(hosts: seq<string>, ping: string -> Option<real>): (r: Option<nat>)
    ensures r.Some? ==> r.value < |hosts| && ping(hosts[r.value]).Some? && ping(hosts[r.value]).value > 0.0
    ensures r.Some? ==> forall j :: 0 <= j < r.value ==> !(ping(hosts[j]).Some? && ping(hosts[j]).value > 0.0)
    ensures r.None? ==> forall j :: 0 <= j < |hosts| ==> !(ping(hosts[j]).Some? && ping(hosts[j]).value > 0.0)
  {
    if hosts == [] then None
    else if ping(hosts[0]).Some? && ping(hosts[0]).value > 0.0 then Some(0)
    else match FirstResponsive(hosts[1..], ping)
      case None => None
      case Some(i) => Some(i + 1)
  }

  /** The raw dict built from one successful ping, its numbers rounded as reported. */
  function PingReading(host: string, latency: real, draw: real): (r: RawNetworkInfo)
    ensures r.connected == Some(true) && r.source == Some("ping_" + host)
    ensures r.speed == Some(RoundTo(EstimatedSpeed(latency, draw), 10))
    ensures r.latency == Some(RoundTo(latency, 10))
    ensures r.quality == Some(RoundTo(Quality(EstimatedSpeed(latency, draw), latency), 1000))
  {
    var speed := EstimatedSpeed(latency, draw);
    RawNetworkInfo(
      Some(RoundTo(speed, 10)),
      Some(RoundTo(latency, 10)),
      Some(RoundTo(Quality(speed, latency), 1000)),
      Some(true),
      Some("ping_" + host))
  }

  /** Rounding to three places keeps quality in [0, 1]. */
  lemma RoundedQualityInUnit(q: real)
    requires 0.0 <= q <= 1.0
    ensures 0.0 <= RoundTo(q, 1000) <= 1.0
  {
    RoundToGrid(q, 0, 1000);
    RoundToGrid(q, 1000, 1000);
  }

  /**
   * `PingMonitor._get_raw_network_info()`: `ping(host)` is the latency that
   * `_ping_host` returned, or `None` when it raised. `None` as a result is
   * the final `RuntimeError`.
   */
  method PingRawInfo(ping: string -> Option<real>, draw: real) returns (r: Option<RawNetworkInfo>)
    ensures r.None? <==> FirstResponsive(PingHosts, ping).None?
    ensures r.Some? ==>
      var host := PingHosts[FirstResponsive(PingHosts, ping).value];
      r.value == PingReading(host, ping(host).value, draw)
  {
    var i := 0;
    while i < |PingHosts|
      invariant 0 <= i <= |PingHosts|
      invariant forall j :: 0 <= j < i ==> !(ping(PingHosts[j]).Some? && ping(PingHosts[j]).value > 0.0)
    {
      var host := PingHosts[i];
      var latency := ping(host);
      if latency.Some? && latency.value > 0.0 {
        FirstResponsiveIs(PingHosts, ping, i);
        return Some(PingReading(host, latency.value, draw));
      }
      i := i + 1;
    }
    return None;
  }

  /** The first responsive index is the one the scan stops at. */
  lemma FirstResponsiveIs(hosts: seq<string>, ping: string -> Option<real>, i: nat)
    requires i < |hosts| && ping(hosts[i]).Some? && ping(hosts[i]).value > 0.0
    requires forall j :: 0 <= j < i ==> !(ping(hosts[j]).Some? && ping(hosts[j]).value > 0.0)
    ensures FirstResponsive(hosts, ping) == Some(i)
  {
    var r := FirstResponsive(hosts, ping);
    assert r.Some?;
    if r.value < i {
      assert false;
    } else if r.value > i {
      assert false;
    }
  }

  /** A successful ping reading passes through `get_info` with its quality in [0, 1] and "connected" set. */
  lemma PingInfoConnected(host: string, latency: real, draw: real, now: real)
    requires latency > 0.0 && 0.0 <= draw <= BandOf(latency).width
    ensures GetInfo(Some(PingReading(host, latency, draw)), now).connected
    ensures GetInfo(Some(PingReading(host, latency, draw)), now).quality == RoundTo(Quality(EstimatedSpeed(latency, draw), latency), 1000)
  {
    RoundedQualityInUnit(Quality(EstimatedSpeed(latency, draw), latency));
  }

  // ---------------------------------------------------------------------
  // SimulatedNetworkMonitor
  // ---------------------------------------------------------------------

  const BaseSpeed: real := 50.0
  const BaseLatency: real := 30.0

  /** Python's `int(x)`: truncation toward zero. */
  function Trunc(x: real): (r: int)
    ensures x >= 0.0 ==> r == x.Floor
    ensures x < 0.0 ==> r == -((-x).Floor)
  {
    if x >= 0.0 then x.Floor else -((-x).Floor)
  }

  /** `int(current_time) % 300 < 30`: the first 30 seconds of every five minutes. */
  function InSlowdown(now: real): (r: bool)
    ensures 0.0 <= now < 30.0 ==> r
    ensures 30.0 <= now < 300.0 ==> !r
  {
    Trunc(now) % 300 < 30
  }

  /** The simulated reading before rounding. */
  datatype SimulatedReading = SimulatedReading(speed: real, latency: real, quality: real, connected: bool)

  /**
   * One simulator step at clock reading `now`. `speedDraw` is
   * `random.uniform(-10, 10)`, `latencyDraw` is `random.uniform(-5, 5)` and
   * `connectDraw` is `random.random()`.
   */
  function Simulate(now: real, speedDraw: real, latencyDraw: real, connectDraw: real): (r: SimulatedReading)
    ensures r.connected <==> connectDraw > 0.05
    ensures r.connected ==> r.speed >= 0.1 && r.latency >= 1.0
    ensures !r.connected ==> r.speed == 0.0 && r.latency == 1000.0 && r.quality == 0.0
    ensures r.quality == Quality(r.speed, r.latency)
  {
    var sv := if InSlowdown(now) then speedDraw - 30.0 else speedDraw;
    var lv := if InSlowdown(now) then latencyDraw + 50.0 else latencyDraw;
    var connected := connectDraw > 0.05;
    var speed := if connected then Max(0.1, BaseSpeed + sv) else 0.0;
    var latency := if connected then Max(1.0, BaseLatency + lv) else 1000.0;
    SimulatedReading(speed, latency, Quality(speed, latency), connected)
  }

  /** During a slowdown a connected reading is 30 Mbps slower and 50 ms later, before the floors. */
  lemma SlowdownShift(now: real, speedDraw: real, latencyDraw: real, connectDraw: real)
    requires connectDraw > 0.05
    ensures InSlowdown(now) ==>
      && Simulate(now, speedDraw, latencyDraw, connectDraw).speed == Max(0.1, BaseSpeed + speedDraw - 30.0)
      && Simulate(now, speedDraw, latencyDraw, connectDraw).latency == Max(1.0, BaseLatency + latencyDraw + 50.0)
    ensures !InSlowdown(now) ==>
      && Simulate(now, speedDraw, latencyDraw, connectDraw).speed == Max(0.1, BaseSpeed + speedDraw)
      && Simulate(now, speedDraw, latencyDraw, connectDraw).latency == Max(1.0, BaseLatency + latencyDraw)
  {
  }

  /** Slowdown windows recur every 300 seconds. */
  lemma SlowdownPeriodic(now: real)
    requires now >= 0.0
    ensures InSlowdown(now) <==> InSlowdown(now + 300.0)
  {
    assert (now + 300.0).Floor == now.Floor + 300;
  }

  /** The raw dict of a simulated step, rounded as reported. */
  function SimulatedRaw(s: SimulatedReading): (r: RawNetworkInfo)
    ensures r.connected == Some(s.connected) && r.source == Some("simulation")
  {
    RawNetworkInfo(
      Some(RoundTo(s.speed, 10)),
      Some(RoundTo(s.latency, 10)),
      Some(RoundTo(s.quality, 1000)),
      Some(s.connected),
      Some("simulation"))
  }

  /** The reported, rounded simulator values keep the floors 0.1 Mbps and 1 ms. */
  lemma SimulatedRawBounds(now: real, speedDraw: real, latencyDraw: real, connectDraw: real)
    requires connectDraw > 0.05
    ensures var raw := SimulatedRaw(Simulate(now, speedDraw, latencyDraw, connectDraw));
      raw.speed.value >= 0.1 && raw.latency.value >= 1.0 && 0.0 <= raw.quality.value <= 1.0
  {
    var s := Simulate(now, speedDraw, latencyDraw, connectDraw);
    RoundToGrid(s.speed, 1, 10);
    RoundToGrid(s.latency, 10, 10);
    RoundedQualityInUnit(s.quality);
  }

  class SimulatedNetworkMonitor {
    var lastUpdate: real

    /** `__init__` records the clock reading `now`. */
    constructor (now: real)
      ensures lastUpdate == now
    {
      lastUpdate := now;
    }

    /** `_get_raw_network_info()` at clock reading `now`: one step, and `last_update` becomes `now`. */
    method RawInfo(now: real, speedDraw: real, latencyDraw: real, connectDraw: real) returns (r: RawNetworkInfo)
      modifies this
      ensures r == SimulatedRaw(Simulate(now, speedDraw, latencyDraw, connectDraw))
      ensures lastUpdate == now
    {
      var step := Simulate(now, speedDraw, latencyDraw, connectDraw);
      lastUpdate := now;
      return SimulatedRaw(step);
    }
  }
}
