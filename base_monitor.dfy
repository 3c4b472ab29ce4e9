/**
 * The time-to-live cache every monitor inherits (src/monitors/base_monitor.py).
 * The clock reading and the result of the monitor's own `get_info` are
 * parameters; the info dict is a map from field name to a value of type `V`.
 */
module BaseMonitor {

  const DefaultCacheTtl: int := 300

  /**
   * Whether `get_cached_info` at time `now` answers from the cache: the cache
   * is non-empty and younger than the ttl, compared strictly.
   */
  function CacheHit<V>(cache: map<string, V>, lastUpdateTime: real, cacheTtl: int, now: real): (r: bool)
    ensures r ==> cache != map[] && now < lastUpdateTime + cacheTtl as real
    ensures r && cacheTtl <= 0 ==> now < lastUpdateTime
  {
    |cache| > 0 && now - lastUpdateTime < cacheTtl as real
  }

  /** An empty cache always misses, whatever the clock says. */
  lemma EmptyCacheMisses<V>(lastUpdateTime: real, cacheTtl: int, now: real)
    ensures !CacheHit<V>(map[], lastUpdateTime, cacheTtl, now)
  {
  }

  /** An entry exactly `cacheTtl` seconds old is stale. */
  lemma AgeEqualToTtlMisses<V>(cache: map<string, V>, lastUpdateTime: real, cacheTtl: int)
    ensures !CacheHit(cache, lastUpdateTime, cacheTtl, lastUpdateTime + cacheTtl as real)
  {
  }

  /** After a fetch of a non-empty dict at `t`, every call before `t + cacheTtl` is answered from the cache. */
  lemma FreshFetchHits<V>(info: map<string, V>, t: real, cacheTtl: int, now: real)
    requires |info| > 0
    requires now < t + cacheTtl as real
    ensures CacheHit(info, t, cacheTtl, now)
  {
  }

  class Monitor<V> {
    const name: string
    var lastUpdateTime: real
    var cacheTtl: int
    var cache: map<string, V>

    /** `BaseMonitor.__init__(name)`: empty cache, never updated, ttl 300. */
    constructor (name: string)
      ensures this.name == name
      ensures lastUpdateTime == 0.0 && cacheTtl == DefaultCacheTtl && cache == map[]
    {
      this.name := name;
      lastUpdateTime := 0.0;
      cacheTtl := DefaultCacheTtl;
      cache := map[];
    }

    /**
     * `get_cached_info()` at clock reading `now`; `latest` is what `get_info()`
     * would return. `fetched` tells whether `get_info` was called.
     */
    method GetCachedInfo(now: real, latest: map<string, V>) returns (info: map<string, V>, fetched: bool)
      modifies this`cache, this`lastUpdateTime
      ensures fetched <==> !CacheHit(old(cache), old(lastUpdateTime), cacheTtl, now)
      ensures !fetched ==> info == old(cache) && cache == old(cache) && lastUpdateTime == old(lastUpdateTime)
      ensures fetched ==> info == latest && cache == latest && lastUpdateTime == now
    {
      if |cache| > 0 && now - lastUpdateTime < cacheTtl as real {
        return cache, false;
      }
      cache := latest;
      lastUpdateTime := now;
      return latest, true;
    }

    /** `refresh()`: empties the cache and hands back a latest reading without storing it. */
    method Refresh(latest: map<string, V>) returns (info: map<string, V>)
      modifies this`cache
      ensures info == latest
      ensures cache == map[]
    {
      cache := map[];
      return latest;
    }

    /** `set_cache_ttl(ttl)`: changes the ttl and nothing else. */
    method SetCacheTtl(ttl: int)
      modifies this`cacheTtl
      ensures cacheTtl == ttl
    {
      cacheTtl := ttl;
    }
  }

  /** Two lookups in a row: a refresh between them makes the second one fetch. */
  method RefreshForcesFetch<V>(m: Monitor<V>, t: real, first: map<string, V>, second: map<string, V>)
    returns (fetched: bool)
    modifies m
    ensures fetched
    ensures m.cache == second && m.lastUpdateTime == t
  {
    var _ := m.Refresh(first);
    var info;
    info, fetched := m.GetCachedInfo(t, second);
  }
}
