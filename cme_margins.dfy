/**
 * CME silver margin requirements. The figures are hard-coded: even a
 * successful request yields a record tagged fallback. One-hour cache,
 * 24-hour stale window.
 */
module CmeMargins {
  import opened Common

  datatype CMEMarginData = CMEMarginData(
    initialMargin: real,      // USD per contract
    maintenanceMargin: real,  // USD per contract
    marginPerOz: real,        // USD per oz
    changePercent: real,
    dataSource: DataSource,
    error: Option<string>,
    timestamp: int)

  const CacheDuration: int := Hour
  const StaleCacheDuration: int := 24 * Hour
  const OzPerContract: real := 5000.0
  const InitialMargin: real := 35200.0
  const MaintenanceMargin: real := 32000.0
  const ChangePercent: real := 113.0

  /** The record built after a successful request (the page is not parsed). */
  function KnownMargins(now: int): (r: CMEMarginData)
    ensures r.marginPerOz * OzPerContract == r.initialMargin
    ensures r.dataSource == Fallback && r.error.Some?
  {
    CMEMarginData(InitialMargin, MaintenanceMargin, InitialMargin / OzPerContract, ChangePercent, Fallback,
                  Some("Using known margin requirements - real-time scraping not implemented"), now)
  }

  /** The literal returned when the request fails and no usable cache exists. */
  function FallbackMargins(now: int): CMEMarginData {
    CMEMarginData(35200.0, 32000.0, 7.04, 113.0, Fallback, Some("Using known margin requirements"), now)
  }

  /** Both paths report the same figures; 35,200 / 5,000 is the literal's 7.04. */
  lemma SuccessAgreesWithFallback(now: int)
    ensures KnownMargins(now).(error := None) == FallbackMargins(now).(error := None)
  {
    assert InitialMargin / OzPerContract == 7.04;
  }

  /** The module-level pair (cache, cacheTime). */
  datatype CacheState = CacheState(cache: Option<CMEMarginData>, cacheTime: int)

  predicate IsFresh(s: CacheState, now: int) {
    s.cache.Some? && now - s.cacheTime < CacheDuration
  }

  predicate IsUsableStale(s: CacheState, now: int) {
    s.cache.Some? && now - s.cacheTime < StaleCacheDuration
  }

  /**
   * One call of getCMEMargins; `requestOk` says whether the page request
   * succeeded.
   */
  function Step(s: CacheState, now: int, requestOk: bool): (out: (CMEMarginData, CacheState))
    ensures IsFresh(s, now) ==> out == (s.cache.value, s)
    ensures !IsFresh(s, now) && requestOk ==> out == (KnownMargins(now), CacheState(Some(KnownMargins(now)), now))
    ensures !IsFresh(s, now) && !requestOk ==>
      out.1 == s && (if IsUsableStale(s, now) then out.0 == s.cache.value.(dataSource := Cached) else out.0 == FallbackMargins(now))
    // Nothing is ever stored or returned tagged live.
    ensures (s.cache.Some? ==> s.cache.value.dataSource != Live) ==>
      out.0.dataSource != Live && (out.1.cache.Some? ==> out.1.cache.value.dataSource != Live)
    // Whatever path is taken, the reported figures are the known ones.
    ensures (s.cache.Some? ==> s.cache.value.initialMargin == InitialMargin) ==>
      out.0.initialMargin == InitialMargin && (out.1.cache.Some? ==> out.1.cache.value.initialMargin == InitialMargin)
  {
    if IsFresh(s, now) then (s.cache.value, s)
    else if requestOk then (KnownMargins(now), CacheState(Some(KnownMargins(now)), now))
    else if IsUsableStale(s, now) then (s.cache.value.(dataSource := Cached), s)
    else (FallbackMargins(now), s)
  }

  class MarginCache {
    var cache: Option<CMEMarginData>
    var cacheTime: int

    constructor ()
      ensures cache == None && cacheTime == 0
    {
      cache := None;
      cacheTime := 0;
    }

    function State(): CacheState
      reads this
    {
      CacheState(cache, cacheTime)
    }

    method GetCMEMargins(now: int, requestOk: bool) returns (r: CMEMarginData)
      modifies this
      ensures (r, State()) == Step(old(State()), now, requestOk)
    {
      if cache.Some? && now - cacheTime < CacheDuration {
        return cache.value;
      }
      if requestOk {
        var initialMargin := InitialMargin;
        var marginPerOz := initialMargin / OzPerContract;
        var result := CMEMarginData(initialMargin, MaintenanceMargin, marginPerOz, ChangePercent, Fallback,
                                    Some("Using known margin requirements - real-time scraping not implemented"), now);
        cache := Some(result);
        cacheTime := now;
        return result;
      }
      if cache.Some? && now - cacheTime < StaleCacheDuration {
        return cache.value.(dataSource := Cached);
      }
      return FallbackMargins(now);
    }
  }
}
