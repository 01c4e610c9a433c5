/**
 * Shanghai silver price, estimated as the COMEX spot plus a fixed $0.50
 * premium and converted to CNY per gram; 15-minute cache, 24-hour stale
 * window, fallback on the same estimate.
 */
module ShanghaiPrice {
  import opened Common

  datatype ShanghaiPriceData = ShanghaiPriceData(
    price: real,     // CNY per gram
    priceUSD: real,  // USD per oz
    premium: real,   // USD per oz over COMEX
    dataSource: DataSource,
    error: Option<string>,
    timestamp: int)

  const CacheDuration: int := 15 * Minute
  const StaleCacheDuration: int := 24 * Hour
  const GramsPerOz: real := 31.1035
  const CnyToUsd: real := 0.14
  const TypicalPremium: real := 0.50

  /** The record built after a successful request (the response is not parsed). */
  function Estimate(comexSpotPrice: real, now: int): (r: ShanghaiPriceData)
    ensures r.premium == TypicalPremium
    ensures r.priceUSD == comexSpotPrice + r.premium
    ensures r.price * GramsPerOz * CnyToUsd == r.priceUSD
    ensures r.dataSource == Live && r.error == None
  {
    var shanghaiPriceUSD := comexSpotPrice + TypicalPremium;
    var shanghaiPriceCNY := (shanghaiPriceUSD / GramsPerOz) / CnyToUsd;
    ShanghaiPriceData(shanghaiPriceCNY, shanghaiPriceUSD, TypicalPremium, Live, None, now)
  }

  function FallbackShanghai(comexSpotPrice: real, now: int): (r: ShanghaiPriceData)
    ensures r.price == 0.0 && r.priceUSD == comexSpotPrice + TypicalPremium && r.premium == TypicalPremium
    ensures r.dataSource == Fallback && r.error.Some?
  {
    ShanghaiPriceData(0.0, comexSpotPrice + 0.50, 0.50, Fallback, Some("Using estimated premium"), now)
  }

  /** The module-level pair (cache, cacheTime). */
  datatype CacheState = CacheState(cache: Option<ShanghaiPriceData>, cacheTime: int)

  predicate IsFresh(s: CacheState, now: int) {
    s.cache.Some? && now - s.cacheTime < CacheDuration
  }

  predicate IsUsableStale(s: CacheState, now: int) {
    s.cache.Some? && now - s.cacheTime < StaleCacheDuration
  }

  /** One call of getShanghaiPrice(comexSpotPrice). */
  function Step(s: CacheState, now: int, comexSpotPrice: real, requestOk: bool): (out: (ShanghaiPriceData, CacheState))
    // A fresh hit ignores the new spot price.
    ensures IsFresh(s, now) ==> out == (s.cache.value, s)
    ensures !IsFresh(s, now) && requestOk ==>
      out == (Estimate(comexSpotPrice, now), CacheState(Some(Estimate(comexSpotPrice, now)), now))
    ensures !IsFresh(s, now) && !requestOk ==>
      out.1 == s &&
      (if IsUsableStale(s, now) then out.0 == s.cache.value.(dataSource := Cached) else out.0 == FallbackShanghai(comexSpotPrice, now))
    // Every record ever built or stored carries the 0.50 premium.
    ensures (s.cache.Some? ==> s.cache.value.premium == TypicalPremium) ==>
      out.0.premium == TypicalPremium && (out.1.cache.Some? ==> out.1.cache.value.premium == TypicalPremium)
  {
    if IsFresh(s, now) then (s.cache.value, s)
    else if requestOk then (Estimate(comexSpotPrice, now), CacheState(Some(Estimate(comexSpotPrice, now)), now))
    else if IsUsableStale(s, now) then (s.cache.value.(dataSource := Cached), s)
    else (FallbackShanghai(comexSpotPrice, now), s)
  }

  class ShanghaiCache {
    var cache: Option<ShanghaiPriceData>
    var cacheTime: int

    constructor ()
      ensures cache == None && cacheTime == 0
    {
      cache := None;
      cacheTime := 0;
    }

    function State(): CacheState
      reads this
    {
      CacheState(cache, cacheTime)
    }

    method GetShanghaiPrice(now: int, comexSpotPrice: real, requestOk: bool) returns (r: ShanghaiPriceData)
      modifies this
      ensures (r, State()) == Step(old(State()), now, comexSpotPrice, requestOk)
    {
      if cache.Some? && now - cacheTime < CacheDuration {
        return cache.value;
      }
      if requestOk {
        var result := Estimate(comexSpotPrice, now);
        cache := Some(result);
        cacheTime := now;
        return result;
      }
      if cache.Some? && now - cacheTime < StaleCacheDuration {
        return cache.value.(dataSource := Cached);
      }
      return FallbackShanghai(comexSpotPrice, now);
    }
  }
}
