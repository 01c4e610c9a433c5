/**
 * SLV and SIVR fund prices and their signed divergence, behind a
 * five-minute cache with a 24-hour stale window and a fixed fallback.
 */
module EtfPrices {
  import opened Common

  datatype ETFPriceData = ETFPriceData(
    slvPrice: real,
    sivrPrice: real,
    slvChange: real,
    sivrChange: real,
    divergence: real,  // percent
    dataSource: DataSource,
    error: Option<string>,
    timestamp: int)

  /**
   * `meta.regularMarketPrice` and `meta.previousClose` of both funds; the
   * pair of responses is `None` when a request fails or a result is missing.
   */
  datatype EtfQuotes = EtfQuotes(slvPrice: real, slvPrevClose: real, sivrPrice: real, sivrPrevClose: real)

  const CacheDuration: int := 5 * Minute
  const StaleCacheDuration: int := 24 * Hour

  predicate InBand(price: real) {
    10.0 <= price <= 200.0
  }

  /** The try block of getETFPrices: `None` where it throws. */
  function FetchEtfPrices(quotes: Option<EtfQuotes>, now: int): (r: Option<ETFPriceData>)
    ensures r.Some? <==> quotes.Some? && InBand(quotes.value.slvPrice) && InBand(quotes.value.sivrPrice)
    ensures r.Some? ==>
      var q := quotes.value;
      && r.value.slvPrice == q.slvPrice && r.value.sivrPrice == q.sivrPrice
      && r.value.slvChange == q.slvPrice - q.slvPrevClose
      && r.value.sivrChange == q.sivrPrice - q.sivrPrevClose
      && r.value.divergence * q.sivrPrice == (q.slvPrice - q.sivrPrice) * 100.0
      && (r.value.divergence < 0.0 <==> q.slvPrice < q.sivrPrice)
      && r.value.dataSource == Live && r.value.error == None && r.value.timestamp == now
  {
    match quotes
    case None => None
    case Some(q) =>
      if q.slvPrice < 10.0 || q.slvPrice > 200.0 || q.sivrPrice < 10.0 || q.sivrPrice > 200.0 then None
      else
        var divergence := ((q.slvPrice - q.sivrPrice) / q.sivrPrice) * 100.0;
        assert divergence < 0.0 <==> q.slvPrice - q.sivrPrice < 0.0;
        Some(ETFPriceData(q.slvPrice, q.sivrPrice, q.slvPrice - q.slvPrevClose, q.sivrPrice - q.sivrPrevClose,
                          divergence, Live, None, now))
  }

  function FallbackEtfPrices(now: int): ETFPriceData {
    ETFPriceData(22.50, 22.45, 0.15, 0.14, 0.22, Fallback, Some("Using fallback ETF prices"), now)
  }

  /** The module-level pair (cache, cacheTime). */
  datatype CacheState = CacheState(cache: Option<ETFPriceData>, cacheTime: int)

  predicate IsFresh(s: CacheState, now: int) {
    s.cache.Some? && now - s.cacheTime < CacheDuration
  }

  predicate IsUsableStale(s: CacheState, now: int) {
    s.cache.Some? && now - s.cacheTime < StaleCacheDuration
  }

  /** Stored records are live readings within the band. */
  predicate ValidState(s: CacheState) {
    s.cache.Some? ==> s.cache.value.dataSource == Live && InBand(s.cache.value.slvPrice) && InBand(s.cache.value.sivrPrice)
  }

  /** One call of getETFPrices. */
  function Step(s: CacheState, now: int, quotes: Option<EtfQuotes>): (out: (ETFPriceData, CacheState))
    // A fresh hit is the stored record itself, not re-tagged.
    ensures IsFresh(s, now) ==> out == (s.cache.value, s)
    ensures !IsFresh(s, now) && FetchEtfPrices(quotes, now).Some? ==>
      out == (FetchEtfPrices(quotes, now).value, CacheState(FetchEtfPrices(quotes, now), now))
    ensures !IsFresh(s, now) && FetchEtfPrices(quotes, now).None? ==>
      out.1 == s &&
      (if IsUsableStale(s, now) then out.0 == s.cache.value.(dataSource := Cached) else out.0 == FallbackEtfPrices(now))
    // From a state the getter can reach, live means a fresh hit or a successful fetch,
    // and the literal appears only when no usable cache exists.
    ensures ValidState(s) ==> ValidState(out.1)
    ensures ValidState(s) ==> (out.0.dataSource == Live <==> IsFresh(s, now) || FetchEtfPrices(quotes, now).Some?)
    ensures ValidState(s) ==> (out.0.dataSource == Fallback <==> !IsUsableStale(s, now) && FetchEtfPrices(quotes, now).None?)
  {
    if IsFresh(s, now) then (s.cache.value, s)
    else
      match FetchEtfPrices(quotes, now)
      case Some(result) => (result, CacheState(Some(result), now))
      case None =>
        if IsUsableStale(s, now) then (s.cache.value.(dataSource := Cached), s)
        else (FallbackEtfPrices(now), s)
  }

  /** A cache older than 24 hours is never returned on failure. */
  lemma StaleCacheExpires(s: CacheState, now: int)
    requires s.cache.Some? && now - s.cacheTime >= StaleCacheDuration
    ensures Step(s, now, None) == (FallbackEtfPrices(now), s)
  {
  }

  /** 22.50 against 22.45 is a divergence of about +0.2227%. */
  lemma DivergenceExample(now: int)
    ensures 0.2227 < FetchEtfPrices(Some(EtfQuotes(22.50, 22.35, 22.45, 22.31)), now).value.divergence < 0.2228
  {
  }

  class EtfCache {
    var cache: Option<ETFPriceData>
    var cacheTime: int

    constructor ()
      ensures cache == None && cacheTime == 0
    {
      cache := None;
      cacheTime := 0;
    }

    function State(): CacheState
      reads this
    {
      CacheState(cache, cacheTime)
    }

    method GetETFPrices(now: int, quotes: Option<EtfQuotes>) returns (r: ETFPriceData)
      modifies this
      ensures (r, State()) == Step(old(State()), now, quotes)
    {
      if cache.Some? && now - cacheTime < CacheDuration {
        return cache.value;
      }
      var result := FetchEtfPrices(quotes, now);
      if result.Some? {
        cache := result;
        cacheTime := now;
        return result.value;
      }
      if cache.Some? && now - cacheTime < StaleCacheDuration {
        return cache.value.(dataSource := Cached);
      }
      return FallbackEtfPrices(now);
    }
  }
}
