/**
 * Spot price of silver futures (Yahoo Finance chart meta) behind a
 * five-minute cache. A failed fetch falls back to the cache of any age,
 * then to a fixed literal; the getter never throws.
 */
module SilverPrice {
  import opened Common

  datatype SilverPriceData = SilverPriceData(
    price: real,
    change: real,
    changePercent: real,
    timestamp: int,
    dataSource: DataSource,
    error: Option<string>)

  /**
   * The fields of `chart.result[0].meta` the provider reads. The response as
   * a whole is `None` when the request fails or carries no result.
   */
  datatype ChartMeta = ChartMeta(
    regularMarketPrice: Option<real>,
    chartPreviousClose: Option<real>,
    previousClose: Option<real>)

  const CacheDuration: int := 5 * Minute

  /** `meta.chartPreviousClose || meta.previousClose` */
  function PreviousCloseOf(meta: ChartMeta): (p: Option<real>)
    ensures Truthy(meta.chartPreviousClose) ==> p == meta.chartPreviousClose
    ensures !Truthy(meta.chartPreviousClose) ==> p == meta.previousClose
  {
    if Truthy(meta.chartPreviousClose) then meta.chartPreviousClose else meta.previousClose
  }

  /** A price the plausibility band [10, 200] accepts. */
  predicate InBand(price: real) {
    10.0 <= price <= 200.0
  }

  /** getYahooFinancePrice once the HTTP response is given. */
  function YahooFinancePrice(response: Option<ChartMeta>, now: int): (r: Option<SilverPriceData>)
    ensures r.Some? <==>
      response.Some? && Truthy(response.value.regularMarketPrice) &&
      Truthy(PreviousCloseOf(response.value)) && InBand(response.value.regularMarketPrice.value)
    ensures r.Some? ==>
      var prev := PreviousCloseOf(response.value).value;
      && r.value.price == response.value.regularMarketPrice.value
      && r.value.change == r.value.price - prev
      && r.value.changePercent * prev == r.value.change * 100.0
      && r.value.dataSource == Live && r.value.error == None && r.value.timestamp == now
  {
    match response
    case None => None
    case Some(meta) =>
      var previousClose := PreviousCloseOf(meta);
      if !Truthy(meta.regularMarketPrice) || !Truthy(previousClose) then None
      else
        var currentPrice := meta.regularMarketPrice.value;
        var change := currentPrice - previousClose.value;
        var changePercent := (change / previousClose.value) * 100.0;
        if currentPrice < 10.0 || currentPrice > 200.0 then None
        else Some(SilverPriceData(currentPrice, change, changePercent, now, Live, None))
  }

  /** The record returned when nothing else is available. */
  function FallbackPrice(now: int): SilverPriceData {
    SilverPriceData(76.03, 2.78, 3.79, now, Fallback, Some("All data sources unavailable"))
  }

  /** The module-level pair (priceCache, lastFetchTime). */
  datatype CacheState = CacheState(priceCache: Option<SilverPriceData>, lastFetchTime: int)

  predicate IsFresh(s: CacheState, now: int) {
    s.priceCache.Some? && now - s.lastFetchTime < CacheDuration
  }

  /** Every stored record came from a successful fetch: live and in band. */
  predicate ValidState(s: CacheState) {
    s.priceCache.Some? ==> s.priceCache.value.dataSource == Live && InBand(s.priceCache.value.price)
  }

  /** One call of getSilverPrice: the result and the state after it. */
  function Step(s: CacheState, now: int, response: Option<ChartMeta>): (out: (SilverPriceData, CacheState))
    // A fresh cache answers without consulting the response.
    ensures IsFresh(s, now) ==> out == (s.priceCache.value.(dataSource := Cached), s)
    // The result is live exactly when a fetch was made and succeeded; only then does the state change.
    ensures out.0.dataSource == Live <==> !IsFresh(s, now) && YahooFinancePrice(response, now).Some?
    ensures out.0.dataSource == Live ==> out.1 == CacheState(Some(out.0), now) && out.0 == YahooFinancePrice(response, now).value
    ensures out.0.dataSource != Live ==> out.1 == s
    // A stored record is reused on failure whatever its age.
    ensures s.priceCache.Some? && out.0.dataSource != Live ==> out.0 == s.priceCache.value.(dataSource := Cached)
    // The literal appears only when there is no cache and the fetch failed.
    ensures out.0.dataSource == Fallback <==> s.priceCache.None? && YahooFinancePrice(response, now).None?
    ensures out.0.dataSource == Fallback ==> out.0 == FallbackPrice(now)
    ensures ValidState(s) ==> ValidState(out.1) && InBand(out.0.price)
  {
    if IsFresh(s, now) then (s.priceCache.value.(dataSource := Cached), s)
    else
      match YahooFinancePrice(response, now)
      case Some(quote) => (quote, CacheState(Some(quote), now))
      case None =>
        if s.priceCache.Some? then (s.priceCache.value.(dataSource := Cached), s)
        else (FallbackPrice(now), s)
  }

  /**
   * Two calls within the fresh window fetch once: the second returns the
   * first call's live record tagged cached, whatever its own response.
   */
  lemma SecondCallWithinWindowIsCached(s: CacheState, t0: int, t1: int, r0: Option<ChartMeta>, r1: Option<ChartMeta>)
    requires YahooFinancePrice(r0, t0).Some? && !IsFresh(s, t0)
    requires 0 <= t1 - t0 < CacheDuration
    ensures Step(Step(s, t0, r0).1, t1, r1).0 == Step(s, t0, r0).0.(dataSource := Cached)
    ensures Step(Step(s, t0, r0).1, t1, r1).1 == Step(s, t0, r0).1
  {
  }

  /** The provider rejects a parsed price of 5, below the band. */
  lemma RejectsImplausiblePrice(now: int)
    ensures YahooFinancePrice(Some(ChartMeta(Some(5.0), Some(4.0), None)), now).None?
  {
  }

  class PriceCache {
    var priceCache: Option<SilverPriceData>
    var lastFetchTime: int

    constructor ()
      ensures priceCache == None && lastFetchTime == 0
    {
      priceCache := None;
      lastFetchTime := 0;
    }

    function State(): CacheState
      reads this
    {
      CacheState(priceCache, lastFetchTime)
    }

    /** getSilverPrice: fresh cache, live fetch, stale cache of any age, literal. */
    method GetSilverPrice(now: int, response: Option<ChartMeta>) returns (r: SilverPriceData)
      modifies this
      ensures (r, State()) == Step(old(State()), now, response)
    {
      if priceCache.Some? && now - lastFetchTime < CacheDuration {
        return priceCache.value.(dataSource := Cached);
      }
      var freshData := YahooFinancePrice(response, now);
      if freshData.Some? {
        priceCache := freshData;
        lastFetchTime := now;
        return freshData.value;
      }
      if priceCache.Some? {
        return priceCache.value.(dataSource := Cached);
      }
      return FallbackPrice(now);
    }
  }
}
