/**
 * The superseded silver spot-price scrapers (Kitco and APMEX) and their
 * five-minute cache. The Kitco scraper never throws: any failure becomes a
 * fixed fallback quote. The getter therefore always stores and returns the
 * Kitco result, and its second-source (APMEX) branch can never run.
 */
module SilverPriceOld {
  import opened Common

  /** Why the Kitco scrape fell back. */
  datatype KitcoFailure =
    | Thrown(message: string)     // a failed request
    | InvalidBid(bid: Option<real>) // its message embeds the decimal text of the bid (None: NaN)

  datatype PriceData = PriceData(
    bid: real, ask: real, change: real, changePercent: real,
    dayHigh: real, dayLow: real, timestamp: int,
    dataSource: DataSource, error: Option<KitcoFailure>)

  /** The change figures of an `h3` whose text matches "±x (±y%)". */
  datatype ChangeMatch = ChangeMatch(change: real, changePercent: real)

  /**
   * One `h3` heading: whether its text contains '+' or '-', and the
   * numbers the change pattern captures from it, if it matches.
   */
  datatype Heading = Heading(hasSign: bool, matched: Option<ChangeMatch>)

  /**
   * The parts of the Kitco page the scraper reads: the number in the first
   * `h3` (`None` when `parseFloat` gives NaN), every `h3`, and the day's
   * range (low, high) when the range pattern matches.
   */
  datatype KitcoPage = KitcoPage(firstHeadingNumber: Option<real>, headings: seq<Heading>, range: Option<(real, real)>)

  const Spread := 0.12
  const CacheDuration: int := 5 * Minute
  const ApmexNotFoundMessage := "Could not find price on APMEX"

  /** A heading the `.each` callback takes the change from. */
  predicate Supplies(h: Heading) {
    h.hasSign && h.matched.Some?
  }

  /** The change figures left by the `.each` loop: the last heading that supplies them wins. */
  function LastChange(headings: seq<Heading>): (m: Option<ChangeMatch>)
    ensures m.None? <==> forall k :: 0 <= k < |headings| ==> !Supplies(headings[k])
    ensures m.Some? ==> exists k :: 0 <= k < |headings| && Supplies(headings[k]) && headings[k].matched == m
                          && forall l :: k < l < |headings| ==> !Supplies(headings[l])
  {
    if headings == [] then None
    else if Supplies(headings[|headings| - 1]) then headings[|headings| - 1].matched
    else LastChange(headings[..|headings| - 1])
  }

  /** `!bid || bid < 10 || bid > 200` is false. */
  predicate ValidBid(bid: Option<real>) {
    bid.Some? && bid.value != 0.0 && 10.0 <= bid.value <= 200.0
  }

  /** The quote returned whenever the Kitco scrape fails. */
  function KitcoFallback(now: int, failure: KitcoFailure): (r: PriceData)
    ensures r.bid == 72.77 && r.ask == 72.89 && r.change == 1.23 && r.changePercent == 1.72
    ensures r.dayHigh == 74.59 && r.dayLow == 71.23
    ensures r.dataSource == Fallback && r.error == Some(failure) && r.timestamp == now
  {
    PriceData(72.77, 72.89, 1.23, 1.72, 74.59, 71.23, now, Fallback, Some(failure))
  }

  /** scrapeSilverPrice once the page is given (`Err`: the request failed). It never throws. */
  function KitcoQuote(page: Result<KitcoPage>, now: int): (r: PriceData)
    ensures r.dataSource != Cached
    ensures r.dataSource == Live <==> page.Ok? && ValidBid(page.value.firstHeadingNumber)
    ensures r.dataSource == Live ==>
              var p := page.value;
              && r.bid == p.firstHeadingNumber.value
              && 10.0 <= r.bid <= 200.0
              && r.ask == r.bid + Spread
              && (LastChange(p.headings).Some? ==>
                    r.change == LastChange(p.headings).value.change
                    && r.changePercent == LastChange(p.headings).value.changePercent)
              && (LastChange(p.headings).None? ==> r.change == 0.0 && r.changePercent == 0.0)
              && (p.range.None? || p.range.value.1 == 0.0 ==> r.dayHigh == r.bid + 2.0)
              && (p.range.Some? && p.range.value.1 != 0.0 ==> r.dayHigh == p.range.value.1)
              && (p.range.None? || p.range.value.0 == 0.0 ==> r.dayLow == r.bid - 2.0)
              && (p.range.Some? && p.range.value.0 != 0.0 ==> r.dayLow == p.range.value.0)
              && r.error.None?
    ensures page.Err? ==> r == KitcoFallback(now, Thrown(page.message))
    ensures page.Ok? && !ValidBid(page.value.firstHeadingNumber) ==>
              r == KitcoFallback(now, InvalidBid(page.value.firstHeadingNumber))
  {
    if page.Err? then KitcoFallback(now, Thrown(page.message))
    else
      var p := page.value;
      if !ValidBid(p.firstHeadingNumber) then KitcoFallback(now, InvalidBid(p.firstHeadingNumber))
      else
        var bid := p.firstHeadingNumber.value;
        var m := LastChange(p.headings);
        var change := if m.Some? then m.value.change else 0.0;
        var changePercent := if m.Some? then m.value.changePercent else 0.0;
        var dayLow := if p.range.Some? then p.range.value.0 else 0.0;
        var dayHigh := if p.range.Some? then p.range.value.1 else 0.0;
        PriceData(bid, bid + Spread, change, changePercent,
                  if dayHigh != 0.0 then dayHigh else bid + 2.0,
                  if dayLow != 0.0 then dayLow else bid - 2.0,
                  now, Live, None)
  }

  /** The `.each` loop over the `h3` headings: the last heading that supplies change figures wins. */
  method ScanHeadings(headings: seq<Heading>) returns (change: real, changePercent: real)
    ensures LastChange(headings).Some? ==>
              change == LastChange(headings).value.change
              && changePercent == LastChange(headings).value.changePercent
    ensures LastChange(headings).None? ==> change == 0.0 && changePercent == 0.0
  {
    change, changePercent := 0.0, 0.0;
    var i := 0;
    while i < |headings|
      invariant 0 <= i <= |headings|
      invariant LastChange(headings[..i]).Some? ==>
                  change == LastChange(headings[..i]).value.change
                  && changePercent == LastChange(headings[..i]).value.changePercent
      invariant LastChange(headings[..i]).None? ==> change == 0.0 && changePercent == 0.0
    {
      var h := headings[i];
      assert headings[..i + 1][..i] == headings[..i];
      assert headings[..i + 1][i] == h;
      if h.hasSign {
        if h.matched.Some? {
          change := h.matched.value.change;
          changePercent := h.matched.value.changePercent;
        }
      }
      i := i + 1;
    }
    assert headings[..i] == headings;
  }

  /** scrapeSilverPrice once the page is given. */
  method ScrapeSilverPrice(page: Result<KitcoPage>, now: int) returns (r: PriceData)
    ensures r == KitcoQuote(page, now)
  {
    if page.Err? {
      return KitcoFallback(now, Thrown(page.message));
    }
    var p := page.value;
    var bid := p.firstHeadingNumber;
    var change, changePercent := ScanHeadings(p.headings);
    var dayLow, dayHigh := 0.0, 0.0;
    if p.range.Some? {
      dayLow := p.range.value.0;
      dayHigh := p.range.value.1;
    }
    if !ValidBid(bid) {
      return KitcoFallback(now, InvalidBid(bid));
    }
    var ask := bid.value + Spread;
    return PriceData(bid.value, ask, change, changePercent,
                     if dayHigh != 0.0 then dayHigh else bid.value + 2.0,
                     if dayLow != 0.0 then dayLow else bid.value - 2.0,
                     now, Live, None);
  }

  /** A candidate the APMEX loop accepts (NaN, written `None`, never is). */
  predicate InApmexBand(price: Option<real>) {
    price.Some? && 10.0 < price.value < 200.0
  }

  /** The first candidate inside the band, if any. */
  function FirstInBand(candidates: seq<Option<real>>): (p: Option<real>)
    ensures p.None? <==> forall k :: 0 <= k < |candidates| ==> !InApmexBand(candidates[k])
    ensures p.Some? ==> InApmexBand(p) && p in candidates
  {
    if candidates == [] then None
    else if InApmexBand(candidates[0]) then candidates[0]
    else FirstInBand(candidates[1..])
  }

  /** The pick is the first in-band candidate: every candidate before it is out of band. */
  lemma {:induction false} FirstInBandIsFirst(candidates: seq<Option<real>>)
    requires FirstInBand(candidates).Some?
    ensures exists k :: 0 <= k < |candidates| && candidates[k] == FirstInBand(candidates)
                        && forall l :: 0 <= l < k ==> !InApmexBand(candidates[l])
  {
    if !InApmexBand(candidates[0]) {
      var rest := candidates[1..];
      FirstInBandIsFirst(rest);
      var k :| 0 <= k < |rest| && rest[k] == FirstInBand(rest)
               && forall l :: 0 <= l < k ==> !InApmexBand(rest[l]);
      assert candidates[k + 1] == FirstInBand(candidates);
      forall l | 0 <= l < k + 1
        ensures !InApmexBand(candidates[l])
      {
        if l > 0 {
          assert candidates[l] == rest[l - 1];
        }
      }
    } else {
      assert candidates[0] == FirstInBand(candidates);
    }
  }

  /**
   * scrapeSilverPriceFromApmex once the page is given: the parsed text of
   * each price element, in document order (`Err`: the request failed).
   */
  function ApmexQuote(page: Result<seq<Option<real>>>, now: int): (r: Result<PriceData>)
    ensures page.Err? ==> r == Err(page.message)
    ensures page.Ok? && FirstInBand(page.value).None? ==> r == Err(ApmexNotFoundMessage)
    ensures r.Ok? <==> page.Ok? && FirstInBand(page.value).Some?
    ensures r.Ok? ==>
              && page.Ok? && FirstInBand(page.value) == Some(r.value.bid)
              && 10.0 < r.value.bid < 200.0
              && r.value.ask == r.value.bid + Spread
              && r.value.change == 0.0 && r.value.changePercent == 0.0
              && r.value.dayHigh == r.value.bid + 2.0 && r.value.dayLow == r.value.bid - 2.0
              && r.value.dataSource == Live && r.value.error.None? && r.value.timestamp == now
  {
    if page.Err? then Err(page.message)
    else
      match FirstInBand(page.value)
      case None => Err(ApmexNotFoundMessage)
      case Some(bid) => Ok(PriceData(bid, bid + Spread, 0.0, 0.0, bid + 2.0, bid - 2.0, now, Live, None))
  }

  /** scrapeSilverPriceFromApmex, with the element loop and its early exit. */
  method ScrapeSilverPriceFromApmex(page: Result<seq<Option<real>>>, now: int) returns (r: Result<PriceData>)
    ensures r == ApmexQuote(page, now)
  {
    if page.Err? {
      return Err(page.message);
    }
    var candidates := page.value;
    var bid := 0.0;
    var i := 0;
    while i < |candidates|
      invariant 0 <= i <= |candidates|
      invariant bid == 0.0
      invariant FirstInBand(candidates) == FirstInBand(candidates[i..])
    {
      assert candidates[i..][1..] == candidates[i + 1..];
      if InApmexBand(candidates[i]) {
        bid := candidates[i].value;
        break;
      }
      i := i + 1;
    }
    if bid == 0.0 {
      assert candidates[i..] == [];
      return Err(ApmexNotFoundMessage);
    }
    return Ok(PriceData(bid, bid + Spread, 0.0, 0.0, bid + 2.0, bid - 2.0, now, Live, None));
  }

  /** The module-level pair (cachedPrice, lastFetch). */
  datatype CacheState = CacheState(cachedPrice: Option<PriceData>, lastFetch: int)

  predicate IsFresh(s: CacheState, now: int) {
    s.cachedPrice.Some? && now - s.lastFetch < CacheDuration
  }

  /**
   * One call of getSilverPrice. The Kitco scraper never throws, so the call
   * never reaches APMEX, never reuses a stale cache and never throws.
   */
  function Step(s: CacheState, now: int, kitcoPage: Result<KitcoPage>): (out: (PriceData, CacheState))
    ensures IsFresh(s, now) ==> out == (s.cachedPrice.value.(dataSource := Cached), s)
    ensures !IsFresh(s, now) ==> out.0 == KitcoQuote(kitcoPage, now) && out.1 == CacheState(Some(out.0), now)
    ensures out.0.dataSource == Live ==> 10.0 <= out.0.bid <= 200.0
  {
    if IsFresh(s, now) then (s.cachedPrice.value.(dataSource := Cached), s)
    else
      var quote := KitcoQuote(kitcoPage, now);
      (quote, CacheState(Some(quote), now))
  }

  /** A stale cache is never served: once five minutes have passed the Kitco result replaces it. */
  lemma StaleCacheIsReplaced(s: CacheState, now: int, kitcoPage: Result<KitcoPage>)
    requires s.cachedPrice.Some? && now - s.lastFetch >= CacheDuration
    ensures Step(s, now, kitcoPage).0.dataSource != Cached
    ensures Step(s, now, kitcoPage).1.lastFetch == now
  {
  }

  /** A failed Kitco scrape is cached: for five minutes the fallback quote is served, tagged cached. */
  lemma FallbackIsServedForFiveMinutes(s: CacheState, t: int, later: int, kitcoPage: Result<KitcoPage>)
    requires !IsFresh(s, t)
    requires t <= later < t + CacheDuration
    ensures var answer := Step(Step(s, t, Err("timeout")).1, later, kitcoPage).0;
            answer.dataSource == Cached && answer.bid == 72.77 && answer.ask == 72.89
  {
  }

  class PriceCache {
    var cachedPrice: Option<PriceData>
    var lastFetch: int

    constructor ()
      ensures cachedPrice == None && lastFetch == 0
    {
      cachedPrice := None;
      lastFetch := 0;
    }

    function State(): CacheState
      reads this
    {
      CacheState(cachedPrice, lastFetch)
    }

    /**
     * getSilverPrice. The APMEX branch of the source sits in a `catch` that
     * the Kitco scraper never reaches, so it has no counterpart here.
     */
    method GetSilverPrice(now: int, kitcoPage: Result<KitcoPage>) returns (r: PriceData)
      modifies this
      ensures (r, State()) == Step(old(State()), now, kitcoPage)
    {
      if cachedPrice.Some? && now - lastFetch < CacheDuration {
        return cachedPrice.value.(dataSource := Cached);
      }
      var quote := ScrapeSilverPrice(kitcoPage, now);
      cachedPrice := Some(quote);
      lastFetch := now;
      return quote;
    }
  }
}
