/**
 * Retail premium over spot for 1 oz silver rounds: the mean of the
 * premiums two dealers (APMEX, JM Bullion) yield, or 0 tagged fallback.
 * There is no cache.
 */
module PhysicalPremiums {
  import opened Common

  datatype PremiumData = PremiumData(premium: real, dataSource: DataSource, error: Option<string>, timestamp: int)

  /** A premium the band (0, 50) accepts. */
  predicate Plausible(premium: real) {
    0.0 < premium < 50.0
  }

  /**
   * scrapeAPMEX once the page is given: `matched` is the number after
   * "As low as $" (`None`: request failed or no match).
   */
  function ScrapeAPMEX(matched: Option<real>): (r: Option<real>)
    ensures r.Some? <==> matched.Some? && Plausible(matched.value)
    ensures r.Some? ==> r == matched
  {
    if matched.Some? && matched.value > 0.0 && matched.value < 50.0 then matched else None
  }

  /**
   * The JM Bullion page: the spot price in the "Silver Ask" header
   * (`None`: not found) and every "As Low As: $X" product price in page order.
   */
  datatype JmPage = JmPage(spot: Option<real>, prices: seq<real>)

  /** The running minimum of the prices strictly above spot (`None` standing for Infinity). */
  function LowestAbove(prices: seq<real>, spot: real): (r: Option<real>)
    ensures r.Some? ==> r.value in prices && r.value > spot
    ensures r.Some? ==> forall k :: 0 <= k < |prices| && prices[k] > spot ==> r.value <= prices[k]
    ensures r.None? ==> forall k :: 0 <= k < |prices| ==> prices[k] <= spot
  {
    if prices == [] then None
    else
      var lowest := LowestAbove(prices[..|prices| - 1], spot);
      var price := prices[|prices| - 1];
      if (lowest.None? || price < lowest.value) && price > spot then Some(price) else lowest
  }

  /** scrapeJMBullion once the page is given (`None`: request failed). */
  function JmPremium(page: Option<JmPage>): (r: Option<real>)
    ensures r.Some? ==> Plausible(r.value)
    ensures r.Some? <==>
      page.Some? && page.value.spot.Some? && LowestAbove(page.value.prices, page.value.spot.value).Some? &&
      LowestAbove(page.value.prices, page.value.spot.value).value - page.value.spot.value < 50.0
    ensures r.Some? ==> r.value == LowestAbove(page.value.prices, page.value.spot.value).value - page.value.spot.value
  {
    match page
    case None => None
    case Some(p) =>
      match p.spot
      case None => None
      case Some(spotPrice) =>
        match LowestAbove(p.prices, spotPrice)
        case None => None
        case Some(lowestPrice) =>
          var premium := lowestPrice - spotPrice;
          if premium > 0.0 && premium < 50.0 then Some(premium) else None
  }

  /** The `forEach` over product prices that keeps the lowest one above spot. */
  method ScrapeJMBullion(page: Option<JmPage>) returns (r: Option<real>)
    ensures r == JmPremium(page)
  {
    if page.None? || page.value.spot.None? {
      return None;
    }
    var spotPrice := page.value.spot.value;
    var prices := page.value.prices;
    var lowestPrice: Option<real> := None;
    var i := 0;
    while i < |prices|
      invariant 0 <= i <= |prices|
      invariant lowestPrice == LowestAbove(prices[..i], spotPrice)
    {
      var price := prices[i];
      assert prices[..i + 1][..i] == prices[..i];
      if (lowestPrice.None? || price < lowestPrice.value) && price > spotPrice {
        lowestPrice := Some(price);
      }
      i := i + 1;
    }
    assert prices[..i] == prices;
    if lowestPrice.Some? {
      var premium := lowestPrice.value - spotPrice;
      if premium > 0.0 && premium < 50.0 {
        return Some(premium);
      }
    }
    return None;
  }

  function Sum(xs: seq<real>): real {
    if xs == [] then 0.0 else Sum(xs[..|xs| - 1]) + xs[|xs| - 1]
  }

  /** The mean of values inside (lo, hi) lies inside (lo, hi). */
  lemma {:induction false} SumBounds(xs: seq<real>, lo: real, hi: real)
    requires forall k :: 0 <= k < |xs| ==> lo < xs[k] < hi
    ensures xs != [] ==> lo * |xs| as real < Sum(xs) < hi * |xs| as real
  {
    if |xs| == 1 {
      assert Sum(xs) == Sum([]) + xs[0];
    } else if |xs| > 1 {
      var init := xs[..|xs| - 1];
      var n := |init| as real;
      SumBounds(init, lo, hi);
      assert Sum(xs) == Sum(init) + xs[|xs| - 1];
      assert lo * n + lo == lo * (n + 1.0);
      assert hi * n + hi == hi * (n + 1.0);
    }
  }

  /** The premiums that succeeded, APMEX first. */
  function ValidPremiums(apmex: Option<real>, jm: Option<real>): (r: seq<real>)
    ensures |r| == (if apmex.Some? then 1 else 0) + (if jm.Some? then 1 else 0)
    ensures apmex.Some? ==> r[0] == apmex.value
    ensures jm.Some? ==> r[|r| - 1] == jm.value
  {
    (if apmex.Some? then [apmex.value] else []) + (if jm.Some? then [jm.value] else [])
  }

  /** The two pushes onto `validPremiums`. */
  method CollectValid(apmex: Option<real>, jm: Option<real>) returns (valid: seq<real>)
    ensures valid == ValidPremiums(apmex, jm)
  {
    valid := [];
    if apmex.Some? {
      valid := valid + [apmex.value];
    }
    if jm.Some? {
      valid := valid + [jm.value];
    }
  }

  /**
   * getPhysicalPremiums: the mean of the dealers that succeeded, tagged
   * live, or 0 tagged fallback when both fail. Rounding to cents is left out.
   */
  method GetPhysicalPremiums(apmexMatch: Option<real>, jmPage: Option<JmPage>, now: int) returns (r: PremiumData)
    ensures r.dataSource == Live <==> ScrapeAPMEX(apmexMatch).Some? || JmPremium(jmPage).Some?
    ensures r.dataSource == Live ==>
      var valid := ValidPremiums(ScrapeAPMEX(apmexMatch), JmPremium(jmPage));
      r.premium * |valid| as real == Sum(valid) && Plausible(r.premium) && r.error.None?
    ensures r.dataSource != Live ==>
      r == PremiumData(0.0, Fallback, Some("Failed to scrape physical premiums from dealers"), now)
  {
    var apmexPremium := ScrapeAPMEX(apmexMatch);
    var jmBullionPremium := ScrapeJMBullion(jmPage);
    var validPremiums := CollectValid(apmexPremium, jmBullionPremium);
    if |validPremiums| > 0 {
      var avgPremium := Sum(validPremiums) / |validPremiums| as real;
      SumBounds(validPremiums, 0.0, 50.0);
      return PremiumData(avgPremium, Live, None, now);
    }
    return PremiumData(0.0, Fallback, Some("Failed to scrape physical premiums from dealers"), now);
  }
}
