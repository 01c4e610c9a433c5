/**
 * Silver news: up to ten items scraped from Kitco (or a curated list when
 * scraping yields nothing), each passed through an external classifier,
 * behind a 15-minute cache with a 24-hour stale window. The getter never
 * throws; with nothing available it returns no items.
 */
module SilverNews {
  import opened Common

  datatype Confidence = High | Medium | Low
  datatype Impact = Bullish | Bearish | Neutral

  /** `kitco-<timestamp>-<element index>` or a curated `news-<n>`. */
  datatype NewsId = KitcoId(stamp: int, index: nat) | CuratedId(n: nat)

  datatype SilverNewsItem = SilverNewsItem(
    id: NewsId,
    title: string,
    summary: string,
    source: string,
    sourceUrl: string,
    publishedAt: int,
    confidence: Confidence,
    impact: Impact,
    aiAnalysis: string,
    dataSource: DataSource)

  /**
   * One element the article selector matched, as text: the trimmed title
   * (heading text, else the element's own text), the link (`None` when
   * there is no href) and the trimmed summary.
   */
  datatype Element = Element(title: string, link: Option<string>, summary: string)

  /** What the classifier answers when it answers with parseable JSON. */
  datatype AiVerdict = AiVerdict(confidence: Confidence, impact: Impact, analysis: string)

  const MaxScraped: nat := 10
  const MaxAnalyzed: int := 8
  const KitcoOrigin: string := "https://www.kitco.com"
  const CacheDuration: int := 15 * Minute
  const StaleCacheDuration: int := 24 * Hour

  predicate HasPrefix(s: string, p: string) {
    |p| <= |s| && s[..|p|] == p
  }

  /** A relative link is made absolute on the Kitco origin. */
  function FullUrl(link: string): (url: string)
    ensures HasPrefix(url, "http")
    ensures HasPrefix(link, "http") ==> url == link
    ensures !HasPrefix(link, "http") ==> url == KitcoOrigin + link
  {
    if HasPrefix(link, "http") then link
    else
      assert (KitcoOrigin + link)[..4] == KitcoOrigin[..4];
      KitcoOrigin + link
  }

  /** An element becomes an item when its title is longer than 10 and it has a non-empty link. */
  predicate Keeps(e: Element) {
    |e.title| > 10 && e.link.Some? && e.link.value != ""
  }

  /** The item built from the element at index `i`: its title, its summary or else its title, its absolute URL. */
  function NewItem(e: Element, i: nat, now: int): (item: SilverNewsItem)
    requires Keeps(e)
    ensures IsScrapedItem(item)
    ensures item.id == KitcoId(now, i) && item.publishedAt == now
    ensures item.title == e.title && item.sourceUrl == FullUrl(e.link.value)
    ensures e.summary != "" ==> item.summary == e.summary
    ensures e.summary == "" ==> item.summary == e.title
  {
    SilverNewsItem(KitcoId(now, i), e.title, if e.summary != "" then e.summary else e.title, "Kitco News",
                   FullUrl(e.link.value), now, Medium, Neutral, "", Live)
  }

  /** A freshly scraped item: Kitco defaults, an absolute URL and a non-empty summary. */
  predicate IsScrapedItem(item: SilverNewsItem) {
    && item.id.KitcoId?
    && |item.title| > 10
    && item.summary != ""
    && HasPrefix(item.sourceUrl, "http")
    && item.source == "Kitco News"
    && item.confidence == Medium && item.impact == Neutral && item.aiAnalysis == ""
    && item.dataSource == Live
  }

  /** Each item is `NewItem` of the kept element whose index its id carries, below `bound`. */
  predicate BuiltFromKept(items: seq<SilverNewsItem>, elems: seq<Element>, bound: nat, now: int) {
    forall k :: 0 <= k < |items| ==>
      && items[k].id.KitcoId?
      && items[k].id.index < |elems| && items[k].id.index < bound
      && Keeps(elems[items[k].id.index])
      && items[k] == NewItem(elems[items[k].id.index], items[k].id.index, now)
  }

  /** The element indices the items carry strictly increase. */
  predicate InElementOrder(items: seq<SilverNewsItem>) {
    forall k, l :: 0 <= k < l < |items| && items[k].id.KitcoId? && items[l].id.KitcoId? ==>
      items[k].id.index < items[l].id.index
  }

  /** Every kept element below `bound` has an item. */
  predicate CoversKept(items: seq<SilverNewsItem>, elems: seq<Element>, bound: nat) {
    forall j :: 0 <= j < |elems| && j < bound && Keeps(elems[j]) ==>
      exists k :: 0 <= k < |items| && items[k].id.KitcoId? && items[k].id.index == j
  }

  /**
   * The items the elements yield: one per kept element, in element order,
   * and nothing for the others.
   */
  function Collected(elems: seq<Element>, now: int): (items: seq<SilverNewsItem>)
    ensures CollectsKept(items, elems, now)
    ensures (forall k :: 0 <= k < |elems| ==> Keeps(elems[k])) ==> |items| == |elems|
  {
    if elems == [] then []
    else
      var init := elems[..|elems| - 1];
      var last := elems[|elems| - 1];
      var prev := Collected(init, now);
      var items := prev + (if Keeps(last) then [NewItem(last, |elems| - 1, now)] else []);
      CollectedStep(prev, items, elems, now);
      items
  }

  /** What `Collected` promises of `items` for `elems`. */
  predicate CollectsKept(items: seq<SilverNewsItem>, elems: seq<Element>, now: int) {
    && |items| <= |elems|
    && (forall k :: 0 <= k < |items| ==> IsScrapedItem(items[k]))
    && BuiltFromKept(items, elems, |elems|, now)
    && InElementOrder(items)
    && CoversKept(items, elems, |elems|)
  }

  /** Appending the item of the last element, when it is kept, extends the promise to one more element. */
  lemma CollectedStep(prev: seq<SilverNewsItem>, items: seq<SilverNewsItem>, elems: seq<Element>, now: int)
    requires elems != [] && CollectsKept(prev, elems[..|elems| - 1], now)
    requires items == prev + (if Keeps(elems[|elems| - 1]) then [NewItem(elems[|elems| - 1], |elems| - 1, now)] else [])
    ensures CollectsKept(items, elems, now)
  {
    var n := |elems| - 1;
    var init := elems[..n];
    forall k | 0 <= k < |items|
      ensures IsScrapedItem(items[k])
      ensures items[k].id.KitcoId? && items[k].id.index < |elems|
      ensures Keeps(elems[items[k].id.index])
      ensures items[k] == NewItem(elems[items[k].id.index], items[k].id.index, now)
    {
      if k < |prev| {
        assert items[k] == prev[k];
        assert init[prev[k].id.index] == elems[prev[k].id.index];
      }
    }
    forall k, l | 0 <= k < l < |items| && items[k].id.KitcoId? && items[l].id.KitcoId?
      ensures items[k].id.index < items[l].id.index
    {
      assert items[k] == prev[k];
      if l < |prev| {
        assert items[l] == prev[l];
      }
    }
    forall j | 0 <= j < |elems| && Keeps(elems[j])
      ensures exists k :: 0 <= k < |items| && items[k].id.KitcoId? && items[k].id.index == j
    {
      if j == n {
        assert items[|items| - 1].id.index == j;
      } else {
        assert init[j] == elems[j];
        var k :| 0 <= k < |prev| && prev[k].id.KitcoId? && prev[k].id.index == j;
        assert items[k] == prev[k];
      }
    }
  }

  /**
   * scrapeKitcoNews once the page is given (`None`: the request failed):
   * one item per kept element among the first ten, in element order.
   */
  function KitcoNews(page: Option<seq<Element>>, now: int): (items: seq<SilverNewsItem>)
    ensures page.None? ==> items == []
    ensures |items| <= MaxScraped
    ensures forall k :: 0 <= k < |items| ==> IsScrapedItem(items[k])
    ensures page.Some? ==>
              && BuiltFromKept(items, page.value, MaxScraped, now)
              && InElementOrder(items)
              && CoversKept(items, page.value, MaxScraped)
  {
    match page
    case None => []
    case Some(elems) =>
      var m := if |elems| < MaxScraped then |elems| else MaxScraped;
      var items := Collected(elems[..m], now);
      CollectedWithinPrefix(items, elems, m, now);
      items
  }

  /** What holds of the items of a prefix holds of the whole page, below the prefix length. */
  lemma CollectedWithinPrefix(items: seq<SilverNewsItem>, elems: seq<Element>, m: nat, now: int)
    requires m <= |elems| && CollectsKept(items, elems[..m], now)
    ensures BuiltFromKept(items, elems, m, now) && CoversKept(items, elems, m)
  {
    forall k | 0 <= k < |items|
      ensures elems[..m][items[k].id.index] == elems[items[k].id.index]
    {
    }
    forall j | 0 <= j < |elems| && j < m && Keeps(elems[j])
      ensures exists k :: 0 <= k < |items| && items[k].id.KitcoId? && items[k].id.index == j
    {
      assert elems[..m][j] == elems[j];
    }
  }

  /** One more element extends the items by that element's item, when it is kept. */
  lemma CollectedAppend(elems: seq<Element>, i: nat, now: int)
    requires i < |elems|
    ensures Collected(elems[..i + 1], now)
         == Collected(elems[..i], now) + (if Keeps(elems[i]) then [NewItem(elems[i], i, now)] else [])
  {
    assert elems[..i + 1][..i] == elems[..i];
  }

  /** The `.each` loop that stops at element index 10. */
  method ScrapeKitcoNews(page: Option<seq<Element>>, now: int) returns (news: seq<SilverNewsItem>)
    ensures news == KitcoNews(page, now)
  {
    news := [];
    if page.None? {
      return;
    }
    var elems := page.value;
    var i := 0;
    while i < |elems|
      invariant 0 <= i <= |elems| && i <= MaxScraped
      invariant news == Collected(elems[..i], now)
    {
      if i >= MaxScraped {
        break;
      }
      var elem := elems[i];
      CollectedAppend(elems, i, now);
      if |elem.title| > 10 && elem.link.Some? && elem.link.value != "" {
        news := news + [NewItem(elem, i, now)];
      }
      i := i + 1;
    }
    assert elems[..if |elems| < MaxScraped then |elems| else MaxScraped] == elems[..i];
  }

  /** Item `news-<n>` of the curated recent news. */
  function CuratedItem(n: nat): SilverNewsItem {
    if n == 1 then
      SilverNewsItem(CuratedId(1), "Silver Market Shock: CME Margin Hike Signals Bull Market",
        "CME Group raises silver margins by 30%, maintenance margin increased from $25,000 to $32,500 per contract. Analysts view this as signal of continued volatility.",
        "GoldSilver.com", "https://goldsilver.com/industry-news/video/silver-market-shock-cme-margin-hike-signals-bull-market/",
        1767225600000, High, Bullish, "", Live)
    else if n == 2 then
      SilverNewsItem(CuratedId(2), "Silver to Face Selling Pressure from Bloomberg Index Rebalancing",
        "J.P. Morgan analysts predict Bloomberg Commodity Index rebalancing from Jan 8-14 could trigger selling of $3.8-4.7 billion in silver futures, representing 13% of open interest.",
        "Barrons", "https://www.barrons.com/articles/silver-gold-price-bloomberg-commodity-index-a3cf81a4",
        1767312000000, High, Bearish, "", Live)
    else if n == 3 then
      SilverNewsItem(CuratedId(3), "Silver Prices Drop After Hitting Record $82.67",
        "Silver fell to $71.30 per ounce after reaching record high of $82.670, marking largest single-day drop in almost five years before rebounding 8% in midday trading.",
        "LiveMint / ABC News", "https://www.livemint.com/market/commodities/silver-rate-today-white-metal-may-crash-60-if-say-experts-11767411897408.html",
        1767312000000, High, Neutral, "", Live)
    else if n == 4 then
      SilverNewsItem(CuratedId(4), "Gold and Silver Steady as Index Selling Looms",
        "Silver eased after earlier climbing 4%. Silver futures make up 9% of Bloomberg Commodities Index. Massive 13% of aggregate open interest expected to be sold over coming two weeks.",
        "Bloomberg / Yahoo Finance", "https://finance.yahoo.com/news/gold-silver-open-2026-gains-040226353.html",
        1767398400000, High, Bearish, "", Live)
    else if n == 5 then
      SilverNewsItem(CuratedId(5), "Silver Shortage Explained: Supply Squeeze Unfolding",
        "Global silver prices hit multi-year highs as deficits stretch into 2026. Real supply squeeze is unfolding with structural supply deficit and heavy institutional buying.",
        "MarketBeat / YouTube", "https://www.marketbeat.com/originals/hi-ho-silver-away-silver-breaks-80-as-poor-mans-gold-explodes/",
        1767312000000, Medium, Bullish, "", Live)
    else if n == 6 then
      SilverNewsItem(CuratedId(6), "Price Gains for Gold, Silver as U.S. Threatens Iran",
        "Silver prices sharply up in early U.S. trading Friday. Safe-haven demand featured amid rising tensions between U.S. and Iran.",
        "Kitco News", "https://www.kitco.com/news/article/2026-01-02/price-gains-gold-silver-us-threatens-iran",
        1767312000000, High, Bullish, "", Live)
    else if n == 7 then
      SilverNewsItem(CuratedId(7), "Silver Jumped 142% in 2025, Can Luster Hold in 2026?",
        "Silver surged 142% in 2025 following gold's 66% gain. Bank of America strategist predicts gold could reach $5,000 per ounce in 2026.",
        "Fox Business", "https://www.foxbusiness.com/markets/gold-soars-66-record-year-experts-eye-ambitious-5000-per-ounce-target-2026",
        1767312000000, High, Bullish, "", Live)
    else
      SilverNewsItem(CuratedId(8), "Silver: Naked Longs Get Taken Out on COMEX Default Theories",
        "Analysis suggests silver price driven by speculative activity and recurring shortage narratives, not true physical scarcity. Questions structural supply deficit claims.",
        "Seeking Alpha", "https://seekingalpha.com/article/4856833-silver-naked-longs-get-taken-out-on-comex-default-theories",
        1767312000000, Medium, Bearish, "", Live)
  }

  /** The curated recent news used when scraping yields nothing. */
  function CuratedNews(): (items: seq<SilverNewsItem>)
    ensures |items| == 8
  {
    seq(8, k requires 0 <= k < 8 => CuratedItem(k + 1))
  }

  /**
   * analyzeNewsWithAI: the classifier's verdict overwrites confidence,
   * impact and analysis; without one the item is kept as it was.
   */
  function AnalyzeNewsWithAI(item: SilverNewsItem, verdict: Option<AiVerdict>): (r: SilverNewsItem)
    ensures verdict.None? ==> r == item
    ensures verdict.Some? ==>
      r.confidence == verdict.value.confidence && r.impact == verdict.value.impact && r.aiAnalysis == verdict.value.analysis
    ensures r.(confidence := item.confidence, impact := item.impact, aiAnalysis := item.aiAnalysis) == item
  {
    match verdict
    case None => item
    case Some(v) => item.(confidence := v.confidence, impact := v.impact, aiAnalysis := v.analysis)
  }

  /** Length of `items.slice(0, end)` in JavaScript, negative `end` counting from the back. */
  function SliceLength(n: nat, end: int): (len: nat)
    ensures len <= n
    ensures end >= 0 ==> len == if end < n then end else n
    ensures end < 0 ==> len == if n + end > 0 then n + end else 0
  {
    if end >= 0 then (if end < n then end else n)
    else if n + end > 0 then n + end else 0
  }

  /**
   * getSilverNews once scraping is done: the curated list replaces an empty
   * scrape, at most min(limit, 8) items go to the classifier, and the
   * classified items are returned in order.
   */
  function SelectAndAnalyze(scraped: seq<SilverNewsItem>, limit: int, classify: SilverNewsItem -> Option<AiVerdict>)
    : (r: Result<seq<SilverNewsItem>>)
    ensures r.Ok?
    ensures var source := if scraped == [] then CuratedNews() else scraped;
      && |r.value| == SliceLength(|source|, if limit < MaxAnalyzed then limit else MaxAnalyzed)
      && forall k :: 0 <= k < |r.value| ==> r.value[k] == AnalyzeNewsWithAI(source[k], classify(source[k]))
    ensures limit >= 0 ==> |r.value| <= limit && |r.value| <= 8
    ensures limit < 0 ==> |r.value| < |if scraped == [] then CuratedNews() else scraped|
  {
    var newsItems := if |scraped| == 0 then CuratedNews() else scraped;
    if |newsItems| == 0 then Err("No news items available")
    else
      var end := if limit < MaxAnalyzed then limit else MaxAnalyzed;
      var itemsToAnalyze := newsItems[..SliceLength(|newsItems|, end)];
      Ok(seq(|itemsToAnalyze|, k requires 0 <= k < |itemsToAnalyze| => AnalyzeNewsWithAI(itemsToAnalyze[k], classify(itemsToAnalyze[k]))))
  }

  /** getSilverNews: never throws, and returns at most as many items as Kitco can yield. */
  function GetSilverNews(limit: int, page: Option<seq<Element>>, classify: SilverNewsItem -> Option<AiVerdict>, now: int)
    : (r: Result<seq<SilverNewsItem>>)
    ensures r.Ok? && |r.value| <= MaxScraped
    ensures limit >= 0 ==> |r.value| <= limit && |r.value| <= 8
  {
    SelectAndAnalyze(KitcoNews(page, now), limit, classify)
  }

  /** getSilverNews with its scrape loop: computes `GetSilverNews`. */
  method FetchSilverNews(limit: int, page: Option<seq<Element>>, classify: SilverNewsItem -> Option<AiVerdict>, now: int)
    returns (r: Result<seq<SilverNewsItem>>)
    ensures r == GetSilverNews(limit, page, classify, now)
  {
    var scraped := ScrapeKitcoNews(page, now);
    r := SelectAndAnalyze(scraped, limit, classify);
  }

  /** A negative limit counts from the back: -1 keeps seven of the eight curated items. */
  lemma NegativeLimitCountsFromTheBack(classify: SilverNewsItem -> Option<AiVerdict>)
    ensures |SelectAndAnalyze([], -1, classify).value| == 7
  {
  }

  /** Every item re-tagged `cached`, nothing else touched. */
  function Retag(items: seq<SilverNewsItem>): (r: seq<SilverNewsItem>)
    ensures |r| == |items|
    ensures forall k :: 0 <= k < |r| ==> r[k] == items[k].(dataSource := Cached)
  {
    seq(|items|, k requires 0 <= k < |items| => items[k].(dataSource := Cached))
  }

  /** The module-level pair (cachedNews, lastFetch). */
  datatype CacheState = CacheState(cachedNews: Option<seq<SilverNewsItem>>, lastFetch: int)

  predicate HasNews(s: CacheState) {
    s.cachedNews.Some? && |s.cachedNews.value| > 0
  }

  predicate IsFresh(s: CacheState, now: int) {
    HasNews(s) && now - s.lastFetch < CacheDuration
  }

  predicate IsUsableStale(s: CacheState, now: int) {
    HasNews(s) && now - s.lastFetch < StaleCacheDuration
  }

  /** A fetch that produced items. */
  predicate Fetched(r: Result<seq<SilverNewsItem>>) {
    r.Ok? && |r.value| > 0
  }

  /** One call of getCachedSilverNews(limit). */
  function Step(s: CacheState, now: int, fetched: Result<seq<SilverNewsItem>>): (out: (seq<SilverNewsItem>, CacheState))
    // A fresh cache is returned re-tagged, whatever the new limit.
    ensures IsFresh(s, now) ==> out == (Retag(s.cachedNews.value), s)
    ensures !IsFresh(s, now) && Fetched(fetched) ==> out == (fetched.value, CacheState(Some(fetched.value), now))
    ensures !IsFresh(s, now) && !Fetched(fetched) ==>
      out.1 == s && out.0 == if IsUsableStale(s, now) then Retag(s.cachedNews.value) else []
    // Empty exactly when no usable cache exists and the fetch gave nothing.
    ensures out.0 == [] <==> !IsUsableStale(s, now) && !Fetched(fetched)
  {
    if IsFresh(s, now) then (Retag(s.cachedNews.value), s)
    else if Fetched(fetched) then (fetched.value, CacheState(Some(fetched.value), now))
    else if IsUsableStale(s, now) then (Retag(s.cachedNews.value), s)
    else ([], s)
  }

  /** A cache that holds only lists produced by a fetch keeps at most ten items. */
  predicate ValidState(s: CacheState) {
    s.cachedNews.Some? ==> |s.cachedNews.value| <= MaxScraped
  }

  lemma StepKeepsAtMostTen(s: CacheState, now: int, limit: int, page: Option<seq<Element>>,
                             classify: SilverNewsItem -> Option<AiVerdict>)
    requires ValidState(s)
    ensures ValidState(Step(s, now, GetSilverNews(limit, page, classify, now)).1)
    ensures |Step(s, now, GetSilverNews(limit, page, classify, now)).0| <= MaxScraped
  {
  }

  class NewsCache {
    var cachedNews: Option<seq<SilverNewsItem>>
    var lastFetch: int

    constructor ()
      ensures cachedNews == None && lastFetch == 0
    {
      cachedNews := None;
      lastFetch := 0;
    }

    function State(): CacheState
      reads this
    {
      CacheState(cachedNews, lastFetch)
    }

    /** getCachedSilverNews; the scrape and the classifier are given. */
    method GetCachedSilverNews(now: int, limit: int, page: Option<seq<Element>>,
                               classify: SilverNewsItem -> Option<AiVerdict>) returns (r: seq<SilverNewsItem>)
      modifies this
      ensures (r, State()) == Step(old(State()), now, GetSilverNews(limit, page, classify, now))
    {
      ghost var s := State();
      if cachedNews.Some? && |cachedNews.value| > 0 && now - lastFetch < CacheDuration {
        return Retag(cachedNews.value);
      }
      var freshNews := FetchSilverNews(limit, page, classify, now);
      assert !IsFresh(s, now);
      if freshNews.Ok? && |freshNews.value| > 0 {
        cachedNews := Some(freshNews.value);
        lastFetch := now;
        return freshNews.value;
      }
      assert !Fetched(freshNews);
      if cachedNews.Some? && |cachedNews.value| > 0 && now - lastFetch < StaleCacheDuration {
        return Retag(cachedNews.value);
      }
      return [];
    }
  }
}
