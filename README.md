# Silver market dashboard — data layer model

This project models the server-side data layer of a silver-market dashboard.
It covers:

- the Delivery Stress Index, which scores four market readings and maps the
  total to a level;
- the provider modules that scrape or fetch the silver spot price, COMEX
  warehouse inventory, the SLV/SIVR fund prices, CME margins, the Shanghai
  price, dealer premiums and silver news, and the cache-and-fallback ladder
  each keeps in module-level state;
- the superseded COMEX inventory and silver price scrapers, which are still
  in the source tree;
- the arithmetic and map/filter bodies of the `silver` router procedures and
  of the Yahoo Finance chart client;
- the pure helpers of the dashboard page: timestamp formatting, COMEX status,
  alert thresholds, the refresh countdown, trend icons, the news mapping and
  the price spread.

Each source file is one Dafny module. Network, HTML, spreadsheet and AI
results are parameters of the operations. The current time is the parameter
`now`, in milliseconds. Quantities are `real`. Each module-level
`(cache, lastFetch)` pair is a class with those two fields. Its getter is a
method, proved equal to a pure `Step` function of the old state, the time and
the provider outcome. The ladder's properties are stated on `Step` and in
lemmas that chain several calls.

Where the source loops, the model loops too: the spreadsheet-row scans, the
news scrape, the JM Bullion price scan, the Kitco heading scan, the APMEX
candidate scan and the per-symbol chart fan-out. Each loop is proved equal to
a recursive or comprehension-defined function, and the properties are proved
about that function.

The ladders differ from file to file, and each module keeps its own file's
behaviour:

- the current price and inventory getters reuse a stale cache of any age;
- the current inventory getter throws when it has nothing to return;
- the ETF, CME and Shanghai getters return a fresh hit without re-tagging it;
- the old inventory getter caches its fallback literal;
- the old price getter can never reach its APMEX branch.

## Model

| member | source | states |
|---|---|---|
| Common.Filter | server/routers.ts:81 | the kept elements are exactly the elements satisfying the predicate, they form a subsequence of the input, and the output is no longer than the input |
| Common.FilterAppend | server/routers.ts:81 | filtering a concatenation is the concatenation of the filtered parts, so each kept element appears once per occurrence in the input, in input order |
| Common.NatToString | client/src/pages/Dashboard.tsx:428-430 | the decimal text of a count is a non-empty digit string whose decimal value is the count, with no leading zero |
| Sheet.TrimStart | server/scrapers/comexInventory.ts:58 | the result is a suffix of the input; everything removed before it is white space, and it does not start with white space |
| Sheet.TrimEnd | server/scrapers/comexInventory.ts:58 | the result is a prefix of the input; everything removed after it is white space, and it does not end with white space |
| Sheet.Lower | server/scrapers/comexInventory.old.ts:52 | lower-casing keeps the length and maps each character independently |
| StressIndex.InventoryScore | server/scrapers/deliveryStressIndex.ts:89-102 | the inventory sub-score is one of 0, 5, 12, 18, 24, 30, each exactly on its band of registered inventory (200/150/100/75/50 million oz) |
| StressIndex.EffectiveOpenInterest | server/scrapers/deliveryStressIndex.ts:39-42 | a missing or zero open interest becomes 180,000 contracts; the result is never zero |
| StressIndex.CoverageRatio | server/scrapers/deliveryStressIndex.ts:104-108 | the ratio times the claimed ounces (open interest × 5,000, in millions) equals the inventory |
| StressIndex.CoverageScore | server/scrapers/deliveryStressIndex.ts:104-119 | the coverage sub-score is one of 0, 15, 25, 35, each exactly on its ratio band (0.5/0.3/0.15) |
| StressIndex.PremiumScore | server/scrapers/deliveryStressIndex.ts:121-132 | the premium sub-score is one of 0, 7, 13, 20, each exactly on its band (0.5/2/5) |
| StressIndex.MarginScore | server/scrapers/deliveryStressIndex.ts:134-145 | the margin sub-score is one of 0, 5, 10, 15, each exactly on its band (20/50/100 percent) |
| StressIndex.LevelOf | server/scrapers/deliveryStressIndex.ts:58-73 | the level is LOW exactly below 40, MODERATE exactly on [40, 60), HIGH exactly on [60, 80) and CRITICAL exactly from 80 |
| StressIndex.CalculateDeliveryStressIndex | server/scrapers/deliveryStressIndex.ts:26-87 | the reported factors are the four sub-scores, the index is their sum and lies in [0, 100] so the cap never applies, and the level and interpretation follow the index |
| StressIndex.InventoryScoreNonIncreasing | server/scrapers/deliveryStressIndex.ts:89-102 | more inventory never raises the inventory sub-score |
| StressIndex.CoverageScoreNonIncreasing | server/scrapers/deliveryStressIndex.ts:104-119 | for positive open interest, more inventory never raises the coverage sub-score |
| StressIndex.PremiumScoreNonDecreasing | server/scrapers/deliveryStressIndex.ts:121-132 | a higher premium never lowers the premium sub-score |
| StressIndex.MarginScoreNonDecreasing | server/scrapers/deliveryStressIndex.ts:134-145 | a larger margin increase never lowers the margin sub-score |
| StressIndex.LevelMonotone | server/scrapers/deliveryStressIndex.ts:58-73 | a higher index never gives a lower level |
| StressIndex.InventoryScoreExamples | server/scrapers/deliveryStressIndex.ts:96-101 | 200 million oz scores 0 and 149.9 million oz scores 12 |
| StressIndex.CoverageExample | server/scrapers/deliveryStressIndex.ts:104-119 | 100 million oz against 180,000 contracts (ratio about 0.111) scores 35 |
| StressIndex.EndToEndExample | server/scrapers/deliveryStressIndex.ts:35-73 | inventory 30.2, premium 11.56, margin 62.5 and no open interest give factors 30+35+20+10, index 95, level CRITICAL |
| StressIndex.IndexNonIncreasingInInventory | server/scrapers/deliveryStressIndex.ts:26-87 | with everything else fixed, more inventory never raises the index or the level |
| SilverPrice.YahooFinancePrice | server/scrapers/silverPrice.ts:20-69 | a record exists exactly when the price and previous close are present and non-zero and the price lies in [10, 200]; then change = price − previous close, changePercent × previous close = change × 100, tagged live |
| SilverPrice.Step | server/scrapers/silverPrice.ts:74-108 | a cache younger than 5 minutes is returned tagged cached with the state unchanged; otherwise a live record is stored with lastFetch = now; a failed fetch returns any cached value, of any age, tagged cached, with the state unchanged; with no cache the fallback literal is returned and nothing is stored; every returned price stays in band |
| SilverPrice.SecondCallWithinWindowIsCached | server/scrapers/silverPrice.ts:78-91 | after a live fetch, a second call within 5 minutes returns the same record tagged cached and changes nothing |
| SilverPrice.RejectsImplausiblePrice | server/scrapers/silverPrice.ts:53-56 | a price of 5 is rejected |
| SilverPrice.PriceCache.constructor | server/scrapers/silverPrice.ts:13-15 | the cache starts empty with lastFetchTime 0 |
| SilverPrice.PriceCache.GetSilverPrice | server/scrapers/silverPrice.ts:74-108 | the returned record and the new fields are those of `Step` on the old fields |
| ComexInventory.RightmostValue | server/scrapers/comexInventory.ts:64-71 | the value found is the rightmost numeric cell above 100,000; none is found exactly when no cell qualifies |
| ComexInventory.RowContribution | server/scrapers/comexInventory.ts:54-73 | a row with at least two cells whose trimmed first cell equals the heading exactly contributes its rightmost qualifying value; any other row contributes nothing; the contribution is never negative |
| ComexInventory.LabelTotalNonNegative | server/scrapers/comexInventory.ts:54-85 | a heading's total over all rows is never negative |
| ComexInventory.LabelTotalIgnoresOtherRows | server/scrapers/comexInventory.ts:54-85 | when no row carries the heading, its total is 0 |
| ComexInventory.FindRightmostValue | server/scrapers/comexInventory.ts:64-71 | the right-to-left scan with early exit finds the rightmost qualifying value |
| ComexInventory.RowValue | server/scrapers/comexInventory.ts:56-84 | the loop body for one heading adds exactly that row's contribution to the heading's total |
| ComexInventory.SumInventory | server/scrapers/comexInventory.ts:54-85 | the row loop's accumulators equal the Registered and Eligible totals |
| ComexInventory.Reading | server/scrapers/comexInventory.ts:88-109 | a reading exists exactly when the registered total lies in [1, 500] million oz; then registered and eligible are the totals in millions, total is their sum, tagged live, with the given report date |
| ComexInventory.ScrapeResult | server/scrapers/comexInventory.ts:16-115 | a reading exists exactly when the workbook was read and the registered total lies in [1, 500] million oz; then registered and eligible are the totals in millions, total is their sum, tagged live, with the report date of the workbook; eligible is never range-checked |
| ComexInventory.ScrapeComexInventory | server/scrapers/comexInventory.ts:16-115 | the scraper, with its row loops and range check, computes `ScrapeResult` |
| ComexInventory.Step | server/scrapers/comexInventory.ts:125-152 | a cache younger than 1 hour is returned tagged cached with the state unchanged; a successful scrape is stored and returned live; a failed scrape returns any cache, of any age, tagged cached; with no cache the call fails instead of inventing a value; nothing is ever tagged fallback |
| ComexInventory.StaleCacheHasNoAgeLimit | server/scrapers/comexInventory.ts:144-147 | a cache of any age is served, tagged cached, when the scrape fails |
| ComexInventory.InventoryCache.constructor | server/scrapers/comexInventory.ts:118-120 | the cache starts empty with lastFetch 0 |
| ComexInventory.InventoryCache.GetComexInventory | server/scrapers/comexInventory.ts:125-152 | the result and the new fields are those of `Step` on the old fields |
| EtfPrices.FetchEtfPrices | server/scrapers/etfPrices.ts:28-77 | given both fund prices as numbers, a live record exists exactly when both lie in [10, 200]; each change is price − previous close; divergence × SIVR = (SLV − SIVR) × 100, and it is negative exactly when SLV trades below SIVR |
| EtfPrices.Step | server/scrapers/etfPrices.ts:19-103 | a cache younger than 5 minutes is returned unchanged and not re-tagged; a live result is stored with the cache time; on failure a cache younger than 24 hours is returned tagged cached; otherwise the fallback literal is returned and the state is left alone |
| EtfPrices.StaleCacheExpires | server/scrapers/etfPrices.ts:83-101 | a cache 24 hours old or older is not served; the fallback literal is returned instead |
| EtfPrices.DivergenceExample | server/scrapers/etfPrices.ts:57 | SLV 22.50 against SIVR 22.45 diverges by about 0.2227 percent |
| EtfPrices.EtfCache.constructor | server/scrapers/etfPrices.ts:14-17 | the cache starts empty with cacheTime 0 |
| EtfPrices.EtfCache.GetETFPrices | server/scrapers/etfPrices.ts:19-103 | the result and the new fields are those of `Step` on the old fields |
| CmeMargins.KnownMargins | server/scrapers/cmeMargins.ts:42-55 | the margin per ounce times 5,000 is the initial margin, and even the successful path is tagged fallback with an error |
| CmeMargins.SuccessAgreesWithFallback | server/scrapers/cmeMargins.ts:42-45 | apart from the error text, the successful record and the failure literal agree (35,200 / 32,000 / 7.04 / 113) |
| CmeMargins.Step | server/scrapers/cmeMargins.ts:18-85 | a cache younger than 1 hour is returned unchanged; a successful request stores and returns the known margins; on failure a cache younger than 24 hours is returned tagged cached, otherwise the literal with the cache untouched; from a cache holding only such records, no answer is live and every answer has initial margin 35,200 |
| CmeMargins.MarginCache.constructor | server/scrapers/cmeMargins.ts:13-16 | the cache starts empty with cacheTime 0 |
| CmeMargins.MarginCache.GetCMEMargins | server/scrapers/cmeMargins.ts:18-85 | the result and the new fields are those of `Step` on the old fields |
| ShanghaiPrice.Estimate | server/scrapers/shanghaiPrice.ts:46-56 | premium is 0.50, priceUSD = COMEX spot + premium, and price × 31.1035 × 0.14 = priceUSD, tagged live |
| ShanghaiPrice.FallbackShanghai | server/scrapers/shanghaiPrice.ts:73-84 | the fallback has price 0, priceUSD = spot + 0.50 and premium 0.50, tagged fallback with an error |
| ShanghaiPrice.Step | server/scrapers/shanghaiPrice.ts:21-86 | a cache younger than 15 minutes is returned unchanged, ignoring the new spot price; a successful request stores the estimate; on failure a cache younger than 24 hours is returned tagged cached, otherwise the fallback with the state untouched; from a cache holding only such records, every answer and every stored record has premium 0.50 |
| ShanghaiPrice.ShanghaiCache.constructor | server/scrapers/shanghaiPrice.ts:12-13 | the cache starts empty with cacheTime 0 |
| ShanghaiPrice.ShanghaiCache.GetShanghaiPrice | server/scrapers/shanghaiPrice.ts:21-86 | the result and the new fields are those of `Step` on the old fields |
| PhysicalPremiums.ScrapeAPMEX | server/scrapers/physicalPremiums.ts:31-41 | a premium is accepted exactly when it lies in (0, 50), and is then the matched value |
| PhysicalPremiums.LowestAbove | server/scrapers/physicalPremiums.ts:78-87 | the pick is a listed price above spot and no larger than any other price above spot; there is none exactly when no price exceeds spot |
| PhysicalPremiums.JmPremium | server/scrapers/physicalPremiums.ts:52-102 | a premium exists exactly when spot was found, some price exceeds it and the difference lies in (0, 50); it is the lowest such price minus spot |
| PhysicalPremiums.ScrapeJMBullion | server/scrapers/physicalPremiums.ts:52-102 | the forEach scan for the lowest price computes `JmPremium` |
| PhysicalPremiums.SumBounds | server/scrapers/physicalPremiums.ts:127 | the sum of n values each in (lo, hi) lies in (n·lo, n·hi), so an average of plausible premiums is plausible |
| PhysicalPremiums.ValidPremiums | server/scrapers/physicalPremiums.ts:115-123 | one entry per dealer that succeeded: the APMEX premium first when APMEX succeeded, the JM Bullion premium last when JM Bullion succeeded |
| PhysicalPremiums.CollectValid | server/scrapers/physicalPremiums.ts:115-123 | the two pushes onto `validPremiums` build exactly `ValidPremiums` |
| PhysicalPremiums.GetPhysicalPremiums | server/scrapers/physicalPremiums.ts:107-153 | the result is live exactly when at least one dealer succeeded, and is then the mean of the successful premiums, inside (0, 50); otherwise premium 0 tagged fallback with an error; no state is kept between calls |
| SilverNews.FullUrl | server/scrapers/silverNews.ts:47 | the URL starts with "http"; a link that already does is kept, any other is prefixed with the Kitco origin |
| SilverNews.NewItem | server/scrapers/silverNews.ts:46-60 | the item keeps the element's title, takes its summary or else its title, carries the absolute URL of its link and the id of its index, and has the Kitco defaults (medium, neutral, live) |
| SilverNews.Collected | server/scrapers/silverNews.ts:38-62 | one item per kept element (title longer than 10 and a non-empty link), in element order, and none for the other elements; each item is `NewItem` of its element at the element's index, so it is a well-formed scraped item |
| SilverNews.KitcoNews | server/scrapers/silverNews.ts:23-71 | a failed request gives no items; otherwise at most 10 items, one per kept element among the first ten, in element order, each `NewItem` of its element |
| SilverNews.ScrapeKitcoNews | server/scrapers/silverNews.ts:23-71 | the element loop with its stop at index 10 computes `KitcoNews` |
| SilverNews.CuratedNews | server/scrapers/silverNews.ts:76-178 | the curated list has eight items |
| SilverNews.AnalyzeNewsWithAI | server/scrapers/silverNews.ts:183-230 | a failed classification leaves the item unchanged; a verdict sets confidence, impact and analysis and nothing else |
| SilverNews.SliceLength | server/scrapers/silverNews.ts:251 | the length `slice(0, end)` keeps: `end` capped at the length, or counted from the back when negative |
| SilverNews.SelectAndAnalyze | server/scrapers/silverNews.ts:240-257 | the curated list is used only when scraping found nothing; the result is the analysed prefix of length `slice(0, min(limit, 8))`, so at most `limit` and at most 8 items when the limit is not negative |
| SilverNews.GetSilverNews | server/scrapers/silverNews.ts:235-264 | never fails, returns at most 10 items, and at most min(limit, 8) when the limit is not negative |
| SilverNews.FetchSilverNews | server/scrapers/silverNews.ts:235-264 | getSilverNews, with the scrape loop, computes `GetSilverNews` |
| SilverNews.NegativeLimitCountsFromTheBack | server/scrapers/silverNews.ts:251 | with no scraped items and limit −1, seven of the eight curated items are returned |
| SilverNews.Retag | server/scrapers/silverNews.ts:278 | the same items, in order, each tagged cached |
| SilverNews.Step | server/scrapers/silverNews.ts:272-303 | a non-empty cache younger than 15 minutes is returned re-tagged cached; a non-empty fetch is stored with lastFetch = now and returned as is; on failure a non-empty cache younger than 24 hours is returned re-tagged; the answer is empty exactly when neither applies |
| SilverNews.StepKeepsAtMostTen | server/scrapers/silverNews.ts:266-303 | the cache never holds more than ten items and no answer exceeds ten |
| SilverNews.NewsCache.constructor | server/scrapers/silverNews.ts:267-268 | the cache starts empty with lastFetch 0 |
| SilverNews.NewsCache.GetCachedSilverNews | server/scrapers/silverNews.ts:272-303 | the result and the new fields are those of `Step` applied to the outcome of getSilverNews |
| Routers.GetSpotPrice | server/routers.ts:24-54 | a rejected call's error is rethrown and a missing result raises "No data returned"; otherwise price is the market price, change + previous close = price, and the percentage exists exactly when the previous close is non-zero, with percent × previous close = change × 100 |
| Routers.RowAt | server/routers.ts:78-80 | the row's day is the UTC day containing the timestamp, and its price is `close[i]`, or 0 when that entry is missing, null or zero |
| Routers.Rows | server/routers.ts:78-80 | one row per timestamp, in order |
| Routers.GetHistoricalPrices | server/routers.ts:57-88 | a missing result or quote block raises its error; otherwise the rows with price > 0 are kept, every such row appears, in the original order, and the output is no longer than the timestamps |
| Routers.CompareSLVvsSIVR | server/routers.ts:91-118 | a rejected data-API call is rethrown; otherwise a missing or zero fund price reads as 0, the divergence is the non-negative difference of the two prices, and its percentage exists exactly when SLV is non-zero, with percent × SLV = divergence × 100 |
| Routers.DivergenceSymmetric | server/routers.ts:104 | swapping the funds does not change the divergence |
| Routers.PercentUsesSlvAsBase | server/routers.ts:105 | the percentage is relative to SLV: 30 against 31 gives 10/3, swapped it gives 100/31 |
| YahooFinance.PointAt | server/utils/yahooFinance.ts:74-81 | the point's timestamp is the chart timestamp × 1000, and each field is its column's entry or 0 |
| YahooFinance.Points | server/utils/yahooFinance.ts:74-81 | one point per timestamp, in order |
| YahooFinance.GetYahooFinanceChart | server/utils/yahooFinance.ts:38-92 | a rejected fetch, a non-OK status, a chart error and a missing result each give their own error; otherwise current price and previous close are copied, and the points with price > 0 are kept in order, all of them, none longer than the timestamps; a missing quote block fails exactly when there are timestamps |
| YahooFinance.GetMultipleSymbols | server/utils/yahooFinance.ts:94-114 | the result map has exactly the requested symbols as keys, each mapped to its points or to an empty list |
| YahooFinance.ChartKeepsValidPointsInOrder | server/utils/yahooFinance.ts:74-81 | two kept points with increasing timestamps appear in the output in that order |
| YahooFinance.FilterKeepsOrder | server/utils/yahooFinance.ts:81 | filtering keeps the relative order of two distinct kept elements |
| ComexInventoryOld.TodayValue | server/scrapers/comexInventory.old.ts:57-80 | a row yields a figure for a heading exactly when its trimmed, lower-cased first cell is the heading and column 6 is truthy and parses (commas removed) to a positive number; the figure is that number |
| ComexInventoryOld.GrandTotal | server/scrapers/comexInventory.old.ts:83-93 | a row yields a grand total exactly when its lower-cased first cell mentions "total" and "registered" and `row[1] \|\| row[6]` parses to more than 1,000,000; the total is the number of column 1 when that cell is truthy, otherwise of column 6 |
| ComexInventoryOld.Figures | server/scrapers/comexInventory.old.ts:52-93 | the figures the loop body reads off a row are its registered and eligible TOTAL TODAY values and its grand total |
| ComexInventoryOld.FiguresExclusive | server/scrapers/comexInventory.old.ts:57-93 | a row feeds at most one of the three tests: a Registered row is not an Eligible row, and neither mentions "total" |
| ComexInventoryOld.FiguresOf | server/scrapers/comexInventory.old.ts:50-94 | one set of figures per row, each valid |
| ComexInventoryOld.RowUpdate | server/scrapers/comexInventory.old.ts:57-93 | a row marks data as found when it has a registered figure or a grand total; a grand total overrides the registered sum; figures a row lacks leave the totals alone; the totals stay non-negative |
| ComexInventoryOld.AccumulateNonNegative | server/scrapers/comexInventory.old.ts:50-94 | the accumulated totals are never negative |
| ComexInventoryOld.FoundIffSomeRowCounts | server/scrapers/comexInventory.old.ts:50-98 | data is found exactly when some row has a registered figure or a grand total |
| ComexInventoryOld.GrandTotalOverrides | server/scrapers/comexInventory.old.ts:83-93 | when the last row with a registered figure is a grand-total row, the registered total is that grand total |
| ComexInventoryOld.UpdateTotals | server/scrapers/comexInventory.old.ts:57-93 | the loop body applies exactly one row update: add the registered figure, add the eligible figure, then let a grand total override |
| ComexInventoryOld.ParseRows | server/scrapers/comexInventory.old.ts:50-94 | the row loop's accumulators equal the fold of the rows' figures |
| ComexInventoryOld.FallbackInventory | server/scrapers/comexInventory.old.ts:121-134 | the fallback is 30.2 registered and 290.0 eligible, with their sum as total, tagged fallback with the error |
| ComexInventoryOld.FromTotals | server/scrapers/comexInventory.old.ts:96-134 | the reading is live exactly when data was found and registered lies in [10, 200] million; then the figures are the totals in millions with their sum as total; no data and an out-of-range total each give the fallback |
| ComexInventoryOld.Scrape | server/scrapers/comexInventory.old.ts:17-135 | the scraper never fails: a failed download gives the fallback; a live reading has registered in [10, 200] and eligible non-negative; it is never tagged cached |
| ComexInventoryOld.ScrapeComexInventory | server/scrapers/comexInventory.old.ts:17-135 | the scraper with its row loop computes `Scrape` |
| ComexInventoryOld.Step | server/scrapers/comexInventory.old.ts:138-156 | a cache younger than 1 hour is returned tagged cached; otherwise whatever the scraper returns, the fallback included, is stored with lastFetch = now and returned |
| ComexInventoryOld.FallbackIsServedForAnHour | server/scrapers/comexInventory.old.ts:145-155 | after a failed scrape, every call within the hour returns the stored fallback literal tagged cached |
| ComexInventoryOld.InventoryCache.constructor | server/scrapers/comexInventory.old.ts:138-139 | the cache starts empty with lastFetch 0 |
| ComexInventoryOld.InventoryCache.GetComexInventory | server/scrapers/comexInventory.old.ts:142-156 | the result and the new fields are those of `Step` on the old fields |
| SilverPriceOld.LastChange | server/scrapers/silverPrice.old.ts:45-54 | the change figures come from the last heading that has a sign and matches the pattern; there are none exactly when no heading does |
| SilverPriceOld.KitcoFallback | server/scrapers/silverPrice.old.ts:85-101 | the fallback literal 72.77 / 72.89 / 1.23 / 1.72 / 74.59 / 71.23, tagged fallback with the error |
| SilverPriceOld.KitcoQuote | server/scrapers/silverPrice.old.ts:19-102 | the quote is live exactly when the page was read and the bid is non-zero and in [10, 200]; then ask = bid + 0.12, the change is the last matched heading's or 0, and day high and low default to bid ± 2; any failure gives the fallback, so the scraper never throws |
| SilverPriceOld.ScanHeadings | server/scrapers/silverPrice.old.ts:45-54 | the heading loop leaves the change figures of the last heading that has a sign and matches, or 0 and 0 when none does |
| SilverPriceOld.ScrapeSilverPrice | server/scrapers/silverPrice.old.ts:19-102 | the scraper, with the heading loop, computes `KitcoQuote` |
| SilverPriceOld.FirstInBand | server/scrapers/silverPrice.old.ts:122-129 | the pick is a candidate strictly between 10 and 200; there is none exactly when no candidate is in that band |
| SilverPriceOld.FirstInBandIsFirst | server/scrapers/silverPrice.old.ts:122-129 | every candidate before the pick is outside the band |
| SilverPriceOld.ApmexQuote | server/scrapers/silverPrice.old.ts:105-152 | a failed request rethrows its error and no in-band candidate raises "Could not find price on APMEX"; the quote succeeds exactly when some candidate is in band, and then the bid is the first in-band candidate, ask = bid + 0.12, change 0, day high and low bid ± 2, tagged live, stamped now |
| SilverPriceOld.ScrapeSilverPriceFromApmex | server/scrapers/silverPrice.old.ts:105-152 | the candidate loop with its early exit computes `ApmexQuote` |
| SilverPriceOld.Step | server/scrapers/silverPrice.old.ts:159-187 | a cache younger than 5 minutes is returned tagged cached; otherwise the Kitco result, live or fallback, is stored with lastFetch = now and returned; a live answer has its bid in [10, 200] |
| SilverPriceOld.StaleCacheIsReplaced | server/scrapers/silverPrice.old.ts:171-186 | once five minutes have passed, the cache is never served again; a new Kitco result replaces it |
| SilverPriceOld.FallbackIsServedForFiveMinutes | server/scrapers/silverPrice.old.ts:159-186 | after a failed Kitco request, every call within five minutes returns the fallback literal tagged cached |
| SilverPriceOld.PriceCache.constructor | server/scrapers/silverPrice.old.ts:155-157 | the cache starts empty with lastFetch 0 |
| SilverPriceOld.PriceCache.GetSilverPrice | server/scrapers/silverPrice.old.ts:159-187 | the result and the new fields are those of `Step` on the old fields |
| Dashboard.Elapsed | client/src/pages/Dashboard.tsx:421-431 | the unit is chosen by the elapsed time (under a minute, an hour, a day, or more), and the count is the floor of the elapsed time in that unit |
| Dashboard.FormatTimestamp | client/src/pages/Dashboard.tsx:421-431 | "Just now", or the floored count followed by "m ago", "h ago" or "d ago" |
| Dashboard.ElapsedUnitMonotone | client/src/pages/Dashboard.tsx:421-431 | an older timestamp never gets a smaller unit than a newer one |
| Dashboard.ComexStatus | client/src/pages/Dashboard.tsx:271 | the status is unknown exactly when data is missing or tagged fallback; otherwise crisis below 25, warning below 35, normal from 35 |
| Dashboard.ComexValue | client/src/pages/Dashboard.tsx:271 | the shown value is the registered figure, or 127.26 when it is missing or zero |
| Dashboard.AnsweredInventoryIsNeverUnknown | client/src/pages/Dashboard.tsx:271 | any inventory the current getter answers with gives a known status, because it is never tagged fallback |
| Dashboard.StressValue | client/src/pages/Dashboard.tsx:306 | the shown index is the computed one, or 0 when missing |
| Dashboard.AlertsFor | client/src/pages/Dashboard.tsx:380-398 | each alert fires exactly when its threshold is strictly crossed: premium > 15, COMEX < 25, stress > 90 |
| Dashboard.SnapshotAlerts | client/src/pages/Dashboard.tsx:262-306 | the Shanghai alert never fires because its value is the literal 11.56; the COMEX alert needs a non-zero registered figure below 25; the stress alert needs a computed index above 90 |
| Dashboard.StressAlertMeansCritical | client/src/pages/Dashboard.tsx:394 | an index that fires the stress alert is at the CRITICAL level |
| Dashboard.NextRefresh | client/src/pages/Dashboard.tsx:366-371 | at 1 or below the countdown restarts at the interval in seconds; otherwise it drops by one |
| Dashboard.CountsDownFromStart | client/src/pages/Dashboard.tsx:366-371 | starting from n, after k < n ticks the countdown shows n − k |
| Dashboard.CountdownHasPeriodN | client/src/pages/Dashboard.tsx:366-371 | with an interval of n seconds, the countdown returns to n after n ticks and stays below it in between |
| Dashboard.GetTrendIcon | client/src/pages/Dashboard.tsx:433-448 | the size is large above 10 in magnitude, medium above 5, small otherwise; the icon is red exactly for the dangerous direction, muted exactly for stable; the shape follows the trend |
| Dashboard.Card | client/src/pages/Dashboard.tsx:120-129 | a card copies the item's id, title, summary, confidence, publication time, source, source URL and impact |
| Dashboard.NewsItems | client/src/pages/Dashboard.tsx:113-130 | absent news gives no cards; otherwise one card per item, in order, with the item's id |
| Dashboard.PriceData | client/src/pages/Dashboard.tsx:319-326 | API data is used exactly when it is non-empty; each point keeps its day, with COMEX = price and Shanghai = price × 1.15 |
| Dashboard.SpreadData | client/src/pages/Dashboard.tsx:354-358 | one spread per point, in order: Shanghai − COMEX |
| Dashboard.SpreadIsFifteenPercent | client/src/pages/Dashboard.tsx:319-358 | over API history, every spread is 15 percent of the day's price and is positive |

## Left out

- Every network, HTML, spreadsheet and AI call is an input. This covers axios, `fetch` and the data API client, cheerio selectors, XLSX decoding and the regular expressions run over page text. Each becomes a provider outcome, a row list of typed cells or a list of candidate numbers.
- The AI classifier is a function parameter returning an optional verdict (confidence, impact, analysis); the prompt and the JSON parsing are not modelled.
- `Promise.all` fan-outs are modelled as sequential calls, because no shared state is touched between them.
- The clock is the parameter `now`, taken as the same instant for every `Date.now()` and `new Date()` within one call.
- Dates are epoch milliseconds, or UTC day numbers in the history rows; ISO date strings and `toLocaleString` are not produced.
- Generated item ids keep the element index only; the embedded time is not modelled.
- Floating point is modelled as exact `real` arithmetic. `NaN` and division by zero are modelled only where the code tests for them, as `None`.
- EtfPrices.FetchEtfPrices: every fund price is read as a number. In the source, a chart response without `regularMarketPrice` passes the band test, because comparisons with `undefined` are false, and is cached and returned as live data with `NaN` figures. The model does not represent that record.
- Routers.CompareSLVvsSIVR: when both data-API calls are rejected, the source rethrows whichever rejection comes first; the model rethrows the SLV error.
- The `range` input of getHistoricalPrices (default "1mo") only shapes the data-API request, which is an input of the model.
- Trimming and lower-casing handle ASCII only; Unicode white space and case folding are not modelled.
- SilverPrice.YahooFinancePrice: price, change and changePercent are not rounded to two decimals.
- PhysicalPremiums.GetPhysicalPremiums: the average premium is not rounded to two decimals.
- Dashboard.SpreadData: the spread is not rounded to two decimals.
- StressIndex.CalculateDeliveryStressIndex: the `Math.round` of the sum is omitted, because the sum of integer sub-scores is already an integer.
- SilverNews.CuratedNews: its contract states the count of curated items only; their titles and summaries are literal data.
- ComexInventoryOld.Scrape: the error of an out-of-range reading carries the number instead of the formatted message text.
- SilverPriceOld.KitcoQuote: the error of an invalid bid carries the bid instead of the formatted message text.
- SilverPriceOld.PriceCache.GetSilverPrice: the APMEX branch of the source sits in a `catch` that the Kitco scraper never reaches, because that scraper turns every failure into its fallback literal. The method has no such branch. The APMEX scraper itself is modelled.
- The outer `catch` of getPhysicalPremiums is not modelled, because neither dealer scraper throws.
- The COMEX report-date regular expression is not modelled; the report date is part of the workbook input.
- The AI step updates a news item in place; the model returns the updated item as a new value.
- The dashboard's random mock price series, used when no history is available, is represented by `None`; its values are not modelled.
- Dashboard rendering, React state and the `setInterval` scheduling are not modelled. Only the countdown step function is.
- The authentication and cookie routes of the router are not modelled.
- Not modelled: the static content pages, the random news templates, the cloud-function handler stub and the scraper test scripts.
