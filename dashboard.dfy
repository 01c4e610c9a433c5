/**
 * The pure helpers of the dashboard page: how the snapshot values are
 * derived from the server's records, the alert thresholds, the relative
 * time labels, the refresh countdown, the trend icon and the news and
 * spread mappings. Rendering, hooks and timers are not part of the model;
 * the current time is a parameter.
 */
module Dashboard {
  import opened Common
  import ComexInventory
  import StressIndex
  import SilverNews
  import Routers

  // ----- relative time -----

  /** The label formatTimestamp produces, before it is rendered as text. */
  datatype TimeAgo = JustNow | MinutesAgo(minutes: int) | HoursAgo(hours: int) | DaysAgo(days: int)

  const MillisPerMinute := 60000
  const MillisPerHour := 3600000
  const MillisPerDay := 86400000

  /**
   * formatTimestamp's choice of unit. `Math.floor` of a quotient by a
   * positive constant is Euclidean division on integers, so a timestamp in
   * the future reads as "Just now".
   */
  function Elapsed(now: int, timestamp: int): (t: TimeAgo)
    ensures t.JustNow? <==> now - timestamp < MillisPerMinute
    ensures t.MinutesAgo? <==> MillisPerMinute <= now - timestamp < MillisPerHour
    ensures t.HoursAgo? <==> MillisPerHour <= now - timestamp < MillisPerDay
    ensures t.DaysAgo? <==> MillisPerDay <= now - timestamp
    ensures t.MinutesAgo? ==>
              1 <= t.minutes < 60
              && t.minutes * MillisPerMinute <= now - timestamp < (t.minutes + 1) * MillisPerMinute
    ensures t.HoursAgo? ==>
              1 <= t.hours < 24
              && t.hours * MillisPerHour <= now - timestamp < (t.hours + 1) * MillisPerHour
    ensures t.DaysAgo? ==>
              1 <= t.days
              && t.days * MillisPerDay <= now - timestamp < (t.days + 1) * MillisPerDay
  {
    var diff := now - timestamp;
    var minutes := diff / MillisPerMinute;
    var hours := diff / MillisPerHour;
    var days := diff / MillisPerDay;
    if minutes < 1 then JustNow
    else if minutes < 60 then MinutesAgo(minutes)
    else if hours < 24 then HoursAgo(hours)
    else DaysAgo(days)
  }

  /** formatTimestamp. */
  function FormatTimestamp(now: int, timestamp: int): (s: string)
    ensures Elapsed(now, timestamp).JustNow? ==> s == "Just now"
    ensures Elapsed(now, timestamp).MinutesAgo? ==> s == IntToString(Elapsed(now, timestamp).minutes) + "m ago"
    ensures Elapsed(now, timestamp).HoursAgo? ==> s == IntToString(Elapsed(now, timestamp).hours) + "h ago"
    ensures Elapsed(now, timestamp).DaysAgo? ==> s == IntToString(Elapsed(now, timestamp).days) + "d ago"
  {
    match Elapsed(now, timestamp)
    case JustNow => "Just now"
    case MinutesAgo(m) => IntToString(m) + "m ago"
    case HoursAgo(h) => IntToString(h) + "h ago"
    case DaysAgo(d) => IntToString(d) + "d ago"
  }

  /** An older timestamp never reads as more recent: the label's unit only grows with age. */
  lemma ElapsedUnitMonotone(now: int, older: int, newer: int)
    requires older <= newer
    ensures Elapsed(now, newer).DaysAgo? ==> Elapsed(now, older).DaysAgo?
    ensures Elapsed(now, newer).HoursAgo? ==> Elapsed(now, older).HoursAgo? || Elapsed(now, older).DaysAgo?
    ensures !Elapsed(now, newer).JustNow? ==> !Elapsed(now, older).JustNow?
  {
  }

  // ----- the COMEX registered card -----

  datatype Status = Unknown | Crisis | Warning | Normal

  /** The card's status: unknown without live or cached data, else by the 25M and 35M oz thresholds. */
  function ComexStatus(comexData: Option<ComexInventory.ComexInventoryData>): (st: Status)
    ensures st == Unknown <==> comexData.None? || comexData.value.dataSource == Fallback
    ensures st == Crisis <==> st != Unknown && comexData.value.registered < 25.0
    ensures st == Warning <==> st != Unknown && 25.0 <= comexData.value.registered < 35.0
    ensures st == Normal <==> st != Unknown && 35.0 <= comexData.value.registered
  {
    if comexData.None? || comexData.value.dataSource == Fallback then Unknown
    else if comexData.value.registered < 25.0 then Crisis
    else if comexData.value.registered < 35.0 then Warning
    else Normal
  }

  /** `comexData?.registered || 127.26`. */
  function ComexValue(comexData: Option<ComexInventory.ComexInventoryData>): (v: real)
    ensures comexData.Some? && comexData.value.registered != 0.0 ==> v == comexData.value.registered
    ensures comexData.None? || comexData.value.registered == 0.0 ==> v == 127.26
  {
    if comexData.Some? && comexData.value.registered != 0.0 then comexData.value.registered else 127.26
  }

  /**
   * With the current inventory getter the status is "unknown" only when the
   * query itself failed: every record it answers is live or cached.
   */
  lemma AnsweredInventoryIsNeverUnknown(s: ComexInventory.CacheState, now: int, workbook: Option<ComexInventory.Workbook>)
    requires ComexInventory.Step(s, now, workbook).0.Ok?
    ensures ComexStatus(Some(ComexInventory.Step(s, now, workbook).0.value)) != Unknown
  {
  }

  // ----- alerts -----

  /** The Shanghai premium card shows a fixed figure. */
  const ShanghaiPremiumValue := 11.56

  /** `deliveryStressData?.index || 0`. */
  function StressValue(stress: Option<StressIndex.StressIndexData>): (v: int)
    ensures stress.Some? ==> v == stress.value.index
    ensures stress.None? ==> v == 0
  {
    if stress.Some? then stress.value.index else 0
  }

  datatype Alerts = Alerts(shanghaiPremium: bool, comexInventory: bool, deliveryStress: bool)

  /** The three threshold checks, all strict. */
  function AlertsFor(shanghaiPremium: real, comexRegistered: real, deliveryStress: int): (a: Alerts)
    ensures a.shanghaiPremium <==> shanghaiPremium > 15.0
    ensures a.comexInventory <==> comexRegistered < 25.0
    ensures a.deliveryStress <==> deliveryStress > 90
  {
    Alerts(shanghaiPremium > 15.0, comexRegistered < 25.0, deliveryStress > 90)
  }

  /** The alerts for the page's snapshot. */
  function SnapshotAlerts(comexData: Option<ComexInventory.ComexInventoryData>,
                          stress: Option<StressIndex.StressIndexData>): (a: Alerts)
    ensures !a.shanghaiPremium
    ensures a.comexInventory ==> comexData.Some? && 0.0 != comexData.value.registered < 25.0
    ensures a.deliveryStress ==> stress.Some? && stress.value.index > 90
  {
    AlertsFor(ShanghaiPremiumValue, ComexValue(comexData), StressValue(stress))
  }

  /** A stress alert only fires for an index the server itself grades critical. */
  lemma StressAlertMeansCritical(registeredInventory: real, openInterest: Option<real>,
                                 shanghaiPremium: real, marginChangePercent: real, now: int)
    requires
      var data := StressIndex.CalculateDeliveryStressIndex(registeredInventory, openInterest, shanghaiPremium, marginChangePercent, now);
      SnapshotAlerts(None, Some(data)).deliveryStress
    ensures StressIndex.CalculateDeliveryStressIndex(registeredInventory, openInterest, shanghaiPremium, marginChangePercent, now).level
            == StressIndex.Critical
  {
  }

  // ----- refresh countdown -----

  /** The `setNextRefresh` updater run every second; `refreshInterval` is in milliseconds. */
  function NextRefresh(prev: real, refreshInterval: real): (r: real)
    ensures prev <= 1.0 ==> r == refreshInterval / 1000.0
    ensures prev > 1.0 ==> r == prev - 1.0
  {
    if prev <= 1.0 then refreshInterval / 1000.0 else prev - 1.0
  }

  /** The countdown after `k` ticks. */
  function Ticks(start: real, refreshInterval: real, k: nat): real {
    if k == 0 then start else NextRefresh(Ticks(start, refreshInterval, k - 1), refreshInterval)
  }

  lemma {:induction false} CountsDownFromStart(n: nat, refreshInterval: real, k: nat)
    requires k < n
    ensures Ticks(n as real, refreshInterval, k) == (n - k) as real
  {
    if k > 0 {
      CountsDownFromStart(n, refreshInterval, k - 1);
    }
  }

  /** Starting from a full interval of `n` seconds, the countdown returns to `n` after exactly `n` ticks. */
  lemma CountdownHasPeriodN(n: nat, start: real, refreshInterval: real)
    requires n >= 1 && start == n as real && refreshInterval == (n * 1000) as real
    ensures Ticks(start, refreshInterval, n) == start
    ensures forall k: nat :: 0 < k < n ==> Ticks(start, refreshInterval, k) < start
  {
    CountsDownFromStart(n, refreshInterval, n - 1);
    forall k: nat | 0 < k < n
      ensures Ticks(start, refreshInterval, k) < start
    {
      CountsDownFromStart(n, refreshInterval, k);
    }
  }

  // ----- trend icon -----

  datatype Trend = Up | Down | Stable
  datatype IconSize = Large | Medium | Small
  datatype IconColor = Destructive | Muted | Emerald
  datatype IconShape = TrendingUp | TrendingDown | Flat

  datatype TrendIcon = TrendIcon(shape: IconShape, size: IconSize, color: IconColor)

  /** getTrendIcon; `trend` and `change24h` are optional on a metric. */
  function GetTrendIcon(trend: Option<Trend>, change24h: Option<real>, isDangerousWhenUp: bool): (icon: TrendIcon)
    ensures var change := OrElse(change24h, 0.0);
            && (icon.size == Large <==> change > 10.0 || change < -10.0)
            && (icon.size == Medium <==> (5.0 < change <= 10.0 || -10.0 <= change < -5.0))
            && (icon.size == Small <==> -5.0 <= change <= 5.0)
    ensures icon.color == Destructive <==> trend == Some(if isDangerousWhenUp then Up else Down)
    ensures icon.color == Muted <==> trend == Some(Stable)
    ensures icon.shape == TrendingUp <==> trend == Some(Up)
    ensures icon.shape == TrendingDown <==> trend == Some(Down)
  {
    var change := OrElse(change24h, 0.0);
    var absChange := if change < 0.0 then -change else change;
    var isDangerous := if isDangerousWhenUp then trend == Some(Up) else trend == Some(Down);
    var size := if absChange > 10.0 then Large else if absChange > 5.0 then Medium else Small;
    var color := if isDangerous then Destructive else if trend == Some(Stable) then Muted else Emerald;
    if trend == Some(Up) then TrendIcon(TrendingUp, size, color)
    else if trend == Some(Down) then TrendIcon(TrendingDown, size, color)
    else TrendIcon(Flat, size, color)
  }

  // ----- news list -----

  /** The fields of a news item the page keeps. */
  datatype NewsCard = NewsCard(
    id: SilverNews.NewsId, title: string, summary: string,
    confidence: SilverNews.Confidence, timestamp: int,
    source: string, sourceUrl: string, impact: SilverNews.Impact)

  /** A card keeps every field of the item except its analysis text and its provenance tag. */
  function Card(item: SilverNews.SilverNewsItem): (c: NewsCard)
    ensures c.id == item.id && c.title == item.title && c.summary == item.summary
    ensures c.confidence == item.confidence && c.impact == item.impact
    ensures c.source == item.source && c.sourceUrl == item.sourceUrl
    ensures c.timestamp == item.publishedAt
  {
    NewsCard(item.id, item.title, item.summary, item.confidence, item.publishedAt,
             item.source, item.sourceUrl, item.impact)
  }

  /** The `newsItems` memo: nothing without news, else one card per item, in order. */
  function NewsItems(realNews: Option<seq<SilverNews.SilverNewsItem>>): (cards: seq<NewsCard>)
    ensures realNews.None? ==> cards == []
    ensures realNews.Some? ==> |cards| == |realNews.value|
    ensures realNews.Some? ==> forall i :: 0 <= i < |cards| ==>
              cards[i].id == realNews.value[i].id && cards[i] == Card(realNews.value[i])
  {
    if realNews.None? || |realNews.value| == 0 then []
    else seq(|realNews.value|, i requires 0 <= i < |realNews.value| => Card(realNews.value[i]))
  }

  // ----- price and spread series -----

  /** One row of the price chart. */
  datatype PricePoint = PricePoint(day: int, comex: real, shanghai: real)

  /** Shanghai is drawn as a flat 15% above the COMEX price. */
  const ShanghaiMarkup := 1.15

  /**
   * The `priceData` memo when historical data arrived. Without it the page
   * draws a random series, which is not modelled (`None`).
   */
  function PriceData(historical: Option<seq<Routers.DatedPrice>>): (r: Option<seq<PricePoint>>)
    ensures r.Some? <==> historical.Some? && |historical.value| > 0
    ensures r.Some? ==> |r.value| == |historical.value|
    ensures r.Some? ==> forall i :: 0 <= i < |r.value| ==>
              r.value[i].day == historical.value[i].day && r.value[i].comex == historical.value[i].price
              && r.value[i].shanghai == historical.value[i].price * ShanghaiMarkup
  {
    if historical.None? || |historical.value| == 0 then None
    else
      var h := historical.value;
      Some(seq(|h|, i requires 0 <= i < |h| => PricePoint(h[i].day, h[i].price, h[i].price * ShanghaiMarkup)))
  }

  /** The `spreadData` memo: Shanghai minus COMEX per day (before two-decimal rounding). */
  function SpreadData(points: seq<PricePoint>): (r: seq<(int, real)>)
    ensures |r| == |points|
    ensures forall i :: 0 <= i < |r| ==> r[i] == (points[i].day, points[i].shanghai - points[i].comex)
  {
    seq(|points|, i requires 0 <= i < |points| => (points[i].day, points[i].shanghai - points[i].comex))
  }

  /**
   * With server data the spread is 15% of the COMEX price, hence positive
   * on every day the history route returns.
   */
  lemma {:induction false} SpreadIsFifteenPercent(response: Result<Option<Routers.HistoryResult>>)
    requires Routers.GetHistoricalPrices(response).Ok?
    requires PriceData(Some(Routers.GetHistoricalPrices(response).value)).Some?
    ensures var history := Routers.GetHistoricalPrices(response).value;
            var spread := SpreadData(PriceData(Some(history)).value);
            forall i :: 0 <= i < |spread| ==> spread[i].1 == 0.15 * history[i].price && spread[i].1 > 0.0
  {
    var history := Routers.GetHistoricalPrices(response).value;
    var spread := SpreadData(PriceData(Some(history)).value);
    forall i | 0 <= i < |spread|
      ensures spread[i].1 == 0.15 * history[i].price && spread[i].1 > 0.0
    {
      assert history[i] in history;
    }
  }
}
