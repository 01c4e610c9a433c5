/**
 * The arithmetic and map/filter bodies of the three `silver` procedures of
 * the application router. Each takes the chart response of the data API
 * call as a parameter: `Err` is a rejected call, whose error the procedure
 * rethrows unchanged.
 */
module Routers {
  import opened Common

  /** `chart.result[0].meta` of the silver futures chart. */
  datatype SpotMeta = SpotMeta(regularMarketPrice: real, previousClose: real)

  /** `changePercent` is `None` where the source divides by a zero previous close. */
  datatype SpotPrice = SpotPrice(price: real, change: real, changePercent: Option<real>, timestamp: int)

  /**
   * `chart.result[0]` of the historical chart: its timestamps (seconds) and
   * the close column of `indicators.quote[0]`, when that block is present.
   */
  datatype HistoryResult = HistoryResult(timestamps: Option<seq<int>>, close: Option<seq<Option<real>>>)

  /** One output row; `day` is the UTC calendar day, counted in days since the epoch. */
  datatype DatedPrice = DatedPrice(day: int, price: real)

  datatype Comparison = Comparison(
    slvPrice: real, sivrPrice: real, divergence: real, divergencePercent: Option<real>, timestamp: int)

  const SecondsPerDay := 86400

  /** `getSpotPrice`. */
  function GetSpotPrice(response: Result<Option<SpotMeta>>, now: int): (r: Result<SpotPrice>)
    ensures response.Err? ==> r == Err(response.message)
    ensures response.Ok? && response.value.None? ==> r == Err("No data returned")
    ensures r.Ok? <==> response.Ok? && response.value.Some?
    ensures r.Ok? ==>
              var meta := response.value.value;
              && r.value.price == meta.regularMarketPrice
              && r.value.change + meta.previousClose == meta.regularMarketPrice
              && (meta.previousClose != 0.0 <==> r.value.changePercent.Some?)
              && (r.value.changePercent.Some? ==>
                    r.value.changePercent.value * meta.previousClose == r.value.change * 100.0)
              && r.value.timestamp == now
  {
    if response.Err? then Err(response.message)
    else if response.value.None? then Err("No data returned")
    else
      var meta := response.value.value;
      var change := meta.regularMarketPrice - meta.previousClose;
      var changePercent := if meta.previousClose != 0.0 then Some(change / meta.previousClose * 100.0) else None;
      Ok(SpotPrice(meta.regularMarketPrice, change, changePercent, now))
  }

  /** The row for the `i`-th timestamp: its UTC day, and `close[i] || 0`. */
  function RowAt(ts: seq<int>, close: seq<Option<real>>, i: nat): (d: DatedPrice)
    requires i < |ts|
    ensures d.day * SecondsPerDay <= ts[i] < (d.day + 1) * SecondsPerDay
    ensures i < |close| && close[i].Some? && close[i].value != 0.0 ==> d.price == close[i].value
    ensures i >= |close| || !Truthy(close[i]) ==> d.price == 0.0
  {
    DatedPrice(ts[i] / SecondsPerDay, if i < |close| then OrElse(close[i], 0.0) else 0.0)
  }

  /** `timestamps.map(...)`: one row per timestamp, in order. */
  function Rows(ts: seq<int>, close: seq<Option<real>>): (r: seq<DatedPrice>)
    ensures |r| == |ts|
    ensures forall i :: 0 <= i < |ts| ==> r[i] == RowAt(ts, close, i)
  {
    seq(|ts|, i requires 0 <= i < |ts| => RowAt(ts, close, i))
  }

  predicate HasPrice(d: DatedPrice) { d.price > 0.0 }

  /** `getHistoricalPrices`. */
  function GetHistoricalPrices(response: Result<Option<HistoryResult>>): (r: Result<seq<DatedPrice>>)
    ensures response.Err? ==> r == Err(response.message)
    ensures response.Ok? && response.value.None? ==> r == Err("No data returned")
    ensures response.Ok? && response.value.Some? && response.value.value.close.None? ==>
              r == Err("No quote data")
    ensures r.Ok? <==> response.Ok? && response.value.Some? && response.value.value.close.Some?
    ensures r.Ok? ==>
              var res := response.value.value;
              var ts := if res.timestamps.Some? then res.timestamps.value else [];
              var rows := Rows(ts, res.close.value);
              && |r.value| <= |ts|
              && (forall d :: d in r.value ==> d.price > 0.0)
              && (forall i :: 0 <= i < |ts| && RowAt(ts, res.close.value, i).price > 0.0 ==>
                    RowAt(ts, res.close.value, i) in r.value)
              && IsSubsequence(r.value, rows)
  {
    if response.Err? then Err(response.message)
    else if response.value.None? then Err("No data returned")
    else
      var res := response.value.value;
      var ts := if res.timestamps.Some? then res.timestamps.value else [];
      if res.close.None? then Err("No quote data")
      else
        var rows := Rows(ts, res.close.value);
        Ok(Filter(rows, HasPrice))
  }

  /**
   * `compareSLVvsSIVR`. Each response is the `regularMarketPrice` of one
   * fund's chart call (`None` when absent), or `Err` when that call was
   * rejected, which `Promise.all` rethrows; a missing or zero price is read
   * as 0.
   */
  function CompareSLVvsSIVR(slv: Result<Option<real>>, sivr: Result<Option<real>>, now: int): (r: Result<Comparison>)
    ensures r.Err? <==> slv.Err? || sivr.Err?
    ensures slv.Err? ==> r == Err(slv.message)
    ensures slv.Ok? && sivr.Err? ==> r == Err(sivr.message)
    ensures r.Ok? ==>
              && r.value.slvPrice == OrElse(slv.value, 0.0) && r.value.sivrPrice == OrElse(sivr.value, 0.0)
              && r.value.divergence >= 0.0
              && (r.value.divergence == r.value.slvPrice - r.value.sivrPrice
                  || r.value.divergence == r.value.sivrPrice - r.value.slvPrice)
              && (r.value.divergencePercent.Some? <==> r.value.slvPrice != 0.0)
              && (r.value.divergencePercent.Some? ==>
                    r.value.divergencePercent.value * r.value.slvPrice == r.value.divergence * 100.0)
              && r.value.timestamp == now
  {
    if slv.Err? then Err(slv.message)
    else if sivr.Err? then Err(sivr.message)
    else
      var slvPrice := OrElse(slv.value, 0.0);
      var sivrPrice := OrElse(sivr.value, 0.0);
      var divergence := if slvPrice >= sivrPrice then slvPrice - sivrPrice else sivrPrice - slvPrice;
      var percent := if slvPrice != 0.0 then Some(divergence / slvPrice * 100.0) else None;
      Ok(Comparison(slvPrice, sivrPrice, divergence, percent, now))
  }

  /** The divergence is symmetric in the two funds; its percentage is not (SLV is the base). */
  lemma DivergenceSymmetric(slv: real, sivr: real, now: int)
    ensures CompareSLVvsSIVR(Ok(Some(slv)), Ok(Some(sivr)), now).value.divergence
         == CompareSLVvsSIVR(Ok(Some(sivr)), Ok(Some(slv)), now).value.divergence
  {
  }

  /** SLV 30 and SIVR 31 diverge by 1, which is 10/3 percent of SLV; swapped, it is 100/31 percent. */
  lemma PercentUsesSlvAsBase()
    ensures CompareSLVvsSIVR(Ok(Some(30.0)), Ok(Some(31.0)), 0).value.divergencePercent == Some(10.0 / 3.0)
    ensures CompareSLVvsSIVR(Ok(Some(31.0)), Ok(Some(30.0)), 0).value.divergencePercent == Some(100.0 / 31.0)
  {
  }
}
