/**
 * The direct Yahoo Finance chart client: the checks made on the response
 * of the public chart endpoint, the mapping of its parallel quote columns
 * into price points, and the per-symbol fan-out that never fails as a
 * whole. The HTTP request itself is a parameter (`Result<HttpResponse>`,
 * where `Err` is a rejected fetch).
 */
module YahooFinance {
  import opened Common

  /** One daily point; `timestamp` is in milliseconds. */
  datatype HistoricalPrice = HistoricalPrice(
    timestamp: int, price: real, open: real, high: real, low: real, volume: real)

  /** The first entry of `indicators.quote`: parallel columns whose entries may be null. */
  datatype Quote = Quote(
    close: seq<Option<real>>, open: seq<Option<real>>, high: seq<Option<real>>,
    low: seq<Option<real>>, volume: seq<Option<real>>)

  datatype ChartResult = ChartResult(
    regularMarketPrice: real, previousClose: real,
    timestamp: Option<seq<int>>, quote: Option<Quote>)

  /** The decoded body: `chart.error` (its description) and `chart.result[0]`. */
  datatype ChartBody = ChartBody(error: Option<string>, result: Option<ChartResult>)

  datatype HttpResponse = HttpResponse(ok: bool, status: int, body: ChartBody)

  datatype Chart = Chart(currentPrice: real, previousClose: real, historicalPrices: seq<HistoricalPrice>)

  /** The message the runtime raises when the missing quote block is dereferenced. */
  const MissingQuoteMessage := "Cannot read properties of undefined (reading 'close')"

  /** `column[i] || 0`: a missing, null or zero entry reads as 0. */
  function OrZero(column: seq<Option<real>>, i: nat): (r: real)
    ensures i < |column| && Truthy(column[i]) ==> r == column[i].value
    ensures i >= |column| || !Truthy(column[i]) ==> r == 0.0
  {
    if i < |column| then OrElse(column[i], 0.0) else 0.0
  }

  /** The point built from the `i`-th timestamp. */
  function PointAt(ts: seq<int>, q: Quote, i: nat): (p: HistoricalPrice)
    requires i < |ts|
    ensures p.timestamp == ts[i] * 1000
    ensures p.price == OrZero(q.close, i) && p.open == OrZero(q.open, i)
    ensures p.high == OrZero(q.high, i) && p.low == OrZero(q.low, i)
    ensures p.volume == OrZero(q.volume, i)
  {
    HistoricalPrice(ts[i] * 1000, OrZero(q.close, i), OrZero(q.open, i),
                    OrZero(q.high, i), OrZero(q.low, i), OrZero(q.volume, i))
  }

  /** `timestamps.map(...)`: one point per timestamp, in order. */
  function Points(ts: seq<int>, q: Quote): (r: seq<HistoricalPrice>)
    ensures |r| == |ts|
    ensures forall i :: 0 <= i < |ts| ==> r[i] == PointAt(ts, q, i)
  {
    seq(|ts|, i requires 0 <= i < |ts| => PointAt(ts, q, i))
  }

  predicate IsValidPoint(p: HistoricalPrice) { p.price > 0.0 }

  /** `getYahooFinanceChart`. */
  function GetYahooFinanceChart(response: Result<HttpResponse>): (r: Result<Chart>)
    ensures response.Err? ==> r == Err(response.message)
    ensures response.Ok? && !response.value.ok ==>
              r == Err("Yahoo Finance API returned " + IntToString(response.value.status))
    ensures response.Ok? && response.value.ok && response.value.body.error.Some? ==>
              r == Err("Yahoo Finance error: " + response.value.body.error.value)
    ensures response.Ok? && response.value.ok && response.value.body.error.None?
            && response.value.body.result.None? ==>
              r == Err("No data returned from Yahoo Finance")
    ensures r.Ok? ==>
              var res := response.value.body.result.value;
              var ts := OrElseEmpty(res.timestamp);
              && response.value.ok
              && r.value.currentPrice == res.regularMarketPrice
              && r.value.previousClose == res.previousClose
              && |r.value.historicalPrices| <= |ts|
              && (forall p :: p in r.value.historicalPrices ==> p.price > 0.0)
              && (res.quote.Some? ==>
                    && IsSubsequence(r.value.historicalPrices, Points(ts, res.quote.value))
                    && forall i :: 0 <= i < |ts| && PointAt(ts, res.quote.value, i).price > 0.0 ==>
                         PointAt(ts, res.quote.value, i) in r.value.historicalPrices)
              && (res.quote.None? ==> ts == [] && r.value.historicalPrices == [])
    ensures response.Ok? && response.value.ok && response.value.body.error.None?
            && response.value.body.result.Some? ==>
              var res := response.value.body.result.value;
              r.Err? <==> res.quote.None? && OrElseEmpty(res.timestamp) != []
  {
    if response.Err? then Err(response.message)
    else if !response.value.ok then
      Err("Yahoo Finance API returned " + IntToString(response.value.status))
    else if response.value.body.error.Some? then
      Err("Yahoo Finance error: " + response.value.body.error.value)
    else if response.value.body.result.None? then
      Err("No data returned from Yahoo Finance")
    else
      var res := response.value.body.result.value;
      var ts := OrElseEmpty(res.timestamp);
      if res.quote.None? then
        // the map callback dereferences the missing quote block on its first call
        if ts == [] then Ok(Chart(res.regularMarketPrice, res.previousClose, []))
        else Err(MissingQuoteMessage)
      else
        var points := Points(ts, res.quote.value);
        Ok(Chart(res.regularMarketPrice, res.previousClose, Filter(points, IsValidPoint)))
  }

  /** `result.timestamp || []`. */
  function OrElseEmpty(ts: Option<seq<int>>): (r: seq<int>)
    ensures ts.Some? ==> r == ts.value
    ensures ts.None? ==> r == []
  {
    if ts.Some? then ts.value else []
  }

  /** The map entry for one symbol: its points, or `[]` when its chart request failed. */
  function EntryFor(outcome: Result<Chart>): (r: seq<HistoricalPrice>)
    ensures outcome.Err? ==> r == []
    ensures outcome.Ok? ==> r == outcome.value.historicalPrices
  {
    if outcome.Ok? then outcome.value.historicalPrices else []
  }

  /**
   * `getMultipleSymbols`: every requested symbol gets an entry, and the
   * entry is that symbol's points or `[]`. `chart` stands for
   * `getYahooFinanceChart(symbol, range, interval)`; the requests run one
   * after another here.
   */
  method GetMultipleSymbols(symbols: seq<string>, chart: string -> Result<Chart>)
    returns (results: map<string, seq<HistoricalPrice>>)
    ensures results.Keys == set s | s in symbols
    ensures forall s :: s in symbols ==> results[s] == EntryFor(chart(s))
  {
    results := map[];
    var i := 0;
    while i < |symbols|
      invariant 0 <= i <= |symbols|
      invariant results.Keys == set s | s in symbols[..i]
      invariant forall s :: s in symbols[..i] ==> results[s] == EntryFor(chart(s))
    {
      var outcome := chart(symbols[i]);
      if outcome.Ok? {
        results := results[symbols[i] := outcome.value.historicalPrices];
      } else {
        results := results[symbols[i] := []];
      }
      assert symbols[..i + 1] == symbols[..i] + [symbols[i]];
      i := i + 1;
    }
    assert symbols[..i] == symbols;
  }

  /** Each valid point appears in the output exactly as it was built, and in order. */
  lemma {:induction false} ChartKeepsValidPointsInOrder(response: Result<HttpResponse>, i: nat, j: nat)
    requires GetYahooFinanceChart(response).Ok?
    requires response.Ok? && response.value.body.result.Some?
    requires response.value.body.result.value.quote.Some?
    requires var ts := OrElseEmpty(response.value.body.result.value.timestamp);
             var q := response.value.body.result.value.quote.value;
             i < j < |ts| && PointAt(ts, q, i).price > 0.0 && PointAt(ts, q, j).price > 0.0
             && ts[i] < ts[j]
    ensures var ts := OrElseEmpty(response.value.body.result.value.timestamp);
            var q := response.value.body.result.value.quote.value;
            var out := GetYahooFinanceChart(response).value.historicalPrices;
            OccursBefore(out, PointAt(ts, q, i), PointAt(ts, q, j))
  {
    var ts := OrElseEmpty(response.value.body.result.value.timestamp);
    var q := response.value.body.result.value.quote.value;
    var points := Points(ts, q);
    FilterKeepsOrder(points, IsValidPoint, i, j);
  }

  /** `u` occurs in `r` strictly before `v`. */
  predicate OccursBefore<T(==)>(r: seq<T>, u: T, v: T) {
    exists a, b :: 0 <= a < b < |r| && r[a] == u && r[b] == v
  }

  /** Two kept elements of a filter keep their relative order. */
  lemma {:induction false} FilterKeepsOrder<T(!new)>(s: seq<T>, keep: T -> bool, i: nat, j: nat)
    requires i < j < |s| && keep(s[i]) && keep(s[j]) && s[i] != s[j]
    ensures OccursBefore(Filter(s, keep), s[i], s[j])
    decreases |s|
  {
    var rest := Filter(s[1..], keep);
    assert s[j] == s[1..][j - 1];
    if i == 0 {
      assert s[j] in rest;
      var y :| 0 <= y < |rest| && rest[y] == s[j];
      assert Filter(s, keep) == [s[0]] + rest;
      assert Filter(s, keep)[0] == s[i] && Filter(s, keep)[y + 1] == s[j];
    } else {
      assert s[i] == s[1..][i - 1];
      FilterKeepsOrder(s[1..], keep, i - 1, j - 1);
      var x, y :| 0 <= x < y < |rest| && rest[x] == s[i] && rest[y] == s[j];
      if keep(s[0]) {
        assert Filter(s, keep) == [s[0]] + rest;
        assert Filter(s, keep)[x + 1] == s[i] && Filter(s, keep)[y + 1] == s[j];
      } else {
        assert Filter(s, keep) == rest;
      }
    }
  }
}
