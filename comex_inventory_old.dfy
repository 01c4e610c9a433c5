/**
 * The superseded COMEX inventory scraper and its cache. Rows are matched
 * case-insensitively on their first cell; a "total registered" row
 * overrides the running registered sum. Unlike the current version, this
 * scraper never throws: every failure turns into a fixed fallback record,
 * and the getter caches that record like any other.
 */
module ComexInventoryOld {
  import opened Common
  import opened Sheet

  /** Why the scrape fell back. */
  datatype ScrapeFailure =
    | Thrown(message: string)        // the error message of a failed download or parse
    | OutOfRange(registeredMoz: real) // its message embeds the decimal text of the figure

  datatype InventoryData = InventoryData(
    registered: real,  // million oz
    eligible: real,    // million oz
    total: real,       // million oz
    timestamp: int,
    dataSource: DataSource,
    error: Option<ScrapeFailure>)

  /** The three accumulators of the row loop. */
  datatype Totals = Totals(registered: real, eligible: real, found: bool)

  const CacheDuration: int := Hour
  const NotParsedMessage := "Could not parse COMEX inventory data"

  /** `if (cell) { value = parseFloat(...) }`: the number of a truthy cell, if it parses. */
  function CellValue(c: Cell): (v: Option<real>)
    ensures !CellTruthy(c) ==> v.None?
    ensures CellTruthy(c) ==> v == ParsedNumber(c)
  {
    if CellTruthy(c) then ParsedNumber(c) else None
  }

  /** The lower-cased, trimmed first cell. */
  function FirstCell(row: seq<Cell>): string {
    if |row| == 0 then "" else Lower(Label(row[0]))
  }

  /** A positive "TOTAL TODAY" (column 6) on a row whose first cell is `heading`. */
  function TodayValue(row: seq<Cell>, heading: string): (v: Option<real>)
    ensures v.Some? <==>
              && FirstCell(row) == heading && 6 < |row| && CellTruthy(row[6])
              && ParsedNumber(row[6]).Some? && ParsedNumber(row[6]).value > 0.0
    ensures v.Some? ==> 6 < |row| && v == ParsedNumber(row[6]) && v.value > 0.0
  {
    var c := CellValue(CellAt(row, 6));
    if FirstCell(row) == heading && c.Some? && c.value > 0.0 then c else None
  }

  /** A first cell that mentions both "total" and "registered". */
  predicate IsGrandTotalLabel(first: string) {
    Contains(first, "total") && Contains(first, "registered")
  }

  /** A truthy cell whose number parses and exceeds a million ounces. */
  predicate IsMillions(c: Cell) {
    CellTruthy(c) && ParsedNumber(c).Some? && ParsedNumber(c).value > 1000000.0
  }

  /**
   * A grand-total row: first cell mentions "total" and "registered", and the
   * value `row[1] || row[6]` is above a million.
   */
  function GrandTotal(row: seq<Cell>): (v: Option<real>)
    ensures v.Some? ==> IsGrandTotalLabel(FirstCell(row)) && v.value > 1000000.0
    ensures 1 < |row| && CellTruthy(row[1]) ==>
              (v.Some? <==> IsGrandTotalLabel(FirstCell(row)) && IsMillions(row[1]))
              && (v.Some? ==> v == ParsedNumber(row[1]))
    ensures !(1 < |row| && CellTruthy(row[1])) ==>
              (v.Some? <==> IsGrandTotalLabel(FirstCell(row)) && 6 < |row| && IsMillions(row[6]))
              && (v.Some? ==> 6 < |row| && v == ParsedNumber(row[6]))
  {
    var first := FirstCell(row);
    var cell := if CellTruthy(CellAt(row, 1)) then CellAt(row, 1) else CellAt(row, 6);
    var c := CellValue(cell);
    if Contains(first, "total") && Contains(first, "registered") && c.Some? && c.value > 1000000.0 then c
    else None
  }

  /** What one row can feed the loop: a registered figure, an eligible figure, a grand total. */
  datatype RowFigures = RowFigures(registered: Option<real>, eligible: Option<real>, grandTotal: Option<real>)

  predicate ValidFigures(f: RowFigures) {
    && (f.registered.Some? ==> f.registered.value > 0.0)
    && (f.eligible.Some? ==> f.eligible.value > 0.0)
    && (f.grandTotal.Some? ==> f.grandTotal.value > 1000000.0)
  }

  /** The figures the three tests of the loop body read off one row. */
  function Figures(row: seq<Cell>): (f: RowFigures)
    ensures f.registered == TodayValue(row, "registered") && f.eligible == TodayValue(row, "eligible")
    ensures f.grandTotal == GrandTotal(row)
    ensures ValidFigures(f)
    ensures |row| == 0 ==> f == RowFigures(None, None, None)
  {
    RowFigures(TodayValue(row, "registered"), TodayValue(row, "eligible"), GrandTotal(row))
  }

  function FiguresOf(rows: seq<seq<Cell>>): (figs: seq<RowFigures>)
    ensures |figs| == |rows|
    ensures forall i :: 0 <= i < |rows| ==> figs[i] == Figures(rows[i])
    ensures forall i :: 0 <= i < |figs| ==> ValidFigures(figs[i])
  {
    seq(|rows|, i requires 0 <= i < |rows| => Figures(rows[i]))
  }

  /** A string lacking one character of `sub` does not contain `sub`. */
  lemma {:induction false} MissingCharExcludes(s: string, sub: string, k: nat)
    requires k < |sub| && sub[k] !in s
    ensures !Contains(s, sub)
    decreases |s|
  {
    if |sub| <= |s| {
      assert s[..|sub|][k] == s[k] != sub[k];
      MissingCharExcludes(s[1..], sub, k);
    }
  }

  /** Neither first-cell heading mentions "total": neither contains an 'o'. */
  lemma HeadingsMentionNoTotal()
    ensures !Contains("registered", "total") && !Contains("eligible", "total")
  {
    MissingCharExcludes("registered", "total", 1);
    MissingCharExcludes("eligible", "total", 1);
  }

  /** A row feeds at most one of the three figures. */
  lemma FiguresExclusive(row: seq<Cell>)
    ensures Figures(row).registered.Some? ==> Figures(row).eligible.None? && Figures(row).grandTotal.None?
    ensures Figures(row).eligible.Some? ==> Figures(row).grandTotal.None?
  {
    var f := Figures(row);
    HeadingsMentionNoTotal();
    if f.registered.Some? {
      assert FirstCell(row) == "registered";
    }
    if f.eligible.Some? {
      assert FirstCell(row) == "eligible";
    }
  }

  /** One iteration of the row loop: add, add, then possibly override. */
  function RowUpdate(t: Totals, f: RowFigures): (u: Totals)
    ensures u.found == (t.found || f.registered.Some? || f.grandTotal.Some?)
    ensures f.grandTotal.Some? ==> u.registered == f.grandTotal.value
    ensures f.grandTotal.None? && f.registered.None? ==> u.registered == t.registered
    ensures f.eligible.None? ==> u.eligible == t.eligible
    ensures ValidFigures(f) && t.registered >= 0.0 && t.eligible >= 0.0 ==>
              u.registered >= 0.0 && u.eligible >= t.eligible
  {
    var t1 := if f.registered.Some? then t.(registered := t.registered + f.registered.value, found := true) else t;
    var t2 := if f.eligible.Some? then t1.(eligible := t1.eligible + f.eligible.value) else t1;
    if f.grandTotal.Some? then t2.(registered := f.grandTotal.value, found := true) else t2
  }

  /** The accumulators after the loop has visited rows with figures `figs`. */
  function Accumulate(figs: seq<RowFigures>): Totals {
    if figs == [] then Totals(0.0, 0.0, false)
    else RowUpdate(Accumulate(figs[..|figs| - 1]), figs[|figs| - 1])
  }

  /** Figures that set `foundData`. */
  predicate Counts(f: RowFigures) {
    f.registered.Some? || f.grandTotal.Some?
  }

  lemma {:induction false} AccumulateNonNegative(figs: seq<RowFigures>)
    requires forall k :: 0 <= k < |figs| ==> ValidFigures(figs[k])
    ensures Accumulate(figs).registered >= 0.0 && Accumulate(figs).eligible >= 0.0
  {
    if figs != [] {
      AccumulateNonNegative(figs[..|figs| - 1]);
    }
  }

  /** `foundData` is set exactly when some row carried a registered figure. */
  lemma {:induction false} FoundIffSomeRowCounts(figs: seq<RowFigures>)
    ensures Accumulate(figs).found <==> exists i :: 0 <= i < |figs| && Counts(figs[i])
  {
    if figs != [] {
      var init := figs[..|figs| - 1];
      FoundIffSomeRowCounts(init);
      if exists i :: 0 <= i < |init| && Counts(init[i]) {
        var i :| 0 <= i < |init| && Counts(init[i]);
        assert figs[i] == init[i];
      }
      if exists i :: 0 <= i < |figs| && Counts(figs[i]) {
        var i :| 0 <= i < |figs| && Counts(figs[i]);
        if i < |init| {
          assert init[i] == figs[i];
        }
      }
    }
  }

  /**
   * The last grand-total row wins: registered rows before it are discarded,
   * and later rows without a registered figure leave it alone.
   */
  lemma {:induction false} GrandTotalOverrides(before: seq<RowFigures>, row: RowFigures, after: seq<RowFigures>)
    requires row.grandTotal.Some?
    requires forall k :: 0 <= k < |after| ==> !Counts(after[k])
    ensures Accumulate(before + [row] + after).registered == row.grandTotal.value
    decreases |after|
  {
    if after == [] {
      assert before + [row] + after == before + [row];
      assert (before + [row])[..|before|] == before;
    } else {
      var init := after[..|after| - 1];
      GrandTotalOverrides(before, row, init);
      var figs := before + [row] + after;
      assert figs[..|figs| - 1] == before + [row] + init;
      assert figs[|figs| - 1] == after[|after| - 1];
    }
  }

  /** One more row extends the fold by one update. */
  lemma AccumulateStep(figs: seq<RowFigures>, i: nat)
    requires i < |figs|
    ensures Accumulate(figs[..i + 1]) == RowUpdate(Accumulate(figs[..i]), figs[i])
  {
    assert figs[..i + 1][..i] == figs[..i];
  }

  /** The body of the row loop for a non-empty row: add, add, then possibly override. */
  method UpdateTotals(f: RowFigures, registered: real, eligible: real, found: bool)
    returns (totalRegistered: real, totalEligible: real, foundData: bool)
    ensures Totals(totalRegistered, totalEligible, foundData) == RowUpdate(Totals(registered, eligible, found), f)
  {
    totalRegistered, totalEligible, foundData := registered, eligible, found;
    if f.registered.Some? {
      totalRegistered := totalRegistered + f.registered.value;
      foundData := true;
    }
    if f.eligible.Some? {
      totalEligible := totalEligible + f.eligible.value;
    }
    if f.grandTotal.Some? {
      totalRegistered := f.grandTotal.value;
      foundData := true;
    }
  }

  /** The row loop of the old scraper. */
  method ParseRows(rows: seq<seq<Cell>>) returns (totalRegistered: real, totalEligible: real, foundData: bool)
    ensures Totals(totalRegistered, totalEligible, foundData) == Accumulate(FiguresOf(rows))
  {
    totalRegistered, totalEligible, foundData := 0.0, 0.0, false;
    ghost var figs := FiguresOf(rows);
    var i := 0;
    while i < |rows|
      invariant 0 <= i <= |rows|
      invariant Totals(totalRegistered, totalEligible, foundData) == Accumulate(figs[..i])
    {
      AccumulateStep(figs, i);
      assert figs[i] == Figures(rows[i]);
      if |rows[i]| == 0 {
        i := i + 1;
        continue;
      }
      totalRegistered, totalEligible, foundData := UpdateTotals(Figures(rows[i]), totalRegistered, totalEligible, foundData);
      i := i + 1;
    }
    assert figs[..i] == figs;
  }

  /** The literal returned on any failure. */
  function FallbackInventory(now: int, failure: ScrapeFailure): (r: InventoryData)
    ensures r.registered == 30.2 && r.eligible == 290.0 && r.total == r.registered + r.eligible
    ensures r.dataSource == Fallback && r.error == Some(failure) && r.timestamp == now
  {
    InventoryData(30.2, 290.0, 320.2, now, Fallback, Some(failure))
  }

  /** Registered between 10 and 200 million ounces, inclusive. */
  predicate InRange(registeredMoz: real) {
    10.0 <= registeredMoz <= 200.0
  }

  /** The tail of scrapeComexInventory, once the loop has produced its totals. */
  function FromTotals(t: Totals, now: int): (r: InventoryData)
    ensures r.dataSource != Cached
    ensures r.dataSource == Live <==> t.found && InRange(t.registered / 1000000.0)
    ensures r.dataSource == Live ==>
              && r.registered * 1000000.0 == t.registered
              && r.eligible * 1000000.0 == t.eligible
              && r.total == r.registered + r.eligible
              && r.error.None?
    ensures !t.found ==> r == FallbackInventory(now, Thrown(NotParsedMessage))
    ensures t.found && !InRange(t.registered / 1000000.0) ==>
              r == FallbackInventory(now, OutOfRange(t.registered / 1000000.0))
    ensures r.dataSource == Fallback ==> r.registered == 30.2 && r.eligible == 290.0 && r.error.Some?
  {
    if !t.found then FallbackInventory(now, Thrown(NotParsedMessage))
    else
      var registeredMoz := t.registered / 1000000.0;
      var eligibleMoz := t.eligible / 1000000.0;
      if registeredMoz < 10.0 || registeredMoz > 200.0 then FallbackInventory(now, OutOfRange(registeredMoz))
      else InventoryData(registeredMoz, eligibleMoz, registeredMoz + eligibleMoz, now, Live, None)
  }

  /**
   * scrapeComexInventory once the worksheet is given: `Err` carries the
   * message of a failed download or decode. It never throws.
   */
  function Scrape(sheet: Result<seq<seq<Cell>>>, now: int): (r: InventoryData)
    ensures sheet.Err? ==> r == FallbackInventory(now, Thrown(sheet.message))
    ensures sheet.Ok? ==> r == FromTotals(Accumulate(FiguresOf(sheet.value)), now)
    ensures r.dataSource != Cached
    ensures r.dataSource == Fallback ==> r.registered == 30.2 && r.eligible == 290.0 && r.error.Some?
    ensures r.dataSource == Live ==> 10.0 <= r.registered <= 200.0 && r.eligible >= 0.0
  {
    if sheet.Err? then FallbackInventory(now, Thrown(sheet.message))
    else
      var figs := FiguresOf(sheet.value);
      AccumulateNonNegative(figs);
      FromTotals(Accumulate(figs), now)
  }

  method ScrapeComexInventory(sheet: Result<seq<seq<Cell>>>, now: int) returns (r: InventoryData)
    ensures r == Scrape(sheet, now)
  {
    if sheet.Err? {
      return FallbackInventory(now, Thrown(sheet.message));
    }
    var totalRegistered, totalEligible, foundData := ParseRows(sheet.value);
    if !foundData {
      return FallbackInventory(now, Thrown(NotParsedMessage));
    }
    var registeredMoz := totalRegistered / 1000000.0;
    var eligibleMoz := totalEligible / 1000000.0;
    var totalMoz := registeredMoz + eligibleMoz;
    if registeredMoz < 10.0 || registeredMoz > 200.0 {
      return FallbackInventory(now, OutOfRange(registeredMoz));
    }
    return InventoryData(registeredMoz, eligibleMoz, totalMoz, now, Live, None);
  }

  /** The module-level pair (cachedData, lastFetch). */
  datatype CacheState = CacheState(cachedData: Option<InventoryData>, lastFetch: int)

  predicate IsFresh(s: CacheState, now: int) {
    s.cachedData.Some? && now - s.lastFetch < CacheDuration
  }

  /** One call of getComexInventory: it always answers, from the cache or from a new scrape. */
  function Step(s: CacheState, now: int, sheet: Result<seq<seq<Cell>>>): (out: (InventoryData, CacheState))
    ensures IsFresh(s, now) ==> out == (s.cachedData.value.(dataSource := Cached), s)
    ensures !IsFresh(s, now) ==> out.0 == Scrape(sheet, now) && out.1 == CacheState(Some(out.0), now)
    // whatever the scrape returned, fallback included, is what gets cached
    ensures out.1.cachedData.Some?
  {
    if IsFresh(s, now) then (s.cachedData.value.(dataSource := Cached), s)
    else
      var data := Scrape(sheet, now);
      (data, CacheState(Some(data), now))
  }

  /**
   * A failed scrape is cached: for the next hour every call answers the
   * fallback literal, tagged cached, whatever the spreadsheet then holds.
   */
  lemma FallbackIsServedForAnHour(s: CacheState, t: int, failed: Result<seq<seq<Cell>>>,
                                  later: int, sheet: Result<seq<seq<Cell>>>)
    requires !IsFresh(s, t)
    requires Scrape(failed, t).dataSource == Fallback
    requires t <= later < t + CacheDuration
    ensures var s1 := Step(s, t, failed).1;
            var answer := Step(s1, later, sheet).0;
            answer.dataSource == Cached && answer.registered == 30.2 && answer.eligible == 290.0
            && answer.error.Some?
  {
  }

  class InventoryCache {
    var cachedData: Option<InventoryData>
    var lastFetch: int

    constructor ()
      ensures cachedData == None && lastFetch == 0
    {
      cachedData := None;
      lastFetch := 0;
    }

    function State(): CacheState
      reads this
    {
      CacheState(cachedData, lastFetch)
    }

    /** getComexInventory. */
    method GetComexInventory(now: int, sheet: Result<seq<seq<Cell>>>) returns (r: InventoryData)
      modifies this
      ensures (r, State()) == Step(old(State()), now, sheet)
    {
      if cachedData.Some? && now - lastFetch < CacheDuration {
        return cachedData.value.(dataSource := Cached);
      }
      var data := ScrapeComexInventory(sheet, now);
      cachedData := Some(data);
      lastFetch := now;
      return data;
    }
  }
}
