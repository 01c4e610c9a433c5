/**
 * COMEX registered and eligible silver inventory, summed from the CME
 * stocks spreadsheet, behind a one-hour cache. When both the scrape and
 * the cache are unavailable the getter throws: it never invents a value.
 */
module ComexInventory {
  import opened Common
  import opened Sheet

  datatype ComexInventoryData = ComexInventoryData(
    registered: real,  // million oz
    eligible: real,    // million oz
    total: real,       // million oz
    timestamp: int,
    dataSource: DataSource,
    reportDate: string)

  /**
   * The first worksheet as rows of cells, with the date text that follows
   * `Report Date:` (its regular-expression extraction is not modelled).
   */
  datatype Workbook = Workbook(rows: seq<seq<Cell>>, reportDate: string)

  const CacheDuration: int := Hour

  /** A numeric cell large enough to be an inventory figure in ounces. */
  predicate IsInventoryValue(c: Cell) {
    c.Num? && c.n > 100000.0
  }

  /** The rightmost inventory figure of a row, scanning from the right. */
  function RightmostValue(row: seq<Cell>): (v: Option<real>)
    ensures v.Some? ==> v.value > 100000.0 && Num(v.value) in row
    ensures v.None? ==> forall j :: 0 <= j < |row| ==> !IsInventoryValue(row[j])
    ensures v.Some? ==>
      exists j :: 0 <= j < |row| && row[j] == Num(v.value) && (forall k :: j < k < |row| ==> !IsInventoryValue(row[k]))
  {
    if |row| == 0 then None
    else if IsInventoryValue(row[|row| - 1]) then Some(row[|row| - 1].n)
    else RightmostValue(row[..|row| - 1])
  }

  /** What one row adds to the total for `heading` ("Registered" or "Eligible"). */
  function RowContribution(row: seq<Cell>, heading: string): (v: real)
    ensures v >= 0.0
    ensures v != 0.0 ==> |row| >= 2 && Label(row[0]) == heading && RightmostValue(row) == Some(v)
    ensures |row| >= 2 && Label(row[0]) == heading && RightmostValue(row).Some? ==> v == RightmostValue(row).value
  {
    if |row| < 2 || Label(row[0]) != heading then 0.0
    else match RightmostValue(row)
      case None => 0.0
      case Some(v) => v
  }

  /** Sum of the contributions of all rows for `heading`. */
  function LabelTotal(rows: seq<seq<Cell>>, heading: string): real {
    if rows == [] then 0.0
    else LabelTotal(rows[..|rows| - 1], heading) + RowContribution(rows[|rows| - 1], heading)
  }

  lemma {:induction false} LabelTotalNonNegative(rows: seq<seq<Cell>>, heading: string)
    ensures LabelTotal(rows, heading) >= 0.0
  {
    if rows != [] {
      LabelTotalNonNegative(rows[..|rows| - 1], heading);
    }
  }

  /** Rows with no matching heading add nothing. */
  lemma {:induction false} LabelTotalIgnoresOtherRows(rows: seq<seq<Cell>>, heading: string)
    requires forall i :: 0 <= i < |rows| ==> |rows[i]| < 2 || Label(rows[i][0]) != heading
    ensures LabelTotal(rows, heading) == 0.0
  {
    if rows != [] {
      LabelTotalIgnoresOtherRows(rows[..|rows| - 1], heading);
    }
  }

  /** One more row extends the total by that row's contribution. */
  lemma LabelTotalStep(rows: seq<seq<Cell>>, i: nat, heading: string)
    requires i < |rows|
    ensures LabelTotal(rows[..i + 1], heading) == LabelTotal(rows[..i], heading) + RowContribution(rows[i], heading)
  {
    assert rows[..i + 1][..i] == rows[..i];
  }

  /** Extending the scanned prefix by one cell: that cell wins if it qualifies. */
  lemma RightmostStep(row: seq<Cell>, j: nat)
    requires j < |row|
    ensures RightmostValue(row[..j + 1]) == if IsInventoryValue(row[j]) then Some(row[j].n) else RightmostValue(row[..j])
  {
    assert row[..j + 1][j] == row[j];
    assert row[..j + 1][..j] == row[..j];
  }

  /** The inner right-to-left scan with its early `break`. */
  method FindRightmostValue(row: seq<Cell>) returns (v: Option<real>)
    ensures v == RightmostValue(row)
  {
    var j := |row| - 1;
    assert row[..j + 1] == row;
    while j >= 0
      invariant -1 <= j < |row|
      invariant RightmostValue(row) == RightmostValue(row[..j + 1])
      decreases j
    {
      RightmostStep(row, j);
      if IsInventoryValue(row[j]) {
        return Some(row[j].n);
      }
      j := j - 1;
    }
    return None;
  }

  /**
   * The body of the row loop for one heading: a row of at least two cells
   * whose trimmed first cell is `heading` adds its rightmost inventory figure.
   */
  method RowValue(row: seq<Cell>, heading: string) returns (v: real)
    ensures v == RowContribution(row, heading)
  {
    v := 0.0;
    if |row| >= 2 {
      var firstCol := Label(row[0]);
      if firstCol == heading {
        var found := FindRightmostValue(row);
        if found.Some? {
          v := found.value;
        }
      }
    }
  }

  /** The row loop of scrapeComexInventory with its two accumulators. */
  method SumInventory(rows: seq<seq<Cell>>) returns (totalRegistered: real, totalEligible: real)
    ensures totalRegistered == LabelTotal(rows, "Registered")
    ensures totalEligible == LabelTotal(rows, "Eligible")
  {
    totalRegistered, totalEligible := 0.0, 0.0;
    var i := 0;
    while i < |rows|
      invariant 0 <= i <= |rows|
      invariant totalRegistered == LabelTotal(rows[..i], "Registered")
      invariant totalEligible == LabelTotal(rows[..i], "Eligible")
    {
      var registered := RowValue(rows[i], "Registered");
      var eligible := RowValue(rows[i], "Eligible");
      LabelTotalStep(rows, i, "Registered");
      LabelTotalStep(rows, i, "Eligible");
      totalRegistered := totalRegistered + registered;
      totalEligible := totalEligible + eligible;
      i := i + 1;
    }
    assert rows[..i] == rows;
  }

  /** The registered total the plausibility check accepts: 1M to 500M oz. */
  predicate PlausibleRegistered(totalRegistered: real) {
    1000000.0 <= totalRegistered <= 500000000.0
  }

  /**
   * The range check and record built from the two raw totals (ounces):
   * `None` when the registered total is implausible.
   */
  function Reading(totalRegistered: real, totalEligible: real, reportDate: string, now: int)
    : (r: Option<ComexInventoryData>)
    ensures r.Some? <==> PlausibleRegistered(totalRegistered)
    ensures r.Some? ==>
      && r.value.registered * 1000000.0 == totalRegistered
      && r.value.eligible * 1000000.0 == totalEligible
      && 1.0 <= r.value.registered <= 500.0
      && r.value.total == r.value.registered + r.value.eligible
      && r.value.dataSource == Live
      && r.value.reportDate == reportDate
  {
    if totalRegistered < 1000000.0 || totalRegistered > 500000000.0 then None
    else
      var registeredM := totalRegistered / 1000000.0;
      var eligibleM := totalEligible / 1000000.0;
      Some(ComexInventoryData(registeredM, eligibleM, registeredM + eligibleM, now, Live, reportDate))
  }

  /** scrapeComexInventory once the spreadsheet is given (`None`: download or decode failed). */
  function ScrapeResult(workbook: Option<Workbook>, now: int): (r: Option<ComexInventoryData>)
    ensures r.Some? <==> workbook.Some? && PlausibleRegistered(LabelTotal(workbook.value.rows, "Registered"))
    ensures r.Some? ==>
      && r.value.registered * 1000000.0 == LabelTotal(workbook.value.rows, "Registered")
      && r.value.eligible * 1000000.0 == LabelTotal(workbook.value.rows, "Eligible")
      && 1.0 <= r.value.registered <= 500.0
      && r.value.eligible >= 0.0
      && r.value.total == r.value.registered + r.value.eligible
      && r.value.dataSource == Live
      && r.value.reportDate == workbook.value.reportDate
  {
    match workbook
    case None => None
    case Some(wb) =>
      LabelTotalNonNegative(wb.rows, "Eligible");
      Reading(LabelTotal(wb.rows, "Registered"), LabelTotal(wb.rows, "Eligible"), wb.reportDate, now)
  }

  lemma ScrapeResultIsReading(wb: Workbook, now: int)
    ensures ScrapeResult(Some(wb), now)
         == Reading(LabelTotal(wb.rows, "Registered"), LabelTotal(wb.rows, "Eligible"), wb.reportDate, now)
  {
  }

  /** scrapeComexInventory: the row loop, then the range check of `Reading`. */
  method ScrapeComexInventory(workbook: Option<Workbook>, now: int) returns (r: Option<ComexInventoryData>)
    ensures r == ScrapeResult(workbook, now)
  {
    if workbook.None? {
      return None;
    }
    var totalRegistered, totalEligible := SumInventory(workbook.value.rows);
    ScrapeResultIsReading(workbook.value, now);
    r := Reading(totalRegistered, totalEligible, workbook.value.reportDate, now);
  }

  /** The module-level pair (cachedInventory, lastFetch). */
  datatype CacheState = CacheState(cachedInventory: Option<ComexInventoryData>, lastFetch: int)

  predicate IsFresh(s: CacheState, now: int) {
    s.cachedInventory.Some? && now - s.lastFetch < CacheDuration
  }

  /** Everything cached came from a plausible live scrape. */
  predicate ValidState(s: CacheState) {
    s.cachedInventory.Some? ==>
      s.cachedInventory.value.dataSource == Live && 1.0 <= s.cachedInventory.value.registered <= 500.0
  }

  /** One call of getComexInventory. */
  function Step(s: CacheState, now: int, workbook: Option<Workbook>): (out: (Result<ComexInventoryData>, CacheState))
    ensures IsFresh(s, now) ==> out == (Ok(s.cachedInventory.value.(dataSource := Cached)), s)
    // The call throws exactly when there is no cache and the scrape failed.
    ensures out.0.Err? <==> s.cachedInventory.None? && ScrapeResult(workbook, now).None?
    // Never a fabricated value: a live scrape or the stored record.
    ensures out.0.Ok? ==>
      (!IsFresh(s, now) && ScrapeResult(workbook, now).Some? && out.0 == Ok(ScrapeResult(workbook, now).value) && out.1 == CacheState(ScrapeResult(workbook, now), now)) ||
      (s.cachedInventory.Some? && out.0 == Ok(s.cachedInventory.value.(dataSource := Cached)) && out.1 == s)
    ensures out.0.Ok? && out.0.value.dataSource == Live <==> !IsFresh(s, now) && ScrapeResult(workbook, now).Some?
    ensures out.0.Ok? ==> out.0.value.dataSource != Fallback
    ensures out.0.Err? ==> out.1 == s
    ensures ValidState(s) ==> ValidState(out.1) && (out.0.Ok? ==> 1.0 <= out.0.value.registered <= 500.0)
  {
    if IsFresh(s, now) then (Ok(s.cachedInventory.value.(dataSource := Cached)), s)
    else
      match ScrapeResult(workbook, now)
      case Some(data) => (Ok(data), CacheState(Some(data), now))
      case None =>
        if s.cachedInventory.Some? then (Ok(s.cachedInventory.value.(dataSource := Cached)), s)
        else (Err("Unable to fetch COMEX inventory data"), s)
  }

  /** Failure with a cache reuses it however old it is. */
  lemma StaleCacheHasNoAgeLimit(s: CacheState, now: int)
    requires s.cachedInventory.Some? && now - s.lastFetch >= CacheDuration
    ensures Step(s, now, None) == (Ok(s.cachedInventory.value.(dataSource := Cached)), s)
  {
  }

  class InventoryCache {
    var cachedInventory: Option<ComexInventoryData>
    var lastFetch: int

    constructor ()
      ensures cachedInventory == None && lastFetch == 0
    {
      cachedInventory := None;
      lastFetch := 0;
    }

    function State(): CacheState
      reads this
    {
      CacheState(cachedInventory, lastFetch)
    }

    /** getComexInventory: fresh cache, scrape, stale cache of any age, else throw. */
    method GetComexInventory(now: int, workbook: Option<Workbook>) returns (r: Result<ComexInventoryData>)
      modifies this
      ensures (r, State()) == Step(old(State()), now, workbook)
    {
      if cachedInventory.Some? && now - lastFetch < CacheDuration {
        return Ok(cachedInventory.value.(dataSource := Cached));
      }
      var inventoryData := ScrapeComexInventory(workbook, now);
      if inventoryData.Some? {
        cachedInventory := inventoryData;
        lastFetch := now;
        return Ok(inventoryData.value);
      }
      if cachedInventory.Some? {
        return Ok(cachedInventory.value.(dataSource := Cached));
      }
      return Err("Unable to fetch COMEX inventory data");
    }
  }
}
