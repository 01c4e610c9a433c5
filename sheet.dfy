/**
 * Spreadsheet rows as the XLSX decoder hands them to the COMEX inventory
 * scrapers, and the few string operations the scrapers apply to cells.
 */
module Sheet {
  import opened Common

  /**
   * One decoded cell. `Text` also carries the number `parseFloat` reads from
   * the text once its commas are removed (`None` when that is NaN); parsing
   * itself is not modelled.
   */
  datatype Cell = Blank | Num(n: real) | Text(s: string, parsed: Option<real>)

  /** Whitespace that `String.prototype.trim` removes (the ASCII part of it). */
  predicate IsSpace(c: char) {
    c == ' ' || c == '\t' || c == '\n' || c == '\r'
  }

  /** `s` without its leading white space: what is removed is white space, and it stops at the first other character. */
  function TrimStart(s: string): (r: string)
    ensures |r| <= |s| && r == s[|s| - |r|..]
    ensures forall k :: 0 <= k < |s| - |r| ==> IsSpace(s[k])
    ensures r != [] ==> !IsSpace(r[0])
  {
    if s != [] && IsSpace(s[0]) then TrimStart(s[1..]) else s
  }

  /** `s` without its trailing white space. */
  function TrimEnd(s: string): (r: string)
    ensures |r| <= |s| && r == s[..|r|]
    ensures forall k :: |r| <= k < |s| ==> IsSpace(s[k])
    ensures r != [] ==> !IsSpace(r[|r| - 1])
  {
    if s != [] && IsSpace(s[|s| - 1]) then TrimEnd(s[..|s| - 1]) else s
  }

  function Trim(s: string): string {
    TrimEnd(TrimStart(s))
  }

  function LowerChar(c: char): char {
    if 'A' <= c <= 'Z' then (c as int + 32) as char else c
  }

  /** `toLowerCase`, on ASCII letters. */
  function Lower(s: string): (r: string)
    ensures |r| == |s|
    ensures forall i :: 0 <= i < |s| ==> r[i] == LowerChar(s[i])
  {
    if s == [] then [] else [LowerChar(s[0])] + Lower(s[1..])
  }

  /** `s.includes(sub)` */
  predicate Contains(s: string, sub: string)
    decreases |s|
  {
    |sub| <= |s| && (s[..|sub|] == sub || Contains(s[1..], sub))
  }

  /**
   * `String(row[0] || '').trim()`. A non-zero number stringifies to its
   * decimal digits, which never equal nor contain any label the scrapers
   * test, so it is represented by the empty label as well.
   */
  function Label(c: Cell): string {
    match c
    case Text(s, _) => Trim(s)
    case _ => ""
  }

  /** JavaScript truthiness of a cell value. */
  predicate CellTruthy(c: Cell) {
    match c
    case Blank => false
    case Num(n) => n != 0.0
    case Text(s, _) => s != ""
  }

  /** `parseFloat(String(c).replace(/,/g, ''))`, `None` standing for NaN. */
  function ParsedNumber(c: Cell): Option<real> {
    match c
    case Blank => None
    case Num(n) => Some(n)
    case Text(_, p) => p
  }

  /** `row[j]`, where a missing column reads as undefined. */
  function CellAt(row: seq<Cell>, j: nat): (c: Cell)
    ensures j < |row| ==> c == row[j]
    ensures j >= |row| ==> c == Blank
  {
    if j < |row| then row[j] else Blank
  }
}
