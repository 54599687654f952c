/** The `clean` view of build.py: each input row tagged with a scenario code, a year, a
    month number and a region, and rows without a "Tipo folio" dropped. */
module Classify {
  import opened Wrappers
  import opened Text

  /** One input row as DuckDB reads it. Text columns are NULL (None) or text. `periodo` is
      the result of TRY_CAST(CAST("Periodo" AS VARCHAR) AS INTEGER) and each entry of `cells`
      the result of TRY_CAST(column AS DOUBLE): None for NULL or text that is not a number.
      A column name missing from `cells` reads as NULL. */
  datatype RawRecord = RawRecord(
    tipoFolio: Option<string>,
    periodo: Option<int>,
    mes: Option<string>,
    region: Option<string>,
    cells: map<string, Option<real>>)

  /** The scenario codes of the `clean` view; OTRO is every other "Tipo folio". */
  datatype Scenario = BP | REAL2025 | FCST | OTRO

  /** A row of the `clean` view. `monthName` is the untouched "Mes" text, which the monthly
      view groups by as well. */
  datatype CleanRecord = CleanRecord(
    scenario: Scenario,
    year: Option<int>,
    month: Option<int>,
    monthName: Option<string>,
    region: string,
    cells: map<string, Option<real>>)

  const TOTAL_REGION: string := "Total logística"

  const MONTH_NAMES: seq<string> := [
    "enero", "febrero", "marzo", "abril", "mayo", "junio",
    "julio", "agosto", "septiembre", "octubre", "noviembre", "diciembre"]

  /** The scenario CASE: an exact match on the trimmed "Tipo folio". */
  function ScenarioOf(tipoFolio: string): (s: Scenario)
    ensures s == BP <==> SqlTrim(tipoFolio) == "Business Plan"
    ensures s == REAL2025 <==> SqlTrim(tipoFolio) == "Real 2025"
    ensures s == FCST <==> SqlTrim(tipoFolio) == "Forecast actual"
  {
    var t := SqlTrim(tipoFolio);
    if t == "Business Plan" then BP
    else if t == "Real 2025" then REAL2025
    else if t == "Forecast actual" then FCST
    else OTRO
  }

  /** The position of a name in MONTH_NAMES, as the month CASE's WHEN list reads it. */
  function MonthIndex(t: string): (i: nat)
    requires t in MONTH_NAMES
    ensures i < 12 && MONTH_NAMES[i] == t
  {
    FirstIndex(MONTH_NAMES, t)
  }

  function FirstIndex(xs: seq<string>, x: string): (i: nat)
    requires x in xs
    ensures i < |xs| && xs[i] == x
  {
    if xs[0] == x then 0 else 1 + FirstIndex(xs[1..], x)
  }

  /** The month CASE on lower(trim("Mes")): 'enero' is 1, ..., 'diciembre' is 12, else NULL. */
  function MonthNum(mes: Option<string>): (m: Option<int>)
    ensures m.Some? ==> mes.Some? && 1 <= m.value <= 12 && MONTH_NAMES[m.value - 1] == Lower(SqlTrim(mes.value))
    ensures m.None? ==> mes.None? || Lower(SqlTrim(mes.value)) !in MONTH_NAMES
  {
    match mes
    case None => None
    case Some(text) =>
      var t := Lower(SqlTrim(text));
      if t in MONTH_NAMES then Some(MonthIndex(t) + 1) else None
  }

  /** COALESCE(NULLIF(trim("Region"), ''), 'Total logística'). */
  function RegionOf(region: Option<string>): (r: string)
    ensures |r| > 0 && r[0] != ' ' && r[|r| - 1] != ' '
    ensures region.Some? && SqlTrim(region.value) != "" ==> r == SqlTrim(region.value)
    ensures region.None? || SqlTrim(region.value) == "" ==> r == TOTAL_REGION
  {
    match region
    case None => TOTAL_REGION
    case Some(text) => if SqlTrim(text) == "" then TOTAL_REGION else SqlTrim(text)
  }

  function ClassifyRecord(r: RawRecord): CleanRecord
    requires r.tipoFolio.Some?
  {
    CleanRecord(ScenarioOf(r.tipoFolio.value), r.periodo, MonthNum(r.mes), r.mes, RegionOf(r.region), r.cells)
  }

  /** The `clean` view: rows with a NULL "Tipo folio" are dropped, every other row is
      classified, in input order. */
  function Clean(rows: seq<RawRecord>): (c: seq<CleanRecord>)
    ensures |c| <= |rows|
  {
    if rows == [] then []
    else
      var rest := Clean(rows[1..]);
      if rows[0].tipoFolio.None? then rest else [ClassifyRecord(rows[0])] + rest
  }

  /** Cleaning works row by row: it distributes over concatenation. */
  lemma {:induction false} CleanAppend(a: seq<RawRecord>, b: seq<RawRecord>)
    ensures Clean(a + b) == Clean(a) + Clean(b)
  {
    if a == [] {
      assert a + b == b;
    } else {
      assert (a + b)[0] == a[0] && (a + b)[1..] == a[1..] + b;
      CleanAppend(a[1..], b);
    }
  }

  /** The `clean` view holds exactly the classified input rows that have a "Tipo folio". */
  lemma {:induction false} CleanMembers(rows: seq<RawRecord>, c: CleanRecord)
    ensures c in Clean(rows) <==>
      exists i :: 0 <= i < |rows| && rows[i].tipoFolio.Some? && c == ClassifyRecord(rows[i])
  {
    if rows != [] {
      CleanMembers(rows[1..], c);
      if exists i :: 0 <= i < |rows| && rows[i].tipoFolio.Some? && c == ClassifyRecord(rows[i]) {
        var i :| 0 <= i < |rows| && rows[i].tipoFolio.Some? && c == ClassifyRecord(rows[i]);
        if i > 0 {
          assert rows[1..][i - 1] == rows[i];
        }
      }
      if c in Clean(rows[1..]) {
        var i :| 0 <= i < |rows[1..]| && rows[1..][i].tipoFolio.Some? && c == ClassifyRecord(rows[1..][i]);
        assert rows[i + 1] == rows[1..][i];
      }
    }
  }

  /** The twelve month names are pairwise different, so each WHEN arm can fire for one name only. */
  lemma MonthNamesDistinct()
    ensures forall i, j :: 0 <= i < j < 12 ==> MONTH_NAMES[i] != MONTH_NAMES[j]
  {
  }

  lemma {:induction false} FirstIndexOfDistinct(xs: seq<string>, i: nat)
    requires i < |xs|
    requires forall a, b :: 0 <= a < b < |xs| ==> xs[a] != xs[b]
    ensures FirstIndex(xs, xs[i]) == i
  {
    if i > 0 {
      assert xs[0] != xs[i];
      assert xs[1..][i - 1] == xs[i];
      FirstIndexOfDistinct(xs[1..], i - 1);
    }
  }

  /** The converse of MonthNum's contract: a "Mes" whose trimmed, lower-cased text is the
      i-th Spanish month name gets month number i + 1. */
  lemma MonthNumOfName(text: string, i: nat)
    requires i < 12 && Lower(SqlTrim(text)) == MONTH_NAMES[i]
    ensures MonthNum(Some(text)) == Some(i + 1)
  {
    MonthNamesDistinct();
    FirstIndexOfDistinct(MONTH_NAMES, i);
  }
}
