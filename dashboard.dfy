/** The selection helpers the two dashboard pages share: the period label of a selection,
    the label of the same period in the comparison year, region normalisation and the order
    of the region options. */
module Dashboard {
  import opened Wrappers
  import opened Text
  import opened Classify
  import opened Rollup

  const MONTHS: seq<string> := [
    "Enero", "Febrero", "Marzo", "Abril", "Mayo", "Junio",
    "Julio", "Agosto", "Septiembre", "Octubre", "Noviembre", "Diciembre"]

  /** The year the REAL2025 comparison is always read from. */
  const REAL_BASE_YEAR: int := 2025

  /** MONTH_TO_NUM[name]; None for a name the dictionary does not hold (a KeyError). */
  function MonthToNum(name: string): (r: Option<int>)
    ensures r.Some? <==> name in MONTHS
    ensures r.Some? ==> 1 <= r.value <= 12 && MONTHS[r.value - 1] == name
  {
    if name in MONTHS then Some(FirstIndex(MONTHS, name) + 1) else None
  }

  lemma MonthsDistinct()
    ensures forall i, j :: 0 <= i < j < 12 ==> MONTHS[i] != MONTHS[j]
  {
  }

  /** Month i + 1 is selected by the i-th name of the month selector. */
  lemma MonthToNumOfName(i: nat)
    requires i < 12
    ensures MonthToNum(MONTHS[i]) == Some(i + 1)
  {
    MonthsDistinct();
    FirstIndexOfDistinct(MONTHS, i);
  }

  /** What the extra selector holds: nothing (FY), a month name (M, YTD) or a number (Q, H). */
  datatype Selector = NoChoice | MonthChoice(name: string) | NumberChoice(n: int)

  /** A period selection: the label to filter on and, for M and YTD, the month number. */
  datatype PeriodSel = PeriodSel(periodLabel: string, month: Option<int>)

  /** build_period_label, and the same if/else chain in app.py. None is the exception the
      source raises: a month name MONTH_TO_NUM does not hold, or int() of something that is
      not a number. */
  function BuildPeriodLabel(pt: PeriodType, year: int, sel: Selector): (r: Option<PeriodSel>)
    ensures (pt == M || pt == YTD) ==> (r.Some? <==> sel.MonthChoice? && sel.name in MONTHS)
    ensures (pt == Q || pt == H) ==> (r.Some? <==> sel.NumberChoice?)
    ensures pt == FY ==> r.Some?
    ensures r.Some? ==> (r.value.month.Some? <==> pt == M || pt == YTD)
    ensures r.Some? && r.value.month.Some? ==> 1 <= r.value.month.value <= 12
  {
    match pt
    case M => MonthSelection(year, sel)
    case YTD => MonthSelection(year, sel)
    case Q => if sel.NumberChoice? then Some(PeriodSel(PeriodLabel(Quarter, year, sel.n), None)) else None
    case H => if sel.NumberChoice? then Some(PeriodSel(PeriodLabel(Half, year, sel.n), None)) else None
    case FY => Some(PeriodSel(PeriodLabel(Year, year, 0), None))
  }

  function MonthSelection(year: int, sel: Selector): Option<PeriodSel> {
    if sel.MonthChoice? && MonthToNum(sel.name).Some? then
      var m := MonthToNum(sel.name).value;
      Some(PeriodSel(MonthLabel(year, m), Some(m)))
    else None
  }

  /** period_label_real: the same period type and selector, with the year fixed to 2025;
      M and YTD reuse the month number of the main selection. */
  function RealLabel(pt: PeriodType, month: Option<int>, sel: Selector): Option<string> {
    match pt
    case M => if month.Some? then Some(MonthLabel(REAL_BASE_YEAR, month.value)) else None
    case YTD => if month.Some? then Some(MonthLabel(REAL_BASE_YEAR, month.value)) else None
    case Q => if sel.NumberChoice? then Some(PeriodLabel(Quarter, REAL_BASE_YEAR, sel.n)) else None
    case H => if sel.NumberChoice? then Some(PeriodLabel(Half, REAL_BASE_YEAR, sel.n)) else None
    case FY => Some(PeriodLabel(Year, REAL_BASE_YEAR, 0))
  }

  /** app.py writes the comparison year as the literal text "2025"; it is the four-digit
      rendering the Bridge page computes. */
  lemma BaseYearText()
    ensures PadInt(REAL_BASE_YEAR, 4) == "2025"
  {
    assert Decimal(2) == "2";
    assert Decimal(20) == "20";
    assert Decimal(202) == "202";
    assert Decimal(2025) == "2025";
  }

  /** The comparison label is the main label the same selection gives in 2025. */
  lemma RealLabelIsBaseYearLabel(pt: PeriodType, year: int, sel: Selector)
    requires BuildPeriodLabel(pt, year, sel).Some?
    ensures BuildPeriodLabel(pt, REAL_BASE_YEAR, sel).Some?
    ensures RealLabel(pt, BuildPeriodLabel(pt, year, sel).value.month, sel) ==
      Some(BuildPeriodLabel(pt, REAL_BASE_YEAR, sel).value.periodLabel)
  {
  }

  /** The label of a month selection is the label build.py gave that month's rows: every
      month of the selector reaches the monthly and YTD rows of its month. */
  lemma MonthSelectionMatchesBuild(pt: PeriodType, year: int, i: nat)
    requires (pt == M || pt == YTD) && i < 12
    ensures BuildPeriodLabel(pt, year, MonthChoice(MONTHS[i])) == Some(PeriodSel(MonthLabel(year, i + 1), Some(i + 1)))
  {
    MonthToNumOfName(i);
  }

  /** For four-digit years, filtering the monthly rows by the label of the i-th month of the
      selector keeps exactly the rows of the selected year and of month i + 1. */
  lemma MonthLabelSelectsMonth(facts: seq<FactRow>, year: int, i: nat, pt: PeriodType)
    requires pt == M || pt == YTD
    requires 0 <= year < 10000 && i < 12
    requires forall f :: f in facts ==>
      (f.month.Some? && 0 <= f.year < 10000 && 0 <= f.month.value < 100 &&
       f.periodLabel == MonthLabel(f.year, f.month.value))
    ensures BuildPeriodLabel(pt, year, MonthChoice(MONTHS[i])).Some?
    ensures forall f :: f in facts ==>
      (f.periodLabel == BuildPeriodLabel(pt, year, MonthChoice(MONTHS[i])).value.periodLabel <==>
       f.year == year && f.month == Some(i + 1))
  {
    MonthSelectionMatchesBuild(pt, year, i);
    forall f | f in facts
      ensures f.periodLabel == MonthLabel(year, i + 1) <==> f.year == year && f.month == Some(i + 1)
    {
      if f.periodLabel == MonthLabel(year, i + 1) {
        MonthLabelInjective(f.year, f.month.value, year, i + 1);
      }
    }
  }

  // ------------------------------------------------------------- regions

  /** The replace() table of both pages (app.py also maps "Total logística" to itself). */
  function RegionAlias(r: string): string {
    if r == "Zona Norte" then "Norte"
    else if r == "Zona Sur" then "Sur"
    else if r == "Zona Centro" then "Centro"
    else if r == "Total logistica" then TOTAL_REGION
    else r
  }

  /** astype(str).str.strip() followed by the alias table. */
  function NormalizeRegion(v: string): string {
    RegionAlias(Strip(v))
  }

  /** Normalising a region twice changes nothing: the result is stripped and is not an alias. */
  lemma NormalizeRegionIdempotent(v: string)
    ensures NormalizeRegion(NormalizeRegion(v)) == NormalizeRegion(v)
  {
    var s := Strip(v);
    var r := RegionAlias(s);
    if r == s {
      if |s| > 0 {
        TrimKeeps(s, PythonSpaces);
      } else {
        assert Strip(s) == s;
      }
    } else {
      TrimKeeps(r, PythonSpaces);
    }
  }

  /** Which column holds the region in the table the page reads. */
  datatype RegionColumn = LowerRegion | TitleRegion | UpperRegion | NoRegionColumn

  /** The Bridge page renames "Region" only; app.py renames "Region" and "REGION". */
  predicate BridgeReadsRegion(c: RegionColumn) {
    c == LowerRegion || c == TitleRegion
  }

  predicate AppReadsRegion(c: RegionColumn) {
    c != NoRegionColumn
  }

  /** load_df / load_data: keep the years 2025 and 2026, then normalise the region, or set
      every region to "Total logística" when the table has no region column the page reads. */
  function LoadRows(rows: seq<FactRow>, readsRegion: bool): (out: seq<FactRow>)
    ensures |out| <= |rows|
  {
    if rows == [] then []
    else
      var rest := LoadRows(rows[1..], readsRegion);
      var f := rows[0];
      if f.year == 2025 || f.year == 2026 then
        [f.(region := if readsRegion then NormalizeRegion(f.region) else TOTAL_REGION)] + rest
      else rest
  }

  /** The row load_df / load_data keeps for an input row of 2025 or 2026. */
  function LoadRow(f: FactRow, readsRegion: bool): FactRow {
    f.(region := if readsRegion then NormalizeRegion(f.region) else TOTAL_REGION)
  }

  lemma NormalizedTotal()
    ensures NormalizeRegion(TOTAL_REGION) == TOTAL_REGION
  {
    TrimKeeps(TOTAL_REGION, PythonSpaces);
  }

  /** Every loaded row is an input row of 2025 or 2026 with its region normalised; and every
      input row of those years is loaded. */
  lemma {:induction false} LoadRowsMembers(rows: seq<FactRow>, readsRegion: bool, g: FactRow)
    ensures g in LoadRows(rows, readsRegion) <==>
      exists i :: 0 <= i < |rows| && (rows[i].year == 2025 || rows[i].year == 2026) && g == LoadRow(rows[i], readsRegion)
  {
    if rows != [] {
      LoadRowsMembers(rows[1..], readsRegion, g);
      if exists i :: 0 <= i < |rows| && (rows[i].year == 2025 || rows[i].year == 2026) && g == LoadRow(rows[i], readsRegion) {
        var i :| 0 <= i < |rows| && (rows[i].year == 2025 || rows[i].year == 2026) && g == LoadRow(rows[i], readsRegion);
        if i > 0 {
          assert rows[1..][i - 1] == rows[i];
        }
      }
      if exists i :: 0 <= i < |rows[1..]| && (rows[1..][i].year == 2025 || rows[1..][i].year == 2026) && g == LoadRow(rows[1..][i], readsRegion) {
        var i :| 0 <= i < |rows[1..]| && (rows[1..][i].year == 2025 || rows[1..][i].year == 2026) && g == LoadRow(rows[1..][i], readsRegion);
        assert rows[i + 1] == rows[1..][i];
      }
    }
  }

  /** The loaded rows are all of 2025 or 2026, and their regions are already normalised
      ("Total logística" everywhere when the page finds no region column). */
  lemma LoadRowsProperties(rows: seq<FactRow>, readsRegion: bool)
    ensures forall g :: g in LoadRows(rows, readsRegion) ==> g.year == 2025 || g.year == 2026
    ensures forall g :: g in LoadRows(rows, readsRegion) ==> NormalizeRegion(g.region) == g.region
    ensures !readsRegion ==> forall g :: g in LoadRows(rows, readsRegion) ==> g.region == TOTAL_REGION
  {
    forall g | g in LoadRows(rows, readsRegion)
      ensures (g.year == 2025 || g.year == 2026) && NormalizeRegion(g.region) == g.region
      ensures !readsRegion ==> g.region == TOTAL_REGION
    {
      LoadRowsMembers(rows, readsRegion, g);
      var i :| 0 <= i < |rows| && (rows[i].year == 2025 || rows[i].year == 2026) && g == LoadRow(rows[i], readsRegion);
      NormalizeRegionIdempotent(rows[i].region);
      NormalizedTotal();
    }
  }

  /** The regions the selector offers first, in this order, when they are present. */
  const PREFERRED: seq<string> := [TOTAL_REGION, "Norte", "Centro", "Sur"]

  /** The elements of xs that are (keep) or are not (!keep) in ys, in order. */
  function Select(xs: seq<string>, ys: seq<string>, keep: bool): (r: seq<string>)
    ensures forall x :: x in r <==> x in xs && ((x in ys) == keep)
  {
    if xs == [] then []
    else
      var rest := Select(xs[1..], ys, keep);
      if (xs[0] in ys) == keep then [xs[0]] + rest else rest
  }

  lemma {:induction false} SelectSorted(xs: seq<string>, ys: seq<string>, keep: bool)
    requires StrictlySorted(xs)
    ensures StrictlySorted(Select(xs, ys, keep))
  {
    if xs != [] {
      SelectSorted(xs[1..], ys, keep);
      var rest := Select(xs[1..], ys, keep);
      assert forall y :: y in rest ==> LexLess(xs[0], y) by {
        forall y | y in rest ensures LexLess(xs[0], y) {
          var j :| 0 <= j < |xs[1..]| && xs[1..][j] == y;
          assert xs[j + 1] == y;
        }
      }
    }
  }

  /** The region options: the preferred regions found, in preferred order, then the other
      regions found, sorted. `found` is the sorted list of distinct regions. */
  function RegionOptions(found: seq<string>): seq<string> {
    Select(PREFERRED, found, true) + Select(found, PREFERRED, false)
  }

  /** The options offer exactly the regions found, each once: preferred ones first, in
      preferred order, then the others in sorted order. */
  lemma RegionOptionsProperties(rows: seq<FactRow>)
    ensures var found := SortedUnique(seq(|rows|, i requires 0 <= i < |rows| => rows[i].region));
      var opts := RegionOptions(found);
      (forall r :: r in opts <==> exists i :: 0 <= i < |rows| && rows[i].region == r) &&
      (forall i, j :: 0 <= i < j < |opts| ==> opts[i] != opts[j]) &&
      opts[..|Select(PREFERRED, found, true)|] == Select(PREFERRED, found, true) &&
      StrictlySorted(opts[|Select(PREFERRED, found, true)|..]) &&
      (forall r :: r in opts[|Select(PREFERRED, found, true)|..] ==> r !in PREFERRED)
  {
    var regs := seq(|rows|, i requires 0 <= i < |rows| => rows[i].region);
    var found := SortedUnique(regs);
    var pre := Select(PREFERRED, found, true);
    var post := Select(found, PREFERRED, false);
    var opts := pre + post;
    SelectSorted(found, PREFERRED, false);
    SortedDistinct(post);
    assert forall r :: r in regs <==> exists i :: 0 <= i < |rows| && rows[i].region == r by {
      forall r ensures r in regs <==> exists i :: 0 <= i < |rows| && rows[i].region == r {
        if r in regs {
          var i :| 0 <= i < |regs| && regs[i] == r;
          assert rows[i].region == r;
        }
        if exists i :: 0 <= i < |rows| && rows[i].region == r {
          var i :| 0 <= i < |rows| && rows[i].region == r;
          assert regs[i] == r;
        }
      }
    }
    PreferredSelectDistinct(found);
    assert opts[..|pre|] == pre && opts[|pre|..] == post;
    forall i, j | 0 <= i < j < |opts| ensures opts[i] != opts[j] {
      if j < |pre| {
        assert opts[i] == pre[i] && opts[j] == pre[j];
      } else if i >= |pre| {
        assert opts[i] == post[i - |pre|] && opts[j] == post[j - |pre|];
      } else {
        assert opts[i] == pre[i] && opts[j] == post[j - |pre|];
        assert pre[i] in pre && post[j - |pre|] in post;
      }
    }
  }

  lemma PreferredSelectDistinct(found: seq<string>)
    ensures NoDuplicates(Select(PREFERRED, found, true))
  {
    SubsequenceDistinct(PREFERRED, found);
  }

  predicate NoDuplicates(xs: seq<string>) {
    forall i, j :: 0 <= i < j < |xs| ==> xs[i] != xs[j]
  }

  lemma {:induction false} SubsequenceDistinct(xs: seq<string>, ys: seq<string>)
    requires NoDuplicates(xs)
    ensures NoDuplicates(Select(xs, ys, true))
  {
    if xs != [] {
      SubsequenceDistinct(xs[1..], ys);
      var rest := Select(xs[1..], ys, true);
      assert xs[0] !in rest by {
        forall k | 0 <= k < |xs[1..]| ensures xs[1..][k] != xs[0] {
          assert xs[1..][k] == xs[k + 1];
        }
      }
      if xs[0] in ys {
        var r := [xs[0]] + rest;
        forall i, j | 0 <= i < j < |r| ensures r[i] != r[j] {
          if i == 0 {
            assert r[j] == rest[j - 1];
            assert rest[j - 1] in rest;
          } else {
            assert r[i] == rest[i - 1] && r[j] == rest[j - 1];
          }
        }
      }
    }
  }

  /** default_region_index: the position of "Total logística", or 0. Because it heads the
      preferred list, it is always 0. */
  function DefaultRegionIndex(opts: seq<string>): nat {
    if TOTAL_REGION in opts then FirstIndex(opts, TOTAL_REGION) else 0
  }

  lemma DefaultRegionIndexIsFirst(found: seq<string>)
    ensures DefaultRegionIndex(RegionOptions(found)) == 0
    ensures TOTAL_REGION in found ==> RegionOptions(found)[0] == TOTAL_REGION
  {
  }

  // ------------------------------------------------------------- slices and sums

  /** The rows of one period type, label and region whose scenario is one of `scenarios`. */
  function Slice(df: seq<FactRow>, pt: PeriodType, periodLabel: string, region: string, scenarios: set<Scenario>): (s: seq<FactRow>)
    ensures |s| <= |df|
    ensures forall f :: f in s <==>
      (f in df && f.periodType == pt && f.periodLabel == periodLabel &&
       f.region == region && f.scenario in scenarios)
  {
    if df == [] then []
    else
      var rest := Slice(df[1..], pt, periodLabel, region, scenarios);
      var f := df[0];
      assert forall g :: g in df <==> g == f || g in df[1..];
      if f.periodType == pt && f.periodLabel == periodLabel && f.region == region && f.scenario in scenarios
      then [f] + rest else rest
  }

  /** True when a row counts towards metric_sum(scenario, metric). */
  predicate Counts(f: FactRow, scenario: Scenario, metric: string) {
    f.scenario == scenario && f.metric == metric
  }

  /** metric_sum: the sum of the values of the rows of that scenario and metric; missing
      values are skipped, and no rows at all give 0.0. */
  function MetricSum(slice: seq<FactRow>, scenario: Scenario, metric: string): real {
    if slice == [] then 0.0
    else
      var f := slice[0];
      (if Counts(f, scenario, metric) && f.value.Some? then f.value.value else 0.0) +
      MetricSum(slice[1..], scenario, metric)
  }

  /** metric_sum adds up over a split of the slice, whatever the split. */
  lemma {:induction false} MetricSumAppend(a: seq<FactRow>, b: seq<FactRow>, scenario: Scenario, metric: string)
    ensures MetricSum(a + b, scenario, metric) == MetricSum(a, scenario, metric) + MetricSum(b, scenario, metric)
  {
    if a == [] {
      assert a + b == b;
    } else {
      assert (a + b)[0] == a[0] && (a + b)[1..] == a[1..] + b;
      MetricSumAppend(a[1..], b, scenario, metric);
    }
  }

  /** Rows of other scenarios or metrics, and rows without a value, do not move the sum. */
  lemma {:induction false} MetricSumOnlyCounted(slice: seq<FactRow>, scenario: Scenario, metric: string)
    requires forall f :: f in slice ==> !Counts(f, scenario, metric) || f.value.None?
    ensures MetricSum(slice, scenario, metric) == 0.0
  {
    if slice != [] {
      assert slice[0] in slice;
      assert forall f :: f in slice[1..] ==> f in slice;
      MetricSumOnlyCounted(slice[1..], scenario, metric);
    }
  }
}
