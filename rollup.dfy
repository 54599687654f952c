/** The period views of build.py, all computed from the monthly view: Q, H and FY sum the
    monthly values of a series over a range of months, YTD is a running sum in month order,
    and the five views are concatenated into the fact table. */
module Rollup {
  import opened Wrappers
  import opened Text
  import opened ColumnResolver
  import opened Classify
  import opened Metrics
  import opened Monthly

  /** A series: the columns every period view partitions or groups by, apart from the period. */
  datatype Series = Series(scenario: Scenario, year: int, region: string, metric: Metric)

  function SeriesOf(r: MonthlyRow): Series {
    Series(r.key.scenario, r.key.year, r.key.region, r.metric)
  }

  // ------------------------------------------------------------- SQL SUM

  /** Two partial SUMs combined: NULLs are skipped, NULL only when both are NULL. */
  function SqlPlus(a: Option<real>, b: Option<real>): (r: Option<real>)
    ensures r.None? <==> a.None? && b.None?
    ensures a.Some? && b.Some? ==> r == Some(a.value + b.value)
    ensures a.None? ==> r == b
    ensures b.None? ==> r == a
  {
    if a.None? then b else if b.None? then a else Some(a.value + b.value)
  }

  /** SQL SUM over a column: NULLs are skipped, and the sum of no value at all is NULL. */
  function SqlSum(vs: seq<Option<real>>): (r: Option<real>)
    ensures r.None? <==> forall i :: 0 <= i < |vs| ==> vs[i].None?
  {
    if vs == [] then None
    else
      var init := vs[..|vs| - 1];
      assert forall i :: 0 <= i < |init| ==> init[i] == vs[i];
      SqlPlus(SqlSum(init), vs[|vs| - 1])
  }

  lemma SqlSumSnoc(vs: seq<Option<real>>, v: Option<real>)
    ensures SqlSum(vs + [v]) == SqlPlus(SqlSum(vs), v)
  {
    assert (vs + [v])[..|vs|] == vs;
  }

  lemma SqlPlusShuffle(a: Option<real>, b: Option<real>, v: Option<real>)
    ensures SqlPlus(SqlPlus(a, b), v) == SqlPlus(SqlPlus(a, v), b)
    ensures SqlPlus(SqlPlus(a, b), v) == SqlPlus(a, SqlPlus(b, v))
  {
  }

  // ------------------------------------------------------------- month ranges

  /** The values of the monthly rows of series s whose month number lies in lo..hi, in row order. */
  function RangeValues(rows: seq<MonthlyRow>, s: Series, lo: int, hi: int): seq<Option<real>> {
    if rows == [] then []
    else
      var init := RangeValues(rows[..|rows| - 1], s, lo, hi);
      var r := rows[|rows| - 1];
      if SeriesOf(r) == s && lo <= r.key.month <= hi then init + [r.value] else init
  }

  /** The sum over a range of months is the sum over its lower part plus the sum over its
      upper part. */
  lemma {:induction false} RangeSplit(rows: seq<MonthlyRow>, s: Series, lo: int, mid: int, hi: int)
    requires lo <= mid < hi
    ensures SqlSum(RangeValues(rows, s, lo, hi)) ==
      SqlPlus(SqlSum(RangeValues(rows, s, lo, mid)), SqlSum(RangeValues(rows, s, mid + 1, hi)))
  {
    if rows != [] {
      var init := rows[..|rows| - 1];
      var r := rows[|rows| - 1];
      RangeSplit(init, s, lo, mid, hi);
      var a, b, c := RangeValues(init, s, lo, hi), RangeValues(init, s, lo, mid), RangeValues(init, s, mid + 1, hi);
      if SeriesOf(r) == s && lo <= r.key.month <= mid {
        SqlSumSnoc(a, r.value);
        SqlSumSnoc(b, r.value);
        SqlPlusShuffle(SqlSum(b), SqlSum(c), r.value);
      } else if SeriesOf(r) == s && mid < r.key.month <= hi {
        SqlSumSnoc(a, r.value);
        SqlSumSnoc(c, r.value);
        SqlPlusShuffle(SqlSum(b), SqlSum(c), r.value);
      }
    }
  }

  // ------------------------------------------------------------- Q, H and FY

  datatype Granularity = Quarter | Half | Year

  /** The quarter of a month, ((month - 1) div 3) + 1. */
  function QuarterOf(month: int): int {
    (month - 1) / 3 + 1
  }

  /** CASE WHEN month_num <= 6 THEN 1 ELSE 2 END. */
  function HalfOf(month: int): int {
    if month <= 6 then 1 else 2
  }

  /** The period a month falls in; the full year has the single period 0. */
  function BucketOf(gr: Granularity, month: int): int {
    match gr
    case Quarter => QuarterOf(month)
    case Half => HalfOf(month)
    case Year => 0
  }

  predicate ValidBucket(gr: Granularity, b: int) {
    match gr
    case Quarter => 1 <= b <= 4
    case Half => 1 <= b <= 2
    case Year => b == 0
  }

  /** The first and last month of period b. */
  function FirstMonth(gr: Granularity, b: int): int {
    match gr
    case Quarter => 3 * b - 2
    case Half => 6 * b - 5
    case Year => 1
  }

  function LastMonth(gr: Granularity, b: int): int {
    match gr
    case Quarter => 3 * b
    case Half => 6 * b
    case Year => 12
  }

  /** Every month falls in exactly one period, and period b is the months
      FirstMonth(b)..LastMonth(b). */
  lemma BucketRange(gr: Granularity, month: int, b: int)
    requires 1 <= month <= 12 && ValidBucket(gr, b)
    ensures ValidBucket(gr, BucketOf(gr, month))
    ensures BucketOf(gr, month) == b <==> FirstMonth(gr, b) <= month <= LastMonth(gr, b)
  {
  }

  /** A grouping key of the Q, H and FY views. */
  datatype RollKey = RollKey(series: Series, bucket: int)

  function RollKeyOf(gr: Granularity, r: MonthlyRow): RollKey {
    RollKey(SeriesOf(r), BucketOf(gr, r.key.month))
  }

  function RollKeyList(gr: Granularity, rows: seq<MonthlyRow>): (ks: seq<RollKey>)
    ensures |ks| == |rows| && forall i :: 0 <= i < |rows| ==> ks[i] == RollKeyOf(gr, rows[i])
  {
    seq(|rows|, i requires 0 <= i < |rows| => RollKeyOf(gr, rows[i]))
  }

  /** The groups of a period view, each once, in order of first appearance. */
  function RollKeys(gr: Granularity, rows: seq<MonthlyRow>): seq<RollKey> {
    Distinct(RollKeyList(gr, rows))
  }

  /** The monthly values a group of a period view sums, in row order. */
  function BucketValues(gr: Granularity, rows: seq<MonthlyRow>, k: RollKey): seq<Option<real>> {
    if rows == [] then []
    else
      var init := BucketValues(gr, rows[..|rows| - 1], k);
      var r := rows[|rows| - 1];
      if RollKeyOf(gr, r) == k then init + [r.value] else init
  }

  predicate MonthsInRange(rows: seq<MonthlyRow>) {
    forall i :: 0 <= i < |rows| ==> 1 <= rows[i].key.month <= 12
  }

  /** A group of a period view holds exactly the monthly rows of its series whose months
      lie in the period. */
  lemma {:induction false} BucketValuesAreRange(gr: Granularity, rows: seq<MonthlyRow>, k: RollKey)
    requires MonthsInRange(rows) && ValidBucket(gr, k.bucket)
    ensures BucketValues(gr, rows, k) == RangeValues(rows, k.series, FirstMonth(gr, k.bucket), LastMonth(gr, k.bucket))
  {
    if rows != [] {
      var init := rows[..|rows| - 1];
      assert MonthsInRange(init) by {
        forall i | 0 <= i < |init| ensures 1 <= init[i].key.month <= 12 {
          assert init[i] == rows[i];
        }
      }
      BucketValuesAreRange(gr, init, k);
      BucketRange(gr, rows[|rows| - 1].key.month, k.bucket);
    }
  }

  /** The total of one month of a series. */
  function MonthTotal(rows: seq<MonthlyRow>, s: Series, month: int): Option<real> {
    SqlSum(RangeValues(rows, s, month, month))
  }

  /** The value of group k of a period view. */
  function PeriodTotal(gr: Granularity, rows: seq<MonthlyRow>, k: RollKey): Option<real> {
    SqlSum(BucketValues(gr, rows, k))
  }

  /** A quarter is the sum of its three months. */
  lemma QuarterIsSumOfMonths(rows: seq<MonthlyRow>, s: Series, q: int)
    requires MonthsInRange(rows) && 1 <= q <= 4
    ensures PeriodTotal(Quarter, rows, RollKey(s, q)) ==
      SqlPlus(SqlPlus(MonthTotal(rows, s, 3 * q - 2), MonthTotal(rows, s, 3 * q - 1)), MonthTotal(rows, s, 3 * q))
  {
    var first, second, third := 3 * q - 2, 3 * q - 1, 3 * q;
    BucketValuesAreRange(Quarter, rows, RollKey(s, q));
    assert PeriodTotal(Quarter, rows, RollKey(s, q)) == SqlSum(RangeValues(rows, s, first, third));
    RangeSplit(rows, s, first, second, third);
    RangeSplit(rows, s, first, first, second);
  }

  /** A half year is the sum of its two quarters. */
  lemma HalfIsSumOfQuarters(rows: seq<MonthlyRow>, s: Series, h: int)
    requires MonthsInRange(rows) && 1 <= h <= 2
    ensures PeriodTotal(Half, rows, RollKey(s, h)) ==
      SqlPlus(PeriodTotal(Quarter, rows, RollKey(s, 2 * h - 1)), PeriodTotal(Quarter, rows, RollKey(s, 2 * h)))
  {
    var first, mid, last := 6 * h - 5, 6 * h - 3, 6 * h;
    BucketValuesAreRange(Half, rows, RollKey(s, h));
    assert PeriodTotal(Half, rows, RollKey(s, h)) == SqlSum(RangeValues(rows, s, first, last));
    BucketValuesAreRange(Quarter, rows, RollKey(s, 2 * h - 1));
    assert PeriodTotal(Quarter, rows, RollKey(s, 2 * h - 1)) == SqlSum(RangeValues(rows, s, first, mid));
    BucketValuesAreRange(Quarter, rows, RollKey(s, 2 * h));
    assert PeriodTotal(Quarter, rows, RollKey(s, 2 * h)) == SqlSum(RangeValues(rows, s, mid + 1, last));
    RangeSplit(rows, s, first, mid, last);
  }

  /** The full year is the sum of its two halves. */
  lemma YearIsSumOfHalves(rows: seq<MonthlyRow>, s: Series)
    requires MonthsInRange(rows)
    ensures PeriodTotal(Year, rows, RollKey(s, 0)) ==
      SqlPlus(PeriodTotal(Half, rows, RollKey(s, 1)), PeriodTotal(Half, rows, RollKey(s, 2)))
  {
    BucketValuesAreRange(Year, rows, RollKey(s, 0));
    assert PeriodTotal(Year, rows, RollKey(s, 0)) == SqlSum(RangeValues(rows, s, 1, 12));
    BucketValuesAreRange(Half, rows, RollKey(s, 1));
    assert PeriodTotal(Half, rows, RollKey(s, 1)) == SqlSum(RangeValues(rows, s, 1, 6));
    BucketValuesAreRange(Half, rows, RollKey(s, 2));
    assert PeriodTotal(Half, rows, RollKey(s, 2)) == SqlSum(RangeValues(rows, s, 7, 12));
    RangeSplit(rows, s, 1, 6, 12);
  }

  /** A group of a period view exists only where monthly rows exist: its values are not empty. */
  lemma {:induction false} RollKeysHaveRows(gr: Granularity, rows: seq<MonthlyRow>, k: RollKey)
    requires k in RollKeys(gr, rows)
    ensures BucketValues(gr, rows, k) != []
  {
    var init := rows[..|rows| - 1];
    var r := rows[|rows| - 1];
    if RollKeyOf(gr, r) != k {
      var i :| 0 <= i < |rows| && RollKeyList(gr, rows)[i] == k;
      assert RollKeyList(gr, init)[i] == k;
      RollKeysHaveRows(gr, init, k);
    }
  }

  // ------------------------------------------------------------- the quarter as DuckDB reads it

  /** DuckDB's cast of a DOUBLE to INT: to the nearest integer. The quarter expression never
      meets a value halfway between two integers, so how ties go does not matter here. */
  function RoundToInt(x: real): int {
    if x >= 0.0 then (x + 0.5).Floor else -((0.5 - x).Floor)
  }

  /** The quarter expression ((month_num-1)/3)::INT + 1 as DuckDB evaluates it: '/' on two
      integers divides in floating point, and the cast rounds instead of truncating. */
  function QuarterAsWritten(month: int): int {
    RoundToInt((month - 1) as real / 3.0) + 1
  }

  /** The expression as written puts March in Q2 and December in a fifth quarter, where
      ((month - 1) div 3) + 1 gives Q1 and Q4. */
  lemma QuarterAsWrittenMisplacesMonths()
    ensures QuarterAsWritten(3) == 2 && QuarterOf(3) == 1
    ensures QuarterAsWritten(12) == 5 && QuarterOf(12) == 4
  {
    assert (3 - 1) as real / 3.0 + 0.5 == 7.0 / 6.0;
    assert (12 - 1) as real / 3.0 + 0.5 == 25.0 / 6.0;
  }

  /** The quarter as intended: months 1-3 are Q1, 4-6 Q2, 7-9 Q3, 10-12 Q4. */
  lemma QuarterOfMonths(month: int)
    requires 1 <= month <= 12
    ensures 1 <= QuarterOf(month) <= 4
    ensures 3 * QuarterOf(month) - 2 <= month <= 3 * QuarterOf(month)
  {
  }

  // ------------------------------------------------------------- YTD

  /** The window frame of row i: the rows of its series ordered before it by month number,
      rows with the same month number counted up to row i itself (ROWS BETWEEN UNBOUNDED
      PRECEDING AND CURRENT ROW, ties taken in row order). */
  predicate InFrame(rows: seq<MonthlyRow>, i: nat, j: nat)
    requires i < |rows| && j < |rows|
  {
    SeriesOf(rows[j]) == SeriesOf(rows[i]) &&
    (rows[j].key.month < rows[i].key.month || (rows[j].key.month == rows[i].key.month && j <= i))
  }

  /** The values in the frame of row i among the first n rows, in row order. */
  function FrameValues(rows: seq<MonthlyRow>, i: nat, n: nat): seq<Option<real>>
    requires i < |rows| && n <= |rows|
  {
    if n == 0 then []
    else
      var init := FrameValues(rows, i, n - 1);
      if InFrame(rows, i, n - 1) then init + [rows[n - 1].value] else init
  }

  function YtdValue(rows: seq<MonthlyRow>, i: nat): Option<real>
    requires i < |rows|
  {
    SqlSum(FrameValues(rows, i, |rows|))
  }

  /** When row i is the only row of its series for its month, its frame is the months
      1..month of the series. */
  lemma {:induction false} FrameIsRange(rows: seq<MonthlyRow>, i: nat, n: nat)
    requires i < |rows| && n <= |rows| && MonthsInRange(rows)
    requires forall j :: 0 <= j < |rows| && j != i && SeriesOf(rows[j]) == SeriesOf(rows[i]) ==>
      rows[j].key.month != rows[i].key.month
    ensures FrameValues(rows, i, n) == RangeValues(rows[..n], SeriesOf(rows[i]), 1, rows[i].key.month)
  {
    if n > 0 {
      FrameIsRange(rows, i, n - 1);
      assert rows[..n][..n - 1] == rows[..n - 1];
      assert rows[..n][n - 1] == rows[n - 1];
    }
  }

  /** The YTD value of a month is the sum of months 1..month of its series. */
  lemma YtdIsRunningTotal(rows: seq<MonthlyRow>, i: nat)
    requires i < |rows| && MonthsInRange(rows)
    requires forall j :: 0 <= j < |rows| && j != i && SeriesOf(rows[j]) == SeriesOf(rows[i]) ==>
      rows[j].key.month != rows[i].key.month
    ensures YtdValue(rows, i) == SqlSum(RangeValues(rows, SeriesOf(rows[i]), 1, rows[i].key.month))
  {
    FrameIsRange(rows, i, |rows|);
    assert rows[..|rows|] == rows;
  }

  /** The YTD value of December is the full-year value of its series. */
  lemma YtdDecemberIsFullYear(rows: seq<MonthlyRow>, i: nat)
    requires i < |rows| && MonthsInRange(rows) && rows[i].key.month == 12
    requires forall j :: 0 <= j < |rows| && j != i && SeriesOf(rows[j]) == SeriesOf(rows[i]) ==>
      rows[j].key.month != 12
    ensures YtdValue(rows, i) == PeriodTotal(Year, rows, RollKey(SeriesOf(rows[i]), 0))
  {
    YtdIsRunningTotal(rows, i);
    BucketValuesAreRange(Year, rows, RollKey(SeriesOf(rows[i]), 0));
  }

  // ------------------------------------------------------------- labels

  /** printf('%04d-%02d', year, month_num). */
  function MonthLabel(year: int, month: int): string {
    PadInt(year, 4) + "-" + PadInt(month, 2)
  }

  /** printf('%04d-Q%d', ...), printf('%04d-H%d', ...) and printf('%04d', year). */
  function PeriodLabel(gr: Granularity, year: int, b: int): string {
    match gr
    case Quarter => PadInt(year, 4) + "-Q" + PadInt(b, 0)
    case Half => PadInt(year, 4) + "-H" + PadInt(b, 0)
    case Year => PadInt(year, 4)
  }

  /** A year below 10000 is written with exactly four digits. */
  lemma FourDigitYear(y: nat)
    requires y < 10000
    ensures |PadInt(y, 4)| == 4
  {
    assert Pow10(4) == 10000;
    PadIntLength(y, 4);
  }

  /** Within four-digit years, a monthly label reads back as its year and month. */
  lemma MonthLabelInjective(y1: int, m1: int, y2: int, m2: int)
    requires 0 <= y1 < 10000 && 0 <= y2 < 10000 && 0 <= m1 < 100 && 0 <= m2 < 100
    requires MonthLabel(y1, m1) == MonthLabel(y2, m2)
    ensures y1 == y2 && m1 == m2
  {
    FourDigitYear(y1);
    FourDigitYear(y2);
    SplitJoin(PadInt(y1, 4), PadInt(m1, 2), PadInt(y2, 4), PadInt(m2, 2), "-");
    PadIntInjective(y1, y2, 4);
    PadIntInjective(m1, m2, 2);
  }

  /** Within four-digit years, a quarterly or half-year label reads back as its year and period. */
  lemma PeriodLabelInjective(gr: Granularity, y1: int, b1: int, y2: int, b2: int)
    requires gr != Year && 0 <= y1 < 10000 && 0 <= y2 < 10000 && 0 <= b1 && 0 <= b2
    requires PeriodLabel(gr, y1, b1) == PeriodLabel(gr, y2, b2)
    ensures y1 == y2 && b1 == b2
  {
    FourDigitYear(y1);
    FourDigitYear(y2);
    var sep := if gr == Quarter then "-Q" else "-H";
    assert PeriodLabel(gr, y1, b1) == PadInt(y1, 4) + sep + PadInt(b1, 0);
    assert PeriodLabel(gr, y2, b2) == PadInt(y2, 4) + sep + PadInt(b2, 0);
    SplitJoin(PadInt(y1, 4), PadInt(b1, 0), PadInt(y2, 4), PadInt(b2, 0), sep);
    PadIntInjective(y1, y2, 4);
    PadIntInjective(b1, b2, 0);
  }

  // ------------------------------------------------------------- the fact table

  datatype PeriodType = M | Q | H | FY | YTD

  /** One row of the output table. */
  datatype FactRow = FactRow(
    periodType: PeriodType,
    periodLabel: string,
    scenario: Scenario,
    year: int,
    month: Option<int>,
    region: string,
    metric: string,
    value: Option<real>)

  function PeriodTypeOf(gr: Granularity): PeriodType {
    match gr
    case Quarter => Q
    case Half => H
    case Year => FY
  }

  /** The monthly_labeled view. */
  function MonthlyFacts(rows: seq<MonthlyRow>): (f: seq<FactRow>)
    ensures |f| == |rows|
  {
    seq(|rows|, i requires 0 <= i < |rows| =>
      var k := rows[i].key;
      FactRow(M, MonthLabel(k.year, k.month), k.scenario, k.year, Some(k.month), k.region, Name(rows[i].metric), rows[i].value))
  }

  /** One row of the quarterly, halfyear or fullyear view. */
  function PeriodFact(gr: Granularity, rows: seq<MonthlyRow>, k: RollKey): FactRow {
    FactRow(PeriodTypeOf(gr), PeriodLabel(gr, k.series.year, k.bucket), k.series.scenario, k.series.year,
      None, k.series.region, Name(k.series.metric), PeriodTotal(gr, rows, k))
  }

  /** The quarterly, halfyear or fullyear view: one row per group. */
  function PeriodFacts(gr: Granularity, rows: seq<MonthlyRow>): (f: seq<FactRow>)
    ensures |f| == |RollKeys(gr, rows)|
  {
    var ks := RollKeys(gr, rows);
    seq(|ks|, i requires 0 <= i < |ks| => PeriodFact(gr, rows, ks[i]))
  }

  /** The ytd view: one row per monthly row, with its running total. */
  function YtdFacts(rows: seq<MonthlyRow>): (f: seq<FactRow>)
    ensures |f| == |rows|
  {
    seq(|rows|, i requires 0 <= i < |rows| =>
      var k := rows[i].key;
      FactRow(YTD, MonthLabel(k.year, k.month), k.scenario, k.year, Some(k.month), k.region, Name(rows[i].metric), YtdValue(rows, i)))
  }

  /** The UNION ALL of the five views. */
  function FactTable(rows: seq<MonthlyRow>): seq<FactRow> {
    MonthlyFacts(rows) + PeriodFacts(Quarter, rows) + PeriodFacts(Half, rows) + PeriodFacts(Year, rows) + YtdFacts(rows)
  }

  /** The groups of a period view are valid periods of the months they come from. */
  lemma RollKeysValid(gr: Granularity, rows: seq<MonthlyRow>, k: RollKey)
    requires MonthsInRange(rows) && k in RollKeys(gr, rows)
    ensures ValidBucket(gr, k.bucket)
  {
    var t :| 0 <= t < |rows| && RollKeyList(gr, rows)[t] == k;
    BucketRange(gr, rows[t].key.month, BucketOf(gr, rows[t].key.month));
  }

  /** No two rows of a quarterly, halfyear or fullyear view share a period label, a scenario,
      a year, a region and a metric. */
  lemma PeriodFactsUnique(gr: Granularity, rows: seq<MonthlyRow>, i: nat, j: nat)
    requires MonthsInRange(rows) && i < j < |PeriodFacts(gr, rows)|
    ensures var f, g := PeriodFacts(gr, rows)[i], PeriodFacts(gr, rows)[j];
      (f.periodLabel, f.scenario, f.year, f.region, f.metric) != (g.periodLabel, g.scenario, g.year, g.region, g.metric)
  {
    var ks := RollKeys(gr, rows);
    var k1, k2 := ks[i], ks[j];
    var f, g := PeriodFacts(gr, rows)[i], PeriodFacts(gr, rows)[j];
    assert f == PeriodFact(gr, rows, k1) && g == PeriodFact(gr, rows, k2);
    RollKeysValid(gr, rows, k1);
    RollKeysValid(gr, rows, k2);
    if k1.series != k2.series {
      if f.metric == g.metric {
        NameInjective(k1.series.metric, k2.series.metric);
      }
    } else if gr != Year && f.periodLabel == g.periodLabel {
      var head := PadInt(k1.series.year, 4) + (if gr == Quarter then "-Q" else "-H");
      assert (head + PadInt(k1.bucket, 0))[|head|..] == PadInt(k1.bucket, 0);
      assert (head + PadInt(k2.bucket, 0))[|head|..] == PadInt(k2.bucket, 0);
      PadIntInjective(k1.bucket, k2.bucket, 0);
    }
  }

  /** main() of build.py: resolve the column layout, clean the input rows, build the monthly
      view and every period view. The failures are those of the anchor search and of the
      first letter that does not resolve. */
  function BuildSummary(xlsCols: seq<string>, csvCols: seq<string>, raw: seq<RawRecord>): (r: Result<seq<FactRow>, ColumnError>)
    ensures AnchorOffset(xlsCols, csvCols, ANCHOR).Err? ==> r == Err(AnchorOffset(xlsCols, csvCols, ANCHOR).error)
    ensures AnchorOffset(xlsCols, csvCols, ANCHOR).Ok? ==>
      (r.Ok? <==> ResolveLeaves(LEAVES, AnchorOffset(xlsCols, csvCols, ANCHOR).value).Ok?)
    ensures r.Ok? ==> var cols := ResolveLeaves(LEAVES, AnchorOffset(xlsCols, csvCols, ANCHOR).value).value;
      |cols| == LEAF_COUNT && r.value == FactTable(MonthlyView(cols, Clean(raw), METRIC_ORDER))
  {
    match AnchorOffset(xlsCols, csvCols, ANCHOR)
    case Err(e) => Err(e)
    case Ok(cm) =>
      match ResolveLeaves(LEAVES, cm)
      case Err(e) => Err(e)
      case Ok(cols) => Ok(FactTable(MonthlyView(cols, Clean(raw), METRIC_ORDER)))
  }

  /** Every monthly row built from cleaned input has a month number in 1..12. */
  lemma MonthlyViewMonths(cols: seq<seq<string>>, raw: seq<RawRecord>)
    requires |cols| == LEAF_COUNT
    ensures MonthsInRange(MonthlyView(cols, Clean(raw), METRIC_ORDER))
  {
    var c := Clean(raw);
    var rows := MonthlyView(cols, c, METRIC_ORDER);
    CleanMonths(raw);
    GroupsMonths(c);
    MonthlyViewRows(cols, c, METRIC_ORDER);
    assert forall i :: 0 <= i < |rows| ==> rows[i] in rows;
  }
}
