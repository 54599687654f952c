# Xepelin dashboard MVP: a verified model of the metric pipeline and its dashboards

This project models the transport-cost reporting pipeline of the Xepelin dashboard MVP.

**The build step** (`build.py`) reads a raw line-item export and produces one long fact table. For that it:

- resolves the reference workbook's column letters onto the export's own column names;
- tags each row with a scenario (plan, forecast, 2025 actuals, or other), a month and a region;
- evaluates a catalog of 32 metrics per group of rows. Leaf sums over columns, composite sums of leaves, and three ratios guarded against a zero denominator;
- emits the monthly view and the quarter, half-year, full-year and year-to-date views derived from it.

**The dashboard pages** read that table:

- **Summary** (`app.py`): one line per metric of the page's own list, with actuals, plan, forecast and the two differences.
- **Bridge** (`pages/2_Bridge.py`): a forecast-versus-plan waterfall of six drivers that closes exactly on the forecast.
- **Upload** (`pages/1_Cargar_base.py`): finds the header line of an uploaded file and trims two text columns before the build runs.

**How the model is built.** Values are `real`, and SQL NULL is `Option`. DuckDB's TRY_CAST appears as an already-parsed optional number. Each SQL view is modelled by what it computes over sequences of records, not by its text. Where the source updates state step by step, the model does too:

- the letter loop of `excel_col_to_0idx` and the metric loop of `main` are methods with loop invariants, proved against specification functions;
- `ensure_cols` is a method of a class whose `columns` map it updates in place;
- the bridge's `otros += eps` and the waterfall loop are methods;
- the workbook header scan is a method over a grid of optional cell texts.

**Modules, one file each:**

- `Wrappers`: Option and Result.
- `Text`: `str.strip()` versus DuckDB `trim()`, ASCII case mapping, zero-padded decimals, code-point order, `sorted(set(...))`.
- `ColumnResolver`: the column letters and the anchor offset.
- `Classify`: the `clean` view.
- `Metrics`: the metric catalog.
- `Monthly`: the `monthly` view.
- `Rollup`: the Q, H, FY and YTD views and the fact table.
- `Dashboard`: the selection helpers both pages share.
- `Bridge`, `Summary`, `Upload`: the three pages.

Behaviour of the code a reader might not expect:

- **Period rollups sum every metric, ratios included.** Q, H, FY and YTD add up the monthly values of "Valor de la caja", "%venta" and "$/caja transportada". They do not recompute them from rolled-up numerators and denominators (build.py:340, build.py:381).
- **A ratio with a zero denominator is NULL, not 0.** NULLIF makes it NULL, and the SQL SUM of the rollups skips it (build.py:171-173). Only the dashboards read a missing value as 0.
- **Rows of unrecognised scenarios are tagged `OTRO` (not "OTHER") and stay in every view.** The monthly view filters only on year and month (build.py:291, build.py:314).
- **The full year needs a month number too.** It is summed from the monthly view, which drops rows whose month is NULL (build.py:314, build.py:369).
- **The monthly GROUP BY includes the raw "Mes" text.** Two spellings of one month give two monthly rows with the same month number (build.py:315).
- **The build has no "Ocupación x remolque", "Kilometros recorridos", "Remolques embarcados", "WAD", "LI" or "Devo & LI".** The summary page still lists them, always as zero (app.py:15-54).
- **The bridge's closing remainder is exactly the change in "Devoluciones".** Gasto total includes Devoluciones, which no driver reads. So whenever the totals respect the catalog's sums, the remainder "Otros" absorbs is not a rounding residue.

## Model

| member | source | states |
|---|---|---|
| Wrappers.FirstError | build.py:56 | the position of the first failing element, with every element before it succeeding |
| Wrappers.AllOk | build.py:56 | a list comprehension over calls that may raise: all values when every call succeeds, otherwise the failure of the first call that raises |
| Text.Trim | build.py:288 | trimming leaves neither end trimmable, is empty exactly when every character is trimmable, and keeps a string with nothing to trim |
| Text.TrimKeeps | build.py:288 | a string whose two ends are not trimmable is left unchanged |
| Text.Lower | build.py:264 | lower() maps each character by the ASCII case table and keeps the length |
| Text.Upper | build.py:17 | upper() maps each character by the ASCII case table and keeps the length |
| Text.PadIntRoundTrip | build.py:326 | a zero-padded decimal reads back as the number it prints, for any width |
| Text.PadIntInjective | build.py:326 | two numbers printed with the same padding give the same text only if they are equal |
| Text.PadIntLength | build.py:326 | a number below 10^width is printed with exactly `width` digits |
| Text.LexIrreflexive | app.py:129 | string order is irreflexive |
| Text.LexTransitive | app.py:129 | string order is transitive |
| Text.LexTotal | app.py:129 | any two different strings are ordered one way or the other |
| Text.SortedUnique | app.py:129 | sorted(set(xs)) is strictly increasing and holds exactly the elements of xs |
| Text.SortedDistinct | app.py:129 | a strictly sorted list has no repeated element |
| Classify.ScenarioOf | build.py:287-292 | BP, REAL2025 and FCST each exactly when the trimmed "Tipo folio" is "Business Plan", "Real 2025" or "Forecast actual"; OTRO otherwise |
| Classify.MonthNum | build.py:263-279 | a month number is 1..12 and names the lower-cased, trimmed "Mes"; NULL only for a NULL or unknown name |
| Classify.MonthNumOfName | build.py:263-279 | each Spanish month name, in any case and with spaces around it, gets its own number |
| Classify.MonthNamesDistinct | build.py:265-276 | the twelve WHEN names are pairwise different |
| Classify.RegionOf | build.py:295 | the trimmed region when it is not blank, otherwise "Total logística"; never empty, never padded |
| Classify.Clean | build.py:283-297 | the clean view has no more rows than the input |
| Classify.CleanMembers | build.py:283-297 | the clean view holds exactly the classified input rows whose "Tipo folio" is not NULL |
| Classify.CleanAppend | build.py:283-297 | cleaning works row by row: it distributes over concatenation |
| ColumnResolver.ExcelColTo0Idx | build.py:13-23 | the loop returns the bijective base-26 value of the stripped, upper-cased letters minus one, or the invalid-letter failure |
| ColumnResolver.ReadLetters | build.py:18-23 | on letters A-Z the accumulator ends at the base-26 value minus one; any other character raises |
| ColumnResolver.ToBase26 | build.py:22 | the letter address of a number is made of capitals and is empty only for 0 |
| ColumnResolver.Base26OfToBase26 | build.py:22 | reading back a number's letter address gives the number |
| ColumnResolver.ToBase26OfBase26 | build.py:22 | writing back the value of a letter address gives the address |
| ColumnResolver.NormalizeLettersIdentity | build.py:17 | strip and upper leave an address of capitals unchanged |
| ColumnResolver.ColumnLettersRoundTrip | build.py:13-23 | every column position has a letter address that reads back as that position |
| ColumnResolver.ColIndexRoundTrip | build.py:13-23 | a valid address is the canonical address of the position it reads as |
| ColumnResolver.ColIndexInjective | build.py:13-23 | two valid addresses with the same index are the same after strip and upper |
| ColumnResolver.ColIndexExamples | build.py:14-16 | 'A' is 0, 'Z' is 25, 'AA' is 26 |
| ColumnResolver.ColIndexOfEmpty | build.py:18-23 | an empty address reads as -1 |
| ColumnResolver.ColIndexRejectsDigit | build.py:19-21 | an address with a digit raises the invalid-column error |
| ColumnResolver.IndexOf | build.py:38 | list.index returns the first position holding the element |
| ColumnResolver.AnchorOffset | build.py:25-39 | fails exactly when the anchor is missing from either header list, reporting which; otherwise the offset takes the anchor's first CSV position to its first workbook position |
| ColumnResolver.ColnameFromLetter | build.py:41-49 | succeeds exactly when the shifted index is within the CSV columns, and then names that column; bad letters and out-of-range indices fail with their own errors |
| ColumnResolver.ColumnLettersResolve | build.py:41-49 | the canonical letters of an in-range workbook column resolve to the CSV column `offset` places before it |
| ColumnResolver.AnchorLetterResolves | build.py:38-49 | the letter at the anchor's workbook position resolves to the anchor itself |
| ColumnResolver.ResolveLetters | build.py:51-58 | all column names in order when every letter resolves; otherwise the error of the first letter that does not |
| Metrics.SumValues | build.py:122 | SQL '+' is NULL exactly when one of its terms is NULL |
| Metrics.ResolveLeaves | build.py:114-157 | every leaf's column list in order when all resolve; otherwise the error of the first leaf that fails |
| Metrics.CatalogLayered | build.py:114-173 | parts of a composite and operands of a ratio sit on a strictly lower layer, so the catalog is acyclic; every leaf has its own entry |
| Metrics.LeafIndexIsOwnEntry | build.py:74-109 | each leaf metric points at its own letters entry |
| Metrics.LeafValue | build.py:51-58 | a leaf metric is the sum of the coalesced totals of its resolved columns |
| Metrics.SumNeverNull | build.py:57 | an expression without a division is never NULL, because COALESCE turns missing cells into 0 |
| Metrics.OnlyRatiosCanBeNull | build.py:171-173 | only the three ratios can be NULL |
| Metrics.EvalAdditive | build.py:57 | a sum expression over a group split in two is the sum over the two parts |
| Metrics.MetricAdditive | build.py:220-260 | every metric but the ratios adds up over a split group |
| Metrics.DefNoRatio | build.py:220-260 | every metric other than the three ratios is built from sums alone |
| Metrics.NameInjective | build.py:178-218 | no two metrics of METRIC_ORDER share a text, so the `metric` column identifies the metric |
| Metrics.CompositeIsSumOfParts | build.py:122-168 | each composite, Gasto total included, equals the sum of the values of its listed parts |
| Metrics.RatioValue | build.py:171-173 | a ratio is NULL exactly when its denominator is 0, and otherwise is numerator divided by denominator |
| Metrics.SiciIsZero | build.py:134 | "Gastos secundarios (SICI)" has no letters and is 0 for every group |
| Monthly.Distinct | build.py:315 | the groups are the distinct keys, each once |
| Monthly.BuildMonthly | build.py:301-319 | the loop builds the UNION ALL of one SELECT per metric of METRIC_ORDER, in order: metrics times groups rows |
| Monthly.MonthlyViewLength | build.py:301-318 | the union holds one row per metric and group |
| Monthly.KeyListMembers | build.py:314 | a key appears exactly when some row with a year and a month number carries it |
| Monthly.GroupMembers | build.py:313-315 | a group holds exactly the eligible rows with its key |
| Monthly.GroupsNonEmpty | build.py:313-315 | no group of the monthly view is empty |
| Monthly.MonthlyViewRows | build.py:302-316 | each monthly row is its metric's value over its group, and every metric-group pair has its row |
| Monthly.MonthSpellingSplitsGroups | build.py:310-315 | two spellings of the same month make two groups with the same month number |
| Monthly.CleanMonths | build.py:263-294 | every month number of the clean view lies in 1..12 |
| Monthly.GroupsMonths | build.py:314-315 | every group's month lies in 1..12 when the rows' months do |
| Rollup.SqlPlus | build.py:340 | combining partial SUMs skips NULLs and is NULL only when both are |
| Rollup.SqlSum | build.py:340 | SUM is NULL exactly when every value is NULL |
| Rollup.RangeSplit | build.py:340 | the SUM over a month range is the combination of the SUMs over its two halves |
| Rollup.BucketRange | build.py:331-371 | every month 1..12 falls in a valid quarter, half or year, and period b is exactly its month range |
| Rollup.BucketValuesAreRange | build.py:331-371 | a group of a period view sums exactly its series' monthly rows whose months are in the period |
| Rollup.QuarterIsSumOfMonths | build.py:331-343 | a quarter's value is the SUM of its three months |
| Rollup.HalfIsSumOfQuarters | build.py:345-357 | a half-year's value is the SUM of its two quarters |
| Rollup.YearIsSumOfHalves | build.py:359-371 | the full year's value is the SUM of its two halves |
| Rollup.RollKeysHaveRows | build.py:338-342 | a period group exists only where monthly rows exist |
| Rollup.QuarterAsWrittenMisplacesMonths | build.py:335 | with floating division and a rounding cast, March is in Q2 and December in Q5 |
| Rollup.QuarterOfMonths | build.py:335 | ((month - 1) div 3) + 1 puts each month 1..12 in quarter 1..4 that spans it |
| Rollup.FrameIsRange | build.py:381-385 | the window frame of a row is its series' months 1..m |
| Rollup.YtdIsRunningTotal | build.py:373-387 | the YTD value at month m is the SUM of months 1..m of its series |
| Rollup.YtdDecemberIsFullYear | build.py:359-387 | the YTD value of December equals the full-year value |
| Rollup.FourDigitYear | build.py:326 | a year below 10000 prints as exactly four digits |
| Rollup.MonthLabelInjective | build.py:326 | a YYYY-MM label reads back as its year and month |
| Rollup.PeriodLabelInjective | build.py:335-349 | a YYYY-Qn or YYYY-Hn label reads back as its year and period |
| Rollup.MonthlyFacts | build.py:322-329 | monthly_labeled has one row per monthly row |
| Rollup.PeriodFacts | build.py:331-371 | a Q, H or FY view has one row per group |
| Rollup.YtdFacts | build.py:373-387 | the ytd view has one row per monthly row |
| Rollup.RollKeysValid | build.py:335-357 | every group of a Q, H or FY view is a valid period: quarter 1..4, half 1..2, or the single full year |
| Rollup.PeriodFactsUnique | build.py:331-371 | no two rows of a quarterly, halfyear or fullyear view agree on period label, scenario, year, region and metric, for monthly rows with months 1..12 (Rollup.MonthlyViewMonths) |
| Rollup.BuildSummary | build.py:62-395 | fails with the anchor error, or with the first leaf letter that does not resolve; otherwise the five views of the monthly view of the cleaned input |
| Rollup.MonthlyViewMonths | build.py:263-314 | every monthly row built from cleaned input has a month in 1..12 |
| Dashboard.MonthToNum | app.py:9-13 | MONTH_TO_NUM is defined exactly on the twelve names and returns the name's position plus one |
| Dashboard.MonthsDistinct | app.py:9-12 | the twelve selector names are pairwise different |
| Dashboard.MonthToNumOfName | app.py:9-13 | the i-th name maps to month i + 1 |
| Dashboard.BuildPeriodLabel | pages/2_Bridge.py:41-50 | M and YTD need a month name and carry its number; Q and H need a number and carry none; FY always succeeds |
| Dashboard.BaseYearText | app.py:182-190 | consistency check: the literal "2025" of app.py is the four-digit rendering of the base year |
| Dashboard.RealLabelIsBaseYearLabel | pages/2_Bridge.py:138-146 | the comparison label is the label the same selection gives in 2025 |
| Dashboard.MonthSelectionMatchesBuild | pages/2_Bridge.py:43-45 | selecting the i-th month gives the YYYY-MM label build.py wrote for month i + 1 |
| Dashboard.MonthLabelSelectsMonth | app.py:194-206 | filtering monthly facts by the selected label keeps exactly the rows of that year and month |
| Dashboard.NormalizeRegionIdempotent | pages/2_Bridge.py:73-83 | normalising a region twice changes nothing |
| Dashboard.NormalizedTotal | app.py:94-101 | consistency check: the default region "Total logística" normalises to itself |
| Dashboard.LoadRows | pages/2_Bridge.py:54-85 | loading never adds rows |
| Dashboard.LoadRowsMembers | app.py:73-105 | a loaded row is exactly an input row of 2025 or 2026 with its region normalised, or set to the default when no region column is read |
| Dashboard.LoadRowsProperties | app.py:80-103 | loaded rows are of 2025 or 2026 with normalised regions, all "Total logística" without a region column |
| Dashboard.Select | app.py:132 | the elements of xs that are, or are not, in ys |
| Dashboard.SelectSorted | app.py:132 | filtering a sorted list keeps it sorted |
| Dashboard.RegionOptionsProperties | app.py:128-132 | the options are exactly the regions found, each once: preferred first in preferred order, then the rest sorted |
| Dashboard.DefaultRegionIndexIsFirst | app.py:133 | the default index is always 0, and "Total logística" heads the options whenever it is found |
| Dashboard.Slice | app.py:194-206 | the slice holds exactly the rows of that period type, label, region and scenario set |
| Dashboard.MetricSumAppend | pages/2_Bridge.py:88-90 | metric_sum adds up over any split of the slice |
| Dashboard.MetricSumOnlyCounted | pages/2_Bridge.py:88-90 | without a matching row with a value, metric_sum is 0.0 |
| Bridge.BridgeMetricNames | pages/2_Bridge.py:28-33 | consistency check: the total and dedicated-cost names the page reads are the names the build writes |
| Bridge.BridgeMoreMetricNames | pages/2_Bridge.py:34-38 | consistency check: so are the third-party, trailer, other, backhaul and program names |
| Bridge.BridgeMetricsAreBuilt | pages/2_Bridge.py:28-38 | consistency check: every metric the bridge reads is in the build's METRIC_ORDER |
| Bridge.PrefixAll | pages/2_Bridge.py:194-218 | the running sum after all six drivers is sum_drivers |
| Bridge.Reconcile | pages/2_Bridge.py:193-201 | eps is the unexplained part of forecast minus plan; only Otros moves, by eps; afterwards plan plus drivers equals forecast exactly; drivers that already close give eps 0 and come back unchanged |
| Bridge.GroupValuesAreSumsOfParts | build.py:122-168 | one group's metric values respect every composite sum of the catalog |
| Bridge.GastoTotalExpanded | build.py:160-168 | Gasto total is the sum of its seven sub-totals |
| Bridge.GastoDedicadoExpanded | build.py:122 | Gasto dedicado is the sum of its four leaves |
| Bridge.TotalOverDrivers | pages/2_Bridge.py:167-188 | within a scenario, the total equals the sum of the metrics the drivers read plus Devoluciones |
| Bridge.ResidualIsDevoluciones | pages/2_Bridge.py:190-198 | the eps folded into Otros is the forecast-minus-plan change of Devoluciones |
| Bridge.OtrosBarAbsorbsDevoluciones | pages/2_Bridge.py:186-198 | the closed Otros driver is the change in "Otros variables" plus the change in Devoluciones |
| Bridge.Waterfall | pages/2_Bridge.py:204-221 | nine rows: last year's and the plan's totals, six driver bars each running from the plan plus the earlier drivers to the plan plus its own, and the forecast total |
| Bridge.WaterfallChains | pages/2_Bridge.py:210-218 | each driver bar starts where the previous one ended, the first on the plan and the last ending on the plan plus all drivers |
| Bridge.BridgePage | pages/2_Bridge.py:136-221 | a bad selection and an empty main slice fail; otherwise the labels, and a waterfall over the main slice's plan and forecast totals and last year's total whose six bars are the slice's forecast-minus-plan driver deltas with the remainder folded into Otros, closing on the forecast |
| Summary.AppOrderCoversCatalog | app.py:15-54 | every metric the build writes has a line on the summary page |
| Summary.AppOnlyMetricsAreNotBuilt | app.py:20-50 | the six page-only lines are not the name of any built metric |
| Summary.ZeroColumn | app.py:110 | a column of zeros of the index's length |
| Summary.Diff | app.py:113-116 | the element-wise difference of two columns |
| Summary.SummaryFrame.AddMissingColumns | app.py:108-110 | each missing scenario column is added as zeros; existing columns and the index are untouched |
| Summary.SummaryFrame.EnsureCols | app.py:107-120 | the three scenario columns exist, both differences are recomputed, others are kept, and the five columns come out in order |
| Summary.PivotColumn | app.py:218-222 | one value per line of the page's metric list |
| Summary.PivotColumns | app.py:218-221 | a scenario column exists exactly when the slice has a row of that scenario |
| Summary.AbsentScenarioIsZero | app.py:218-223 | a scenario absent from the slice sums to the zero column ensure_cols would add |
| Summary.MissingMetricShowsZero | app.py:220-222 | a metric without rows shows zeros throughout |
| Summary.AppOnlyRowsAreZero | app.py:218-223 | on build output, the page-only lines are all zero |
| Summary.LinesFrom | app.py:218-225 | the table's lines are the expected lines of the page's metrics, in order |
| Summary.Summarize | app.py:218-225 | the lines are each metric's actual, plan and forecast sums and the two differences |
| Summary.SummaryPage | app.py:124-225 | a bad selection and an empty combined slice fail; otherwise the lines of the slice of comparison-year actuals plus main-year plan and forecast |
| Upload.SplitLines | pages/1_Cargar_base.py:32 | no line contains a line break |
| Upload.SplitTerminated | pages/1_Cargar_base.py:32 | splitting lines joined with line breaks gives them back |
| Upload.FirstHeader | pages/1_Cargar_base.py:33-37 | the first header-looking line from i on, or 0 when there is none |
| Upload.HeaderLine | pages/1_Cargar_base.py:31-37 | the first of the first 60 lines naming all four headers, or 0 when none does |
| Upload.HeaderLineIgnoresTail | pages/1_Cargar_base.py:33 | lines after the scan window never change the answer |
| Upload.AnchorRow | pages/1_Cargar_base.py:21-29 | row r - 1 for the first row r holding the anchor cell, or 0 when no row does |
| Upload.FindHeaderRowExcel | pages/1_Cargar_base.py:15-29 | the nested scan returns the anchor row, within 0..scan_rows - 1 |
| Upload.StripColumn | pages/1_Cargar_base.py:57 | each cell stripped, a missing one becoming "nan" |
| Upload.Cleanup | pages/1_Cargar_base.py:56-59 | "Tipo folio" and "Mes" are stripped when present; other columns are untouched |
| Upload.StripIdempotent | pages/1_Cargar_base.py:57 | stripping twice changes nothing |
| Upload.CleanupIdempotent | pages/1_Cargar_base.py:56-59 | cleaning an already cleaned table changes nothing |
| Upload.CleanupFillsTipoFolio | pages/1_Cargar_base.py:56-57 | after the cleanup, no "Tipo folio" cell is missing |
| Upload.CleanKeepsTextFolios | build.py:297 | with every "Tipo folio" filled, the clean view drops no row |
| Upload.NanIsOtro | build.py:287-291 | the text "nan" is classified OTRO |

## Left out

- File and library I/O: reading the workbook, CSV and parquet files, writing the CSV and parquet outputs, `runpy`, and the `last_run.json` metadata. Header lists, rows and sheets are parameters instead.
- DuckDB's `read_csv_auto` type inference and the SQL text itself. Only what the views compute is modelled. TRY_CAST is an already-parsed `Option<real>` per cell and an `Option<int>` for "Periodo".
- The Streamlit interface: selectboxes, warnings, `st.stop`, caching, page links, dataframe formatting and the Altair chart. A selection is a parameter, and stopping the page is an error result.
- Floating point: values are `real`, so the bridge's exact closure is proved in real arithmetic only.
- `prepare_input.py` and `fix_dummy.py`: they generate and patch random demo data and are not part of this model.
- Text.Lower: maps ASCII letters only; DuckDB's lower() on other letters is not modelled.
- Text.Upper: maps ASCII letters only; Python's str.upper() on other letters is not modelled.
- DuckDB's own trim implementation is not part of this model. Its one-argument trim() is modelled as removing the Unicode space separators (category Zs, the no-break space included), while `str.strip()` removes every character `str.isspace()` accepts.
- Upload.FindHeaderRowExcel: the workbook is a grid of optional cell texts. Opening it, choosing the "Base" sheet or the active one, and converting cell values to text are not modelled.
- Upload.Cleanup: a cell's `astype(str)` text is taken as given; only the missing cell's "nan" is modelled.
- Rollup.YtdIsRunningTotal: proved only when a series has a single monthly row per month. With two "Mes" spellings of one month, DuckDB orders the tied rows in an unspecified way, and the model takes them in row order.
- Rollup.FrameIsRange: carries the same single-row-per-month assumption.
- Rollup.YtdDecemberIsFullYear: carries the same single-row-per-month assumption.
- Rollup.MonthLabelInjective: holds for years 0..9999 only; printf writes longer years with more digits.
- Rollup.MonthlyFacts: the contract states the row count; the values are stated by Rollup.YtdIsRunningTotal and the period lemmas.
- Rollup.PeriodFacts: the contract states the row count.
- Rollup.YtdFacts: the contract states the row count.
- Classify.Clean: the contract bounds the length; Classify.CleanMembers states the content.
- Dashboard.LoadRows: the contract bounds the length; Dashboard.LoadRowsMembers states the content.
- The fact table's row order within a view is the order of first appearance of each group. DuckDB gives no order for GROUP BY output, and the pages never depend on it.
- pandas' `pivot_table` and `reindex` are modelled by their result: a per-scenario column of metric sums over the page's metric list, with 0 where the slice has no row.
- The bridge's link between the plan and forecast totals and the catalog's sums is a precondition of Bridge.ResidualIsDevoluciones, not derived from the fact table.

## Findings

| source | as written | input that shows it | evidently intended | confidence | as-written member | corrected member |
|---|---|---|---|---|---|---|
| build.py:335 | `((month_num-1)/3)::INT + 1`: DuckDB divides two integers with `/` in floating point, and the INT cast rounds to nearest | month_num = 3 gives round(0.667) + 1 = 2, so March lands in Q2; month_num = 12 gives round(3.667) + 1 = 5, a fifth quarter | `((month_num - 1) // 3) + 1`, quarters 1..4 of three months each | not executed; depends on DuckDB's `/` on integers dividing in floating point | Rollup.QuarterAsWrittenMisplacesMonths | Rollup.QuarterOfMonths |
