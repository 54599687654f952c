/** The Summary page: for one period and region, a table with one row per metric of the
    page's own metric list and five columns: the 2025 actuals, the plan, the forecast, and
    the forecast's difference from each of the other two. */
module Summary {
  import opened Wrappers
  import opened Text
  import opened Classify
  import opened Metrics
  import opened Rollup
  import opened Dashboard

  /** The rows of the summary table, in display order. Six of them (Ocupación x remolque,
      Kilometros recorridos, Remolques embarcados, WAD, LI, Devo & LI) are not metrics the
      build writes. */
  const APP_METRIC_ORDER: seq<string> := [
    "Venta", "Volumen ocupación", "Valor de la caja (transporte)", "%venta",
    "Ocupación x remolque", "Kilometros recorridos", "Remolques embarcados", "WAD",
    "Gasto total + BKHL + FP + PA", "$/caja transportada", "Tractores (fijos)",
    "Variable dedicado", "Diesel dedicado", "Casetas", "Gasto dedicado", "$ de km tercero",
    "Diesel tercero", "Gasto tercero", "Remolques", "Quintas", "Remolques y quintas", "Ferry",
    "Aclaraciones", "Gastos secundarios (SICI)", "Desconsolidador", "Monitoreo",
    "Transferencias", "Intermodal", "Otros variables", "Gasto BKHL", "Ingreso BKHL",
    "Neto BKHL", "Devoluciones", "LI", "Devo & LI", "FP", "PA", "Freight program & PA"]

  /** The rows the page lists that no catalog metric is named after. */
  const APP_ONLY_METRICS: seq<string> :=
    ["Ocupación x remolque", "Kilometros recorridos", "Remolques embarcados", "WAD", "LI", "Devo & LI"]

  const REAL_COL: string := "Real 2025"
  const BP_COL: string := "Business Plan"
  const FC_COL: string := "Forecast actual"
  const DELTA_BP_COL: string := "Δ Forecast vs BP"
  const DELTA_REAL_COL: string := "Δ Forecast vs Real"

  /** The column order ensure_cols returns. */
  const ORDERED: seq<string> := [REAL_COL, BP_COL, FC_COL, DELTA_BP_COL, DELTA_REAL_COL]

  /** Every metric the build writes has its row in the summary: reindexing by the page's
      list drops none of them. */
  lemma AppOrderCoversCatalog(m: Metric)
    ensures Name(m) in APP_METRIC_ORDER
  {
  }

  /** The page-only rows are not the name of any catalog metric. */
  lemma AppOnlyMetricsAreNotBuilt(m: Metric)
    ensures Name(m) !in APP_ONLY_METRICS
  {
    NotFirstAppOnly(m);
    NotLastAppOnly(m);
  }

  /** No catalog metric is named after one of the first three page-only rows. */
  lemma NotFirstAppOnly(m: Metric)
    ensures Name(m) != APP_ONLY_METRICS[0] && Name(m) != APP_ONLY_METRICS[1] && Name(m) != APP_ONLY_METRICS[2]
  {
    match m case Venta => case VolumenOcupacion => case ValorCaja => case PctVenta =>
      case GastoTotal => case CostoPorCaja => case Tractores => case VariableDedicado =>
      case DieselDedicado => case Casetas => case GastoDedicado => case KmTercero =>
      case DieselTercero => case GastoTercero => case Remolques => case Quintas =>
      case RemolquesYQuintas => case Ferry => case Aclaraciones => case GastosSecundarios =>
      case Desconsolidador => case Monitoreo => case Transferencias => case Intermodal =>
      case OtrosVariables => case GastoBkhl => case IngresoBkhl => case NetoBkhl =>
      case Devoluciones => case FP => case PA => case FreightProgramPA =>
  }

  /** No catalog metric is named after one of the last three page-only rows. */
  lemma NotLastAppOnly(m: Metric)
    ensures Name(m) != APP_ONLY_METRICS[3] && Name(m) != APP_ONLY_METRICS[4] && Name(m) != APP_ONLY_METRICS[5]
  {
    match m case Venta => case VolumenOcupacion => case ValorCaja => case PctVenta =>
      case GastoTotal => case CostoPorCaja => case Tractores => case VariableDedicado =>
      case DieselDedicado => case Casetas => case GastoDedicado => case KmTercero =>
      case DieselTercero => case GastoTercero => case Remolques => case Quintas =>
      case RemolquesYQuintas => case Ferry => case Aclaraciones => case GastosSecundarios =>
      case Desconsolidador => case Monitoreo => case Transferencias => case Intermodal =>
      case OtrosVariables => case GastoBkhl => case IngresoBkhl => case NetoBkhl =>
      case Devoluciones => case FP => case PA => case FreightProgramPA =>
  }

  // ------------------------------------------------------------- columns

  datatype Column = Column(name: string, values: seq<real>)

  function ZeroColumn(n: nat): (c: seq<real>)
    ensures |c| == n && forall i :: 0 <= i < n ==> c[i] == 0.0
  {
    seq(n, _ => 0.0)
  }

  /** Element-wise a - b. */
  function Diff(a: seq<real>, b: seq<real>): (c: seq<real>)
    requires |a| == |b|
    ensures |c| == |a| && forall i :: 0 <= i < |a| ==> c[i] == a[i] - b[i]
  {
    seq(|a|, i requires 0 <= i < |a| => a[i] - b[i])
  }

  /** The summary frame: a row index of metric names and named columns of the same length. */
  class SummaryFrame {
    var index: seq<string>
    var columns: map<string, seq<real>>

    ghost predicate Valid()
      reads this
    {
      forall c :: c in columns ==> |columns[c]| == |index|
    }

    constructor (index: seq<string>, columns: map<string, seq<real>>)
      requires forall c :: c in columns ==> |columns[c]| == |index|
      ensures this.index == index && this.columns == columns && Valid()
    {
      this.index := index;
      this.columns := columns;
    }

    /** The first loop of ensure_cols: each scenario column the frame lacks is added as zeros. */
    method AddMissingColumns()
      requires Valid()
      modifies this
      ensures Valid() && index == old(index)
      ensures forall j :: 0 <= j < 3 ==>
        (ORDERED[j] in columns &&
         columns[ORDERED[j]] == (if ORDERED[j] in old(columns) then old(columns)[ORDERED[j]] else ZeroColumn(|index|)))
      ensures forall c :: c in old(columns) ==> c in columns && columns[c] == old(columns)[c]
      ensures columns.Keys == old(columns).Keys + {REAL_COL, BP_COL, FC_COL}
    {
      var base := [REAL_COL, BP_COL, FC_COL];
      for i := 0 to 3
        invariant Valid() && index == old(index)
        invariant forall j :: 0 <= j < i ==>
          (base[j] in columns &&
           columns[base[j]] == (if base[j] in old(columns) then old(columns)[base[j]] else ZeroColumn(|index|)))
        invariant forall c :: c in old(columns) ==> c in columns && columns[c] == old(columns)[c]
        invariant columns.Keys == old(columns).Keys + set j | 0 <= j < i :: base[j]
      {
        if base[i] !in columns {
          columns := columns[base[i] := ZeroColumn(|index|)];
        }
      }
      ghost var added := set j | 0 <= j < 3 :: base[j];
      assert 0 <= 0 < 3 && 0 <= 1 < 3 && 0 <= 2 < 3;
      assert base[0] in added && base[1] in added && base[2] in added;
      assert forall x :: x in added ==> x == base[0] || x == base[1] || x == base[2];
      assert added == {REAL_COL, BP_COL, FC_COL};
    }

    /** ensure_cols: add each missing scenario column as zeros, (re)compute the two
        difference columns, and return the five columns in display order. */
    method EnsureCols() returns (out: seq<Column>)
      requires Valid()
      modifies this
      ensures Valid() && index == old(index)
      ensures forall c :: c in ORDERED ==> c in columns
      ensures forall j :: 0 <= j < 3 ==>
        columns[ORDERED[j]] == (if ORDERED[j] in old(columns) then old(columns)[ORDERED[j]] else ZeroColumn(|index|))
      ensures columns[DELTA_BP_COL] == Diff(columns[FC_COL], columns[BP_COL])
      ensures columns[DELTA_REAL_COL] == Diff(columns[FC_COL], columns[REAL_COL])
      ensures forall c :: c in old(columns) && c != DELTA_BP_COL && c != DELTA_REAL_COL ==>
        c in columns && columns[c] == old(columns)[c]
      ensures columns.Keys == old(columns).Keys + {REAL_COL, BP_COL, FC_COL, DELTA_BP_COL, DELTA_REAL_COL}
      ensures |out| == 5 && forall i :: 0 <= i < 5 ==> out[i] == Column(ORDERED[i], columns[ORDERED[i]])
    {
      AddMissingColumns();
      if BP_COL in columns && FC_COL in columns {
        columns := columns[DELTA_BP_COL := Diff(columns[FC_COL], columns[BP_COL])];
      }
      if REAL_COL in columns && FC_COL in columns {
        columns := columns[DELTA_REAL_COL := Diff(columns[FC_COL], columns[REAL_COL])];
      }
      out := [];
      for i := 0 to 5
        invariant |out| == i && forall j :: 0 <= j < i ==> out[j] == Column(ORDERED[j], columns[ORDERED[j]])
      {
        if ORDERED[i] in columns {
          out := out + [Column(ORDERED[i], columns[ORDERED[i]])];
        }
      }
    }
  }

  // ------------------------------------------------------------- the pivot

  /** One scenario's column of the pivot table, reindexed by the page's metric list: the sum
      of that scenario's values for each metric, 0 where the slice has none (fillna(0)). */
  function PivotColumn(slice: seq<FactRow>, scenario: Scenario): (c: seq<real>)
    ensures |c| == |APP_METRIC_ORDER|
  {
    seq(|APP_METRIC_ORDER|, i requires 0 <= i < |APP_METRIC_ORDER| => MetricSum(slice, scenario, APP_METRIC_ORDER[i]))
  }

  predicate HasScenario(slice: seq<FactRow>, scenario: Scenario) {
    exists f :: f in slice && f.scenario == scenario
  }

  /** The pivot table's columns after the SCENARIO_LABEL rename: one per scenario present. */
  function PivotColumns(slice: seq<FactRow>): (cols: map<string, seq<real>>)
    ensures forall c :: c in cols ==> |cols[c]| == |APP_METRIC_ORDER|
    ensures REAL_COL in cols <==> HasScenario(slice, REAL2025)
    ensures BP_COL in cols <==> HasScenario(slice, BP)
    ensures FC_COL in cols <==> HasScenario(slice, FCST)
  {
    var m1: map<string, seq<real>> := if HasScenario(slice, REAL2025) then map[REAL_COL := PivotColumn(slice, REAL2025)] else map[];
    var m2 := if HasScenario(slice, BP) then m1[BP_COL := PivotColumn(slice, BP)] else m1;
    if HasScenario(slice, FCST) then m2[FC_COL := PivotColumn(slice, FCST)] else m2
  }

  /** A scenario with no rows in the slice sums to 0 for every metric: its missing pivot
      column and the zero column ensure_cols adds agree. */
  lemma AbsentScenarioIsZero(slice: seq<FactRow>, scenario: Scenario)
    requires !HasScenario(slice, scenario)
    ensures PivotColumn(slice, scenario) == ZeroColumn(|APP_METRIC_ORDER|)
  {
    forall i | 0 <= i < |APP_METRIC_ORDER|
      ensures MetricSum(slice, scenario, APP_METRIC_ORDER[i]) == 0.0
    {
      MetricSumOnlyCounted(slice, scenario, APP_METRIC_ORDER[i]);
    }
  }

  /** One line of the summary table. */
  datatype SummaryLine = SummaryLine(metric: string, actual: real, plan: real, forecast: real, vsPlan: real, vsActual: real)

  /** What the line of a metric shows: each scenario's sum over the slice, and the two
      differences. */
  function ExpectedLine(slice: seq<FactRow>, metric: string): SummaryLine {
    var a := MetricSum(slice, REAL2025, metric);
    var p := MetricSum(slice, BP, metric);
    var f := MetricSum(slice, FCST, metric);
    SummaryLine(metric, a, p, f, f - p, f - a)
  }

  /** A row with no data in the slice, such as WAD or LI, shows zeros throughout. */
  lemma MissingMetricShowsZero(slice: seq<FactRow>, metric: string)
    requires forall f :: f in slice ==> f.metric != metric
    ensures ExpectedLine(slice, metric) == SummaryLine(metric, 0.0, 0.0, 0.0, 0.0, 0.0)
  {
    MetricSumOnlyCounted(slice, REAL2025, metric);
    MetricSumOnlyCounted(slice, BP, metric);
    MetricSumOnlyCounted(slice, FCST, metric);
  }

  /** The page-only rows show zeros on any slice of build output. */
  lemma AppOnlyRowsAreZero(slice: seq<FactRow>, i: nat)
    requires i < |APP_ONLY_METRICS|
    requires forall f :: f in slice ==> exists m :: f.metric == Name(m)
    ensures ExpectedLine(slice, APP_ONLY_METRICS[i]) == SummaryLine(APP_ONLY_METRICS[i], 0.0, 0.0, 0.0, 0.0, 0.0)
  {
    forall f | f in slice ensures f.metric != APP_ONLY_METRICS[i] {
      var m :| f.metric == Name(m);
      AppOnlyMetricsAreNotBuilt(m);
    }
    MissingMetricShowsZero(slice, APP_ONLY_METRICS[i]);
  }

  /** The lines of the table are the expected lines of the page's metrics, in order. */
  predicate LinesOf(slice: seq<FactRow>, lines: seq<SummaryLine>) {
    |lines| == |APP_METRIC_ORDER| &&
    forall i :: 0 <= i < |APP_METRIC_ORDER| ==> lines[i] == ExpectedLine(slice, APP_METRIC_ORDER[i])
  }

  function LinesFrom(slice: seq<FactRow>, actual: seq<real>, plan: seq<real>, forecast: seq<real>, vsPlan: seq<real>, vsActual: seq<real>): (lines: seq<SummaryLine>)
    requires actual == PivotColumn(slice, REAL2025) && plan == PivotColumn(slice, BP) && forecast == PivotColumn(slice, FCST)
    requires vsPlan == Diff(forecast, plan) && vsActual == Diff(forecast, actual)
    ensures LinesOf(slice, lines)
  {
    var n := |APP_METRIC_ORDER|;
    seq(n, i requires 0 <= i < n =>
      SummaryLine(APP_METRIC_ORDER[i], actual[i], plan[i], forecast[i], vsPlan[i], vsActual[i]))
  }

  /** pivot_table, reindex, rename, fillna(0) and ensure_cols on a non-empty slice. */
  method Summarize(slice: seq<FactRow>) returns (lines: seq<SummaryLine>)
    ensures LinesOf(slice, lines)
  {
    var frame := new SummaryFrame(APP_METRIC_ORDER, PivotColumns(slice));
    var cols := frame.EnsureCols();
    var actual := cols[0].values;
    var plan := cols[1].values;
    var forecast := cols[2].values;
    var vsPlan := cols[3].values;
    var vsActual := cols[4].values;
    assert actual == PivotColumn(slice, REAL2025) by {
      if !HasScenario(slice, REAL2025) { AbsentScenarioIsZero(slice, REAL2025); }
    }
    assert plan == PivotColumn(slice, BP) by {
      if !HasScenario(slice, BP) { AbsentScenarioIsZero(slice, BP); }
    }
    assert forecast == PivotColumn(slice, FCST) by {
      if !HasScenario(slice, FCST) { AbsentScenarioIsZero(slice, FCST); }
    }
    assert vsPlan == Diff(forecast, plan);
    assert vsActual == Diff(forecast, actual);
    lines := LinesFrom(slice, actual, plan, forecast, vsPlan, vsActual);
  }

  // ------------------------------------------------------------- the page

  datatype SummaryError =
    | BadSelection   // the selector holds a value the label code cannot read
    | NoData         // neither the plan/forecast slice nor the 2025 slice has rows

  /** The page from the loaded table to the summary lines. */
  method SummaryPage(df: seq<FactRow>, regionColumn: RegionColumn, pt: PeriodType, year: int, sel: Selector, region: string)
    returns (r: Result<seq<SummaryLine>, SummaryError>)
    ensures BuildPeriodLabel(pt, year, sel).None? ==> r == Err(BadSelection)
    ensures BuildPeriodLabel(pt, year, sel).Some? ==>
      var p := BuildPeriodLabel(pt, year, sel).value;
      var data := LoadRows(df, AppReadsRegion(regionColumn));
      var realLabel := RealLabel(pt, p.month, sel).value;
      var slice := Slice(data, pt, realLabel, region, {REAL2025}) + Slice(data, pt, p.periodLabel, region, {BP, FCST});
      (r.Err? <==> slice == []) &&
      (r.Err? ==> r.error == NoData) &&
      (r.Ok? ==> LinesOf(slice, r.value))
  {
    var data := LoadRows(df, AppReadsRegion(regionColumn));
    var sel' := BuildPeriodLabel(pt, year, sel);
    if sel'.None? {
      return Err(BadSelection);
    }
    var p := sel'.value;
    var realLabel := RealLabel(pt, p.month, sel).value;
    var slice := Slice(data, pt, realLabel, region, {REAL2025}) + Slice(data, pt, p.periodLabel, region, {BP, FCST});
    if slice == [] {
      return Err(NoData);
    }
    var lines := Summarize(slice);
    return Ok(lines);
  }
}
