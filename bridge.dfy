/** The Bridge page: the forecast-versus-plan cost walk for one period and region. It reads
    the fact table, sums the plan and forecast values of a handful of metrics, turns their
    differences into six drivers, folds any remainder into "Otros" so that the walk closes
    exactly on the forecast, and lays the steps out as a waterfall. */
module Bridge {
  import opened Wrappers
  import opened Classify
  import opened Metrics
  import opened Rollup
  import opened Dashboard

  const TOTAL_METRIC: string := "Gasto total + BKHL + FP + PA"
  const MET_TRACTORES: string := "Tractores (fijos)"
  const MET_VAR_DED: string := "Variable dedicado"
  const MET_DIESEL_DED: string := "Diesel dedicado"
  const MET_CASETAS: string := "Casetas"
  const MET_REM_QUINT: string := "Remolques y quintas"
  const MET_PXV: string := "Gasto tercero"
  const MET_OTROS: string := "Otros variables"
  const MET_NETO_BKHL: string := "Neto BKHL"
  const MET_FP_PA: string := "Freight program & PA"

  /** The total and the fixed and dedicated drivers the page reads carry the names the
      build writes for them. */
  lemma BridgeMetricNames()
    ensures TOTAL_METRIC == Name(GastoTotal) && MET_TRACTORES == Name(Tractores)
    ensures MET_VAR_DED == Name(VariableDedicado) && MET_DIESEL_DED == Name(DieselDedicado)
    ensures MET_CASETAS == Name(Casetas)
  {
  }

  /** So do the third-party, trailer, other, backhaul and program metrics it reads. */
  lemma BridgeMoreMetricNames()
    ensures MET_REM_QUINT == Name(RemolquesYQuintas)
    ensures MET_PXV == Name(GastoTercero) && MET_OTROS == Name(OtrosVariables)
    ensures MET_NETO_BKHL == Name(NetoBkhl) && MET_FP_PA == Name(FreightProgramPA)
  {
  }

  /** The metrics the bridge reads are all written by the build. */
  lemma BridgeMetricsAreBuilt()
    ensures GastoTotal in METRIC_ORDER && Tractores in METRIC_ORDER && VariableDedicado in METRIC_ORDER
    ensures DieselDedicado in METRIC_ORDER && Casetas in METRIC_ORDER && RemolquesYQuintas in METRIC_ORDER
    ensures GastoTercero in METRIC_ORDER && OtrosVariables in METRIC_ORDER && NetoBkhl in METRIC_ORDER
    ensures FreightProgramPA in METRIC_ORDER
  {
  }

  /** The main slice keeps every scenario. */
  const ALL_SCENARIOS: set<Scenario> := {BP, REAL2025, FCST, OTRO}

  /** metric_delta: forecast minus plan. */
  function MetricDelta(slice: seq<FactRow>, metric: string): real {
    MetricSum(slice, FCST, metric) - MetricSum(slice, BP, metric)
  }

  // ------------------------------------------------------------- drivers

  /** The six bars of the walk. */
  datatype Drivers = Drivers(fijos: real, variables: real, remQuintas: real, pxv: real, otros: real, iniciativas: real)

  /** The driver deltas of a slice, before the closing adjustment. */
  function DriversOf(slice: seq<FactRow>): Drivers {
    Drivers(
      MetricDelta(slice, MET_TRACTORES),
      MetricDelta(slice, MET_VAR_DED) + MetricDelta(slice, MET_DIESEL_DED) + MetricDelta(slice, MET_CASETAS),
      MetricDelta(slice, MET_REM_QUINT),
      MetricDelta(slice, MET_PXV),
      MetricDelta(slice, MET_OTROS),
      MetricDelta(slice, MET_NETO_BKHL) + MetricDelta(slice, MET_FP_PA))
  }

  /** The drivers as the waterfall lists them: name and delta, in walk order. */
  function DriverSteps(d: Drivers): seq<(string, real)> {
    [("Fijos", d.fijos), ("Variables", d.variables), ("Remolques y quintas", d.remQuintas),
     ("PxV", d.pxv), ("Otros", d.otros), ("Iniciativas ahorro", d.iniciativas)]
  }

  /** The sum of the first k driver deltas. */
  function Prefix(d: Drivers, k: nat): real
    requires k <= 6
  {
    if k == 0 then 0.0 else Prefix(d, k - 1) + DriverSteps(d)[k - 1].1
  }

  /** sum_drivers. */
  function DriverTotal(d: Drivers): real {
    d.fijos + d.variables + d.remQuintas + d.pxv + d.otros + d.iniciativas
  }

  lemma PrefixAll(d: Drivers)
    ensures Prefix(d, 6) == DriverTotal(d)
  {
    assert Prefix(d, 1) == d.fijos;
    assert Prefix(d, 2) == d.fijos + d.variables;
    assert Prefix(d, 3) == d.fijos + d.variables + d.remQuintas;
    assert Prefix(d, 4) == d.fijos + d.variables + d.remQuintas + d.pxv;
    assert Prefix(d, 5) == d.fijos + d.variables + d.remQuintas + d.pxv + d.otros;
  }

  /** The drivers after the closing step: the part of forecast minus plan the deltas leave
      unexplained is added to "Otros". */
  function Closed(d: Drivers, bpTotal: real, fcTotal: real): Drivers {
    d.(otros := d.otros + ((fcTotal - bpTotal) - DriverTotal(d)))
  }

  /** The closing step: eps, the part of forecast minus plan the drivers do not explain, is
      added to "Otros". Afterwards the plan plus the drivers is exactly the forecast, and only
      "Otros" has moved. */
  method Reconcile(d: Drivers, bpTotal: real, fcTotal: real) returns (closed: Drivers, eps: real)
    ensures eps == (fcTotal - bpTotal) - DriverTotal(d)
    ensures bpTotal + DriverTotal(closed) == fcTotal
    ensures closed.otros == d.otros + eps
    ensures closed.fijos == d.fijos && closed.variables == d.variables && closed.remQuintas == d.remQuintas
    ensures closed.pxv == d.pxv && closed.iniciativas == d.iniciativas
    ensures closed == Closed(d, bpTotal, fcTotal)
    ensures bpTotal + DriverTotal(d) == fcTotal ==> eps == 0.0 && closed == d
  {
    var deltaTotal := fcTotal - bpTotal;
    var sumDrivers := DriverTotal(d);
    eps := deltaTotal - sumDrivers;
    var otros := d.otros;
    otros := otros + eps;
    closed := d.(otros := otros);
  }

  // ------------------------------------------------------------- the residual

  /** Every composite metric of v is the sum of its parts, as the catalog defines it. */
  predicate SumsOfParts(v: Metric -> Option<real>) {
    forall m :: Parts(m) != [] ==> v(m) == Some(SumOver(Parts(m), v))
  }

  /** The values of one group of the monthly view respect the catalog's sums. */
  lemma GroupValuesAreSumsOfParts(cols: seq<seq<string>>, g: seq<CleanRecord>)
    requires |cols| == LEAF_COUNT
    ensures SumsOfParts(ValueOf(cols, g))
  {
    forall m | Parts(m) != [] ensures ValueOf(cols, g)(m) == Some(SumOver(Parts(m), ValueOf(cols, g))) {
      CompositeIsSumOfParts(cols, m, g);
    }
  }

  /** The per-metric totals of one scenario of a slice. */
  function Totals(slice: seq<FactRow>, scenario: Scenario): Metric -> Option<real> {
    m => Some(MetricSum(slice, scenario, Name(m)))
  }

  /** The value of m under v, with NULL read as 0. */
  function At(v: Metric -> Option<real>, m: Metric): real {
    if v(m).Some? then v(m).value else 0.0
  }

  /** The sum over a list, taking its last element off. */
  lemma SumOverLast(ms: seq<Metric>, v: Metric -> Option<real>)
    requires ms != []
    ensures SumOver(ms, v) == SumOver(ms[..|ms| - 1], v) + At(v, ms[|ms| - 1])
  {
  }

  /** Gasto total spelled out over its seven sub-totals. */
  lemma GastoTotalExpanded(v: Metric -> Option<real>)
    requires v(GastoTotal) == Some(SumOver(SUBTOTALS, v))
    ensures At(v, GastoTotal) == At(v, GastoDedicado) + At(v, GastoTercero) + At(v, RemolquesYQuintas) +
      At(v, OtrosVariables) + At(v, NetoBkhl) + At(v, Devoluciones) + At(v, FreightProgramPA)
  {
    var s7 := SUBTOTALS;
    var s6 := s7[..6];
    var s5 := s6[..5];
    var s4 := s5[..4];
    var s3 := s4[..3];
    var s2 := s3[..2];
    var s1 := s2[..1];
    SumOverLast(s7, v);
    SumOverLast(s6, v);
    SumOverLast(s5, v);
    SumOverLast(s4, v);
    SumOverLast(s3, v);
    SumOverLast(s2, v);
    SumOverLast(s1, v);
    assert s6 == [GastoDedicado, GastoTercero, RemolquesYQuintas, OtrosVariables, NetoBkhl, Devoluciones];
    assert s5 == [GastoDedicado, GastoTercero, RemolquesYQuintas, OtrosVariables, NetoBkhl];
    assert s4 == [GastoDedicado, GastoTercero, RemolquesYQuintas, OtrosVariables];
    assert s3 == [GastoDedicado, GastoTercero, RemolquesYQuintas];
    assert s2 == [GastoDedicado, GastoTercero];
    assert s1 == [GastoDedicado] && s1[..0] == [];
  }

  /** Gasto dedicado spelled out over its four leaves. */
  lemma GastoDedicadoExpanded(v: Metric -> Option<real>)
    requires v(GastoDedicado) == Some(SumOver(Parts(GastoDedicado), v))
    ensures At(v, GastoDedicado) == At(v, Tractores) + At(v, VariableDedicado) + At(v, DieselDedicado) + At(v, Casetas)
  {
    var s4 := Parts(GastoDedicado);
    var s3 := s4[..3];
    var s2 := s3[..2];
    var s1 := s2[..1];
    SumOverLast(s4, v);
    SumOverLast(s3, v);
    SumOverLast(s2, v);
    SumOverLast(s1, v);
    assert s1[..0] == [];
  }

  /** The totals of a slice, read through At, are its metric sums. */
  lemma TotalsAt(slice: seq<FactRow>, scenario: Scenario, m: Metric)
    ensures At(Totals(slice, scenario), m) == MetricSum(slice, scenario, Name(m))
  {
  }

  /** Within one scenario, the total the page reads is the sum of what its drivers read
      plus Devoluciones. */
  lemma TotalOverDrivers(slice: seq<FactRow>, sc: Scenario)
    requires SumsOfParts(Totals(slice, sc))
    ensures MetricSum(slice, sc, TOTAL_METRIC) ==
      MetricSum(slice, sc, MET_TRACTORES) + MetricSum(slice, sc, MET_VAR_DED) + MetricSum(slice, sc, MET_DIESEL_DED) +
      MetricSum(slice, sc, MET_CASETAS) + MetricSum(slice, sc, MET_PXV) + MetricSum(slice, sc, MET_REM_QUINT) +
      MetricSum(slice, sc, MET_OTROS) + MetricSum(slice, sc, MET_NETO_BKHL) + MetricSum(slice, sc, Name(Devoluciones)) +
      MetricSum(slice, sc, MET_FP_PA)
  {
    var v := Totals(slice, sc);
    assert Parts(GastoTotal) == SUBTOTALS && Parts(GastoDedicado) != [];
    GastoTotalExpanded(v);
    GastoDedicadoExpanded(v);
    BridgeMetricNames();
    BridgeMoreMetricNames();
    TotalsAt(slice, sc, GastoTotal);
    TotalsAt(slice, sc, GastoDedicado);
    TotalsAt(slice, sc, GastoTercero);
    TotalsAt(slice, sc, RemolquesYQuintas);
    TotalsAt(slice, sc, OtrosVariables);
    TotalsAt(slice, sc, NetoBkhl);
    TotalsAt(slice, sc, Devoluciones);
    TotalsAt(slice, sc, FreightProgramPA);
    TotalsAt(slice, sc, Tractores);
    TotalsAt(slice, sc, VariableDedicado);
    TotalsAt(slice, sc, DieselDedicado);
    TotalsAt(slice, sc, Casetas);
  }

  /** When plan and forecast totals of the slice respect the catalog's sums, the drivers
      account for every sub-total of Gasto total but "Devoluciones": the amount the closing
      step folds into "Otros" is exactly the forecast-minus-plan change in Devoluciones. */
  lemma ResidualIsDevoluciones(slice: seq<FactRow>)
    requires SumsOfParts(Totals(slice, BP)) && SumsOfParts(Totals(slice, FCST))
    ensures (MetricSum(slice, FCST, TOTAL_METRIC) - MetricSum(slice, BP, TOTAL_METRIC)) - DriverTotal(DriversOf(slice))
      == MetricDelta(slice, Name(Devoluciones))
  {
    TotalOverDrivers(slice, BP);
    TotalOverDrivers(slice, FCST);
  }

  /** So the "Otros" bar of the closed walk is the forecast-minus-plan change in "Otros
      variables" plus the change in "Devoluciones". */
  lemma OtrosBarAbsorbsDevoluciones(slice: seq<FactRow>)
    requires SumsOfParts(Totals(slice, BP)) && SumsOfParts(Totals(slice, FCST))
    ensures Closed(DriversOf(slice), MetricSum(slice, BP, TOTAL_METRIC), MetricSum(slice, FCST, TOTAL_METRIC)).otros
      == MetricDelta(slice, MET_OTROS) + MetricDelta(slice, Name(Devoluciones))
  {
    ResidualIsDevoluciones(slice);
  }

  // ------------------------------------------------------------- the waterfall

  datatype StepKind = Total | Delta

  /** One bar of the waterfall chart. */
  datatype Step = Step(name: string, start: real, end: real, delta: real, kind: StepKind)

  /** The nine waterfall rows: last year's and the plan's totals, one floating bar per
      driver running from the plan plus the drivers before it to the plan plus its own delta,
      and the forecast total. */
  predicate IsWaterfall(rows: seq<Step>, lastYear: real, bpTotal: real, fcTotal: real, d: Drivers) {
    |rows| == 9 &&
    rows[0] == Step("Last year (Real 2025)", 0.0, lastYear, 0.0, Total) &&
    rows[1] == Step("Business plan (BP 2026)", 0.0, bpTotal, 0.0, Total) &&
    (forall k :: 2 <= k < 8 ==>
      rows[k] == Step(DriverSteps(d)[k - 2].0, bpTotal + Prefix(d, k - 2), bpTotal + Prefix(d, k - 1), DriverSteps(d)[k - 2].1, Delta)) &&
    rows[8] == Step("Gasto actual (Forecast)", 0.0, fcTotal, 0.0, Total)
  }

  /** The waterfall rows. */
  method Waterfall(lastYear: real, bpTotal: real, fcTotal: real, d: Drivers) returns (rows: seq<Step>)
    ensures IsWaterfall(rows, lastYear, bpTotal, fcTotal, d)
  {
    rows := [Step("Last year (Real 2025)", 0.0, lastYear, 0.0, Total)];
    rows := rows + [Step("Business plan (BP 2026)", 0.0, bpTotal, 0.0, Total)];
    var cum := bpTotal;
    var steps := DriverSteps(d);
    for k := 0 to 6
      invariant |rows| == k + 2
      invariant cum == bpTotal + Prefix(d, k)
      invariant rows[0] == Step("Last year (Real 2025)", 0.0, lastYear, 0.0, Total)
      invariant rows[1] == Step("Business plan (BP 2026)", 0.0, bpTotal, 0.0, Total)
      invariant forall j :: 2 <= j < k + 2 ==>
        rows[j] == Step(steps[j - 2].0, bpTotal + Prefix(d, j - 2), bpTotal + Prefix(d, j - 1), steps[j - 2].1, Delta)
    {
      var (name, dv) := steps[k];
      rows := rows + [Step(name, cum, cum + dv, dv, Delta)];
      cum := cum + dv;
    }
    rows := rows + [Step("Gasto actual (Forecast)", 0.0, fcTotal, 0.0, Total)];
  }

  /** In a waterfall every driver bar starts where the previous one ended: the first on the
      plan's total, the last ending on the plan plus all the drivers. */
  lemma WaterfallChains(rows: seq<Step>, lastYear: real, bpTotal: real, fcTotal: real, d: Drivers)
    requires IsWaterfall(rows, lastYear, bpTotal, fcTotal, d)
    ensures forall k :: 2 <= k < 7 ==> rows[k + 1].start == rows[k].end
    ensures rows[2].start == bpTotal && rows[7].end == bpTotal + DriverTotal(d)
  {
    PrefixAll(d);
    assert rows[2].start == bpTotal + Prefix(d, 0);
    assert rows[7].end == bpTotal + Prefix(d, 6);
    forall k | 2 <= k < 7 ensures rows[k + 1].start == rows[k].end {
      assert rows[k + 1].start == bpTotal + Prefix(d, k - 1);
    }
  }

  // ------------------------------------------------------------- the page

  datatype BridgeError =
    | BadSelection   // the selector holds a value build_period_label cannot read
    | NoData         // no rows for the period, label and region: the page stops

  datatype BridgeView = BridgeView(mainLabel: string, realLabel: string, steps: seq<Step>)

  /** The page from the loaded table to the waterfall rows. The plan and forecast totals are
      read from the selected period of the selected year, last year's total from the same
      period of 2025. The six bars are the forecast-minus-plan deltas of the driver metrics of
      that slice, with the closing remainder folded into "Otros", so the walk ends on the
      forecast total. */
  method BridgePage(df: seq<FactRow>, regionColumn: RegionColumn, pt: PeriodType, year: int, sel: Selector, region: string)
    returns (r: Result<BridgeView, BridgeError>)
    ensures BuildPeriodLabel(pt, year, sel).None? ==> r == Err(BadSelection)
    ensures BuildPeriodLabel(pt, year, sel).Some? ==>
      var p := BuildPeriodLabel(pt, year, sel).value;
      var data := LoadRows(df, BridgeReadsRegion(regionColumn));
      var main := Slice(data, pt, p.periodLabel, region, ALL_SCENARIOS);
      (r.Err? <==> main == []) &&
      (r.Err? ==> r.error == NoData) &&
      (r.Ok? ==>
        var realSlice := Slice(data, pt, r.value.realLabel, region, {REAL2025});
        var bp := MetricSum(main, BP, TOTAL_METRIC);
        var fc := MetricSum(main, FCST, TOTAL_METRIC);
        r.value.mainLabel == p.periodLabel &&
        Some(r.value.realLabel) == RealLabel(pt, p.month, sel) &&
        IsWaterfall(r.value.steps, MetricSum(realSlice, REAL2025, TOTAL_METRIC), bp, fc, Closed(DriversOf(main), bp, fc)) &&
        r.value.steps[7].end == fc)
  {
    var data := LoadRows(df, BridgeReadsRegion(regionColumn));
    var sel' := BuildPeriodLabel(pt, year, sel);
    if sel'.None? {
      return Err(BadSelection);
    }
    var p := sel'.value;
    var realLabel := RealLabel(pt, p.month, sel).value;
    var main := Slice(data, pt, p.periodLabel, region, ALL_SCENARIOS);
    var realSlice := Slice(data, pt, realLabel, region, {REAL2025});
    if main == [] {
      return Err(NoData);
    }
    var lastYear := MetricSum(realSlice, REAL2025, TOTAL_METRIC);
    var bpTotal := MetricSum(main, BP, TOTAL_METRIC);
    var fcTotal := MetricSum(main, FCST, TOTAL_METRIC);
    var closed, eps := Reconcile(DriversOf(main), bpTotal, fcTotal);
    var steps := Waterfall(lastYear, bpTotal, fcTotal, closed);
    WaterfallChains(steps, lastYear, bpTotal, fcTotal, closed);
    return Ok(BridgeView(p.periodLabel, realLabel, steps));
  }
}
