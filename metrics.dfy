/** The metric catalog of build.py. Each leaf metric sums a few workbook columns over a
    group of rows, composites add leaves together, and three ratios divide with NULLIF on the
    denominator. The SQL text the source generates is modelled by what it computes: an
    expression datatype evaluated over a group of `clean` rows. */
module Metrics {
  import opened Wrappers
  import opened ColumnResolver
  import opened Classify

  /** Columns(names): SUM(COALESCE(TRY_CAST(c AS DOUBLE), 0)) added over `names` ("0" when empty).
      Add(parts): the parts joined with ' + '.
      Ratio(num, den): (num) / NULLIF((den), 0). */
  datatype Expr =
    | Columns(names: seq<string>)
    | Add(parts: seq<Expr>)
    | Ratio(num: Expr, den: Expr)

  /** COALESCE(TRY_CAST(col AS DOUBLE), 0) on one row. */
  function CellValue(r: CleanRecord, col: string): real {
    if col in r.cells && r.cells[col].Some? then r.cells[col].value else 0.0
  }

  /** SUM(COALESCE(TRY_CAST(col AS DOUBLE), 0)) over a group of rows. */
  function ColumnTotal(g: seq<CleanRecord>, col: string): real {
    if g == [] then 0.0 else ColumnTotal(g[..|g| - 1], col) + CellValue(g[|g| - 1], col)
  }

  /** The sum over `names` of their column totals. */
  function ColumnsTotal(g: seq<CleanRecord>, names: seq<string>): real {
    if names == [] then 0.0 else ColumnsTotal(g, names[..|names| - 1]) + ColumnTotal(g, names[|names| - 1])
  }

  /** SQL '+': NULL as soon as one term is NULL. */
  function SumValues(vs: seq<Option<real>>): (r: Option<real>)
    ensures r.None? <==> exists i :: 0 <= i < |vs| && vs[i].None?
  {
    if vs == [] then Some(0.0)
    else
      var init := SumValues(vs[..|vs| - 1]);
      assert forall i :: 0 <= i < |vs| - 1 ==> vs[..|vs| - 1][i] == vs[i];
      if init.None? || vs[|vs| - 1].None? then None else Some(init.value + vs[|vs| - 1].value)
  }

  /** SQL '+' with one more non-NULL term. */
  lemma SumValuesSnoc(vs: seq<Option<real>>, x: real)
    requires SumValues(vs).Some?
    ensures SumValues(vs + [Some(x)]) == Some(SumValues(vs).value + x)
  {
    assert (vs + [Some(x)])[..|vs|] == vs;
  }

  /** The value of an expression over one group of rows; None is SQL NULL. */
  function Eval(e: Expr, g: seq<CleanRecord>): Option<real>
    decreases e
  {
    match e
    case Columns(names) => Some(ColumnsTotal(g, names))
    case Add(parts) => SumValues(seq(|parts|, i requires 0 <= i < |parts| => Eval(parts[i], g)))
    case Ratio(num, den) =>
      var n := Eval(num, g);
      var d := Eval(den, g);
      if n.None? || d.None? || d.value == 0.0 then None else Some(n.value / d.value)
  }

  // ------------------------------------------------------------- the catalog

  /** The metrics build.py emits, one constructor per entry of its METRIC_ORDER. */
  datatype Metric =
    | Venta | VolumenOcupacion | ValorCaja | PctVenta | GastoTotal | CostoPorCaja
    | Tractores | VariableDedicado | DieselDedicado | Casetas | GastoDedicado
    | KmTercero | DieselTercero | GastoTercero
    | Remolques | Quintas | RemolquesYQuintas
    | Ferry | Aclaraciones | GastosSecundarios | Desconsolidador | Monitoreo
    | Transferencias | Intermodal | OtrosVariables
    | GastoBkhl | IngresoBkhl | NetoBkhl
    | Devoluciones
    | FP | PA | FreightProgramPA

  /** The text build.py writes in the `metric` column. */
  function Name(m: Metric): string {
    match m
    case Venta => "Venta"
    case VolumenOcupacion => "Volumen ocupación"
    case ValorCaja => "Valor de la caja (transporte)"
    case PctVenta => "%venta"
    case GastoTotal => "Gasto total + BKHL + FP + PA"
    case CostoPorCaja => "$/caja transportada"
    case Tractores => "Tractores (fijos)"
    case VariableDedicado => "Variable dedicado"
    case DieselDedicado => "Diesel dedicado"
    case Casetas => "Casetas"
    case GastoDedicado => "Gasto dedicado"
    case KmTercero => "$ de km tercero"
    case DieselTercero => "Diesel tercero"
    case GastoTercero => "Gasto tercero"
    case Remolques => "Remolques"
    case Quintas => "Quintas"
    case RemolquesYQuintas => "Remolques y quintas"
    case Ferry => "Ferry"
    case Aclaraciones => "Aclaraciones"
    case GastosSecundarios => "Gastos secundarios (SICI)"
    case Desconsolidador => "Desconsolidador"
    case Monitoreo => "Monitoreo"
    case Transferencias => "Transferencias"
    case Intermodal => "Intermodal"
    case OtrosVariables => "Otros variables"
    case GastoBkhl => "Gasto BKHL"
    case IngresoBkhl => "Ingreso BKHL"
    case NetoBkhl => "Neto BKHL"
    case Devoluciones => "Devoluciones"
    case FP => "FP"
    case PA => "PA"
    case FreightProgramPA => "Freight program & PA"
  }

  /** A number that tells the metric texts apart: their length, first and last character. */
  function NameKey(s: string): int {
    if s == [] then 0 else (|s| * 1000 + s[0] as int) * 1000 + s[|s| - 1] as int
  }

  /** NameKey of each metric's text, written out; no two metrics share one. */
  function NameCode(m: Metric): int {
    match m
    case Venta => 5086097
    case VolumenOcupacion => 17086110
    case ValorCaja => 29086041
    case PctVenta => 6037097
    case GastoTotal => 28071065
    case CostoPorCaja => 19036097
    case Tractores => 17084041
    case VariableDedicado => 17086111
    case DieselDedicado => 15068111
    case Casetas => 7067115
    case GastoDedicado => 14071111
    case KmTercero => 15036111
    case DieselTercero => 14068111
    case GastoTercero => 13071111
    case Remolques => 9082115
    case Quintas => 7081115
    case RemolquesYQuintas => 19082115
    case Ferry => 5070121
    case Aclaraciones => 12065115
    case GastosSecundarios => 25071041
    case Desconsolidador => 15068114
    case Monitoreo => 9077111
    case Transferencias => 14084115
    case Intermodal => 10073108
    case OtrosVariables => 15079115
    case GastoBkhl => 10071076
    case IngresoBkhl => 12073076
    case NetoBkhl => 9078076
    case Devoluciones => 12068115
    case FP => 2070080
    case PA => 2080065
    case FreightProgramPA => 20070065
  }

  lemma NameKeyIsCode(m: Metric)
    ensures NameKey(Name(m)) == NameCode(m)
  {
    if m.Venta? || m.VolumenOcupacion? || m.ValorCaja? || m.PctVenta? || m.GastoTotal? || m.CostoPorCaja? {
      NameKeyIsCode0(m);
    } else if m.Tractores? || m.VariableDedicado? || m.DieselDedicado? || m.Casetas? || m.GastoDedicado? || m.KmTercero? || m.DieselTercero? || m.GastoTercero? {
      NameKeyIsCode1(m);
    } else if m.Remolques? || m.Quintas? || m.RemolquesYQuintas? || m.Ferry? || m.Aclaraciones? || m.GastosSecundarios? || m.Desconsolidador? || m.Monitoreo? || m.Transferencias? || m.Intermodal? || m.OtrosVariables? {
      NameKeyIsCode2(m);
    } else {
      NameKeyIsCode3(m);
    }
  }

  /** NameKeyIsCode for the headline figures. */
  lemma NameKeyIsCode0(m: Metric)
    requires m.Venta? || m.VolumenOcupacion? || m.ValorCaja? || m.PctVenta? || m.GastoTotal? || m.CostoPorCaja?
    ensures NameKey(Name(m)) == NameCode(m)
  {
  }

  /** NameKeyIsCode for the dedicated and third-party transport. */
  lemma NameKeyIsCode1(m: Metric)
    requires m.Tractores? || m.VariableDedicado? || m.DieselDedicado? || m.Casetas? || m.GastoDedicado? || m.KmTercero? || m.DieselTercero? || m.GastoTercero?
    ensures NameKey(Name(m)) == NameCode(m)
  {
  }

  /** NameKeyIsCode for the trailers and other variable costs. */
  lemma NameKeyIsCode2(m: Metric)
    requires m.Remolques? || m.Quintas? || m.RemolquesYQuintas? || m.Ferry? || m.Aclaraciones? || m.GastosSecundarios? || m.Desconsolidador? || m.Monitoreo? || m.Transferencias? || m.Intermodal? || m.OtrosVariables?
    ensures NameKey(Name(m)) == NameCode(m)
  {
  }

  /** NameKeyIsCode for the backhaul, returns and programs. */
  lemma NameKeyIsCode3(m: Metric)
    requires m.GastoBkhl? || m.IngresoBkhl? || m.NetoBkhl? || m.Devoluciones? || m.FP? || m.PA? || m.FreightProgramPA?
    ensures NameKey(Name(m)) == NameCode(m)
  {
  }

  /** The metric with a given code, if any: NameCode read backwards. */
  function MetricOfCode(k: int): Option<Metric> {
    if k == 5086097 then Some(Venta)
    else if k == 17086110 then Some(VolumenOcupacion)
    else if k == 29086041 then Some(ValorCaja)
    else if k == 6037097 then Some(PctVenta)
    else if k == 28071065 then Some(GastoTotal)
    else if k == 19036097 then Some(CostoPorCaja)
    else if k == 17084041 then Some(Tractores)
    else if k == 17086111 then Some(VariableDedicado)
    else if k == 15068111 then Some(DieselDedicado)
    else if k == 7067115 then Some(Casetas)
    else if k == 14071111 then Some(GastoDedicado)
    else if k == 15036111 then Some(KmTercero)
    else if k == 14068111 then Some(DieselTercero)
    else if k == 13071111 then Some(GastoTercero)
    else if k == 9082115 then Some(Remolques)
    else if k == 7081115 then Some(Quintas)
    else if k == 19082115 then Some(RemolquesYQuintas)
    else if k == 5070121 then Some(Ferry)
    else if k == 12065115 then Some(Aclaraciones)
    else if k == 25071041 then Some(GastosSecundarios)
    else if k == 15068114 then Some(Desconsolidador)
    else if k == 9077111 then Some(Monitoreo)
    else if k == 14084115 then Some(Transferencias)
    else if k == 10073108 then Some(Intermodal)
    else if k == 15079115 then Some(OtrosVariables)
    else if k == 10071076 then Some(GastoBkhl)
    else if k == 12073076 then Some(IngresoBkhl)
    else if k == 9078076 then Some(NetoBkhl)
    else if k == 12068115 then Some(Devoluciones)
    else if k == 2070080 then Some(FP)
    else if k == 2080065 then Some(PA)
    else if k == 20070065 then Some(FreightProgramPA)
    else None
  }

  lemma MetricOfCodeInverts(m: Metric)
    ensures MetricOfCode(NameCode(m)) == Some(m)
  {
  }

  /** Two metrics never share a text. */
  lemma NameInjective(a: Metric, b: Metric)
    requires Name(a) == Name(b)
    ensures a == b
  {
    var k := NameKey(Name(a));
    NameKeyIsCode(a);
    NameKeyIsCode(b);
    MetricOfCodeInverts(a);
    MetricOfCodeInverts(b);
  }

  /** A leaf metric: the metric and the workbook letters it sums. */
  datatype Leaf = Leaf(metric: Metric, letters: seq<string>)

  /** The leaf metrics in the order build.py resolves their letters. */
  const LEAVES: seq<Leaf> := [
    Leaf(Venta, ["M"]),
    Leaf(VolumenOcupacion, ["N"]),
    Leaf(Tractores, ["EC", "ED", "ET", "EU"]),
    Leaf(VariableDedicado, ["BF", "BG"]),
    Leaf(DieselDedicado, ["AX", "BV", "CF"]),
    Leaf(Casetas, ["AV", "BT"]),
    Leaf(KmTercero, ["CA"]),
    Leaf(DieselTercero, ["CB"]),
    Leaf(Remolques, ["EK"]),
    Leaf(Quintas, ["EL"]),
    Leaf(Ferry, ["CI"]),
    Leaf(Aclaraciones, ["AZ"]),
    Leaf(GastosSecundarios, []),
    Leaf(Desconsolidador, ["CR"]),
    Leaf(Monitoreo, ["BN"]),
    Leaf(Transferencias, ["CG"]),
    Leaf(Intermodal, ["AQ"]),
    Leaf(IngresoBkhl, ["CW"]),
    Leaf(GastoBkhl, ["CX"]),
    Leaf(Devoluciones, ["AH"]),
    Leaf(FP, ["DL"]),
    Leaf(PA, ["DE"])]

  /** The number of leaves: the length of LEAVES. */
  const LEAF_COUNT: nat := 22

  /** build.py's METRIC_ORDER: the 32 metrics in emission order. */
  const METRIC_ORDER: seq<Metric> := [
    Venta, VolumenOcupacion, ValorCaja, PctVenta, GastoTotal, CostoPorCaja,
    Tractores, VariableDedicado, DieselDedicado, Casetas, GastoDedicado,
    KmTercero, DieselTercero, GastoTercero,
    Remolques, Quintas, RemolquesYQuintas,
    Ferry, Aclaraciones, GastosSecundarios, Desconsolidador, Monitoreo, Transferencias, Intermodal, OtrosVariables,
    GastoBkhl, IngresoBkhl, NetoBkhl,
    Devoluciones,
    FP, PA, FreightProgramPA]

  predicate LeafResolves(leaf: Leaf, cm: ColumnMap) {
    ResolveLetters(leaf.letters, cm).Ok?
  }

  /** Every leaf's letters resolved on their own, in order. */
  function LeafResolutions(leaves: seq<Leaf>, cm: ColumnMap): seq<Result<seq<string>, ColumnError>> {
    seq(|leaves|, i requires 0 <= i < |leaves| => ResolveLetters(leaves[i].letters, cm))
  }

  /** The sum_letters_sql calls of build.py over a list of leaves (LEAVES in the build), in
      order: the input column names of every leaf, or the failure of the first leaf that has
      a letter that does not resolve. */
  function ResolveLeaves(leaves: seq<Leaf>, cm: ColumnMap): (r: Result<seq<seq<string>>, ColumnError>)
    ensures r.Ok? <==> forall i :: 0 <= i < |leaves| ==> LeafResolves(leaves[i], cm)
    ensures r.Ok? ==> (|r.value| == |leaves| &&
      forall i :: 0 <= i < |leaves| ==> Ok(r.value[i]) == ResolveLetters(leaves[i].letters, cm))
    ensures r.Err? ==> (var k := FirstError(LeafResolutions(leaves, cm));
      k < |leaves| && Err(r.error) == ResolveLetters(leaves[k].letters, cm) &&
      forall j :: 0 <= j < k ==> LeafResolves(leaves[j], cm))
  {
    var rs := LeafResolutions(leaves, cm);
    assert forall i :: 0 <= i < |leaves| ==> rs[i] == ResolveLetters(leaves[i].letters, cm);
    AllOk(rs)
  }

  /** The position in LEAVES of a leaf metric. */
  function LeafIndex(m: Metric): Option<nat> {
    match m
    case Venta => Some(0)
    case VolumenOcupacion => Some(1)
    case Tractores => Some(2)
    case VariableDedicado => Some(3)
    case DieselDedicado => Some(4)
    case Casetas => Some(5)
    case KmTercero => Some(6)
    case DieselTercero => Some(7)
    case Remolques => Some(8)
    case Quintas => Some(9)
    case Ferry => Some(10)
    case Aclaraciones => Some(11)
    case GastosSecundarios => Some(12)
    case Desconsolidador => Some(13)
    case Monitoreo => Some(14)
    case Transferencias => Some(15)
    case Intermodal => Some(16)
    case IngresoBkhl => Some(17)
    case GastoBkhl => Some(18)
    case Devoluciones => Some(19)
    case FP => Some(20)
    case PA => Some(21)
    case _ => None
  }

  /** The three derived ratios; every other metric is a sum. */
  predicate IsRatio(m: Metric) {
    m == ValorCaja || m == PctVenta || m == CostoPorCaja
  }

  /** The sub-totals Gasto total adds up, in the order of its expression. */
  const SUBTOTALS: seq<Metric> :=
    [GastoDedicado, GastoTercero, RemolquesYQuintas, OtrosVariables, NetoBkhl, Devoluciones, FreightProgramPA]

  /** The leaves each composite adds up, in the order of its expression. */
  function Parts(m: Metric): seq<Metric> {
    match m
    case GastoDedicado => [Tractores, VariableDedicado, DieselDedicado, Casetas]
    case GastoTercero => [KmTercero, DieselTercero]
    case RemolquesYQuintas => [Remolques, Quintas]
    case OtrosVariables => [Ferry, Aclaraciones, GastosSecundarios, Desconsolidador, Monitoreo, Transferencias, Intermodal]
    case NetoBkhl => [GastoBkhl, IngresoBkhl]
    case FreightProgramPA => [FP, PA]
    case GastoTotal => SUBTOTALS
    case _ => []
  }

  /** How many layers of sums and ratios sit above the leaves. */
  function Rank(m: Metric): nat {
    match m
    case PctVenta => 3
    case CostoPorCaja => 3
    case GastoTotal => 2
    case ValorCaja => 1
    case GastoDedicado => 1
    case GastoTercero => 1
    case RemolquesYQuintas => 1
    case OtrosVariables => 1
    case NetoBkhl => 1
    case FreightProgramPA => 1
    case _ => 0
  }

  /** The numerator and denominator of the three ratios. */
  function Numerator(m: Metric): Metric {
    if m == ValorCaja then Venta else GastoTotal
  }

  function Denominator(m: Metric): Metric {
    if m == PctVenta then Venta else VolumenOcupacion
  }

  /** The catalog is layered: the parts of a composite and the operands of a ratio sit on a
      lower layer, and every leaf index is a position in LEAVES. */
  lemma CatalogLayered(m: Metric)
    ensures IsRatio(m) ==> Rank(Numerator(m)) < Rank(m) && Rank(Denominator(m)) < Rank(m) && Parts(m) == []
    ensures forall i :: 0 <= i < |Parts(m)| ==> Rank(Parts(m)[i]) < Rank(m)
    ensures LeafIndex(m).Some? ==> LeafIndex(m).value < LEAF_COUNT && Parts(m) == [] && !IsRatio(m)
  {
    // one case per metric: the parts, operands and ranks of each are literals
    match m case Venta => case VolumenOcupacion => case ValorCaja => case PctVenta =>
      case GastoTotal => case CostoPorCaja => case Tractores => case VariableDedicado =>
      case DieselDedicado => case Casetas => case GastoDedicado => case KmTercero =>
      case DieselTercero => case GastoTercero => case Remolques => case Quintas =>
      case RemolquesYQuintas => case Ferry => case Aclaraciones => case GastosSecundarios =>
      case Desconsolidador => case Monitoreo => case Transferencias => case Intermodal =>
      case OtrosVariables => case GastoBkhl => case IngresoBkhl => case NetoBkhl =>
      case Devoluciones => case FP => case PA => case FreightProgramPA =>
  }

  /** The expression build.py's METRICS dictionary holds for `m`, given the resolved column
      names of the leaves (indexed as LEAVES): a ratio with NULLIF on its denominator, the
      column sum of a leaf, or the ' + '-join of a composite's parts. */
  function Def(cols: seq<seq<string>>, m: Metric): Expr
    requires |cols| == LEAF_COUNT
    decreases Rank(m)
  {
    CatalogLayered(m);
    if IsRatio(m) then Ratio(Def(cols, Numerator(m)), Def(cols, Denominator(m)))
    else if LeafIndex(m).Some? then Columns(cols[LeafIndex(m).value])
    else Add(seq(|Parts(m)|, i requires 0 <= i < |Parts(m)| => Def(cols, Parts(m)[i])))
  }

  /** The value of metric `m` over a group of `clean` rows; None is SQL NULL. */
  function Value(cols: seq<seq<string>>, m: Metric, g: seq<CleanRecord>): Option<real>
    requires |cols| == LEAF_COUNT
  {
    Eval(Def(cols, m), g)
  }

  /** A metric's value with NULL read as 0. */
  function Val(cols: seq<seq<string>>, m: Metric, g: seq<CleanRecord>): real
    requires |cols| == LEAF_COUNT
  {
    var v := Value(cols, m, g);
    if v.Some? then v.value else 0.0
  }

  /** The metric values of one group, as a function of the metric. */
  function ValueOf(cols: seq<seq<string>>, g: seq<CleanRecord>): Metric -> Option<real> {
    m => if |cols| == LEAF_COUNT then Value(cols, m, g) else None
  }

  /** The sum of f over a list of metrics, NULL read as 0. */
  function SumOver(ms: seq<Metric>, f: Metric -> Option<real>): real {
    if ms == [] then 0.0
    else SumOver(ms[..|ms| - 1], f) + (var v := f(ms[|ms| - 1]); if v.Some? then v.value else 0.0)
  }

  /** SQL '+' over terms that are all present is their sum. */
  lemma {:induction false} SumValuesOver(ms: seq<Metric>, f: Metric -> Option<real>)
    requires forall i :: 0 <= i < |ms| ==> f(ms[i]).Some?
    ensures SumValues(seq(|ms|, i requires 0 <= i < |ms| => f(ms[i]))) == Some(SumOver(ms, f))
  {
    if ms != [] {
      var k := |ms| - 1;
      var vs := seq(|ms|, i requires 0 <= i < |ms| => f(ms[i]));
      var pre := seq(k, i requires 0 <= i < k => f(ms[..k][i]));
      SumValuesOver(ms[..k], f);
      assert vs == pre + [Some(f(ms[k]).value)];
      SumValuesSnoc(pre, f(ms[k]).value);
    }
  }

  // ------------------------------------------------------------- sums never NULL, and add up

  /** Expressions without a division: sums of column totals. */
  predicate NoRatio(e: Expr)
    decreases e
  {
    match e
    case Columns(_) => true
    case Add(parts) => forall i :: 0 <= i < |parts| ==> NoRatio(parts[i])
    case Ratio(_, _) => false
  }

  /** A sum of column totals is never NULL: COALESCE has turned every missing cell into 0. */
  lemma {:induction false} SumNeverNull(e: Expr, g: seq<CleanRecord>)
    requires NoRatio(e)
    ensures Eval(e, g).Some?
    decreases e
  {
    match e
    case Columns(_) =>
    case Add(parts) =>
      forall i | 0 <= i < |parts| ensures Eval(parts[i], g).Some? {
        SumNeverNull(parts[i], g);
      }
    case Ratio(_, _) =>
  }

  lemma {:induction false} ColumnTotalAppend(g1: seq<CleanRecord>, g2: seq<CleanRecord>, col: string)
    ensures ColumnTotal(g1 + g2, col) == ColumnTotal(g1, col) + ColumnTotal(g2, col)
  {
    if g2 != [] {
      assert (g1 + g2)[..|g1 + g2| - 1] == g1 + g2[..|g2| - 1];
      ColumnTotalAppend(g1, g2[..|g2| - 1], col);
    } else {
      assert g1 + g2 == g1;
    }
  }

  lemma {:induction false} ColumnsTotalAppend(g1: seq<CleanRecord>, g2: seq<CleanRecord>, names: seq<string>)
    ensures ColumnsTotal(g1 + g2, names) == ColumnsTotal(g1, names) + ColumnsTotal(g2, names)
  {
    if names != [] {
      ColumnsTotalAppend(g1, g2, names[..|names| - 1]);
      ColumnTotalAppend(g1, g2, names[|names| - 1]);
    }
  }

  /** SQL '+' of non-NULL terms is their sum, term by term. */
  lemma {:induction false} SumValuesPointwise(xs: seq<Option<real>>, ys: seq<Option<real>>, zs: seq<Option<real>>)
    requires |xs| == |ys| == |zs|
    requires forall i :: 0 <= i < |xs| ==> xs[i].Some? && ys[i].Some? && zs[i] == Some(xs[i].value + ys[i].value)
    ensures SumValues(xs).Some? && SumValues(ys).Some?
    ensures SumValues(zs) == Some(SumValues(xs).value + SumValues(ys).value)
  {
    if xs != [] {
      var k := |xs| - 1;
      SumValuesPointwise(xs[..k], ys[..k], zs[..k]);
    }
  }

  /** A sum over a group split in two is the sum of the two parts. */
  lemma {:induction false} EvalAdditive(e: Expr, g1: seq<CleanRecord>, g2: seq<CleanRecord>)
    requires NoRatio(e)
    ensures Eval(e, g1).Some? && Eval(e, g2).Some?
    ensures Eval(e, g1 + g2) == Some(Eval(e, g1).value + Eval(e, g2).value)
    decreases e
  {
    match e
    case Columns(names) =>
      ColumnsTotalAppend(g1, g2, names);
    case Add(parts) =>
      forall i | 0 <= i < |parts|
        ensures Eval(parts[i], g1).Some? && Eval(parts[i], g2).Some?
        ensures Eval(parts[i], g1 + g2) == Some(Eval(parts[i], g1).value + Eval(parts[i], g2).value)
      {
        EvalAdditive(parts[i], g1, g2);
      }
      SumValuesPointwise(
        seq(|parts|, i requires 0 <= i < |parts| => Eval(parts[i], g1)),
        seq(|parts|, i requires 0 <= i < |parts| => Eval(parts[i], g2)),
        seq(|parts|, i requires 0 <= i < |parts| => Eval(parts[i], g1 + g2)));
    case Ratio(_, _) =>
  }

  // ------------------------------------------------------------- the catalog's properties

  /** Every metric that is not one of the three ratios is built from sums alone. */
  lemma {:induction false} DefNoRatio(cols: seq<seq<string>>, m: Metric)
    requires |cols| == LEAF_COUNT && !IsRatio(m)
    ensures NoRatio(Def(cols, m))
    decreases Rank(m)
  {
    CatalogLayered(m);
    if LeafIndex(m).None? {
      forall i | 0 <= i < |Parts(m)| ensures NoRatio(Def(cols, Parts(m)[i])) {
        assert !IsRatio(Parts(m)[i]);
        DefNoRatio(cols, Parts(m)[i]);
      }
    }
  }

  /** Only the three ratios can be NULL; every sum has a value for every group. */
  lemma OnlyRatiosCanBeNull(cols: seq<seq<string>>, m: Metric, g: seq<CleanRecord>)
    requires |cols| == LEAF_COUNT
    ensures Value(cols, m, g).None? ==> IsRatio(m)
  {
    if !IsRatio(m) {
      DefNoRatio(cols, m);
      SumNeverNull(Def(cols, m), g);
    }
  }

  /** A leaf's index points at its own entry of LEAVES. */
  lemma LeafIndexIsOwnEntry(m: Metric)
    requires LeafIndex(m).Some?
    ensures LeafIndex(m).value < |LEAVES| && LEAVES[LeafIndex(m).value].metric == m
  {
    // one case per metric: each leaf index is a literal position in LEAVES
    match m case Venta => case VolumenOcupacion => case ValorCaja => case PctVenta =>
      case GastoTotal => case CostoPorCaja => case Tractores => case VariableDedicado =>
      case DieselDedicado => case Casetas => case GastoDedicado => case KmTercero =>
      case DieselTercero => case GastoTercero => case Remolques => case Quintas =>
      case RemolquesYQuintas => case Ferry => case Aclaraciones => case GastosSecundarios =>
      case Desconsolidador => case Monitoreo => case Transferencias => case Intermodal =>
      case OtrosVariables => case GastoBkhl => case IngresoBkhl => case NetoBkhl =>
      case Devoluciones => case FP => case PA => case FreightProgramPA =>
  }

  /** A leaf metric is the total of its resolved columns. */
  lemma LeafValue(cols: seq<seq<string>>, m: Metric, g: seq<CleanRecord>)
    requires |cols| == LEAF_COUNT && LeafIndex(m).Some?
    ensures LeafIndex(m).value < |LEAVES| && LEAVES[LeafIndex(m).value].metric == m
    ensures Value(cols, m, g) == Some(ColumnsTotal(g, cols[LeafIndex(m).value]))
  {
    LeafIndexIsOwnEntry(m);
    CatalogLayered(m);
    var k := LeafIndex(m).value;
    assert !IsRatio(m);
    assert Def(cols, m) == Columns(cols[k]);
  }

  /** The sums of the catalog add up over a split group: the value over g1 + g2 is the value
      over g1 plus the value over g2. */
  lemma MetricAdditive(cols: seq<seq<string>>, m: Metric, g1: seq<CleanRecord>, g2: seq<CleanRecord>)
    requires |cols| == LEAF_COUNT && !IsRatio(m)
    ensures Val(cols, m, g1 + g2) == Val(cols, m, g1) + Val(cols, m, g2)
  {
    DefNoRatio(cols, m);
    EvalAdditive(Def(cols, m), g1, g2);
  }

  /** Each composite is the sum of its parts: Gasto total of its seven sub-totals, and each
      sub-total of its leaves. */
  /** The Add node of a composite lists the definitions of its parts. */
  lemma DefOfComposite(cols: seq<seq<string>>, m: Metric) returns (es: seq<Expr>)
    requires |cols| == LEAF_COUNT && !IsRatio(m) && LeafIndex(m).None?
    ensures Def(cols, m) == Add(es)
    ensures |es| == |Parts(m)| && forall i :: 0 <= i < |es| ==> es[i] == Def(cols, Parts(m)[i])
  {
    CatalogLayered(m);
    es := Def(cols, m).parts;
  }

  /** The values of the parts of a composite, in order. */
  lemma PartValues(cols: seq<seq<string>>, m: Metric, g: seq<CleanRecord>)
    requires |cols| == LEAF_COUNT && Parts(m) != []
    ensures forall i :: 0 <= i < |Parts(m)| ==> ValueOf(cols, g)(Parts(m)[i]).Some?
  {
    CatalogLayered(m);
    forall i | 0 <= i < |Parts(m)| ensures ValueOf(cols, g)(Parts(m)[i]).Some? {
      CatalogLayered(Parts(m)[i]);
      OnlyRatiosCanBeNull(cols, Parts(m)[i], g);
    }
  }

  lemma CompositeIsSumOfParts(cols: seq<seq<string>>, m: Metric, g: seq<CleanRecord>)
    requires |cols| == LEAF_COUNT && Parts(m) != []
    ensures Value(cols, m, g) == Some(SumOver(Parts(m), ValueOf(cols, g)))
  {
    var ps := Parts(m);
    var f := ValueOf(cols, g);
    CatalogLayered(m);
    var es := DefOfComposite(cols, m);
    var vs := seq(|es|, i requires 0 <= i < |es| => Eval(es[i], g));
    assert Value(cols, m, g) == SumValues(vs);
    forall i | 0 <= i < |ps| ensures vs[i] == f(ps[i]) {
      assert es[i] == Def(cols, ps[i]);
    }
    assert vs == seq(|ps|, i requires 0 <= i < |ps| => f(ps[i]));
    PartValues(cols, m, g);
    SumValuesOver(ps, f);
  }

  /** The three ratios divide with NULLIF on the denominator: NULL exactly when the
      denominator's sum is 0, and the quotient of the two sums otherwise. */
  lemma RatioValue(cols: seq<seq<string>>, m: Metric, g: seq<CleanRecord>)
    requires |cols| == LEAF_COUNT && IsRatio(m)
    ensures Value(cols, m, g).None? <==> Val(cols, Denominator(m), g) == 0.0
    ensures Value(cols, m, g).Some? ==>
      Value(cols, m, g).value == Val(cols, Numerator(m), g) / Val(cols, Denominator(m), g)
  {
    CatalogLayered(m);
    var num, den := Numerator(m), Denominator(m);
    assert !IsRatio(num) && !IsRatio(den);
    OnlyRatiosCanBeNull(cols, num, g);
    OnlyRatiosCanBeNull(cols, den, g);
    assert Def(cols, m) == Ratio(Def(cols, num), Def(cols, den));
    var n, d := Value(cols, num, g).value, Value(cols, den, g).value;
    assert Value(cols, m, g) == if d == 0.0 then None else Some(n / d);
  }

  /** "Gastos secundarios (SICI)" has no workbook letters: it is 0 for every group. */
  lemma SiciIsZero(cm: ColumnMap, cols: seq<seq<string>>, g: seq<CleanRecord>)
    requires ResolveLeaves(LEAVES, cm) == Ok(cols)
    ensures |cols| == LEAF_COUNT && Value(cols, GastosSecundarios, g) == Some(0.0)
  {
    SiciHasNoLetters();
    assert Ok(cols[12]) == ResolveLetters(LEAVES[12].letters, cm);
    EmptyLeafIsZero(cols, g);
  }

  /** Gastos secundarios is the leaf at position 12 and lists no letters. */
  lemma SiciHasNoLetters()
    ensures |LEAVES| == LEAF_COUNT && LEAVES[12] == Leaf(GastosSecundarios, [])
  {
  }

  /** A leaf whose column list is empty sums to zero. */
  lemma EmptyLeafIsZero(cols: seq<seq<string>>, g: seq<CleanRecord>)
    requires |cols| == LEAF_COUNT && cols[12] == []
    ensures Value(cols, GastosSecundarios, g) == Some(0.0)
  {
    LeafValue(cols, GastosSecundarios, g);
  }
}
