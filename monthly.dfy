/** The `monthly` view of build.py: the rows of `clean` that have a year and a month number,
    grouped by (scenario, year, month number, region, "Mes" text), and for every metric of
    METRIC_ORDER one row per group holding the metric's value over the group. */
module Monthly {
  import opened Wrappers
  import opened Classify
  import opened Metrics

  /** The first occurrence of every element, in order of first appearance. */
  function Distinct<T(==,!new)>(xs: seq<T>): (d: seq<T>)
    ensures forall x :: x in d <==> x in xs
    ensures forall i, j :: 0 <= i < j < |d| ==> d[i] != d[j]
  {
    if xs == [] then []
    else
      var init := xs[..|xs| - 1];
      var d := Distinct(init);
      assert forall x :: x in xs <==> x in init || x == xs[|xs| - 1];
      if xs[|xs| - 1] in d then d else d + [xs[|xs| - 1]]
  }

  /** The grouping key of the monthly view. The untouched "Mes" text is part of it. */
  datatype GroupKey = GroupKey(scenario: Scenario, year: int, month: int, region: string, monthName: Option<string>)

  /** WHERE year IS NOT NULL AND month_num IS NOT NULL. */
  predicate Eligible(r: CleanRecord) {
    r.year.Some? && r.month.Some?
  }

  function KeyOf(r: CleanRecord): GroupKey
    requires Eligible(r)
  {
    GroupKey(r.scenario, r.year.value, r.month.value, r.region, r.monthName)
  }

  /** The keys of the eligible rows, one per row, in row order. */
  function KeyList(c: seq<CleanRecord>): (ks: seq<GroupKey>)
    ensures |ks| <= |c|
  {
    if c == [] then []
    else
      var init := KeyList(c[..|c| - 1]);
      var r := c[|c| - 1];
      if Eligible(r) then init + [KeyOf(r)] else init
  }

  /** The groups of the monthly view, each once, in order of first appearance. */
  function Groups(c: seq<CleanRecord>): seq<GroupKey> {
    Distinct(KeyList(c))
  }

  /** The rows of group k, in row order. */
  function Group(c: seq<CleanRecord>, k: GroupKey): (g: seq<CleanRecord>)
    ensures |g| <= |c|
  {
    if c == [] then []
    else
      var init := Group(c[..|c| - 1], k);
      var r := c[|c| - 1];
      if Eligible(r) && KeyOf(r) == k then init + [r] else init
  }

  /** One row of the monthly view. */
  datatype MonthlyRow = MonthlyRow(key: GroupKey, metric: Metric, value: Option<real>)

  /** The SELECT of one metric: one row per group. */
  function MonthlyFor(cols: seq<seq<string>>, c: seq<CleanRecord>, m: Metric): (rows: seq<MonthlyRow>)
    requires |cols| == LEAF_COUNT
    ensures |rows| == |Groups(c)|
  {
    var ks := Groups(c);
    seq(|ks|, i requires 0 <= i < |ks| => MonthlyRow(ks[i], m, Value(cols, m, Group(c, ks[i]))))
  }

  /** The UNION ALL of the per-metric SELECTs, in the order of `ms`. */
  function MonthlyView(cols: seq<seq<string>>, c: seq<CleanRecord>, ms: seq<Metric>): seq<MonthlyRow>
    requires |cols| == LEAF_COUNT
  {
    if ms == [] then [] else MonthlyView(cols, c, ms[..|ms| - 1]) + MonthlyFor(cols, c, ms[|ms| - 1])
  }

  /** The loop of build.py that assembles the monthly view metric by metric. */
  method BuildMonthly(cols: seq<seq<string>>, c: seq<CleanRecord>) returns (rows: seq<MonthlyRow>)
    requires |cols| == LEAF_COUNT
    ensures rows == MonthlyView(cols, c, METRIC_ORDER)
    ensures |rows| == |METRIC_ORDER| * |Groups(c)|
  {
    rows := [];
    for i := 0 to |METRIC_ORDER|
      invariant rows == MonthlyView(cols, c, METRIC_ORDER[..i])
    {
      MonthlyViewStep(cols, c, METRIC_ORDER, i);
      rows := rows + MonthlyFor(cols, c, METRIC_ORDER[i]);
    }
    assert METRIC_ORDER[..|METRIC_ORDER|] == METRIC_ORDER;
    MonthlyViewLength(cols, c, METRIC_ORDER);
  }

  /** One more metric appends its SELECT to the union. */
  lemma MonthlyViewStep(cols: seq<seq<string>>, c: seq<CleanRecord>, ms: seq<Metric>, i: nat)
    requires |cols| == LEAF_COUNT && i < |ms|
    ensures MonthlyView(cols, c, ms[..i + 1]) == MonthlyView(cols, c, ms[..i]) + MonthlyFor(cols, c, ms[i])
  {
    assert ms[..i + 1][..i] == ms[..i];
  }

  /** The union holds one row per metric and group. */
  lemma {:induction false} MonthlyViewLength(cols: seq<seq<string>>, c: seq<CleanRecord>, ms: seq<Metric>)
    requires |cols| == LEAF_COUNT
    ensures |MonthlyView(cols, c, ms)| == |ms| * |Groups(c)|
  {
    if ms != [] {
      MonthlyViewLength(cols, c, ms[..|ms| - 1]);
      assert |ms| * |Groups(c)| == (|ms| - 1) * |Groups(c)| + |Groups(c)|;
    }
  }

  // ------------------------------------------------------------- properties

  /** A key is a group exactly when some eligible row carries it. */
  lemma {:induction false} KeyListMembers(c: seq<CleanRecord>, k: GroupKey)
    ensures k in KeyList(c) <==> exists i :: 0 <= i < |c| && Eligible(c[i]) && KeyOf(c[i]) == k
  {
    if c != [] {
      var init := c[..|c| - 1];
      KeyListMembers(init, k);
      if exists i :: 0 <= i < |c| && Eligible(c[i]) && KeyOf(c[i]) == k {
        var i :| 0 <= i < |c| && Eligible(c[i]) && KeyOf(c[i]) == k;
        if i < |c| - 1 {
          assert init[i] == c[i];
        }
      }
      if exists i :: 0 <= i < |init| && Eligible(init[i]) && KeyOf(init[i]) == k {
        var i :| 0 <= i < |init| && Eligible(init[i]) && KeyOf(init[i]) == k;
        assert c[i] == init[i];
      }
    }
  }

  /** The rows of a group are the eligible rows with that key, in order. */
  lemma {:induction false} GroupMembers(c: seq<CleanRecord>, k: GroupKey)
    ensures forall r :: r in Group(c, k) <==> r in c && Eligible(r) && KeyOf(r) == k
  {
    if c != [] {
      var init := c[..|c| - 1];
      GroupMembers(init, k);
      assert forall r :: r in c <==> r in init || r == c[|c| - 1];
    }
  }

  /** No group of the monthly view is empty: a group exists only where rows exist. */
  lemma GroupsNonEmpty(c: seq<CleanRecord>, k: GroupKey)
    requires k in Groups(c)
    ensures Group(c, k) != []
  {
    KeyListMembers(c, k);
    var i :| 0 <= i < |c| && Eligible(c[i]) && KeyOf(c[i]) == k;
    GroupMembers(c, k);
    assert c[i] in Group(c, k);
  }

  /** Every row of the monthly view is the value of its metric over its group, for a group
      and a metric that exist; and every (metric, group) pair has its row. */
  lemma {:induction false} MonthlyViewRows(cols: seq<seq<string>>, c: seq<CleanRecord>, ms: seq<Metric>)
    requires |cols| == LEAF_COUNT
    ensures forall row :: row in MonthlyView(cols, c, ms) ==>
      row.metric in ms && row.key in Groups(c) && row.value == Value(cols, row.metric, Group(c, row.key))
    ensures forall m, k :: m in ms && k in Groups(c) ==>
      MonthlyRow(k, m, Value(cols, m, Group(c, k))) in MonthlyView(cols, c, ms)
  {
    if ms != [] {
      var init := ms[..|ms| - 1];
      var last := ms[|ms| - 1];
      MonthlyViewRows(cols, c, init);
      var ks := Groups(c);
      var part := MonthlyFor(cols, c, last);
      assert forall m :: m in ms <==> m in init || m == last;
      forall k | k in ks ensures MonthlyRow(k, last, Value(cols, last, Group(c, k))) in part {
        var i :| 0 <= i < |ks| && ks[i] == k;
        assert part[i] == MonthlyRow(k, last, Value(cols, last, Group(c, k)));
      }
    }
  }

  /** Two rows that agree on scenario, year, month number and region but spell the month
      differently ("Enero" and "enero ", say) fall in two different groups: the monthly view
      then holds two rows for the same month, metric, scenario and region. */
  lemma MonthSpellingSplitsGroups(c: seq<CleanRecord>, i: nat, j: nat)
    requires i < |c| && j < |c| && Eligible(c[i]) && Eligible(c[j])
    requires c[i].scenario == c[j].scenario && c[i].year == c[j].year && c[i].month == c[j].month
    requires c[i].region == c[j].region && c[i].monthName != c[j].monthName
    ensures KeyOf(c[i]) in Groups(c) && KeyOf(c[j]) in Groups(c)
    ensures KeyOf(c[i]) != KeyOf(c[j])
    ensures KeyOf(c[i]).month == KeyOf(c[j]).month
  {
    KeyListMembers(c, KeyOf(c[i]));
    KeyListMembers(c, KeyOf(c[j]));
  }

  /** Every month number in the monthly view comes from the month CASE, so lies in 1..12. */
  lemma {:induction false} CleanMonths(rows: seq<RawRecord>)
    ensures forall r :: r in Clean(rows) && r.month.Some? ==> 1 <= r.month.value <= 12
  {
    if rows != [] {
      CleanMonths(rows[1..]);
    }
  }

  lemma GroupsMonths(c: seq<CleanRecord>)
    requires forall r :: r in c && r.month.Some? ==> 1 <= r.month.value <= 12
    ensures forall k :: k in Groups(c) ==> 1 <= k.month <= 12
  {
    forall k | k in Groups(c) ensures 1 <= k.month <= 12 {
      KeyListMembers(c, k);
    }
  }
}
