/** The nine rows of the exported table, before any styling: one value per
    active month and a yearly total, every value rounded to cents. */
module Report {
  import opened Common
  import opened Money
  import opened Aggregation

  /** A row object `{ desc, <month key>: value..., total }`, with the month
      values in the order of the active months. */
  datatype Line = Line(desc: string, values: seq<real>, total: real)

  /** A list of month indexes a report can be built over. */
  predicate MonthList(active: seq<nat>)
  {
    forall i :: 0 <= i < |active| ==> active[i] < 12
  }

  /** `sumArray(categories.map(cat => despesasMensal[cat][index]))`, the
      month's spending over the six categories, summed in row order. */
  function MonthSpend(b: Buckets, m: nat): real
    requires WellShaped(b) && m < 12
  {
    Sum(ColumnOf(b.spend, m))
  }

  /** The unrounded values of each row over the active months. */
  function IncomeSeries(b: Buckets, active: seq<nat>): (s: seq<real>)
    requires WellShaped(b) && MonthList(active)
    ensures |s| == |active|
  {
    seq(|active|, i requires 0 <= i < |active| => b.income[active[i]])
  }

  function CategorySeries(b: Buckets, active: seq<nat>, c: nat): (s: seq<real>)
    requires WellShaped(b) && MonthList(active) && c < |Categories|
    ensures |s| == |active|
  {
    seq(|active|, i requires 0 <= i < |active| => b.spend[c][active[i]])
  }

  function ExpenseSeries(b: Buckets, active: seq<nat>): (s: seq<real>)
    requires WellShaped(b) && MonthList(active)
    ensures |s| == |active|
  {
    seq(|active|, i requires 0 <= i < |active| => MonthSpend(b, active[i]))
  }

  function SaldoSeries(b: Buckets, active: seq<nat>): (s: seq<real>)
    requires WellShaped(b) && MonthList(active)
    ensures |s| == |active|
  {
    seq(|active|, i requires 0 <= i < |active| => b.income[active[i]] - MonthSpend(b, active[i]))
  }

  /** A row built from its unrounded month values: each value goes through
      `formatNumber`, and the total is `formatNumber` of the sum of the
      unrounded values. */
  function SeriesLine(desc: string, s: seq<real>): (l: Line)
    ensures l.desc == desc && |l.values| == |s|
    ensures forall i :: 0 <= i < |s| ==> l.values[i] == RoundCents(s[i])
    ensures l.total == RoundCents(Sum(s))
  {
    Line(desc, seq(|s|, i requires 0 <= i < |s| => RoundCents(s[i])), RoundCents(Sum(s)))
  }

  const IncomeLabel: string := "Receita Total"
  const ExpenseLabel: string := "Total Despesas"
  const SaldoLabel: string := "Saldo do m\U{00EA}s"

  /** `linhas`, in the order the program pushes them: income, the six
      categories in the order of the category list, total spending and the
      month's balance. Every row has one value per active month, and each
      value is the rounded bucket it shows. */
  function ReportLines(b: Buckets, active: seq<nat>): (r: seq<Line>)
    requires WellShaped(b) && MonthList(active)
    ensures |r| == 9
    ensures r[0].desc == IncomeLabel && r[7].desc == ExpenseLabel && r[8].desc == SaldoLabel
    ensures forall c :: 0 <= c < |Categories| ==> r[c + 1].desc == CategoryNames[c]
    ensures forall k :: 0 <= k < 9 ==> |r[k].values| == |active|
    ensures forall i :: 0 <= i < |active| ==>
      r[0].values[i] == RoundCents(b.income[active[i]]) &&
      r[7].values[i] == RoundCents(MonthSpend(b, active[i])) &&
      r[8].values[i] == RoundCents(b.income[active[i]] - MonthSpend(b, active[i]))
    ensures forall c, i :: 0 <= c < |Categories| && 0 <= i < |active| ==>
      r[c + 1].values[i] == RoundCents(b.spend[c][active[i]])
  {
    LineShapes(b, active);
    seq(9, k requires 0 <= k < 9 => LineAt(b, active, k))
  }

  /** The labels and month values of each row of `linhas`. */
  lemma LineShapes(b: Buckets, active: seq<nat>)
    requires WellShaped(b) && MonthList(active)
    ensures LineAt(b, active, 0).desc == IncomeLabel && LineAt(b, active, 7).desc == ExpenseLabel
    ensures LineAt(b, active, 8).desc == SaldoLabel
    ensures forall c :: 0 <= c < |Categories| ==> LineAt(b, active, c + 1).desc == CategoryNames[c]
    ensures forall k :: 0 <= k < 9 ==> |LineAt(b, active, k).values| == |active|
    ensures forall i :: 0 <= i < |active| ==>
      LineAt(b, active, 0).values[i] == RoundCents(b.income[active[i]]) &&
      LineAt(b, active, 7).values[i] == RoundCents(MonthSpend(b, active[i])) &&
      LineAt(b, active, 8).values[i] == RoundCents(b.income[active[i]] - MonthSpend(b, active[i]))
    ensures forall c, i :: 0 <= c < |Categories| && 0 <= i < |active| ==>
      LineAt(b, active, c + 1).values[i] == RoundCents(b.spend[c][active[i]])
  {
    forall c, i | 0 <= c < |Categories| && 0 <= i < |active|
      ensures LineAt(b, active, c + 1).values[i] == RoundCents(b.spend[c][active[i]])
    {
      assert LineAt(b, active, c + 1) == SeriesLine(CategoryNames[c], CategorySeries(b, active, c));
    }
  }

  /** Row `k` of `linhas`. */
  function LineAt(b: Buckets, active: seq<nat>, k: nat): Line
    requires WellShaped(b) && MonthList(active) && k < 9
  {
    if k == 0 then SeriesLine(IncomeLabel, IncomeSeries(b, active))
    else if k <= |Categories| then SeriesLine(CategoryNames[k - 1], CategorySeries(b, active, k - 1))
    else if k == 7 then SeriesLine(ExpenseLabel, ExpenseSeries(b, active))
    else SeriesLine(SaldoLabel, SaldoSeries(b, active))
  }

  /** The category rows' unrounded values, one row per category. */
  function CategoryMatrix(b: Buckets, active: seq<nat>): (rows: seq<seq<real>>)
    requires WellShaped(b) && MonthList(active)
    ensures |rows| == |Categories|
    ensures forall c :: 0 <= c < |Categories| ==> rows[c] == CategorySeries(b, active, c)
  {
    seq(|Categories|, c requires 0 <= c < |Categories| => CategorySeries(b, active, c))
  }

  /** Before rounding, the yearly spending total is the sum of the six
      category totals. */
  lemma ExpenseTotalIsSumOfCategories(b: Buckets, active: seq<nat>)
    requires WellShaped(b) && MonthList(active)
    ensures Sum(ExpenseSeries(b, active)) == Sum(RowSums(CategoryMatrix(b, active)))
  {
    var m := CategoryMatrix(b, active);
    var cols := ExpenseSeries(b, active);
    forall i | 0 <= i < |active| ensures cols[i] == Sum(ColumnOf(m, i)) {
      assert ColumnOf(m, i) == ColumnOf(b.spend, active[i]);
    }
    SumOfColumnSums(m, cols, |active|);
  }

  /** Before rounding, the yearly balance is yearly income minus yearly
      spending. */
  lemma SaldoTotalIsIncomeMinusExpense(b: Buckets, active: seq<nat>)
    requires WellShaped(b) && MonthList(active)
    ensures Sum(SaldoSeries(b, active)) == Sum(IncomeSeries(b, active)) - Sum(ExpenseSeries(b, active))
  {
    SumOfDifferences(IncomeSeries(b, active), ExpenseSeries(b, active), SaldoSeries(b, active));
  }

  /** The totals of the rows, one by one. */
  lemma LineTotals(b: Buckets, active: seq<nat>)
    requires WellShaped(b) && MonthList(active)
    ensures LineAt(b, active, 0).total == RoundCents(Sum(IncomeSeries(b, active)))
    ensures forall c :: 0 <= c < |Categories| ==>
      LineAt(b, active, c + 1).total == RoundCents(Sum(CategorySeries(b, active, c)))
    ensures LineAt(b, active, 7).total == RoundCents(Sum(RowSums(CategoryMatrix(b, active))))
    ensures LineAt(b, active, 8).total ==
      RoundCents(Sum(IncomeSeries(b, active)) - Sum(ExpenseSeries(b, active)))
  {
    ExpenseLineTotal(b, active);
    SaldoLineTotal(b, active);
  }

  lemma ExpenseLineTotal(b: Buckets, active: seq<nat>)
    requires WellShaped(b) && MonthList(active)
    ensures LineAt(b, active, 7).total == RoundCents(Sum(RowSums(CategoryMatrix(b, active))))
  {
    ExpenseTotalIsSumOfCategories(b, active);
  }

  lemma SaldoLineTotal(b: Buckets, active: seq<nat>)
    requires WellShaped(b) && MonthList(active)
    ensures LineAt(b, active, 8).total ==
      RoundCents(Sum(IncomeSeries(b, active)) - Sum(ExpenseSeries(b, active)))
  {
    SaldoTotalIsIncomeMinusExpense(b, active);
  }

  /** Every row's total is the rounded sum of its unrounded month values;
      for the last two rows these sums are the identities above. */
  lemma ReportTotals(b: Buckets, active: seq<nat>)
    requires WellShaped(b) && MonthList(active)
    ensures ReportLines(b, active)[0].total == RoundCents(Sum(IncomeSeries(b, active)))
    ensures forall c :: 0 <= c < |Categories| ==>
      ReportLines(b, active)[c + 1].total == RoundCents(Sum(CategorySeries(b, active, c)))
    ensures ReportLines(b, active)[7].total == RoundCents(Sum(RowSums(CategoryMatrix(b, active))))
    ensures ReportLines(b, active)[8].total ==
      RoundCents(Sum(IncomeSeries(b, active)) - Sum(ExpenseSeries(b, active)))
  {
    LineTotals(b, active);
    assert forall k :: 0 <= k < 9 ==> ReportLines(b, active)[k] == LineAt(b, active, k);
  }
}
