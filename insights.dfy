/** The spending insights panel: from the dashboard summary and the budget
    comparison rows it derives up to five insights, always in the same
    order — the top category, the over-budget alert, the savings note, the
    month-on-month trend and the spending pattern. */
module SpendingInsightsComponent {
  import opened Common
  import opened Calendar
  import opened Rounding
  import opened Types
  import opened Sums
  import opened Aggregation
  import DashboardRoute
  import ComparisonRoute
  import MonthlyExpensesRoute

  /** The badge an insight is shown with. */
  datatype Tone = Info | Warning | Success

  /** An insight and the figures its text shows. */
  datatype Insight =
    | TopCategory(category: Option<string>, percentage: real, total: real)
    | OverBudget(count: nat, overspend: real)
    | BudgetSavings(count: nat, savings: real)
    | MonthlyTrend(change: real)
    | SpendingPattern(count: nat, average: real)

  /** The place of each kind of insight in the panel. */
  function Rank(i: Insight): (r: nat)
    ensures r < 5
  {
    match i
    case TopCategory(_, _, _) => 0
    case OverBudget(_, _) => 1
    case BudgetSavings(_, _) => 2
    case MonthlyTrend(_) => 3
    case SpendingPattern(_, _) => 4
  }

  /** The tone of each kind of insight: a trend is a warning when spending
      rose and a success otherwise. */
  function ToneOf(i: Insight): (t: Tone)
    ensures i.MonthlyTrend? ==> (t == Warning <==> i.change > 0.0)
    ensures i.OverBudget? ==> t == Warning
    ensures i.BudgetSavings? ==> t == Success
    ensures i.TopCategory? || i.SpendingPattern? ==> t == Info
  {
    match i
    case TopCategory(_, _, _) => Info
    case OverBudget(_, _) => Warning
    case BudgetSavings(_, _) => Success
    case MonthlyTrend(change) => if change > 0.0 then Warning else Success
    case SpendingPattern(_, _) => Info
  }

  /** `rows.filter(b => b.status === s)`. */
  function WithStatus(rows: seq<BudgetComparison>, s: Status): (r: seq<BudgetComparison>)
    ensures forall x :: x in r <==> x in rows && x.status == s
    ensures |r| <= |rows|
    ensures |r| > 0 <==> exists x :: x in rows && x.status == s
  {
    if rows == [] then []
    else
      var init := WithStatus(rows[..|rows| - 1], s);
      var last := rows[|rows| - 1];
      assert rows == rows[..|rows| - 1] + [last];
      if last.status == s then init + [last] else init
  }

  function Overrun(b: BudgetComparison): real {
    b.actual - b.budgeted
  }

  function Headroom(b: BudgetComparison): real {
    b.budgeted - b.actual
  }

  /** The over-budget figure: `actual - budgeted` summed over the rows that
      are over. */
  function Overspend(rows: seq<BudgetComparison>): real {
    SumOf(WithStatus(rows, Over), Overrun)
  }

  /** The savings figure: `budgeted - actual` summed over the rows that are
      under. */
  function Savings(rows: seq<BudgetComparison>): real {
    SumOf(WithStatus(rows, Under), Headroom)
  }

  /** Summing `f` over the rows of status `s` is summing, over all rows,
      `f` on the rows of status `s` and 0 on every other row. */
  lemma {:induction false} FilteredSum(rows: seq<BudgetComparison>, s: Status, f: BudgetComparison -> real, g: BudgetComparison -> real)
    requires forall x :: g(x) == if x.status == s then f(x) else 0.0
    ensures SumOf(WithStatus(rows, s), f) == SumOf(rows, g)
  {
    if rows != [] {
      var init := rows[..|rows| - 1];
      var last := rows[|rows| - 1];
      FilteredSum(init, s, f, g);
      if last.status == s {
        SumOfConcat(WithStatus(init, s), [last], f);
      }
    }
  }

  function OverrunIfOver(b: BudgetComparison): real {
    if b.status == Over then Overrun(b) else 0.0
  }

  function HeadroomIfUnder(b: BudgetComparison): real {
    if b.status == Under then Headroom(b) else 0.0
  }

  /** Each figure is a sum over every row in which only the rows of its
      status count: on-track rows, in particular, add to neither. */
  lemma FiguresOverAllRows(rows: seq<BudgetComparison>)
    ensures Overspend(rows) == SumOf(rows, OverrunIfOver)
    ensures Savings(rows) == SumOf(rows, HeadroomIfUnder)
  {
    FilteredSum(rows, Over, Overrun, OverrunIfOver);
    FilteredSum(rows, Under, Headroom, HeadroomIfUnder);
  }

  /** Neither figure depends on the order of the rows. */
  lemma FiguresIgnoreOrder(a: seq<BudgetComparison>, b: seq<BudgetComparison>)
    requires multiset(a) == multiset(b)
    ensures Overspend(a) == Overspend(b)
    ensures Savings(a) == Savings(b)
  {
    FiguresOverAllRows(a);
    FiguresOverAllRows(b);
    SumOfPermutation(a, b, OverrunIfOver);
    SumOfPermutation(a, b, HeadroomIfUnder);
  }

  /** The latest month's total less the one before it. */
  function TrendChange(months: seq<MonthlyExpense>): (change: real)
    requires |months| >= 2
    ensures months[|months| - 1].total == months[|months| - 2].total + change
  {
    months[|months| - 1].total - months[|months| - 2].total
  }

  /** The trend compares the two latest months that have transactions,
      which need not be adjacent calendar months, and is within a cent of
      the difference of their spends; the monthly route's reply ends with
      those two months (`MonthlyExpensesRoute.ReplyEndsWithLatestTwo`), and
      the dashboard's `monthlyExpenses` is that reply. */
  lemma TrendOfLatestMonths(ts: seq<Transaction>, months: seq<MonthlyExpense>, earlier: (int, int), later: (int, int))
    requires |months| >= 2
    requires MonthlyExpensesRoute.LatestEntriesOf(ts, months[|months| - 2], months[|months| - 1], earlier, later)
    ensures var spend := KeySpend(ts, MonthOf, later) - KeySpend(ts, MonthOf, earlier);
      spend - 0.01 <= TrendChange(months) <= spend + 0.01
  {
  }

  /** `Math.abs(change) > 0.01`: a change of a cent or less is no trend. */
  predicate Noticeable(change: real) {
    change > 0.01 || change < -0.01
  }

  /** Whether the panel shows a trend. */
  predicate HasTrend(months: seq<MonthlyExpense>) {
    |months| >= 2 && Noticeable(TrendChange(months))
  }

  /** The pattern's average: the total of all expenses over the number of
      recent transactions listed. */
  function PatternAverage(d: DashboardSummary): (average: real)
    requires |d.recentTransactions| > 0
    ensures average * |d.recentTransactions| as real == d.totalExpenses
  {
    d.totalExpenses / |d.recentTransactions| as real
  }

  /** Whether some insight of the panel has rank `rank`. */
  predicate Shows(insights: seq<Insight>, rank: nat) {
    exists k :: 0 <= k < |insights| && Rank(insights[k]) == rank
  }

  /** When the panel shows the insight of rank `rank`. */
  predicate Condition(d: DashboardSummary, rows: seq<BudgetComparison>, rank: nat) {
    if rank == 0 then |d.categoryBreakdown| > 0
    else if rank == 1 then exists r :: r in rows && r.status == Over
    else if rank == 2 then exists r :: r in rows && r.status == Under
    else if rank == 3 then HasTrend(d.monthlyExpenses)
    else rank == 4 && |d.recentTransactions| > 0
  }

  /** An insight carries the figures its kind is computed from: the first
      breakdown row, the count and sum over the over or under rows, the
      change between the last two months, the count of recent transactions
      and the average over them. */
  predicate Faithful(x: Insight, d: DashboardSummary, rows: seq<BudgetComparison>) {
    match x
    case TopCategory(c, p, t) =>
      |d.categoryBreakdown| > 0
      && x == TopCategory(d.categoryBreakdown[0].category, d.categoryBreakdown[0].percentage, d.categoryBreakdown[0].total)
    case OverBudget(n, o) => n == |WithStatus(rows, Over)| && o == Overspend(rows)
    case BudgetSavings(n, v) => n == |WithStatus(rows, Under)| && v == Savings(rows)
    case MonthlyTrend(change) => HasTrend(d.monthlyExpenses) && change == TrendChange(d.monthlyExpenses)
    case SpendingPattern(n, a) =>
      |d.recentTransactions| > 0 && n == |d.recentTransactions| && a == PatternAverage(d)
  }

  /** The panel after the first `n` conditions have been considered: its
      insights in rank order, all below rank `n`, exactly the ones whose
      condition holds, each with its own figures. */
  predicate Built(insights: seq<Insight>, d: DashboardSummary, rows: seq<BudgetComparison>, n: nat) {
    && (forall i, j :: 0 <= i < j < |insights| ==> Rank(insights[i]) < Rank(insights[j]))
    && (forall k :: 0 <= k < |insights| ==> Rank(insights[k]) < n)
    && (forall r :: 0 <= r < n ==> (Shows(insights, r) <==> Condition(d, rows, r)))
    && (forall k :: 0 <= k < |insights| ==> Faithful(insights[k], d, rows))
  }

  /** Considering condition `n` when it holds appends its insight. */
  lemma BuiltPush(insights: seq<Insight>, d: DashboardSummary, rows: seq<BudgetComparison>, n: nat, x: Insight)
    requires Built(insights, d, rows, n)
    requires Rank(x) == n && Condition(d, rows, n) && Faithful(x, d, rows)
    ensures Built(insights + [x], d, rows, n + 1)
  {
    var s := insights + [x];
    assert s[|insights|] == x;
    forall r | 0 <= r <= n ensures Shows(s, r) <==> Condition(d, rows, r) {
      ShowsAppend(insights, x, r);
    }
  }

  /** After appending `x`, a rank is shown when it was before or is `x`'s. */
  lemma ShowsAppend(insights: seq<Insight>, x: Insight, r: nat)
    ensures Shows(insights + [x], r) <==> Shows(insights, r) || Rank(x) == r
  {
    var s := insights + [x];
    assert s[|insights|] == x;
    if Shows(insights, r) {
      var k :| 0 <= k < |insights| && Rank(insights[k]) == r;
      assert s[k] == insights[k];
    }
    if Shows(s, r) && Rank(x) != r {
      var k :| 0 <= k < |s| && Rank(s[k]) == r;
      assert k < |insights| && insights[k] == s[k];
    }
  }

  /** Considering condition `n` when it fails appends nothing. */
  lemma BuiltSkip(insights: seq<Insight>, d: DashboardSummary, rows: seq<BudgetComparison>, n: nat)
    requires Built(insights, d, rows, n)
    requires !Condition(d, rows, n)
    ensures Built(insights, d, rows, n + 1)
  {
  }

  /** `generateInsights`: pushes each insight whose condition holds, in
      panel order. */
  method GenerateInsights(d: DashboardSummary, rows: seq<BudgetComparison>) returns (insights: seq<Insight>)
    ensures forall i, j :: 0 <= i < j < |insights| ==> Rank(insights[i]) < Rank(insights[j])
    ensures Shows(insights, 0) <==> |d.categoryBreakdown| > 0
    ensures Shows(insights, 1) <==> exists r :: r in rows && r.status == Over
    ensures Shows(insights, 2) <==> exists r :: r in rows && r.status == Under
    ensures Shows(insights, 3) <==> HasTrend(d.monthlyExpenses)
    ensures Shows(insights, 4) <==> |d.recentTransactions| > 0
    ensures forall k :: 0 <= k < |insights| ==> Faithful(insights[k], d, rows)
  {
    insights := [];
    insights := PushTopCategory(insights, d, rows);
    insights := PushBudgetAlerts(insights, d, rows);
    insights := PushTrend(insights, d, rows);
    insights := PushPattern(insights, d, rows);
    assert Built(insights, d, rows, 5);
  }

  /** The top-category step. */
  method PushTopCategory(insights: seq<Insight>, d: DashboardSummary, rows: seq<BudgetComparison>) returns (r: seq<Insight>)
    requires Built(insights, d, rows, 0)
    ensures Built(r, d, rows, 1)
  {
    r := insights;
    if |d.categoryBreakdown| > 0 {
      var top := d.categoryBreakdown[0];
      BuiltPush(r, d, rows, 0, TopCategory(top.category, top.percentage, top.total));
      r := r + [TopCategory(top.category, top.percentage, top.total)];
    } else {
      BuiltSkip(r, d, rows, 0);
    }
  }

  /** The two budget steps: the over-budget alert, then the savings note. */
  method PushBudgetAlerts(insights: seq<Insight>, d: DashboardSummary, rows: seq<BudgetComparison>) returns (r: seq<Insight>)
    requires Built(insights, d, rows, 1)
    ensures Built(r, d, rows, 3)
  {
    r := insights;
    var over := WithStatus(rows, Over);
    var under := WithStatus(rows, Under);
    if |over| > 0 {
      BuiltPush(r, d, rows, 1, OverBudget(|over|, SumOf(over, Overrun)));
      r := r + [OverBudget(|over|, SumOf(over, Overrun))];
    } else {
      BuiltSkip(r, d, rows, 1);
    }
    if |under| > 0 {
      BuiltPush(r, d, rows, 2, BudgetSavings(|under|, SumOf(under, Headroom)));
      r := r + [BudgetSavings(|under|, SumOf(under, Headroom))];
    } else {
      BuiltSkip(r, d, rows, 2);
    }
  }

  /** The trend step: at least two months, and a change of more than a
      cent either way. */
  method PushTrend(insights: seq<Insight>, d: DashboardSummary, rows: seq<BudgetComparison>) returns (r: seq<Insight>)
    requires Built(insights, d, rows, 3)
    ensures Built(r, d, rows, 4)
  {
    r := insights;
    var months := d.monthlyExpenses;
    if |months| >= 2 {
      var change := months[|months| - 1].total - months[|months| - 2].total;
      if change > 0.01 || change < -0.01 {
        BuiltPush(r, d, rows, 3, MonthlyTrend(change));
        r := r + [MonthlyTrend(change)];
        return;
      }
    }
    BuiltSkip(r, d, rows, 3);
  }

  /** The pattern step. */
  method PushPattern(insights: seq<Insight>, d: DashboardSummary, rows: seq<BudgetComparison>) returns (r: seq<Insight>)
    requires Built(insights, d, rows, 4)
    ensures Built(r, d, rows, 5)
  {
    r := insights;
    var recent := d.recentTransactions;
    if |recent| > 0 {
      BuiltPush(r, d, rows, 4, SpendingPattern(|recent|, d.totalExpenses / |recent| as real));
      r := r + [SpendingPattern(|recent|, d.totalExpenses / |recent| as real)];
    } else {
      BuiltSkip(r, d, rows, 4);
    }
  }

  /** Two insights of the same kind that both carry their kind's figures
      are the same insight. */
  lemma FaithfulUnique(x: Insight, y: Insight, d: DashboardSummary, rows: seq<BudgetComparison>)
    requires Rank(x) == Rank(y) && Faithful(x, d, rows) && Faithful(y, d, rows)
    ensures x == y
  {
  }

  predicate Increasing(s: seq<nat>) {
    forall i, j :: 0 <= i < j < |s| ==> s[i] < s[j]
  }

  /** Two increasing sequences with the same elements are equal. */
  lemma {:induction false} IncreasingSameElements(a: seq<nat>, b: seq<nat>)
    requires Increasing(a) && Increasing(b)
    requires forall x :: x in a <==> x in b
    ensures a == b
  {
    assert a != [] ==> a[0] in b;
    assert b != [] ==> b[0] in a;
    if a != [] && b != [] {
      assert a[0] == b[0] by {
        assert a[0] in b;
        assert b[0] in a;
      }
      forall x ensures x in a[1..] <==> x in b[1..] {
        assert x in a[1..] <==> x in a && x != a[0];
        assert x in b[1..] <==> x in b && x != b[0];
      }
      IncreasingSameElements(a[1..], b[1..]);
      assert a == [a[0]] + a[1..] && b == [b[0]] + b[1..];
    }
  }

  function Ranks(insights: seq<Insight>): (rs: seq<nat>)
    ensures |rs| == |insights| && forall k :: 0 <= k < |rs| ==> rs[k] == Rank(insights[k])
  {
    seq(|insights|, k requires 0 <= k < |insights| => Rank(insights[k]))
  }

  /** The finished panel is determined by its inputs: the contract of
      `GenerateInsights` admits exactly one list of insights. */
  lemma BuiltUnique(a: seq<Insight>, b: seq<Insight>, d: DashboardSummary, rows: seq<BudgetComparison>)
    requires Built(a, d, rows, 5) && Built(b, d, rows, 5)
    ensures a == b
  {
    var ra, rb := Ranks(a), Ranks(b);
    forall x ensures x in ra <==> x in rb {
      if x in ra {
        var k :| 0 <= k < |ra| && ra[k] == x;
        assert Shows(a, x);
      }
      if x in rb {
        var k :| 0 <= k < |rb| && rb[k] == x;
        assert Shows(b, x);
      }
    }
    IncreasingSameElements(ra, rb);
    forall k | 0 <= k < |a| ensures a[k] == b[k] {
      FaithfulUnique(a[k], b[k], d, rows);
    }
  }

  /** Ranks that strictly increase within 0..4 leave room for at most five
      insights. */
  lemma {:induction false} AtMostFive(insights: seq<Insight>)
    requires forall i, j :: 0 <= i < j < |insights| ==> Rank(insights[i]) < Rank(insights[j])
    ensures |insights| <= 5
  {
    if |insights| > 5 {
      RankAtLeastIndex(insights, 5);
    }
  }

  lemma {:induction false} RankAtLeastIndex(insights: seq<Insight>, k: nat)
    requires forall i, j :: 0 <= i < j < |insights| ==> Rank(insights[i]) < Rank(insights[j])
    requires k < |insights|
    ensures Rank(insights[k]) >= k
  {
    if k > 0 {
      RankAtLeastIndex(insights, k - 1);
    }
  }

  /** On the dashboard the top category is the one with the largest total. */
  lemma TopCategoryIsLargest(ts: seq<Transaction>)
    ensures var rows := DashboardRoute.Dashboard(ts).categoryBreakdown;
      forall i :: 0 <= i < |rows| ==> rows[i].total <= rows[0].total
  {
    var rows := DashboardRoute.Dashboard(ts).categoryBreakdown;
    forall i | 0 <= i < |rows| ensures rows[i].total <= rows[0].total {
      if i > 0 {
        assert DashboardRoute.TotalAtLeast(rows[0], rows[i]);
      }
    }
  }

  /** On a comparison row the overspend of an over-budget row is never below
      -0.005, and the savings of an under-budget row with a positive limit
      exceed a tenth of the limit less 0.005: `actual` is shown rounded to
      cents while the status is decided on the exact spend. */
  lemma RowContribution(b: Budget, actual: real)
    ensures var row := ComparisonRoute.CompareRow(b, actual);
      && (row.status == Over ==> Overrun(row) > -0.005)
      && (row.status == Under && b.monthlyLimit > 0.0 ==> Headroom(row) >= 0.1 * b.monthlyLimit - 0.005)
  {
    ComparisonRoute.StatusAgainstLimit(actual, b.monthlyLimit);
  }

  /** A budget of 100 with 100.004 spent is over, yet the row shows an
      actual of 100.00, so it adds nothing to the overspend figure. */
  lemma OverWithoutOverspend(now: Date)
    ensures var row := ComparisonRoute.CompareRow(Budget("a", "Food", 100.0, "2025-01", now, now), 100.004);
      row.status == Over && Overrun(row) == 0.0
  {
    assert (10000.4 + 0.5).Floor == 10000;
  }

  /** The pattern divides the total of all expenses by the number of recent
      transactions listed, at most five: with more than five transactions
      and a positive total, the figure shown exceeds the true average. */
  lemma PatternAverageOverRecent(ts: seq<Transaction>)
    requires |ts| > 5
    ensures var d := DashboardRoute.Dashboard(ts);
      && |d.recentTransactions| == 5
      && PatternAverage(d) == d.totalExpenses / 5.0
      && (d.totalExpenses > 0.0 ==> PatternAverage(d) > d.totalExpenses / |ts| as real)
  {
    var d := DashboardRoute.Dashboard(ts);
    assert |d.recentTransactions| == 5;
    if d.totalExpenses > 0.0 {
      FewerPartsLarger(d.totalExpenses, |ts| as real);
    }
  }

  lemma FewerPartsLarger(x: real, n: real)
    requires x > 0.0 && n > 5.0
    ensures x / 5.0 > x / n
  {
    assert x / 5.0 - x / n == x * (n - 5.0) / (5.0 * n);
    assert x * (n - 5.0) > 0.0;
  }
}
