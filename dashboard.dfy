/** `GET /api/analytics/dashboard`: the grand total, the per-category
    breakdown with each category's share, the five most recent transactions
    and the monthly totals, all computed over the whole collection. */
module DashboardRoute {
  import opened Common
  import opened Rounding
  import opened Calendar
  import opened Types
  import opened Sorting
  import opened Sums
  import opened Aggregation
  import opened MonthlyExpensesRoute

  /** `totalExpenses || 1`: the divisor of the shares, 1 when the grand
      total is zero. */
  function Divisor(total: real): (d: real)
    ensures d != 0.0
  {
    if total == 0.0 then 1.0 else total
  }

  /** A category's unrounded share of the grand total, in percent. */
  function ShareOf(g: Group<Option<string>>, grand: real): real {
    g.total / Divisor(grand) * 100.0
  }

  /** The `$project` stage: the key as `category`, the total rounded to
      cents and the share rounded to one decimal, both by `$round`. */
  function ProjectCategory(g: Group<Option<string>>, grand: real): CategoryExpense {
    CategoryExpense(g.key, MongoRound2(g.total), MongoRound1(ShareOf(g, grand)))
  }

  /** The row the breakdown holds for category `c`. */
  function BreakdownRow(ts: seq<Transaction>, c: Option<string>): (e: CategoryExpense)
    ensures e.category == c
    ensures var spend := KeySpend(ts, CategoryOf, c);
      && spend - 0.005 <= e.total <= spend + 0.005
      && EvenCentAtHalf(spend, e.total)
      && var share := spend / Divisor(SumAmounts(ts)) * 100.0;
         && share - 0.05 <= e.percentage <= share + 0.05
         && EvenTenthAtHalf(share, e.percentage)
    ensures WholeCents(e.total) && WholeTenths(e.percentage)
  {
    ProjectCategory(Group(c, KeySpend(ts, CategoryOf, c)), SumAmounts(ts))
  }

  /** `$sort: { total: -1 }`, applied to the rounded totals. */
  predicate TotalAtLeast(a: CategoryExpense, b: CategoryExpense) {
    a.total >= b.total
  }

  lemma TotalAtLeastTotalPreorder()
    ensures TotalPreorder(TotalAtLeast)
  {
  }

  function Percentage(e: CategoryExpense): real {
    e.percentage
  }

  function RowTotal(e: CategoryExpense): real {
    e.total
  }

  /** The projected rows before `$sort`. */
  function ProjectedRows(ts: seq<Transaction>): (rows: seq<CategoryExpense>)
    ensures |rows| == |GroupBy(ts, CategoryOf)|
    ensures forall i :: 0 <= i < |rows| ==>
              rows[i] == ProjectCategory(GroupBy(ts, CategoryOf)[i], SumAmounts(ts))
  {
    var gs := GroupBy(ts, CategoryOf);
    seq(|gs|, i requires 0 <= i < |gs| => ProjectCategory(gs[i], SumAmounts(ts)))
  }

  /** The category breakdown: one row per distinct category (`null` for
      transactions without one), none for a category nobody spent in, each
      row holding that category's rounded spend and share, ordered from the
      largest rounded total down. */
  function CategoryBreakdown(ts: seq<Transaction>): (r: seq<CategoryExpense>)
    ensures multiset(r) == multiset(ProjectedRows(ts))
    ensures forall i, j :: 0 <= i < j < |r| ==> r[i].total >= r[j].total
    ensures forall i, j :: 0 <= i < j < |r| ==> r[i].category != r[j].category
    ensures forall c :: (exists i :: 0 <= i < |r| && r[i].category == c) <==> HasKey(ts, CategoryOf, c)
    ensures forall i :: 0 <= i < |r| ==> r[i] == BreakdownRow(ts, r[i].category)
  {
    var rows := ProjectedRows(ts);
    var r := SortBy(rows, TotalAtLeast);
    TotalAtLeastTotalPreorder();
    BreakdownPermutation(ts, rows, r);
    r
  }

  lemma BreakdownPermutation(ts: seq<Transaction>, rows: seq<CategoryExpense>, r: seq<CategoryExpense>)
    requires rows == ProjectedRows(ts)
    requires multiset(r) == multiset(rows)
    ensures forall i, j :: 0 <= i < j < |r| ==> r[i].category != r[j].category
    ensures forall c :: (exists i :: 0 <= i < |r| && r[i].category == c) <==> HasKey(ts, CategoryOf, c)
    ensures forall i :: 0 <= i < |r| ==> r[i] == BreakdownRow(ts, r[i].category)
  {
    var gs := GroupBy(ts, CategoryOf);
    assert Distinct(rows) by {
      forall i, j | 0 <= i < j < |rows| ensures rows[i] != rows[j] {
        assert rows[i].category == gs[i].key && rows[j].category == gs[j].key;
      }
    }
    PermutationKeepsDistinct(rows, r);
    forall i | 0 <= i < |r| ensures r[i] == BreakdownRow(ts, r[i].category) && HasKey(ts, CategoryOf, r[i].category) {
      assert r[i] in multiset(rows);
      var k :| 0 <= k < |rows| && rows[k] == r[i];
      assert gs[k] == Group(gs[k].key, KeySpend(ts, CategoryOf, gs[k].key));
    }
    forall c | HasKey(ts, CategoryOf, c) ensures exists i :: 0 <= i < |r| && r[i].category == c {
      var k :| 0 <= k < |gs| && gs[k].key == c;
      assert rows[k] in multiset(r);
      var i :| 0 <= i < |r| && r[i] == rows[k];
    }
  }

  /** The share measure of one grand total, as a function on groups. */
  function SharesOf(grand: real): Group<Option<string>> -> real {
    g => ShareOf(g, grand)
  }

  /** Before rounding, the shares of all categories add up to 100% whenever
      the grand total is not zero. */
  lemma SharesSumTo100(ts: seq<Transaction>)
    requires SumAmounts(ts) != 0.0
    ensures SumOf(GroupBy(ts, CategoryOf), SharesOf(SumAmounts(ts))) == 100.0
  {
    var T := SumAmounts(ts);
    var gs := GroupBy(ts, CategoryOf);
    SumOfScale(gs, GroupTotal, SharesOf(T), 100.0 / T);
    GroupTotalsPartition(ts, CategoryOf);
  }

  lemma ProjectionCloseAt(g: Group<Option<string>>, row: CategoryExpense, grand: real)
    requires row == ProjectCategory(g, grand)
    ensures -0.05 <= Percentage(row) - SharesOf(grand)(g) <= 0.05
    ensures -0.005 <= RowTotal(row) - GroupTotal(g) <= 0.005
  {
    assert SharesOf(grand)(g) == ShareOf(g, grand);
  }

  /** Projected percentages are within 0.05 of the shares, and projected
      totals within half a cent of the group totals, so their sums are too. */
  lemma ProjectionClose(gs: seq<Group<Option<string>>>, rows: seq<CategoryExpense>, grand: real)
    requires |rows| == |gs|
    requires forall i :: 0 <= i < |rows| ==> rows[i] == ProjectCategory(gs[i], grand)
    ensures -0.05 * |rows| as real <= SumOf(rows, Percentage) - SumOf(gs, SharesOf(grand)) <= 0.05 * |rows| as real
    ensures -0.005 * |rows| as real <= SumOf(rows, RowTotal) - SumOf(gs, GroupTotal) <= 0.005 * |rows| as real
  {
    forall i | 0 <= i < |rows| ensures -0.05 <= Percentage(rows[i]) - SharesOf(grand)(gs[i]) <= 0.05 {
      ProjectionCloseAt(gs[i], rows[i], grand);
    }
    forall i | 0 <= i < |rows| ensures -0.005 <= RowTotal(rows[i]) - GroupTotal(gs[i]) <= 0.005 {
      ProjectionCloseAt(gs[i], rows[i], grand);
    }
    SumOfClose(rows, gs, Percentage, SharesOf(grand), 0.05);
    SumOfClose(rows, gs, RowTotal, GroupTotal, 0.005);
  }

  /** After `$round`, the reported percentages add up to 100% up to 0.05
      per category. */
  lemma PercentagesNearly100(ts: seq<Transaction>)
    requires SumAmounts(ts) != 0.0
    ensures var r := CategoryBreakdown(ts);
      100.0 - 0.05 * |r| as real <= SumOf(r, Percentage) <= 100.0 + 0.05 * |r| as real
  {
    var rows := ProjectedRows(ts);
    var r := CategoryBreakdown(ts);
    SumOfPermutation(r, rows, Percentage);
    ProjectionClose(GroupBy(ts, CategoryOf), rows, SumAmounts(ts));
    SharesSumTo100(ts);
  }

  /** The rounded category totals add up to the grand total up to half a
      cent per category. */
  lemma BreakdownTotalsNearlyGrandTotal(ts: seq<Transaction>)
    ensures var r := CategoryBreakdown(ts);
      SumAmounts(ts) - 0.005 * |r| as real <= SumOf(r, RowTotal) <= SumAmounts(ts) + 0.005 * |r| as real
  {
    var rows := ProjectedRows(ts);
    var r := CategoryBreakdown(ts);
    SumOfPermutation(r, rows, RowTotal);
    ProjectionClose(GroupBy(ts, CategoryOf), rows, SumAmounts(ts));
    GroupTotalsPartition(ts, CategoryOf);
  }

  /** With a zero grand total the divisor is 1, so a category's percentage
      is its rounded spend times 100 rather than 0. */
  lemma ZeroGrandTotal(ts: seq<Transaction>, c: Option<string>)
    requires SumAmounts(ts) == 0.0
    ensures BreakdownRow(ts, c).percentage == MongoRound1(KeySpend(ts, CategoryOf, c) * 100.0)
  {
    var g := Group(c, KeySpend(ts, CategoryOf, c));
    assert Divisor(SumAmounts(ts)) == 1.0;
    assert ShareOf(g, SumAmounts(ts)) == KeySpend(ts, CategoryOf, c) * 100.0;
  }

  /** When every amount is positive, as the create and update handlers
      ensure, a zero grand total only happens with no transactions, and the
      breakdown is then empty. */
  lemma ZeroTotalNoRows(ts: seq<Transaction>)
    requires SumAmounts(ts) == 0.0
    requires forall i :: 0 <= i < |ts| ==> ts[i].amount > 0.0
    ensures ts == [] && CategoryBreakdown(ts) == []
  {
    PositiveSum(ts);
    assert ts == [];
    assert DistinctKeys(ts, CategoryOf) == [];
    assert ProjectedRows(ts) == [];
    var r := CategoryBreakdown(ts);
    assert |r| == |multiset(r)| == |multiset(ProjectedRows(ts))|;
  }

  function RecentTransactions(ts: seq<Transaction>): (r: seq<Transaction>)
    ensures |r| == if |ts| < 5 then |ts| else 5
    ensures forall i, j :: 0 <= i < j < |r| ==> AtOrBefore(r[j].date, r[i].date)
    ensures multiset(r) <= multiset(ts)
    ensures forall i, t :: 0 <= i < |r| && t in ts && t !in r ==> AtOrBefore(t.date, r[i].date)
  {
    var s := NewestFirst(ts);
    var n := if |s| < 5 then |s| else 5;
    NewestPrefix(ts, s, n);
    s[..n]
  }

  /** A prefix of the newest-first order holds transactions no older than
      any it leaves out. */
  lemma NewestPrefix(ts: seq<Transaction>, s: seq<Transaction>, n: nat)
    requires multiset(s) == multiset(ts) && n <= |s|
    requires forall i, j :: 0 <= i < j < |s| ==> AtOrBefore(s[j].date, s[i].date)
    ensures multiset(s[..n]) <= multiset(ts)
    ensures forall i, t :: 0 <= i < n && t in ts && t !in s[..n] ==> AtOrBefore(t.date, s[..n][i].date)
  {
    assert s == s[..n] + s[n..];
    assert multiset(s) == multiset(s[..n]) + multiset(s[n..]);
    forall i, t | 0 <= i < n && t in ts && t !in s[..n] ensures AtOrBefore(t.date, s[..n][i].date) {
      assert t in multiset(s);
      var j :| 0 <= j < |s| && s[j] == t;
      assert j >= n;
    }
  }

  /** The summary: the grand total rounded to cents by `Math.round` (half
      up, unlike the `$round` of the other figures), the breakdown, the
      recent transactions and the same monthly series as the monthly
      endpoint. */
  function Dashboard(ts: seq<Transaction>): (d: DashboardSummary)
    ensures SumAmounts(ts) - 0.005 < d.totalExpenses <= SumAmounts(ts) + 0.005
    ensures WholeCents(d.totalExpenses)
    ensures d.categoryBreakdown == CategoryBreakdown(ts)
    ensures d.recentTransactions == RecentTransactions(ts)
    ensures d.monthlyExpenses == MonthlyExpenses(ts)
    ensures ts == [] ==> d == DashboardSummary(0.0, [], [], [])
  {
    DashboardSummary(
      RoundCents(SumAmounts(ts)),
      CategoryBreakdown(ts),
      RecentTransactions(ts),
      MonthlyExpenses(ts))
  }
}
