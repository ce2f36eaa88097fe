/** `GET /api/analytics/comaprison?month=YYYY-MM`: for every budget of the
    month, what was budgeted, what was spent in its category during that
    calendar month, the percentage of the limit used and a three-way
    status; rows sorted by category. */
module ComparisonRoute {
  import opened Common
  import opened Text
  import opened Rounding
  import opened Calendar
  import opened Types
  import opened Sorting
  import opened Aggregation

  const MonthRequiredMessage: string := "Month parameter is required (format: YYYY-MM)"
  const MonthFormatMessage: string := "Month must be in YYYY-MM format"

  /** `find({ month })` on the budgets: those of exactly that month, in
      store order. */
  function BudgetsOfMonth(budgets: seq<Budget>, month: string): (r: seq<Budget>)
    ensures forall b :: b in r <==> b in budgets && b.month == month
    ensures forall b :: multiset(r)[b] == if b.month == month then multiset(budgets)[b] else 0
    ensures |r| <= |budgets|
  {
    if budgets == [] then []
    else
      var init := BudgetsOfMonth(budgets[..|budgets| - 1], month);
      var b := budgets[|budgets| - 1];
      assert budgets == budgets[..|budgets| - 1] + [b];
      assert multiset(budgets) == multiset(budgets[..|budgets| - 1]) + multiset{b};
      if b.month == month then init + [b] else init
  }

  /** The calendar month the query stands for, after `split('-')`,
      `Number` and the `Date` constructor's carrying. */
  function QueryMonth(month: string): (int, int)
    requires IsMonthString(month)
  {
    var ym := SplitMonth(month);
    DateMonth(ym.0, ym.1)
  }

  /** The reference meaning of `actual`: the sum of the amounts of the
      transactions of category `c` dated in calendar month (y, m). */
  function CategorySpendIn(ts: seq<Transaction>, y: int, m: int, c: string): real {
    if ts == [] then 0.0
    else
      var t := ts[|ts| - 1];
      CategorySpendIn(ts[..|ts| - 1], y, m, c)
        + (if t.date.year == y && t.date.month == m && t.category == Some(c) then t.amount else 0.0)
  }

  /** `actual / monthlyLimit * 100`, or 0 for a limit that is not positive. */
  function Percent(actual: real, limit: real): real {
    if limit > 0.0 then actual / limit * 100.0 else 0.0
  }

  /** The status thresholds: at most 90% is under, above 100% is over,
      anything in between is on track. */
  function StatusFor(percentage: real): (s: Status)
    ensures s == Under <==> percentage <= 90.0
    ensures s == Over <==> percentage > 100.0
    ensures s == OnTrack <==> 90.0 < percentage <= 100.0
  {
    if percentage <= 90.0 then Under
    else if percentage > 100.0 then Over
    else OnTrack
  }

  /** For a positive limit the status compares the spend with the limit
      itself: over exactly when the limit is exceeded, under exactly when at
      most 90% of it is spent. A limit that is not positive is always under. */
  lemma StatusAgainstLimit(actual: real, limit: real)
    ensures limit > 0.0 ==>
      && (StatusFor(Percent(actual, limit)) == Over <==> actual > limit)
      && (StatusFor(Percent(actual, limit)) == Under <==> actual <= 0.9 * limit)
    ensures limit <= 0.0 ==> StatusFor(Percent(actual, limit)) == Under
  {
    if limit > 0.0 {
      var p := Percent(actual, limit);
      assert p * limit == actual * 100.0;
      ScaledComparison(p, limit, actual, 90.0);
      ScaledComparison(p, limit, actual, 100.0);
    }
  }

  lemma ScaledComparison(p: real, limit: real, actual: real, k: real)
    requires limit > 0.0 && p * limit == actual * 100.0
    ensures p <= k <==> actual * 100.0 <= k * limit
  {
    if p <= k {
      assert p * limit <= k * limit;
    } else {
      assert p * limit > k * limit;
    }
  }

  /** One row of `budgets.map(...)`: the status is decided on the
      unrounded percentage, and `actual` and `percentage` are then rounded
      half up to cents and tenths. */
  function CompareRow(b: Budget, actual: real): (row: BudgetComparison)
    ensures row.category == b.category && row.budgeted == b.monthlyLimit
    ensures actual - 0.005 < row.actual <= actual + 0.005
    ensures WholeCents(row.actual)
    ensures var p := Percent(actual, b.monthlyLimit);
      && p - 0.05 < row.percentage <= p + 0.05
      && row.status == StatusFor(p)
    ensures WholeTenths(row.percentage)
  {
    var p := Percent(actual, b.monthlyLimit);
    BudgetComparison(b.category, b.monthlyLimit, RoundCents(actual), RoundTenths(p), StatusFor(p))
  }

  /** The rows the endpoint computes for a well-formed month, before
      sorting: one per budget of that month, each against the spend of its
      category in the queried calendar month. */
  function ComparisonRows(budgets: seq<Budget>, ts: seq<Transaction>, month: string): (rows: seq<BudgetComparison>)
    requires IsMonthString(month)
    ensures |rows| == |BudgetsOfMonth(budgets, month)|
    ensures forall i :: 0 <= i < |rows| ==>
              var b := BudgetsOfMonth(budgets, month)[i];
              rows[i] == CompareRow(b, CategorySpendIn(ts, QueryMonth(month).0, QueryMonth(month).1, b.category))
  {
    var bs := BudgetsOfMonth(budgets, month);
    var ym := QueryMonth(month);
    seq(|bs|, i requires 0 <= i < |bs| => CompareRow(bs[i], CategorySpendIn(ts, ym.0, ym.1, bs[i].category)))
  }

  /** Budgets of the same category in the same month are compared against
      the same spend. */
  lemma SameCategorySameActual(budgets: seq<Budget>, ts: seq<Transaction>, month: string, i: int, j: int)
    requires IsMonthString(month)
    requires 0 <= i < |ComparisonRows(budgets, ts, month)| && 0 <= j < |ComparisonRows(budgets, ts, month)|
    requires ComparisonRows(budgets, ts, month)[i].category == ComparisonRows(budgets, ts, month)[j].category
    ensures ComparisonRows(budgets, ts, month)[i].actual == ComparisonRows(budgets, ts, month)[j].actual
  {
  }

  /** The `$match` on the month window followed by `$group` by category
      computes the reference spend. */
  lemma {:induction false} WindowedSpend(ts: seq<Transaction>, y: int, m: int, c: string)
    requires 1 <= m <= 12
    ensures KeySpend(DatedWithin(ts, StartOfMonth(y, m), EndOfMonth(y, m)), CategoryOf, Some(c))
            == CategorySpendIn(ts, y, m, c)
  {
    if ts != [] {
      var init := ts[..|ts| - 1];
      var t := ts[|ts| - 1];
      var lo, hi := StartOfMonth(y, m), EndOfMonth(y, m);
      var d := DatedWithin(init, lo, hi);
      WindowedSpend(init, y, m, c);
      MonthRange(t.date, y, m);
      var inside := AtOrBefore(lo, t.date) && AtOrBefore(t.date, hi);
      assert DatedWithin(ts, lo, hi) == if inside then d + [t] else d;
      assert CategorySpendIn(ts, y, m, c) == CategorySpendIn(init, y, m, c)
        + (if t.date.year == y && t.date.month == m && t.category == Some(c) then t.amount else 0.0);
      if inside {
        KeySpendSnoc(d, t, c);
      }
    }
  }

  lemma KeySpendSnoc(d: seq<Transaction>, t: Transaction, c: string)
    ensures KeySpend(d + [t], CategoryOf, Some(c))
            == KeySpend(d, CategoryOf, Some(c)) + (if t.category == Some(c) then t.amount else 0.0)
  {
    assert (d + [t])[..|d|] == d;
  }

  /** `actualSpendingMap`: filled by `forEach` with `Map.set`, so for a key
      that occurs more than once the last group wins. */
  method SpendingMap(gs: seq<Group<Option<string>>>) returns (m: map<Option<string>, real>)
    ensures forall k :: k in m <==> exists i :: 0 <= i < |gs| && gs[i].key == k
    ensures forall i :: 0 <= i < |gs| && (forall j :: i < j < |gs| ==> gs[j].key != gs[i].key) ==>
              m[gs[i].key] == gs[i].total
  {
    m := map[];
    var n := 0;
    while n < |gs|
      invariant 0 <= n <= |gs|
      invariant forall k :: k in m <==> exists i :: 0 <= i < n && gs[i].key == k
      invariant forall i :: 0 <= i < n && (forall j :: i < j < n ==> gs[j].key != gs[i].key) ==>
                  m[gs[i].key] == gs[i].total
    {
      m := m[gs[n].key := gs[n].total];
      n := n + 1;
    }
  }

  /** `actualSpendingMap.get(category) || 0`. */
  function Lookup(m: map<Option<string>, real>, c: string): real {
    if Some(c) in m then m[Some(c)] else 0.0
  }

  /** The map built from the month's groups answers every category with
      the reference spend, and 0 for a category without transactions. */
  /** `m` is what `SpendingMap` builds from the groups of the month's
      transactions: their keys, each with its last group's total. */
  ghost predicate MapsMonthGroups(ts: seq<Transaction>, month: string, m: map<Option<string>, real>)
    requires IsMonthString(month)
  {
    var ym := QueryMonth(month);
    var gs := GroupBy(DatedWithin(ts, StartOfMonth(ym.0, ym.1), EndOfMonth(ym.0, ym.1)), CategoryOf);
    && (forall k :: k in m <==> exists i :: 0 <= i < |gs| && gs[i].key == k)
    && (forall i :: 0 <= i < |gs| && (forall j :: i < j < |gs| ==> gs[j].key != gs[i].key) ==>
          m[gs[i].key] == gs[i].total)
  }

  lemma LookupIsSpend(ts: seq<Transaction>, month: string, m: map<Option<string>, real>, c: string)
    requires IsMonthString(month)
    requires MapsMonthGroups(ts, month, m)
    ensures Lookup(m, c) == CategorySpendIn(ts, QueryMonth(month).0, QueryMonth(month).1, c)
  {
    var ym := QueryMonth(month);
    var d := DatedWithin(ts, StartOfMonth(ym.0, ym.1), EndOfMonth(ym.0, ym.1));
    var gs := GroupBy(d, CategoryOf);
    WindowedSpend(ts, ym.0, ym.1, c);
    if Some(c) in m {
      var i :| 0 <= i < |gs| && gs[i].key == Some(c);
      assert m[Some(c)] == gs[i].total;
    } else {
      assert !HasKey(d, CategoryOf, Some(c));
      KeySpendAbsent(d, CategoryOf, Some(c));
    }
  }

  predicate CategoryLe(a: BudgetComparison, b: BudgetComparison) {
    StrLe(a.category, b.category)
  }

  lemma CategoryLeTotalPreorder()
    ensures TotalPreorder(CategoryLe)
  {
    forall a: BudgetComparison, b: BudgetComparison ensures CategoryLe(a, b) || CategoryLe(b, a) {
      StrLeTotal(a.category, b.category);
    }
    forall a: BudgetComparison, b: BudgetComparison, c: BudgetComparison | CategoryLe(a, b) && CategoryLe(b, c)
      ensures CategoryLe(a, c)
    {
      StrLeTransitive(a.category, b.category, c.category);
    }
  }

  /** The first `n` rows are in category order. */
  predicate SortedUpTo(s: seq<BudgetComparison>, n: int)
    requires 0 <= n <= |s|
  {
    forall p, q :: 0 <= p < q < n ==> CategoryLe(s[p], s[q])
  }

  /** `budgetComparisons.sort((a, b) => a.category.localeCompare(b.category))`,
      in place, by insertion. */
  method SortByCategory(a: array<BudgetComparison>)
    modifies a
    ensures forall p, q :: 0 <= p < q < a.Length ==> CategoryLe(a[p], a[q])
    ensures multiset(a[..]) == multiset(old(a[..]))
  {
    var i := 0;
    while i < a.Length
      invariant 0 <= i <= a.Length
      invariant SortedUpTo(a[..], i)
      invariant multiset(a[..]) == multiset(old(a[..]))
    {
      SinkLast(a, i);
      i := i + 1;
    }
  }

  /** Mid-step of an insertion: the rows up to `i` are in order except
      around position `j`, whose row is no later than any row after it. */
  predicate Sinking(s: seq<BudgetComparison>, i: int, j: int)
    requires 0 <= j <= i < |s|
  {
    && (forall p, q :: 0 <= p < q <= i && p != j && q != j ==> CategoryLe(s[p], s[q]))
    && (forall q :: j < q <= i ==> CategoryLe(s[j], s[q]))
  }

  /** One insertion step: swaps `a[i]` down into the ordered `a[..i]`. */
  method SinkLast(a: array<BudgetComparison>, i: int)
    requires 0 <= i < a.Length && SortedUpTo(a[..], i)
    modifies a
    ensures SortedUpTo(a[..], i + 1)
    ensures multiset(a[..]) == multiset(old(a[..]))
  {
    var j := i;
    while j > 0 && !CategoryLe(a[j - 1], a[j])
      invariant 0 <= j <= i
      invariant Sinking(a[..], i, j)
      invariant multiset(a[..]) == multiset(old(a[..]))
    {
      SwapKeepsSinking(a[..], i, j);
      a[j - 1], a[j] := a[j], a[j - 1];
      j := j - 1;
    }
    SinkingDone(a[..], i, j);
  }

  /** Swapping a row with an earlier one that sorts after it moves the
      gap one place down. */
  lemma SwapKeepsSinking(s: seq<BudgetComparison>, i: int, j: int)
    requires 0 < j <= i < |s| && Sinking(s, i, j) && !CategoryLe(s[j - 1], s[j])
    ensures Sinking(s[j - 1 := s[j]][j := s[j - 1]], i, j - 1)
  {
    StrLeTotal(s[j - 1].category, s[j].category);
  }

  /** A row that sorts after the one before it closes the gap. */
  lemma SinkingDone(s: seq<BudgetComparison>, i: int, j: int)
    requires 0 <= j <= i < |s| && Sinking(s, i, j)
    requires j == 0 || CategoryLe(s[j - 1], s[j])
    ensures SortedUpTo(s, i + 1)
  {
    forall p, q | 0 <= p < q <= i ensures CategoryLe(s[p], s[q]) {
      if q == j && p < j - 1 {
        StrLeTransitive(s[p].category, s[j - 1].category, s[j].category);
      }
    }
  }

  /** Rows computed against the spending map are the reference rows. */
  lemma RowsFromMap(budgets: seq<Budget>, ts: seq<Transaction>, month: string,
                    m: map<Option<string>, real>, rows: seq<BudgetComparison>)
    requires IsMonthString(month) && MapsMonthGroups(ts, month, m)
    requires var bs := BudgetsOfMonth(budgets, month);
      rows == seq(|bs|, i requires 0 <= i < |bs| => CompareRow(bs[i], Lookup(m, bs[i].category)))
    ensures rows == ComparisonRows(budgets, ts, month)
  {
    var bs := BudgetsOfMonth(budgets, month);
    forall i | 0 <= i < |bs| ensures rows[i] == ComparisonRows(budgets, ts, month)[i] {
      LookupIsSpend(ts, month, m, bs[i].category);
    }
  }

  /** The handler. Both month checks come before any store read; with no
      budgets for the month the reply is the empty list; otherwise it is
      the computed rows, reordered by category. */
  method CompareBudgets(month: Option<string>, budgets: seq<Budget>, ts: seq<Transaction>)
      returns (reply: Reply<seq<BudgetComparison>>)
    ensures !Given(month) ==> reply == Error(BadRequest(MonthRequiredMessage))
    ensures Given(month) && !IsMonthString(month.value) ==> reply == Error(BadRequest(MonthFormatMessage))
    ensures Given(month) && IsMonthString(month.value) ==>
              && reply.Ok?
              && multiset(reply.body) == multiset(ComparisonRows(budgets, ts, month.value))
              && SortedBy(reply.body, CategoryLe)
    ensures Given(month) && IsMonthString(month.value) && BudgetsOfMonth(budgets, month.value) == [] ==>
              reply == Ok([])
  {
    if !Given(month) {
      return Error(BadRequest(MonthRequiredMessage));
    }
    var m := month.value;
    if !IsMonthString(m) {
      return Error(BadRequest(MonthFormatMessage));
    }
    var bs := BudgetsOfMonth(budgets, m);
    if |bs| == 0 {
      return Ok([]);
    }
    var rows := MonthRows(budgets, ts, m);
    var sorted := SortedRows(rows);
    return Ok(sorted);
  }

  /** The rows of the month's budgets, each against the spend of its
      category over the month's transactions, in budget order. */
  method MonthRows(budgets: seq<Budget>, ts: seq<Transaction>, m: string)
      returns (rows: seq<BudgetComparison>)
    requires IsMonthString(m)
    ensures rows == ComparisonRows(budgets, ts, m)
  {
    var bs := BudgetsOfMonth(budgets, m);
    var spending := MonthSpending(ts, m);
    rows := seq(|bs|, i requires 0 <= i < |bs| => CompareRow(bs[i], Lookup(spending, bs[i].category)));
    RowsFromMap(budgets, ts, m, spending, rows);
  }

  /** The spend of each category over the transactions dated in the month. */
  method MonthSpending(ts: seq<Transaction>, m: string) returns (spending: map<Option<string>, real>)
    requires IsMonthString(m)
    ensures MapsMonthGroups(ts, m, spending)
  {
    var ym := QueryMonth(m);
    var matched := DatedWithin(ts, StartOfMonth(ym.0, ym.1), EndOfMonth(ym.0, ym.1));
    spending := SpendingMap(GroupBy(matched, CategoryOf));
  }

  /** The rows copied into an array and sorted there by category. */
  method SortedRows(rows: seq<BudgetComparison>) returns (sorted: seq<BudgetComparison>)
    ensures multiset(sorted) == multiset(rows) && SortedBy(sorted, CategoryLe)
  {
    var a := new BudgetComparison[|rows|](i requires 0 <= i < |rows| => rows[i]);
    assert a[..] == rows;
    SortByCategory(a);
    sorted := a[..];
  }

  /** The status is decided before rounding: a 90.04% use is shown as
      90.0% yet counts as on track. */
  lemma StatusBeforeRounding()
    ensures var row := CompareRow(Budget("b", "Food & Dining", 100.0, "2025-01", Instant(2025, 1, 1, 0), Instant(2025, 1, 1, 0)), 90.04);
      row.percentage == 90.0 && row.status == OnTrack
  {
    var p := Percent(90.04, 100.0);
    assert p == 90.04;
    assert MathRound(p * 10.0) == 900;
  }

  /** Two transactions of 50 and 150 against a limit of 100 give an actual
      of 200, a percentage of 200 and the status over. */
  lemma OverBudgetExample()
    ensures var row := CompareRow(Budget("b", "Food & Dining", 100.0, "2025-01", Instant(2025, 1, 1, 0), Instant(2025, 1, 1, 0)), 50.0 + 150.0);
      row.actual == 200.0 && row.percentage == 200.0 && row.status == Over
  {
    assert MathRound(200.0 * 100.0) == 20000;
    assert MathRound(Percent(200.0, 100.0) * 10.0) == 2000;
  }

  /** The month check is purely syntactic: `2025-13` passes it and the
      `Date` constructor carries it into January 2026, while `2025-00` is
      December 2024. */
  lemma MonthCarries()
    ensures IsMonthString("2025-13") && QueryMonth("2025-13") == (2026, 1)
    ensures IsMonthString("2025-00") && QueryMonth("2025-00") == (2024, 12)
  {
    var s := "2025-13";
    assert s[..4] == "2025" && s[5..] == "13";
    assert DigitsValue("2025") == 2025 by {
      assert "2025"[..3] == "202" && "202"[..2] == "20" && "20"[..1] == "2" && "2"[..0] == "";
    }
    assert DigitsValue("13") == 13 by {
      assert "13"[..1] == "1" && "1"[..0] == "";
    }
    var z := "2025-00";
    assert z[..4] == "2025" && z[5..] == "00";
    assert DigitsValue("00") == 0 by {
      assert "00"[..1] == "0" && "0"[..0] == "";
    }
  }
}
