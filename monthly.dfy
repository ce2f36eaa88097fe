/** `GET /api/analytics/monthlyexpenses`: group the transactions by the
    calendar (year, month) of their date, sum each group, sort ascending by
    year then month, and label each bucket `YYYY-MM`. The dashboard reuses
    the same pipeline. */
module MonthlyExpensesRoute {
  import opened Common
  import opened Text
  import opened Rounding
  import opened Calendar
  import opened Types
  import opened Sorting
  import opened Aggregation

  predicate MonthKeyLe(a: (int, int), b: (int, int)) {
    a.0 < b.0 || (a.0 == b.0 && a.1 <= b.1)
  }

  /** `$sort: { '_id.year': 1, '_id.month': 1 }` as an order on groups. */
  predicate BucketLe(a: Group<(int, int)>, b: Group<(int, int)>) {
    MonthKeyLe(a.key, b.key)
  }

  lemma BucketLeTotalPreorder()
    ensures TotalPreorder(BucketLe)
  {
  }

  /** The grouped and sorted buckets, before the `$project` stage: one per
      distinct (year, month), strictly ascending, each holding the sum of
      the amounts dated in it. */
  function MonthlyBuckets(ts: seq<Transaction>): (bs: seq<Group<(int, int)>>)
    ensures forall i, j :: 0 <= i < j < |bs| ==> MonthKeyLe(bs[i].key, bs[j].key) && bs[i].key != bs[j].key
    ensures forall k :: (exists i :: 0 <= i < |bs| && bs[i].key == k) <==> HasKey(ts, MonthOf, k)
    ensures forall i :: 0 <= i < |bs| ==> bs[i].total == KeySpend(ts, MonthOf, bs[i].key)
    ensures SumTotals(bs) == SumAmounts(ts)
  {
    var bs := SortBy(GroupBy(ts, MonthOf), BucketLe);
    BucketLeTotalPreorder();
    GroupPermutation(ts, MonthOf, bs);
    bs
  }

  /** The month part of the label: a leading `0` below 10. */
  function PaddedMonth(m: int): (s: string)
    ensures 1 <= m <= 12 ==> |s| == 2 && AllDigits(s)
  {
    if m < 10 then "0" + IntToString(m) else IntToString(m)
  }

  /** `$concat: [$toString year, '-', padded month]`. */
  function MonthLabel(key: (int, int)): (s: string)
    ensures 1 <= key.1 <= 12 ==> |s| >= 4 && s[|s| - 3] == '-'
  {
    IntToString(key.0) + "-" + PaddedMonth(key.1)
  }

  /** A January 2025 date goes to the bucket labelled `2025-01`. */
  lemma JanuaryLabel()
    ensures MonthLabel((2025, 1)) == "2025-01"
    ensures MonthLabel((2025, 12)) == "2025-12"
  {
    YearText();
    assert NatToString(1) == "1";
    assert PaddedMonth(1) == "01";
    assert NatToString(12) == "12";
    assert PaddedMonth(12) == "12";
  }

  lemma YearText()
    ensures IntToString(2025) == "2025"
  {
    assert NatToString(2) == "2";
    assert NatToString(20) == "20";
    assert NatToString(202) == "202";
    assert NatToString(2025) == "2025";
  }

  lemma PaddedMonthInjective(a: int, b: int)
    requires 1 <= a <= 12 && 1 <= b <= 12
    requires PaddedMonth(a) == PaddedMonth(b)
    ensures a == b
  {
    if a < 10 && b < 10 {
      assert PaddedMonth(a)[1..] == IntToString(a);
      assert PaddedMonth(b)[1..] == IntToString(b);
      IntToStringInjective(a, b);
    } else if a >= 10 && b >= 10 {
      IntToStringInjective(a, b);
    }
  }

  /** Different months of valid dates never share a label. */
  lemma MonthLabelInjective(a: (int, int), b: (int, int))
    requires 1 <= a.1 <= 12 && 1 <= b.1 <= 12
    requires MonthLabel(a) == MonthLabel(b)
    ensures a == b
  {
    var la, lb := MonthLabel(a), MonthLabel(b);
    assert la[..|la| - 3] == IntToString(a.0);
    assert lb[..|lb| - 3] == IntToString(b.0);
    assert la[|la| - 2..] == PaddedMonth(a.1);
    assert lb[|lb| - 2..] == PaddedMonth(b.1);
    IntToStringInjective(a.0, b.0);
    PaddedMonthInjective(a.1, b.1);
  }

  /** For four-digit years the label has the `^\d{4}-\d{2}$` shape budgets
      use, and reading it back gives the bucket's year and month: a bucket
      label is a valid `month` for the budget comparison. */
  lemma MonthLabelIsBudgetMonth(key: (int, int))
    requires 1000 <= key.0 <= 9999 && 1 <= key.1 <= 12
    ensures IsMonthString(MonthLabel(key))
    ensures SplitMonth(MonthLabel(key)) == key
  {
    var ys, ms := IntToString(key.0), PaddedMonth(key.1);
    NatToStringLength(key.0);
    NatToStringRoundTrip(key.0);
    PaddedMonthValue(key.1);
    LabelParts(ys, ms);
  }

  /** A four-digit year and a two-digit month joined by `-` have the month
      pattern, and splitting them gives back the two parts. */
  lemma LabelParts(ys: string, ms: string)
    requires |ys| == 4 && AllDigits(ys) && |ms| == 2 && AllDigits(ms)
    ensures IsMonthString(ys + "-" + ms)
    ensures SplitMonth(ys + "-" + ms) == (DigitsValue(ys), DigitsValue(ms))
  {
    var lbl := ys + "-" + ms;
    assert lbl[..4] == ys && lbl[5..] == ms;
  }

  /** The padded month reads back as the month. */
  lemma PaddedMonthValue(m: int)
    requires 1 <= m <= 12
    ensures DigitsValue(PaddedMonth(m)) == m
  {
    var ms := PaddedMonth(m);
    if m < 10 {
      assert ms == "0" + NatToString(m);
      assert ms[..1] == "0";
      assert DigitsValue(ms) == DigitsValue(ms[..1]) * 10 + (ms[1] as int - '0' as int);
      assert DigitsValue(ms[..1]) == 0 by {
        assert ms[..1][..0] == [];
      }
    } else {
      NatToStringRoundTrip(m);
    }
  }

  lemma {:induction false} NatToStringLength(n: nat)
    requires 1000 <= n <= 9999
    ensures |NatToString(n)| == 4
  {
    var a := n / 10;
    assert 100 <= a <= 999;
    var b := a / 10;
    assert 10 <= b <= 99;
    var c := b / 10;
    assert 1 <= c <= 9;
    assert |NatToString(b)| == |NatToString(c)| + 1 == 2;
    assert |NatToString(a)| == |NatToString(b)| + 1;
    assert |NatToString(n)| == |NatToString(a)| + 1;
  }

  /** `$project`: the label and the `$round: ['$total', 2]` of each bucket. */
  function Project(b: Group<(int, int)>): MonthlyExpense {
    MonthlyExpense(MonthLabel(b.key), MongoRound2(b.total))
  }

  /** The endpoint's reply. */
  function MonthlyExpenses(ts: seq<Transaction>): (r: seq<MonthlyExpense>)
    ensures |r| == |MonthlyBuckets(ts)|
    ensures ts == [] ==> r == []
  {
    var bs := MonthlyBuckets(ts);
    if ts == [] then []
    else seq(|bs|, i requires 0 <= i < |bs| => Project(bs[i]))
  }

  /** Each entry is the label of a distinct month of the transactions, in
      ascending order, with that month's total rounded to cents; the labels
      are pairwise distinct. */
  lemma MonthlyExpensesMeaning(ts: seq<Transaction>)
    ensures var r, bs := MonthlyExpenses(ts), MonthlyBuckets(ts);
      && (forall i :: 0 <= i < |r| ==>
            r[i].month == MonthLabel(bs[i].key)
            && r[i].total == MongoRound2(KeySpend(ts, MonthOf, bs[i].key)))
      && (forall i, j :: 0 <= i < j < |r| ==> r[i].month != r[j].month)
  {
    var r, bs := MonthlyExpenses(ts), MonthlyBuckets(ts);
    forall i, j | 0 <= i < j < |r| ensures r[i].month != r[j].month {
      BucketLabelsDiffer(ts, bs, i, j);
    }
  }

  /** The last two entries are labelled with the last two months and hold
      their spends to within half a cent. */
  lemma LatestEntries(ts: seq<Transaction>)
    requires |MonthlyBuckets(ts)| >= 2
    ensures var r, bs := MonthlyExpenses(ts), MonthlyBuckets(ts);
      var n := |bs|;
      var last, prev := KeySpend(ts, MonthOf, bs[n - 1].key), KeySpend(ts, MonthOf, bs[n - 2].key);
      && r[n - 1].month == MonthLabel(bs[n - 1].key)
      && last - 0.005 <= r[n - 1].total <= last + 0.005
      && r[n - 2].month == MonthLabel(bs[n - 2].key)
      && prev - 0.005 <= r[n - 2].total <= prev + 0.005
  {
    MonthlyExpensesMeaning(ts);
  }

  lemma BucketLabelsDiffer(ts: seq<Transaction>, bs: seq<Group<(int, int)>>, i: int, j: int)
    requires bs == MonthlyBuckets(ts) && 0 <= i < j < |bs|
    ensures MonthLabel(bs[i].key) != MonthLabel(bs[j].key)
  {
    var ki, kj := bs[i].key, bs[j].key;
    assert HasKey(ts, MonthOf, ki) && HasKey(ts, MonthOf, kj);
    var a :| 0 <= a < |ts| && MonthOf(ts[a]) == ki;
    var b :| 0 <= b < |ts| && MonthOf(ts[b]) == kj;
    if MonthLabel(ki) == MonthLabel(kj) {
      MonthLabelInjective(ki, kj);
    }
  }

  /** `later` is the latest month with transactions and `earlier` the
      latest of the others. */
  predicate LatestTwo(ts: seq<Transaction>, earlier: (int, int), later: (int, int)) {
    && HasKey(ts, MonthOf, earlier) && HasKey(ts, MonthOf, later) && earlier != later
    && MonthKeyLe(earlier, later)
    && forall i :: 0 <= i < |ts| && MonthOf(ts[i]) != later ==> MonthKeyLe(MonthOf(ts[i]), earlier)
  }

  /** The transactions determine their two latest months. */
  lemma LatestTwoUnique(ts: seq<Transaction>, earlier: (int, int), later: (int, int), earlier': (int, int), later': (int, int))
    requires LatestTwo(ts, earlier, later) && LatestTwo(ts, earlier', later')
    ensures earlier == earlier' && later == later'
  {
    var a :| 0 <= a < |ts| && MonthOf(ts[a]) == later;
    var b :| 0 <= b < |ts| && MonthOf(ts[b]) == later';
    assert MonthKeyLe(later', later) && MonthKeyLe(later, later');
    MonthKeyAntisymmetric(later, later');
    assert MonthKeyLe(earlier', earlier) && MonthKeyLe(earlier, earlier');
    MonthKeyAntisymmetric(earlier, earlier');
  }

  lemma MonthKeyAntisymmetric(a: (int, int), b: (int, int))
    requires MonthKeyLe(a, b) && MonthKeyLe(b, a)
    ensures a == b
  {
  }

  /** The last two buckets are the two latest months with transactions. */
  lemma LastBucketsLatest(ts: seq<Transaction>)
    requires |MonthlyBuckets(ts)| >= 2
    ensures var bs := MonthlyBuckets(ts);
      LatestTwo(ts, bs[|bs| - 2].key, bs[|bs| - 1].key)
  {
    LastOfAscendingLatest(ts, MonthlyBuckets(ts));
  }

  lemma LastOfAscendingLatest(ts: seq<Transaction>, bs: seq<Group<(int, int)>>)
    requires |bs| >= 2
    requires forall i, j :: 0 <= i < j < |bs| ==> MonthKeyLe(bs[i].key, bs[j].key) && bs[i].key != bs[j].key
    requires forall k :: (exists i :: 0 <= i < |bs| && bs[i].key == k) <==> HasKey(ts, MonthOf, k)
    ensures LatestTwo(ts, bs[|bs| - 2].key, bs[|bs| - 1].key)
  {
    var n := |bs|;
    assert HasKey(ts, MonthOf, bs[n - 2].key) && HasKey(ts, MonthOf, bs[n - 1].key);
    forall t | 0 <= t < |ts| && MonthOf(ts[t]) != bs[n - 1].key ensures MonthKeyLe(MonthOf(ts[t]), bs[n - 2].key) {
      assert HasKey(ts, MonthOf, MonthOf(ts[t]));
      var i :| 0 <= i < n && bs[i].key == MonthOf(ts[t]);
      if i < n - 2 {
        assert MonthKeyLe(bs[i].key, bs[n - 2].key);
      }
    }
  }

  /** `prev` and `last` are the entries of `earlier` and `later`, the two
      latest months with transactions: each is labelled with its month and
      holds that month's spend to within half a cent. */
  predicate LatestEntriesOf(ts: seq<Transaction>, prev: MonthlyExpense, last: MonthlyExpense, earlier: (int, int), later: (int, int)) {
    && LatestTwo(ts, earlier, later)
    && last.month == MonthLabel(later) && prev.month == MonthLabel(earlier)
    && KeySpend(ts, MonthOf, later) - 0.005 <= last.total <= KeySpend(ts, MonthOf, later) + 0.005
    && KeySpend(ts, MonthOf, earlier) - 0.005 <= prev.total <= KeySpend(ts, MonthOf, earlier) + 0.005
  }

  /** With two or more months of transactions the reply ends with the
      entries of the latest two. */
  lemma ReplyEndsWithLatestTwo(ts: seq<Transaction>)
    requires |MonthlyBuckets(ts)| >= 2
    ensures var ms, bs := MonthlyExpenses(ts), MonthlyBuckets(ts);
      var n := |bs|;
      |ms| == n && LatestEntriesOf(ts, ms[n - 2], ms[n - 1], bs[n - 2].key, bs[n - 1].key)
  {
    LatestEntries(ts);
    LastBucketsLatest(ts);
  }

  /** Every transaction falls in exactly one bucket. */
  lemma ExactlyOneBucket(ts: seq<Transaction>, t: Transaction)
    requires t in ts
    ensures exists i :: 0 <= i < |MonthlyBuckets(ts)| && MonthlyBuckets(ts)[i].key == MonthOf(t)
    ensures forall i, j ::
              (0 <= i < |MonthlyBuckets(ts)| && 0 <= j < |MonthlyBuckets(ts)|
               && MonthlyBuckets(ts)[i].key == MonthOf(t) && MonthlyBuckets(ts)[j].key == MonthOf(t)) ==> i == j
  {
    var k :| 0 <= k < |ts| && ts[k] == t;
    var bs := MonthlyBuckets(ts);
    assert HasKey(ts, MonthOf, MonthOf(t));
    assert exists i :: 0 <= i < |bs| && bs[i].key == MonthOf(t);
  }
}
