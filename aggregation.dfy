/** The `$group` stage with a `$sum: '$amount'` accumulator, over the
    transactions a stage receives. Groups come out in the order their keys
    first occur (MongoDB leaves that order unspecified; every consumer here
    sorts or looks groups up by key). */
module Aggregation {
  import opened Common
  import opened Calendar
  import opened Types
  import opened Sorting
  import opened Sums

  /** `$sum` of `amount` over all transactions. */
  function SumAmounts(ts: seq<Transaction>): real {
    SumOf(ts, AmountOf)
  }

  function AmountOf(t: Transaction): real {
    t.amount
  }

  /** `$sum` of `amount` over the transactions whose group key is `k`. */
  function KeySpend<K(==)>(ts: seq<Transaction>, key: Transaction -> K, k: K): real {
    if ts == [] then 0.0
    else KeySpend(ts[..|ts| - 1], key, k) + (if key(ts[|ts| - 1]) == k then ts[|ts| - 1].amount else 0.0)
  }

  /** The group key `$category`. */
  function CategoryOf(t: Transaction): Option<string> {
    t.category
  }

  /** The group key `{ year: { $year: '$date' }, month: { $month: '$date' } }`. */
  function MonthOf(t: Transaction): (int, int) {
    (t.date.year, t.date.month)
  }

  predicate HasKey<K(==)>(ts: seq<Transaction>, key: Transaction -> K, k: K) {
    exists i :: 0 <= i < |ts| && key(ts[i]) == k
  }

  /** The distinct group keys, in order of first occurrence. */
  function DistinctKeys<K(==,!new)>(ts: seq<Transaction>, key: Transaction -> K): (ks: seq<K>)
    ensures Distinct(ks)
    ensures forall k :: k in ks <==> HasKey(ts, key, k)
  {
    if ts == [] then []
    else
      var init := ts[..|ts| - 1];
      var ks := DistinctKeys(init, key);
      var k := key(ts[|ts| - 1]);
      assert forall k' :: HasKey(ts, key, k') <==> HasKey(init, key, k') || k' == k by {
        forall k' | HasKey(ts, key, k') ensures HasKey(init, key, k') || k' == k {
          var i :| 0 <= i < |ts| && key(ts[i]) == k';
          if i < |ts| - 1 { assert init[i] == ts[i]; }
        }
        forall k' | HasKey(init, key, k') ensures HasKey(ts, key, k') {
          var i :| 0 <= i < |init| && key(init[i]) == k';
          assert ts[i] == init[i];
        }
      }
      if k in ks then ks else ks + [k]
  }

  datatype Group<K> = Group(key: K, total: real)

  function GroupsFor<K(==)>(ks: seq<K>, ts: seq<Transaction>, key: Transaction -> K): (gs: seq<Group<K>>)
    ensures |gs| == |ks|
    ensures forall i :: 0 <= i < |ks| ==> gs[i] == Group(ks[i], KeySpend(ts, key, ks[i]))
  {
    seq(|ks|, i requires 0 <= i < |ks| => Group(ks[i], KeySpend(ts, key, ks[i])))
  }

  /** `{ $group: { _id: key, total: { $sum: '$amount' } } }`: one group per
      distinct key, none for a key no transaction has, and each group's
      total is the sum of the amounts carrying its key. */
  function GroupBy<K(==,!new)>(ts: seq<Transaction>, key: Transaction -> K): (gs: seq<Group<K>>)
    ensures forall i, j :: 0 <= i < j < |gs| ==> gs[i].key != gs[j].key
    ensures forall k :: (exists i :: 0 <= i < |gs| && gs[i].key == k) <==> HasKey(ts, key, k)
    ensures forall i :: 0 <= i < |gs| ==> gs[i].total == KeySpend(ts, key, gs[i].key)
  {
    var ks := DistinctKeys(ts, key);
    var gs := GroupsFor(ks, ts, key);
    assert forall k :: (exists i :: 0 <= i < |gs| && gs[i].key == k) <==> k in ks by {
      forall k | k in ks ensures exists i :: 0 <= i < |gs| && gs[i].key == k {
        var i :| 0 <= i < |ks| && ks[i] == k;
        assert gs[i].key == k;
      }
    }
    gs
  }

  function GroupTotal<K>(g: Group<K>): real {
    g.total
  }

  function SumTotals<K>(gs: seq<Group<K>>): real {
    SumOf(gs, GroupTotal)
  }

  /** A key no transaction carries sums to zero. */
  lemma {:induction false} KeySpendAbsent<K>(ts: seq<Transaction>, key: Transaction -> K, k: K)
    requires !HasKey(ts, key, k)
    ensures KeySpend(ts, key, k) == 0.0
  {
    if ts != [] {
      var init := ts[..|ts| - 1];
      assert forall i :: 0 <= i < |init| ==> init[i] == ts[i];
      KeySpendAbsent(init, key, k);
    }
  }

  /** Appending one transaction adds its amount to the group of its key, if
      that key is among `ks`, and to no other. */
  lemma {:induction false} GroupsForAppend<K>(ks: seq<K>, ts: seq<Transaction>, t: Transaction, key: Transaction -> K)
    requires Distinct(ks)
    ensures SumTotals(GroupsFor(ks, ts + [t], key))
            == SumTotals(GroupsFor(ks, ts, key)) + (if key(t) in ks then t.amount else 0.0)
  {
    var ts' := ts + [t];
    assert ts'[..|ts'| - 1] == ts;
    if ks != [] {
      var init := ks[..|ks| - 1];
      var last := ks[|ks| - 1];
      assert Distinct(init);
      assert GroupsFor(ks, ts', key)[..|ks| - 1] == GroupsFor(init, ts', key);
      assert GroupsFor(ks, ts, key)[..|ks| - 1] == GroupsFor(init, ts, key);
      GroupsForAppend(init, ts, t, key);
      assert ks == init + [last];
      assert key(t) in ks <==> key(t) in init || key(t) == last;
      assert key(t) == last ==> key(t) !in init;
    }
  }

  /** The groups partition the transactions: their totals add up to the sum
      of all amounts. */
  lemma {:induction false} GroupTotalsPartition<K(!new)>(ts: seq<Transaction>, key: Transaction -> K)
    ensures SumTotals(GroupBy(ts, key)) == SumAmounts(ts)
  {
    if ts != [] {
      var init := ts[..|ts| - 1];
      var t := ts[|ts| - 1];
      assert ts == init + [t];
      var ks := DistinctKeys(init, key);
      GroupTotalsPartition(init, key);
      GroupsForAppend(ks, init, t, key);
      if key(t) !in ks {
        var ks' := ks + [key(t)];
        assert GroupsFor(ks', ts, key)[..|ks|] == GroupsFor(ks, ts, key);
        KeySpendAbsent(init, key, key(t));
        GroupsForAppend([], init, t, key);
        assert KeySpend(ts, key, key(t)) == KeySpend(init, key, key(t)) + t.amount;
      }
    }
  }

  /** Sums of positive amounts vanish only for no transactions. */
  lemma {:induction false} PositiveSum(ts: seq<Transaction>)
    requires forall i :: 0 <= i < |ts| ==> ts[i].amount > 0.0
    ensures ts != [] ==> SumAmounts(ts) > 0.0
    ensures SumAmounts(ts) >= 0.0
  {
    if ts != [] {
      PositiveSum(ts[..|ts| - 1]);
    }
  }

  /** The `$match` on `date` between two instants, inclusive. */
  function DatedWithin(ts: seq<Transaction>, start: Instant, end: Instant): (r: seq<Transaction>)
    ensures forall t :: t in r <==> t in ts && AtOrBefore(start, t.date) && AtOrBefore(t.date, end)
  {
    if ts == [] then []
    else
      var t := ts[|ts| - 1];
      var init := DatedWithin(ts[..|ts| - 1], start, end);
      assert ts == ts[..|ts| - 1] + [t];
      if AtOrBefore(start, t.date) && AtOrBefore(t.date, end) then init + [t] else init
  }
  /** Groups with distinct keys and key-determined totals stay keyed
      uniquely under any reordering, and keep their keys and totals. */
  lemma GroupPermutation<K(!new)>(ts: seq<Transaction>, key: Transaction -> K, r: seq<Group<K>>)
    requires multiset(r) == multiset(GroupBy(ts, key))
    ensures forall i, j :: 0 <= i < j < |r| ==> r[i].key != r[j].key
    ensures forall k :: (exists i :: 0 <= i < |r| && r[i].key == k) <==> HasKey(ts, key, k)
    ensures forall i :: 0 <= i < |r| ==> r[i].total == KeySpend(ts, key, r[i].key)
    ensures SumTotals(r) == SumAmounts(ts)
  {
    var gs := GroupBy(ts, key);
    assert Distinct(gs);
    PermutationKeepsDistinct(gs, r);
    forall i | 0 <= i < |r| ensures r[i] in gs {
      assert r[i] in multiset(gs);
    }
    forall k | HasKey(ts, key, k) ensures exists i :: 0 <= i < |r| && r[i].key == k {
      var i :| 0 <= i < |gs| && gs[i].key == k;
      assert gs[i] in multiset(r);
      var j :| 0 <= j < |r| && r[j] == gs[i];
    }
    SumOfPermutation(r, gs, GroupTotal);
    GroupTotalsPartition(ts, key);
  }

  /** `{ date: -1 }` as an order: `a` may come before `b` when it is dated at
      or after it. */
  predicate LaterOrSame(a: Transaction, b: Transaction) {
    AtOrBefore(b.date, a.date)
  }

  lemma LaterOrSameTotalPreorder()
    ensures TotalPreorder(LaterOrSame)
  {
  }

  /** `find({}).sort({ date: -1 })`: every transaction, newest first. */
  function NewestFirst(ts: seq<Transaction>): (r: seq<Transaction>)
    ensures multiset(r) == multiset(ts)
    ensures forall i, j :: 0 <= i < j < |r| ==> AtOrBefore(r[j].date, r[i].date)
  {
    LaterOrSameTotalPreorder();
    SortBy(ts, LaterOrSame)
  }
}
