/** Sorting by a caller-given order, as the `$sort` stages and
    `Array.prototype.sort` do it: the result is a permutation of the input,
    ordered by `le` whenever `le` is a total preorder. */
module Sorting {

  ghost predicate TotalPreorder<T(!new)>(le: (T, T) -> bool) {
    && (forall x, y :: le(x, y) || le(y, x))
    && (forall x, y, z :: le(x, y) && le(y, z) ==> le(x, z))
  }

  predicate SortedBy<T>(s: seq<T>, le: (T, T) -> bool) {
    forall i, j :: 0 <= i < j < |s| ==> le(s[i], s[j])
  }

  /** Insert `x` before the first element it is `le` to. */
  function Insert<T(!new)>(x: T, s: seq<T>, le: (T, T) -> bool): (r: seq<T>)
    ensures multiset(r) == multiset(s) + multiset{x}
    ensures TotalPreorder(le) && SortedBy(s, le) ==> SortedBy(r, le)
  {
    if s == [] then [x]
    else if le(x, s[0]) then
      assert TotalPreorder(le) && SortedBy(s, le) ==> SortedBy([x] + s, le) by {
        if TotalPreorder(le) && SortedBy(s, le) { SortedCons(x, s, le); }
      }
      [x] + s
    else
      var rest := Insert(x, s[1..], le);
      assert s == [s[0]] + s[1..];
      assert TotalPreorder(le) && SortedBy(s, le) ==> SortedBy([s[0]] + rest, le) by {
        if TotalPreorder(le) && SortedBy(s, le) { InsertedAfterHead(x, s, rest, le); }
      }
      [s[0]] + rest
  }

  /** An element `le` to the head of a sorted sequence can go in front. */
  lemma SortedCons<T(!new)>(x: T, s: seq<T>, le: (T, T) -> bool)
    requires TotalPreorder(le) && SortedBy(s, le)
    requires s != [] && le(x, s[0])
    ensures SortedBy([x] + s, le)
  {
    forall j | 0 < j < |s| + 1 ensures le(([x] + s)[0], ([x] + s)[j]) {
      if j > 1 { assert le(s[0], s[j - 1]); }
    }
  }

  /** When `x` does not go before the head, the head stays in front of the
      sorted insertion into the tail. */
  lemma InsertedAfterHead<T(!new)>(x: T, s: seq<T>, rest: seq<T>, le: (T, T) -> bool)
    requires TotalPreorder(le) && SortedBy(s, le)
    requires s != [] && !le(x, s[0])
    requires multiset(rest) == multiset(s[1..]) + multiset{x} && SortedBy(rest, le)
    ensures SortedBy([s[0]] + rest, le)
  {
    assert le(s[0], x);
    forall j | 0 <= j < |rest| ensures le(s[0], rest[j]) {
      assert rest[j] in multiset(rest);
      if rest[j] != x {
        assert rest[j] in multiset(s[1..]);
        var k :| 0 <= k < |s[1..]| && s[1..][k] == rest[j];
        assert le(s[0], s[k + 1]);
      }
    }
  }

  /** Insertion sort; stable, since an element goes before the equal ones
      that follow it. */
  function SortBy<T(!new)>(s: seq<T>, le: (T, T) -> bool): (r: seq<T>)
    ensures multiset(r) == multiset(s)
    ensures |r| == |s|
    ensures TotalPreorder(le) ==> SortedBy(r, le)
  {
    if s == [] then []
    else
      assert s == [s[0]] + s[1..];
      var r := Insert(s[0], SortBy(s[1..], le), le);
      assert |r| == |multiset(r)|;
      r
  }

  predicate Distinct<T(==)>(s: seq<T>) {
    forall i, j :: 0 <= i < j < |s| ==> s[i] != s[j]
  }

  /** An element occurs at most once in a sequence without repetitions. */
  lemma {:induction false} DistinctCount<T>(s: seq<T>, x: T)
    requires Distinct(s)
    ensures multiset(s)[x] <= 1
  {
    if s != [] {
      assert s == [s[0]] + s[1..];
      assert Distinct(s[1..]) by {
        forall i, j | 0 <= i < j < |s| - 1 ensures s[1..][i] != s[1..][j] {
          assert s[1..][i] == s[i + 1] && s[1..][j] == s[j + 1];
        }
      }
      DistinctCount(s[1..], x);
      if s[0] == x {
        assert x !in s[1..];
      }
    }
  }

  /** A permutation of a sequence without repetitions has none either. */
  lemma PermutationKeepsDistinct<T>(s: seq<T>, r: seq<T>)
    requires Distinct(s) && multiset(r) == multiset(s)
    ensures Distinct(r)
  {
    forall i, j | 0 <= i < j < |r| ensures r[i] != r[j] {
      if r[i] == r[j] {
        var x := r[i];
        assert r == r[..j] + [r[j]] + r[j + 1..];
        assert x in r[..j];
        assert multiset(r)[x] >= 2 by {
          assert multiset(r) == multiset(r[..j]) + multiset{x} + multiset(r[j + 1..]);
        }
        DistinctCount(s, x);
      }
    }
  }
}
