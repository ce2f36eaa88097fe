/** Sums of a real-valued measure over a sequence, the `reduce` and `$sum`
    of the source, and the facts that make them independent of order. */
module Sums {

  function SumOf<T>(s: seq<T>, f: T -> real): real {
    if s == [] then 0.0 else SumOf(s[..|s| - 1], f) + f(s[|s| - 1])
  }

  lemma {:induction false} SumOfConcat<T>(a: seq<T>, b: seq<T>, f: T -> real)
    ensures SumOf(a + b, f) == SumOf(a, f) + SumOf(b, f)
  {
    if b != [] {
      assert (a + b)[..|a + b| - 1] == a + b[..|b| - 1];
      SumOfConcat(a, b[..|b| - 1], f);
    } else {
      assert a + b == a;
    }
  }

  /** Taking one element out of a sequence takes its measure out of the sum. */
  lemma {:induction false} SumOfRemove<T>(b: seq<T>, j: int, f: T -> real)
    requires 0 <= j < |b|
    ensures SumOf(b, f) == SumOf(b[..j] + b[j + 1..], f) + f(b[j])
  {
    var n := |b| - 1;
    if j == n {
      assert b[..j] + b[j + 1..] == b[..n];
    } else {
      var init := b[..n];
      SumOfRemove(init, j, f);
      var rest := b[..j] + b[j + 1..];
      assert rest[..|rest| - 1] == init[..j] + init[j + 1..];
      assert rest[|rest| - 1] == b[n];
    }
  }

  /** Reordering does not change a sum. */
  lemma {:induction false} SumOfPermutation<T>(a: seq<T>, b: seq<T>, f: T -> real)
    requires multiset(a) == multiset(b)
    ensures SumOf(a, f) == SumOf(b, f)
  {
    if a != [] {
      var x := a[|a| - 1];
      var a' := a[..|a| - 1];
      assert a == a' + [x];
      assert x in multiset(b);
      var j :| 0 <= j < |b| && b[j] == x;
      var b' := b[..j] + b[j + 1..];
      assert multiset(b') == multiset(b) - multiset{x} by {
        assert b == b[..j] + [x] + b[j + 1..];
      }
      assert multiset(a') == multiset(b');
      SumOfPermutation(a', b', f);
      SumOfRemove(b, j, f);
    } else {
      assert |b| == |multiset(b)| == 0;
    }
  }

  /** A measure scaled by a constant factor scales the sum by it. */
  lemma {:induction false} SumOfScale<T>(s: seq<T>, f: T -> real, g: T -> real, c: real)
    requires forall i :: 0 <= i < |s| ==> g(s[i]) == f(s[i]) * c
    ensures SumOf(s, g) == SumOf(s, f) * c
  {
    if s != [] {
      var init := s[..|s| - 1];
      assert forall i :: 0 <= i < |init| ==> init[i] == s[i];
      SumOfScale(init, f, g, c);
      assert (SumOf(init, f) + f(s[|s| - 1])) * c == SumOf(init, f) * c + f(s[|s| - 1]) * c;
    }
  }

  /** Two sums whose terms differ pointwise by at most `eps` differ by at
      most `eps` times the number of terms. */
  lemma {:induction false} SumOfClose<T, U>(a: seq<T>, b: seq<U>, f: T -> real, g: U -> real, eps: real)
    requires |a| == |b|
    requires forall i :: 0 <= i < |a| ==> -eps <= f(a[i]) - g(b[i]) <= eps
    ensures -eps * |a| as real <= SumOf(a, f) - SumOf(b, g) <= eps * |a| as real
  {
    if a != [] {
      var n := |a| - 1;
      var a', b' := a[..n], b[..n];
      forall i | 0 <= i < n ensures -eps <= f(a'[i]) - g(b'[i]) <= eps {
        assert a'[i] == a[i] && b'[i] == b[i];
      }
      SumOfClose(a', b', f, g, eps);
      assert SumOf(a, f) == SumOf(a', f) + f(a[n]);
      assert SumOf(b, g) == SumOf(b', g) + g(b[n]);
      ScaleSucc(eps, n);
    }
  }

  lemma ScaleSucc(eps: real, n: nat)
    ensures eps * (n + 1) as real == eps * n as real + eps
  {
  }
}
