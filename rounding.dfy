/** The two roundings the analytics use, on exact reals: JavaScript's
    `Math.round(x * 10^k) / 10^k` (halves go up) and MongoDB's
    `{ $round: [x, k] }` (halves go to the even neighbour). */
module Rounding {

  /** A whole number of cents. */
  predicate WholeCents(x: real) {
    (x * 100.0).Floor as real == x * 100.0
  }

  /** A whole number of tenths. */
  predicate WholeTenths(x: real) {
    (x * 10.0).Floor as real == x * 10.0
  }

  /** `r`, rounding `x` to cents, went to the even cent if `x` was a half. */
  predicate EvenCentAtHalf(x: real, r: real) {
    (r == x - 0.005 || r == x + 0.005) ==> (r * 100.0).Floor % 2 == 0
  }

  /** `r`, rounding `x` to tenths, went to the even tenth if `x` was a half. */
  predicate EvenTenthAtHalf(x: real, r: real) {
    (r == x - 0.05 || r == x + 0.05) ==> (r * 10.0).Floor % 2 == 0
  }

  /** `Math.round(x)`: the nearest integer, halves towards +infinity. */
  function MathRound(x: real): (n: int)
    ensures x - 0.5 < n as real <= x + 0.5
  {
    (x + 0.5).Floor
  }

  /** `Math.round` sends an exact half upwards, negative halves included
      (`Math.round(-2.5) == -2`). */
  lemma MathRoundHalfGoesUp(k: int)
    ensures MathRound(k as real + 0.5) == k + 1
    ensures MathRound(k as real - 0.5) == k
  {
  }

  /** MongoDB `$round` to an integer: the nearest integer, halves to even. */
  function HalfEven(x: real): (n: int)
    ensures x - 0.5 <= n as real <= x + 0.5
    ensures (n as real == x - 0.5 || n as real == x + 0.5) ==> n % 2 == 0
  {
    var f := x.Floor;
    var d := x - f as real;
    if d < 0.5 then f
    else if d > 0.5 then f + 1
    else if f % 2 == 0 then f
    else f + 1
  }

  /** `Math.round(x * 100) / 100`. */
  function RoundCents(x: real): (r: real)
    ensures x - 0.005 < r <= x + 0.005
    ensures WholeCents(r)
  {
    MathRound(x * 100.0) as real / 100.0
  }

  /** `Math.round(x * 10) / 10`. */
  function RoundTenths(x: real): (r: real)
    ensures x - 0.05 < r <= x + 0.05
    ensures WholeTenths(r)
  {
    MathRound(x * 10.0) as real / 10.0
  }

  /** `{ $round: [x, 2] }`. */
  function MongoRound2(x: real): (r: real)
    ensures x - 0.005 <= r <= x + 0.005
    ensures WholeCents(r)
    ensures EvenCentAtHalf(x, r)
  {
    HalfEven(x * 100.0) as real / 100.0
  }

  /** `{ $round: [x, 1] }`. */
  function MongoRound1(x: real): (r: real)
    ensures x - 0.05 <= r <= x + 0.05
    ensures WholeTenths(r)
    ensures EvenTenthAtHalf(x, r)
  {
    HalfEven(x * 10.0) as real / 10.0
  }

  /** The two roundings differ exactly on halves with an even floor: there
      `Math.round` goes up and `$round` stays. */
  lemma RoundingsDiffer(y: real)
    ensures MathRound(y) != HalfEven(y) <==> y - y.Floor as real == 0.5 && y.Floor % 2 == 0
    ensures MathRound(y) != HalfEven(y) ==> MathRound(y) == HalfEven(y) + 1
  {
    var f := y.Floor;
    if y - f as real < 0.5 {
      assert (y + 0.5).Floor == f;
    } else {
      assert (y + 0.5).Floor == f + 1;
    }
  }

  /** Hence to cents they differ exactly when `x * 100` is a half with an
      even floor, and then `Math.round` gives the cent above. */
  lemma CentRoundingsDiffer(x: real)
    ensures RoundCents(x) != MongoRound2(x) <==>
      x * 100.0 - (x * 100.0).Floor as real == 0.5 && (x * 100.0).Floor % 2 == 0
    ensures RoundCents(x) != MongoRound2(x) ==> RoundCents(x) == MongoRound2(x) + 0.01
  {
    RoundingsDiffer(x * 100.0);
  }

  /** For example `Math.round(0.125 * 100) / 100 == 0.13` while
      `$round: [0.125, 2]` is 0.12; on 0.135 both give 0.14. */
  lemma RoundingsDifferOnEvenHalves()
    ensures RoundCents(0.125) == 0.13
    ensures MongoRound2(0.125) == 0.12
    ensures RoundCents(0.135) == MongoRound2(0.135) == 0.14
  {
    assert (12.5 + 0.5).Floor == 13;
    assert (13.5 + 0.5).Floor == 14;
    assert (12.5).Floor == 12;
    assert (13.5).Floor == 13;
  }
}
