/** Exact real arithmetic standing in for the `double`/`decimal` helpers the usury checker uses. */
module RealMath {

  /** `Math.Abs` over the reals. */
  function Abs(x: real): (r: real)
    ensures r >= 0.0
    ensures r == x || r == -x
  {
    if x < 0.0 then -x else x
  }

  /** `Math.Max` over the reals. */
  function Max(x: real, y: real): (r: real)
    ensures r >= x && r >= y
    ensures r == x || r == y
  {
    if x >= y then x else y
  }

  /** `Math.Pow` for a natural exponent, as repeated multiplication: one more factor per step,
      the way the discount loop of the solver builds it. */
  function Pow(x: real, n: nat): (p: real)
    ensures x > 0.0 ==> p > 0.0
  {
    if n == 0 then 1.0 else Pow(x, n - 1) * x
  }

  /** A base above one raised to a positive power stays above one. */
  lemma {:induction false} PowAboveOne(x: real, n: nat)
    requires x > 1.0 && n >= 1
    ensures Pow(x, n) > 1.0
  {
    if n > 1 {
      PowAboveOne(x, n - 1);
      assert Pow(x, n) == Pow(x, n - 1) * x;
    }
  }

  /** Powers of two are at least one, so an interval halved `n` times never grows. */
  lemma {:induction false} PowOfTwoAtLeastOne(n: nat)
    ensures Pow(2.0, n) >= 1.0
  {
    if n > 0 {
      PowOfTwoAtLeastOne(n - 1);
    }
  }
}
