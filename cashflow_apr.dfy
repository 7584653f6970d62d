/**
 * The cash-flow APR solver of the main window and the amortizing payment it starts from.
 *
 * Cash flows: the borrower receives `upfront` at time 0 and pays the same `outflow`
 * (a negative amount in the usual case) at the end of each of `months` periods. The net
 * present value at a periodic rate `r` discounts payment `t` by `(1 + r)^t`. The solver
 * looks for a rate at which that value is zero and reports it as an annual rate.
 *
 * Doubles are modelled as exact reals: the facts proved here are structural (bounds,
 * brackets, halving, the early exits), not claims about rounding.
 */
module CashflowApr {
  import opened RealMath

  /** Outflows smaller than this in magnitude are treated as no outflow at all. */
  const ZeroOutflowTolerance: real := 0.000000000001
  /** Lower end of the search for the periodic rate: just above -100% per period. */
  const SearchLow: real := -0.9999999
  /** Initial upper end of the search: +1000% per period. */
  const InitialHigh: real := 10.0
  /** How many times the upper end may be doubled while no sign change is found. */
  const ExpansionBudget: nat := 200
  /** How many bisection steps are made at most. */
  const BisectionBudget: nat := 200
  /** Bisection stops once the NPV at the midpoint, or the bracket width, falls below this. */
  const ConvergenceTolerance: real := 0.000000000001
  /** Periods compounded into one year. */
  const PeriodsPerYear: nat := 12

  // ---------------------------------------------------------------------------
  // Net present value
  // ---------------------------------------------------------------------------

  /** The value of an NPV evaluation: a real, or the positive-infinity sentinel
      returned for a rate at or below -100%. */
  datatype NpvValue = Finite(value: real) | PositiveInfinity

  /** Sum of `outflow / growth^t` for `t = 1 .. periods` (nothing when `periods <= 0`). */
  function DiscountedSum(outflow: real, growth: real, periods: int): real
    requires growth > 0.0
    decreases periods
  {
    if periods <= 0 then 0.0
    else DiscountedSum(outflow, growth, periods - 1) + outflow / Pow(growth, periods)
  }

  /** The NPV of the cash flows at a periodic rate above -100%. */
  function NpvAt(upfront: real, outflow: real, months: int, r: real): real
    requires r > -1.0
  {
    upfront + DiscountedSum(outflow, 1.0 + r, months)
  }

  /** The NPV closure of the solver: a loop that multiplies the discount factor by `1 + r`
      and adds the discounted payment, once per period. */
  method ComputeNpv(upfront: real, outflow: real, months: int, r: real) returns (v: NpvValue)
    ensures r <= -1.0 ==> v == PositiveInfinity
    ensures r > -1.0 ==> v == Finite(NpvAt(upfront, outflow, months, r))
  {
    if r <= -1.0 {
      return PositiveInfinity;
    }
    var sum := upfront;
    var denom := 1.0 + r;
    var disc := 1.0;
    var t := 1;
    while t <= months
      invariant 1 <= t && (t == 1 || t <= months + 1)
      invariant disc == Pow(denom, t - 1)
      invariant sum == upfront + DiscountedSum(outflow, denom, t - 1)
    {
      disc := disc * denom;
      sum := sum + outflow / disc;
      t := t + 1;
    }
    return Finite(sum);
  }

  /** At a zero rate nothing is discounted: the NPV is the plain total of the cash flows. */
  lemma {:induction false} NpvAtZeroRate(upfront: real, outflow: real, months: nat)
    ensures NpvAt(upfront, outflow, months, 0.0) == upfront + (months as real) * outflow
  {
    DiscountedSumAtUnitGrowth(outflow, months);
  }

  lemma {:induction false} DiscountedSumAtUnitGrowth(outflow: real, periods: nat)
    ensures DiscountedSum(outflow, 1.0, periods) == (periods as real) * outflow
  {
    if periods > 0 {
      DiscountedSumAtUnitGrowth(outflow, periods - 1);
      PowOfOne(periods);
      assert outflow / Pow(1.0, periods) == outflow;
      assert ((periods - 1) as real) * outflow + outflow == (periods as real) * outflow;
    }
  }

  lemma {:induction false} PowOfOne(n: nat)
    ensures Pow(1.0, n) == 1.0
  {
    if n > 0 {
      PowOfOne(n - 1);
    }
  }

  /** The annuity formula multiplied out, so that it also holds at a zero rate: a sum `s` of
      payments `outflow` discounted over the periods whose compound factor is `factor`
      satisfies `s * r * factor == outflow * (factor - 1)`. */
  predicate AnnuityIdentity(outflow: real, r: real, s: real, factor: real)
  {
    s * r * factor == outflow * (factor - 1.0)
  }

  /** Closed form of the discounted payments: `DiscountedSum` satisfies the annuity formula
      for every number of periods. */
  lemma {:induction false} DiscountedSumClosedForm(outflow: real, r: real, periods: nat)
    requires r > -1.0
    ensures AnnuityIdentity(outflow, r, DiscountedSum(outflow, 1.0 + r, periods), Pow(1.0 + r, periods))
  {
    if periods > 0 {
      var d := 1.0 + r;
      DiscountedSumClosedForm(outflow, r, periods - 1);
      ClosedFormStep(outflow, r, Pow(d, periods - 1), DiscountedSum(outflow, d, periods - 1),
                     Pow(d, periods), DiscountedSum(outflow, d, periods));
    }
  }

  /** One period of the closed form: adding the discounted payment `outflow / next` to a
      sum `s` that satisfies the formula for `prev` keeps it satisfied for `next = prev * (1+r)`. */
  lemma ClosedFormStep(outflow: real, r: real, prev: real, s: real, next: real, s2: real)
    requires r > -1.0 && prev > 0.0 && next == prev * (1.0 + r) && s2 == s + outflow / next
    requires AnnuityIdentity(outflow, r, s, prev)
    ensures AnnuityIdentity(outflow, r, s2, next)
  {
    var q := outflow / next;
    assert q * next == outflow;
    calc {
      s2 * r * next;
      (s * r * prev) * (1.0 + r) + r * (q * next);
      outflow * (prev - 1.0) * (1.0 + r) + r * outflow;
      outflow * (next - 1.0);
    }
  }

  // ---------------------------------------------------------------------------
  // Amortizing payment
  // ---------------------------------------------------------------------------

  /** The monthly nominal rate, as a fraction, of an annual rate given in percent. */
  function MonthlyNominalRate(annualRatePercent: real): (r: real)
    ensures r * 1200.0 == annualRatePercent
    ensures r == 0.0 <==> annualRatePercent == 0.0
    ensures annualRatePercent >= 0.0 ==> r >= 0.0
  {
    annualRatePercent / 100.0 / 12.0
  }

  /** The fixed monthly payment of a standard amortizing loan: the principal spread evenly
      when the rate is zero, and `P * r * (1+r)^n / ((1+r)^n - 1)` otherwise. The
      validation that precedes it guarantees a positive principal and term and a
      non-negative rate. */
  function MonthlyPayment(principal: real, annualRatePercent: real, months: int): (payment: real)
    requires principal > 0.0 && annualRatePercent >= 0.0 && months > 0
    ensures payment > 0.0
    ensures annualRatePercent == 0.0 ==> payment * (months as real) == principal
  {
    var r := MonthlyNominalRate(annualRatePercent);
    if r == 0.0 then
      principal / (months as real)
    else
      var factor := Pow(1.0 + r, months);
      PowAboveOne(1.0 + r, months);
      principal * (r * factor) / (factor - 1.0)
  }

  /** The payment amortizes the loan exactly: discounted at the monthly nominal rate, the
      stream of payments is worth the principal, so that rate is a root of the NPV the solver
      searches when no fees are deducted. */
  lemma PaymentAmortizesPrincipal(principal: real, annualRatePercent: real, months: int)
    requires principal > 0.0 && annualRatePercent >= 0.0 && months > 0
    ensures NpvAt(principal, -MonthlyPayment(principal, annualRatePercent, months), months,
                  MonthlyNominalRate(annualRatePercent)) == 0.0
  {
    var r := MonthlyNominalRate(annualRatePercent);
    var payment := MonthlyPayment(principal, annualRatePercent, months);
    if r == 0.0 {
      NpvAtZeroRate(principal, -payment, months);
    } else {
      var factor := Pow(1.0 + r, months);
      PowAboveOne(1.0 + r, months);
      DiscountedSumClosedForm(-payment, r, months);
      AnnuityCancels(principal, r, factor, payment, DiscountedSum(-payment, 1.0 + r, months));
    }
  }

  /** The algebra behind the amortization: with the annuity payment for `factor = (1+r)^n`,
      a discounted sum satisfying the closed form is exactly minus the principal. */
  lemma AnnuityCancels(principal: real, r: real, factor: real, payment: real, s: real)
    requires r > 0.0 && factor > 1.0
    requires payment == principal * (r * factor) / (factor - 1.0)
    requires AnnuityIdentity(-payment, r, s, factor)
    ensures s == -principal
  {
    var k := r * factor;
    assert payment * (factor - 1.0) == principal * k;
    assert s * k == -(principal * k);
    assert k != 0.0;
  }

  /** The amount the borrower actually receives at time 0: the fees come off the principal
      when they are counted in the APR. */
  function UpfrontReceived(principal: real, fees: real, includeFeesInApr: bool): (upfront: real)
    ensures includeFeesInApr ==> upfront + fees == principal
    ensures !includeFeesInApr ==> upfront == principal
  {
    principal - (if includeFeesInApr then fees else 0.0)
  }

  // ---------------------------------------------------------------------------
  // The solver
  // ---------------------------------------------------------------------------

  /** Which return statement the solver took, with the values it was computed from. */
  datatype SolverExit =
    | ZeroOutflow
      /** No sign change within the expansion budget; `approxMonthly` is the clamped
          closed-form estimate. */
    | NoBracket(approxMonthly: real)
      /** Bisection on the bracket found after `expansions` doublings; `a`, `b` the bracket
          when it stopped after `steps` halvings, `mid` its midpoint, `converged` whether a
          tolerance test (rather than the step budget) stopped it, `trail` the brackets it
          went through. */
    | Bisected(expansions: nat, a: real, b: real, mid: real, steps: nat, converged: bool,
               trail: seq<(real, real)>)

  /** Upper end of the search after `k` doublings. */
  function HighAfter(k: nat): (high: real)
    ensures high >= InitialHigh
  {
    PowOfTwoAtLeastOne(k);
    InitialHigh * Pow(2.0, k)
  }

  /** The width of an interval of width `w` after `n` halvings. */
  function Halved(w: real, n: nat): real
  {
    if n == 0 then w else Halved(w, n - 1) / 2.0
  }

  /** Halving `n` times divides the width by `2^n`. */
  lemma {:induction false} HalvedByPowerOfTwo(w: real, n: nat)
    ensures Halved(w, n) * Pow(2.0, n) == w
  {
    if n > 0 {
      HalvedByPowerOfTwo(w, n - 1);
      assert Halved(w, n) * Pow(2.0, n) == (Halved(w, n - 1) / 2.0) * (Pow(2.0, n - 1) * 2.0);
    }
  }

  /** Two NPV values the solver treats as having the same strict sign: their product is
      positive. A zero or a change of sign makes a bracket. */
  predicate SameSign(fa: real, fb: real)
  {
    fa * fb > 0.0
  }

  /** If `fa` and `fb` do not share a sign and `fa` and `fc` do, then `fc` and `fb` do not. */
  lemma SignCarriesOver(fa: real, fb: real, fc: real)
    requires !SameSign(fa, fb) && SameSign(fa, fc)
    ensures !SameSign(fc, fb)
  {
    if fa > 0.0 {
      assert fc > 0.0 && fb <= 0.0;
    } else {
      assert fa < 0.0 && fc < 0.0 && fb >= 0.0;
    }
  }

  /** A midpoint above -100% compounds to an annual rate above -100%. */
  lemma CompoundedAboveMinusOne(m: real)
    requires m > -1.0
    ensures Pow(1.0 + m, PeriodsPerYear) - 1.0 > -1.0
  {
  }
  /** The expansion phase of the solver: starting from `InitialHigh`, the upper end is
      doubled while the NPV at both ends has the same sign and the budget lasts. The lower
      end never moves. */
  method ExpandBracket(upfront: real, outflow: real, months: int, fLow: real)
    returns (high: real, fHigh: real, expansions: nat)
    requires fLow == NpvAt(upfront, outflow, months, SearchLow)
    ensures expansions <= ExpansionBudget
    ensures high == HighAfter(expansions)
    ensures fHigh == NpvAt(upfront, outflow, months, high)
    ensures forall k: nat | k < expansions :: SameSign(fLow, NpvAt(upfront, outflow, months, HighAfter(k)))
    ensures SameSign(fLow, fHigh) ==> expansions == ExpansionBudget
  {
    high := InitialHigh;
    var v := ComputeNpv(upfront, outflow, months, high);
    fHigh := v.value;
    expansions := 0;
    while fLow * fHigh > 0.0 && expansions < ExpansionBudget
      invariant expansions <= ExpansionBudget
      invariant high == HighAfter(expansions)
      invariant fHigh == NpvAt(upfront, outflow, months, high)
      invariant forall k: nat | k < expansions :: SameSign(fLow, NpvAt(upfront, outflow, months, HighAfter(k)))
      decreases ExpansionBudget - expansions
    {
      high := high * 2.0;
      v := ComputeNpv(upfront, outflow, months, high);
      fHigh := v.value;
      expansions := expansions + 1;
    }
  }

  /** One bisection step's choice: keep `[a, c]` when `fa` and `fc` differ in sign (or one
      is zero), `[c, b]` otherwise; either way the kept ends still differ in sign. */
  method ChooseSide(a: real, b: real, fa: real, fb: real, c: real, fc: real)
    returns (a2: real, b2: real, fa2: real, fb2: real)
    requires !SameSign(fa, fb)
    ensures !SameSign(fa, fc) ==> a2 == a && b2 == c && fa2 == fa && fb2 == fc
    ensures SameSign(fa, fc) ==> a2 == c && b2 == b && fa2 == fc && fb2 == fb
    ensures !SameSign(fa2, fb2)
  {
    if fa * fc <= 0.0 {
      a2, b2, fa2, fb2 := a, c, fa, fc;
    } else {
      SignCarriesOver(fa, fb, fc);
      a2, b2, fa2, fb2 := c, b, fc, fb;
    }
  }

  /** The bisection phase of the solver. Each step evaluates the NPV at the midpoint `mid`
      of `[a, b]`; it stops when that NPV or the width is below the tolerance, and otherwise
      keeps the half whose ends still differ in sign, judged against the NPV at `a`. After
      `BisectionBudget` steps it gives up and reports the last midpoint. */
  /** The tolerance test bisection applies at a midpoint whose NPV is `fc`, on a bracket
      of width `width`. */
  predicate ToleranceMet(fc: real, width: real)
  {
    Abs(fc) < ConvergenceTolerance || width < ConvergenceTolerance
  }

  /** One halving: the bracket `ab` fails the tolerance test at its midpoint, and `next` is
      the half on which the NPV changes sign, judged by the sign at the lower end. */
  ghost predicate BisectionStep(upfront: real, outflow: real, months: int, ab: (real, real), next: (real, real))
  {
    && -1.0 < ab.0 < ab.1
    && var c := (ab.0 + ab.1) / 2.0;
    && !ToleranceMet(NpvAt(upfront, outflow, months, c), ab.1 - ab.0)
    && next == (if SameSign(NpvAt(upfront, outflow, months, ab.0), NpvAt(upfront, outflow, months, c))
                then (c, ab.1) else (ab.0, c))
  }

  /** `trail` is the run of brackets bisection visits from `(low, high)`, one halving after
      another, ending at `(a, b)`. */
  ghost predicate BisectionTrail(upfront: real, outflow: real, months: int, low: real, high: real,
                                 trail: seq<(real, real)>, a: real, b: real)
  {
    && |trail| > 0 && trail[0] == (low, high) && trail[|trail| - 1] == (a, b)
    && forall k | 0 <= k < |trail| - 1 :: BisectionStep(upfront, outflow, months, trail[k], trail[k + 1])
  }

  method Bisect(upfront: real, outflow: real, months: int, low: real, high: real, fLow: real, fHigh: real)
    returns (a: real, b: real, mid: real, steps: nat, converged: bool, ghost trail: seq<(real, real)>)
    requires -1.0 < low < high
    requires fLow == NpvAt(upfront, outflow, months, low)
    requires fHigh == NpvAt(upfront, outflow, months, high)
    requires !SameSign(fLow, fHigh)
    ensures low <= a < mid < b <= high
    ensures mid == (a + b) / 2.0
    ensures !SameSign(NpvAt(upfront, outflow, months, a), NpvAt(upfront, outflow, months, b))
    ensures b - a == Halved(high - low, steps)
    ensures steps <= BisectionBudget
    ensures converged ==> ToleranceMet(NpvAt(upfront, outflow, months, mid), b - a)
    ensures !converged ==> steps == BisectionBudget
    ensures |trail| == steps + 1 && BisectionTrail(upfront, outflow, months, low, high, trail, a, b)
  {
    a, b := low, high;
    var fa, fb := fLow, fHigh;
    trail := [(a, b)];
    for iter := 0 to BisectionBudget
      invariant low <= a < b <= high
      invariant fa == NpvAt(upfront, outflow, months, a)
      invariant fb == NpvAt(upfront, outflow, months, b)
      invariant !SameSign(fa, fb)
      invariant b - a == Halved(high - low, iter)
      invariant |trail| == iter + 1 && BisectionTrail(upfront, outflow, months, low, high, trail, a, b)
    {
      var c := 0.5 * (a + b);
      var v := ComputeNpv(upfront, outflow, months, c);
      var fc := v.value;
      if Abs(fc) < ConvergenceTolerance || b - a < ConvergenceTolerance {
        return a, b, c, iter, true, trail;
      }
      ghost var before := (a, b);
      a, b, fa, fb := ChooseSide(a, b, fa, fb, c, fc);
      assert BisectionStep(upfront, outflow, months, before, (a, b));
      trail := trail + [(a, b)];
    }
    mid := 0.5 * (a + b);
    steps, converged := BisectionBudget, false;
  }

  /** The fallback exit: no upper end within the expansion budget showed a sign change, and
      the result annualizes the clamped closed-form estimate `approxMonthly`. */
  ghost predicate NoBracketOutcome(upfront: real, outflow: real, months: int,
                                   fractionalRoot: (real, real, int) -> real, apr: real, approxMonthly: real)
  {
    && (forall k: nat | k <= ExpansionBudget ::
          SameSign(NpvAt(upfront, outflow, months, SearchLow), NpvAt(upfront, outflow, months, HighAfter(k))))
    && approxMonthly == Max(0.0, fractionalRoot(upfront, upfront + outflow * (months as real), months) - 1.0)
    && apr == approxMonthly * (PeriodsPerYear as real)
    && apr >= 0.0
  }

  /** The bisection exit: the bracket found after `expansions` doublings was halved `steps`
      times down to `[a, b]`, and the result compounds its midpoint `mid` over a year. */
  ghost predicate BisectedOutcome(upfront: real, outflow: real, months: int, apr: real,
                                  expansions: nat, a: real, b: real, mid: real, steps: nat, converged: bool,
                                  trail: seq<(real, real)>)
  {
    && expansions <= ExpansionBudget
    && (forall k: nat | k < expansions ::
          SameSign(NpvAt(upfront, outflow, months, SearchLow), NpvAt(upfront, outflow, months, HighAfter(k))))
    && !SameSign(NpvAt(upfront, outflow, months, SearchLow), NpvAt(upfront, outflow, months, HighAfter(expansions)))
    && SearchLow <= a < mid < b <= HighAfter(expansions)
    && mid == (a + b) / 2.0
    && !SameSign(NpvAt(upfront, outflow, months, a), NpvAt(upfront, outflow, months, b))
    && b - a == Halved(HighAfter(expansions) - SearchLow, steps)
    && steps <= BisectionBudget
    && (converged ==> ToleranceMet(NpvAt(upfront, outflow, months, mid), b - a))
    && (!converged ==> steps == BisectionBudget)
    && |trail| == steps + 1
    && BisectionTrail(upfront, outflow, months, SearchLow, HighAfter(expansions), trail, a, b)
    && apr == Pow(1.0 + mid, PeriodsPerYear) - 1.0
  }

  /** Assembles the bisection exit from what the expansion and the bisection established. */
  lemma BracketThenBisection(upfront: real, outflow: real, months: int, fLow: real, high: real, fHigh: real,
                             expansions: nat, a: real, b: real, mid: real, steps: nat, converged: bool,
                             trail: seq<(real, real)>)
    requires fLow == NpvAt(upfront, outflow, months, SearchLow)
    requires expansions <= ExpansionBudget && high == HighAfter(expansions)
    requires fHigh == NpvAt(upfront, outflow, months, high) && !SameSign(fLow, fHigh)
    requires forall k: nat | k < expansions :: SameSign(fLow, NpvAt(upfront, outflow, months, HighAfter(k)))
    requires SearchLow <= a < mid < b <= high && mid == (a + b) / 2.0
    requires !SameSign(NpvAt(upfront, outflow, months, a), NpvAt(upfront, outflow, months, b))
    requires b - a == Halved(high - SearchLow, steps) && steps <= BisectionBudget
    requires converged ==> ToleranceMet(NpvAt(upfront, outflow, months, mid), b - a)
    requires !converged ==> steps == BisectionBudget
    requires |trail| == steps + 1 && BisectionTrail(upfront, outflow, months, SearchLow, high, trail, a, b)
    ensures BisectedOutcome(upfront, outflow, months, Pow(1.0 + mid, PeriodsPerYear) - 1.0,
                            expansions, a, b, mid, steps, converged, trail)
  {
  }

  /** What the solver promises about its result `apr` for the cash flows, given the exit
      `exit` it took: which return statement, and the values that return was computed from. */
  ghost predicate SolverOutcome(upfront: real, outflow: real, months: int,
                                fractionalRoot: (real, real, int) -> real, apr: real, exit: SolverExit)
  {
    && (exit.ZeroOutflow? <==> Abs(outflow) < ZeroOutflowTolerance)
    && (exit.ZeroOutflow? ==> apr == 0.0)
    && (exit.NoBracket? ==> NoBracketOutcome(upfront, outflow, months, fractionalRoot, apr, exit.approxMonthly))
    && (exit.Bisected? ==>
          BisectedOutcome(upfront, outflow, months, apr,
                          exit.expansions, exit.a, exit.b, exit.mid, exit.steps, exit.converged, exit.trail))
  }

  /**
   * The annual APR implied by receiving `upfront` now and paying `outflow` in each of
   * `months` periods. `fractionalRoot(num, den, n)` stands for the library call
   * `Math.Pow(num / den, 1.0 / n)` of the fallback, of which nothing is assumed.
   *
   * Exits: a zero outflow gives 0; no bracket within the expansion budget gives the
   * simple annualization `12 * approxMonthly` of a clamped estimate; otherwise the midpoint
   * where bisection stops is compounded as `(1 + mid)^12 - 1`.
   */
  method AnnualAprFromCashflows(upfront: real, outflow: real, months: int,
                                fractionalRoot: (real, real, int) -> real)
    returns (apr: real, ghost exit: SolverExit)
    ensures SolverOutcome(upfront, outflow, months, fractionalRoot, apr, exit)
    ensures apr > -1.0
  {
    if Abs(outflow) < ZeroOutflowTolerance {
      return 0.0, ZeroOutflow;
    }

    var low := SearchLow;
    var v := ComputeNpv(upfront, outflow, months, low);
    var fLow := v.value;
    var high, fHigh, expansions := ExpandBracket(upfront, outflow, months, fLow);

    if fLow * fHigh > 0.0 {
      var approxMonthly := Max(0.0, fractionalRoot(upfront, upfront + outflow * (months as real), months) - 1.0);
      assert NoBracketOutcome(upfront, outflow, months, fractionalRoot,
                              approxMonthly * (PeriodsPerYear as real), approxMonthly);
      return approxMonthly * (PeriodsPerYear as real), NoBracket(approxMonthly);
    }

    var a, b, mid, steps, converged, trail := Bisect(upfront, outflow, months, low, high, fLow, fHigh);
    CompoundedAboveMinusOne(mid);
    BracketThenBisection(upfront, outflow, months, fLow, high, fHigh, expansions, a, b, mid, steps, converged, trail);
    return Pow(1.0 + mid, PeriodsPerYear) - 1.0, Bisected(expansions, a, b, mid, steps, converged, trail);
  }
}
