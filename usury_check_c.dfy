/**
 * The command-line usury check: a simple APR from total interest, principal and term in
 * years, compared strictly against a legal threshold.
 */
module UsuryCheckC {

  /** The simple APR in percent: total interest over principal, per year of the term.
      The term is a C `int`, converted to floating point for the division. */
  function CalculateApr(principal: real, interest: real, termInYears: int): (apr: real)
    requires principal != 0.0 && termInYears != 0
    ensures apr * principal * (termInYears as real) == interest * 100.0
    ensures principal > 0.0 && termInYears > 0 && interest >= 0.0 ==> apr >= 0.0
  {
    interest / principal / (termInYears as real) * 100.0
  }

  /** Usury is an APR strictly above the threshold. */
  function IsUsury(apr: real, threshold: real): (usury: bool)
    ensures usury <==> apr > threshold
  {
    apr > threshold
  }

  /** Which of the two messages the report prints after the APR line. */
  datatype Notice = UsuryDetected(threshold: real) | WithinLimits

  function InformIfUsury(apr: real, threshold: real): (notice: Notice)
    ensures notice == UsuryDetected(threshold) <==> IsUsury(apr, threshold)
    ensures notice == WithinLimits <==> !IsUsury(apr, threshold)
  {
    if IsUsury(apr, threshold) then UsuryDetected(threshold) else WithinLimits
  }

  /** An APR equal to the threshold is not usury. */
  lemma ThresholdItselfIsLawful(threshold: real)
    ensures !IsUsury(threshold, threshold)
    ensures InformIfUsury(threshold, threshold) == WithinLimits
  {
  }

  /** The built-in example: 400 of interest on 1000 over one year is a 40% APR, which the
      20% threshold flags. */
  lemma BuiltInExample()
    ensures CalculateApr(1000.0, 400.0, 1) == 40.0
    ensures IsUsury(CalculateApr(1000.0, 400.0, 1), 20.0)
    ensures InformIfUsury(CalculateApr(1000.0, 400.0, 1), 20.0) == UsuryDetected(20.0)
  {
  }

  /** An interest-free loan has a zero APR and is never usury under a non-negative threshold. */
  lemma InterestFreeIsNeverUsury(principal: real, termInYears: int, threshold: real)
    requires principal != 0.0 && termInYears != 0 && threshold >= 0.0
    ensures CalculateApr(principal, 0.0, termInYears) == 0.0
    ensures !IsUsury(CalculateApr(principal, 0.0, termInYears), threshold)
  {
  }

  /** More interest on the same positive principal and term never lowers the APR, so a
      usurious loan stays usurious when its interest grows. */
  lemma MoreInterestStaysUsurious(principal: real, interest1: real, interest2: real,
                                  termInYears: int, threshold: real)
    requires principal > 0.0 && termInYears > 0 && interest1 <= interest2
    requires IsUsury(CalculateApr(principal, interest1, termInYears), threshold)
    ensures IsUsury(CalculateApr(principal, interest2, termInYears), threshold)
  {
    var d := principal * (termInYears as real);
    var apr1 := CalculateApr(principal, interest1, termInYears);
    var apr2 := CalculateApr(principal, interest2, termInYears);
    assert apr1 * d == interest1 * 100.0;
    assert apr2 * d == interest2 * 100.0;
    assert (apr2 - apr1) * d >= 0.0;
  }
}
