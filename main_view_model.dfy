/**
 * The view model behind the data-bound form: text properties that parse into decimal
 * fields, a fee-adjusted APR estimate, a fixed table of caps per jurisdiction, and reset.
 *
 * `decimal` arithmetic is modelled by exact reals; parsing is a function that may fail.
 */
module ViewModel {
  import Wrappers

  /** The jurisdictions the form offers. */
  datatype SupportedJurisdiction = None | US_Federal | Philippines | EU_Generic

  /** The detail text under the result title. */
  datatype ResultDetail =
    | NoDetail                                  // the empty text
    | AskForPositiveInputs                      // the hint shown for a missing principal or term
    | Summary(effectiveAprPercent: real, nominalPercent: real, feesIncluded: bool,
              capPercent: real, principal: real, termMonths: int, upfrontFees: real)

  const DefaultTitle: string := "Result goes here – e.g. \"Loan complies with XYZ law.\""
  const MissingInputsTitle: string := "Missing or invalid inputs."

  /** The value of a decimal text property: the parsed number, or zero when it does not parse. */
  function ParseDecimal(s: string, tryParse: string -> Wrappers.Option<real>): (v: real)
    ensures tryParse(s).Some? ==> v == tryParse(s).value
    ensures tryParse(s).None? ==> v == 0.0
  {
    match tryParse(s)
    case Some(x) => x
    case None => 0.0
  }

  /** The value of an integer text property: the parsed number, or zero when it does not parse. */
  function ParseInt(s: string, tryParse: string -> Wrappers.Option<int>): (v: int)
    ensures tryParse(s).Some? ==> v == tryParse(s).value
    ensures tryParse(s).None? ==> v == 0
  {
    match tryParse(s)
    case Some(x) => x
    case None => 0
  }

  /** The cap, in percent, and the label of each jurisdiction. */
  function CapForJurisdiction(j: SupportedJurisdiction): (entry: (real, string))
    ensures j == US_Federal ==> entry.0 == 36.0
    ensures j == Philippines ==> entry.0 == 60.0
    ensures j == EU_Generic ==> entry.0 == 20.0
    ensures j == None ==> entry.0 == 100.0
  {
    match j
    case US_Federal => (36.0, "U.S. federal (typical consumer cap proxy)")
    case Philippines => (60.0, "Philippines (placeholder cap)")
    case EU_Generic => (20.0, "EU generic (illustrative)")
    case _ => (100.0, "No selected jurisdiction (no cap applied)")
  }

  /** Every cap in the table lies between 20% and 100%, and the strictest is the EU one. */
  lemma CapsAreBounded(j: SupportedJurisdiction)
    ensures 20.0 <= CapForJurisdiction(j).0 <= 100.0
    ensures CapForJurisdiction(j).0 == 20.0 <==> j == EU_Generic
  {
  }

  /** The fee-adjusted APR in percent: the monthly nominal rate plus the fees spread evenly
      over the principal and the term, scaled back to a yearly percentage. */
  function EffectiveAprPercent(annualRatePercent: real, upfrontFees: real, includeFees: bool,
                               principal: real, termMonths: int): (apr: real)
    requires principal > 0.0 && termMonths > 0
    ensures !includeFees ==> apr == annualRatePercent
    ensures includeFees && upfrontFees >= 0.0 ==> apr >= annualRatePercent
  {
    var monthlyRate := annualRatePercent / 100.0 / 12.0;
    var totalFees := if includeFees then upfrontFees else 0.0;
    var monthlyFeeRate := totalFees / principal / (termMonths as real);
    (monthlyRate + monthlyFeeRate) * 12.0 * 100.0
  }

  /** In closed form the estimate is the nominal rate plus `1200 * fees / (principal * term)`
      percentage points; without fees it is the nominal rate itself. */
  lemma EffectiveAprClosedForm(annualRatePercent: real, upfrontFees: real, includeFees: bool,
                               principal: real, termMonths: int)
    requires principal > 0.0 && termMonths > 0
    ensures includeFees ==>
              EffectiveAprPercent(annualRatePercent, upfrontFees, includeFees, principal, termMonths)
              == annualRatePercent + 1200.0 * upfrontFees / (principal * (termMonths as real))
    ensures !includeFees ==>
              EffectiveAprPercent(annualRatePercent, upfrontFees, includeFees, principal, termMonths)
              == annualRatePercent
  {
    var n := termMonths as real;
    var fees := if includeFees then upfrontFees else 0.0;
    assert fees / principal / n == fees / (principal * n);
    assert (annualRatePercent / 100.0 / 12.0 + fees / (principal * n)) * 12.0 * 100.0
        == annualRatePercent + 1200.0 * fees / (principal * n);
  }

  /** Counting non-negative fees can only raise the estimate, and more fees raise it more. */
  lemma FeesNeverLowerApr(annualRatePercent: real, fees1: real, fees2: real, principal: real, termMonths: int)
    requires principal > 0.0 && termMonths > 0 && 0.0 <= fees1 <= fees2
    ensures EffectiveAprPercent(annualRatePercent, fees1, false, principal, termMonths)
            <= EffectiveAprPercent(annualRatePercent, fees1, true, principal, termMonths)
            <= EffectiveAprPercent(annualRatePercent, fees2, true, principal, termMonths)
  {
    EffectiveAprClosedForm(annualRatePercent, fees1, false, principal, termMonths);
    EffectiveAprClosedForm(annualRatePercent, fees1, true, principal, termMonths);
    EffectiveAprClosedForm(annualRatePercent, fees2, true, principal, termMonths);
    var d := principal * (termMonths as real);
    assert d > 0.0;
    DivisionKeepsOrder(1200.0 * fees1, 1200.0 * fees2, d);
  }

  /** Dividing by a positive amount keeps the order. */
  lemma DivisionKeepsOrder(x: real, y: real, d: real)
    requires d > 0.0 && x <= y
    ensures x / d <= y / d
  {
    assert (y / d - x / d) * d == y - x;
  }

  /** The title of a computed result. */
  function ComplianceTitle(effectiveAprPercent: real, capPercent: real, capLabel: string): (title: string)
    ensures effectiveAprPercent <= capPercent ==> title == "Loan complies with " + capLabel + "."
    ensures effectiveAprPercent > capPercent ==> title == "Potential usury under " + capLabel + "."
  {
    if effectiveAprPercent <= capPercent then "Loan complies with " + capLabel + "."
    else "Potential usury under " + capLabel + "."
  }

  class MainViewModel {
    var principal: real
    var termMonths: int
    var annualRatePercent: real
    var upfrontFees: real
    var includeFeesInApr: bool
    var selectedJurisdiction: SupportedJurisdiction
    var resultTitle: string
    var resultDetail: ResultDetail

    /** Zero inputs, fees not counted, no jurisdiction, and the placeholder title. */
    constructor ()
      ensures principal == 0.0 && termMonths == 0 && annualRatePercent == 0.0 && upfrontFees == 0.0
      ensures !includeFeesInApr && selectedJurisdiction == None
      ensures resultTitle == DefaultTitle && resultDetail == NoDetail
    {
      principal, termMonths, annualRatePercent, upfrontFees := 0.0, 0, 0.0, 0.0;
      includeFeesInApr := false;
      selectedJurisdiction := None;
      resultTitle, resultDetail := DefaultTitle, NoDetail;
    }

    method SetPrincipal(value: string, tryParse: string -> Wrappers.Option<real>)
      modifies this`principal
      ensures principal == ParseDecimal(value, tryParse)
    {
      principal := ParseDecimal(value, tryParse);
    }

    method SetTermMonths(value: string, tryParse: string -> Wrappers.Option<int>)
      modifies this`termMonths
      ensures termMonths == ParseInt(value, tryParse)
    {
      termMonths := ParseInt(value, tryParse);
    }

    method SetAnnualRatePercent(value: string, tryParse: string -> Wrappers.Option<real>)
      modifies this`annualRatePercent
      ensures annualRatePercent == ParseDecimal(value, tryParse)
    {
      annualRatePercent := ParseDecimal(value, tryParse);
    }

    method SetUpfrontFees(value: string, tryParse: string -> Wrappers.Option<real>)
      modifies this`upfrontFees
      ensures upfrontFees == ParseDecimal(value, tryParse)
    {
      upfrontFees := ParseDecimal(value, tryParse);
    }

    /**
     * Missing inputs (a principal or term not above zero) set the corresponding title and
     * hint. Otherwise the fee-adjusted APR is compared with the jurisdiction's cap, equality
     * complying, and the title and summary report the outcome. Only the title and the
     * detail change.
     */
    method Calculate()
      modifies this`resultTitle, this`resultDetail
      ensures principal <= 0.0 || termMonths <= 0 ==>
                resultTitle == MissingInputsTitle && resultDetail == AskForPositiveInputs
      ensures principal > 0.0 && termMonths > 0 ==>
                var apr := EffectiveAprPercent(annualRatePercent, upfrontFees, includeFeesInApr,
                                               principal, termMonths);
                var (cap, capLabel) := CapForJurisdiction(selectedJurisdiction);
                && resultTitle == ComplianceTitle(apr, cap, capLabel)
                && resultDetail == Summary(apr, annualRatePercent, includeFeesInApr, cap,
                                           principal, termMonths, upfrontFees)
    {
      if principal <= 0.0 || termMonths <= 0 {
        resultTitle := MissingInputsTitle;
        resultDetail := AskForPositiveInputs;
        return;
      }
      var effectiveApr := EffectiveAprPercent(annualRatePercent, upfrontFees, includeFeesInApr,
                                              principal, termMonths);
      var (capPercent, capLabel) := CapForJurisdiction(selectedJurisdiction);
      var complies := effectiveApr <= capPercent;
      resultTitle := if complies then "Loan complies with " + capLabel + "."
                     else "Potential usury under " + capLabel + ".";
      resultDetail := Summary(effectiveApr, annualRatePercent, includeFeesInApr, capPercent,
                              principal, termMonths, upfrontFees);
    }

    /** Puts every input back to zero through the text properties, stops counting fees,
        clears the jurisdiction and restores the placeholder title and an empty detail.
        The parsers must read "0" as zero (or not at all, which also gives zero). */
    method Reset(tryParseDecimal: string -> Wrappers.Option<real>, tryParseInt: string -> Wrappers.Option<int>)
      requires tryParseDecimal("0").Some? ==> tryParseDecimal("0").value == 0.0
      requires tryParseInt("0").Some? ==> tryParseInt("0").value == 0
      modifies this
      ensures principal == 0.0 && termMonths == 0 && annualRatePercent == 0.0 && upfrontFees == 0.0
      ensures !includeFeesInApr && selectedJurisdiction == None
      ensures resultTitle == DefaultTitle && resultDetail == NoDetail
    {
      SetPrincipal("0", tryParseDecimal);
      SetTermMonths("0", tryParseInt);
      SetAnnualRatePercent("0", tryParseDecimal);
      SetUpfrontFees("0", tryParseDecimal);
      includeFeesInApr := false;
      selectedJurisdiction := None;
      resultTitle := DefaultTitle;
      resultDetail := NoDetail;
    }
  }
}
