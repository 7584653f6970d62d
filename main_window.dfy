/**
 * The main window's "Calculate" action: the validation of the four form inputs, the
 * payment and up-front amount handed to the APR solver, the comparison with the selected
 * jurisdiction's cap, and the result panel with its four detail lines.
 *
 * Messages and detail lines are kept as data (which message, which numbers) rather than
 * formatted text.
 */
module MainWindowModel {
  import opened Wrappers
  import opened CashflowApr

  /** A jurisdiction as listed in the jurisdictions file. A `maxAprPercent` of zero or less
      means that no cap is configured. */
  datatype Jurisdiction = Jurisdiction(code: string, name: string, maxAprPercent: real, description: string)

  /** Slack allowed above the cap before a loan is said to exceed it. */
  const CapSlack: real := 0.000000001

  /** The main line of the result panel. */
  datatype ResultMessage =
    | ResultPlaceholder                         // the text shown before any calculation
    | InvalidPrincipal                          // the principal is missing or not above zero
    | InvalidRate                               // the annual rate is missing or negative
    | InvalidTerm                               // the term in months is missing or not above zero
    | InvalidFees                               // the fees are missing or negative
    | NoJurisdictionSelected
    | NoCapConfigured(name: string, code: string)
    | ExceedsCap(name: string, capPercent: real)
    | CompliesWithCap(name: string, capPercent: real)

  /** One detail line under the result. */
  datatype DetailLine =
    | NominalRateLine(ratePercent: real)
    | MonthlyPaymentLine(payment: real)
    | AprLine(feesIncluded: bool, aprPercent: real)
    | CapLine(capPercent: real)
    | NoteLine(description: string)

  /** What one of the four detail text blocks shows: a line, or the dash placeholder. */
  datatype Slot = Shown(line: DetailLine) | Dash

  /** The four inputs once they have passed validation. */
  datatype LoanInputs = LoanInputs(principal: real, annualRatePercent: real, months: int, fees: real)

  // ---------------------------------------------------------------------------
  // Parsing and validation
  // ---------------------------------------------------------------------------

  /** Decimal parsing tries the invariant culture first and falls back on the current one. */
  function TryParseDecimal(s: string, invariantCulture: string -> Option<real>,
                           currentCulture: string -> Option<real>): (v: Option<real>)
    ensures invariantCulture(s).Some? ==> v == invariantCulture(s)
    ensures invariantCulture(s).None? ==> v == currentCulture(s)
  {
    if invariantCulture(s).Some? then invariantCulture(s) else currentCulture(s)
  }

  predicate PrincipalValid(p: Option<real>) { p.Some? && p.value > 0.0 }
  predicate RateValid(r: Option<real>) { r.Some? && r.value >= 0.0 }
  predicate TermValid(m: Option<int>) { m.Some? && m.value > 0 }
  predicate FeesValid(f: Option<real>) { f.Some? && f.value >= 0.0 }

  /** The inputs are checked one after the other, principal, rate, term, fees; the first
      one that fails decides the message, and the later ones are not looked at. */
  function ValidateInputs(principal: Option<real>, rate: Option<real>, months: Option<int>,
                          fees: Option<real>): (r: Result<LoanInputs, ResultMessage>)
    ensures r == Failure(InvalidPrincipal) <==> !PrincipalValid(principal)
    ensures r == Failure(InvalidRate) <==> PrincipalValid(principal) && !RateValid(rate)
    ensures r == Failure(InvalidTerm) <==>
                PrincipalValid(principal) && RateValid(rate) && !TermValid(months)
    ensures r == Failure(InvalidFees) <==>
                PrincipalValid(principal) && RateValid(rate) && TermValid(months) && !FeesValid(fees)
    ensures r.Success? <==>
                PrincipalValid(principal) && RateValid(rate) && TermValid(months) && FeesValid(fees)
    ensures r.Success? ==>
              r.value == LoanInputs(principal.value, rate.value, months.value, fees.value)
  {
    if !PrincipalValid(principal) then Failure(InvalidPrincipal)
    else if !RateValid(rate) then Failure(InvalidRate)
    else if !TermValid(months) then Failure(InvalidTerm)
    else if !FeesValid(fees) then Failure(InvalidFees)
    else Success(LoanInputs(principal.value, rate.value, months.value, fees.value))
  }

  // ---------------------------------------------------------------------------
  // Compliance and details
  // ---------------------------------------------------------------------------

  /** The verdict on an annual APR (a fraction, 0.36 for 36%) against the selected
      jurisdiction. */
  function ComplianceMessage(apr: real, selected: Option<Jurisdiction>): (m: ResultMessage)
    ensures m == NoJurisdictionSelected <==> selected.None?
    ensures m.NoCapConfigured? <==> selected.Some? && selected.value.maxAprPercent <= 0.0
    ensures m.NoCapConfigured? ==> m.name == selected.value.name && m.code == selected.value.code
    ensures m.ExceedsCap? <==>
                selected.Some? && selected.value.maxAprPercent > 0.0
                && apr > selected.value.maxAprPercent / 100.0 + CapSlack
    ensures m.CompliesWithCap? <==>
                selected.Some? && selected.value.maxAprPercent > 0.0
                && apr <= selected.value.maxAprPercent / 100.0 + CapSlack
    ensures m.ExceedsCap? || m.CompliesWithCap? ==>
              m.name == selected.value.name && m.capPercent == selected.value.maxAprPercent
  {
    match selected
    case None => NoJurisdictionSelected
    case Some(j) =>
      if j.maxAprPercent <= 0.0 then NoCapConfigured(j.name, j.code)
      else if apr > j.maxAprPercent / 100.0 + CapSlack then ExceedsCap(j.name, j.maxAprPercent)
      else CompliesWithCap(j.name, j.maxAprPercent)
  }

  /** A higher APR never turns an exceeding loan into a complying one, and a lower APR never
      turns a complying loan into an exceeding one. */
  lemma ComplianceIsMonotone(apr1: real, apr2: real, selected: Option<Jurisdiction>)
    requires apr1 <= apr2
    ensures ComplianceMessage(apr1, selected).ExceedsCap? ==> ComplianceMessage(apr2, selected).ExceedsCap?
    ensures ComplianceMessage(apr2, selected).CompliesWithCap? ==> ComplianceMessage(apr1, selected).CompliesWithCap?
  {
  }

  /** A loan exactly at the cap complies. */
  lemma AprAtCapComplies(j: Jurisdiction)
    requires j.maxAprPercent > 0.0
    ensures ComplianceMessage(j.maxAprPercent / 100.0, Some(j)) == CompliesWithCap(j.name, j.maxAprPercent)
  {
  }

  /** The characters `char.IsWhiteSpace` accepts among the ASCII and Latin-1 ones. */
  predicate IsWhiteSpace(c: char)
  {
    c == ' ' || c == '\t' || c == '\n' || c == '\r' || c == '\U{000B}' || c == '\U{000C}'
    || c == '\U{0085}' || c == '\U{00A0}'
  }

  /** `string.IsNullOrWhiteSpace` on a non-null string, scanning from the front: blank
      exactly when every character is white space. */
  predicate IsEmptyOrWhiteSpace(s: string): (blank: bool)
    ensures blank <==> forall i :: 0 <= i < |s| ==> IsWhiteSpace(s[i])
  {
    if s == [] then true
    else IsWhiteSpace(s[0]) && IsEmptyOrWhiteSpace(s[1..])
  }

  /** The detail lines of a calculation: the nominal rate, the payment and the APR in
      percent; then, when a capped jurisdiction is selected, its cap and, if it has a
      description, a note. */
  function DetailLines(inputs: LoanInputs, payment: real, includeFees: bool, apr: real,
                       selected: Option<Jurisdiction>): (lines: seq<DetailLine>)
    ensures 3 <= |lines| <= 5
    ensures lines[..3] == [NominalRateLine(inputs.annualRatePercent), MonthlyPaymentLine(payment),
                           AprLine(includeFees, apr * 100.0)]
    ensures |lines| > 3 <==> selected.Some? && selected.value.maxAprPercent > 0.0
    ensures |lines| > 3 ==> lines[3] == CapLine(selected.value.maxAprPercent)
    ensures |lines| == 5 <==> |lines| > 3 && !IsEmptyOrWhiteSpace(selected.value.description)
    ensures |lines| == 5 ==> lines[4] == NoteLine(selected.value.description)
  {
    var base := [NominalRateLine(inputs.annualRatePercent), MonthlyPaymentLine(payment),
                 AprLine(includeFees, apr * 100.0)];
    match selected
    case None => base
    case Some(j) =>
      if j.maxAprPercent <= 0.0 then base
      else if IsEmptyOrWhiteSpace(j.description) then base + [CapLine(j.maxAprPercent)]
      else base + [CapLine(j.maxAprPercent), NoteLine(j.description)]
  }

  // ---------------------------------------------------------------------------
  // The result panel
  // ---------------------------------------------------------------------------

  /** What detail block `i` shows for a (possibly absent) list of lines: the line at
      index `i`, or a dash when there is none. */
  function SlotAt(lines: Option<seq<DetailLine>>, i: nat): (s: Slot)
    ensures s == Dash <==> lines.None? || i >= |lines.value|
    ensures s.Shown? ==> s.line == lines.value[i]
  {
    if lines.Some? && i < |lines.value| then Shown(lines.value[i]) else Dash
  }

  /** The four detail blocks for a list of lines. */
  function Displayed(lines: Option<seq<DetailLine>>): (slots: seq<Slot>)
    ensures |slots| == 4
    ensures forall i :: 0 <= i < 4 ==> slots[i] == SlotAt(lines, i)
  {
    [SlotAt(lines, 0), SlotAt(lines, 1), SlotAt(lines, 2), SlotAt(lines, 3)]
  }

  /** The panel has room for four detail lines only, so the note of a capped jurisdiction,
      the fifth line, is never on screen. */
  lemma NoteIsNeverDisplayed(inputs: LoanInputs, payment: real, includeFees: bool, apr: real,
                             selected: Option<Jurisdiction>, note: string)
    ensures Shown(NoteLine(note)) !in Displayed(Some(DetailLines(inputs, payment, includeFees, apr, selected)))
  {
    var lines := DetailLines(inputs, payment, includeFees, apr, selected);
    var slots := Displayed(Some(lines));
    forall i | 0 <= i < 4
      ensures slots[i] != Shown(NoteLine(note))
    {
      if i < 3 {
        assert lines[i] == lines[..3][i];
      }
    }
  }

  class MainWindow {
    // the form
    var principalBox: string
    var annualRateBox: string
    var termBox: string
    var feesBox: string
    var includeFeesChecked: bool
    var selectedJurisdiction: Option<Jurisdiction>
    // the result panel
    var resultMainText: ResultMessage
    var detailLine1: Slot
    var detailLine2: Slot
    var detailLine3: Slot
    var detailLine4: Slot

    /** The four detail blocks, top to bottom. */
    function DetailSlots(): seq<Slot>
      reads this
    {
      [detailLine1, detailLine2, detailLine3, detailLine4]
    }

    /** A new window starts with no jurisdiction selected and a reset form. */
    constructor ()
      ensures selectedJurisdiction.None?
      ensures principalBox == "" && annualRateBox == "" && termBox == "" && feesBox == "0.00"
      ensures includeFeesChecked
      ensures resultMainText == ResultPlaceholder && DetailSlots() == [Dash, Dash, Dash, Dash]
    {
      selectedJurisdiction := None;
      principalBox, annualRateBox, termBox, feesBox := "", "", "", "0.00";
      includeFeesChecked := true;
      resultMainText := ResultPlaceholder;
      detailLine1, detailLine2, detailLine3, detailLine4 := Dash, Dash, Dash, Dash;
    }

    /** Shows `message` and the first four of `detailLines`, a dash in each block beyond them. */
    method SetResult(message: ResultMessage, detailLines: Option<seq<DetailLine>>)
      modifies this`resultMainText, this`detailLine1, this`detailLine2, this`detailLine3, this`detailLine4
      ensures resultMainText == message
      ensures DetailSlots() == Displayed(detailLines)
    {
      resultMainText := message;
      detailLine1 := SlotAt(detailLines, 0);
      detailLine2 := SlotAt(detailLines, 1);
      detailLine3 := SlotAt(detailLines, 2);
      detailLine4 := SlotAt(detailLines, 3);
    }

    /** Empties the form, restores the default fees and check box, and clears the result. */
    method ResetForm()
      modifies this
      ensures principalBox == "" && annualRateBox == "" && termBox == "" && feesBox == "0.00"
      ensures includeFeesChecked
      ensures selectedJurisdiction == old(selectedJurisdiction)
      ensures resultMainText == ResultPlaceholder && DetailSlots() == [Dash, Dash, Dash, Dash]
    {
      principalBox, annualRateBox, termBox, feesBox := "", "", "", "0.00";
      includeFeesChecked := true;
      SetResult(ResultPlaceholder, None);
    }

    /** The inputs as the form's text boxes parse. */
    function ParsedInputs(invariantCulture: string -> Option<real>, currentCulture: string -> Option<real>,
                          parseInt: string -> Option<int>): Result<LoanInputs, ResultMessage>
      reads this
    {
      ValidateInputs(TryParseDecimal(principalBox, invariantCulture, currentCulture),
                     TryParseDecimal(annualRateBox, invariantCulture, currentCulture),
                     parseInt(termBox),
                     TryParseDecimal(feesBox, invariantCulture, currentCulture))
    }

    /**
     * The "Calculate" button. An invalid input shows its message and four dashes. Otherwise
     * the payment is computed, the fees (when the box is checked) come off the amount
     * received, the solver gives the APR (returned here as `apr`, with the exit it took as
     * `exit`), and the panel shows the
     * verdict for the selected jurisdiction and the detail lines. The form is not changed.
     */
    method CalculateButtonClick(invariantCulture: string -> Option<real>, currentCulture: string -> Option<real>,
                                parseInt: string -> Option<int>, fractionalRoot: (real, real, int) -> real)
      returns (ghost apr: real, ghost exit: SolverExit)
      modifies this`resultMainText, this`detailLine1, this`detailLine2, this`detailLine3, this`detailLine4
      ensures ParsedInputs(invariantCulture, currentCulture, parseInt).Failure? ==>
                && resultMainText == ParsedInputs(invariantCulture, currentCulture, parseInt).error
                && DetailSlots() == [Dash, Dash, Dash, Dash]
      ensures ParsedInputs(invariantCulture, currentCulture, parseInt).Success? ==>
                var inputs := ParsedInputs(invariantCulture, currentCulture, parseInt).value;
                var payment := MonthlyPayment(inputs.principal, inputs.annualRatePercent, inputs.months);
                && SolverOutcome(UpfrontReceived(inputs.principal, inputs.fees, includeFeesChecked),
                                 -payment, inputs.months, fractionalRoot, apr, exit)
                && apr > -1.0
                && resultMainText == ComplianceMessage(apr, selectedJurisdiction)
                && DetailSlots()
                   == Displayed(Some(DetailLines(inputs, payment, includeFeesChecked, apr, selectedJurisdiction)))
    {
      var parsed := ValidateInputs(TryParseDecimal(principalBox, invariantCulture, currentCulture),
                                   TryParseDecimal(annualRateBox, invariantCulture, currentCulture),
                                   parseInt(termBox),
                                   TryParseDecimal(feesBox, invariantCulture, currentCulture));
      if parsed.Failure? {
        SetResult(parsed.error, Some([]));
        apr, exit := 0.0, ZeroOutflow;
        return;
      }
      var inputs := parsed.value;
      var payment := MonthlyPayment(inputs.principal, inputs.annualRatePercent, inputs.months);
      var upfront := UpfrontReceived(inputs.principal, inputs.fees, includeFeesChecked);
      var aprAnnual;
      aprAnnual, exit := AnnualAprFromCashflows(upfront, -payment, inputs.months, fractionalRoot);
      var lines := DetailLines(inputs, payment, includeFeesChecked, aprAnnual, selectedJurisdiction);
      SetResult(ComplianceMessage(aprAnnual, selectedJurisdiction), Some(lines));
      apr := aprAnnual;
    }
  }
}
