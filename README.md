# Usury checker — a Dafny model

The usury checker decides whether a loan's annual percentage rate (APR) goes above a
legal cap. This project models its computational core in Dafny and proves properties of
that model:

- **Cash-flow APR solver and the main window's "Calculate" action**
  (`usuryCheck/MainWindow.xaml.cs`). The action reads four form inputs and validates them
  in a fixed order: principal, rate, term, fees. It then computes the amortizing monthly
  payment and the up-front amount the borrower receives. The APR comes from a solver. The
  solver evaluates the net present value (NPV) of the cash flows in a discounting loop. It
  doubles the upper end of a search interval until the NPV changes sign, then bisects that
  interval. When no sign change turns up, it falls back on a closed-form estimate. The
  action then compares the APR with the cap of the selected jurisdiction and fills the
  result panel, which has four detail lines. The `Jurisdiction` record
  (`usuryCheck/Jurisdiction.cs`) becomes a datatype. The solver is split into its two loop
  phases, `ExpandBracket` and `Bisect`, and the NPV closure becomes its own method,
  `ComputeNpv`.
- **The view model** (`usuryCheck/MainViewModel.cs`) is a class. Its text setters parse
  into fields, with 0 when parsing fails. `Calculate` computes a fee-adjusted APR estimate
  and compares it with a fixed table of caps, and `Reset` restores the defaults.
- **The command-line check** (`usuryCheck.c`): a simple APR and a strict usury test.
- **The three-word sorter** (`mistralMadeThis.c`): an in-place exchange sort of three
  pointers into word buffers.

`double` and `decimal` are modelled as exact reals, and integer powers as repeated
multiplication. The proved facts are structural:

- the bracket invariant and the interval halving of bisection;
- the loop budgets, the early exits, and the rule by which each halving keeps one half;
- the sign of the fallback result;
- that the monthly payment amortizes the principal exactly. Consequently, the monthly
  nominal rate is a root of the NPV the solver searches when no fees are deducted.

Messages and detail lines are data, not text with formatted numbers: which message was
chosen and which numbers it shows. One consequence of the panel's size is proved as a
lemma. In a capped jurisdiction with a description, a fifth detail line (the note) is
built, and SetResult never displays it.

Two points of the code shape the model. The action passes the annual rate in percent,
and divides it by 100 itself. The solver returns only the rate. The model also returns
the exit the solver took, but only as ghost information used by the contracts.

## Model

| member | source | states |
|---|---|---|
| `CashflowApr.ComputeNpv` | usuryCheck/MainWindow.xaml.cs:192-204 | a rate at or below -100% gives the +infinity sentinel; otherwise the discounting loop returns the upfront amount plus the sum of `outflow / (1+r)^t` for t = 1..months |
| `CashflowApr.NpvAtZeroRate` | usuryCheck/MainWindow.xaml.cs:192-204 | at a zero rate the discount stays 1, so the NPV is `upfront + months * outflow` |
| `CashflowApr.DiscountedSumClosedForm` | usuryCheck/MainWindow.xaml.cs:195-202 | the discounted payments satisfy the annuity formula `S * r * (1+r)^n == outflow * ((1+r)^n - 1)` |
| `CashflowApr.MonthlyNominalRate` | usuryCheck/MainWindow.xaml.cs:100-101 | the monthly fraction times 1200 gives back the annual percentage; it is zero exactly for a zero rate and non-negative for a non-negative one |
| `CashflowApr.MonthlyPayment` | usuryCheck/MainWindow.xaml.cs:99-115 | the payment is positive; with a zero rate it is the principal spread evenly (`payment * months == principal`) |
| `CashflowApr.PaymentAmortizesPrincipal` | usuryCheck/MainWindow.xaml.cs:103-120 | discounted at the monthly nominal rate, the payments are worth exactly the principal: that rate is a root of the NPV handed to the solver when no fees are deducted |
| `CashflowApr.UpfrontReceived` | usuryCheck/MainWindow.xaml.cs:117-118 | the borrower receives principal minus fees when fees count toward the APR, the principal otherwise |
| `CashflowApr.ExpandBracket` | usuryCheck/MainWindow.xaml.cs:206-219 | at most 200 doublings; the upper end after k doublings is `10 * 2^k` and the lower end never moves; every upper end tried before the last one showed no sign change; if there is still no sign change on exit, the whole budget was spent |
| `CashflowApr.Bisect` | usuryCheck/MainWindow.xaml.cs:229-254 | keeps `low <= a < mid < b <= high` with `npv(a) * npv(b) <= 0`; the width after `steps` halvings is the initial width halved `steps` times; at most 200 steps. The ghost `trail` lists every bracket from `(low, high)` to `(a, b)`. At each earlier bracket the midpoint failed the tolerance test (NPV magnitude or width below 1e-12), and the next bracket is the half chosen by the sign of the NPV at the lower end (`BisectionStep`). So the loop stops at the first midpoint that passes the test, and it stops after exactly 200 steps only when none does |
| `CashflowApr.ChooseSide` | usuryCheck/MainWindow.xaml.cs:242-250 | the half `[a, c]` is kept exactly when `fa * fc <= 0`, the half `[c, b]` otherwise, and the kept ends never share a strict sign |
| `CashflowApr.HalvedByPowerOfTwo` | usuryCheck/MainWindow.xaml.cs:234-250 | halving an interval `n` times divides its width by `2^n` |
| `CashflowApr.SignCarriesOver` | usuryCheck/MainWindow.xaml.cs:243-250 | when `fa` and the midpoint's NPV share a sign, the new bracket `[c, b]` still shows a sign change |
| `CashflowApr.CompoundedAboveMinusOne` | usuryCheck/MainWindow.xaml.cs:238-255 | compounding a periodic rate above -100% over 12 periods gives an annual rate above -100% |
| `CashflowApr.AnnualAprFromCashflows` | usuryCheck/MainWindow.xaml.cs:185-256 | the solver's outcome (`SolverOutcome`): an outflow below 1e-12 in magnitude gives exactly 0. Without a bracket after all 201 upper ends, the result is `12 * max(0, root - 1) >= 0`. Otherwise it is `(1+mid)^12 - 1` for the midpoint of a sign-changing bracket inside `[low, 10 * 2^k]`, reached from `[low, 10 * 2^k]` through the halvings of `Bisect`'s trail, where `k` is the first expansion that brackets a sign change. The result is always above -1 |
| `MainWindowModel.TryParseDecimal` | usuryCheck/MainWindow.xaml.cs:161-165 | the invariant-culture parse wins when it succeeds; otherwise the current culture's result is used |
| `MainWindowModel.ValidateInputs` | usuryCheck/MainWindow.xaml.cs:75-95 | the first failing check, in the order principal > 0, rate >= 0, months > 0, fees >= 0, decides the message; success exactly when all four hold, carrying the parsed values |
| `MainWindowModel.ComplianceMessage` | usuryCheck/MainWindow.xaml.cs:130-152 | no jurisdiction gives "no jurisdiction selected"; a cap <= 0 gives "no cap configured"; otherwise the loan exceeds if and only if `apr > cap/100 + 1e-9`, and complies otherwise |
| `MainWindowModel.ComplianceIsMonotone` | usuryCheck/MainWindow.xaml.cs:142-152 | raising the APR never turns "exceeds" into "complies" |
| `MainWindowModel.AprAtCapComplies` | usuryCheck/MainWindow.xaml.cs:144-151 | an APR exactly at the cap complies |
| `MainWindowModel.IsEmptyOrWhiteSpace` | usuryCheck/MainWindow.xaml.cs:154 | scanning from the front, a description is blank exactly when every character is white space (the empty string included) |
| `MainWindowModel.DetailLines` | usuryCheck/MainWindow.xaml.cs:122-156 | lines: nominal rate, payment, APR in percent; a cap line exactly for a capped jurisdiction; a note exactly when that jurisdiction's description is not blank |
| `MainWindowModel.SlotAt` | usuryCheck/MainWindow.xaml.cs:171-174 | a detail block shows the line at its index, or a dash when the list is absent or too short |
| `MainWindowModel.Displayed` | usuryCheck/MainWindow.xaml.cs:167-175 | exactly four blocks, block i showing line i or a dash |
| `MainWindowModel.NoteIsNeverDisplayed` | usuryCheck/MainWindow.xaml.cs:153-174 | the note, the fifth detail line, never appears in the four blocks |
| `MainWindowModel.MainWindow.constructor` | usuryCheck/MainWindow.xaml.cs:23-28 | a new window has no jurisdiction selected and a reset form and panel |
| `MainWindowModel.MainWindow.SetResult` | usuryCheck/MainWindow.xaml.cs:167-175 | the main text is the message; the four blocks show the first four lines, padded with dashes |
| `MainWindowModel.MainWindow.ResetForm` | usuryCheck/MainWindow.xaml.cs:61-69 | the inputs are emptied, fees are "0.00", the fees box is checked, and the panel shows the placeholder and four dashes |
| `MainWindowModel.MainWindow.CalculateButtonClick` | usuryCheck/MainWindow.xaml.cs:73-159 | an invalid input shows its message and four dashes; otherwise the panel shows the compliance verdict for the solver's APR and the detail lines for the computed payment; only the panel changes |
| `ViewModel.ParseDecimal` | usuryCheck/MainViewModel.cs:161-162 | the parsed value, or 0 when the text does not parse |
| `ViewModel.ParseInt` | usuryCheck/MainViewModel.cs:164-165 | the parsed value, or 0 when the text does not parse |
| `ViewModel.CapForJurisdiction` | usuryCheck/MainViewModel.cs:138-147 | US_Federal 36, Philippines 60, EU_Generic 20, None (and anything else) 100 |
| `ViewModel.CapsAreBounded` | usuryCheck/MainViewModel.cs:138-147 | every cap lies in [20, 100], and only EU_Generic has the strictest |
| `ViewModel.EffectiveAprClosedForm` | usuryCheck/MainViewModel.cs:112-122 | the estimate is the nominal rate plus `1200 * fees / (principal * term)` points when fees count, and exactly the nominal rate when they do not |
| `ViewModel.FeesNeverLowerApr` | usuryCheck/MainViewModel.cs:115-122 | counting non-negative fees never lowers the estimate, and more fees never lower it |
| `ViewModel.EffectiveAprPercent` | usuryCheck/MainViewModel.cs:112-122 | with fees not counted the estimate is exactly the nominal rate; counting non-negative fees never puts it below the nominal rate |
| `ViewModel.ComplianceTitle` | usuryCheck/MainViewModel.cs:126-130 | "complies" if and only if the estimate is at most the cap (equality complies), "potential usury" otherwise |
| `ViewModel.MainViewModel.constructor` | usuryCheck/MainViewModel.cs:21-91 | zero inputs, fees not counted, jurisdiction None, the placeholder title and an empty detail |
| `ViewModel.MainViewModel.SetPrincipal` | usuryCheck/MainViewModel.cs:22-30 | only the principal changes, to the parsed text or 0 |
| `ViewModel.MainViewModel.SetTermMonths` | usuryCheck/MainViewModel.cs:33-41 | only the term changes, to the parsed text or 0 |
| `ViewModel.MainViewModel.SetAnnualRatePercent` | usuryCheck/MainViewModel.cs:44-52 | only the rate changes, to the parsed text or 0 |
| `ViewModel.MainViewModel.SetUpfrontFees` | usuryCheck/MainViewModel.cs:55-63 | only the fees change, to the parsed text or 0 |
| `ViewModel.MainViewModel.Calculate` | usuryCheck/MainViewModel.cs:102-136 | a principal or term <= 0 sets the missing-inputs title and hint; otherwise the title reflects `estimate <= cap` and the detail summarises the computation; nothing but title and detail changes |
| `ViewModel.MainViewModel.Reset` | usuryCheck/MainViewModel.cs:149-159 | principal, term, rate and fees 0, fees not counted, jurisdiction None, placeholder title, empty detail |
| `UsuryCheckC.CalculateApr` | usuryCheck.c:4-6 | the APR times principal times term gives back 100 times the interest; it is non-negative for non-negative interest on a positive loan |
| `UsuryCheckC.IsUsury` | usuryCheck.c:9-11 | usury if and only if the APR is strictly above the threshold |
| `UsuryCheckC.InformIfUsury` | usuryCheck.c:12-19 | the warning is chosen exactly when `IsUsury` holds, the "within limits" message otherwise |
| `UsuryCheckC.ThresholdItselfIsLawful` | usuryCheck.c:9-19 | an APR equal to the threshold is not usury |
| `UsuryCheckC.BuiltInExample` | usuryCheck.c:24-36 | principal 1000, interest 400, one year give APR 40, which the 20 threshold flags |
| `UsuryCheckC.InterestFreeIsNeverUsury` | usuryCheck.c:4-11 | zero interest gives APR 0, never usury under a non-negative threshold |
| `UsuryCheckC.MoreInterestStaysUsurious` | usuryCheck.c:4-11 | on the same principal and term, more interest keeps a usurious loan usurious |
| `WordSort.Compare` | mistralMadeThis.c:29 | `strcmp` up to its sign, always -1, 0 or 1 |
| `WordSort.CompareZeroIffEqual` | mistralMadeThis.c:29 | words compare equal if and only if they are the same bytes |
| `WordSort.CompareAntisymmetric` | mistralMadeThis.c:29 | swapping the operands flips the sign |
| `WordSort.CompareTransitive` | mistralMadeThis.c:29 | "not after" is transitive |
| `WordSort.SwapIfGreater` | mistralMadeThis.c:29-33 | pointers i and j are swapped exactly when the word at i compares greater, nothing else moves, and afterwards the word at i is not after the word at j |
| `WordSort.BeforeAMinimum` | mistralMadeThis.c:26-34 | after a swap, the word moved to position i is still not after any word the old one was not after |
| `WordSort.PlaceMinimum` | mistralMadeThis.c:26-34 | after the inner loop for `i`, the word at `i` is not after any later word; earlier pointers are untouched; the later ones are kept or exchanged; the array is a permutation of its old contents; a row already in order is unchanged; the comparisons are `(i, j)` for each later `j` in turn |
| `WordSort.SortWords` | mistralMadeThis.c:25-35 | afterwards `words[0] <= words[1] <= words[2]` in `strcmp` order; the array is a permutation of the input pointers; input already in order is left untouched; the comparisons are exactly (0,1), (0,2), (1,2) |

## Left out

- IEEE-754 and `decimal` rounding: all arithmetic is exact over the reals. No result is claimed bit-exact. NaN and infinities other than the NPV sentinel do not exist in the model.
- `Math.Pow(x, 1.0 / months)` in the solver's fallback is the function parameter `fractionalRoot(num, den, months)`. It stands for that call, including the IEEE division `num / den`. Nothing is assumed about it; only the `Math.Max(0, …)` clamp is relied on.
- CashflowApr.AnnualAprFromCashflows: does not claim that the result is close to a root of the NPV or recovers the nominal rate. That needs continuity arguments (the intermediate value theorem), and the code compounds the midpoint into an effective annual rate anyway.
- Loading and writing `jurisdictions.json`, JSON (de)serialization, and the "failed to load" message are file I/O and library code. The window starts with no jurisdiction selected, as after loading, and a jurisdiction is selected by assigning the field.
- WPF plumbing is left out: `ComboBoxItemWrapper`, `RelayCommand`, property-change notifications, and the currency selector (`CurrencyCompo.xaml.cs`, `CurrencyViewModel.cs`).
- Culture-dependent `decimal.TryParse` and `int.TryParse` are function parameters returning an option. No parsing grammar is modelled.
- The formatting of numbers into messages and detail lines is not modelled. Messages and lines are datatypes carrying the numbers they show.
- MainWindowModel.IsWhiteSpace: covers the ASCII and Latin-1 white-space characters only, not every Unicode separator that `char.IsWhiteSpace` accepts. A `null` description is not modelled.
- The `SupportedJurisdiction` enum declaration is not part of this model. Its four members used in the view model are modelled; any other member would get the 100% default, as the switch's catch-all gives.
- ViewModel.MainViewModel.Reset: requires the parsers to read "0" as zero or not at all. `Reset` goes through the text setters, and both outcomes store 0.
- The `decimal` overflow exception that `Calculate` could raise for extreme inputs is not modelled.
- UsuryCheckC.CalculateApr: requires a non-zero principal and term. In C, a zero divisor gives an infinity or NaN, which the real-number model cannot represent.
- UsuryCheckC.IsUsury: returns a boolean where the C function returns the `int` 0 or 1.
- `printf` and `scanf` are left out, as is the second, interactive evaluation in `usuryCheck.c`'s `main`. The C program's fixed example is the lemma `BuiltInExample`.
- The unbounded `%s` reads into `MAX_WORD_LENGTH` buffers in `mistralMadeThis.c` are left out. Words are byte sequences without their terminating NUL, so they hold no NUL byte (the `Word` subtype).
- WordSort.Compare: gives only the sign of `strcmp`, which is all the C standard promises and all the sort uses.
