/**
 * The credit-card payoff page: an input validator, a capped month-by-month
 * payoff loop (also run bi-weekly), the three "what if" scenarios compared
 * against the base run, and the years-and-months text of a duration.
 */
module CreditCard {
  import opened Numerics

  /** The safety limits of the two payoff loops. */
  const MonthCap: nat := 1000
  const PeriodCap: nat := 2000

  /** The interest rate per month for an annual percentage rate. */
  function MonthlyRate(annualRate: real): (r: real)
    ensures annualRate >= 0.0 ==> r >= 0.0
  {
    annualRate / 100.0 / 12.0
  }

  /** The interest rate per bi-weekly period: 26 periods a year. */
  function BiWeeklyRate(annualRate: real): (r: real)
    ensures annualRate >= 0.0 ==> r >= 0.0
  {
    annualRate / 100.0 / 26.0
  }

  // ---------------------------------------------------------------------------
  // Validation
  // ---------------------------------------------------------------------------

  /** The error messages, keyed by the input they are shown under. */
  datatype Message =
    | BalanceNotPositive
    | RateNegative
    | PaymentNotPositive
    | PaymentTooLow(minimumRequired: real)

  /** The inputs the calculator accepts. */
  predicate Valid(balance: real, annualRate: real, monthlyPayment: real)
  {
    && balance > 0.0
    && annualRate >= 0.0
    && monthlyPayment > 0.0
    && monthlyPayment > balance * MonthlyRate(annualRate)
  }

  /**
   * validateInputs: one entry per failed check; the payment-covers-interest
   * check runs last and overwrites the payment entry.
   */
  function ValidateInputs(balance: real, annualRate: real, monthlyPayment: real): (errors: map<string, Message>)
    ensures errors.Keys <= {"balance", "annualRate", "monthlyPayment"}
    ensures "balance" in errors <==> balance <= 0.0
    ensures "balance" in errors ==> errors["balance"] == BalanceNotPositive
    ensures "annualRate" in errors <==> annualRate < 0.0
    ensures "annualRate" in errors ==> errors["annualRate"] == RateNegative
    ensures "monthlyPayment" in errors
        <==> monthlyPayment <= 0.0 || monthlyPayment <= balance * MonthlyRate(annualRate)
    ensures "monthlyPayment" in errors ==>
              errors["monthlyPayment"]
              == (if monthlyPayment <= balance * MonthlyRate(annualRate)
                  then PaymentTooLow(balance * MonthlyRate(annualRate) + 1.0)
                  else PaymentNotPositive)
    ensures errors == map[] <==> Valid(balance, annualRate, monthlyPayment)
  {
    var e0: map<string, Message> := map[];
    var e1 := if balance <= 0.0 then e0["balance" := BalanceNotPositive] else e0;
    var e2 := if annualRate < 0.0 then e1["annualRate" := RateNegative] else e1;
    var e3 := if monthlyPayment <= 0.0 then e2["monthlyPayment" := PaymentNotPositive] else e2;
    var monthlyInterest := balance * MonthlyRate(annualRate);
    var e4 := if monthlyPayment <= monthlyInterest
              then e3["monthlyPayment" := PaymentTooLow(monthlyInterest + 1.0)]
              else e3;
    assert e4 == map[] ==> "balance" !in e4 && "annualRate" !in e4 && "monthlyPayment" !in e4;
    e4
  }

  // ---------------------------------------------------------------------------
  // The payoff loop
  // ---------------------------------------------------------------------------

  /** Where a payoff run ends: periods paid, interest charged, balance left. */
  datatype Run = Run(periods: nat, interest: real, balance: real)

  /**
   * The payoff loop as a recursive definition: while something is owed and
   * `fuel` periods remain, charge `balance * rate` of interest and pay off
   * `payment - interest`, never more than the balance; stop as soon as the
   * payment no longer reduces the balance.
   */
  function PayDown(balance: real, rate: real, payment: real, fuel: nat): (r: Run)
    ensures r.periods <= fuel
    ensures balance <= 0.0 ==> r == Run(0, 0.0, balance)
    decreases fuel
  {
    if balance <= 0.0 || fuel == 0 then Run(0, 0.0, balance)
    else
      var interest := balance * rate;
      var principal := Principal(balance, rate, payment);
      if principal <= 0.0 then Run(0, 0.0, balance)
      else
        var rest := PayDown(balance - principal, rate, payment, fuel - 1);
        Run(rest.periods + 1, interest + rest.interest, rest.balance)
  }

  /**
   * A run never overpays: the balance stays between zero and where it
   * started, and at a non-negative rate the interest charged is non-negative.
   */
  lemma {:induction false} PayDownBounds(balance: real, rate: real, payment: real, fuel: nat)
    requires balance >= 0.0
    ensures 0.0 <= PayDown(balance, rate, payment, fuel).balance <= balance
    ensures rate >= 0.0 ==> PayDown(balance, rate, payment, fuel).interest >= 0.0
    decreases fuel
  {
    if balance > 0.0 && fuel > 0 && Principal(balance, rate, payment) > 0.0 {
      PayDownBounds(balance - Principal(balance, rate, payment), rate, payment, fuel - 1);
      ProductNonNegative(balance, rate);
    }
  }

  /** Why a run ends: the balance is paid off exactly, the periods ran out, or the payment stopped covering the interest. */
  lemma {:induction false} PayDownExit(balance: real, rate: real, payment: real, fuel: nat)
    requires balance >= 0.0
    ensures var r := PayDown(balance, rate, payment, fuel);
      r.balance == 0.0 || r.periods == fuel || Principal(r.balance, rate, payment) <= 0.0
    decreases fuel
  {
    if balance > 0.0 && fuel > 0 && Principal(balance, rate, payment) > 0.0 {
      PayDownExit(balance - Principal(balance, rate, payment), rate, payment, fuel - 1);
    }
  }

  /** What one period's payment takes off the balance: never more than the balance. */
  function Principal(balance: real, rate: real, payment: real): (p: real)
    ensures p <= balance
  {
    if payment - balance * rate <= balance then payment - balance * rate else balance
  }

  /**
   * The loop shared by calculatePayoff and calculateBiWeeklyPayoff, run on
   * local copies of the balance and the counters.
   */
  method PayDownLoop(initialBalance: real, rate: real, payment: real, cap: nat)
    returns (periods: nat, totalInterest: real, remainingBalance: real)
    ensures Run(periods, totalInterest, remainingBalance) == PayDown(initialBalance, rate, payment, cap)
  {
    remainingBalance := initialBalance;
    totalInterest := 0.0;
    periods := 0;
    ghost var whole := PayDown(initialBalance, rate, payment, cap);

    while remainingBalance > 0.0 && periods < cap
      invariant periods <= cap
      invariant var rest := PayDown(remainingBalance, rate, payment, cap - periods);
        && periods + rest.periods == whole.periods
        && totalInterest + rest.interest == whole.interest
        && rest.balance == whole.balance
      decreases cap - periods
    {
      var interestPayment := remainingBalance * rate;
      var principalPayment := Principal(remainingBalance, rate, payment);
      if principalPayment <= 0.0 {
        break;
      }
      totalInterest := totalInterest + interestPayment;
      remainingBalance := remainingBalance - principalPayment;
      periods := periods + 1;
    }
  }

  /** What a payoff calculation reports (the payoff date is left out). */
  datatype PayoffResults = PayoffResults(monthsToPayoff: int, totalInterest: real, totalAmount: real)

  /** The results of calculatePayoff, as a function of its inputs. */
  function MonthlyPayoff(initialBalance: real, rate: real, payment: real, extraAmount: real, lumpSumAmount: real)
    : PayoffResults
  {
    var run := PayDown(initialBalance - lumpSumAmount, MonthlyRate(rate), payment + extraAmount, MonthCap);
    PayoffResults(run.periods, run.interest, initialBalance + run.interest)
  }

  /**
   * calculatePayoff: the lump sum comes off once before the loop, the extra
   * amount is added to every payment, and the loop stops after 1000 months.
   */
  method CalculatePayoff(initialBalance: real, rate: real, payment: real, extraAmount: real, lumpSumAmount: real)
    returns (r: PayoffResults)
    ensures r == MonthlyPayoff(initialBalance, rate, payment, extraAmount, lumpSumAmount)
    ensures 0 <= r.monthsToPayoff <= MonthCap
    ensures r.totalAmount == initialBalance + r.totalInterest
    ensures lumpSumAmount >= initialBalance ==> r.monthsToPayoff == 0 && r.totalInterest == 0.0
    ensures rate >= 0.0 ==> r.totalInterest >= 0.0
  {
    var monthlyRate := MonthlyRate(rate);
    var totalPayment := payment + extraAmount;
    var months, totalInterest, _ := PayDownLoop(initialBalance - lumpSumAmount, monthlyRate, totalPayment, MonthCap);
    if initialBalance - lumpSumAmount >= 0.0 {
      PayDownBounds(initialBalance - lumpSumAmount, monthlyRate, totalPayment, MonthCap);
    }
    r := PayoffResults(months, totalInterest, initialBalance + totalInterest);
  }

  /** The results of calculateBiWeeklyPayoff, as a function of its inputs. */
  function BiWeeklyPayoff(initialBalance: real, rate: real, biWeeklyPayment: real): PayoffResults
  {
    var run := PayDown(initialBalance, BiWeeklyRate(rate), biWeeklyPayment, PeriodCap);
    PayoffResults(Round(run.periods as real / 2.17), run.interest, initialBalance + run.interest)
  }

  /**
   * calculateBiWeeklyPayoff: the same loop per bi-weekly period, stopped
   * after 2000 periods; the periods are reported as months, 2.17 to a month.
   */
  method CalculateBiWeeklyPayoff(initialBalance: real, rate: real, biWeeklyPayment: real) returns (r: PayoffResults)
    ensures r == BiWeeklyPayoff(initialBalance, rate, biWeeklyPayment)
    ensures 0 <= r.monthsToPayoff <= 922
    ensures r.totalAmount == initialBalance + r.totalInterest
    ensures rate >= 0.0 && initialBalance >= 0.0 ==> r.totalInterest >= 0.0
  {
    var biWeeklyRate := BiWeeklyRate(rate);
    var periods, totalInterest, _ := PayDownLoop(initialBalance, biWeeklyRate, biWeeklyPayment, PeriodCap);
    if initialBalance >= 0.0 {
      PayDownBounds(initialBalance, biWeeklyRate, biWeeklyPayment, PeriodCap);
    }
    var months := periods as real / 2.17;
    RoundNonNegative(months);
    RoundMonotone(months, PeriodCap as real / 2.17);
    r := PayoffResults(Round(months), totalInterest, initialBalance + totalInterest);
  }

  /**
   * Paying more on a smaller balance never takes more periods, as long as the
   * larger payment covers the interest on the larger balance: the smaller
   * balance stays below the larger one period by period.
   */
  lemma {:induction false} PayingMoreNeverSlower(b1: real, b2: real, rate: real, p1: real, p2: real, fuel: nat)
    requires b1 <= b2 && b2 >= 0.0 && rate >= 0.0 && p1 >= p2 && p2 > b2 * rate
    ensures PayDown(b1, rate, p1, fuel).periods <= PayDown(b2, rate, p2, fuel).periods
    decreases fuel
  {
    if b1 > 0.0 && fuel > 0 {
      StepDominated(b1, b2, rate, p1, p2);
      PayingMoreNeverSlower(b1 - Principal(b1, rate, p1), b2 - Principal(b2, rate, p2), rate, p1, p2, fuel - 1);
      StepPeriods(b1, b2, rate, p1, p2, fuel);
    }
  }

  /** Under the same conditions, paying more never costs more interest. */
  lemma {:induction false} PayingMoreCostsLess(b1: real, b2: real, rate: real, p1: real, p2: real, fuel: nat)
    requires b1 <= b2 && b2 >= 0.0 && rate >= 0.0 && p1 >= p2 && p2 > b2 * rate
    ensures PayDown(b1, rate, p1, fuel).interest <= PayDown(b2, rate, p2, fuel).interest
    decreases fuel
  {
    if b1 > 0.0 && fuel > 0 {
      StepDominated(b1, b2, rate, p1, p2);
      PayingMoreCostsLess(b1 - Principal(b1, rate, p1), b2 - Principal(b2, rate, p2), rate, p1, p2, fuel - 1);
      StepInterest(b1, b2, rate, p1, p2, fuel);
    } else {
      PayDownBounds(b2, rate, p2, fuel);
    }
  }

  /** The interest of the first period of PayingMoreNeverSlower. */
  lemma StepInterest(b1: real, b2: real, rate: real, p1: real, p2: real, fuel: nat)
    requires 0.0 < b1 <= b2 && rate >= 0.0 && p1 >= p2 && p2 > b2 * rate && fuel > 0
    ensures PayDown(b1, rate, p1, fuel).interest - PayDown(b1 - Principal(b1, rate, p1), rate, p1, fuel - 1).interest
         <= PayDown(b2, rate, p2, fuel).interest - PayDown(b2 - Principal(b2, rate, p2), rate, p2, fuel - 1).interest
  {
    StepDominated(b1, b2, rate, p1, p2);
    PayDownStep(b1, rate, p1, fuel);
    PayDownStep(b2, rate, p2, fuel);
  }

  /** The periods of the first period of PayingMoreNeverSlower: one each. */
  lemma StepPeriods(b1: real, b2: real, rate: real, p1: real, p2: real, fuel: nat)
    requires 0.0 < b1 <= b2 && rate >= 0.0 && p1 >= p2 && p2 > b2 * rate && fuel > 0
    ensures PayDown(b1, rate, p1, fuel).periods - PayDown(b1 - Principal(b1, rate, p1), rate, p1, fuel - 1).periods
         == PayDown(b2, rate, p2, fuel).periods - PayDown(b2 - Principal(b2, rate, p2), rate, p2, fuel - 1).periods
  {
    StepDominated(b1, b2, rate, p1, p2);
    PayDownStep(b1, rate, p1, fuel);
    PayDownStep(b2, rate, p2, fuel);
  }

  /** One period of a run that makes progress. */
  lemma PayDownStep(balance: real, rate: real, payment: real, fuel: nat)
    requires balance > 0.0 && fuel > 0 && Principal(balance, rate, payment) > 0.0
    ensures PayDown(balance, rate, payment, fuel).periods
         == PayDown(balance - Principal(balance, rate, payment), rate, payment, fuel - 1).periods + 1
    ensures PayDown(balance, rate, payment, fuel).interest
         == balance * rate + PayDown(balance - Principal(balance, rate, payment), rate, payment, fuel - 1).interest
  {
  }

  /** One period of PayingMoreNeverSlower, on plain numbers. */
  lemma StepDominated(b1: real, b2: real, rate: real, p1: real, p2: real)
    requires 0.0 < b1 <= b2 && rate >= 0.0 && p1 >= p2 && p2 > b2 * rate
    ensures Principal(b1, rate, p1) > 0.0 && Principal(b2, rate, p2) > 0.0
    ensures b1 * rate <= b2 * rate
    ensures b1 - Principal(b1, rate, p1) <= b2 - Principal(b2, rate, p2)
    ensures p2 > (b2 - Principal(b2, rate, p2)) * rate
  {
    MulLe(b1, b2, rate);
    assert p1 - b1 * rate >= p2 - b2 * rate > 0.0;
    MulLe(b2 - Principal(b2, rate, p2), b2, rate);
  }

  /** An extra monthly amount of zero or more never adds months or interest. */
  lemma ExtraPaymentSaves(balance: real, rate: real, payment: real, extra: real)
    requires Valid(balance, rate, payment) && extra >= 0.0
    ensures MonthlyPayoff(balance, rate, payment, extra, 0.0).monthsToPayoff
         <= MonthlyPayoff(balance, rate, payment, 0.0, 0.0).monthsToPayoff
    ensures MonthlyPayoff(balance, rate, payment, extra, 0.0).totalInterest
         <= MonthlyPayoff(balance, rate, payment, 0.0, 0.0).totalInterest
  {
    var r := MonthlyRate(rate);
    var larger := payment + extra;
    PayingMoreNeverSlower(balance, balance, r, larger, payment, MonthCap);
    PayingMoreCostsLess(balance, balance, r, larger, payment, MonthCap);
    var more, base := PayDown(balance, r, larger, MonthCap), PayDown(balance, r, payment, MonthCap);
    assert more.periods <= base.periods && more.interest <= base.interest;
    assert MonthlyPayoff(balance, rate, payment, extra, 0.0) == PayoffResults(more.periods, more.interest, balance + more.interest);
    assert MonthlyPayoff(balance, rate, payment, 0.0, 0.0) == PayoffResults(base.periods, base.interest, balance + base.interest);
  }

  /** A lump sum of zero or more never adds months or interest. */
  lemma LumpSumSaves(balance: real, rate: real, payment: real, lump: real)
    requires Valid(balance, rate, payment) && lump >= 0.0
    ensures MonthlyPayoff(balance, rate, payment, 0.0, lump).monthsToPayoff
         <= MonthlyPayoff(balance, rate, payment, 0.0, 0.0).monthsToPayoff
    ensures MonthlyPayoff(balance, rate, payment, 0.0, lump).totalInterest
         <= MonthlyPayoff(balance, rate, payment, 0.0, 0.0).totalInterest
  {
    var r := MonthlyRate(rate);
    var rest := balance - lump;
    PayingMoreNeverSlower(rest, balance, r, payment, payment, MonthCap);
    PayingMoreCostsLess(rest, balance, r, payment, payment, MonthCap);
    var less, base := PayDown(rest, r, payment, MonthCap), PayDown(balance, r, payment, MonthCap);
    assert less.periods <= base.periods && less.interest <= base.interest;
    assert MonthlyPayoff(balance, rate, payment, 0.0, lump) == PayoffResults(less.periods, less.interest, balance + less.interest);
    assert MonthlyPayoff(balance, rate, payment, 0.0, 0.0) == PayoffResults(base.periods, base.interest, balance + base.interest);
  }

  /**
   * With valid inputs the base run never gets stuck: it ends with the card
   * paid off exactly, or at the 1000-month limit.
   */
  lemma {:induction false} ValidRunFinishes(balance: real, rate: real, payment: real, fuel: nat)
    requires balance >= 0.0 && rate >= 0.0 && payment > balance * rate
    ensures PayDown(balance, rate, payment, fuel).balance == 0.0 || PayDown(balance, rate, payment, fuel).periods == fuel
  {
    var r := PayDown(balance, rate, payment, fuel);
    PayDownExit(balance, rate, payment, fuel);
    PayDownBounds(balance, rate, payment, fuel);
    if r.balance > 0.0 {
      MulLe(r.balance, balance, rate);
      assert Principal(r.balance, rate, payment) > 0.0;
    }
  }

  // ---------------------------------------------------------------------------
  // Scenarios
  // ---------------------------------------------------------------------------

  /** A scenario's results beside the savings against the base run. */
  datatype ScenarioResults = ScenarioResults(monthsToPayoff: int, totalInterest: real, interestSaved: real, monthsSaved: int)

  function Compare(base: PayoffResults, scenario: PayoffResults): (s: ScenarioResults)
    ensures s.interestSaved + s.totalInterest == base.totalInterest
    ensures s.monthsSaved + s.monthsToPayoff == base.monthsToPayoff
  {
    ScenarioResults(scenario.monthsToPayoff, scenario.totalInterest,
                    base.totalInterest - scenario.totalInterest,
                    base.monthsToPayoff - scenario.monthsToPayoff)
  }

  datatype Inputs = Inputs(balance: real, annualRate: real, monthlyPayment: real, extraPayment: real, lumpSum: real)

  /** What the page shows: the errors, the base results and the scenarios. */
  datatype Page = Page(errors: map<string, Message>, base: PayoffResults, scenarios: map<string, ScenarioResults>)

  /** The three scenarios for valid inputs. */
  function Scenarios(i: Inputs): map<string, ScenarioResults>
  {
    var base := MonthlyPayoff(i.balance, i.annualRate, i.monthlyPayment, 0.0, 0.0);
    map["extra" := Compare(base, MonthlyPayoff(i.balance, i.annualRate, i.monthlyPayment, i.extraPayment, 0.0)),
        "lump" := Compare(base, MonthlyPayoff(i.balance, i.annualRate, i.monthlyPayment, 0.0, i.lumpSum)),
        "biweekly" := Compare(base, BiWeeklyPayoff(i.balance, i.annualRate, i.monthlyPayment / 2.0))]
  }

  /**
   * updateCalculations: the errors are always replaced; when validation fails
   * nothing else changes, otherwise the base run and all three scenarios are
   * recomputed.
   */
  method UpdateCalculations(i: Inputs, current: Page) returns (next: Page)
    ensures next.errors == ValidateInputs(i.balance, i.annualRate, i.monthlyPayment)
    ensures !Valid(i.balance, i.annualRate, i.monthlyPayment)
        ==> next.base == current.base && next.scenarios == current.scenarios
    ensures Valid(i.balance, i.annualRate, i.monthlyPayment) ==>
              next.base == MonthlyPayoff(i.balance, i.annualRate, i.monthlyPayment, 0.0, 0.0)
              && next.scenarios == Scenarios(i)
    ensures Valid(i.balance, i.annualRate, i.monthlyPayment) && i.extraPayment >= 0.0
        ==> next.scenarios["extra"].interestSaved >= 0.0 && next.scenarios["extra"].monthsSaved >= 0
    ensures Valid(i.balance, i.annualRate, i.monthlyPayment) && i.lumpSum >= 0.0
        ==> next.scenarios["lump"].interestSaved >= 0.0 && next.scenarios["lump"].monthsSaved >= 0
  {
    var errors := ValidateInputs(i.balance, i.annualRate, i.monthlyPayment);
    if errors != map[] {
      return current.(errors := errors);
    }
    var base := CalculatePayoff(i.balance, i.annualRate, i.monthlyPayment, 0.0, 0.0);
    var extraResults := CalculatePayoff(i.balance, i.annualRate, i.monthlyPayment, i.extraPayment, 0.0);
    var lumpResults := CalculatePayoff(i.balance, i.annualRate, i.monthlyPayment, 0.0, i.lumpSum);
    var biWeeklyResults := CalculateBiWeeklyPayoff(i.balance, i.annualRate, i.monthlyPayment / 2.0);
    var scenarios := map["extra" := Compare(base, extraResults),
                         "lump" := Compare(base, lumpResults),
                         "biweekly" := Compare(base, biWeeklyResults)];
    if i.extraPayment >= 0.0 {
      ExtraPaymentSaves(i.balance, i.annualRate, i.monthlyPayment, i.extraPayment);
    }
    if i.lumpSum >= 0.0 {
      LumpSumSaves(i.balance, i.annualRate, i.monthlyPayment, i.lumpSum);
    }
    next := Page(errors, base, scenarios);
  }

  // ---------------------------------------------------------------------------
  // Duration text
  // ---------------------------------------------------------------------------

  predicate IsDigit(c: char)
  {
    '0' <= c <= '9'
  }

  predicate AllDigits(s: string)
  {
    forall i :: 0 <= i < |s| ==> IsDigit(s[i])
  }

  /** The decimal numeral of a whole number, as template-literal interpolation writes it. */
  function NatToString(n: nat): (s: string)
    ensures s != [] && AllDigits(s)
  {
    var last := ['0' + (n % 10) as char];
    if n < 10 then last else NatToString(n / 10) + last
  }

  /** The number a string of decimal digits stands for. */
  function DigitsValue(s: string): nat
    requires AllDigits(s)
  {
    if s == [] then 0 else DigitsValue(s[..|s| - 1]) * 10 + (s[|s| - 1] - '0') as nat
  }

  /** Reading a numeral back gives the number. */
  lemma {:induction false} NatToStringRoundTrip(n: nat)
    ensures DigitsValue(NatToString(n)) == n
  {
    var s := NatToString(n);
    if n >= 10 {
      NatToStringRoundTrip(n / 10);
      assert s[..|s| - 1] == NatToString(n / 10);
    }
  }

  /** The length of the run of digits at the start of `s`. */
  function LeadingDigits(s: string): (k: nat)
    ensures k <= |s| && AllDigits(s[..k])
  {
    if s == [] || !IsDigit(s[0]) then 0
    else
      var k := 1 + LeadingDigits(s[1..]);
      assert s[..k] == [s[0]] + s[1..][..k - 1];
      k
  }

  /** A run of digits followed by a non-digit is read up to that non-digit. */
  lemma {:induction false} LeadingDigitsOf(d: string, t: string)
    requires AllDigits(d) && (t == [] || !IsDigit(t[0]))
    ensures LeadingDigits(d + t) == |d|
  {
    if d != [] {
      assert (d + t)[1..] == d[1..] + t;
      LeadingDigitsOf(d[1..], t);
    }
  }

  /** The number written at the start of `s`, and what follows it. */
  function ReadNumber(s: string): (nat, string)
  {
    var k := LeadingDigits(s);
    (DigitsValue(s[..k]), s[k..])
  }

  /** A numeral followed by a non-digit reads back as its number. */
  lemma ReadNumberOf(n: nat, t: string)
    requires t == [] || !IsDigit(t[0])
    ensures ReadNumber(NatToString(n) + t) == (n, t)
  {
    var d := NatToString(n);
    LeadingDigitsOf(d, t);
    assert (d + t)[..|d|] == d && (d + t)[|d|..] == t;
    NatToStringRoundTrip(n);
  }

  function Plural(k: nat): string
  {
    if k > 1 then "s" else ""
  }

  /** "<k> month" or "<k> months". */
  function MonthsText(k: nat): string
  {
    NatToString(k) + " month" + Plural(k)
  }

  /** What follows the years: "and <k> month(s)", or nothing for a whole number of years. */
  function RemainderText(k: nat): string
  {
    if k > 0 then "and " + MonthsText(k) else ""
  }

  /**
   * formatMonths: whole years and the months left over, or just the months
   * under a year. The text ends in "month" or "months" under a year, in a
   * space after a whole number of years, and otherwise in the leftover
   * months' unit.
   */
  function FormatMonths(months: nat): (text: string)
    ensures |text| > 0
    ensures months < 12 ==> text[|text| - 1] == if months > 1 then 's' else 'h'
    ensures months >= 12 && months % 12 == 0 ==> text[|text| - 1] == ' '
    ensures months >= 12 && months % 12 > 0 ==> text[|text| - 1] == if months % 12 > 1 then 's' else 'h'
  {
    var years := months / 12;
    var remainingMonths := months % 12;
    if years > 0 then NatToString(years) + " year" + Plural(years) + " " + RemainderText(remainingMonths)
    else MonthsText(months)
  }

  /** Skips the plural "s" of a unit, if there is one. */
  function DropPlural(s: string): string
  {
    if |s| > 0 && s[0] == 's' then s[1..] else s
  }

  /** The leftover months after the years, if the text gives any. */
  function ReadRemainder(s: string): nat
  {
    if |s| >= 5 && s[..5] == " and " then ReadNumber(s[5..]).0 else 0
  }

  /** Reads a duration back from its text: the inverse of FormatMonths. */
  function ReadMonths(text: string): nat
  {
    var (n, rest) := ReadNumber(text);
    if |rest| >= 5 && rest[..5] == " year" then n * 12 + ReadRemainder(DropPlural(rest[5..])) else n
  }

  /** The number at the start of a months text is its count. */
  lemma ReadMonthsText(k: nat)
    ensures ReadNumber(MonthsText(k)) == (k, " month" + Plural(k))
  {
    assert MonthsText(k) == NatToString(k) + (" month" + Plural(k));
    ReadNumberOf(k, " month" + Plural(k));
  }

  lemma ReadRemainderOf(k: nat)
    ensures ReadRemainder(" " + RemainderText(k)) == k
  {
    if k > 0 {
      var s := " " + RemainderText(k);
      assert s == " and " + MonthsText(k);
      assert s[..5] == " and " && s[5..] == MonthsText(k);
      ReadMonthsText(k);
    } else {
      assert " " + RemainderText(k) == " ";
    }
  }

  /** A duration under a year reads back from its text. */
  lemma ReadMonthsUnderYear(k: nat)
    ensures ReadMonths(MonthsText(k)) == k
  {
    ReadMonthsText(k);
    var rest := " month" + Plural(k);
    assert rest[1] == 'm';
  }

  /** A duration of a year or more reads back from its text. */
  lemma ReadMonthsYears(years: nat, k: nat)
    requires years > 0
    ensures ReadMonths(NatToString(years) + " year" + Plural(years) + " " + RemainderText(k)) == years * 12 + k
  {
    var tail := Plural(years) + " " + RemainderText(k);
    var rest := " year" + tail;
    assert NatToString(years) + " year" + Plural(years) + " " + RemainderText(k) == NatToString(years) + rest;
    ReadNumberOf(years, rest);
    assert rest[..5] == " year" && rest[5..] == tail;
    DropPluralOf(years, RemainderText(k));
    ReadRemainderOf(k);
  }

  lemma DropPluralOf(k: nat, t: string)
    ensures DropPlural(Plural(k) + " " + t) == " " + t
  {
    if k > 1 {
      assert (Plural(k) + " " + t)[1..] == " " + t;
    } else {
      assert Plural(k) + " " + t == " " + t;
    }
  }

  /** Formatting loses nothing: the text of a duration reads back as that duration. */
  lemma FormatMonthsRoundTrip(months: nat)
    ensures ReadMonths(FormatMonths(months)) == months
  {
    if months >= 12 {
      ReadMonthsYears(months / 12, months % 12);
    } else {
      ReadMonthsUnderYear(months);
    }
  }
}
