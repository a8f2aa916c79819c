/**
 * The mortgage page: FHA and VA adjustments of the price and down payment,
 * the level principal-and-interest payment, FHA mortgage insurance, the
 * monthly tax and insurance figures, the amortization table, the scenario
 * buttons and the derived totals.
 */
module Mortgage {
  import opened Numerics

  datatype Option<T> = None | Some(value: T)

  /** The form state the calculation reads and the scenario buttons change. */
  datatype Form = Form(
    homePrice: real,
    downPayment: real,
    interestRate: real,
    loanTerm: int,
    propertyTaxRate: real,
    homeInsuranceRate: real,
    monthlyPropertyTax: real,
    monthlyInsurance: real,
    isFHA: bool,
    isVA: bool)

  datatype MortgageResult = MortgageResult(
    monthlyPayment: real,
    totalInterest: real,
    totalPayment: real,
    principal: real,
    interest: real,
    propertyTax: real,
    homeInsurance: real)

  /** One row of the amortization table. */
  datatype Row = Row(
    paymentNumber: nat,
    beginningBalance: real,
    monthlyPayment: real,
    principalPayment: real,
    interestPayment: real,
    endingBalance: real)

  /** Everything calculateMortgage sets: the two tax and insurance fields, the results and the table. */
  datatype Calculation = Calculation(form: Form, results: MortgageResult, schedule: seq<Row>)

  /** The 2024 conforming loan limit above which a loan is jumbo. */
  const ConformingLimit: real := 766550.0

  // ------------------------------------------------------------------
  // The loan after the FHA and VA adjustments, in closed form

  /**
   * The inputs the formulas are defined for: a whole term; a rate at which
   * (1 + r)^n is neither 1, which would leave 1 - (1 + r)^-n at zero, nor 0,
   * which has no inverse; and, for FHA, a price to divide by.
   */
  predicate Computable(f: Form)
  {
    && f.loanTerm >= 1 && (f.isFHA ==> f.homePrice != 0.0)
    && Pow(1.0 + MonthlyRate(f), Payments(f)) != 0.0 && Pow(1.0 + MonthlyRate(f), Payments(f)) != 1.0
  }

  /** A whole term makes the payment count even, so the formulas have a value at every rate but 0%, -1200% and -2400% a year. */
  lemma ComputableRates(f: Form)
    ensures Computable(f)
        <==> && f.loanTerm >= 1 && (f.isFHA ==> f.homePrice != 0.0)
             && f.interestRate != 0.0 && f.interestRate != -1200.0 && f.interestRate != -2400.0
  {
    if f.loanTerm >= 1 {
      GrowthFactorAt(f.interestRate, f.loanTerm);
    }
  }

  function MonthlyRate(f: Form): real
  {
    f.interestRate / 100.0 / 12.0
  }

  function Payments(f: Form): nat
    requires f.loanTerm >= 1
  {
    f.loanTerm * 12
  }

  /** The down payment FHA asks for: at least 3.5% of the price. */
  function FhaDown(f: Form): real
  {
    Max(f.downPayment, f.homePrice * 0.035)
  }

  /** The price the loan is taken on: VA rolls its 2.3% funding fee into it. */
  function AdjustedPrice(f: Form): real
  {
    if f.isVA then f.homePrice + f.homePrice * 0.023 else f.homePrice
  }

  /** The down payment after the adjustments: VA, applied last, sets it to zero. */
  function AdjustedDown(f: Form): real
  {
    if f.isVA then 0.0 else if f.isFHA then FhaDown(f) else f.downPayment
  }

  /** FHA mortgage insurance: 0.85% a year of the loan when it exceeds 90% of the price. */
  function Mip(f: Form): real
    requires f.isFHA ==> f.homePrice != 0.0
  {
    if f.isFHA && (f.homePrice - FhaDown(f)) / f.homePrice > 0.9
    then (f.homePrice - FhaDown(f)) * 0.0085 / 12.0
    else 0.0
  }

  function LoanPrincipal(f: Form): real
  {
    AdjustedPrice(f) - AdjustedDown(f)
  }

  /** The level payment, as Math.pow(1 + r, -n) writes it. */
  function PaymentWithNegativePower(principal: real, r: real, n: nat): (m: real)
    requires n > 0 && Pow(1.0 + r, n) != 0.0 && Pow(1.0 + r, n) != 1.0
  {
    var x := Pow(1.0 + r, n);
    assert 1.0 - 1.0 / x == (x - 1.0) / x;
    principal * r / (1.0 - 1.0 / x)
  }

  /** The negative-power form of the payment is the annuity payment. */
  lemma NegativePowerIsAnnuity(principal: real, r: real, n: nat)
    requires n > 0 && Pow(1.0 + r, n) != 0.0 && Pow(1.0 + r, n) != 1.0
    ensures PaymentWithNegativePower(principal, r, n) == AnnuityPayment(principal, r, n)
  {
    var x := Pow(1.0 + r, n);
    assert 1.0 - 1.0 / x == (x - 1.0) / x;
    assert principal * r / ((x - 1.0) / x) == principal * (r * x) / (x - 1.0);
  }

  /** The monthly tax or insurance shown: a figure already entered, otherwise the one computed from the yearly rate. */
  function Monthly(entered: real, annualRatePercent: real, homePrice: real): real
  {
    if entered == 0.0 then homePrice * annualRatePercent / 100.0 / 12.0 else entered
  }

  /** One row of the table, for payment number i counted from 1. */
  function RowAt(principal: real, r: real, m: real, i: nat): Row
    requires i >= 1
  {
    var before := BalanceAfter(principal, r, m, i - 1);
    var interestPayment := before * r;
    var principalPayment := m - interestPayment;
    var after := before - principalPayment;
    Row(i, after + principalPayment, m, principalPayment, interestPayment, if after > 0.0 then after else 0.0)
  }

  /** The first n rows of the table. */
  function Schedule(principal: real, r: real, m: real, n: nat): (rows: seq<Row>)
    ensures |rows| == n
  {
    if n == 0 then [] else Schedule(principal, r, m, n - 1) + [RowAt(principal, r, m, n)]
  }

  /** What calculateMortgage produces, in closed form. */
  function Calculate(f: Form): Calculation
    requires Computable(f)
  {
    var principal := LoanPrincipal(f);
    var r := MonthlyRate(f);
    var n := Payments(f);
    var m := AnnuityPayment(principal, r, n);
    var tax := Monthly(f.monthlyPropertyTax, f.propertyTaxRate, f.homePrice);
    var insurance := Monthly(f.monthlyInsurance, f.homeInsuranceRate, f.homePrice);
    Calculation(
      f.(monthlyPropertyTax := tax, monthlyInsurance := insurance),
      MortgageResult(m + Mip(f), m * n as real - principal, m * n as real, principal, f.interestRate, tax, insurance),
      Schedule(principal, r, m, n))
  }

  // ------------------------------------------------------------------
  // The calculation as the page runs it

  /**
   * calculateMortgage: the price and down payment are copied and then
   * reassigned by the FHA branch and the VA branch in that order.
   */
  method CalculateMortgage(f: Form) returns (c: Calculation)
    requires Computable(f)
    ensures c == Calculate(f)
  {
    var adjustedHomePrice, adjustedDownPayment, monthlyPMI := AdjustForLoanType(f);

    var principal := adjustedHomePrice - adjustedDownPayment;
    var monthlyPayment, totalPayment, totalInterest := LevelPayment(principal, f.interestRate, f.loanTerm);
    var form, propertyTax, homeInsurance := MonthlyCosts(f);
    var results := MortgageResult(monthlyPayment + monthlyPMI, totalInterest, totalPayment, principal, f.interestRate,
                                  propertyTax, homeInsurance);

    var schedule := GenerateAmortizationSchedule(principal, f.interestRate, f.loanTerm, monthlyPayment);
    c := Calculation(form, results, schedule);
    CalculateIs(f, principal, monthlyPayment, monthlyPMI, form, propertyTax, homeInsurance, schedule);
  }

  /** The FHA branch and then the VA branch, reassigning the price, the down payment and the insurance. */
  method AdjustForLoanType(f: Form) returns (adjustedHomePrice: real, adjustedDownPayment: real, monthlyPMI: real)
    requires f.isFHA ==> f.homePrice != 0.0
    ensures adjustedHomePrice == AdjustedPrice(f)
    ensures adjustedDownPayment == AdjustedDown(f)
    ensures monthlyPMI == Mip(f)
  {
    adjustedHomePrice := f.homePrice;
    adjustedDownPayment := f.downPayment;
    monthlyPMI := 0.0;

    if f.isFHA {
      var minDownPayment := f.homePrice * 0.035;
      adjustedDownPayment := Max(f.downPayment, minDownPayment);
      var loanAmount := adjustedHomePrice - adjustedDownPayment;
      if loanAmount / adjustedHomePrice > 0.9 {
        monthlyPMI := loanAmount * 0.0085 / 12.0;
      }
    }

    if f.isVA {
      adjustedDownPayment := 0.0;
      var fundingFee := f.homePrice * 0.023;
      adjustedHomePrice := f.homePrice + fundingFee;
    }
  }

  /** The principal-and-interest payment, written with a negative power, and the totals over the term. */
  method LevelPayment(principal: real, interestRate: real, loanTerm: int)
    returns (monthlyPayment: real, totalPayment: real, totalInterest: real)
    requires loanTerm >= 1
    requires Pow(1.0 + interestRate / 100.0 / 12.0, loanTerm * 12) != 0.0
    requires Pow(1.0 + interestRate / 100.0 / 12.0, loanTerm * 12) != 1.0
    ensures monthlyPayment == AnnuityPayment(principal, interestRate / 100.0 / 12.0, loanTerm * 12)
    ensures totalPayment == monthlyPayment * (loanTerm * 12) as real
    ensures totalInterest == totalPayment - principal
  {
    var monthlyInterestRate := interestRate / 100.0 / 12.0;
    var numberOfPayments: nat := loanTerm * 12;
    monthlyPayment := PaymentWithNegativePower(principal, monthlyInterestRate, numberOfPayments);
    NegativePowerIsAnnuity(principal, monthlyInterestRate, numberOfPayments);
    totalPayment := monthlyPayment * numberOfPayments as real;
    totalInterest := totalPayment - principal;
  }

  /**
   * The monthly tax and insurance: a field still at 0 is filled in from the
   * yearly rate, and the results show the entered figure or else the computed one.
   */
  method MonthlyCosts(f: Form) returns (form: Form, propertyTax: real, homeInsurance: real)
    ensures propertyTax == Monthly(f.monthlyPropertyTax, f.propertyTaxRate, f.homePrice)
    ensures homeInsurance == Monthly(f.monthlyInsurance, f.homeInsuranceRate, f.homePrice)
    ensures form == f.(monthlyPropertyTax := propertyTax, monthlyInsurance := homeInsurance)
  {
    var annualPropertyTax := f.homePrice * f.propertyTaxRate / 100.0;
    var calculatedMonthlyPropertyTax := annualPropertyTax / 12.0;
    var annualHomeInsurance := f.homePrice * f.homeInsuranceRate / 100.0;
    var calculatedMonthlyHomeInsurance := annualHomeInsurance / 12.0;
    form := f;
    if f.monthlyPropertyTax == 0.0 {
      form := form.(monthlyPropertyTax := calculatedMonthlyPropertyTax);
    }
    if f.monthlyInsurance == 0.0 {
      form := form.(monthlyInsurance := calculatedMonthlyHomeInsurance);
    }
    propertyTax := if f.monthlyPropertyTax != 0.0 then f.monthlyPropertyTax else calculatedMonthlyPropertyTax;
    homeInsurance := if f.monthlyInsurance != 0.0 then f.monthlyInsurance else calculatedMonthlyHomeInsurance;
  }

  /** The closed form, given the pieces as the method computes them. */
  lemma CalculateIs(f: Form, principal: real, m: real, pmi: real, form: Form, tax: real, insurance: real, schedule: seq<Row>)
    requires Computable(f)
    requires principal == LoanPrincipal(f) && pmi == Mip(f)
    requires m == AnnuityPayment(principal, MonthlyRate(f), Payments(f))
    requires tax == Monthly(f.monthlyPropertyTax, f.propertyTaxRate, f.homePrice)
    requires insurance == Monthly(f.monthlyInsurance, f.homeInsuranceRate, f.homePrice)
    requires form == f.(monthlyPropertyTax := tax, monthlyInsurance := insurance)
    requires schedule == Schedule(principal, MonthlyRate(f), m, Payments(f))
    ensures var total := m * Payments(f) as real;
      Calculation(form, MortgageResult(m + pmi, total - principal, total, principal, f.interestRate, tax, insurance), schedule)
      == Calculate(f)
  {
  }

  /**
   * generateAmortizationSchedule: one row per payment; the running balance
   * falls by the principal part of each payment and is never clamped, only
   * the ending balance shown is.
   */
  method GenerateAmortizationSchedule(principal: real, interestRate: real, loanTerm: int, monthlyPayment: real)
    returns (schedule: seq<Row>)
    requires loanTerm >= 1
    ensures schedule == Schedule(principal, interestRate / 100.0 / 12.0, monthlyPayment, loanTerm * 12)
  {
    var balance := principal;
    schedule := [];
    var monthlyInterestRate := interestRate / 100.0 / 12.0;
    var numberOfPayments: nat := loanTerm * 12;

    var i: nat := 1;
    while i <= numberOfPayments
      invariant 1 <= i <= numberOfPayments + 1
      invariant balance == BalanceAfter(principal, monthlyInterestRate, monthlyPayment, i - 1)
      invariant schedule == Schedule(principal, monthlyInterestRate, monthlyPayment, i - 1)
    {
      var interestPayment := balance * monthlyInterestRate;
      var principalPayment := monthlyPayment - interestPayment;
      balance := balance - principalPayment;
      schedule := schedule + [Row(i, balance + principalPayment, monthlyPayment, principalPayment, interestPayment,
                                  if balance > 0.0 then balance else 0.0)];
      i := i + 1;
    }
  }

  // ------------------------------------------------------------------
  // What the calculation promises

  /** FHA alone: the down payment is raised to 3.5% of the price when it is lower, and never lowered. */
  lemma FhaRaisesDownPayment(f: Form)
    requires f.isFHA && !f.isVA
    ensures AdjustedDown(f) >= f.homePrice * 0.035 && AdjustedDown(f) >= f.downPayment
    ensures AdjustedDown(f) == f.downPayment || AdjustedDown(f) == f.homePrice * 0.035
    ensures AdjustedPrice(f) == f.homePrice
  {
  }

  /** Mortgage insurance is charged only on FHA loans above 90% of the price, and then it is positive. */
  lemma MipOnlyAboveNinetyPercent(f: Form)
    requires f.isFHA ==> f.homePrice > 0.0
    ensures Mip(f) != 0.0 ==> f.isFHA && f.homePrice - FhaDown(f) > 0.9 * f.homePrice
    ensures f.isFHA && f.homePrice - FhaDown(f) > 0.9 * f.homePrice ==> Mip(f) > 0.0
  {
    if f.isFHA {
      var loan := f.homePrice - FhaDown(f);
      var ltv := loan / f.homePrice;
      assert ltv * f.homePrice == loan;
      SignOfProduct(ltv - 0.9, f.homePrice);
      assert (ltv - 0.9) * f.homePrice == loan - 0.9 * f.homePrice;
    }
  }

  /** VA wins over FHA for the price and the down payment, but FHA insurance worked out first stays. */
  lemma VaAppliedAfterFha(f: Form)
    requires f.isVA && (f.isFHA ==> f.homePrice != 0.0)
    ensures AdjustedDown(f) == 0.0 && AdjustedPrice(f) == f.homePrice * 1.023
    ensures LoanPrincipal(f) == f.homePrice * 1.023
    ensures Mip(f) == Mip(f.(isVA := false))
  {
  }

  /** The payment shown includes the insurance; the totals are from principal and interest alone. */
  lemma TotalsExcludeInsurance(f: Form)
    requires Computable(f)
    ensures var res := Calculate(f).results;
      && res.monthlyPayment - Mip(f) == res.totalPayment / (f.loanTerm * 12) as real
      && res.totalInterest == res.totalPayment - res.principal
  {
  }

  /** At a positive rate the level payments repay at least the loan, so the total interest is not negative. */
  lemma InterestNonNegative(f: Form)
    requires Computable(f) && f.interestRate > 0.0 && LoanPrincipal(f) >= 0.0
    ensures Calculate(f).results.totalInterest >= 0.0
  {
    AnnuityCoversLoan(LoanPrincipal(f), MonthlyRate(f), Payments(f));
  }

  /** Row i of the table: its number, its interest on the running balance, and the payment split. */
  lemma {:induction false} ScheduleRow(principal: real, r: real, m: real, n: nat, k: nat)
    requires k < n
    ensures Schedule(principal, r, m, n)[k] == RowAt(principal, r, m, k + 1)
  {
    if k < n - 1 {
      ScheduleRow(principal, r, m, n - 1, k);
    }
  }

  /**
   * Row i: its number; its interest is the running balance times the rate
   * and interest plus principal is the payment; it begins at the balance the
   * previous payments left, and the ending balance shown is the new running
   * balance clamped at 0.
   */
  lemma RowAtFacts(principal: real, r: real, m: real, i: nat)
    requires i >= 1
    ensures var row := RowAt(principal, r, m, i);
      && row.paymentNumber == i
      && row.interestPayment == BalanceAfter(principal, r, m, i - 1) * r
      && row.interestPayment + row.principalPayment == m
      && row.beginningBalance == BalanceAfter(principal, r, m, i - 1)
      && row.endingBalance == Max(BalanceAfter(principal, r, m, i), 0.0)
  {
    var before := BalanceAfter(principal, r, m, i - 1);
    assert BalanceAfter(principal, r, m, i) == before - (m - before * r);
  }

  /** The table's rows are numbered 1..n, and the first one starts at the principal. */
  lemma ScheduleRows(principal: real, r: real, m: real, n: nat, k: nat)
    requires k < n
    ensures var row := Schedule(principal, r, m, n)[k];
      && row == RowAt(principal, r, m, k + 1)
      && row.paymentNumber == k + 1
      && (k == 0 ==> row.beginningBalance == principal)
  {
    ScheduleRow(principal, r, m, n, k);
    RowAtFacts(principal, r, m, k + 1);
  }

  /** Consecutive rows chain: each row begins at the balance the previous one left, before clamping. */
  lemma ScheduleChains(principal: real, r: real, m: real, n: nat, k: nat)
    requires 0 < k < n
    ensures var rows := Schedule(principal, r, m, n);
      rows[k].beginningBalance == rows[k - 1].beginningBalance - rows[k - 1].principalPayment
  {
    ScheduleRow(principal, r, m, n, k);
    ScheduleRow(principal, r, m, n, k - 1);
  }

  /** With the level payment the table ends with nothing owing. */
  lemma ScheduleEndsAtZero(f: Form)
    requires Computable(f)
    ensures var rows := Calculate(f).schedule;
      |rows| == f.loanTerm * 12 && rows[|rows| - 1].endingBalance == 0.0
  {
    var principal, r, n := LoanPrincipal(f), MonthlyRate(f), Payments(f);
    var m := AnnuityPayment(principal, r, n);
    AnnuityRetiresLoan(principal, r, n);
    ScheduleRow(principal, r, m, n, n - 1);
  }

  // ------------------------------------------------------------------
  // Scenario buttons and derived figures

  /** The scenario buttons' tags. */
  const ScenarioTags: set<string> := {"fha", "va", "biweekly", "15year", "20down"}

  /**
   * handleScenario: 'fha' and 'va' toggle their loan type and switch the
   * other off, 'biweekly' turns a 30-year term into 26 years and any other
   * term into 30 years, '15year' sets a 15-year term and '20down' a 20%
   * down payment; each tag changes only those fields, and any other tag
   * changes nothing.
   */
  function HandleScenario(f: Form, scenario: string): (g: Form)
    ensures scenario !in ScenarioTags ==> g == f
    ensures scenario == "fha" ==> g.isFHA == !f.isFHA && !g.isVA && g.(isFHA := f.isFHA, isVA := f.isVA) == f
    ensures scenario == "va" ==> g.isVA == !f.isVA && !g.isFHA && g.(isFHA := f.isFHA, isVA := f.isVA) == f
    ensures scenario == "biweekly" ==>
              && (f.loanTerm == 30 ==> g.loanTerm == 26)
              && (f.loanTerm != 30 ==> g.loanTerm == 30)
              && g.(loanTerm := f.loanTerm) == f
    ensures scenario == "15year" ==> g.loanTerm == 15 && g.(loanTerm := f.loanTerm) == f
    ensures scenario == "20down" ==> g.downPayment == 0.2 * f.homePrice && g.(downPayment := f.downPayment) == f
  {
    match scenario
    case "fha" => f.(isFHA := !f.isFHA, isVA := false)
    case "va" => f.(isVA := !f.isVA, isFHA := false)
    case "biweekly" => f.(loanTerm := if f.loanTerm == 30 then 26 else 30)
    case "15year" => f.(loanTerm := 15)
    case "20down" => f.(downPayment := f.homePrice * 0.2)
    case _ => f
  }

  /** Pressing 'biweekly' twice gives back a 26- or 30-year term. */
  lemma BiweeklyTwice(f: Form)
    requires f.loanTerm == 26 || f.loanTerm == 30
    ensures HandleScenario(HandleScenario(f, "biweekly"), "biweekly") == f
  {
  }

  /** isJumboLoan: the loan before any FHA or VA adjustment is over the conforming limit. */
  predicate IsJumboLoan(f: Form): (jumbo: bool)
    ensures jumbo <==> LoanPrincipal(f.(isFHA := false, isVA := false)) > ConformingLimit
  {
    f.homePrice - f.downPayment > ConformingLimit
  }

  /** Jumbo status is read from the form's price and down payment, whatever the FHA and VA adjustments do to the loan. */
  lemma JumboIgnoresLoanType(f: Form, fha: bool, va: bool)
    ensures IsJumboLoan(f.(isFHA := fha, isVA := va)) == IsJumboLoan(f)
  {
  }

  /** totalMonthlyPayment: everything paid each month, or 0 before the first result. */
  function TotalMonthlyPayment(results: Option<MortgageResult>, hoaFees: real, pmiAmount: real, otherCharges: real)
    : (total: real)
    ensures results.None? ==> total == 0.0
    ensures results.Some? ==>
              total - results.value.monthlyPayment
              == results.value.propertyTax + results.value.homeInsurance + hoaFees + pmiAmount + otherCharges
  {
    match results
    case None => 0.0
    case Some(res) => res.monthlyPayment + res.propertyTax + res.homeInsurance + hoaFees + pmiAmount + otherCharges
  }
}
