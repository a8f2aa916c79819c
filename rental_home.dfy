/**
 * The rental property page: the mortgage on the purchase, the year's rent
 * less vacancy, the operating expenses, and the cash flow and cash-on-cash
 * return that remain; plus the scenario buttons that change one input each.
 */
module RentalHome {
  import opened Numerics

  /** The page's inputs; rates and percentages are in percent, rent and fees per month, tax and insurance per year. */
  datatype Form = Form(
    purchasePrice: real,
    downPayment: real,
    loanTerm: int,
    interestRate: real,
    monthlyRent: real,
    otherIncome: real,
    propertyTax: real,
    insurance: real,
    maintenance: real,
    propertyManagement: real,
    vacancyRate: real,
    hoaFees: real,
    otherExpenses: real)

  datatype RentalResults = RentalResults(
    loanAmount: real,
    monthlyMortgage: real,
    annualGrossIncome: real,
    annualNetIncome: real,
    totalOperatingExpenses: real,
    netOperatingIncome: real,
    annualCashFlow: real,
    monthlyCashFlow: real,
    cashOnCashReturn: real)

  /**
   * The inputs for which calculateRental yields finite numbers: the mortgage formula
   * needs a whole number of years and divides by (1 + r)^n - 1, which has no
   * zero-rate branch to fall back on, and the cash-on-cash return divides by
   * the down payment.
   */
  predicate Computable(f: Form)
  {
    f.loanTerm >= 1 && f.downPayment != 0.0 && Pow(1.0 + MonthlyRate(f), Payments(f)) != 1.0
  }

  function MonthlyRate(f: Form): real
  {
    f.interestRate / 100.0 / 12.0
  }

  function Payments(f: Form): nat
    requires f.loanTerm >= 1
  {
    f.loanTerm * 12
  }

  /**
   * With a whole number of years the payment count is even, so (1 + r)^n is 1
   * exactly when 1 + r is 1 or -1: the results are finite at every rate but
   * 0% and -2400%, negative rates included.
   */
  lemma ComputableRates(f: Form)
    ensures Computable(f)
        <==> f.loanTerm >= 1 && f.downPayment != 0.0 && f.interestRate != 0.0 && f.interestRate != -2400.0
  {
    if f.loanTerm >= 1 {
      GrowthFactorAt(f.interestRate, f.loanTerm);
    }
  }

  /**
   * calculateRental: the loan is the price less the down payment and the
   * monthly mortgage is the level payment that leaves nothing owing on it
   * after the last month; at a positive rate it is more than the first
   * month's interest.
   */
  function CalculateRental(f: Form): (r: RentalResults)
    requires Computable(f)
    ensures r.loanAmount == f.purchasePrice - f.downPayment
    ensures BalanceAfter(r.loanAmount, MonthlyRate(f), r.monthlyMortgage, Payments(f)) == 0.0
    ensures f.interestRate > 0.0 && r.loanAmount > 0.0 ==> r.monthlyMortgage > r.loanAmount * MonthlyRate(f)
  {
    var loanAmount := f.purchasePrice - f.downPayment;
    AnnuityRetiresLoan(loanAmount, MonthlyRate(f), Payments(f));
    var monthlyMortgage := AnnuityPayment(loanAmount, MonthlyRate(f), Payments(f));

    var annualGrossIncome := f.monthlyRent * 12.0;
    var annualOtherIncome := f.otherIncome * 12.0;
    var annualTotalIncome := annualGrossIncome + annualOtherIncome;
    var annualVacancyLoss := annualGrossIncome * (f.vacancyRate / 100.0);
    var annualNetIncome := annualTotalIncome - annualVacancyLoss;

    var annualMaintenance := annualGrossIncome * (f.maintenance / 100.0);
    var annualPropertyManagement := annualGrossIncome * (f.propertyManagement / 100.0);
    var annualHoaFees := f.hoaFees * 12.0;
    var annualOtherExpenses := f.otherExpenses * 12.0;
    var totalOperatingExpenses := f.propertyTax + f.insurance + annualMaintenance
                                  + annualPropertyManagement + annualHoaFees + annualOtherExpenses;

    var netOperatingIncome := annualNetIncome - totalOperatingExpenses;
    var annualMortgagePayment := monthlyMortgage * 12.0;
    var annualCashFlow := netOperatingIncome - annualMortgagePayment;
    RentalResults(loanAmount, monthlyMortgage, annualGrossIncome, annualNetIncome, totalOperatingExpenses,
                  netOperatingIncome, annualCashFlow, annualCashFlow / 12.0, annualCashFlow / f.downPayment * 100.0)
  }

  /**
   * Vacancy is lost on the rent only, never on the other income; expenses
   * are the fixed yearly costs plus the maintenance and management shares
   * of the rent and twelve months of fees.
   */
  lemma IncomeAndExpenses(f: Form)
    requires Computable(f)
    ensures var r := CalculateRental(f);
      && r.annualGrossIncome == 12.0 * f.monthlyRent
      && r.annualNetIncome == 12.0 * f.monthlyRent * (1.0 - f.vacancyRate / 100.0) + 12.0 * f.otherIncome
      && r.totalOperatingExpenses
         == f.propertyTax + f.insurance + 12.0 * (f.hoaFees + f.otherExpenses)
            + 12.0 * f.monthlyRent * ((f.maintenance + f.propertyManagement) / 100.0)
  {
  }

  /**
   * What is left each month: net operating income less the mortgage, per
   * month; the cash-on-cash return is the year's cash flow as a percentage
   * of the down payment, so with a positive down payment it has the cash
   * flow's sign.
   */
  lemma CashFlowBreakdown(f: Form)
    requires Computable(f)
    ensures var r := CalculateRental(f);
      && r.netOperatingIncome == r.annualNetIncome - r.totalOperatingExpenses
      && r.monthlyCashFlow == r.netOperatingIncome / 12.0 - r.monthlyMortgage
      && r.annualCashFlow == 12.0 * r.monthlyCashFlow
      && r.cashOnCashReturn * f.downPayment == 100.0 * r.annualCashFlow
      && (f.downPayment > 0.0 ==> (r.cashOnCashReturn > 0.0 <==> r.annualCashFlow > 0.0))
  {
    var r := CalculateRental(f);
    if f.downPayment > 0.0 {
      SignOfProduct(r.annualCashFlow / f.downPayment, f.downPayment);
    }
  }

  /** The share of each rent dollar that reaches the cash flow: what vacancy, maintenance and management leave. */
  function RentRetained(f: Form): real
  {
    1.0 - (f.vacancyRate + f.maintenance + f.propertyManagement) / 100.0
  }

  /** Raising the rent by d changes the monthly cash flow by d times the retained share, and touches nothing else. */
  lemma RentRaisesCashFlow(f: Form, d: real)
    requires Computable(f)
    ensures var g := f.(monthlyRent := f.monthlyRent + d);
      CalculateRental(g).monthlyCashFlow == CalculateRental(f).monthlyCashFlow + d * RentRetained(f)
  {
    IncomeAndExpenses(f);
    IncomeAndExpenses(f.(monthlyRent := f.monthlyRent + d));
    CashFlowBreakdown(f);
    CashFlowBreakdown(f.(monthlyRent := f.monthlyRent + d));
  }

  // ------------------------------------------------------------------
  // Scenario buttons

  /** tryScenario: each button replaces one input; any other tag changes nothing. */
  function TryScenario(f: Form, scenarioType: string): (g: Form)
    ensures scenarioType == "rentIncrease" ==> g == f.(monthlyRent := f.monthlyRent + 100.0)
    ensures scenarioType == "lowerRate" ==> g == f.(interestRate := f.interestRate - 0.5)
    ensures scenarioType == "moreDown" ==> g == f.(downPayment := f.purchasePrice * 0.3)
    ensures scenarioType == "higherVacancy" ==> g == f.(vacancyRate := 10.0)
    ensures scenarioType !in {"rentIncrease", "lowerRate", "moreDown", "higherVacancy"} ==> g == f
  {
    match scenarioType
    case "rentIncrease" => f.(monthlyRent := f.monthlyRent + 100.0)
    case "lowerRate" => f.(interestRate := f.interestRate - 0.5)
    case "moreDown" => f.(downPayment := f.purchasePrice * 0.3)
    case "higherVacancy" => f.(vacancyRate := 10.0)
    case _ => f
  }

  /** The rent button adds 100 times the retained share to the monthly cash flow. */
  lemma RentIncreaseScenario(f: Form)
    requires Computable(f)
    ensures Computable(TryScenario(f, "rentIncrease"))
    ensures CalculateRental(TryScenario(f, "rentIncrease")).monthlyCashFlow
         == CalculateRental(f).monthlyCashFlow + 100.0 * RentRetained(f)
  {
    RentRaisesCashFlow(f, 100.0);
  }

  /** The down payment button finances 70% of the price; the results stay defined when the price is not zero. */
  lemma MoreDownScenario(f: Form)
    requires Computable(f) && f.purchasePrice != 0.0
    ensures Computable(TryScenario(f, "moreDown"))
    ensures CalculateRental(TryScenario(f, "moreDown")).loanAmount == 0.7 * f.purchasePrice
  {
  }

  /**
   * The lower-rate button keeps the results defined unless it lands the
   * rate on 0% (from 0.5%) or on -2400% (from -2399.5%); below 0.5% the
   * rate goes negative and the formula still yields numbers.
   */
  lemma LowerRateScenario(f: Form)
    requires Computable(f)
    ensures Computable(TryScenario(f, "lowerRate")) <==> f.interestRate != 0.5 && f.interestRate != -2399.5
  {
    ComputableRates(f);
    ComputableRates(TryScenario(f, "lowerRate"));
  }
}
