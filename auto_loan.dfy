/**
 * The auto loan comparison page: two loan options, each validated under its
 * own key prefix and priced with the level-payment formula (or an even split
 * at a zero rate), and the comparison of what the two cost in total.
 */
module AutoLoan {
  import opened Numerics

  datatype LoanOption = LoanOption(vehiclePrice: real, downPayment: real, interestRate: real, loanTerm: int)

  datatype LoanResults = LoanResults(loanAmount: real, monthlyPayment: real, totalInterest: real, totalPayment: real)

  datatype Message =
    | PriceNotPositive
    | DownPaymentNegative
    | DownPaymentExceedsPrice
    | RateNegative
    | TermNotPositive

  /** The options the page accepts. */
  predicate Valid(o: LoanOption)
  {
    o.vehiclePrice > 0.0 && 0.0 <= o.downPayment <= o.vehiclePrice && o.interestRate >= 0.0 && o.loanTerm > 0
  }

  // ------------------------------------------------------------------
  // Validation

  /**
   * validateInputs: one entry per failed check under the option's prefix;
   * the down-payment-exceeds-price check runs second and overwrites the
   * negative-down-payment entry.
   */
  function ValidateInputs(o: LoanOption, prefix: string): (errors: map<string, Message>)
    ensures errors.Keys <= {prefix + "VehiclePrice", prefix + "DownPayment", prefix + "InterestRate", prefix + "LoanTerm"}
    ensures prefix + "VehiclePrice" in errors <==> o.vehiclePrice <= 0.0
    ensures prefix + "DownPayment" in errors <==> o.downPayment < 0.0 || o.downPayment > o.vehiclePrice
    ensures prefix + "InterestRate" in errors <==> o.interestRate < 0.0
    ensures prefix + "LoanTerm" in errors <==> o.loanTerm <= 0
    ensures prefix + "DownPayment" in errors ==>
              errors[prefix + "DownPayment"]
              == (if o.downPayment > o.vehiclePrice then DownPaymentExceedsPrice else DownPaymentNegative)
    ensures errors == map[] <==> Valid(o)
  {
    KeysDistinct(prefix);
    var e0: map<string, Message> := map[];
    var e1 := if o.vehiclePrice <= 0.0 then e0[prefix + "VehiclePrice" := PriceNotPositive] else e0;
    var e2 := if o.downPayment < 0.0 then e1[prefix + "DownPayment" := DownPaymentNegative] else e1;
    var e3 := if o.downPayment > o.vehiclePrice then e2[prefix + "DownPayment" := DownPaymentExceedsPrice] else e2;
    var e4 := if o.interestRate < 0.0 then e3[prefix + "InterestRate" := RateNegative] else e3;
    var e5 := if o.loanTerm <= 0 then e4[prefix + "LoanTerm" := TermNotPositive] else e4;
    assert e5 == map[] ==> (prefix + "VehiclePrice" !in e5 && prefix + "DownPayment" !in e5
                            && prefix + "InterestRate" !in e5 && prefix + "LoanTerm" !in e5);
    e5
  }

  /** The four field names differ, so under one prefix the four keys do too. */
  lemma KeysDistinct(prefix: string)
    ensures prefix + "VehiclePrice" != prefix + "DownPayment" && prefix + "VehiclePrice" != prefix + "InterestRate"
    ensures prefix + "VehiclePrice" != prefix + "LoanTerm" && prefix + "DownPayment" != prefix + "InterestRate"
    ensures prefix + "DownPayment" != prefix + "LoanTerm" && prefix + "InterestRate" != prefix + "LoanTerm"
  {
    var p := |prefix|;
    assert (prefix + "VehiclePrice")[p] == 'V' && (prefix + "DownPayment")[p] == 'D';
    assert (prefix + "InterestRate")[p] == 'I' && (prefix + "LoanTerm")[p] == 'L';
  }

  /** Keys under "option1" and under "option2" never collide: they differ at the prefix's last character. */
  lemma PrefixesSeparate(o1: LoanOption, o2: LoanOption)
    ensures ValidateInputs(o1, "option1").Keys !! ValidateInputs(o2, "option2").Keys
  {
    forall k1, k2 | k1 in ValidateInputs(o1, "option1") && k2 in ValidateInputs(o2, "option2")
      ensures k1 != k2
    {
      assert k1[6] == '1' && k2[6] == '2';
    }
  }

  // ------------------------------------------------------------------
  // The loan

  function MonthlyRate(o: LoanOption): real
  {
    o.interestRate / 100.0 / 12.0
  }

  function Payments(o: LoanOption): nat
    requires o.loanTerm > 0
  {
    o.loanTerm * 12
  }

  /** At a zero rate the balance falls by the payment every month. */
  lemma {:induction false} BalanceAtZeroRate(loan: real, m: real, k: nat)
    ensures BalanceAfter(loan, 0.0, m, k) == loan - k as real * m
  {
    if k > 0 {
      BalanceAtZeroRate(loan, m, k - 1);
    }
  }

  /**
   * calculateLoan: at a zero rate the loan is split evenly over the
   * payments; otherwise the level payment of the annuity formula. Either
   * way the payment leaves exactly nothing owing after the last month.
   */
  function CalculateLoan(o: LoanOption): (r: LoanResults)
    requires o.interestRate >= 0.0 && o.loanTerm > 0
    ensures r.loanAmount == o.vehiclePrice - o.downPayment
    ensures BalanceAfter(r.loanAmount, MonthlyRate(o), r.monthlyPayment, Payments(o)) == 0.0
  {
    var loanAmount := o.vehiclePrice - o.downPayment;
    var monthlyRate := MonthlyRate(o);
    var numPayments := Payments(o);
    var monthlyPayment :=
      if o.interestRate == 0.0 then
        (BalanceAtZeroRate(loanAmount, loanAmount / numPayments as real, numPayments);
         loanAmount / numPayments as real)
      else
        (AnnuityRetiresLoan(loanAmount, monthlyRate, numPayments);
         AnnuityPayment(loanAmount, monthlyRate, numPayments));
    var totalPayment := monthlyPayment * numPayments as real;
    LoanResults(loanAmount, monthlyPayment, totalPayment - loanAmount, totalPayment)
  }

  /**
   * The loan is price minus down payment and the total is the payment over
   * all months; a zero rate costs no interest, and a positive rate on a
   * positive loan costs some but never less than nothing.
   */
  lemma LoanTotals(o: LoanOption)
    requires o.interestRate >= 0.0 && o.loanTerm > 0
    ensures var r := CalculateLoan(o);
      && r.loanAmount == o.vehiclePrice - o.downPayment
      && r.totalPayment == r.monthlyPayment * (o.loanTerm * 12) as real
      && r.totalInterest == r.totalPayment - r.loanAmount
      && (o.interestRate == 0.0 ==> r.totalInterest == 0.0)
      && (o.interestRate > 0.0 && r.loanAmount >= 0.0 ==> r.totalInterest >= 0.0)
      && (o.interestRate > 0.0 && r.loanAmount > 0.0 ==> r.monthlyPayment > r.loanAmount * MonthlyRate(o))
  {
    var loan, n := o.vehiclePrice - o.downPayment, Payments(o);
    if o.interestRate > 0.0 && loan >= 0.0 {
      AnnuityCoversLoan(loan, MonthlyRate(o), n);
    }
  }

  // ------------------------------------------------------------------
  // The page

  datatype Page = Page(errors: map<string, Message>, results1: LoanResults, results2: LoanResults)

  /** The two error maps together; the second wins on a shared key, which never occurs. */
  function MergeErrors(errors1: map<string, Message>, errors2: map<string, Message>): (all: map<string, Message>)
    ensures all.Keys == errors1.Keys + errors2.Keys
    ensures forall k :: k in errors2 ==> all[k] == errors2[k]
    ensures forall k :: k in errors1 && k !in errors2 ==> all[k] == errors1[k]
  {
    errors1 + errors2
  }

  /**
   * updateCalculations: the errors of both options are shown together, and
   * both results are recomputed only when neither option has an error.
   */
  function UpdateCalculations(option1: LoanOption, option2: LoanOption, current: Page): (next: Page)
    ensures next.errors == MergeErrors(ValidateInputs(option1, "option1"), ValidateInputs(option2, "option2"))
    ensures !(Valid(option1) && Valid(option2)) ==> next.results1 == current.results1 && next.results2 == current.results2
    ensures Valid(option1) && Valid(option2) ==>
              next.results1 == CalculateLoan(option1) && next.results2 == CalculateLoan(option2)
  {
    var errors1 := ValidateInputs(option1, "option1");
    var errors2 := ValidateInputs(option2, "option2");
    var allErrors := MergeErrors(errors1, errors2);
    if |allErrors.Keys| == 0 then
      Page(allErrors, CalculateLoan(option1), CalculateLoan(option2))
    else
      Page(allErrors, current.results1, current.results2)
  }

  /** Every error shown belongs to exactly one option, with that option's own message. */
  lemma ErrorsKeepTheirOption(option1: LoanOption, option2: LoanOption, current: Page)
    ensures var next := UpdateCalculations(option1, option2, current);
      var errors1 := ValidateInputs(option1, "option1");
      var errors2 := ValidateInputs(option2, "option2");
      && (forall k :: k in errors1 ==> k in next.errors && k !in errors2 && next.errors[k] == errors1[k])
      && (forall k :: k in errors2 ==> k in next.errors && k !in errors1 && next.errors[k] == errors2[k])
  {
    PrefixesSeparate(option1, option2);
  }

  // ------------------------------------------------------------------
  // The comparison

  datatype Comparison = Comparison(savings: real, betterOption: int, savingsAmount: real)

  /** How much more option 2 costs than option 1, which option is cheaper, and by how much. */
  function Compare(results1: LoanResults, results2: LoanResults): (c: Comparison)
    ensures c.betterOption == 1 <==> results2.totalPayment > results1.totalPayment
    ensures c.betterOption == 1 || c.betterOption == 2
    ensures c.savingsAmount >= 0.0
    ensures c.savingsAmount == results2.totalPayment - results1.totalPayment
         || c.savingsAmount == results1.totalPayment - results2.totalPayment
  {
    var savings := results2.totalPayment - results1.totalPayment;
    Comparison(savings, if savings > 0.0 then 1 else 2, Abs(savings))
  }

  /** The savings banner shows exactly when the two totals differ, and then names the cheaper option. */
  lemma BannerNamesCheaperOption(results1: LoanResults, results2: LoanResults)
    ensures var c := Compare(results1, results2);
      && (c.savingsAmount > 0.0 <==> results1.totalPayment != results2.totalPayment)
      && (c.savingsAmount > 0.0 && c.betterOption == 2 ==> results2.totalPayment < results1.totalPayment)
      && (c.betterOption == 1 ==> results1.totalPayment + c.savingsAmount == results2.totalPayment)
      && (c.betterOption == 2 ==> results2.totalPayment + c.savingsAmount == results1.totalPayment)
  {
  }
}
