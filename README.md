# Personal finance and health calculators, modelled in Dafny

This project models the arithmetic and simulation logic of seven calculator
pages of a React web application:

- **debt payoff**: several debts, paid off month by month under the
  avalanche or the snowball strategy;
- **credit card**: one balance paid off monthly, with extra-payment,
  lump-sum and bi-weekly scenarios;
- **mortgage**: FHA and VA adjustments, the level payment, the insurance
  premium and the amortization table;
- **auto loan**: two loan options compared;
- **rental property**: mortgage, income, expenses and cash flow;
- **GPA**: a credit-weighted grade average;
- **calorie**: the Mifflin-St Jeor resting-energy equation and the targets
  derived from it.

Each page is one module. Two modules are shared by all of them:

- `Numerics` holds rounding, `Math.min`/`max`/`abs`, a power with a natural
  exponent, the annuity payment and the balance recursion it retires.
- `Seqs` holds a generic order-keeping `Filter` and `Map` with their
  multiset lemmas.

How the source is carried over:

- Money, rates and measurements are exact `real` numbers. `Math.round(x)`
  is `Floor(x + 0.5)`, and `Math.round(x * 100) / 100` is `Round2`.
- React state is passed in explicitly. Every `setX(...)` becomes a returned
  record. A page whose inputs fail validation hands back its current results
  unchanged.
- Loops that update variables are methods with loop invariants. Each
  method's postcondition ties its results to specification functions, and
  the properties are proved about those functions:
  - the debt payoff month loop ends after `OwingAfter` first becomes empty,
    with the interest `InterestOver` and the schedule `ScheduleOver` of that
    month; the loop over the debts inside one month computes `MonthEnd`
    and `MonthInterest`;
  - the credit card monthly and bi-weekly loops compute the recursive run
    `PayDown`;
  - the amortization table loop builds the row-by-row table `Schedule`;
  - the GPA sum loop computes the recursive sums of the counted courses.
- Straight-line code is functions and lemmas.

The debt payoff loop in the source has no iteration cap. The model requires
what makes it finish: every simulated debt's payment beats its first
month's interest. From that it derives a decreasing measure: each owing
debt loses at least the smallest payment-minus-interest margin every month.

## Model

| member | source | states |
|---|---|---|
| Numerics.Round | src/pages/CalorieCalculator.tsx:89-96 | `Math.round` lands within half a unit of its argument |
| Numerics.RoundShift | src/pages/CalorieCalculator.tsx:89-93 | rounding commutes with subtracting a whole number |
| Numerics.Round2 | src/pages/GpaCalculator.tsx:83-85 | rounding to cents moves a value by at most half a cent |
| Numerics.Min | src/pages/DebtPayoffCalculator.tsx:92 | `Math.min` is a lower bound equal to one of its arguments |
| Numerics.AnnuityPayment | src/pages/MortgageCalculator.tsx:75-77 | defined whenever (1 + r)^n is not 1; at a positive rate the payment on a positive loan exceeds the first month's interest; on a zero loan it is zero |
| Numerics.AnnuityCoversLoan | src/pages/AutoLoanCalculator.tsx:76-81 | n level payments repay at least the loan, so total interest is not negative |
| Numerics.BalanceClosedForm | src/pages/MortgageCalculator.tsx:125-130 | the balance after k payments has the textbook closed form |
| Numerics.AnnuityRetiresLoan | src/pages/MortgageCalculator.tsx:71-77 | after n level payments nothing is owing, at any rate for which the formula has a value, negative rates included |
| Numerics.PowEqualsOne | src/pages/RentalHomeCalculator.tsx:42-44 | an even positive power is 1 exactly at the bases 1 and -1 |
| Numerics.GrowthFactorAt | src/pages/MortgageCalculator.tsx:71-77 | over a whole number of years paid monthly, the growth factor is 1 only at 0% and -2400% a year, and 0 only at -1200% |
| Seqs.FilterMembers | src/pages/DebtPayoffCalculator.tsx:115 | `filter` keeps exactly the elements that pass the test |
| Seqs.FilterConcat | src/pages/DebtPayoffCalculator.tsx:115 | `filter` keeps the relative order of what it keeps |
| Seqs.FilterSplit | src/pages/DebtPayoffCalculator.tsx:106-115 | filtering by a test and by its negation splits a list into two parts that together hold every element once |
| DebtPayoff.AddDebt | src/pages/DebtPayoffCalculator.tsx:45-54 | one debt with the given id and zero balance, rate and payment is appended; the others are unchanged |
| DebtPayoff.RemoveDebt | src/pages/DebtPayoffCalculator.tsx:56-58 | a debt stays if and only if its id differs from the removed one |
| DebtPayoff.RemoveDebtKeepsOrder | src/pages/DebtPayoffCalculator.tsx:56-58 | removal keeps the order of the debts that stay |
| DebtPayoff.RemoveAbsentId | src/pages/DebtPayoffCalculator.tsx:56-58 | removing an id no debt has changes nothing |
| DebtPayoff.WithField | src/pages/DebtPayoffCalculator.tsx:60-64 | only the named field takes the new value |
| DebtPayoff.UpdateDebt | src/pages/DebtPayoffCalculator.tsx:60-64 | debts with the id get the edit; every other debt is unchanged and in place |
| DebtPayoff.ValidDebtsInOrder | src/pages/DebtPayoffCalculator.tsx:67 | the plan takes exactly the debts with positive balance, rate and payment, in the order they were listed |
| DebtPayoff.AddedDebtIsIgnored | src/pages/DebtPayoffCalculator.tsx:45-54 | a freshly added blank debt is never simulated |
| DebtPayoff.TotalBalancePositive | src/pages/DebtPayoffCalculator.tsx:122 | the total of a non-empty list of positive balances is positive |
| DebtPayoff.Insert | src/pages/DebtPayoffCalculator.tsx:72-78 | inserting into a sorted list keeps it sorted and adds exactly that debt |
| DebtPayoff.SortDebts | src/pages/DebtPayoffCalculator.tsx:72-78 | the result is ordered by rate descending (avalanche) or balance ascending (snowball) and is a permutation of the input |
| DebtPayoff.InsertKeepsTies | src/pages/DebtPayoffCalculator.tsx:72-78 | inserting a debt keeps every group of debts the comparator ties in the order it had with the new debt in front |
| DebtPayoff.SortDebtsStable | src/pages/DebtPayoffCalculator.tsx:72-78 | the sort is stable: debts the comparator ties (same rate, or same balance) keep their listed order |
| DebtPayoff.MonthlyInterest | src/pages/DebtPayoffCalculator.tsx:91 | a month's interest on a non-negative balance at a non-negative rate is not negative |
| DebtPayoff.PayMinimum | src/pages/DebtPayoffCalculator.tsx:90-96 | the minimum payment never drives a balance below zero, and it clears the debt exactly when payment minus interest covers the balance |
| DebtPayoff.ApplyExtra | src/pages/DebtPayoffCalculator.tsx:98-103 | a positive extra amount lowers only the first debt, to no less than zero; a non-positive one changes nothing |
| DebtPayoff.MonthEnd | src/pages/DebtPayoffCalculator.tsx:87-103 | after a month every debt keeps its name, rate and payment and has a balance of at least zero |
| DebtPayoff.InterestMonotone | src/pages/DebtPayoffCalculator.tsx:91 | a lower balance at the same rate accrues no more interest |
| DebtPayoff.PayMinimumProgress | src/pages/DebtPayoffCalculator.tsx:92-95 | when payment beats interest by delta, each month clears the debt or takes at least delta off it |
| DebtPayoff.MonthStep | src/pages/DebtPayoffCalculator.tsx:87-103 | one month leaves every debt cleared or at least delta lower, never higher |
| DebtPayoff.MinMargin | src/pages/DebtPayoffCalculator.tsx:91-92 | the smallest payment-minus-interest margin bounds every debt's margin and is attained |
| DebtPayoff.SortedPayable | src/pages/DebtPayoffCalculator.tsx:67-78 | when every simulated debt's payment beats its interest, so does every debt of the sorted copy |
| DebtPayoff.PayMonth | src/pages/DebtPayoffCalculator.tsx:87-103 | the month's in-place updates give the month-end balances and add up that month's interest |
| DebtPayoff.SelectedStep | src/pages/DebtPayoffCalculator.tsx:115 | the owing debts stay a subsequence of the sorted list, so the extra payment always goes to the earliest unpaid debt in strategy order |
| DebtPayoff.MonthKeeps | src/pages/DebtPayoffCalculator.tsx:85-116 | one month keeps the loop invariant: the measure decreases, paid-off debts are booked by name in that month, and the rest keep their order |
| DebtPayoff.OwingAfter | src/pages/DebtPayoffCalculator.tsx:85-116 | after the first month every debt still owing has a positive balance |
| DebtPayoff.StuckStaysStuck | src/pages/DebtPayoffCalculator.tsx:90-96 | a debt whose payment does not beat its interest keeps a balance at least as high after the minimum payment, and still does not beat it |
| DebtPayoff.StuckMonth | src/pages/DebtPayoffCalculator.tsx:87-115 | with no positive extra payment such a debt comes out of a month still owing |
| DebtPayoff.StuckDebtStaysOwing | src/pages/DebtPayoffCalculator.tsx:85-116 | with no positive extra payment such a debt is still owing after every month |
| DebtPayoff.StuckPlanNeverEnds | src/pages/DebtPayoffCalculator.tsx:66-116 | with no positive extra payment and a simulated debt whose payment does not beat its interest, no month of the plan is debt-free, so the page's loop never ends |
| DebtPayoff.DebtFreeMonthUnique | src/pages/DebtPayoffCalculator.tsx:85 | there is only one month in which the plan becomes debt-free |
| DebtPayoff.BookedInClearingMonth | src/pages/DebtPayoffCalculator.tsx:106-113 | every schedule entry names a debt whose balance reached zero or below in the entry's month, with zero interest |
| DebtPayoff.ClearedDebtsAreBooked | src/pages/DebtPayoffCalculator.tsx:106-113 | every debt a month pays off is entered under that month |
| DebtPayoff.FollowsStep | src/pages/DebtPayoffCalculator.tsx:85-116 | one more month of the loop's variables is one more month of the plan |
| DebtPayoff.PlanHolds | src/pages/DebtPayoffCalculator.tsx:85-116 | until the plan is debt-free, the debts owing stay healthy, sorted and booked |
| DebtPayoff.PlanStep | src/pages/DebtPayoffCalculator.tsx:85-116 | while debts are owing, a month keeps that invariant, lowers the termination measure and charges no negative interest |
| DebtPayoff.PlanShrinks | src/pages/DebtPayoffCalculator.tsx:85-116 | every month before the debt-free one lowers the termination measure |
| DebtPayoff.PlanEnds | src/pages/DebtPayoffCalculator.tsx:85-116 | in the debt-free month every sorted debt is booked exactly once, months ascending |
| DebtPayoff.MonthPass | src/pages/DebtPayoffCalculator.tsx:86-115 | one pass of the loop body gives the plan's next month: the debts still owing, the month's interest, and entries for the debts it paid off |
| DebtPayoff.PayOffAll | src/pages/DebtPayoffCalculator.tsx:80-116 | the loop stops in the month the plan becomes debt-free, with the plan's summed interest and schedule; every sorted debt is booked exactly once, months ascending, and interest is not negative |
| DebtPayoff.ScheduleComplete | src/pages/DebtPayoffCalculator.tsx:121-127 | the final books describe the unsorted valid debts: same names, total balance, last entry in the debt-free month |
| DebtPayoff.CalculatePayoff | src/pages/DebtPayoffCalculator.tsx:66-128 | with no simulated debt the results stay unchanged; otherwise the months are the plan's debt-free month, the interest is the rounded sum of every month's interest, and the schedule lists each simulated debt once by name in the month it was paid off, months ascending, totalling the original balances |
| CreditCard.MonthlyRate | src/pages/CreditCardCalculator.tsx:63 | a non-negative annual rate gives a non-negative monthly rate |
| CreditCard.ValidateInputs | src/pages/CreditCardCalculator.tsx:38-53 | one message per failed check; the interest check overwrites the payment message; no errors if and only if the inputs are valid |
| CreditCard.PayDown | src/pages/CreditCardCalculator.tsx:68-77 | a run never takes more periods than the cap, and a non-positive balance takes none |
| CreditCard.PayDownBounds | src/pages/CreditCardCalculator.tsx:70-75 | the balance never goes negative or up, and interest is not negative at a non-negative rate |
| CreditCard.PayDownExit | src/pages/CreditCardCalculator.tsx:68-72 | a run stops only when the balance is exactly zero, the cap is reached, or the payment no longer covers the interest |
| CreditCard.Principal | src/pages/CreditCardCalculator.tsx:70 | a period's principal never exceeds the balance |
| CreditCard.PayDownLoop | src/pages/CreditCardCalculator.tsx:62-77 | the loop computes the run of the recursive payoff definition |
| CreditCard.CalculatePayoff | src/pages/CreditCardCalculator.tsx:55-88 | months stay within 1000; a lump sum at least the balance gives 0 months and 0 interest; total = balance + interest; interest is not negative |
| CreditCard.CalculateBiWeeklyPayoff | src/pages/CreditCardCalculator.tsx:90-121 | reported months are round(periods/2.17), at most 922; total = balance + interest |
| CreditCard.PayingMoreNeverSlower | src/pages/CreditCardCalculator.tsx:68-77 | a smaller balance or a larger payment never takes more periods |
| CreditCard.PayingMoreCostsLess | src/pages/CreditCardCalculator.tsx:68-77 | a smaller balance or a larger payment never costs more interest |
| CreditCard.ExtraPaymentSaves | src/pages/CreditCardCalculator.tsx:134-140 | with valid inputs a non-negative extra payment saves months and interest |
| CreditCard.LumpSumSaves | src/pages/CreditCardCalculator.tsx:143-149 | with valid inputs a non-negative lump sum saves months and interest |
| CreditCard.ValidRunFinishes | src/pages/CreditCardCalculator.tsx:68-76 | when the payment beats the first month's interest, the run pays off exactly or uses every period |
| CreditCard.Compare | src/pages/CreditCardCalculator.tsx:135-158 | the saved amounts are the base figures less the scenario's |
| CreditCard.UpdateCalculations | src/pages/CreditCardCalculator.tsx:123-161 | errors always shown; invalid inputs keep the old results; valid inputs give the base and the three scenarios, with non-negative savings for the extra and lump-sum scenarios |
| CreditCard.NatToStringRoundTrip | src/pages/CreditCardCalculator.tsx:171-173 | the decimal text of a number reads back as that number |
| CreditCard.FormatMonths | src/pages/CreditCardCalculator.tsx:167-174 | non-empty; ends in "month" or "months" under a year, in a space after whole years, otherwise in the leftover months' unit |
| CreditCard.FormatMonthsRoundTrip | src/pages/CreditCardCalculator.tsx:167-174 | the text gives back the month count: years times 12 plus the leftover months |
| Mortgage.ComputableRates | src/pages/MortgageCalculator.tsx:71-77 | the formulas have a value exactly when the term is at least a year, FHA has a price to divide by, and the rate is not 0%, -1200% or -2400% |
| Mortgage.NegativePowerIsAnnuity | src/pages/MortgageCalculator.tsx:75-77 | the formula with the negative power equals the annuity payment |
| Mortgage.AdjustForLoanType | src/pages/MortgageCalculator.tsx:48-69 | the flag-driven reassignments give the adjusted price, the adjusted down payment and the insurance premium |
| Mortgage.FhaRaisesDownPayment | src/pages/MortgageCalculator.tsx:53-55 | FHA raises the down payment to at least 3.5% of the price and leaves the price alone |
| Mortgage.MipOnlyAboveNinetyPercent | src/pages/MortgageCalculator.tsx:56-60 | a premium is charged if and only if FHA applies and the loan is over 90% of the price |
| Mortgage.VaAppliedAfterFha | src/pages/MortgageCalculator.tsx:64-69 | VA zeroes the down payment and adds 2.3% to the price; any FHA premium stays |
| Mortgage.LevelPayment | src/pages/MortgageCalculator.tsx:71-80 | principal and interest follow the annuity formula; totals come from those payments |
| Mortgage.MonthlyCosts | src/pages/MortgageCalculator.tsx:82-94 | tax and insurance are the entered amounts, or the rate-based amounts when none is entered |
| Mortgage.CalculateMortgage | src/pages/MortgageCalculator.tsx:47-112 | the computed results and table are the calculation's specification |
| Mortgage.TotalsExcludeInsurance | src/pages/MortgageCalculator.tsx:79-80 | the shown payment includes the premium; the totals use principal and interest only |
| Mortgage.InterestNonNegative | src/pages/MortgageCalculator.tsx:79-80 | at a positive rate, total interest on a non-negative loan is not negative |
| Mortgage.Schedule | src/pages/MortgageCalculator.tsx:114-142 | the table has one row per payment |
| Mortgage.GenerateAmortizationSchedule | src/pages/MortgageCalculator.tsx:114-142 | the loop builds the table of the row-by-row definition |
| Mortgage.ScheduleRow | src/pages/MortgageCalculator.tsx:125-138 | row k of the table is the row for payment k + 1 |
| Mortgage.RowAtFacts | src/pages/MortgageCalculator.tsx:125-138 | each row's interest is the running balance times the rate, interest plus principal is the payment, and the ending balance is clamped at zero |
| Mortgage.ScheduleRows | src/pages/MortgageCalculator.tsx:125-138 | rows are numbered 1..n and the first starts at the principal |
| Mortgage.ScheduleChains | src/pages/MortgageCalculator.tsx:127-131 | each row begins at the previous row's unclamped balance |
| Mortgage.ScheduleEndsAtZero | src/pages/MortgageCalculator.tsx:71-80 | the table has 12 times the term rows and ends with nothing owing |
| Mortgage.HandleScenario | src/pages/MortgageCalculator.tsx:144-163 | each tag changes only its own fields as the buttons say; any other tag changes nothing |
| Mortgage.BiweeklyTwice | src/pages/MortgageCalculator.tsx:153-155 | pressing the bi-weekly button twice restores a 26- or 30-year term |
| Mortgage.IsJumboLoan | src/pages/MortgageCalculator.tsx:170 | jumbo exactly when the loan before FHA or VA adjustments exceeds the conforming limit |
| Mortgage.JumboIgnoresLoanType | src/pages/MortgageCalculator.tsx:170 | jumbo status depends only on the entered price and down payment |
| Mortgage.TotalMonthlyPayment | src/pages/MortgageCalculator.tsx:172-173 | zero before any results; otherwise the payment plus tax, insurance, fees, premium and other charges |
| AutoLoan.ValidateInputs | src/pages/AutoLoanCalculator.tsx:55-65 | one prefixed message per failed check; exceeding the price overwrites the negative-down message; no errors if and only if valid |
| AutoLoan.KeysDistinct | src/pages/AutoLoanCalculator.tsx:58-62 | under one prefix the four error keys are distinct |
| AutoLoan.PrefixesSeparate | src/pages/AutoLoanCalculator.tsx:92-94 | the two options' error keys never collide |
| AutoLoan.BalanceAtZeroRate | src/pages/AutoLoanCalculator.tsx:73-74 | at a zero rate the balance falls by the payment every month |
| AutoLoan.CalculateLoan | src/pages/AutoLoanCalculator.tsx:67-89 | the loan is the price less the down payment, and the payment (the zero-rate split or the annuity payment) leaves nothing owing after the last month |
| AutoLoan.LoanTotals | src/pages/AutoLoanCalculator.tsx:67-89 | loan = price minus down; total = payment times payments; zero rate means zero interest; a positive rate on a non-negative loan costs non-negative interest |
| AutoLoan.MergeErrors | src/pages/AutoLoanCalculator.tsx:94 | the merged map has both key sets, the second map winning on a shared key |
| AutoLoan.UpdateCalculations | src/pages/AutoLoanCalculator.tsx:91-102 | both options' errors shown; results recomputed only when both options are valid |
| AutoLoan.ErrorsKeepTheirOption | src/pages/AutoLoanCalculator.tsx:91-102 | every error shown belongs to exactly one option, with that option's message |
| AutoLoan.Compare | src/pages/AutoLoanCalculator.tsx:108-110 | option 1 is better if and only if option 2 costs more; the savings are the absolute difference |
| AutoLoan.BannerNamesCheaperOption | src/pages/AutoLoanCalculator.tsx:286-289 | the banner shows exactly when the totals differ and names the cheaper option |
| RentalHome.ComputableRates | src/pages/RentalHomeCalculator.tsx:38-44 | the results are finite exactly when the term is at least a year, the down payment is not zero and the rate is neither 0% nor -2400% |
| RentalHome.CalculateRental | src/pages/RentalHomeCalculator.tsx:37-76 | the loan is the price less the down payment; the monthly mortgage leaves nothing owing after the last month and, at a positive rate, exceeds the first month's interest |
| RentalHome.IncomeAndExpenses | src/pages/RentalHomeCalculator.tsx:46-58 | vacancy applies to rent only; expenses are the fixed costs plus shares of rent plus 12 months of fees |
| RentalHome.CashFlowBreakdown | src/pages/RentalHomeCalculator.tsx:60-64 | NOI, monthly and annual cash flow, and cash-on-cash with the cash flow's sign on a positive down payment |
| RentalHome.RentRaisesCashFlow | src/pages/RentalHomeCalculator.tsx:46-63 | a rent change of d moves monthly cash flow by d times the share of rent retained |
| RentalHome.TryScenario | src/pages/RentalHomeCalculator.tsx:79-94 | each tag replaces its one input; any other tag changes nothing |
| RentalHome.RentIncreaseScenario | src/pages/RentalHomeCalculator.tsx:81-83 | the rent button adds 100 times the retained share to monthly cash flow |
| RentalHome.MoreDownScenario | src/pages/RentalHomeCalculator.tsx:87-89 | the down payment button finances 70% of the price |
| RentalHome.LowerRateScenario | src/pages/RentalHomeCalculator.tsx:84-86 | after the lower-rate button the results stay finite if and only if the rate was neither 0.5% nor -2399.5% |
| Gpa.Points | src/pages/GpaCalculator.tsx:33-39 | every grade is worth 0 to 4 points; an unknown grade is worth 0 |
| Gpa.GradeTableFacts | src/pages/GpaCalculator.tsx:33-41 | the table's grades are the options offered, all worth 0 to 4; A+ and A are 4, F is 0 |
| Gpa.GradeOptionsDistinct | src/pages/GpaCalculator.tsx:41 | thirteen distinct grade options |
| Gpa.AddCourse | src/pages/GpaCalculator.tsx:43-51 | one 3-credit A course with the new id is appended; the others are unchanged |
| Gpa.RemoveCourse | src/pages/GpaCalculator.tsx:53-55 | a course stays if and only if its id differs from the removed one |
| Gpa.RemoveCourseKeepsOrder | src/pages/GpaCalculator.tsx:53-55 | removal keeps the order of the courses that stay |
| Gpa.WithField | src/pages/GpaCalculator.tsx:57-61 | only the named field takes the new value |
| Gpa.UpdateCourse | src/pages/GpaCalculator.tsx:57-61 | courses with the id get the edit; every other course is unchanged and in place |
| Gpa.CalculateGpa | src/pages/GpaCalculator.tsx:63-87 | the summing loop yields the credit-weighted average of the counted courses |
| Gpa.SumPermutation | src/pages/GpaCalculator.tsx:74-78 | the sums do not depend on the order of the courses |
| Gpa.GpaOrderIndependent | src/pages/GpaCalculator.tsx:63-87 | reordering the courses leaves the result unchanged |
| Gpa.SumsBounded | src/pages/GpaCalculator.tsx:74-78 | over counted courses credits are positive and quality points lie between 0 and 4 times the credits |
| Gpa.GpaInRange | src/pages/GpaCalculator.tsx:80-85 | the GPA lies in [0, 4]; credits are positive if and only if some course counts |
| Gpa.NoCreditsAllZero | src/pages/GpaCalculator.tsx:64-69 | all three figures are zero if and only if no course has positive credits |
| Gpa.AllTopGradesGiveFour | src/pages/GpaCalculator.tsx:63-87 | top grades in every counted course give exactly 4.0 and meet every benchmark |
| Gpa.CountedAfterAdd | src/pages/GpaCalculator.tsx:43-51 | a newly added course counts, after the existing ones |
| Gpa.AddCourseNeverLowersGpa | src/pages/GpaCalculator.tsx:43-51 | adding the default A course adds 3 credits and never lowers the GPA |
| Gpa.BenchmarksNested | src/pages/GpaCalculator.tsx:273-285 | Honors implies Dean's List, which implies Graduate School |
| Calorie.ActivityLevelsOrdered | src/pages/CalorieCalculator.tsx:39-45 | five activity factors, strictly rising from 1.2 to 1.9 |
| Calorie.ValidateInputs | src/pages/CalorieCalculator.tsx:47-57 | one message per measurement out of range; no errors if and only if valid |
| Calorie.CalculateCalories | src/pages/CalorieCalculator.tsx:59-98 | errors always shown; invalid inputs keep the old figures; valid inputs give the computed figures |
| Calorie.MaleExceedsFemaleBy166 | src/pages/CalorieCalculator.tsx:67-72 | for the same measurements male resting energy is 166 kcal above female |
| Calorie.BmrSensitivity | src/pages/CalorieCalculator.tsx:63-72 | resting energy moves by 10/2.205 per pound, 6.25 times 2.54 per inch and minus 5 per year |
| Calorie.MoreActiveNeedsMore | src/pages/CalorieCalculator.tsx:75 | a higher activity factor needs more energy when resting energy is positive |
| Calorie.TargetsStepDown | src/pages/CalorieCalculator.tsx:78-93 | the rounded targets are exactly 250, 500 and 1000 below rounded maintenance, strictly decreasing |
| Calorie.WarningBelow2200 | src/pages/CalorieCalculator.tsx:254 | the extreme-loss warning shows if and only if rounded maintenance is below 2200 |
| Calorie.MacrosAddUpToMaintenance | src/pages/CalorieCalculator.tsx:84-96 | before rounding, the macros' calories add up to maintenance; the rounded grams give it back to within 8.5 kcal |
| Calorie.MacrosNearShares | src/pages/CalorieCalculator.tsx:84-96 | each rounded macro is within half a gram of its share |

## Left out

- Floating point: every figure is an exact real. IEEE-754 rounding, `NaN` and
  `Infinity` are not modelled. The inputs that would produce them are
  preconditions instead:
  - a rate that makes (1 + r)^n equal to 1 in the mortgage and rental
    formulas, which have no zero-rate branch (0% and -2400% a year);
  - a rate of -1200% in the mortgage formula, whose negative power of zero
    is `Infinity` in the source;
  - a zero down payment in the cash-on-cash return;
  - a zero price in the FHA loan-to-value ratio.
- Loan terms are whole numbers of years. Fractional exponents of
  `Math.pow` are not modelled.
- Payoff dates are not modelled. They are built from the clock with
  `new Date()`, `setMonth` and `toLocaleDateString`. The same goes for all
  other locale formatting (`toFixed`, `toLocaleString`).
- The new ids of `addDebt` and `addCourse` come from `Date.now()`; here they
  are a parameter.
- Rendering, styling, React state and effect timing are left out. Each
  handler takes its inputs and returns its new state.
- The share button, the ad components, routing, and the static pages hold no
  calculator logic and are not part of this model.
- The rental page has no route in the application. Its logic is modelled all
  the same.
- DebtPayoff.CalculatePayoff: requires every simulated debt's payment to
  exceed its first month's interest. The source loop has no cap. This
  condition is enough for the loop to end, but the loop does not need it:
  a positive extra payment can clear a debt whose payment does not beat
  its interest. The model does not cover those runs. StuckPlanNeverEnds
  proves that the loop never ends when the extra payment is not positive
  and some simulated debt's payment does not beat its interest.
- DebtPayoff.CalculatePayoff: each schedule entry's `totalInterest` is
  always zero, exactly as in the source.
- CreditCard.PayDown: the loop's safety limits (1000 months, 2000 bi-weekly
  periods) are fuel parameters of the recursive definition.
- CreditCard.FormatMonthsRoundTrip: the text is modelled for whole,
  non-negative month counts. The page formats only the base run's month
  count, which is a loop counter and so always such a count.
- AutoLoan.CalculateLoan: requires a non-negative rate and a positive term.
  The page calls it only after validation has established both.
- RentalHome.CalculateRental: requires a term of at least one year, a
  non-zero down payment and a rate other than 0% and -2400%. At those
  inputs the source divides by zero.
- RentalHome.LowerRateScenario: from 0.5% or -2399.5%, the lower-rate
  button leaves the source's mortgage formula dividing by zero. The model
  only states when that happens.
- Mortgage.CalculateMortgage: requires a term of at least one year and a
  rate other than 0%, -1200% and -2400%. Under FHA it also requires a
  non-zero price.
- Gpa.Points: a grade outside the table scores 0. In the source, a grade
  named like an inherited object property would not. The grade picker only
  offers the table's keys.
