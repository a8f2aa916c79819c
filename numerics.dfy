/**
 * Exact-arithmetic stand-ins for the JavaScript Math functions the calculator
 * pages use, and the fixed-rate loan arithmetic that three of the pages share.
 * Numbers are exact reals, not IEEE doubles.
 */
module Numerics {

  /** Math.min on two numbers. */
  function Min(a: real, b: real): (r: real)
    ensures r <= a && r <= b && (r == a || r == b)
  {
    if a <= b then a else b
  }

  /** Math.max on two numbers. */
  function Max(a: real, b: real): (r: real)
    ensures r >= a && r >= b && (r == a || r == b)
  {
    if a >= b then a else b
  }

  /** Math.abs. */
  function Abs(a: real): (r: real)
    ensures r >= 0.0 && (r == a || r == -a)
  {
    if a >= 0.0 then a else -a
  }

  /** Math.round: the nearest integer, a half rounded up (towards +infinity). */
  function Round(x: real): (r: int)
    ensures r as real - 0.5 <= x < r as real + 0.5
  {
    (x + 0.5).Floor
  }

  /** Rounding a non-negative number gives a non-negative integer. */
  lemma RoundNonNegative(x: real)
    requires x >= 0.0
    ensures Round(x) >= 0
  {
  }

  /** Math.round(x * 100) / 100: rounding to two decimals. */
  function Round2(x: real): (r: real)
    ensures x - 0.005 < r <= x + 0.005
  {
    Round(x * 100.0) as real / 100.0
  }

  /** Rounding commutes with shifting by a whole number. */
  lemma RoundShift(x: real, k: int)
    ensures Round(x - k as real) == Round(x) - k
  {
    assert (Round(x) - k) as real - 0.5 <= x - k as real < (Round(x) - k) as real + 0.5;
  }

  /** Rounding never reverses the order of two numbers. */
  lemma RoundMonotone(x: real, y: real)
    requires x <= y
    ensures Round(x) <= Round(y)
  {
  }

  /** Math.pow with a natural exponent. */
  function Pow(x: real, n: nat): real
  {
    if n == 0 then 1.0 else x * Pow(x, n - 1)
  }

  lemma {:induction false} PowPositive(x: real, n: nat)
    requires x > 0.0
    ensures Pow(x, n) > 0.0
  {
    if n > 0 {
      PowPositive(x, n - 1);
      assert x * Pow(x, n - 1) > 0.0;
    }
  }

  /** Multiplying both sides of an inequality by a non-negative factor keeps it. */
  lemma MulLe(a: real, b: real, c: real)
    requires a <= b && c >= 0.0
    ensures c * a <= c * b
  {
    assert c * b - c * a == c * (b - a);
  }

  /** A product of two non-negative numbers is non-negative. */
  lemma ProductNonNegative(a: real, b: real)
    ensures a >= 0.0 && b >= 0.0 ==> a * b >= 0.0
  {
    if a >= 0.0 && b >= 0.0 {
      MulLe(0.0, a, b);
    }
  }

  /** A product with a positive factor has the sign of the other factor. */
  lemma SignOfProduct(a: real, b: real)
    requires b > 0.0
    ensures a * b > 0.0 <==> a > 0.0
    ensures a * b == 0.0 <==> a == 0.0
    ensures a * b >= 0.0 <==> a >= 0.0
  {
    if a < 0.0 {
      assert (-a) * b > 0.0;
    }
  }

  /** Bernoulli's inequality: (1 + r)^n >= 1 + n r for r >= 0. */
  lemma {:induction false} Bernoulli(r: real, n: nat)
    requires r >= 0.0
    ensures Pow(1.0 + r, n) >= 1.0 + n as real * r
  {
    if n > 0 {
      Bernoulli(r, n - 1);
      var p := Pow(1.0 + r, n - 1);
      var k := (n - 1) as real;
      MulLe(1.0 + k * r, p, 1.0 + r);
      assert (1.0 + r) * (1.0 + k * r) == 1.0 + (k + 1.0) * r + k * (r * r);
      MulLe(0.0, r, r);
      MulLe(0.0, r * r, k);
      assert Pow(1.0 + r, n) == (1.0 + r) * p;
    }
  }

  /** With a positive rate the growth factor over one or more periods exceeds 1. */
  lemma GrowthExceedsOne(r: real, n: nat)
    requires n > 0
    ensures r > 0.0 ==> Pow(1.0 + r, n) > 1.0
  {
    if r > 0.0 {
      Bernoulli(r, n);
      MulLe(1.0, n as real, r);
    }
  }

  /** One induction step of GrowthBound, on plain numbers: p stands for (1 + r)^k. */
  lemma GrowthStep(r: real, p: real, k: real)
    requires r >= 0.0 && k >= 0.0 && p >= 1.0
    requires p - 1.0 <= k * r * p
    ensures (1.0 + r) * p - 1.0 <= (k + 1.0) * r * ((1.0 + r) * p)
  {
    var q := 1.0 + r;
    MulLe(p - 1.0, k * r * p, q);
    assert q * (k * r * p) == k * r * (q * p);
    assert q * p - 1.0 == q * (p - 1.0) + r;
    MulLe(1.0, p, r);
    MulLe(1.0, q, r * p);
    assert r <= r * (q * p);
    assert k * r * (q * p) + r * (q * p) == (k + 1.0) * r * (q * p);
  }

  /** (1 + r)^n - 1 <= n r (1 + r)^n: the growth over n periods is at most n periods of interest on the grown amount. */
  lemma {:induction false} GrowthBound(r: real, n: nat)
    requires r >= 0.0
    ensures Pow(1.0 + r, n) - 1.0 <= n as real * r * Pow(1.0 + r, n)
  {
    if n > 0 {
      GrowthBound(r, n - 1);
      Bernoulli(r, n - 1);
      MulLe(0.0, (n - 1) as real, r);
      GrowthStep(r, Pow(1.0 + r, n - 1), (n - 1) as real);
    }
  }

  /**
   * The level monthly payment that retires `loan` over `n` months at
   * `monthlyRate`: loan * r (1+r)^n / ((1+r)^n - 1). The formula has a
   * value whenever (1+r)^n is not 1, which a positive rate guarantees.
   */
  function AnnuityPayment(loan: real, monthlyRate: real, n: nat): (m: real)
    requires n > 0 && (monthlyRate > 0.0 || Pow(1.0 + monthlyRate, n) != 1.0)
    ensures monthlyRate > 0.0 && loan > 0.0 ==> m > loan * monthlyRate
    ensures loan == 0.0 ==> m == 0.0
  {
    var x := Pow(1.0 + monthlyRate, n);
    GrowthExceedsOne(monthlyRate, n);
    AnnuityFactor(loan * monthlyRate, x);
    loan * (monthlyRate * x) / (x - 1.0)
  }

  /** c x / (x - 1) is 0 when c is, and for x > 1 lies strictly above c when c > 0. */
  lemma AnnuityFactor(c: real, x: real)
    requires x != 1.0
    ensures x > 1.0 && c > 0.0 ==> c * x / (x - 1.0) > c
    ensures c == 0.0 ==> c * x / (x - 1.0) == 0.0
  {
    var m := c * x / (x - 1.0);
    assert m * (x - 1.0) == c * x;
    if x > 1.0 {
      assert (m - c) * (x - 1.0) == c;
      SignOfProduct(m - c, x - 1.0);
      SignOfProduct(m, x - 1.0);
    } else {
      assert m * (1.0 - x) == -(c * x);
      SignOfProduct(m, 1.0 - x);
    }
  }

  /** Over the whole term the level payments add up to at least the amount borrowed. */
  lemma {:induction false} AnnuityCoversLoan(loan: real, monthlyRate: real, n: nat)
    requires monthlyRate > 0.0 && n > 0 && loan >= 0.0
    ensures AnnuityPayment(loan, monthlyRate, n) * n as real >= loan
  {
    var x := Pow(1.0 + monthlyRate, n);
    GrowthExceedsOne(monthlyRate, n);
    GrowthBound(monthlyRate, n);
    var m := AnnuityPayment(loan, monthlyRate, n);
    var k := n as real;
    assert m * (x - 1.0) == loan * (monthlyRate * x);
    assert m * k * (x - 1.0) == loan * (k * monthlyRate * x);
    MulLe(x - 1.0, k * monthlyRate * x, loan);
    assert (m * k - loan) * (x - 1.0) >= 0.0;
    SignOfProduct(m * k - loan, x - 1.0);
  }

  /**
   * The running balance after k level payments of `m`: each month the
   * interest balance * rate is charged and m - interest comes off the balance.
   */
  function BalanceAfter(loan: real, monthlyRate: real, m: real, k: nat): real
  {
    if k == 0 then loan
    else
      var b := BalanceAfter(loan, monthlyRate, m, k - 1);
      b - (m - b * monthlyRate)
  }

  /** Closed form of the running balance: m/r + (1+r)^k (loan - m/r). */
  lemma {:induction false} BalanceClosedForm(loan: real, monthlyRate: real, m: real, k: nat)
    requires monthlyRate != 0.0
    ensures BalanceAfter(loan, monthlyRate, m, k)
         == m / monthlyRate + Pow(1.0 + monthlyRate, k) * (loan - m / monthlyRate)
  {
    if k > 0 {
      BalanceClosedForm(loan, monthlyRate, m, k - 1);
      var p := Pow(1.0 + monthlyRate, k - 1);
      var c := loan - m / monthlyRate;
      var b := BalanceAfter(loan, monthlyRate, m, k - 1);
      assert b == m / monthlyRate + p * c;
      assert b - (m - b * monthlyRate) == b * (1.0 + monthlyRate) - m;
      assert (m / monthlyRate) * (1.0 + monthlyRate) - m == m / monthlyRate;
      assert (p * c) * (1.0 + monthlyRate) == ((1.0 + monthlyRate) * p) * c;
    }
  }

  /** The closed form at k = n vanishes for the annuity payment, on plain numbers: x stands for (1 + r)^n. */
  lemma AnnuityClosedFormVanishes(loan: real, r: real, x: real)
    requires r != 0.0 && x != 1.0
    ensures var m := loan * (r * x) / (x - 1.0);
            m / r + x * (loan - m / r) == 0.0
  {
    var m := loan * (r * x) / (x - 1.0);
    var a := m / r;
    assert m == a * r;
    assert m * (x - 1.0) == loan * (r * x);
    assert (a * (x - 1.0)) * r == (loan * x) * r;
    assert a * (x - 1.0) == loan * x;
    assert a + x * (loan - a) == loan * x - a * (x - 1.0);
  }

  /** Paying the annuity payment for the whole term leaves exactly nothing owing. */
  lemma {:induction false} AnnuityRetiresLoan(loan: real, monthlyRate: real, n: nat)
    requires n > 0 && (monthlyRate > 0.0 || Pow(1.0 + monthlyRate, n) != 1.0)
    ensures BalanceAfter(loan, monthlyRate, AnnuityPayment(loan, monthlyRate, n), n) == 0.0
  {
    var m := AnnuityPayment(loan, monthlyRate, n);
    var x := Pow(1.0 + monthlyRate, n);
    GrowthExceedsOne(monthlyRate, n);
    PowOfOne(n);
    assert monthlyRate != 0.0 && x != 1.0;
    assert m == loan * (monthlyRate * x) / (x - 1.0);
    BalanceClosedForm(loan, monthlyRate, m, n);
    AnnuityClosedFormVanishes(loan, monthlyRate, x);
  }

  /** 1 to any power is 1. */
  lemma {:induction false} PowOfOne(n: nat)
    ensures Pow(1.0, n) == 1.0
  {
    if n > 0 {
      PowOfOne(n - 1);
    }
  }

  /** 0 to a positive power is 0. */
  lemma PowOfZero(n: nat)
    requires n > 0
    ensures Pow(0.0, n) == 0.0
  {
  }

  /** An even power does not see the sign of its base. */
  lemma {:induction false} PowEven(y: real, n: nat)
    requires n % 2 == 0
    ensures Pow(-y, n) == Pow(y, n)
  {
    if n > 0 {
      PowEven(y, n - 2);
      assert Pow(-y, n) == (-y) * ((-y) * Pow(-y, n - 2));
      assert Pow(y, n) == y * (y * Pow(y, n - 2));
    }
  }

  /** A base strictly between 0 and 1 raised to a positive power stays below 1. */
  lemma {:induction false} PowBelowOne(y: real, n: nat)
    requires 0.0 < y < 1.0 && n > 0
    ensures 0.0 < Pow(y, n) < 1.0
  {
    if n > 1 {
      PowBelowOne(y, n - 1);
      MulLe(Pow(y, n - 1), 1.0, y);
    }
  }

  /** A positive power is 0 exactly at the base 0. */
  lemma {:induction false} PowZero(y: real, n: nat)
    requires n > 0
    ensures Pow(y, n) == 0.0 <==> y == 0.0
  {
    if n > 1 {
      PowZero(y, n - 1);
      var p := Pow(y, n - 1);
      assert y != 0.0 && p != 0.0 ==> (y * p) / p == y;
    }
  }

  /**
   * The growth factor over a whole number of years, paid monthly, at an
   * annual percentage rate: it is 1 only at 0% and -2400%, and 0 only at
   * -1200%.
   */
  lemma GrowthFactorAt(annualPercent: real, years: nat)
    requires years >= 1
    ensures Pow(1.0 + annualPercent / 100.0 / 12.0, years * 12) == 1.0 <==> annualPercent == 0.0 || annualPercent == -2400.0
    ensures Pow(1.0 + annualPercent / 100.0 / 12.0, years * 12) == 0.0 <==> annualPercent == -1200.0
  {
    var y := 1.0 + annualPercent / 100.0 / 12.0;
    var n := years * 12;
    assert n == 2 * (years * 6);
    PowEqualsOne(y, n);
    PowZero(y, n);
    assert y == 1.0 <==> annualPercent == 0.0;
    assert y == -1.0 <==> annualPercent == -2400.0;
    assert y == 0.0 <==> annualPercent == -1200.0;
  }

  /** An even positive power is 1 exactly at the bases 1 and -1. */
  lemma PowEqualsOne(y: real, n: nat)
    requires n > 0 && n % 2 == 0
    ensures Pow(y, n) == 1.0 <==> y == 1.0 || y == -1.0
  {
    var a := Abs(y);
    PowEven(y, n);
    assert Pow(a, n) == Pow(y, n);
    if a > 1.0 {
      GrowthExceedsOne(a - 1.0, n);
      assert 1.0 + (a - 1.0) == a;
    } else if 0.0 < a < 1.0 {
      PowBelowOne(a, n);
    } else if a == 0.0 {
      PowOfZero(n);
    } else {
      PowOfOne(n);
    }
  }
}
