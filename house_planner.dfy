/** The house-purchase helpers: the yearly and monthly saving that reaches a
    down payment, and the level monthly payment of a fixed-rate loan. */
module HousePlanner {
  import opened Common
  import opened Powers
  import Finlib

  /** Share of the house price paid up front. */
  const Downpayment: real := 0.2

  /** Yearly mortgage interest rate assumed for the loan. */
  const InterestRate: real := 0.07

  // ---------------------------------------------------------------------------
  // Saving for the down payment
  // ---------------------------------------------------------------------------

  /** The constant yearly contribution that grows to 20% of the price by the
      purchase date, and the same amount per month. It fails as contribution
      sizing does: a non-positive rate, or no years to save. */
  function CalculateAnnualSaving(housePrice: real, annualInterestRate: real, timeUntilPurchase: nat): (r: Result<(real, real)>)
    ensures r.Err? <==> annualInterestRate <= 0.0 || timeUntilPurchase == 0
    ensures annualInterestRate <= 0.0 ==> r == Err(InvalidRate)
    ensures annualInterestRate > 0.0 && timeUntilPurchase == 0 ==> r == Err(ZeroDivision)
    ensures r.Ok? ==> Finlib.Accumulate(r.value.0, annualInterestRate, timeUntilPurchase) == Downpayment * housePrice
    ensures r.Ok? ==> r.value.1 * 12.0 == r.value.0
  {
    var annualPayment :- Finlib.RequiredConstantContribution(Downpayment * housePrice, annualInterestRate, timeUntilPurchase);
    Ok((annualPayment, annualPayment / 12.0))
  }

  /** A dearer house never needs a smaller saving, and a strictly dearer
      one needs a strictly larger saving. */
  lemma SavingMonotone(cheaper: real, dearer: real, annualInterestRate: real, timeUntilPurchase: nat)
    requires annualInterestRate > 0.0 && timeUntilPurchase >= 1
    ensures cheaper <= dearer ==>
      CalculateAnnualSaving(cheaper, annualInterestRate, timeUntilPurchase).value.0
        <= CalculateAnnualSaving(dearer, annualInterestRate, timeUntilPurchase).value.0
    ensures cheaper < dearer ==>
      CalculateAnnualSaving(cheaper, annualInterestRate, timeUntilPurchase).value.0
        < CalculateAnnualSaving(dearer, annualInterestRate, timeUntilPurchase).value.0
  {
    var low := CalculateAnnualSaving(cheaper, annualInterestRate, timeUntilPurchase).value.0;
    var high := CalculateAnnualSaving(dearer, annualInterestRate, timeUntilPurchase).value.0;
    Finlib.AccumulateOrder(low, high, annualInterestRate, timeUntilPurchase);
    Finlib.AccumulateOrder(high, low, annualInterestRate, timeUntilPurchase);
  }

  // ---------------------------------------------------------------------------
  // The loan payment
  // ---------------------------------------------------------------------------

  /** The level monthly payment `P*m / (1 - (1 + m)^-n)` with m the monthly
      rate and n the number of monthly payments. Python's float arithmetic
      fails with a division by zero when `1 + m` is zero (zero to a negative
      power) and when the denominator is zero, which happens for a zero
      rate and for no payments at all. */
  function CalculateMonthlyPayment(principal: real, annualInterestRate: real, years: nat): (r: Result<real>)
    ensures r.Err? <==>
      1.0 + annualInterestRate / 12.0 == 0.0 || Pow(1.0 + annualInterestRate / 12.0, years * 12) == 1.0
    ensures r.Err? ==> r.error == ZeroDivision
  {
    var monthlyInterestRate := annualInterestRate / 12.0;
    var numberOfPayments := years * 12;
    if 1.0 + monthlyInterestRate == 0.0 then Err(ZeroDivision)
    else
      var grown := Pow(1.0 + monthlyInterestRate, numberOfPayments);
      PowNonZero(1.0 + monthlyInterestRate, numberOfPayments);
      if grown == 1.0 then Err(ZeroDivision)
      else
        DivMulCancel(1.0, grown);
        Ok((principal * monthlyInterestRate) / (1.0 - 1.0 / grown))
  }

  /** A zero rate or a zero term leaves no payment: the denominator is zero. */
  lemma NoPaymentWithoutInterestOrTerm(principal: real, annualInterestRate: real, years: nat)
    requires annualInterestRate == 0.0 || years == 0
    ensures CalculateMonthlyPayment(principal, annualInterestRate, years) == Err(ZeroDivision)
  {
    if years > 0 {
      PowOfOne(years * 12);
    }
  }

  /** The loan balance after k monthly payments: each month the balance
      earns the monthly interest and one payment is taken off. */
  function Balance(principal: real, monthlyRate: real, payment: real, k: nat): real
  {
    if k == 0 then principal else Balance(principal, monthlyRate, payment, k - 1) * (1.0 + monthlyRate) - payment
  }

  /** The balance is the principal grown for k months less the payments
      grown for the months since each was made. */
  lemma {:induction false} BalanceClosedForm(principal: real, monthlyRate: real, payment: real, k: nat)
    ensures Balance(principal, monthlyRate, payment, k)
         == principal * Pow(1.0 + monthlyRate, k) - payment * Finlib.AnnuityFactor(monthlyRate, k)
  {
    if k > 0 {
      BalanceClosedForm(principal, monthlyRate, payment, k - 1);
      var p := Pow(1.0 + monthlyRate, k - 1);
      var u := Finlib.AnnuityFactor(monthlyRate, k - 1);
      assert (principal * p - payment * u) * (1.0 + monthlyRate) - payment
          == principal * ((1.0 + monthlyRate) * p) - payment * (u * (1.0 + monthlyRate) + 1.0);
    }
  }

  /** The payment pays the loan off: after the last of the n monthly
      payments the balance is exactly zero. */
  lemma PaymentRetiresLoan(principal: real, annualInterestRate: real, years: nat)
    requires CalculateMonthlyPayment(principal, annualInterestRate, years).Ok?
    ensures Balance(principal, annualInterestRate / 12.0,
                    CalculateMonthlyPayment(principal, annualInterestRate, years).value, years * 12) == 0.0
  {
    var m := annualInterestRate / 12.0;
    var n := years * 12;
    var payment := CalculateMonthlyPayment(principal, annualInterestRate, years).value;
    var grown := Pow(1.0 + m, n);
    var u := Finlib.AnnuityFactor(m, n);
    PowNonZero(1.0 + m, n);
    var d := 1.0 - 1.0 / grown;
    DivMulCancel(principal * m, d);
    assert payment * d == principal * m;
    Finlib.AnnuityClosedForm(m, n);
    LevelPaymentBalances(principal, m, payment, grown, u, d);
    BalanceClosedForm(principal, m, payment, n);
  }

  /** The algebra behind the payoff: with `payment * (1 - 1/X) == P*m` and
      `u*m == X - 1`, the grown principal equals the grown payments. */
  lemma LevelPaymentBalances(principal: real, m: real, payment: real, grown: real, u: real, d: real)
    requires grown != 0.0 && m != 0.0
    requires d == 1.0 - 1.0 / grown
    requires payment * d == principal * m
    requires u * m == grown - 1.0
    ensures principal * grown - payment * u == 0.0
  {
    assert d * grown == grown - 1.0 by {
      DivMulCancel(1.0, grown);
    }
    assert payment * (grown - 1.0) == principal * m * grown by {
      MulAssociative(payment, d, grown);
    }
    assert (principal * grown - payment * u) * m == 0.0 by {
      MulAssociative(payment, u, m);
    }
    MulCancel(principal * grown - payment * u, 0.0, m);
  }

  /** For a positive rate and loan term, the payment is defined, and on a
      positive loan each payment exceeds the first month's interest, so the
      balance falls from the first month. */
  lemma PaymentCoversInterest(principal: real, annualInterestRate: real, years: nat)
    requires annualInterestRate > 0.0 && years >= 1
    ensures CalculateMonthlyPayment(principal, annualInterestRate, years).Ok?
    ensures principal > 0.0 ==>
      CalculateMonthlyPayment(principal, annualInterestRate, years).value > principal * (annualInterestRate / 12.0)
  {
    var m := annualInterestRate / 12.0;
    var n := years * 12;
    PowAboveOne(1.0 + m, n);
    var grown := Pow(1.0 + m, n);
    var d := 1.0 - 1.0 / grown;
    DivBelowOne(1.0, grown);
    DivPositive(1.0, grown);
    if principal > 0.0 {
      MulPositive(principal, m);
      DivAntitone(principal * m, d, 1.0);
      assert (principal * m) / d != principal * m by {
        if (principal * m) / d == principal * m {
          DivMulCancel(principal * m, d);
          MulCancel(d, 1.0, principal * m);
        }
      }
    }
  }
}
