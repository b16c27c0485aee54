/** Integer powers of reals, the only transcendental-free operation the
    projection formulas need: every exponent is a whole number of years. */
module Powers {

  /** x raised to the n-th power, as Python's `x ** n` for an int n >= 0. */
  function Pow(x: real, n: nat): real
  {
    if n == 0 then 1.0 else x * Pow(x, n - 1)
  }

  lemma {:induction false} PowPositive(x: real, n: nat)
    requires x > 0.0
    ensures Pow(x, n) > 0.0
  {
    if n > 0 {
      PowPositive(x, n - 1);
      MulPositive(x, Pow(x, n - 1));
    }
  }

  lemma {:induction false} PowOfOne(n: nat)
    ensures Pow(1.0, n) == 1.0
  {
    if n > 0 {
      PowOfOne(n - 1);
    }
  }

  lemma {:induction false} PowNonZero(x: real, n: nat)
    requires x != 0.0
    ensures Pow(x, n) != 0.0
  {
    if n > 0 {
      PowNonZero(x, n - 1);
    }
  }

  /** A base above one gives a power above one. */
  lemma {:induction false} PowAboveOne(x: real, n: nat)
    requires x > 1.0
    ensures n >= 1 ==> Pow(x, n) > 1.0
  {
    if n > 1 {
      PowAboveOne(x, n - 1);
      assert x * Pow(x, n - 1) > 1.0 * Pow(x, n - 1) by {
        MulStrictRight(1.0, x, Pow(x, n - 1));
      }
    }
  }

  /** A base strictly between zero and one gives a power strictly between. */
  lemma {:induction false} PowBetweenZeroAndOne(x: real, n: nat)
    requires 0.0 < x < 1.0 && n >= 1
    ensures 0.0 < Pow(x, n) < 1.0
  {
    if n > 1 {
      PowBetweenZeroAndOne(x, n - 1);
      MulPositive(x, Pow(x, n - 1));
      MulStrictRight(x, 1.0, Pow(x, n - 1));
    }
  }

  /** The power of a quotient, times the power of the divisor. */
  lemma {:induction false} PowQuotient(a: real, b: real, n: nat)
    requires b != 0.0
    ensures Pow(a / b, n) * Pow(b, n) == Pow(a, n)
  {
    if n > 0 {
      PowQuotient(a, b, n - 1);
      QuotientStep(a, b, Pow(a / b, n - 1), Pow(b, n - 1));
    }
  }

  lemma QuotientStep(a: real, b: real, p: real, q: real)
    requires b != 0.0
    ensures ((a / b) * p) * (b * q) == a * (p * q)
  {
    assert (a / b) * b == a;
    assert ((a / b) * p) * (b * q) == ((a / b) * b) * (p * q);
  }

  // Small facts of ordered-field arithmetic that the solver does not find
  // unaided in the proofs that use them.

  lemma MulPositive(a: real, b: real)
    requires a > 0.0 && b > 0.0
    ensures a * b > 0.0
  {
  }

  lemma MulNonNegative(a: real, b: real)
    requires a >= 0.0 && b >= 0.0
    ensures a * b >= 0.0
  {
  }

  lemma MulStrictRight(a: real, b: real, c: real)
    requires a < b && c > 0.0
    ensures a * c < b * c
  {
  }

  lemma MulMonotoneLeft(c: real, a: real, b: real)
    requires c >= 0.0 && a <= b
    ensures c * a <= c * b
  {
  }

  lemma AddLe(x: real, y: real, p: real, q: real)
    requires x <= y && p <= q
    ensures x + p <= y + q
  {
  }

  lemma MulAssociative(a: real, b: real, c: real)
    ensures (a * b) * c == a * (b * c)
  {
  }

  lemma MulCancel(a: real, b: real, c: real)
    requires c != 0.0 && a * c == b * c
    ensures a == b
  {
    assert (a - b) * c == 0.0;
  }

  lemma DivMulCancel(a: real, b: real)
    requires b != 0.0
    ensures (a / b) * b == a
  {
  }

  lemma DivNonNegative(a: real, b: real)
    requires a >= 0.0 && b > 0.0
    ensures a / b >= 0.0
  {
  }

  lemma DivPositive(a: real, b: real)
    requires a > 0.0 && b > 0.0
    ensures a / b > 0.0
  {
  }

  lemma DivIsMulInverse(a: real, b: real)
    requires b != 0.0
    ensures a / b == a * (1.0 / b)
  {
  }

  /** x < a / b when x * b < a, for a positive divisor. */
  lemma BelowQuotient(x: real, a: real, b: real)
    requires b > 0.0 && x * b < a
    ensures x < a / b
  {
    DivMulCancel(a, b);
    MulStrictCancel(x, a / b, b);
  }

  lemma MulStrictCancel(x: real, y: real, b: real)
    requires b > 0.0 && x * b < y * b
    ensures x < y
  {
  }

  /** Dividing a non-negative amount by a larger positive divisor gives less. */
  lemma DivAntitone(a: real, b: real, c: real)
    requires a >= 0.0 && 0.0 < b <= c
    ensures a / b >= a / c
  {
    DivMulCancel(a, b);
    DivMulCancel(a, c);
    DivNonNegative(a, c);
    MulMonotoneLeft(a / c, b, c);
    if a / b < a / c {
      MulStrictRight(a / b, a / c, b);
    }
  }

  /** Dividing by the same positive divisor keeps the order. */
  lemma DivMonotone(a: real, b: real, c: real)
    requires a <= b && c > 0.0
    ensures a / c <= b / c
  {
    DivMulCancel(a, c);
    DivMulCancel(b, c);
  }

  lemma DivCancel(a: real, b: real, c: real)
    requires c != 0.0 && a * c == b
    ensures b / c == a
  {
  }

  lemma DivBelowOne(a: real, b: real)
    requires b > 0.0 && 0.0 <= a < b
    ensures 0.0 <= a / b < 1.0
  {
    var q := a / b;
    assert q * b == a;
    if q >= 1.0 {
      MulMonotoneLeft(b, 1.0, q);
    }
    if q < 0.0 {
      MulStrictRight(q, 0.0, b);
    }
  }
}
