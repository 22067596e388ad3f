/** How an int64 node balance becomes the decimal(36,18) amount of an address_balance row.
    The decimal library divides with 16 fractional digits and rounds half away from zero;
    an amount is represented here by its integer number of units of 10^-16. */
module FixedPoint {
  const FRACTION_DIGITS: nat := 16
  const COLUMN_INTEGER_DIGITS: nat := 18
  const INT64_MIN: int := -0x8000_0000_0000_0000
  const INT64_MAX: int := 0x7FFF_FFFF_FFFF_FFFF

  function Pow10(n: nat): (r: nat)
    ensures r > 0
  {
    if n == 0 then 1 else 10 * Pow10(n - 1)
  }

  function Abs(x: int): nat {
    if x < 0 then -x else x
  }

  /** Integer division rounded to nearest, halves away from zero. */
  function RoundedQuotient(a: int, b: nat): int
    requires b > 0
  {
    if a >= 0 then (2 * a + b) / (2 * b) else -((2 * -a + b) / (2 * b))
  }

  /** The stored amount, in units of 10^-16, of balance n of an asset with precision p. */
  function Scale(n: int, p: nat): int {
    RoundedQuotient(n * Pow10(FRACTION_DIGITS), Pow10(p))
  }

  /** The column holds at most 18 digits before the point. */
  predicate FitsColumn(units: int) {
    Abs(units) < Pow10(COLUMN_INTEGER_DIGITS) * Pow10(FRACTION_DIGITS)
  }

  lemma QuotientNear(a: nat, b: nat)
    requires b > 0
    ensures var q := (2 * a + b) / (2 * b); -(b as int) <= 2 * (q * b - a) <= b
  {
    var q := (2 * a + b) / (2 * b);
    var r := (2 * a + b) % (2 * b);
    assert 2 * a + b == q * (2 * b) + r;
    assert q * (2 * b) == 2 * (q * b);
  }

  /** The rounding error is at most half a unit. */
  lemma RoundedNear(a: int, b: nat)
    requires b > 0
    ensures 2 * Abs(RoundedQuotient(a, b) * b - a) <= b
  {
    if a >= 0 {
      QuotientNear(a, b);
    } else {
      QuotientNear(-a, b);
      var q := (2 * -a + b) / (2 * b);
      assert (-q) * b == -(q * b);
    }
  }

  /** A multiple of b is divided exactly. */
  lemma RoundedExact(k: int, b: nat)
    requires b > 0
    ensures RoundedQuotient(k * b, b) == k
  {
    RoundedNear(k * b, b);
    var q := RoundedQuotient(k * b, b);
    assert q * b - k * b == (q - k) * b;
    FactorBound(q - k, b);
  }

  /** A product with a positive b is at least b away from zero unless the factor is zero. */
  lemma FactorBound(x: int, b: nat)
    requires b > 0
    ensures x >= 1 ==> x * b >= b
    ensures x <= -1 ==> x * b <= 0 - b
  {
    if x <= -1 {
      assert (-x) * b >= b;
      assert (-x) * b == -(x * b);
    }
  }

  lemma AbsProduct(x: int, b: nat)
    ensures Abs(x * b) == Abs(x) * b
  {
    if x < 0 {
      assert x * b == -((-x) * b);
      assert (-x) * b >= 0;
    } else {
      assert x * b >= 0;
    }
  }

  lemma {:induction false} Pow10Sum(m: nat, n: nat)
    ensures Pow10(m + n) == Pow10(m) * Pow10(n)
  {
    if m > 0 {
      Pow10Sum(m - 1, n);
      MulAssoc(10, Pow10(m - 1), Pow10(n));
    }
  }

  /** The stored amount times 10^p gives the node balance back exactly if and only if the
      precision is at most 16 or the digits below 10^(p-16) are zero; and in every case the
      error is at most half of the last stored unit. */
  lemma ScaleError(n: int, p: nat)
    ensures Scale(n, p) * Pow10(p) == n * Pow10(FRACTION_DIGITS)
            <==> p <= FRACTION_DIGITS || n % Pow10(p - FRACTION_DIGITS) == 0
    ensures 2 * Abs(Scale(n, p) * Pow10(p) - n * Pow10(FRACTION_DIGITS)) <= Pow10(p)
  {
    RoundedNear(n * Pow10(FRACTION_DIGITS), Pow10(p));
    if p <= FRACTION_DIGITS {
      var c := Pow10(FRACTION_DIGITS - p);
      Pow10Sum(FRACTION_DIGITS - p, p);
      assert n * Pow10(FRACTION_DIGITS) == (n * c) * Pow10(p) by { MulAssoc(n, c, Pow10(p)); }
      RoundedExact(n * c, Pow10(p));
    } else {
      WideScaleError(n, p);
    }
  }

  lemma MulAssoc(x: int, y: int, z: int)
    ensures x * (y * z) == (x * y) * z
  {
  }

  lemma WideScaleError(n: int, p: nat)
    requires p > FRACTION_DIGITS
    ensures Scale(n, p) * Pow10(p) == n * Pow10(FRACTION_DIGITS) <==> n % Pow10(p - FRACTION_DIGITS) == 0
  {
    var m, u := Pow10(FRACTION_DIGITS), Pow10(p - FRACTION_DIGITS);
    Pow10Sum(p - FRACTION_DIGITS, FRACTION_DIGITS);
    assert Pow10(p) == u * m;
    DivisionExact(n, u, m);
  }

  /** n * m is divided by u * m exactly if and only if u divides n. */
  lemma DivisionExact(n: int, u: nat, m: nat)
    requires u > 0 && m > 0 && u * m > 0
    ensures RoundedQuotient(n * m, u * m) * (u * m) == n * m <==> n % u == 0
  {
    var s := RoundedQuotient(n * m, u * m);
    MulAssoc(s, u, m);
    if n % u == 0 {
      var k := n / u;
      assert n == k * u;
      MulAssoc(k, u, m);
      RoundedExact(k, u * m);
    }
    if s * (u * m) == n * m {
      CancelFactor(s * u, n, m);
      MultipleHasNoRemainder(s, u);
    }
  }

  lemma CancelFactor(x: int, y: int, m: nat)
    requires m > 0 && x * m == y * m
    ensures x == y
  {
    assert (x - y) * m == x * m - y * m;
    FactorBound(x - y, m);
  }

  lemma MultipleHasNoRemainder(s: int, u: nat)
    requires u > 0
    ensures (s * u) % u == 0
  {
    var q, r := (s * u) / u, (s * u) % u;
    assert s * u == q * u + r;
    assert (s - q) * u == r;
    FactorBound(s - q, u);
  }

  lemma PowerFacts()
    ensures Pow10(0) == 1
    ensures Pow10(16) == 1_0000_0000_0000_0000
    ensures Pow10(18) == 100_0000_0000_0000_0000
  {
    assert Pow10(4) == 1_0000;
    assert Pow10(8) == 1_0000_0000 by { Pow10Sum(4, 4); }
    assert Pow10(16) == 1_0000_0000_0000_0000 by { Pow10Sum(8, 8); }
    assert Pow10(18) == 100 * Pow10(16);
  }

  lemma {:induction false} Pow10Positive(p: nat)
    requires p >= 1
    ensures Pow10(p) >= 10
  {
    if p > 1 {
      Pow10Positive(p - 1);
    }
  }

  /** Every int64 balance of an asset with precision at least 1 fits the column; with
      precision 0 exactly the balances below 10^18 do. */
  lemma ScaleFits(n: int, p: nat)
    requires INT64_MIN <= n <= INT64_MAX
    ensures FitsColumn(Scale(n, p)) <==> p >= 1 || Abs(n) < Pow10(COLUMN_INTEGER_DIGITS)
  {
    PowerFacts();
    var m := Pow10(16);
    if p == 0 {
      assert Scale(n, 0) == n * m by { RoundedExact(n * m, 1); }
      AbsProduct(n, m);
    } else {
      Pow10Positive(p);
      ScaleBelow(n, p);
    }
  }

  lemma ScaleBelow(n: int, p: nat)
    requires Pow10(p) >= 10
    ensures 10 * Abs(Scale(n, p)) <= Abs(n) * Pow10(16) + 5
  {
    var m, b := Pow10(16), Pow10(p);
    var s := Scale(n, p);
    RoundedNear(n * m, b);
    AbsProduct(n, m);
    AbsProduct(s, b);
    QuotientBound(Abs(s), Abs(n) * m, b);
  }

  lemma QuotientBound(s: nat, a: nat, b: nat)
    requires b >= 10
    requires 2 * (s * b) <= 2 * a + b
    ensures 10 * s <= a + 5
  {
    if s >= 1 {
      assert (2 * s - 1) * b >= (2 * s - 1) * 10;
      assert (2 * s - 1) * b == 2 * (s * b) - b;
    }
  }
}
