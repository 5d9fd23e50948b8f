/** Powers of ten and the division facts both converters rely on when they
    cut an amount into groups of digits. Dafny's `/` and `%` on `int` are
    Euclidean; every divisor here is positive, so they agree with the floor
    and remainder that Python's `Decimal` and Go's truncating `Div` compute on
    the non-negative amounts that reach them. */
module Arith {

  function Pow10(e: nat): (r: nat)
    ensures r >= 1
    ensures e > 0 ==> r % 10 == 0
  {
    if e == 0 then 1 else 10 * Pow10(e - 1)
  }

  /** The powers the currency tables use. */
  lemma Pow10Small()
    ensures Pow10(1) == 10 && Pow10(2) == 100 && Pow10(9) == 1_000_000_000
  {
  }

  lemma {:induction false} Pow10Add(a: nat, b: nat)
    ensures Pow10(a + b) == Pow10(a) * Pow10(b)
  {
    if a > 0 {
      Pow10Add(a - 1, b);
      assert Pow10(a + b) == 10 * Pow10(a - 1 + b);
    }
  }

  /** Quotient and remainder are determined by the division equation. */
  lemma DivModUnique(n: int, d: int, q: int, r: int)
    requires d > 0 && 0 <= r < d && n == q * d + r
    ensures q == n / d && r == n % d
  {
    var q', r' := n / d, n % d;
    assert n == q' * d + r';
    var k := q - q';
    assert k * d == r' - r by {
      assert k * d == q * d - q' * d;
    }
    if k >= 1 {
      MulAtLeast(k, d);
    } else if k <= -1 {
      MulAtLeast(-k, d);
    }
  }

  lemma MulAtLeast(k: int, d: int)
    requires k >= 1 && d > 0
    ensures k * d >= d
  {
    assert k * d == d + (k - 1) * d;
  }

  /** Dividing by a product of two positive numbers is dividing twice, and
      the remainder modulo the product, divided by the inner factor, is the
      next group of digits. */
  lemma DivModNested(n: int, a: int, b: int)
    requires a > 0 && b > 0
    ensures n / (a * b) == (n / b) / a
    ensures (n % (a * b)) / b == (n / b) % a
    ensures (n % (a * b)) % b == n % b
  {
    var q1, r1 := n / b, n % b;
    var q2, r2 := q1 / a, q1 % a;
    var r := b * r2 + r1;
    assert n == (a * b) * q2 + r by {
      assert n == q1 * b + r1;
      Regroup(q2, a, r2, b);
    }
    assert 0 <= r < a * b by {
      MulMono(b, r2, a - 1);
      assert b * (a - 1) == a * b - b;
    }
    DivModUnique(n, a * b, q2, r);
    assert r == r2 * b + r1;
    DivModUnique(n % (a * b), b, r2, r1);
  }

  lemma Regroup(q: int, a: int, r: int, b: int)
    ensures (q * a + r) * b == (a * b) * q + (b * r)
  {
    assert (q * a + r) * b == (q * a) * b + r * b;
    assert (q * a) * b == (a * b) * q;
  }

  lemma MulMono(b: int, x: int, y: int)
    requires b >= 0 && x <= y
    ensures b * x <= b * y
  {
    assert b * y - b * x == b * (y - x);
  }

  /** A number below the divisor is its own remainder and has quotient 0. */
  lemma SmallDivMod(n: int, d: int)
    requires 0 <= n < d
    ensures n / d == 0 && n % d == n
  {
    DivModUnique(n, d, 0, n);
  }

  /** Taking off every whole `d` leaves the remainder. */
  lemma SubQuotient(n: int, d: int)
    requires d > 0
    ensures n - (n / d) * d == n % d
  {
  }
}
