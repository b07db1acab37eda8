/** Facts about integer multiplication and Euclidean division that the
    solver does not find on its own. */
module Arith {
  lemma MulAtLeast(d: int, k: int)
    requires d > 0 && k >= 1
    ensures d * k >= d
  {
    assert d * k == d + d * (k - 1);
    assert d * (k - 1) >= 0;
  }

  /** Euclidean division is determined by its quotient and remainder. */
  lemma DivModUnique(x: int, d: int, q: int, r: int)
    requires d > 0 && x == d * q + r && 0 <= r < d
    ensures x / d == q && x % d == r
  {
    var q', r' := x / d, x % d;
    assert x == d * q' + r' && 0 <= r' < d;
    assert d * (q' - q) == r - r' by {
      assert d * q' - d * q == d * (q' - q);
    }
    if q' > q {
      MulAtLeast(d, q' - q);
    } else if q' < q {
      assert d * (q - q') == r' - r;
      MulAtLeast(d, q - q');
    }
  }

  /** The quotient and remainder of a natural number. */
  lemma DivModBounds(x: int, d: int)
    requires x >= 0 && d > 0
    ensures x == d * (x / d) + x % d && 0 <= x % d < d && 0 <= x / d
  {
  }

  /** Quotient and remainder of a division by a product, from the two
      successive divisions (stated without `/` and `%`). */
  lemma NestedDivision(x: int, a: int, b: int, q: int, r1: int, k: int, r2: int)
    requires a > 0 && b > 0
    requires x == a * q + r1 && 0 <= r1 < a
    requires q == b * k + r2 && 0 <= r2 < b
    ensures x == (b * a) * k + (a * r2 + r1)
    ensures 0 <= a * r2 + r1 < b * a
  {
    assert a * q == a * (b * k) + a * r2;
    assert a * (b * k) == (b * a) * k;
    assert a * r2 >= 0;
    assert a * (b - 1) - a * r2 == a * (b - 1 - r2);
    assert a * (b - 1 - r2) >= 0;
    assert a * (b - 1) == b * a - a;
  }

  /** Dividing by a and then by b is dividing by b * a; the remainder is zero
      exactly when both steps were exact. */
  lemma DivDiv(x: nat, a: nat, b: nat)
    requires a > 0 && b > 0
    ensures x / a / b == x / (b * a)
    ensures x % (b * a) == a * (x / a % b) + x % a
  {
    var q, r1 := x / a, x % a;
    var k, r2 := q / b, q % b;
    NestedDivision(x, a, b, q, r1, k, r2);
    DivModUnique(x, b * a, k, a * r2 + r1);
  }

  /** A floor quotient times the divisor does not exceed the dividend. */
  lemma FloorMul(x: nat, d: nat)
    requires d > 0
    ensures (x / d) * d <= x < (x / d + 1) * d
  {
    assert x == d * (x / d) + x % d;
  }

  lemma MulMonotone(a: int, b: int, d: int)
    requires a <= b && d >= 0
    ensures a * d <= b * d
  {
    assert b * d - a * d == (b - a) * d;
  }

  lemma MulCancelLess(a: int, b: int, d: int)
    requires d > 0 && a * d < b * d
    ensures a < b
  {
    if a >= b {
      MulMonotone(b, a, d);
    }
  }

  /** Scaling both sides of a division by the same positive factor. */
  lemma DivScale(n: nat, k: nat, c: nat)
    requires k > 0 && c > 0
    ensures (n * c) / (k * c) == n / k
  {
    var q, r := n / k, n % k;
    assert n == k * q + r;
    assert n * c == (k * c) * q + r * c;
    MulMonotone(r, k - 1, c);
    assert (k - 1) * c == k * c - c;
    DivModUnique(n * c, k * c, q, r * c);
  }

  /** A multiple of d divided by d. */
  lemma MulDivExact(a: nat, d: nat)
    requires d > 0
    ensures (a * d) / d == a && (a * d) % d == 0
  {
    DivModUnique(a * d, d, a, 0);
  }
}
