/** Facts about Euclidean division on non-negative integers that the solver does not find alone. */
module Arith {

  function Min(a: int, b: int): int { if a < b then a else b }

  /** Quotient and remainder are unique. */
  lemma DivModUnique(n: int, d: int, q: int, r: int)
    requires d > 0 && 0 <= r < d && n == d * q + r
    ensures n / d == q && n % d == r
  {
    var q', r' := n / d, n % d;
    assert n == d * q' + r';
    if q' < q {
      assert d * (q - q') == r' - r;
      assert d * (q - q') >= d by { MulAtLeast(d, q - q'); }
    } else if q' > q {
      assert d * (q' - q) == r - r';
      assert d * (q' - q) >= d by { MulAtLeast(d, q' - q); }
    }
  }

  lemma MulAtLeast(d: int, k: int)
    requires d > 0 && k >= 1
    ensures d * k >= d
  {
  }

  /** Dividing twice is dividing by the product, and the remainder by the product is made of
      the two remainders (mixed-radix digits). */
  lemma DivDiv(n: nat, a: nat, b: nat)
    requires a > 0 && b > 0
    ensures a * b > 0
    ensures (n / a) / b == n / (a * b)
    ensures n % (a * b) == n % a + a * ((n / a) % b)
  {
    var q1, r1 := n / a, n % a;
    var q2, r2 := q1 / b, q1 % b;
    assert n == a * q1 + r1;
    assert q1 == b * q2 + r2;
    assert a * q1 == (a * b) * q2 + a * r2 by { Distrib(a, b * q2, r2); }
    assert a * r2 + r1 < a * b by { MulMono(a, r2, b - 1); }
    DivModUnique(n, a * b, q2, a * r2 + r1);
  }

  lemma Distrib(a: int, x: int, y: int)
    ensures a * (x + y) == a * x + a * y
  {
  }

  lemma MulSucc(k: int, d: int)
    ensures (k + 1) * d == k * d + d
  {
  }

  lemma MulMono(a: nat, x: nat, y: nat)
    requires x <= y
    ensures a * x <= a * y
  {
  }

  /** A multiple divided by its factor. */
  lemma MulDiv(k: nat, d: nat)
    requires d > 0
    ensures (k * d) / d == k && (k * d) % d == 0
  {
    DivModUnique(k * d, d, k, 0);
  }

  /** Adding the divisor adds one to the quotient. */
  lemma DivPlusDivisor(n: nat, d: nat)
    requires d > 0
    ensures (n + d) / d == n / d + 1
  {
    DivModUnique(n + d, d, n / d + 1, n % d);
  }
}
