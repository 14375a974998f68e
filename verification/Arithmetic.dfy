/** Facts about products, quotients and words that several modules need. */
module Arithmetic {

  const TWO32: nat := 0x1_0000_0000

  lemma DivideBounds(a: nat, n: nat)
    requires n > 0
    ensures (a / n) * n <= a < (a / n) * n + n
  {
  }

  lemma ProductAtMost(a: nat, b: nat, c: nat, d: nat)
    requires a <= c && b <= d
    ensures a * b <= c * d
  {
    assert c * d == a * b + a * (d - b) + (c - a) * d;
  }

  lemma QuotientIs(a: nat, n: nat, q: nat)
    requires n > 0 && q * n <= a < q * n + n
    ensures a / n == q
  {
    DivideBounds(a, n);
    var d := a / n;
    assert (d + 1) * n == d * n + n && (q + 1) * n == q * n + n;
    if d < q {
      ProductAtMost(d + 1, n, q, n);
    } else if d > q {
      ProductAtMost(q + 1, n, d, n);
    }
  }

  lemma QuotientMonotone(a: nat, b: nat, n: nat)
    requires n > 0 && a <= b
    ensures a / n <= b / n
  {
    DivideBounds(a, n);
    DivideBounds(b, n);
    var p, q := a / n, b / n;
    assert (q + 1) * n == q * n + n;
    if q < p {
      ProductAtMost(q + 1, n, p, n);
    }
  }

  lemma ModUnique(a: int, n: nat, q: int, r: int)
    requires n > 0 && a == q * n + r && 0 <= r < n
    ensures a % n == r
  {
    var q' := a / n;
    assert a == q' * n + a % n;
    assert (q' - q) * n == q' * n - q * n && (q - q') * n == q * n - q' * n;
    if q > q' {
      ProductAtMost(1, n, q - q', n);
    } else if q < q' {
      ProductAtMost(1, n, q' - q, n);
    }
  }

  lemma Negate(a: int, b: int)
    ensures (-a) * b == -(a * b) && b * (-a) == -(b * a)
  {
  }

  lemma TwiceProduct(a: int, b: int)
    ensures 2 * a * b == 2 * (a * b)
  {
  }

  lemma Distribute(a: int, b: int, n: int)
    ensures (a + b) * n == a * n + b * n
  {
  }
}
