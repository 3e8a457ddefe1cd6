/** Products and quotients of natural numbers, one fact at a time. */
module Arithmetic {
  lemma MulMonotone(a: nat, b: nat, k: nat)
    requires a <= b
    ensures a * k <= b * k
  {
  }

  lemma DivAtMost(n: nat, q: nat, d: nat)
    requires d > 0 && n <= q * d
    ensures n / d <= q
  {
    if n / d > q {
      MulMonotone(q + 1, n / d, d);
    }
  }

  lemma FloorIsUnique(n: nat, d: nat, q: nat)
    requires d > 0 && q * d <= n < q * d + d
    ensures n / d == q
  {
    var r := n / d;
    if r < q {
      MulMonotone(r + 1, q, d);
    } else if r > q {
      MulMonotone(q + 1, r, d);
    }
  }

  lemma DivBounds(n: nat, d: nat)
    requires d > 0
    ensures n / d * d <= n < n / d * d + d
  {
  }

  lemma AddTimes(k: nat, q: nat, d: nat)
    ensures (k + q) * d == k * d + q * d
  {
  }

  /** Dividing twice is dividing by the product. */
  lemma DivTwice(n: nat, a: nat, b: nat, product: nat)
    requires a > 0 && b > 0 && product == a * b
    ensures product > 0 && n / a / b == n / product
  {
    var q := n / a / b;
    PositiveProduct(a, b);
    DivBounds(n, a);
    DivBounds(n / a, b);
    Regroup(q, b, a);
    MulMonotone(q * b, n / a, a);
    MulMonotone(n / a + 1, q * b + b, a);
    AddTimes(q * b, b, a);
    AddTimes(n / a, 1, a);
    FloorIsUnique(n, product, q);
  }

  lemma PositiveProduct(a: nat, b: nat)
    requires a > 0 && b > 0
    ensures a * b > 0
  {
  }

  lemma Regroup(q: nat, b: nat, a: nat)
    ensures q * b * a == q * (a * b)
  {
  }
}
