/** Facts about Euclidean division and mixed-radix numbers that the index
    encoding of the lattice relies on. */
module Arith {

  lemma MulMonotone(a: int, b: int, m: int)
    requires a <= b && m >= 0
    ensures a * m <= b * m
  {
    assert b * m - a * m == (b - a) * m;
  }

  lemma MulSucc(a: int, m: int)
    ensures (a + 1) * m == a * m + m
  {
  }

  lemma MulAssociative(a: int, b: int, c: int, d: int)
    ensures a * (b * (c * d)) == a * b * c * d
  {
  }

  /** Quotient and remainder are unique: q * d + r with 0 <= r < d divides back into q and r. */
  lemma DivModUnique(x: int, d: int, q: int, r: int)
    requires d >= 1 && 0 <= r < d && x == q * d + r
    ensures x / d == q && x % d == r
  {
    var q', r' := x / d, x % d;
    assert x == q' * d + r';
    if q' < q {
      assert (q - q') * d == r' - r;
      MulMonotone(1, q - q', d);
    } else if q' > q {
      assert (q' - q) * d == r - r';
      MulMonotone(1, q' - q, d);
    }
  }

  /** A digit a < A followed by a digit b < B gives a number below A * B. */
  lemma MixedRadixBound(a: int, A: int, b: int, B: int)
    requires 0 <= a < A && 0 <= b < B
    ensures 0 <= a * B + b < A * B
  {
    MulMonotone(0, a, B);
    MulMonotone(a + 1, A, B);
    assert (a + 1) * B == a * B + B;
  }

  /** Dividing a number below A * d by d gives a quotient below A. */
  lemma DivBound(x: int, d: int, A: int)
    requires d >= 1 && 0 <= x < A * d
    ensures 0 <= x / d < A
  {
    var q := x / d;
    assert x == q * d + x % d;
    if q < 0 {
      MulMonotone(q, -1, d);
    } else if q >= A {
      MulMonotone(A, q, d);
    }
  }
}
