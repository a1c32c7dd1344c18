/**
  Products of reals. Each fact stands alone, with the products it speaks of as parameters, so that proofs
  about gains never put several products before the solver at once.
 */
module Reals {

  lemma NonNegative(a: real, b: real)
    requires a >= 0.0 && b >= 0.0
    ensures a * b >= 0.0
  {
  }

  lemma Distribute(a: real, b: real, c: real)
    ensures a * (b + c) == a * b + a * c && a * (b - c) == a * b - a * c && (b - c) * a == b * a - c * a
  {
  }

  lemma Fraction(n: nat, d: nat, q: real)
    requires d > 0 && n <= d && q == n as real / d as real
    ensures 0.0 <= q <= 1.0
  {
    assert q * d as real == n as real;
    if q < 0.0 {
      NonNegative(-q, d as real);
    } else if q > 1.0 {
      NonNegative(q - 1.0, d as real);
    }
  }

  lemma Scaled(r: real, a: real, bound: real, ra: real, share: real)
    requires 0.0 <= r && -bound <= a <= bound && ra == r * a && share == r * bound
    ensures -share <= ra <= share
  {
    NonNegative(r, bound - a);
    NonNegative(r, a + bound);
    Distribute(r, bound, a);
    Distribute(r, a, bound);
  }

  /** A factor up to one keeps a value within its bound. */
  lemma Softer(x: real, factor: real, product: real, bound: real)
    requires -bound <= x <= bound && 0.0 <= factor <= 1.0 && product == factor * x
    ensures -bound <= product <= bound
  {
    var share := factor * bound;
    Scaled(factor, x, bound, product, share);
    NonNegative(bound, 1.0 - factor);
    Distribute(bound, 1.0, factor);
  }
}
