/** Integer facts shared by the grid and the paging model. */
module Arith {

  /** Euclidean division is determined by its quotient and remainder. */
  lemma DivModUnique(a: int, d: int, q: int, r: int)
    requires d > 0 && 0 <= r < d && a == q * d + r
    ensures a / d == q && a % d == r
  {
    var q', r' := a / d, a % d;
    assert a == q' * d + r';
    assert (q - q') * d == r' - r;
    if q - q' >= 1 {
      MulAtLeast(q - q', d);
    } else if q' - q >= 1 {
      MulAtLeast(q' - q, d);
    }
  }

  lemma MulAtLeast(x: int, d: int)
    requires x >= 1 && d > 0
    ensures x * d >= d
  {
    assert x * d == (x - 1) * d + d;
  }

  /** An index (i, j) of a row-major i-by-inner walk lies before the end of an outer-by-inner one. */
  lemma IndexBelow(i: int, j: int, outer: int, inner: int)
    requires 0 <= i < outer && 0 <= j < inner
    ensures 0 <= i * inner + j < outer * inner
  {
    assert (i + 1) * inner <= outer * inner by {
      assert (outer - (i + 1)) * inner >= 0;
    }
  }

  /** A negative product with a positive factor has a negative other factor. */
  lemma NegativeFactor(x: int, d: int)
    requires d > 0 && x * d < 0
    ensures x < 0
  {
  }

  /** Counting up by one advances the remainder by one, or wraps it to zero. */
  lemma DivModNext(a: int, d: int)
    requires d > 0
    ensures (a + 1) % d == if a % d + 1 == d then 0 else a % d + 1
    ensures (a + 1) / d == if a % d + 1 == d then a / d + 1 else a / d
  {
    var q, r := a / d, a % d;
    assert a == q * d + r;
    if r + 1 == d {
      DivModUnique(a + 1, d, q + 1, 0);
    } else {
      DivModUnique(a + 1, d, q, r + 1);
    }
  }

  /** A quotient of an index below outer * inner is below outer. */
  lemma DivBelow(k: nat, outer: nat, inner: nat)
    requires inner > 0 && k < outer * inner
    ensures k / inner < outer
  {
    var q := k / inner;
    assert k == q * inner + k % inner;
    assert (q - outer) * inner < 0;
    NegativeFactor(q - outer, inner);
  }
}
