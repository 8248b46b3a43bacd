/**
 * Facts about Dafny's Euclidean remainder, used by the cyclic-shift edge
 * rule `(element + generator) % n`. For the non-negative operands that rule
 * sees, JavaScript's truncating `%` and Dafny's Euclidean `%` agree.
 */
module Modular {

  /** The remainder and quotient are determined by any decomposition x == q * n + r with r in [0, n). */
  lemma ModUnique(x: int, n: int, q: int, r: int)
    requires 0 < n && 0 <= r < n && x == q * n + r
    ensures x % n == r && x / n == q
  {
    var q', r' := x / n, x % n;
    assert (q - q') * n == r' - r;
    if q - q' >= 1 {
      assert (q - q') * n >= n by { MulMonotone(q - q', n); }
    } else if q - q' <= -1 {
      assert (q' - q) * n >= n by { MulMonotone(q' - q, n); }
    }
  }

  lemma MulMonotone(k: int, n: int)
    requires k >= 1 && n > 0
    ensures k * n >= n
  {
  }

  /** Adding a multiple of n does not change the remainder. */
  lemma ModAddMultiple(x: int, k: int, n: int)
    requires 0 < n
    ensures (x + k * n) % n == x % n
  {
    assert x == (x / n) * n + x % n;
    assert x + k * n == (x / n + k) * n + x % n;
    ModUnique(x + k * n, n, x / n + k, x % n);
  }

  /** Below 2n the remainder is a single conditional subtraction. */
  lemma ModBelowTwice(x: int, n: int)
    requires 0 < n && 0 <= x
    ensures x < 2 * n ==> x % n == if x < n then x else x - n
  {
    if x < n {
      ModUnique(x, n, 0, x);
    } else if x < 2 * n {
      ModUnique(x, n, 1, x - n);
    }
  }

  /** Only the remainder of the second summand matters. */
  lemma ModAddReduce(x: int, y: int, n: int)
    requires 0 < n
    ensures (x + y) % n == (x + y % n) % n
  {
    assert y == (y / n) * n + y % n;
    ModAddMultiple(x + y % n, y / n, n);
  }

  /** One more summand of a product. */
  lemma MulStep(k: int, g: int)
    ensures (k - 1) * g + g == k * g
  {
  }
}
