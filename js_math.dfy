/**
 * The JavaScript arithmetic idioms the components share, over exact reals:
 * a `Math.random()` draw is a real r with 0 <= r < 1, `Math.floor` is `.Floor`
 * and `Math.round` rounds half up.
 */
module JsMath {

  /** The range of `Math.random()`. */
  predicate IsUnit(r: real) {
    0.0 <= r < 1.0
  }

  /** `Math.floor(r * n)`: the index drawn by `table[Math.floor(Math.random() * table.length)]`. */
  function ScaledIndex(r: real, n: nat): (k: int)
    requires IsUnit(r) && n > 0
    ensures 0 <= k < n
  {
    assert r * n as real < n as real by {
      assert (1.0 - r) * n as real > 0.0;
    }
    (r * n as real).Floor
  }

  /** A uniformly drawn element of a non-empty table. */
  function Pick<T>(table: seq<T>, r: real): (x: T)
    requires |table| > 0 && IsUnit(r)
    ensures x in table
  {
    table[ScaledIndex(r, |table|)]
  }

  /** `Math.floor(Math.random() * 30) + 70`, the simulated detection confidence. */
  function RandomConfidence(r: real): (c: int)
    requires IsUnit(r)
    ensures 70 <= c <= 99
  {
    ScaledIndex(r, 30) + 70
  }

  /** `Math.round(x)`: the nearest integer, halves rounded up. */
  function Round(x: real): (n: int)
    ensures x - 0.5 < n as real <= x + 0.5
  {
    (x + 0.5).Floor
  }

  /** A probability turned into a whole percentage stays within 0..100. */
  lemma RoundedPercentInRange(p: real)
    requires 0.0 <= p <= 1.0
    ensures 0 <= Round(p * 100.0) <= 100
  {
  }
}
