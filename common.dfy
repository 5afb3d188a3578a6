/**
 * Shared vocabulary of the model: an optional value, one value of the
 * browser's random number generator, and the integer forms of the
 * `Math.round` / `Math.floor` expressions the application uses.
 */
module Common {

  datatype Option<T> = None | Some(value: T)

  /** One result of `Math.random()`: a number in [0, 1). */
  type Draw = r: real | 0.0 <= r < 1.0

  /**
   * An endless source of `Math.random()` results: the i-th call made by an
   * operation returns `rand(start + i)`, where `start` is where it begins.
   */
  type Stream = nat -> Draw

  /**
   * `Math.floor(r * n)`: the index a draw selects in a list of length n.
   * For a non-empty list the index is always in range.
   */
  function ScaledIndex(r: Draw, n: nat): (k: nat)
    ensures n > 0 ==> k < n
    ensures n == 0 ==> k == 0
    ensures k as real <= r * n as real < k as real + 1.0
  {
    ScaledBelow(r, n);
    (r * n as real).Floor
  }

  lemma ScaledBelow(r: Draw, n: nat)
    ensures 0.0 <= r * n as real
    ensures n > 0 ==> r * n as real < n as real
  {
    if n > 0 {
      assert r * n as real < 1.0 * n as real;
    }
  }

  /** The draw `k / n` selects entry k of a list of length n: every entry can be chosen. */
  lemma {:induction false} ScaledIndexReaches(k: nat, n: nat)
    requires k < n
    ensures 0.0 <= k as real / n as real < 1.0
    ensures ScaledIndex(k as real / n as real, n) == k
  {
    var r := k as real / n as real;
    assert r * n as real == k as real;
  }

  /**
   * `Math.round(a / b)` for b > 0, that is floor(a / b + 1/2): the
   * integer nearest to a / b, halves rounded up.
   */
  function RoundDiv(a: int, b: int): (r: int)
    requires b > 0
    ensures 2 * b * r <= 2 * a + b < 2 * b * (r + 1)
  {
    (2 * a + b) / (2 * b)
  }

  /** RoundDiv is the unique integer with the rounding property. */
  lemma {:induction false} RoundDivUnique(a: int, b: int, r: int)
    requires b > 0
    requires 2 * b * r <= 2 * a + b < 2 * b * (r + 1)
    ensures r == RoundDiv(a, b)
  {
    var q := RoundDiv(a, b);
    CancelFactor(2 * b, r, q + 1);
    CancelFactor(2 * b, q, r + 1);
  }

  /** Rounding a quotient of values in [lo, hi] stays in [lo, hi]. */
  lemma {:induction false} RoundDivBounds(a: int, b: int, lo: int, hi: int)
    requires b > 0
    requires lo * b <= a <= hi * b
    ensures lo <= RoundDiv(a, b) <= hi
  {
    var r := RoundDiv(a, b);
    CancelFactor(2 * b, 2 * lo - 1, 2 * r + 1);
    CancelFactor(b, 2 * r - 1, 2 * hi + 1);
  }

  /** A positive factor can be cancelled from a strict inequality. */
  lemma CancelFactor(b: int, x: int, y: int)
    requires b > 0 && b * x < b * y
    ensures x < y
  {
    assert b * (y - x) > 0;
  }

  /** No element occurs twice. */
  predicate NoRepeats<T(==)>(xs: seq<T>)
  {
    forall i, j :: 0 <= i < j < |xs| ==> xs[i] != xs[j]
  }

  function Min(a: int, b: int): int { if a <= b then a else b }

  function Max(a: int, b: int): int { if a >= b then a else b }
}
