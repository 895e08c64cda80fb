/**
 Integer rounding of exact reals: `Math.ceil` and the two-decimal rounding
 performed by `parseFloat(x.toFixed(2))`.
 */
module Numeric {

  /** `Math.ceil`: the least integer that is not below `x`. */
  function Ceil(x: real): (n: int)
    ensures (n - 1) as real < x <= n as real
  {
    -((-x).Floor)
  }

  /** Only one integer sits in the window that `Ceil` promises. */
  lemma CeilUnique(x: real, m: int)
    requires (m - 1) as real < x <= m as real
    ensures m == Ceil(x)
  {
  }

  lemma CeilMonotone(x: real, y: real)
    requires x <= y
    ensures Ceil(x) <= Ceil(y)
  {
  }

  /**
   The integer `n` that `toFixed(2)` picks: the one for which `n / 100` is
   closest to `x`. The sign is taken off first and a tie goes to the larger
   magnitude, so halves round away from zero.
   */
  function Hundredths(x: real): (n: int)
    ensures x >= 0.0 ==> n as real - 0.5 <= 100.0 * x < n as real + 0.5
    ensures x < 0.0 ==> n as real - 0.5 < 100.0 * x <= n as real + 0.5
  {
    if x < 0.0 then -(100.0 * -x + 0.5).Floor else (100.0 * x + 0.5).Floor
  }

  /** `parseFloat(x.toFixed(2))` on an exact real. */
  function Round2(x: real): (r: real)
    ensures r * 100.0 == Hundredths(x) as real
    ensures -0.005 <= r - x <= 0.005
  {
    Hundredths(x) as real / 100.0
  }

  /** A whole number of hundredths. */
  predicate IsHundredths(r: real) {
    (r * 100.0).Floor as real == r * 100.0
  }

  /** No multiple of 0.01 is strictly closer to `x` than `Round2(x)`. */
  lemma Round2Nearest(x: real, k: int)
    ensures IsHundredths(Round2(x))
    ensures Abs(Round2(x) - x) <= Abs(k as real / 100.0 - x)
  {
    var n := Hundredths(x);
    if k < n {
      assert k as real <= n as real - 1.0;
    } else if k > n {
      assert k as real >= n as real + 1.0;
    }
  }

  /** Values already on a hundredth are left as they are. */
  lemma Round2Exact(x: real)
    requires IsHundredths(x)
    ensures Round2(x) == x
  {
    var k := (x * 100.0).Floor;
    assert k as real == 100.0 * x;
    if x >= 0.0 {
      assert Hundredths(x) == k;
    } else {
      assert Hundredths(x) == k;
    }
  }

  /** Rounding never reverses the order of two values. */
  lemma Round2Monotone(x: real, y: real)
    requires x <= y
    ensures Round2(x) <= Round2(y)
  {
    var a, b := Hundredths(x), Hundredths(y);
    if a > b {
      assert a as real >= b as real + 1.0;
    }
  }

  function Abs(x: real): (r: real)
    ensures r >= 0.0
    ensures r == x || r == -x
  {
    if x < 0.0 then -x else x
  }
}
