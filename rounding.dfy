/** JavaScript's `Math.round` on exact reals: to the nearest integer, halves upward. */
module Rounding {

  function Round(x: real): (r: int)
    ensures x - 0.5 < r as real <= x + 0.5
  {
    (x + 0.5).Floor
  }

  /** The nearest-integer property determines the rounded value. */
  lemma RoundUnique(x: real, n: int)
    requires x - 0.5 < n as real <= x + 0.5
    ensures Round(x) == n
  {
    var r := Round(x);
    assert r as real - n as real < 1.0 && n as real - r as real < 1.0;
  }

  lemma RoundMonotone(x: real, y: real)
    requires x <= y
    ensures Round(x) <= Round(y)
  {
    var a, b := Round(x), Round(y);
    assert a as real <= x + 0.5 < b as real + 1.0;
  }

  /** A percentage in [0, 100] rounds to a whole percentage in 0..100. */
  lemma RoundPercent(x: real)
    requires 0.0 <= x <= 100.0
    ensures 0 <= Round(x) <= 100
  {
    RoundMonotone(0.0, x);
    RoundMonotone(x, 100.0);
    RoundUnique(0.0, 0);
    RoundUnique(100.0, 100);
  }
}
