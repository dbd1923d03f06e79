/** The two JavaScript numeric conversions the game relies on, over exact reals. */
module JsMath {

  /** `x | 0` on a value well inside the 32-bit range: truncation toward zero. */
  function Trunc(x: real): (n: int)
    ensures 0.0 <= x ==> 0 <= n && n as real <= x < n as real + 1.0
    ensures x < 0.0 ==> n <= 0 && n as real - 1.0 < x <= n as real
  {
    if x >= 0.0 then x.Floor else -((-x).Floor)
  }

  /** `Math.round`: the nearest integer, halves rounded up (toward +infinity). */
  function Round(x: real): (n: int)
    ensures n as real - 0.5 <= x < n as real + 0.5
  {
    (x + 0.5).Floor
  }

  /** Rounding commutes with a shift by a whole number of cells. */
  lemma RoundShift(x: real, k: int)
    ensures Round(x - k as real) == Round(x) - k
  {
  }
}
