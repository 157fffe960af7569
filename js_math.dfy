/**
  JavaScript's `Math.floor` and `Math.round` on exact reals. `Math.round` rounds
  halves towards positive infinity, so it is floor(x + 0.5).
 */
module JsMath {

  /** `Math.floor(x)`: the greatest integer not above x. */
  function Floor(x: real): (n: int)
    ensures n as real <= x < n as real + 1.0
  {
    x.Floor
  }

  /** `Math.round(x)`: the nearest integer, halves going up. */
  function Round(x: real): (n: int)
    ensures x - 0.5 < n as real <= x + 0.5
  {
    Floor(x + 0.5)
  }

  /** Rounding never moves a value across an integer bound it already respects. */
  lemma RoundWithin(x: real, lo: int, hi: int)
    requires lo as real <= x <= hi as real
    ensures lo <= Round(x) <= hi
  {
  }
}
