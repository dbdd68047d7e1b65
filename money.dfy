/**
 * Money arithmetic. Amounts are exact reals; the only rounding the source
 * performs is JavaScript's `Math.round`, which this module writes out.
 */
module Money {

  /** `Math.round(x)`: the nearest integer, halves rounded toward +infinity. */
  function RoundHalfUp(x: real): (n: int)
    ensures x - 0.5 < n as real <= x + 0.5
  {
    (x + 0.5).Floor
  }

  /** The integer nearest to `x` (halves up) is the only one in (x - 1/2, x + 1/2]. */
  lemma RoundHalfUpUnique(x: real, m: int)
    requires x - 0.5 < m as real <= x + 0.5
    ensures RoundHalfUp(x) == m
  {
    var n := RoundHalfUp(x);
    assert (n - m) as real < 1.0 && (m - n) as real < 1.0;
  }

  /** `Math.abs(x)`. */
  function Abs(x: real): (a: real)
    ensures a >= 0.0 && (a == x || a == -x)
  {
    if x < 0.0 then -x else x
  }

  /** `Math.round(x * 100) / 100`: `x` rounded to whole cents, halves up. */
  function Round2(x: real): (r: real)
    ensures x - 0.005 < r <= x + 0.005
    ensures (r * 100.0).Floor as real == r * 100.0
  {
    RoundHalfUp(x * 100.0) as real / 100.0
  }

  /** An amount that is already a whole number of cents is left alone. */
  lemma Round2OfCents(cents: int)
    ensures Round2(cents as real / 100.0) == cents as real / 100.0
  {
    RoundHalfUpUnique(cents as real / 100.0 * 100.0, cents);
  }

  /** Rounding to cents twice is rounding once. */
  lemma Round2Idempotent(x: real)
    ensures Round2(Round2(x)) == Round2(x)
  {
    var r := Round2(x);
    var cents := (r * 100.0).Floor;
    assert r == cents as real / 100.0;
    Round2OfCents(cents);
  }
}
