/**
 * The rounding helpers every provider applies to temperatures and pressure. JSON numbers are
 * held as exact reals, so the binary floating-point error of the original is not modelled.
 */
module Utils {
  import opened ProviderStrategy

  /** The `10 ** (-9)` nudge added before rounding. */
  const Nudge: real := 1.0 / 1000000000.0

  /** Python's built-in `round(y)`: to the nearest integer, ties to the even one. */
  function RoundHalfEven(y: real): (n: int)
    ensures y - 0.5 <= n as real <= y + 0.5
  {
    var f := y.Floor;
    var frac := y - f as real;
    if frac < 0.5 then f
    else if frac > 0.5 then f + 1
    else if f % 2 == 0 then f
    else f + 1
  }

  /** `math_round`: `round(digit + 10 ** (-9))`, which makes a tie round up. */
  function MathRound(x: real): (n: int)
    ensures x - 0.5 < n as real <= x + 0.5 + Nudge
  {
    RoundHalfEven(x + Nudge)
  }

  /** The promise of the helper's documentation: halves round up, unlike Python's `round`. */
  lemma MathRoundHalfUp(n: int)
    ensures MathRound(n as real + 0.5) == n + 1
  {
    var y := n as real + 0.5 + Nudge;
    assert y.Floor == n;
  }

  /** An integral value is its own rounding. */
  lemma MathRoundWhole(n: int)
    ensures MathRound(n as real) == n
  {
    var y := n as real + Nudge;
    assert y.Floor == n;
  }

  /**
   * The examples of the helper's documentation. The documentation lists 9.19 -> 10, but the
   * code rounds 9.19 to 9; the other seven examples agree with the code.
   */
  lemma MathRoundExamples()
    ensures MathRound(0.4) == 0 && MathRound(0.5) == 1 && MathRound(0.1) == 0
    ensures MathRound(1.2) == 1 && MathRound(1.4) == 1 && MathRound(1.5) == 2
    ensures MathRound(9.19) == 9 && MathRound(13.1) == 13
  {
    assert (0.4 + Nudge).Floor == 0;
    assert (0.5 + Nudge).Floor == 0;
    assert (0.1 + Nudge).Floor == 0;
    assert (1.2 + Nudge).Floor == 1;
    assert (1.4 + Nudge).Floor == 1;
    assert (1.5 + Nudge).Floor == 1;
    assert (9.19 + Nudge).Floor == 9;
    assert (13.1 + Nudge).Floor == 13;
  }

  /** `hpa_to_mm_hg_converter`: truncate to whole hPa, convert at 1 hPa = 0.75006 mmHg, round. */
  function HpaToMmHg(hpa: real): (mm: int)
    ensures var whole := Truncate(hpa) as real; whole * 0.75006 - 0.5 < mm as real <= whole * 0.75006 + 0.5 + Nudge
  {
    MathRound(Truncate(hpa) as real * 0.75006)
  }

  /** Standard pressure, 1013 hPa, reads 760 mmHg; the fraction of an hPa is dropped first. */
  lemma StandardPressure()
    ensures HpaToMmHg(1013.0) == 760
    ensures HpaToMmHg(1013.9) == 760
  {
    assert Truncate(1013.9) == 1013;
    assert (1013.0 * 0.75006 + Nudge).Floor == 759;
  }
}
