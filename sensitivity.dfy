/**
 * Cursor speed: the three-tier cycle of the speed-change button and the
 * clamped adjustment of the sensitivity buttons. The cursor speed is always
 * the base speed times the multiplier.
 */
module Sensitivity {
  const BaseSpeed: real := 0.000002
  const SpeedLow: real := 0.5
  const SpeedMed: real := 1.0
  const SpeedHigh: real := 2.0
  const MinMultiplier: real := 0.001
  const MaxMultiplier: real := 10.0

  predicate IsTier(m: real) {
    m == SpeedLow || m == SpeedMed || m == SpeedHigh
  }

  /** The multiplier after one press of the speed-change button. */
  function NextMultiplier(m: real): (r: real)
    ensures IsTier(r)
  {
    if m <= SpeedLow then SpeedMed
    else if m <= SpeedMed then SpeedHigh
    else SpeedLow
  }

  /** Every multiplier moves up one tier, and the top tier wraps to the bottom. */
  lemma NextMultiplierTiers(m: real)
    ensures m <= SpeedLow ==> NextMultiplier(m) == SpeedMed
    ensures SpeedLow < m <= SpeedMed ==> NextMultiplier(m) == SpeedHigh
    ensures SpeedMed < m ==> NextMultiplier(m) == SpeedLow
  {
  }

  /** From 1.0, three presses give 2.0, then 0.5, then 1.0 again. */
  lemma SpeedCycleFromMedium()
    ensures NextMultiplier(SpeedMed) == SpeedHigh
    ensures NextMultiplier(NextMultiplier(SpeedMed)) == SpeedLow
    ensures NextMultiplier(NextMultiplier(NextMultiplier(SpeedMed))) == SpeedMed
  {
  }

  /**
   * After the first press the multiplier is on the cycle, and from there
   * every three presses return to the same tier, visiting all three.
   */
  lemma SpeedCyclePeriod(m: real)
    ensures var a := NextMultiplier(m);
            var b := NextMultiplier(a);
            var c := NextMultiplier(b);
            NextMultiplier(c) == a && a != b && b != c && c != a
  {
  }

  function Max(a: real, b: real): real { if a >= b then a else b }
  function Min(a: real, b: real): real { if a <= b then a else b }

  /** `max(0.001, min(10.0, m + delta))`, the sensitivity adjustment. */
  function Clamp(m: real, delta: real): (r: real)
    ensures MinMultiplier <= r <= MaxMultiplier
    ensures MinMultiplier <= m + delta <= MaxMultiplier ==> r == m + delta
    ensures m + delta > MaxMultiplier ==> r == MaxMultiplier
    ensures m + delta < MinMultiplier ==> r == MinMultiplier
  {
    Max(MinMultiplier, Min(MaxMultiplier, m + delta))
  }

  /** Asking for 15.0 gives 10.0; asking for -3.0 gives 0.001. */
  lemma ClampExamples()
    ensures Clamp(1.0, 14.0) == 10.0
    ensures Clamp(1.0, -4.0) == 0.001
    ensures Clamp(1.0, 0.01) == 1.01
  {
  }
}
