/**
 * Distance conversion of the ultrasonic ranger (src/Sonar.cpp).
 * The echo pulse width, in microseconds, is the input; the trigger pulse
 * and the measurement of the echo are hardware and stay outside.
 */
module Sonar {

  /** Round-trip echo time per centimetre, in microseconds. */
  const MicrosPerCm: nat := 58
  /** Largest distance, in centimetres, the ranger can report. */
  const MaxRange: int := 400
  /** The sentinel for an invalid measurement. */
  const Invalid: int := -1

  /** Shortest pulse width whose distance exceeds MaxRange (401 * 58). */
  const FirstInvalidPulse: nat := 23258

  /**
   * `Sonar_GetDistance`: the distance in centimetres for an echo of
   * `pulseWidth` microseconds, or Invalid when it exceeds the range.
   */
  function GetDistance(pulseWidth: nat): (d: int)
    ensures d == Invalid || 0 <= d <= MaxRange
    ensures d != Invalid ==> d * MicrosPerCm <= pulseWidth < (d + 1) * MicrosPerCm
  {
    var duration := pulseWidth / MicrosPerCm;
    if duration >= 0 && duration <= MaxRange then duration else Invalid
  }

  /** Only the upper bound ever rejects: the result is Invalid exactly when the quotient exceeds MaxRange. */
  lemma OnlyUpperBoundRejects(pulseWidth: nat)
    ensures GetDistance(pulseWidth) == Invalid <==> pulseWidth / MicrosPerCm > MaxRange
  {
  }

  /** The result is Invalid exactly for pulses of at least 23 258 microseconds. */
  lemma InvalidExactly(pulseWidth: nat)
    ensures GetDistance(pulseWidth) == Invalid <==> pulseWidth >= FirstInvalidPulse
  {
  }

  /** A pulse of zero width (no echo measured) reads as distance 0, not as Invalid. */
  lemma ZeroPulseIsZero()
    ensures GetDistance(0) == 0
  {
  }

  /** Within the valid range the distance never decreases as the pulse widens. */
  lemma Monotone(p: nat, q: nat)
    requires p <= q
    requires GetDistance(q) != Invalid
    ensures GetDistance(p) != Invalid
    ensures GetDistance(p) <= GetDistance(q)
  {
  }
}
