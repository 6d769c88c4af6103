/** The angle-to-pulse conversion used to drive a hobby servo: the angle is
    clamped to 0..180 degrees and mapped linearly onto a 500..2500 microsecond
    pulse width, truncated to an integer. */
module MoveServo {
  import opened Basics

  const MinPulseWidth: int := 500
  const MaxPulseWidth: int := 2500

  /** max(0, min(180, angle)). */
  function ClampAngle(angle: real): (a: real)
    ensures 0.0 <= a <= 180.0
    ensures 0.0 <= angle <= 180.0 ==> a == angle
    ensures angle < 0.0 ==> a == 0.0
    ensures angle > 180.0 ==> a == 180.0
  {
    if angle < 180.0 then (if angle < 0.0 then 0.0 else angle) else 180.0
  }

  /** The pulse width in microseconds for the angle in degrees: the clamped
      angle's point on the 500..2500 line, rounded down. */
  function AngleToPulse(angle: real): (pulse: int)
    ensures MinPulseWidth <= pulse <= MaxPulseWidth
    ensures var exact := MinPulseWidth as real
                         + (ClampAngle(angle) / 180.0) * (MaxPulseWidth - MinPulseWidth) as real;
            pulse as real <= exact < pulse as real + 1.0
    ensures angle <= 0.0 ==> pulse == MinPulseWidth
    ensures angle >= 180.0 ==> pulse == MaxPulseWidth
    ensures angle == 90.0 ==> pulse == 1500
  {
    var a := ClampAngle(angle);
    var pulse := Trunc(MinPulseWidth as real + (a / 180.0) * (MaxPulseWidth - MinPulseWidth) as real);
    pulse
  }

  /** A larger angle never gives a shorter pulse. */
  lemma AngleToPulseMonotone(a: real, b: real)
    requires a <= b
    ensures AngleToPulse(a) <= AngleToPulse(b)
  {
  }

  /** Clamping first changes nothing: the conversion already clamps. */
  lemma ClampIsTransparent(angle: real)
    ensures AngleToPulse(angle) == AngleToPulse(ClampAngle(angle))
  {
  }
}
