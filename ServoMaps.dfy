/** The angle-to-servo-signal conversions of the repository. */
module ServoMaps {
  import opened Common

  /** Python `set_duo` (test scripts): the angle is clamped to [0, 180] and
      mapped linearly to a pulse width of 500..2500 microseconds. */
  function PulseWidth(angle: real): (p: real)
    ensures 500.0 <= p <= 2500.0
  {
    var a := ClampReal(angle, 0.0, 180.0);
    500.0 + a / 180.0 * 2000.0
  }

  /** The pulse width is monotone in the angle, and inside [0, 180] the angle
      can be read back from it. */
  lemma PulseWidthFacts(a: real, b: real)
    ensures a <= b ==> PulseWidth(a) <= PulseWidth(b)
    ensures 0.0 <= a <= 180.0 ==> (PulseWidth(a) - 500.0) / 2000.0 * 180.0 == a
    ensures a <= 0.0 ==> PulseWidth(a) == 500.0
    ensures a >= 180.0 ==> PulseWidth(a) == 2500.0
  {
  }

  /** `setServo` of old/test/all_in_one.cpp and `set_duo` of
      5g-car-python/src/drive.py: (0.5 + 2/270*angle)/20*30000, unclamped. */
  function ServoDuty(angle: real): real
  {
    (0.5 + (2.0 / 270.0) * angle) / 20.0 * 30000.0
  }

  /** The duty is strictly increasing in the angle and 0 degrees gives 750. */
  lemma ServoDutyFacts(a: real, b: real)
    ensures a < b ==> ServoDuty(a) < ServoDuty(b)
    ensures ServoDuty(0.0) == 750.0
  {
  }

  /** `GPIOControl::setServo` of 5g-car/src/gpio_control.cpp: -90 -> 2.5 and
      90 -> 12.5 linearly, then rounded to the nearest integer. Nothing is
      clamped. */
  function ServoPwm(angle: real): int
  {
    RoundHalfAway(2.5 + (angle + 90.0) / 180.0 * 10.0)
  }

  lemma RoundMonotone(x: real, y: real)
    requires x <= y
    ensures RoundHalfAway(x) <= RoundHalfAway(y)
  {
  }

  /** The map is monotone; the ends of its nominal range round to 3 and 13
      (2.5 and 12.5 round away from zero); the controller's neutral 100 and
      its limit 200 lie beyond +90 and give 13 and 19. */
  lemma ServoPwmFacts(a: real, b: real)
    ensures a <= b ==> ServoPwm(a) <= ServoPwm(b)
    ensures ServoPwm(-90.0) == 3 && ServoPwm(0.0) == 8 && ServoPwm(90.0) == 13
    ensures ServoPwm(100.0) == 13 && ServoPwm(200.0) == 19
  {
    if a <= b {
      RoundMonotone(2.5 + (a + 90.0) / 180.0 * 10.0, 2.5 + (b + 90.0) / 180.0 * 10.0);
    }
  }
}
