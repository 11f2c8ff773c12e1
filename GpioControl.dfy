/** `GPIOControl` of 5g-car/src/gpio_control.cpp (fields in
    5g-car/include/gpio_control.h). The pigpio calls are recorded as write
    traces: `motorWrites` for the motor pin, `servoWrites` for the servo pin. */
module GpioControl {
  import opened Common
  import opened Ramp
  import opened ServoMaps

  /** Initial value of the `last_dian` field. */
  const InitialLastDian := 10000

  class GpioControl {
    var lastDian: int
    var motorWrites: seq<int>
    var servoWrites: seq<int>

    constructor ()
      ensures lastDian == InitialLastDian && motorWrites == [] && servoWrites == []
    {
      lastDian := InitialLastDian;
      motorWrites, servoWrites := [], [];
    }

    /** `init` after the hardware is up: stop the motor and centre the servo
      at 100 degrees. */
    method Init()
      modifies this
      ensures lastDian == old(lastDian)
      ensures motorWrites == old(motorWrites) + [10000]
      ensures servoWrites == old(servoWrites) + [ServoPwm(100.0)]
    {
      motorWrites := motorWrites + [10000];
      SetServo(100.0);
    }

    /** `setMotor`: ramps up from max(10800, last_dian) in steps of 50 while
      the step does not pass the value (only for values above 10800), else a
      single write; the value is recorded whatever was written. */
    method SetMotor(value: int)
      modifies this
      ensures lastDian == value
      ensures motorWrites == old(motorWrites) + CppMotorWrites(old(lastDian), value)
      ensures servoWrites == old(servoWrites)
    {
      if value > RampFloor {
        var start := MaxInt(RampFloor, lastDian);
        var i := start;
        while i <= value
          invariant motorWrites + Steps(i, value) == old(motorWrites) + Steps(start, value)
          invariant servoWrites == old(servoWrites)
          decreases value - i
        {
          assert Steps(i, value) == [i] + Steps(i + RampStep, value);
          assert motorWrites + [i] + Steps(i + RampStep, value) == motorWrites + Steps(i, value);
          motorWrites := motorWrites + [MinInt(i, value)];
          i := i + RampStep;
        }
      } else {
        motorWrites := motorWrites + [value];
      }
      lastDian := value;
    }

    /** `setServo`: one write of the rounded linear duty for the angle. */
    method SetServo(angle: real)
      modifies this
      ensures lastDian == old(lastDian) && motorWrites == old(motorWrites)
      ensures servoWrites == old(servoWrites) + [ServoPwm(angle)]
    {
      var normalizedAngle := (angle + 90.0) / 180.0;
      var pwmValue := 2.5 + normalizedAngle * 10.0;
      servoWrites := servoWrites + [RoundHalfAway(pwmValue)];
    }
  }
}
