/** `ControlActuator` of the C++ car (5g-car/src/control_actuator.cpp, state
    declared in 5g-car/include/control_actuator.h): one call of `Step` is one
    iteration of `controlLoop` on a dequeued frame. The thread, the queue
    wait and the frame-rate sleep are not modelled. */
module ControlActuator {
  import opened Common
  import opened Ramp
  import opened Pd
  import opened ServoMaps
  import opened Mission
  import opened PidController
  import opened GpioControl

  /** Neutral servo angle of this car. */
  const Neutral: real := 100.0

  class ControlActuator {
    const pid: PidController
    const gpio: GpioControl
    // static locals of controlLoop (they shadow the header members)
    var blueRemoved: bool
    var hasBanma: bool
    // members
    var redNums: nat
    var passNums: nat
    var redConeFinish: bool
    var abFinish: bool
    var yellowFinish: bool

    function State(): Stage
      reads this
    {
      Stage(blueRemoved, hasBanma, redNums, passNums, redConeFinish, abFinish, yellowFinish)
    }

    /** Builds the controller and the GPIO driver and runs `gpio.init()`. */
    constructor ()
      ensures State() == InitialStage && Reachable(State())
      ensures fresh(pid) && fresh(gpio)
      ensures pid.lastError == 0.0
      ensures gpio.lastDian == InitialLastDian
      ensures gpio.motorWrites == [StopSpeed]
      ensures gpio.servoWrites == [ServoPwm(Neutral)]
    {
      pid := new PidController();
      var g := new GpioControl();
      g.Init();
      gpio := g;
      blueRemoved, hasBanma := false, true;
      redNums, passNums := 0, 0;
      redConeFinish, abFinish, yellowFinish := false, false, false;
    }

    /** One loop iteration. Once parked the loop has exited, so a further
      step changes nothing. Otherwise the stage, the PD state and the write
      traces follow `Decide` with neutral 100 and the rounded PWM servo
      map; the returned value is the A/B result reported on this frame. */
    method Step(f: ProcessedFrame) returns (abReport: Option<int>)
      modifies this, pid, gpio
      ensures old(yellowFinish) ==>
                State() == old(State()) && pid.lastError == old(pid.lastError) &&
                gpio.lastDian == old(gpio.lastDian) &&
                gpio.motorWrites == old(gpio.motorWrites) &&
                gpio.servoWrites == old(gpio.servoWrites) && abReport == None
      ensures !old(yellowFinish) ==>
                var d := Decide(Neutral, old(State()), f, old(pid.lastError));
                State() == d.next && pid.lastError == d.lastError &&
                gpio.lastDian == d.motor[|d.motor| - 1] &&
                gpio.motorWrites == old(gpio.motorWrites) + CppMotorSequence(old(gpio.lastDian), d.motor) &&
                gpio.servoWrites == old(gpio.servoWrites) +
                  (if d.servo.Some? then [ServoPwm(d.servo.value)] else []) &&
                abReport == d.abReport
    {
      abReport := None;
      if yellowFinish {
        return;
      }
      if !blueRemoved && f.blueCardRemoved {
        blueRemoved := true;
      }
      if blueRemoved && !hasBanma {
        hasBanma := f.zebraCrossing;
      }
      abReport := Respond(f);
    }

    /** The iteration after the latches: lane PD step and stage dispatch,
      as `Mission.Respond` says. */
    method Respond(f: ProcessedFrame) returns (abReport: Option<int>)
      requires !yellowFinish
      modifies this, pid, gpio
      ensures var d := Mission.Respond(Neutral, old(State()), f, old(pid.lastError));
              State() == d.next && pid.lastError == d.lastError &&
              gpio.lastDian == d.motor[|d.motor| - 1] &&
              gpio.motorWrites == old(gpio.motorWrites) + CppMotorSequence(old(gpio.lastDian), d.motor) &&
              gpio.servoWrites == old(gpio.servoWrites) +
                (if d.servo.Some? then [ServoPwm(d.servo.value)] else []) &&
              abReport == d.abReport
    {
      abReport := None;
      ghost var l0 := gpio.lastDian;
      var error := 160.0 - f.midLine;
      if abFinish {
        error := 160.0 - (f.midLine + 40.0);
      }
      var angleAdjust := pid.Compute(error);
      var angle := Neutral + angleAdjust;
      angle := ClampReal(angle, MinAngle, MaxAngle);

      CppMotorSequenceShort(l0, SlowSpeed, StopSpeed);
      CppMotorSequenceShort(l0, CruiseSpeed, StopSpeed);
      if f.redConePos != -1 && !redConeFinish {
        angle := ConeStage(f, error);
      } else if redConeFinish && !abFinish {
        abReport := AbStage(f);
      } else if abFinish && !yellowFinish {
        var parked := YellowStage(f);
        if parked {
          return;
        }
      } else {
        gpio.SetMotor(CruiseSpeed);
      }
      gpio.SetServo(angle);
    }

    /** Red-cone branch after the lane PD step: cruise, steer against the
      cone error with a second PD step, count the cone and, from the third
      cone on, count the frame and end the stage after 80 counted frames. */
    method ConeStage(f: ProcessedFrame, laneError: real) returns (angle: real)
      requires f.redConePos != -1 && !redConeFinish && pid.lastError == laneError
      modifies this, pid, gpio
      ensures var ce := ConeError(old(redNums), f.redConePos);
              var n := old(redNums) + 1;
              var finish := n >= 3 && old(passNums) > 80;
              angle == Neutral + PdLaw(Kp, Kd, ce, laneError) && pid.lastError == ce &&
              State() == old(State()).(redNums := n,
                                       passNums := if n >= 3 then old(passNums) + 1 else old(passNums),
                                       redConeFinish := finish,
                                       abFinish := if finish then false else old(abFinish))
      ensures gpio.lastDian == CruiseSpeed && gpio.servoWrites == old(gpio.servoWrites)
      ensures gpio.motorWrites == old(gpio.motorWrites) + CppMotorWrites(old(gpio.lastDian), CruiseSpeed)
    {
      gpio.SetMotor(CruiseSpeed);
      var error: real;
      if redNums % 2 == 1 {
        error := (160 - (f.redConePos - 55)) as real;
      } else {
        error := (160 - (f.redConePos + 55)) as real;
      }
      var angleAdjust := pid.Compute(error);
      angle := Neutral + angleAdjust;
      redNums := redNums + 1;
      if redNums >= 3 {
        var passed := passNums;
        passNums := passNums + 1;
        if passed > 80 {
          redConeFinish := true;
          abFinish := false;
        }
      }
    }

    /** A/B branch: slow down; on a frame with a visible cone stop, finish
      the stage and report the A/B result (2 when none was recognised). */
    method AbStage(f: ProcessedFrame) returns (abReport: Option<int>)
      modifies this, gpio
      ensures f.redConePos != -1 ==>
                State() == old(State()).(abFinish := true) &&
                abReport == Some(if f.abResult != -1 then f.abResult else 2) &&
                gpio.lastDian == StopSpeed &&
                gpio.motorWrites == old(gpio.motorWrites) + CppMotorWrites(old(gpio.lastDian), SlowSpeed)
                                    + CppMotorWrites(SlowSpeed, StopSpeed)
      ensures f.redConePos == -1 ==>
                State() == old(State()) && abReport == None && gpio.lastDian == SlowSpeed &&
                gpio.motorWrites == old(gpio.motorWrites) + CppMotorWrites(old(gpio.lastDian), SlowSpeed)
      ensures gpio.servoWrites == old(gpio.servoWrites)
    {
      abReport := None;
      gpio.SetMotor(SlowSpeed);
      if f.redConePos != -1 {
        gpio.SetMotor(StopSpeed);
        abReport := Some(if f.abResult != -1 then f.abResult else 2);
        abFinish := true;
      }
    }

    /** Yellow branch: slow down; with a yellow count of at least 2 mark
      the stage finished, stop, and tell the loop to leave. */
    method YellowStage(f: ProcessedFrame) returns (parked: bool)
      modifies this, gpio
      ensures parked <==> f.yellowCount >= 2
      ensures parked ==>
                State() == old(State()).(yellowFinish := true) && gpio.lastDian == StopSpeed &&
                gpio.motorWrites == old(gpio.motorWrites) + CppMotorWrites(old(gpio.lastDian), SlowSpeed)
                                    + CppMotorWrites(SlowSpeed, StopSpeed)
      ensures !parked ==>
                State() == old(State()) && gpio.lastDian == SlowSpeed &&
                gpio.motorWrites == old(gpio.motorWrites) + CppMotorWrites(old(gpio.lastDian), SlowSpeed)
      ensures gpio.servoWrites == old(gpio.servoWrites)
    {
      gpio.SetMotor(SlowSpeed);
      parked := f.yellowCount >= 2;
      if parked {
        yellowFinish := true;
        gpio.SetMotor(StopSpeed);
      }
    }
  }
}
