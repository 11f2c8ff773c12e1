/** The single-file C++ car of old/test/all_in_one.cpp: its `GPIOControl`,
    the detection bookkeeping of `ImageProcessor::processLoop`, and its
    `ControlActuator::controlLoop`. The image detectors are reduced to the
    pixel counts, contour result and YOLO answer they produce, which are
    inputs here; `trackMidLine` is modelled in OldTrackMidLine and
    `PIDController` by PidController.PidController (the same code). */
module OldAllInOne {
  import opened Common
  import opened Ramp
  import opened Pd
  import opened ServoMaps
  import opened Mission
  import opened PidController

  /** Neutral servo angle of this car. */
  const OldNeutral: real := 156.5
  /** Levels `init` writes. */
  const OldInitialLastDian := 10000

  /** Detection thresholds of `detectBlueCard`, `detectYellow` and
      `detectZebra`. */
  const BlueAreaThreshold := 60000
  const YellowPixelThreshold := 1000
  const YellowFramesNeeded := 2
  const ZebraEdgeThreshold := 5000
  /** `blue_remove_count` needed before a removal is reported. */
  const BlueFramesNeeded := 3
  /** Cones seen before the A/B recogniser is consulted. */
  const ConesBeforeAb := 3

  /** `gpioPWM(servo_pin, value)` receives the double duty value converted
      to an unsigned integer, which truncates it. */
  function OldServoWrite(angle: real): (w: int)
    ensures ServoDuty(angle) >= 0.0 ==> w as real <= ServoDuty(angle) < w as real + 1.0
  {
    Trunc(ServoDuty(angle))
  }

  /** The old `GPIOControl`: the same motor governor as the newer car, a
      servo map without rounding, and a start-up angle of 156.5. */
  class OldGpioControl {
    var lastDian: int
    var motorWrites: seq<int>
    var servoWrites: seq<int>

    constructor ()
      ensures lastDian == OldInitialLastDian && motorWrites == [] && servoWrites == []
    {
      lastDian := OldInitialLastDian;
      motorWrites, servoWrites := [], [];
    }

    /** `init`: stop the motor and put the servo at 156.5 degrees. */
    method Init()
      modifies this
      ensures lastDian == old(lastDian)
      ensures motorWrites == old(motorWrites) + [StopSpeed]
      ensures servoWrites == old(servoWrites) + [OldServoWrite(OldNeutral)]
    {
      motorWrites := motorWrites + [StopSpeed];
      SetServo(OldNeutral);
    }

    /** `setMotor`, as in the newer car. */
    method SetMotor(value: int)
      modifies this
      ensures lastDian == value
      ensures motorWrites == old(motorWrites) + CppMotorWrites(old(lastDian), value)
      ensures servoWrites == old(servoWrites)
    {
      if value > RampFloor {
        var start := MaxInt(RampFloor, lastDian);
        var i := start;
        while i <= value
          invariant motorWrites + Steps(i, value) == old(motorWrites) + Steps(start, value)
          invariant servoWrites == old(servoWrites)
          decreases value - i
        {
          assert Steps(i, value) == [i] + Steps(i + RampStep, value);
          assert motorWrites + [i] + Steps(i + RampStep, value) == motorWrites + Steps(i, value);
          motorWrites := motorWrites + [MinInt(i, value)];
          i := i + RampStep;
        }
        assert motorWrites == old(motorWrites) + Steps(start, value);
      } else {
        motorWrites := motorWrites + [value];
      }
      lastDian := value;
    }

    /** `setServo`: (0.5 + 2/270*angle)/20*30000, truncated by the call. */
    method SetServo(angle: real)
      modifies this
      ensures lastDian == old(lastDian) && motorWrites == old(motorWrites)
      ensures servoWrites == old(servoWrites) + [OldServoWrite(angle)]
    {
      var value := (0.5 + (2.0 / 270.0) * angle) / 20.0 * 30000.0;
      servoWrites := servoWrites + [Trunc(value)];
    }
  }

  /** What the detectors of one frame report to the bookkeeping: the
      tracked line, the cone column (-1 for none), the blue pixel count,
      the yellow pixel count in the band at 70-90% of the height and the
      Canny edge pixel count. */
  datatype Detections = Detections(
    midLine: real,
    redConePos: int,
    blueArea: int,
    yellowPixels: int,
    edgePixels: int)

  /** The static locals of `processLoop`. */
  class ProcessLoop {
    var blueRemoveCount: int
    var yellowCount: int
    var redCount: nat
    var zebraStart: bool
    var abDone: bool
    var yellowDone: bool

    /** The yellow counter is back at 0 after every frame, so no yellow
      line is ever reported; the blue counter never exceeds 3; A/B is done
      only after three cones. */
    ghost predicate Valid()
      reads this
    {
      yellowCount == 0 && !yellowDone &&
      0 <= blueRemoveCount <= BlueFramesNeeded &&
      (abDone ==> redCount >= ConesBeforeAb)
    }

    constructor ()
      ensures Valid() && blueRemoveCount == 0 && redCount == 0 && !zebraStart && !abDone
    {
      blueRemoveCount, yellowCount, redCount := 0, 0, 0;
      zebraStart, abDone, yellowDone := false, false, false;
    }

    /** `detectYellow`: a frame with more than 1000 yellow pixels bumps
      the caller's counter (passed by reference) and reports a line once
      the counter has reached 2. */
    method DetectYellow(pixels: int) returns (detected: bool)
      modifies this
      ensures yellowCount == old(yellowCount) + (if pixels > YellowPixelThreshold then 1 else 0)
      ensures detected <==> pixels > YellowPixelThreshold && yellowCount >= YellowFramesNeeded
      ensures blueRemoveCount == old(blueRemoveCount) && redCount == old(redCount)
      ensures zebraStart == old(zebraStart) && abDone == old(abDone) && yellowDone == old(yellowDone)
    {
      detected := false;
      if pixels > YellowPixelThreshold {
        yellowCount := yellowCount + 1;
        detected := yellowCount >= YellowFramesNeeded;
      }
    }

    /** The blue-card counter: it counts frames with the card up to 3, and
      a frame without the card after 3 such frames reports the card removed
      and resets the counter. */
    method BlueStep(blueDetected: bool) returns (removed: bool)
      requires 0 <= blueRemoveCount <= BlueFramesNeeded
      modifies this
      ensures 0 <= blueRemoveCount <= BlueFramesNeeded
      ensures removed <==> !blueDetected && old(blueRemoveCount) >= BlueFramesNeeded
      ensures blueRemoveCount ==
                if blueDetected && old(blueRemoveCount) < BlueFramesNeeded then old(blueRemoveCount) + 1
                else if removed then 0
                else old(blueRemoveCount)
      ensures yellowCount == old(yellowCount) && redCount == old(redCount)
      ensures zebraStart == old(zebraStart) && abDone == old(abDone) && yellowDone == old(yellowDone)
    {
      removed := false;
      if blueDetected && blueRemoveCount < BlueFramesNeeded {
        blueRemoveCount := blueRemoveCount + 1;
      } else if !blueDetected && blueRemoveCount >= BlueFramesNeeded {
        removed := true;
        blueRemoveCount := 0;
      }
    }

    /** The zebra latch follows the current frame; the finished flag is
      false only on the frame where a crossing first appears. */
    method ZebraStep(zebra: bool) returns (zebraFinished: bool)
      modifies this
      ensures zebraStart == zebra
      ensures zebraFinished <==> !(zebra && !old(zebraStart))
      ensures blueRemoveCount == old(blueRemoveCount) && yellowCount == old(yellowCount)
      ensures redCount == old(redCount) && abDone == old(abDone) && yellowDone == old(yellowDone)
    {
      zebraFinished := true;
      if zebra && !zebraStart {
        zebraStart := true;
        zebraFinished := false;
      } else if !zebra && zebraStart {
        zebraFinished := true;
        zebraStart := false;
      }
    }

    /** One iteration of `processLoop` on a dequeued frame; `yolo` is what
      `callYoloAB` would return (-1 when it yields nothing), consulted
      only while A/B is pending and three cones have been seen. Returns
      the frame handed to `controlLoop`, plus the `zebra_finished` and
      `yellow_detected` fields it does not read. */
    method Step(det: Detections, yolo: int) returns (f: ProcessedFrame, zebraFinished: bool, yellowDetected: bool)
      requires Valid()
      modifies this
      ensures Valid()
      ensures f.midLine == det.midLine && f.redConePos == det.redConePos
      ensures f.zebraCrossing == (det.edgePixels > ZebraEdgeThreshold)
      ensures f.blueCardRemoved <==> det.blueArea <= BlueAreaThreshold && old(blueRemoveCount) >= BlueFramesNeeded
      ensures blueRemoveCount ==
                if det.blueArea > BlueAreaThreshold && old(blueRemoveCount) < BlueFramesNeeded then old(blueRemoveCount) + 1
                else if det.blueArea <= BlueAreaThreshold && old(blueRemoveCount) >= BlueFramesNeeded then 0
                else old(blueRemoveCount)
      ensures zebraStart == f.zebraCrossing
      ensures zebraFinished <==> !(f.zebraCrossing && !old(zebraStart))
      ensures redCount == old(redCount) + (if det.redConePos != -1 then 1 else 0)
      ensures f.abResult == if !old(abDone) && redCount >= ConesBeforeAb then yolo else -1
      ensures abDone <==> old(abDone) || f.abResult != -1
      ensures !yellowDetected
      ensures f.yellowCount == if det.yellowPixels > YellowPixelThreshold then 1 else 0
    {
      var blueDetected := det.blueArea > BlueAreaThreshold;
      yellowDetected := DetectYellow(det.yellowPixels);
      var zebra := det.edgePixels > ZebraEdgeThreshold;

      var removed := BlueStep(blueDetected);
      zebraFinished := ZebraStep(zebra);

      if det.redConePos != -1 {
        redCount := redCount + 1;
      }
      yellowDone := yellowDone || yellowDetected;

      var ab := -1;
      if !abDone && redCount >= ConesBeforeAb {
        ab := yolo;
        if ab != -1 {
          abDone := true;
        }
      }

      f := ProcessedFrame(det.midLine, det.redConePos, removed, zebra, ab, yellowCount);
      yellowCount := if yellowDetected then yellowCount + 1 else 0;
    }
  }

  /** Every frame `processLoop` hands over carries a yellow count of at
      most 1, so the old controller never parks, whatever its stage. */
  lemma NeverParks(s: Stage, f: ProcessedFrame, lastError: real)
    requires f.yellowCount <= 1
    ensures !Decide(OldNeutral, s, f, lastError).parked
    ensures Decide(OldNeutral, s, f, lastError).servo.Some?
  {
  }

  /** The old `ControlActuator`: the same stage machine as the newer car
      with neutral angle 156.5 and the old servo map. */
  class OldControlActuator {
    const pid: PidController
    const gpio: OldGpioControl
    var blueRemoved: bool
    var hasBanma: bool
    var redNums: nat
    var passNums: nat
    var redConeFinish: bool
    var abFinish: bool
    var yellowFinish: bool

    function State(): Stage
      reads this
    {
      Stage(blueRemoved, hasBanma, redNums, passNums, redConeFinish, abFinish, yellowFinish)
    }

    constructor ()
      ensures State() == InitialStage && Reachable(State())
      ensures fresh(pid) && fresh(gpio)
      ensures pid.lastError == 0.0
      ensures gpio.lastDian == OldInitialLastDian
      ensures gpio.motorWrites == [StopSpeed]
      ensures gpio.servoWrites == [OldServoWrite(OldNeutral)]
    {
      pid := new PidController();
      var g := new OldGpioControl();
      g.Init();
      gpio := g;
      blueRemoved, hasBanma := false, true;
      redNums, passNums := 0, 0;
      redConeFinish, abFinish, yellowFinish := false, false, false;
    }

    /** One iteration of `controlLoop`: nothing once parked, otherwise
      `Decide` with neutral 156.5 and the truncated duty servo map. */
    method Step(f: ProcessedFrame) returns (abReport: Option<int>)
      modifies this, pid, gpio
      ensures old(yellowFinish) ==>
                State() == old(State()) && pid.lastError == old(pid.lastError) &&
                gpio.lastDian == old(gpio.lastDian) &&
                gpio.motorWrites == old(gpio.motorWrites) &&
                gpio.servoWrites == old(gpio.servoWrites) && abReport == None
      ensures !old(yellowFinish) ==>
                var d := Decide(OldNeutral, old(State()), f, old(pid.lastError));
                State() == d.next && pid.lastError == d.lastError &&
                gpio.lastDian == d.motor[|d.motor| - 1] &&
                gpio.motorWrites == old(gpio.motorWrites) + CppMotorSequence(old(gpio.lastDian), d.motor) &&
                gpio.servoWrites == old(gpio.servoWrites) +
                  (if d.servo.Some? then [OldServoWrite(d.servo.value)] else []) &&
                abReport == d.abReport
    {
      abReport := None;
      if yellowFinish {
        return;
      }
      if !blueRemoved && f.blueCardRemoved {
        blueRemoved := true;
      }
      if blueRemoved && !hasBanma {
        hasBanma := f.zebraCrossing;
      }
      abReport := Respond(f);
    }

    /** The iteration after the latches, as `Mission.Respond` says. */
    method Respond(f: ProcessedFrame) returns (abReport: Option<int>)
      requires !yellowFinish
      modifies this, pid, gpio
      ensures var d := Mission.Respond(OldNeutral, old(State()), f, old(pid.lastError));
              State() == d.next && pid.lastError == d.lastError &&
              gpio.lastDian == d.motor[|d.motor| - 1] &&
              gpio.motorWrites == old(gpio.motorWrites) + CppMotorSequence(old(gpio.lastDian), d.motor) &&
              gpio.servoWrites == old(gpio.servoWrites) +
                (if d.servo.Some? then [OldServoWrite(d.servo.value)] else []) &&
              abReport == d.abReport
    {
      abReport := None;
      ghost var l0 := gpio.lastDian;
      var error := 160.0 - f.midLine;
      if abFinish {
        error := 160.0 - (f.midLine + 40.0);
      }
      var angleAdjust := pid.Compute(error);
      var angle := OldNeutral + angleAdjust;
      angle := ClampReal(angle, MinAngle, MaxAngle);

      CppMotorSequenceShort(l0, SlowSpeed, StopSpeed);
      CppMotorSequenceShort(l0, CruiseSpeed, StopSpeed);
      if f.redConePos != -1 && !redConeFinish {
        angle := ConeStage(f, error);
      } else if redConeFinish && !abFinish {
        abReport := AbStage(f);
      } else if abFinish && !yellowFinish {
        var parked := YellowStage(f);
        if parked {
          return;
        }
      } else {
        gpio.SetMotor(CruiseSpeed);
      }
      gpio.SetServo(angle);
    }

    /** Red-cone branch, as in the newer car. */
    method ConeStage(f: ProcessedFrame, laneError: real) returns (angle: real)
      requires f.redConePos != -1 && !redConeFinish && pid.lastError == laneError
      modifies this, pid, gpio
      ensures var ce := ConeError(old(redNums), f.redConePos);
              var n := old(redNums) + 1;
              var finish := n >= 3 && old(passNums) > 80;
              angle == OldNeutral + PdLaw(Kp, Kd, ce, laneError) && pid.lastError == ce &&
              State() == old(State()).(redNums := n,
                                       passNums := if n >= 3 then old(passNums) + 1 else old(passNums),
                                       redConeFinish := finish,
                                       abFinish := if finish then false else old(abFinish))
      ensures gpio.lastDian == CruiseSpeed && gpio.servoWrites == old(gpio.servoWrites)
      ensures gpio.motorWrites == old(gpio.motorWrites) + CppMotorWrites(old(gpio.lastDian), CruiseSpeed)
    {
      gpio.SetMotor(CruiseSpeed);
      var error: real;
      if redNums % 2 == 1 {
        error := (160 - (f.redConePos - 55)) as real;
      } else {
        error := (160 - (f.redConePos + 55)) as real;
      }
      var angleAdjust := pid.Compute(error);
      angle := OldNeutral + angleAdjust;
      redNums := redNums + 1;
      if redNums >= 3 {
        var passed := passNums;
        passNums := passNums + 1;
        if passed > 80 {
          redConeFinish := true;
          abFinish := false;
        }
      }
    }

    /** A/B branch, as in the newer car. */
    method AbStage(f: ProcessedFrame) returns (abReport: Option<int>)
      modifies this, gpio
      ensures f.redConePos != -1 ==>
                State() == old(State()).(abFinish := true) &&
                abReport == Some(if f.abResult != -1 then f.abResult else 2) &&
                gpio.lastDian == StopSpeed &&
                gpio.motorWrites == old(gpio.motorWrites) + CppMotorWrites(old(gpio.lastDian), SlowSpeed)
                                    + CppMotorWrites(SlowSpeed, StopSpeed)
      ensures f.redConePos == -1 ==>
                State() == old(State()) && abReport == None && gpio.lastDian == SlowSpeed &&
                gpio.motorWrites == old(gpio.motorWrites) + CppMotorWrites(old(gpio.lastDian), SlowSpeed)
      ensures gpio.servoWrites == old(gpio.servoWrites)
    {
      abReport := None;
      gpio.SetMotor(SlowSpeed);
      if f.redConePos != -1 {
        gpio.SetMotor(StopSpeed);
        abReport := Some(if f.abResult != -1 then f.abResult else 2);
        abFinish := true;
      }
    }

    /** Yellow branch, as in the newer car. */
    method YellowStage(f: ProcessedFrame) returns (parked: bool)
      modifies this, gpio
      ensures parked <==> f.yellowCount >= 2
      ensures parked ==>
                State() == old(State()).(yellowFinish := true) && gpio.lastDian == StopSpeed &&
                gpio.motorWrites == old(gpio.motorWrites) + CppMotorWrites(old(gpio.lastDian), SlowSpeed)
                                    + CppMotorWrites(SlowSpeed, StopSpeed)
      ensures !parked ==>
                State() == old(State()) && gpio.lastDian == SlowSpeed &&
                gpio.motorWrites == old(gpio.motorWrites) + CppMotorWrites(old(gpio.lastDian), SlowSpeed)
      ensures gpio.servoWrites == old(gpio.servoWrites)
    {
      gpio.SetMotor(SlowSpeed);
      parked := f.yellowCount >= 2;
      if parked {
        yellowFinish := true;
        gpio.SetMotor(StopSpeed);
      }
    }
  }
}
