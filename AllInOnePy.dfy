/** The barrier watcher and the actuator helper of
    5g-car-python/test/all_in_one.py: `Baffle.find_blue_card`, the two-phase
    debounce of `Baffle.detection_stream`, and `Control.set_dian`, `pid` and
    `set_duo`. Contour areas are given as a list; the camera read, the key
    poll and the host operating system are inputs. */
module AllInOnePy {
  import opened Common
  import opened Ramp
  import opened Pd
  import opened ServoMaps

  /** `BLUE_AREA_THRESHOLD` and `CONFIRM_FRAMES`. */
  const BlueAreaThreshold: real := 5000.0
  const ConfirmFrames := 3
  /** `last_dian` at start-up. */
  const InitialLastDian := 11800

  /** `find_blue_card`: no contour means no card, otherwise the largest
      contour must exceed 5000. */
  function FindBlueCard(areas: seq<real>): (seen: bool)
    ensures areas == [] ==> !seen
    ensures seen <==> exists k :: 0 <= k < |areas| && areas[k] > BlueAreaThreshold
  {
    if areas == [] then false else MaxOf(areas) > BlueAreaThreshold
  }

  /** The state of `Baffle` that `detection_stream` updates. */
  class Baffle {
    var baffleDetected: bool
    var frameCount: nat
    var detectCount: nat
    var detectionComplete: bool
    /** The card decision of every processed frame, oldest first. */
    ghost var samples: seq<bool>
    /** Whether the 'q' key has stopped the watch. */
    ghost var quit: bool

    /** Phase 2 starts at the first sighting; from then on `frame_count` is
      the number of misses since the last sighting, and it is 0 before.
      The watch completes when that reaches 3 or on the quit key. */
    ghost predicate Valid()
      reads this
    {
      (baffleDetected <==> true in samples) &&
      (baffleDetected ==> frameCount == Trailing(samples, false)) &&
      (!baffleDetected ==> frameCount == 0) &&
      frameCount <= ConfirmFrames &&
      (detectionComplete <==> quit || frameCount == ConfirmFrames)
    }

    constructor ()
      ensures Valid() && !baffleDetected && frameCount == 0 && detectCount == 0
      ensures !detectionComplete && samples == []
    {
      baffleDetected, frameCount, detectCount := false, 0, 0;
      detectionComplete := false;
      samples, quit := [], false;
    }

    /** One iteration of `detection_stream`. Once complete the loop has
      exited; a failed read is retried. Otherwise: phase 1 ignores misses
      and moves to phase 2 on a sighting, resetting both counters; phase 2
      counts misses, resets on a sighting, and completes on the third miss
      in a row; the quit key completes the watch too. */
    method Step(readOk: bool, hasBlue: bool, quitKey: bool)
      requires Valid()
      modifies this
      ensures Valid()
      ensures old(detectionComplete) || !readOk ==>
                baffleDetected == old(baffleDetected) && frameCount == old(frameCount) &&
                detectCount == old(detectCount) && detectionComplete == old(detectionComplete) &&
                samples == old(samples)
      ensures !old(detectionComplete) && readOk ==>
                samples == old(samples) + [hasBlue] &&
                baffleDetected == (old(baffleDetected) || hasBlue) &&
                (!old(baffleDetected) ==> frameCount == 0) &&
                (!old(baffleDetected) && hasBlue ==> detectCount == 0) &&
                (!(!old(baffleDetected) && hasBlue) ==> detectCount == old(detectCount) + 1) &&
                (old(baffleDetected) && !hasBlue ==> frameCount == old(frameCount) + 1) &&
                (old(baffleDetected) && hasBlue ==> frameCount == 0) &&
                (detectionComplete <==>
                   (old(baffleDetected) && !hasBlue && old(frameCount) + 1 == ConfirmFrames) || quitKey)
    {
      if detectionComplete || !readOk {
        return;
      }
      TrailingAppend(samples, hasBlue, false);
      samples := samples + [hasBlue];
      detectCount := detectCount + 1;
      if !baffleDetected {
        if hasBlue {
          baffleDetected := true;
          frameCount := 0;
          detectCount := 0;
        }
      } else {
        if !hasBlue {
          frameCount := frameCount + 1;
          if frameCount >= ConfirmFrames {
            detectionComplete := true;
            return;
          }
        } else {
          frameCount := 0;
        }
      }
      if quitKey {
        quit := true;
        detectionComplete := true;
      }
    }
  }

  /** A watch that completed without the quit key has seen the card and
      then exactly three misses in a row: the last four decisions are
      sighting, miss, miss, miss. */
  lemma RemovalConfirmed(samples: seq<bool>)
    requires true in samples && Trailing(samples, false) == ConfirmFrames
    ensures |samples| > ConfirmFrames
    ensures samples[|samples| - 4] && !samples[|samples| - 3]
    ensures !samples[|samples| - 2] && !samples[|samples| - 1]
  {
    var k :| 0 <= k < |samples| && samples[k];
    assert k < |samples| - ConfirmFrames;
  }

  /** The `Control` helper: the PWM writes are recorded as traces (motor
      duty values, servo pulse widths). On Windows every hardware method
      returns at once. */
  class Control {
    const windows: bool
    var lastError: real
    var lastDian: int
    var motorWrites: seq<int>
    var servoWrites: seq<real>

    constructor (windows: bool)
      ensures this.windows == windows
      ensures lastError == 0.0 && lastDian == InitialLastDian
      ensures motorWrites == [] && servoWrites == []
    {
      this.windows := windows;
      lastError, lastDian := 0.0, InitialLastDian;
      motorWrites, servoWrites := [], [];
    }

    /** `set_dian`: clamp to [0, 13000]; ramp only when rising above the
      last level, otherwise write the value once; remember the clamped
      value. */
    method SetDian(value: int)
      modifies this
      ensures windows ==> lastDian == old(lastDian) && motorWrites == old(motorWrites)
      ensures !windows ==> lastDian == ClampInt(value, 0, SpeedVal) &&
                           motorWrites == old(motorWrites) + PyMotorWrites(old(lastDian), value)
      ensures servoWrites == old(servoWrites) && lastError == old(lastError)
    {
      if windows {
        return;
      }
      var v := MaxInt(0, MinInt(value, SpeedVal));
      if v > lastDian {
        var start := MaxInt(RampFloor, lastDian);
        var i := start;
        while i <= v
          invariant motorWrites + Steps(i, v) == old(motorWrites) + Steps(start, v)
          invariant servoWrites == old(servoWrites) && lastError == old(lastError)
          invariant lastDian == old(lastDian)
          decreases v - i
        {
          assert Steps(i, v) == [i] + Steps(i + RampStep, v);
          assert motorWrites + [i] + Steps(i + RampStep, v) == motorWrites + Steps(i, v);
          motorWrites := motorWrites + [i];
          i := i + RampStep;
        }
      } else {
        motorWrites := motorWrites + [v];
      }
      lastDian := v;
    }

    /** `pid`: the PD law against the previous error, which it then
      replaces. */
    method Pid(error: real) returns (angle: real)
      modifies this
      ensures angle == PdLaw(Kp, Kd, error, old(lastError))
      ensures lastError == error
      ensures lastDian == old(lastDian) && motorWrites == old(motorWrites)
      ensures servoWrites == old(servoWrites)
    {
      angle := Kp * error + Kd * (error - lastError);
      lastError := error;
    }

    /** `set_duo`: clamp to [0, 180] and write the pulse width. */
    method SetDuo(angle: real)
      modifies this
      ensures windows ==> servoWrites == old(servoWrites)
      ensures !windows ==> servoWrites == old(servoWrites) + [PulseWidth(angle)]
      ensures lastDian == old(lastDian) && motorWrites == old(motorWrites)
      ensures lastError == old(lastError)
    {
      if windows {
        return;
      }
      var a := if angle > 180.0 then 180.0 else angle;
      a := if a < 0.0 then 0.0 else a;
      var pulsewidth := 500.0 + (a / 180.0) * 2000.0;
      servoWrites := servoWrites + [pulsewidth];
    }

    /** `cleanup`: release the servo (pulse width 0) and stop the motor
      (duty 0); `last_dian` is left as it was. */
    method Cleanup()
      modifies this
      ensures windows ==> servoWrites == old(servoWrites) && motorWrites == old(motorWrites)
      ensures !windows ==> servoWrites == old(servoWrites) + [0.0] &&
                           motorWrites == old(motorWrites) + [0]
      ensures lastDian == old(lastDian) && lastError == old(lastError)
    {
      if windows {
        return;
      }
      servoWrites := servoWrites + [0.0];
      motorWrites := motorWrites + [0];
    }
  }
}
