/** `GPIOController` of 5g-car-python/src/drive.py. The pigpio writes are
    recorded as traces; the servo trace holds the duty value handed to
    pigpio. The module-level `last_error` is a field, since one controller
    is used per process. */
module SrcDrive {
  import opened Common
  import opened Ramp
  import opened Pd
  import opened ServoMaps

  /** `last_dian` after construction, and the levels `set_gpio` writes. */
  const InitialLastDian := 10000
  const StopDuty := 10000
  const CentreAngle: real := 156.5

  /** Outcome of a call of `pid`: the angle, or the exception raised. */
  datatype PidOutcome = Angle(value: real) | UnboundLocalError

  /** Python's rule for a name read inside a function body: a parameter or
      a name the body assigns is local to the function unless declared
      `global`, and reading a local before it is bound raises; any other name
      is looked up among the module's globals. */
  function ReadName(name: string, localNames: set<string>, declaredGlobal: set<string>,
                    locals: map<string, real>, globals: map<string, real>): (r: Option<real>)
    ensures name in localNames && name !in declaredGlobal ==>
              (r.Some? <==> name in locals) && (r.Some? ==> r.value == locals[name])
    ensures (name !in localNames || name in declaredGlobal) ==>
              (r.Some? <==> name in globals) && (r.Some? ==> r.value == globals[name])
  {
    if name in localNames && name !in declaredGlobal then
      if name in locals then Some(locals[name]) else None
    else if name in globals then Some(globals[name]) else None
  }

  /** The body of `pid` with the given `global` declarations: its locals
      are the parameter `error1` and the assigned `angle` and `last_error`;
      it reads `kp`, `error1`, `kd` and `last_error` before assigning
      anything (module globals `kp`, `kd`, `last_error`). */
  function PidBody(declaredGlobal: set<string>, error1: real, lastError: real): PidOutcome
  {
    var localNames := {"error1", "angle", "last_error"};
    var locals := map["error1" := error1];
    var globals := map["kp" := Kp, "kd" := Kd, "last_error" := lastError];
    var kp := ReadName("kp", localNames, declaredGlobal, locals, globals);
    var e := ReadName("error1", localNames, declaredGlobal, locals, globals);
    var kd := ReadName("kd", localNames, declaredGlobal, locals, globals);
    var last := ReadName("last_error", localNames, declaredGlobal, locals, globals);
    if kp.None? || e.None? || kd.None? || last.None? then UnboundLocalError
    else Angle(kp.value * e.value + kd.value * (e.value - last.value))
  }

  /** Without a `global` declaration every call raises; with
      `global last_error` the body computes the PD law against the module's
      last error. */
  lemma PidScoping(error1: real, lastError: real)
    ensures PidBody({}, error1, lastError) == UnboundLocalError
    ensures PidBody({"last_error"}, error1, lastError) == Angle(PdLaw(Kp, Kd, error1, lastError))
  {
    var localNames := {"error1", "angle", "last_error"};
    var locals := map["error1" := error1];
    var globals := map["kp" := Kp, "kd" := Kd, "last_error" := lastError];
    var g := {"last_error"};
    assert "kp" !in localNames && "kd" !in localNames && "error1" in localNames;
    assert "last_error" !in locals;
    assert ReadName("kp", localNames, g, locals, globals) == Some(Kp);
    assert ReadName("kd", localNames, g, locals, globals) == Some(Kd);
    assert ReadName("error1", localNames, g, locals, globals) == Some(error1);
    assert ReadName("last_error", localNames, g, locals, globals) == Some(lastError);
  }

  class GPIOController {
    var lastDian: int
    var lastError: real
    var motorWrites: seq<int>
    var servoWrites: seq<real>

    constructor ()
      ensures lastDian == InitialLastDian && lastError == 0.0
      ensures motorWrites == [] && servoWrites == []
    {
      lastDian, lastError := InitialLastDian, 0.0;
      motorWrites, servoWrites := [], [];
    }

    /** `set_gpio`: stop the motor and centre the servo at 156.5 degrees. */
    method SetGpio()
      modifies this
      ensures motorWrites == old(motorWrites) + [StopDuty]
      ensures servoWrites == old(servoWrites) + [ServoDuty(CentreAngle)]
      ensures lastDian == old(lastDian) && lastError == old(lastError)
    {
      motorWrites := motorWrites + [StopDuty];
      SetDuo(CentreAngle);
    }

    /** `set_dian`: the C++ governor without a clamp; `min(i, value)` is
      always `i` inside the loop. */
    method SetDian(value: int)
      modifies this
      ensures lastDian == value
      ensures motorWrites == old(motorWrites) + CppMotorWrites(old(lastDian), value)
      ensures servoWrites == old(servoWrites) && lastError == old(lastError)
    {
      if value > RampFloor {
        var start := MaxInt(RampFloor, lastDian);
        var i := start;
        while i <= value
          invariant motorWrites + Steps(i, value) == old(motorWrites) + Steps(start, value)
          invariant servoWrites == old(servoWrites) && lastError == old(lastError)
          decreases value - i
        {
          assert Steps(i, value) == [i] + Steps(i + RampStep, value);
          assert motorWrites + [i] + Steps(i + RampStep, value) == motorWrites + Steps(i, value);
          motorWrites := motorWrites + [MinInt(i, value)];
          i := i + RampStep;
        }
        assert motorWrites == old(motorWrites) + Steps(start, value);
      } else {
        motorWrites := motorWrites + [value];
      }
      lastDian := value;
    }

    /** `pid` as written: no `global` declaration, so the read of
      `last_error` meets an unbound local and the call raises before
      computing or changing anything, whatever the error and the state. */
    method PidAsWritten(error1: real) returns (outcome: PidOutcome)
      ensures outcome == UnboundLocalError
    {
      outcome := PidBody({}, error1, lastError);
      PidScoping(error1, lastError);
    }

    /** `pid` as evidently intended (with `global last_error`): the PD law
      against the previous error, which it then replaces. */
    method Pid(error1: real) returns (angle: real)
      modifies this
      ensures angle == PdLaw(Kp, Kd, error1, old(lastError))
      ensures lastError == error1
      ensures lastDian == old(lastDian) && motorWrites == old(motorWrites)
      ensures servoWrites == old(servoWrites)
    {
      angle := Kp * error1 + Kd * (error1 - lastError);
      lastError := error1;
    }

    /** `set_duo`: one unclamped duty write for the angle. */
    method SetDuo(angle: real)
      modifies this
      ensures servoWrites == old(servoWrites) + [ServoDuty(angle)]
      ensures lastDian == old(lastDian) && motorWrites == old(motorWrites)
      ensures lastError == old(lastError)
    {
      var value := (0.5 + (2.0 / 270.0) * angle) / 20.0 * 30000.0;
      servoWrites := servoWrites + [value];
    }
  }
}
