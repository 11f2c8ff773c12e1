/** `PIDController` of 5g-car-python/src/pid.py: a PID whose derivative and
    integral use the wall-clock time between calls. The clock reading
    `time.time()` is the `now` parameter of `Update`. */
module IntervalPid {
  import opened Common

  /** Time step assumed when there is no usable previous call time. */
  const DefaultDt: real := 0.02

  /** Time step of one update. Python's `if self.last_time:` treats both
      None and 0.0 as "no previous call", so both give the default step. */
  function StepDt(lastTime: Option<real>, now: real): real
  {
    if lastTime.Some? && lastTime.value != 0.0 then now - lastTime.value else DefaultDt
  }

  /** `de`: the difference quotient when the step is positive, else 0.0, so
      the division is only ever by a positive number. */
  function Derivative(error: real, prev: real, dt: real): real
  {
    if dt > 0.0 then (error - prev) / dt else 0.0
  }

  /** The first call, a call after one made at time 0.0, and a call whose
      clock did not advance never produce a derivative spike: the step is the
      0.02 default or the derivative is 0. */
  lemma NoDerivativeSpike(lastTime: Option<real>, now: real, error: real, prev: real)
    ensures lastTime == None || lastTime == Some(0.0) ==>
              Derivative(error, prev, StepDt(lastTime, now)) == (error - prev) / DefaultDt
    ensures lastTime.Some? && lastTime.value != 0.0 && now <= lastTime.value ==>
              Derivative(error, prev, StepDt(lastTime, now)) == 0.0
    ensures lastTime.Some? && lastTime.value != 0.0 && now > lastTime.value ==>
              Derivative(error, prev, StepDt(lastTime, now)) == (error - prev) / (now - lastTime.value)
  {
  }

  class PidController {
    var kp: real
    var ki: real
    var kd: real
    var prev: real
    var sum: real
    var lastTime: Option<real>

    constructor (kp: real := 0.25, ki: real := 0.0, kd: real := 0.125)
      ensures this.kp == kp && this.ki == ki && this.kd == kd
      ensures prev == 0.0 && sum == 0.0 && lastTime == None
    {
      this.kp, this.ki, this.kd := kp, ki, kd;
      prev, sum, lastTime := 0.0, 0.0, None;
    }

    /** `update`: integrates error*dt, differentiates against the previous
      error, records the call time and the error. There is no output clamp. */
    method Update(error: real, now: real) returns (out: real)
      modifies this
      ensures kp == old(kp) && ki == old(ki) && kd == old(kd)
      ensures lastTime == Some(now)
      ensures sum == old(sum) + error * StepDt(old(lastTime), now)
      ensures prev == error
      ensures out == kp * error + ki * sum
                     + kd * Derivative(error, old(prev), StepDt(old(lastTime), now))
    {
      var dt := DefaultDt;
      if lastTime.Some? && lastTime.value != 0.0 {
        dt := now - lastTime.value;
      }
      lastTime := Some(now);
      sum := sum + error * dt;
      var de := if dt > 0.0 then (error - prev) / dt else 0.0;
      out := kp * error + ki * sum + kd * de;
      prev := error;
    }
  }
}
