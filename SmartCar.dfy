/** `smartcar::SmartCar` of old/core/smartcar.cpp: the earliest C++ car.
    Its globals `res_y` and `Banma_finish` and the static `last_error` of
    `controlMotors` are fields; the pigpio writes are traces. */
module SmartCar {
  import opened Common
  import opened Pd

  /** Initial values of the globals `res_y` and `Banma_finish`. */
  const InitialResY: real := 240.0
  const InitialBanmaFinish := 1
  /** Image row the tracked line is compared with. */
  const ReferenceRow: real := 120.0
  /** Servo duty for straight ahead, and the motor duties. */
  const ServoCentre := 1565
  const MotorIdle := 10000
  const MotorSlow := 10800
  const MotorForward := 12000

  /** The servo duty `controlMotors` writes for a steering output. */
  function ServoValue(angle: real): (v: int)
    ensures angle >= 0.0 ==> ServoCentre <= v && (v - ServoCentre) as real <= angle * 10.0
    ensures angle < 0.0 ==> v <= ServoCentre && angle * 10.0 <= (v - ServoCentre) as real
  {
    ServoCentre + Trunc(angle * 10.0)
  }

  /** Servo duties of n successive `controlMotors` calls while the error
      stays e, starting from last error `last`. */
  function ServoTrace(e: real, last: real, n: nat): (t: seq<int>)
    ensures |t| == n
    decreases n
  {
    if n == 0 then [] else [ServoValue(PdLaw(Kp, Kd, e, last))] + ServoTrace(e, e, n - 1)
  }

  /** Motor duties of n successive calls with a fixed `Banma_finish`. */
  function MotorTrace(banmaFinish: int, n: nat): (t: seq<int>)
    ensures |t| == n
    ensures forall k :: 0 <= k < n ==> t[k] == if banmaFinish != 0 then MotorSlow else MotorForward
  {
    seq(n, k => if banmaFinish != 0 then MotorSlow else MotorForward)
  }

  /** How many frames of a capture reach `controlMotors` when reading
      resumes at frame k: frames are processed until the first empty one,
      and the ESC key after a frame ends the loop. */
  function CallsFrom(frames: seq<bool>, esc: seq<bool>, k: nat): (n: nat)
    requires |esc| == |frames| && k <= |frames|
    ensures k <= n <= |frames|
    decreases |frames| - k
  {
    if k == |frames| || !frames[k] then k
    else if esc[k] then k + 1
    else CallsFrom(frames, esc, k + 1)
  }

  /** The loop runs over frames k .. n-1: each of them was read, ESC was
      not pressed before the last of them, and it stops at an empty read,
      at ESC, or at the end of the capture. */
  lemma {:induction false} CallsFromMeaning(frames: seq<bool>, esc: seq<bool>, k: nat)
    requires |esc| == |frames| && k <= |frames|
    ensures var n := CallsFrom(frames, esc, k);
            (forall i :: k <= i < n ==> frames[i]) &&
            (forall i :: k <= i < n - 1 ==> !esc[i]) &&
            (n < |frames| ==> !frames[n] || (n > k && esc[n - 1]))
    decreases |frames| - k
  {
    if k < |frames| && frames[k] && !esc[k] {
      CallsFromMeaning(frames, esc, k + 1);
    }
  }

  class SmartCar {
    var resY: real
    var banmaFinish: int
    var lastError: real
    var motorWrites: seq<int>
    var servoWrites: seq<int>

    constructor ()
      ensures resY == InitialResY && banmaFinish == InitialBanmaFinish && lastError == 0.0
      ensures motorWrites == [] && servoWrites == []
    {
      resY, banmaFinish, lastError := InitialResY, InitialBanmaFinish, 0.0;
      motorWrites, servoWrites := [], [];
    }

    /** `initialize`: motor idle, servo centred. */
    method Initialize()
      modifies this
      ensures motorWrites == old(motorWrites) + [MotorIdle]
      ensures servoWrites == old(servoWrites) + [ServoCentre]
      ensures resY == old(resY) && banmaFinish == old(banmaFinish) && lastError == old(lastError)
    {
      motorWrites := motorWrites + [MotorIdle];
      servoWrites := servoWrites + [ServoCentre];
    }

    /** `controlMotors`: PD step on res_y - 120, servo 1565 + trunc(10 *
      angle), then 10800 while `Banma_finish` is set, else 12000. */
    method ControlMotors()
      modifies this
      ensures lastError == resY - ReferenceRow
      ensures servoWrites == old(servoWrites) + [ServoValue(PdLaw(Kp, Kd, resY - ReferenceRow, old(lastError)))]
      ensures motorWrites == old(motorWrites) + [if banmaFinish != 0 then MotorSlow else MotorForward]
      ensures resY == old(resY) && banmaFinish == old(banmaFinish)
    {
      var kp := 0.25;
      var kd := 0.125;
      var error := resY - ReferenceRow;
      var angle := kp * error + kd * (error - lastError);
      lastError := error;
      var servoValue := ServoCentre + Trunc(angle * 10.0);
      servoWrites := servoWrites + [servoValue];
      if banmaFinish != 0 {
        motorWrites := motorWrites + [MotorSlow];
      } else {
        motorWrites := motorWrites + [MotorForward];
      }
    }

    /** One frame of `run` that was read: `processFrame` (no effect) and
      one `controlMotors` call, which writes the head of the remaining
      servo trace. */
    method ProcessedFrame(ghost e: real, ghost rest: nat)
      requires e == resY - ReferenceRow && rest >= 1
      modifies this
      ensures servoWrites + ServoTrace(e, lastError, rest - 1) ==
              old(servoWrites) + ServoTrace(e, old(lastError), rest)
      ensures motorWrites == old(motorWrites) + [if banmaFinish != 0 then MotorSlow else MotorForward]
      ensures lastError == e && resY == old(resY) && banmaFinish == old(banmaFinish)
    {
      ghost var v := ServoValue(PdLaw(Kp, Kd, e, lastError));
      assert ServoTrace(e, lastError, rest) == [v] + ServoTrace(e, e, rest - 1);
      ControlMotors();
    }

    /** `run` over a capture: `frames[k]` says whether the k-th read gave
      a frame and `esc[k]` whether ESC was pressed after it. `processFrame`
      has no effect (all its branches are empty), so every processed
      frame is one `controlMotors` call with the same error. */
    method Run(frames: seq<bool>, esc: seq<bool>)
      requires |esc| == |frames|
      modifies this
      ensures var n := CallsFrom(frames, esc, 0);
              servoWrites == old(servoWrites) + ServoTrace(resY - ReferenceRow, old(lastError), n) &&
              motorWrites == old(motorWrites) + MotorTrace(banmaFinish, n) &&
              lastError == (if n > 0 then resY - ReferenceRow else old(lastError))
      ensures resY == old(resY) && banmaFinish == old(banmaFinish)
    {
      ghost var e := resY - ReferenceRow;
      ghost var n := CallsFrom(frames, esc, 0);
      var k := 0;
      while k < |frames| && frames[k]
        invariant 0 <= k <= n && CallsFrom(frames, esc, k) == n
        invariant resY == old(resY) && banmaFinish == old(banmaFinish)
        invariant servoWrites + ServoTrace(e, lastError, n - k) ==
                  old(servoWrites) + ServoTrace(e, old(lastError), n)
        invariant motorWrites == old(motorWrites) + MotorTrace(banmaFinish, k)
        invariant lastError == (if k > 0 then e else old(lastError))
        decreases |frames| - k
      {
        ProcessedFrame(e, n - k);
        assert MotorTrace(banmaFinish, k + 1) == MotorTrace(banmaFinish, k) + [MotorTrace(banmaFinish, k + 1)[k]];
        k := k + 1;
        if esc[k - 1] {
          break;
        }
      }
    }
  }

  /** From the start values (res_y 240, last error 0) the error is 120:
      the first call writes 2015 and every later one 1865, and the motor
      stays at 10800 since `Banma_finish` is never cleared. */
  lemma {:induction false} StartTrace(n: nat)
    requires n >= 1
    ensures ServoTrace(120.0, 0.0, n)[0] == 2015
    ensures forall k :: 1 <= k < n ==> ServoTrace(120.0, 0.0, n)[k] == 1865
  {
    SteadyTrace(n - 1);
    assert ServoTrace(120.0, 0.0, n) == [2015] + ServoTrace(120.0, 120.0, n - 1);
  }

  lemma {:induction false} SteadyTrace(n: nat)
    ensures forall k :: 0 <= k < n ==> ServoTrace(120.0, 120.0, n)[k] == 1865
  {
    if n > 0 {
      SteadyTrace(n - 1);
      assert ServoTrace(120.0, 120.0, n) == [1865] + ServoTrace(120.0, 120.0, n - 1);
    }
  }
}
