/** The motor ramp governor shared by every `setMotor` / `set_dian` in the
    repository: accelerating commands are written as a staircase of PWM duty
    values 50 apart, starting at the ramp floor 10800 or at the last commanded
    level, whichever is higher. The write trace is the observable behaviour;
    the 20-25 ms sleeps between steps are not modelled. */
module Ramp {
  import opened Common

  /** Lowest duty value a ramp starts from. */
  const RampFloor := 10800
  /** Increment between two successive ramp writes. */
  const RampStep := 50
  /** `speed_val`, the upper clamp of the Python `set_dian` variants. */
  const SpeedVal := 13000

  /** The values visited by `for (i = start; i <= target; i += 50)`, which is
      also Python's `range(start, target + 1, 50)`. */
  function Steps(start: int, target: int): seq<int>
    decreases target - start
  {
    if start > target then [] else [start] + Steps(start + RampStep, target)
  }

  /** The staircase is empty exactly when it starts above the target;
      otherwise it is start, start+50, ... and its last value is the largest
      of these not above the target, so it may fall short by up to 49. */
  lemma {:induction false} StepsShape(start: int, target: int)
    ensures start > target <==> Steps(start, target) == []
    ensures start <= target ==> |Steps(start, target)| == (target - start) / RampStep + 1
    ensures forall k :: 0 <= k < |Steps(start, target)| ==>
              Steps(start, target)[k] == start + RampStep * k
    ensures forall k :: 0 <= k < |Steps(start, target)| ==>
              start <= Steps(start, target)[k] <= target
    ensures Steps(start, target) != [] ==>
              target - RampStep < Steps(start, target)[|Steps(start, target)| - 1]
    decreases target - start
  {
    if start <= target {
      StepsShape(start + RampStep, target);
      var rest := Steps(start + RampStep, target);
      assert Steps(start, target) == [start] + rest;
      forall k | 1 <= k < |Steps(start, target)|
        ensures Steps(start, target)[k] == start + RampStep * k
      {
        assert Steps(start, target)[k] == rest[k - 1];
      }
    }
  }

  /** Writes of the C++ `GPIOControl::setMotor` and of `GPIOController.set_dian`
      in the Python driver: a ramp above the floor, a single write otherwise.
      (`min(i, value)` in the loop body is always `i`.) */
  function CppMotorWrites(last: int, value: int): seq<int>
  {
    if value > RampFloor then Steps(MaxInt(RampFloor, last), value) else [value]
  }

  /** Writes of `Dian_Duo.set_dian` / `Control.set_dian`: the target is first
      clamped to [0, speed_val]; only a target above the last level is ramped. */
  function PyMotorWrites(last: int, value: int): seq<int>
  {
    var v := ClampInt(value, 0, SpeedVal);
    if v > last then Steps(MaxInt(RampFloor, last), v) else [v]
  }

  /** Writes of a sequence of C++ `setMotor` calls issued from level `last`. */
  function CppMotorSequence(last: int, targets: seq<int>): seq<int>
    decreases |targets|
  {
    if targets == [] then [] else
      CppMotorWrites(last, targets[0]) + CppMotorSequence(targets[0], targets[1..])
  }

  /** Unfolding a call sequence of one or two targets. */
  lemma CppMotorSequenceShort(last: int, a: int, b: int)
    ensures CppMotorSequence(last, [a]) == CppMotorWrites(last, a)
    ensures CppMotorSequence(last, [a, b]) == CppMotorWrites(last, a) + CppMotorWrites(a, b)
  {
    assert [a][1..] == [] && [a, b][1..] == [b];
    assert CppMotorSequence(a, [b]) == CppMotorWrites(a, b) + CppMotorSequence(b, []);
  }

  /** C++ governor: above the floor every write lies in [10800, value] and the
      last one is within 50 of it; decelerating while still above the floor
      writes nothing at all; at or below the floor exactly one write of the
      value is made. */
  lemma CppMotorWritesFacts(last: int, value: int)
    ensures value > RampFloor ==>
              forall k :: 0 <= k < |CppMotorWrites(last, value)| ==>
                RampFloor <= CppMotorWrites(last, value)[k] <= value
    ensures value > RampFloor && last <= value ==>
              CppMotorWrites(last, value) != [] &&
              value - RampStep < CppMotorWrites(last, value)[|CppMotorWrites(last, value)| - 1]
    ensures last > value > RampFloor ==> CppMotorWrites(last, value) == []
    ensures value <= RampFloor ==> CppMotorWrites(last, value) == [value]
  {
    StepsShape(MaxInt(RampFloor, last), value);
  }

  /** The first ramp write from a level at or above the floor is that level
      itself, so it differs from the last level by less than one step; from a
      level below the floor the first write jumps straight to 10800. */
  lemma CppFirstWrite(last: int, value: int)
    requires RampFloor < value && last <= value
    ensures CppMotorWrites(last, value)[0] == MaxInt(RampFloor, last)
    ensures last >= RampFloor ==> CppMotorWrites(last, value)[0] == last
  {
    StepsShape(MaxInt(RampFloor, last), value);
  }

  /** Python governor: the target is clamped into [0, 13000]; a target at or
      below the last level gives one write of the clamped target; an increase
      to a target still below the floor writes nothing; every ramp write lies
      in [10800, target] and the last one is within 50 of the target. */
  lemma PyMotorWritesFacts(last: int, value: int)
    ensures ClampInt(value, 0, SpeedVal) <= last ==>
              PyMotorWrites(last, value) == [ClampInt(value, 0, SpeedVal)]
    ensures last < ClampInt(value, 0, SpeedVal) < RampFloor ==> PyMotorWrites(last, value) == []
    ensures forall k :: 0 <= k < |PyMotorWrites(last, value)| ==>
              0 <= PyMotorWrites(last, value)[k] <= ClampInt(value, 0, SpeedVal) <= SpeedVal
    ensures last < ClampInt(value, 0, SpeedVal) ==>
              forall k :: 0 <= k < |PyMotorWrites(last, value)| ==>
                RampFloor <= PyMotorWrites(last, value)[k]
    ensures PyMotorWrites(last, value) != [] ==>
              ClampInt(value, 0, SpeedVal) - RampStep
                < PyMotorWrites(last, value)[|PyMotorWrites(last, value)| - 1]
  {
    var v := ClampInt(value, 0, SpeedVal);
    StepsShape(MaxInt(RampFloor, last), v);
  }

  /** The final write need not equal the target: from 10000, commanding 10849
      writes 10800 only (and the governor then records 10849). */
  lemma FinalWriteFallsShort()
    ensures CppMotorWrites(10000, 10849) == [10800]
  {
    assert Steps(10850, 10849) == [];
  }
}
