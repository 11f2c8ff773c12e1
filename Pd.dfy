/** The proportional-derivative steering law used, with small variations, by
    every controller in the repository: out = kp*e + kd*(e - last_error),
    after which last_error becomes e. */
module Pd {

  /** Default gains of the C++ `PIDController` and the Python `pid` methods. */
  const Kp: real := 0.25
  const Kd: real := 0.125

  function PdLaw(kp: real, kd: real, error: real, last: real): real
  {
    kp * error + kd * (error - last)
  }

  /** Outputs of successive calls on one controller whose last error starts
      at `last`: each call differentiates against the error of the call
      before it. */
  function PdRun(kp: real, kd: real, last: real, errors: seq<real>): seq<real>
    decreases |errors|
  {
    if errors == [] then []
    else [PdLaw(kp, kd, errors[0], last)] + PdRun(kp, kd, errors[0], errors[1..])
  }

  /** One output per call; the first differentiates against the starting
      last error, every later one against the previous call's error. */
  lemma {:induction false} PdRunFacts(kp: real, kd: real, last: real, errors: seq<real>)
    ensures |PdRun(kp, kd, last, errors)| == |errors|
    ensures |errors| > 0 ==> PdRun(kp, kd, last, errors)[0] == PdLaw(kp, kd, errors[0], last)
    ensures forall k :: 1 <= k < |errors| ==>
              PdRun(kp, kd, last, errors)[k] == PdLaw(kp, kd, errors[k], errors[k - 1])
    decreases |errors|
  {
    if errors != [] {
      var rest := errors[1..];
      PdRunFacts(kp, kd, errors[0], rest);
      forall k | 1 <= k < |errors|
        ensures PdRun(kp, kd, last, errors)[k] == PdLaw(kp, kd, errors[k], errors[k - 1])
      {
        assert PdRun(kp, kd, last, errors)[k] == PdRun(kp, kd, errors[0], rest)[k - 1];
        if k >= 2 {
          assert rest[k - 1] == errors[k] && rest[k - 2] == errors[k - 1];
        }
      }
    }
  }

  /** With the default gains and a fresh controller (last error 0), a
      constant error e gives 0.375*e on the first call and exactly 0.25*e on
      every later call. */
  lemma ConstantErrorSettles(e: real, errors: seq<real>)
    requires |errors| > 0 && forall k :: 0 <= k < |errors| ==> errors[k] == e
    ensures |PdRun(Kp, Kd, 0.0, errors)| == |errors|
    ensures PdRun(Kp, Kd, 0.0, errors)[0] == 0.375 * e
    ensures forall k :: 1 <= k < |errors| ==> PdRun(Kp, Kd, 0.0, errors)[k] == 0.25 * e
  {
    PdRunFacts(Kp, Kd, 0.0, errors);
    forall k | 1 <= k < |errors|
      ensures PdRun(Kp, Kd, 0.0, errors)[k] == 0.25 * e
    {
      assert errors[k] == e && errors[k - 1] == e;
    }
  }
}
