/** `PIDController` of the C++ car (5g-car/src/pid_controller.cpp, fields in
    5g-car/include/pid_controller.h). The class in old/test/all_in_one.cpp is
    the same code and is modelled by this class too. */
module PidController {
  import opened Pd

  class PidController {
    const kp: real := 0.25
    const kd: real := 0.125
    var lastError: real

    constructor ()
      ensures lastError == 0.0
    {
      lastError := 0.0;
    }

    /** `compute`: returns kp*e + kd*(e - last_error) and remembers e. */
    method Compute(error: real) returns (out: real)
      modifies this
      ensures out == PdLaw(Kp, Kd, error, old(lastError))
      ensures lastError == error
    {
      var derivative := error - lastError;
      lastError := error;
      out := kp * error + kd * derivative;
    }
  }
}
