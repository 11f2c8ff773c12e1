/** The decision taken by one iteration of `controlLoop` on one processed
    frame. The C++ car (5g-car/src/control_actuator.cpp) and its earlier
    single-file version (old/test/all_in_one.cpp) run the same state machine
    and differ only in the neutral servo angle (100 and 156.5 degrees) and in
    the servo map; this module states the common decision as a function of
    the stage flags, the frame and the PD controller's last error. */
module Mission {
  import opened Common
  import opened Pd

  /** The fields of a processed frame that `controlLoop` reads. */
  datatype ProcessedFrame = ProcessedFrame(
    midLine: real,
    redConePos: int,
    blueCardRemoved: bool,
    zebraCrossing: bool,
    abResult: int,
    yellowCount: int)

  /** The stage flags and counters of the loop: the static locals
      `blue_removed` / `has_banma` and the members `red_nums`, `pass_nums`,
      `red_cone_finish`, `ab_finish`, `yellow_finish`. */
  datatype Stage = Stage(
    blueRemoved: bool,
    hasBanma: bool,
    redNums: nat,
    passNums: nat,
    redConeFinish: bool,
    abFinish: bool,
    yellowFinish: bool)

  /** The static `has_banma` starts true; everything else starts cleared. */
  const InitialStage := Stage(false, true, 0, 0, false, false, false)

  /** `min_angle` and `max_angle`. */
  const MinAngle: real := 0.0
  const MaxAngle: real := 200.0

  /** Motor levels used by the stages. */
  const CruiseSpeed := 11000
  const SlowSpeed := 10800
  const StopSpeed := 10000

  /** Outcome of one iteration: the next stage, the PD controller's last
      error afterwards, the `setMotor` targets in call order, the servo angle
      commanded (none when the loop breaks to park), whether it parked, and
      the A/B result reported when the A/B stage completes. */
  datatype Decision = Decision(
    next: Stage,
    lastError: real,
    motor: seq<int>,
    servo: Option<real>,
    parked: bool,
    abReport: Option<int>)

  /** Lane error: 160 - mid_line, shifted by 40 pixels once the A/B stage
      has finished. */
  function LaneError(abFinish: bool, midLine: real): (e: real)
    ensures !abFinish ==> e == 160.0 - midLine
    ensures abFinish ==> e == 160.0 - midLine - 40.0
  {
    if abFinish then 160.0 - (midLine + 40.0) else 160.0 - midLine
  }

  /** Cone-avoidance error: the target passes 55 pixels to one side of the
      cone on odd counts and to the other on even ones. */
  function ConeError(redNums: nat, pos: int): (e: real)
    ensures redNums % 2 == 1 ==> e == (160 - pos + 55) as real
    ensures redNums % 2 == 0 ==> e == (160 - pos - 55) as real
  {
    if redNums % 2 == 1 then (160 - (pos - 55)) as real else (160 - (pos + 55)) as real
  }

  /** Does this frame enter the red-cone branch? */
  predicate InConeBranch(s: Stage, f: ProcessedFrame)
  {
    f.redConePos != -1 && !s.redConeFinish
  }

  /** The latch updates that precede the control law. */
  function Latch(s: Stage, f: ProcessedFrame): Stage
  {
    var s1 := s.(blueRemoved := s.blueRemoved || f.blueCardRemoved);
    if s1.blueRemoved && !s1.hasBanma then s1.(hasBanma := f.zebraCrossing) else s1
  }

  /** One iteration of `controlLoop` with neutral servo angle `neutral`:
      the latches, then the stage dispatch. */
  function Decide(neutral: real, s: Stage, f: ProcessedFrame, lastError: real): (d: Decision)
    ensures |d.motor| >= 1
    ensures d.parked <==> d.servo == None
  {
    Respond(neutral, Latch(s, f), f, lastError)
  }

  /** The stage dispatch on the latched stage `s2`: lane error and PD step,
      then exactly one of the cone, A/B, yellow and cruise branches. */
  function Respond(neutral: real, s2: Stage, f: ProcessedFrame, lastError: real): (d: Decision)
    ensures |d.motor| >= 1
    ensures d.parked <==> d.servo == None
  {
    var e := LaneError(s2.abFinish, f.midLine);
    var laneAngle := ClampReal(neutral + PdLaw(Kp, Kd, e, lastError), MinAngle, MaxAngle);
    if InConeBranch(s2, f) then
      var ce := ConeError(s2.redNums, f.redConePos);
      var n := s2.redNums + 1;
      var finish := n >= 3 && s2.passNums > 80;
      var pass := if n >= 3 then s2.passNums + 1 else s2.passNums;
      var next := s2.(redNums := n, passNums := pass, redConeFinish := finish,
                      abFinish := if finish then false else s2.abFinish);
      Decision(next, ce, [CruiseSpeed], Some(neutral + PdLaw(Kp, Kd, ce, e)), false, None)
    else if s2.redConeFinish && !s2.abFinish then
      if f.redConePos != -1 then
        Decision(s2.(abFinish := true), e, [SlowSpeed, StopSpeed], Some(laneAngle), false,
                 Some(if f.abResult != -1 then f.abResult else 2))
      else
        Decision(s2, e, [SlowSpeed], Some(laneAngle), false, None)
    else if s2.abFinish && !s2.yellowFinish then
      if f.yellowCount >= 2 then
        Decision(s2.(yellowFinish := true), e, [SlowSpeed, StopSpeed], None, true, None)
      else
        Decision(s2, e, [SlowSpeed], Some(laneAngle), false, None)
    else
      Decision(s2, e, [CruiseSpeed], Some(laneAngle), false, None)
  }

  /** Stages reachable from the initial one: the zebra latch is stuck at
      true, A/B completes only after the cones, parking only after A/B, and
      frames are counted as passed only once three cones have been seen. */
  predicate Reachable(s: Stage)
  {
    s.hasBanma &&
    (s.abFinish ==> s.redConeFinish) &&
    (s.yellowFinish ==> s.abFinish) &&
    (s.passNums > 0 ==> s.redNums >= 3)
  }

  lemma InitialReachable()
    ensures Reachable(InitialStage)
  {
  }

  /** Every iteration keeps the stage reachable; in particular `has_banma`
      never becomes false, so the zebra-detection branch never runs. */
  lemma DecidePreservesReachable(neutral: real, s: Stage, f: ProcessedFrame, lastError: real)
    requires Reachable(s)
    ensures Reachable(Decide(neutral, s, f, lastError).next)
    ensures Latch(s, f).hasBanma && Latch(s, f) == s.(blueRemoved := s.blueRemoved || f.blueCardRemoved)
  {
  }

  /** `blue_removed` latches on the first removed frame and never reverts,
      and no command depends on it: flipping it changes neither the motor
      targets, nor the servo angle, nor the PD state. */
  lemma BlueLatchIsInert(neutral: real, s: Stage, f: ProcessedFrame, lastError: real, b: bool)
    requires s.hasBanma
    ensures Decide(neutral, s, f, lastError).next.blueRemoved == (s.blueRemoved || f.blueCardRemoved)
    ensures var d := Decide(neutral, s, f, lastError);
            var d' := Decide(neutral, s.(blueRemoved := b), f, lastError);
            d.motor == d'.motor && d.servo == d'.servo && d.lastError == d'.lastError &&
            d.parked == d'.parked && d.abReport == d'.abReport
  {
  }

  /** Outside the red-cone branch the error is the lane error and, unless
      the loop parks, the servo gets neutral + PD output clamped to
      [0, 200]. */
  lemma LaneSteering(neutral: real, s: Stage, f: ProcessedFrame, lastError: real)
    requires s.hasBanma && !InConeBranch(s, f)
    ensures var d := Decide(neutral, s, f, lastError);
            var e := LaneError(s.abFinish, f.midLine);
            d.lastError == e &&
            (d.servo.Some? ==>
               d.servo.value == ClampReal(neutral + PdLaw(Kp, Kd, e, lastError), MinAngle, MaxAngle) &&
               MinAngle <= d.servo.value <= MaxAngle)
  {
  }

  /** Red-cone branch: cruise speed, the cone error offset by the parity of
      `red_nums`, the PD law applied a second time against the lane error
      (so its state ends on the cone error), an unclamped angle, one more
      cone counted. */
  lemma ConeSteering(neutral: real, s: Stage, f: ProcessedFrame, lastError: real)
    requires s.hasBanma && InConeBranch(s, f)
    ensures var d := Decide(neutral, s, f, lastError);
            var ce := ConeError(s.redNums, f.redConePos);
            d.motor == [CruiseSpeed] &&
            d.lastError == ce &&
            d.servo == Some(neutral + PdLaw(Kp, Kd, ce, LaneError(s.abFinish, f.midLine))) &&
            d.next.redNums == s.redNums + 1 && !d.parked && d.abReport == None
  {
  }

  /** The cone-branch angle can leave [0, 200]: with neutral 100, one cone
      already counted, the cone at column 0 and the lane line at 319 the
      servo gets 200.5 degrees. */
  lemma ConeAngleUnclamped()
    ensures var s := InitialStage.(redNums := 1);
            var f := ProcessedFrame(319.0, 0, false, false, -1, 0);
            Decide(100.0, s, f, 0.0).servo == Some(200.5)
  {
  }

  /** The cone stage ends only once at least three cones have been counted
      and more than 80 frames had already passed; `pass_nums` moves only
      when at least three cones have been counted, by one. */
  lemma ConeStageExit(neutral: real, s: Stage, f: ProcessedFrame, lastError: real)
    requires s.hasBanma
    ensures var d := Decide(neutral, s, f, lastError);
            (!s.redConeFinish && d.next.redConeFinish ==>
               d.next.redNums >= 3 && s.passNums > 80 && !d.next.abFinish) &&
            (d.next.passNums != s.passNums ==>
               d.next.redNums >= 3 && d.next.passNums == s.passNums + 1) &&
            (s.redConeFinish ==> d.next.redConeFinish && d.next.redNums == s.redNums)
  {
  }

  /** A/B stage: slow speed; the first frame with a visible cone stops the
      car, finishes the stage and reports the A/B result, 2 (B) when none
      was recognised. */
  lemma AbStage(neutral: real, s: Stage, f: ProcessedFrame, lastError: real)
    requires s.hasBanma && s.redConeFinish && !s.abFinish
    ensures var d := Decide(neutral, s, f, lastError);
            d.motor[0] == SlowSpeed && !d.parked &&
            (f.redConePos != -1 <==> d.next.abFinish) &&
            (f.redConePos != -1 ==>
               d.motor == [SlowSpeed, StopSpeed] &&
               d.abReport == Some(if f.abResult == -1 then 2 else f.abResult)) &&
            (f.redConePos == -1 ==> d.motor == [SlowSpeed] && d.abReport == None)
  {
  }

  /** Parking happens exactly in the yellow stage on a frame with a yellow
      count of at least 2; it slows then stops the motor and commands no
      servo. Every other iteration commands the servo exactly once. */
  lemma ParkingStage(neutral: real, s: Stage, f: ProcessedFrame, lastError: real)
    requires Reachable(s)
    ensures var d := Decide(neutral, s, f, lastError);
            (d.parked <==> s.abFinish && !s.yellowFinish && f.yellowCount >= 2) &&
            (d.parked ==> d.motor == [SlowSpeed, StopSpeed] && d.next.yellowFinish) &&
            (!d.parked ==> d.servo.Some?)
  {
  }

  /** Before the cones are done, frames without a cone drive at cruise
      speed. */
  lemma CruiseDefault(neutral: real, s: Stage, f: ProcessedFrame, lastError: real)
    requires Reachable(s) && !s.redConeFinish && f.redConePos == -1
    ensures Decide(neutral, s, f, lastError).motor == [CruiseSpeed]
    ensures Decide(neutral, s, f, lastError).next == Latch(s, f)
  {
  }
}
