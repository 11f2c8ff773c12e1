# 5g-car control core in Dafny

The repository drives a small autonomous model car (a Raspberry Pi with a
camera, a PWM motor on pin 13 and a PWM steering servo on pin 12) around a
contest track. It follows the lane lines and steers around red cones. It
waits for a blue baffle to be lifted before it starts. It watches for the
zebra crossing and the yellow parking line. Several generations of the
same car live side by side:

- the C++ car (`5g-car/`);
- its earlier single-file version (`old/test/all_in_one.cpp`) and the
  first skeleton (`old/core/smartcar.cpp`);
- the Python scripts (`5g-car-python/`).

This project models the perception-to-actuation loop of all of them:

- **Lane-centre scanners.** Three pixel scanners find the lane lines in a
  binary image and average the midpoints into one column: `tracking` in
  `test_stream.py`, `trackMidLine`, and the row scan of `pid_official.py`.
- **Steering laws.** The PD controllers and the interval PID, the output
  clamps, and the angle-to-servo conversions.
- **The motor ramp governor.** `setMotor` / `set_dian` emit a staircase of
  duty writes 50 apart.
- **Event detectors and their debounce counters.** These cover the zebra
  stripes, the blue baffle, the blue card, the yellow line and the
  contour-area thresholds.
- **The per-frame stage machine of `controlLoop`.** Its stages are cones,
  then the A/B sign, then parking.
- **The level tags and line format of the C++ logger.**

Conventions of the model:

- Hardware writes become traces: `motorWrites` and `servoWrites` hold every
  duty or pulse value handed to pigpio, in order.
- Images are read-only `seq<seq<int>>` grids of 0/255 pixels. The one mask
  the source edits in place is an `array2`.
- OpenCV results (contour areas, pixel counts, the cone column, the YOLO
  answer) are inputs.
- Clocks are parameters.
- Reals are exact; `(int)` / `int()` truncate toward zero (`Common.Trunc`);
  C `round` rounds halves away from zero (`Common.RoundHalfAway`).

Module map:

- Shared definitions:
  - `Ramp`: the motor staircase.
  - `Pd`: the PD law and its runs.
  - `ServoMaps`: the three angle-to-servo maps.
  - `Mission`: one `controlLoop` iteration as a function. The C++ car and
    its single-file predecessor both run it.
  - `MidWindow`: the averaging window shared by two scanners.
- One module per source component. `Dian_Duo` of
  `5g-car-python/test/drive.py` has the same code as the Linux branch of
  `Control` in `5g-car-python/test/all_in_one.py`. It is modelled by
  `AllInOnePy.Control` with `windows == false`: `set_dian` at
  `test/drive.py:65-76`, `pid` at `81-84` and `set_duo` at `90-99`.

## Model

| member | source | states |
|---|---|---|
| Ramp.StepsShape | 5g-car/src/gpio_control.cpp:20-23 | the loop visits start, start+50, ... up to the target; the ramp is empty exactly when start > target; every value lies in [start, target]; the last one is within 50 of the target |
| Ramp.CppMotorWritesFacts | 5g-car/src/gpio_control.cpp:18-28 | above 10800 every write lies in [10800, value] and the last is within 50 of it; decelerating while above 10800 writes nothing; at or below 10800 exactly one write of the value |
| Ramp.CppFirstWrite | 5g-car/src/gpio_control.cpp:20 | the first ramp write is max(10800, last_dian): the last level itself when it is at least 10800, else a jump to 10800 |
| Ramp.FinalWriteFallsShort | 5g-car/src/gpio_control.cpp:19-27 | from 10000, commanding 10849 writes only 10800, so the final write need not equal the target |
| Ramp.PyMotorWritesFacts | 5g-car-python/test/drive.py:65-76 | target clamped to [0, 13000]; no increase gives one write of the clamped target; an increase to a target below 10800 writes nothing; ramp writes lie in [10800, target] and end within 50 of it |
| Pd.PdRunFacts | 5g-car/src/pid_controller.cpp:3-7 | successive calls give one output each: the first differentiates against the starting last error, every later one against the previous argument |
| Pd.ConstantErrorSettles | 5g-car/src/pid_controller.cpp:3-7 | from last error 0 with gains 0.25/0.125, repeating error e gives 0.375*e first and exactly 0.25*e from the second call on |
| PidController.PidController.constructor | 5g-car/include/pid_controller.h:6-8 | a new controller starts with last error 0.0 |
| PidController.PidController.Compute | 5g-car/src/pid_controller.cpp:3-7 | returns kp*e + kd*(e - last_error) with kp 0.25, kd 0.125, and afterwards last_error equals e |
| IntervalPid.NoDerivativeSpike | 5g-car-python/src/pid.py:13-20 | with no previous time or a previous time of 0.0 (falsy) dt is 0.02; a non-positive interval gives derivative 0.0, never a division by zero; otherwise (e - prev)/(now - last_time) |
| IntervalPid.PidController.constructor | 5g-car-python/src/pid.py:4-10 | gains default to 0.25, 0.0, 0.125; prev and sum start at 0.0 and last_time at None |
| IntervalPid.PidController.Update | 5g-car-python/src/pid.py:12-23 | last_time becomes now, sum grows by error*dt, prev becomes error; the output is kp*e + ki*sum + kd*de, unclamped |
| ServoMaps.PulseWidth | 5g-car-python/test/all_in_one.py:317-321 | the angle is clamped to [0, 180] and the pulse lies in [500, 2500] |
| ServoMaps.PulseWidthFacts | 5g-car-python/test/drive.py:90-99 | the pulse is monotone in the angle, saturates at 500 and 2500, and inside [0, 180] the angle is recovered from it |
| ServoMaps.ServoDutyFacts | 5g-car-python/src/drive.py:49-52 | (0.5 + 2/270*angle)/20*30000 is strictly increasing in the angle and 0 degrees gives 750 |
| ServoMaps.ServoPwmFacts | 5g-car/src/gpio_control.cpp:30-39 | the rounded linear map is monotone; -90, 0 and 90 degrees give 3, 8 and 13; nothing is clamped, so 100 and 200 degrees give 13 and 19 |
| GpioControl.GpioControl.constructor | 5g-car/include/gpio_control.h:25 | last_dian starts at 10000 and nothing is written yet |
| GpioControl.GpioControl.Init | 5g-car/src/gpio_control.cpp:4-14 | writes motor 10000 then the servo value for 100 degrees; last_dian is untouched |
| GpioControl.GpioControl.SetMotor | 5g-car/src/gpio_control.cpp:18-28 | appends exactly the staircase of the governor from the old last_dian and sets last_dian to the value; no servo write |
| GpioControl.GpioControl.SetServo | 5g-car/src/gpio_control.cpp:30-39 | appends one write of round(2.5 + (angle+90)/180*10); the motor side is untouched |
| Mission.LaneError | 5g-car/src/control_actuator.cpp:34-35 | error is 160 - mid_line, shifted by 40 once the A/B stage has finished |
| Mission.ConeError | 5g-car/src/control_actuator.cpp:43-44 | the cone target is 55 pixels to one side on odd counts and to the other on even ones |
| Mission.Decide | 5g-car/src/control_actuator.cpp:22-76 | every iteration sets the motor at least once, and it commands no servo exactly when it parks |
| Mission.Respond | 5g-car/src/control_actuator.cpp:34-76 | the dispatch after the latches makes at least one motor call and parks exactly when it commands no servo |
| Mission.InitialReachable | 5g-car/src/control_actuator.cpp:22 | the initial stage (has_banma true, everything else cleared) satisfies the stage invariant |
| Mission.DecidePreservesReachable | 5g-car/src/control_actuator.cpp:22-32 | every iteration keeps the invariant; has_banma stays true, so the zebra latch is a no-op and its branch never runs |
| Mission.BlueLatchIsInert | 5g-car/src/control_actuator.cpp:24-74 | blue_removed latches on the first removed frame, and flipping it changes no motor target, servo angle, PD state, parking or A/B report |
| Mission.LaneSteering | 5g-car/src/control_actuator.cpp:34-39 | outside the cone branch the PD state ends on the lane error and any servo angle is neutral + PD clamped to [0, 200] |
| Mission.ConeSteering | 5g-car/src/control_actuator.cpp:41-48 | cone branch: motor 11000, PD applied a second time so its state ends on the cone error, unclamped angle, one more cone counted, no parking |
| Mission.ConeAngleUnclamped | 5g-car/src/control_actuator.cpp:45-46 | with one cone counted, the cone at column 0 and mid_line 319 the servo gets 200.5 degrees, outside [0, 200] |
| Mission.ConeStageExit | 5g-car/src/control_actuator.cpp:49-52 | the cone stage ends only with at least three cones and more than 80 frames already passed, clearing ab_finish; pass_nums moves by one and only from the third cone |
| Mission.AbStage | 5g-car/src/control_actuator.cpp:55-63 | A/B stage: motor 10800; a visible cone stops the car, finishes the stage and reports the result, 2 when none was recognised; otherwise nothing is reported |
| Mission.ParkingStage | 5g-car/src/control_actuator.cpp:64-76 | it parks exactly in the yellow stage with yellow_count >= 2, writing 10800 then 10000 and no servo; every other iteration commands the servo |
| Mission.CruiseDefault | 5g-car/src/control_actuator.cpp:72-74 | before the cones are done, a frame without a cone drives at 11000 and changes only the latches |
| ControlActuator.ControlActuator.constructor | 5g-car/src/control_actuator.cpp:3-6 | initial stage, PD state 0, last_dian 10000, and `init` writes motor 10000 and the 100-degree servo value |
| ControlActuator.ControlActuator.Step | 5g-car/src/control_actuator.cpp:22-76 | once parked nothing changes; otherwise the stage, PD state, motor staircase and servo write are those of `Mission.Decide` with neutral 100 |
| ControlActuator.ControlActuator.Respond | 5g-car/src/control_actuator.cpp:34-76 | the stage dispatch updates the state and traces exactly as `Mission.Respond` with neutral 100 |
| ControlActuator.ControlActuator.ConeStage | 5g-car/src/control_actuator.cpp:41-52 | motor 11000, angle 100 + PD of the cone error against the lane error, red_nums + 1, pass_nums and the finish flags as the source updates them |
| ControlActuator.ControlActuator.AbStage | 5g-car/src/control_actuator.cpp:55-63 | writes 10800; with a visible cone also 10000, sets ab_finish and reports the result defaulting to 2 |
| ControlActuator.ControlActuator.YellowStage | 5g-car/src/control_actuator.cpp:64-71 | writes 10800; parks exactly when yellow_count >= 2, then sets yellow_finish and writes 10000 |
| MidWindow.Window | 5g-car-python/src/test_stream.py:285-290 | the window starts at n//2, is non-empty for a non-empty list, holds at most 5 midpoints, and stays inside the list |
| MidWindow.WindowMeanBounds | 5g-car-python/src/test_stream.py:285-296 | when every midpoint lies in [lo, hi], the floor mean of the window lies in [lo, hi] |
| MidWindow.WindowRealMeanBounds | old/test/all_in_one.cpp:261-267 | when every midpoint lies in [lo, hi], the exact mean of the window lies in [lo, hi] |
| MidWindow.WindowMeanConstant | old/test/all_in_one.cpp:261-267 | a constant list of midpoints averages to that constant |
| LaneScan.LeftCursor | 5g-car-python/src/test_stream.py:245-255 | the left search stops at the largest c in [1, begin] with pixels c and c+1 both 255; without one its cursor ends at 0 |
| LaneScan.RightCursor | 5g-car-python/src/test_stream.py:257-267 | the right search stops at the smallest c in [begin, 318] with pixels c-1 and c both 255; without one its cursor ends at 319 |
| LaneScan.ScanRow | 5g-car-python/src/test_stream.py:239-280 | a row's midpoint lies in [1, 318] and the next seed stays in [0, 318] |
| LaneScan.Mids | 5g-car-python/src/test_stream.py:239-280 | at most one midpoint per scanned row |
| LaneScan.MidsBounds | 5g-car-python/src/test_stream.py:269-280 | every kept midpoint lies in [1, 318] |
| LaneScan.Tracking | 5g-car-python/src/test_stream.py:227-311 | the scanner returns `TrackResult`, the windowed floor mean of the kept midpoints or 160 when there are none |
| LaneScan.ScanRows | 5g-car-python/src/test_stream.py:232-280 | the row loop from rows-1 down to rows/2 collects exactly the midpoints of the kept rows, bottom first |
| LaneScan.ScanStep | 5g-car-python/src/test_stream.py:239-280 | one pass of the row loop moves the next row's midpoint (if kept) from the still-to-scan list to the collected list, keeping the seed in [0, 318] |
| LaneScan.TrackRow | 5g-car-python/src/test_stream.py:240-280 | one row appends its midpoint unless both sides hit the boundary, and hands on (to_left + to_right)//2 as the next seed |
| LaneScan.SearchLeft | 5g-car-python/src/test_stream.py:245-255 | the left cursor loop ends where `LeftCursor` says, and it reports a line exactly when the cursor is at least 1 |
| LaneScan.SearchRight | 5g-car-python/src/test_stream.py:257-267 | the right cursor loop ends where `RightCursor` says, and it reports a line exactly when the cursor is at most 318 |
| LaneScan.WindowFloorMean | 5g-car-python/src/test_stream.py:285-296 | the summing loop returns the floor mean of the window |
| LaneScan.TrackResultBounds | 5g-car-python/src/test_stream.py:282-296 | no midpoints gives 160; otherwise the result lies between the smallest and largest sampled midpoint, and always in [1, 318] |
| LaneScan.DarkRowCursors | 5g-car-python/src/test_stream.py:245-267 | on a row with no foreground the cursors run out to 0 and 319 |
| LaneScan.DarkRowScan | 5g-car-python/src/test_stream.py:269-280 | such a row is kept with midpoint 159 and seed 159: the drop needs cursors at exactly 1 and 318 |
| LaneScan.DarkMids | 5g-car-python/src/test_stream.py:239-280 | on an all-dark image every scanned row contributes a midpoint of 159 |
| LaneScan.DarkImage | 5g-car-python/src/test_stream.py:239-296 | an all-dark image with at least one row yields 159, not 160 |
| LaneScan.Steering | 5g-car-python/src/test_stream.py:313-326 | the steering angle lies in [-30, 30] and is 0 at mid 160 |
| LaneScan.SteeringFacts | 5g-car-python/src/test_stream.py:317-323 | the angle is trunc((160-mid)*0.1875) clipped to [-30, 30], has the sign of 160-mid, is 0 exactly when the error is within 5, and saturates from an error of 160 |
| LaneScan.SteeringMonotone | 5g-car-python/src/test_stream.py:320-323 | a midline further right never steers further left |
| ZebraScan.WhiteRun | 5g-car-python/src/test_stream.py:366-368 | the run counter measures the maximal run of 255 pixels from j, bounded by cols-10 |
| ZebraScan.ScanZebraRow | 5g-car-python/src/test_stream.py:360-381 | the j/cout1/cout2 loop decides a row exactly as `RowQualifies`: at least 3 dark-preceded white runs of width in [6, 40) |
| ZebraScan.DetectZebra | 5g-car-python/src/test_stream.py:352-383 | the row loop over the lower half of the ROI, every second row, returns `ZebraInMask` |
| ZebraScan.ZebraFromMeaning | 5g-car-python/src/test_stream.py:355-381 | the streak scan succeeds exactly when the current streak can be completed or three consecutive sampled rows qualify later |
| ZebraScan.ZebraInMaskMeaning | 5g-car-python/src/test_stream.py:352-383 | the mask shows a crossing exactly when three consecutive sampled rows (step 2) qualify; an empty mask never does |
| ZebraScan.ZebraWatch.constructor | 5g-car-python/src/test_stream.py:393 | the frame counter and the zebra streak start at 0 |
| ZebraScan.ZebraWatch.OnFrame | 5g-car-python/src/test_stream.py:396-446 | a failed read changes nothing; only every fifth frame is examined; a detection extends the streak, a miss resets it, and the third in a row reports the crossing and resets the streak |
| BaffleWatch.BaffleWatch.constructor | 5g-car-python/src/test_stream.py:164-167 | the miss counter starts at 0 and detection is not complete |
| BaffleWatch.BaffleWatch.OnFrame | 5g-car-python/src/test_stream.py:169-193 | once complete or on a failed read nothing changes; every fifth frame a sighting resets the counter and a miss adds one; the counter is the trailing run of misses and completion is 10 of them |
| BaffleWatch.CompletesWithoutSighting | 5g-car-python/src/test_stream.py:185-193 | ten examined frames without the baffle complete detection, whether or not it was ever seen |
| AllInOnePy.FindBlueCard | 5g-car-python/test/all_in_one.py:127-138 | false with no contours, else true exactly when some (so the largest) area exceeds 5000 |
| AllInOnePy.Baffle.constructor | 5g-car-python/test/all_in_one.py:93-109 | nothing detected, both counters 0, not complete |
| AllInOnePy.Baffle.Step | 5g-car-python/test/all_in_one.py:145-197 | before the baffle is seen misses are not counted and the first hit resets the counters; afterwards misses count and any hit resets; completion exactly at the third consecutive miss or on the quit key |
| AllInOnePy.RemovalConfirmed | 5g-car-python/test/all_in_one.py:174-182 | a confirmed removal means the last four observations were a sighting then three misses |
| AllInOnePy.Control.constructor | 5g-car-python/test/all_in_one.py:215-237 | last_error 0 and last_dian 11800 on both platforms; set_gpio writes no duty |
| AllInOnePy.Control.SetDian | 5g-car-python/test/all_in_one.py:282-297 | on Windows nothing changes; otherwise the clamped target's staircase is written and becomes last_dian |
| AllInOnePy.Control.Pid | 5g-car-python/test/all_in_one.py:302-306 | returns 0.25*e + 0.125*(e - last_error) and stores e |
| AllInOnePy.Control.SetDuo | 5g-car-python/test/all_in_one.py:312-324 | on Linux one write of the clamped pulse width; on Windows nothing |
| AllInOnePy.Control.Cleanup | 5g-car-python/test/all_in_one.py:329-338 | on Linux writes servo pulse 0 and motor duty 0; on Windows nothing |
| SrcDrive.ReadName | 5g-car-python/src/drive.py:44-47 | a name local to the function (a parameter or assigned, not declared global) reads its binding or fails; any other name reads the module global |
| SrcDrive.PidScoping | 5g-car-python/src/drive.py:44-47 | the body as written raises UnboundLocalError for every input; with `global last_error` it computes the PD law against the module's last error |
| SrcDrive.GPIOController.constructor | 5g-car-python/src/drive.py:13-17 | last_dian starts at 10000 and last_error (module level) at 0 |
| SrcDrive.GPIOController.SetGpio | 5g-car-python/src/drive.py:19-32 | writes motor 10000 then the duty for 156.5 degrees |
| SrcDrive.GPIOController.SetDian | 5g-car-python/src/drive.py:34-42 | the C++-style staircase from max(10800, last_dian) without clamping, one write at or below 10800, and last_dian := value |
| SrcDrive.GPIOController.PidAsWritten | 5g-car-python/src/drive.py:44-47 | every call raises UnboundLocalError and changes nothing |
| SrcDrive.GPIOController.Pid | 5g-car-python/src/drive.py:44-47 | with the evidently intended global: returns the PD law against the stored error and stores the new one |
| SrcDrive.GPIOController.SetDuo | 5g-car-python/src/drive.py:49-52 | one unclamped write of (0.5 + 2/270*angle)/20*30000 |
| OldTrackMidLine.LeftStop | old/test/all_in_one.cpp:248-250 | the left cursor stops at the first c > 1 going left with pixels c and c+1 both 255, else at 1 |
| OldTrackMidLine.RightStop | old/test/all_in_one.cpp:252-254 | the right cursor stops at the first c < cols-1 going right with pixels c and c-2 both 255 (a one-pixel gap), else at cols-1 |
| OldTrackMidLine.ScanRow | old/test/all_in_one.cpp:247-259 | the next seed stays in [1, cols-2], and at least 2 when the row is kept |
| OldTrackMidLine.Mids | old/test/all_in_one.cpp:247-260 | at most one midpoint per row, each in [2, cols-2] |
| OldTrackMidLine.TrackMidLine | old/test/all_in_one.cpp:243-268 | returns `TrackResult`: 160.0 with no midpoints, else the exact mean of the window |
| OldTrackMidLine.ScanRows | old/test/all_in_one.cpp:244-260 | the row loop collects exactly the midpoints of rows with both sides found |
| OldTrackMidLine.TrackRow | old/test/all_in_one.cpp:248-259 | one row records a midpoint only when both sides are found and always moves the seed to the mean of the raw cursors |
| OldTrackMidLine.SearchLeft | old/test/all_in_one.cpp:248-249 | the left cursor loop ends where `LeftStop` says |
| OldTrackMidLine.SearchRight | old/test/all_in_one.cpp:252-253 | the right cursor loop ends where `RightStop` says |
| OldTrackMidLine.WindowMean | old/test/all_in_one.cpp:262-267 | the summing loop returns the exact mean of the window |
| OldTrackMidLine.TrackResultBounds | old/test/all_in_one.cpp:261-267 | no midpoints gives 160.0; otherwise the result lies between the sampled minimum and maximum, and always in [2, cols-2] |
| OldTrackMidLine.RowBetweenLines | old/test/all_in_one.cpp:248-257 | with the nearest line pairs at a and b around the seed, the cursors stop exactly there |
| OldTrackMidLine.DarkMids | old/test/all_in_one.cpp:247-260 | an all-dark image records no midpoint |
| OldTrackMidLine.DarkImage | old/test/all_in_one.cpp:243-261 | an all-dark image yields 160.0 |
| OldAllInOne.OldServoWrite | old/test/all_in_one.cpp:109-113 | the written duty is the truncation of (0.5 + 2/270*angle)/20*30000 |
| OldAllInOne.OldGpioControl.constructor | old/test/all_in_one.cpp:82 | last_dian starts at 10000 |
| OldAllInOne.OldGpioControl.Init | old/test/all_in_one.cpp:85-95 | writes motor 10000 then the servo duty for 156.5 degrees |
| OldAllInOne.OldGpioControl.SetMotor | old/test/all_in_one.cpp:97-107 | appends the governor's staircase from the old last_dian and sets last_dian to the value |
| OldAllInOne.OldGpioControl.SetServo | old/test/all_in_one.cpp:109-113 | appends one truncated duty write |
| OldAllInOne.ProcessLoop.constructor | old/test/all_in_one.cpp:292-297 | every static counter starts at 0 and every flag cleared |
| OldAllInOne.ProcessLoop.DetectYellow | old/test/all_in_one.cpp:205-219 | above 1000 pixels the shared count rises by one and the result is count >= 2; otherwise false and no change |
| OldAllInOne.ProcessLoop.BlueStep | old/test/all_in_one.cpp:321-326 | the blue counter rises on detections up to 3 and stays in [0, 3]; a miss at 3 reports removal and resets it to 0; anything else leaves it |
| OldAllInOne.ProcessLoop.ZebraStep | old/test/all_in_one.cpp:328-334 | zebra_start follows the frame; zebra_finished is false exactly on the frame where a crossing first appears |
| OldAllInOne.ProcessLoop.Step | old/test/all_in_one.cpp:310-345 | blue counter rises only on detections up to 3 and a miss at 3 reports removal and resets it; zebra start/finish edges; cone count; the A/B call once three cones are seen; yellow_detected always false and yellow_count at most 1 |
| OldAllInOne.NeverParks | old/test/all_in_one.cpp:435-442 | with yellow_count at most 1 the control loop never parks and always commands the servo |
| OldAllInOne.OldControlActuator.constructor | old/test/all_in_one.cpp:376-379 | initial stage, PD state 0, and `init`'s two writes |
| OldAllInOne.OldControlActuator.Step | old/test/all_in_one.cpp:394-447 | once parked nothing changes; otherwise stage, PD state and traces follow `Mission.Decide` with neutral 156.5 and the truncated duty map |
| OldAllInOne.OldControlActuator.Respond | old/test/all_in_one.cpp:407-447 | the dispatch follows `Mission.Respond` with neutral 156.5 |
| OldAllInOne.OldControlActuator.ConeStage | old/test/all_in_one.cpp:414-425 | motor 11000, angle 156.5 + PD of the cone error against the lane error, counters and flags as the source updates them |
| OldAllInOne.OldControlActuator.AbStage | old/test/all_in_one.cpp:426-434 | writes 10800; with a visible cone also 10000, sets ab_finish and reports the result defaulting to 2 |
| OldAllInOne.OldControlActuator.YellowStage | old/test/all_in_one.cpp:435-442 | writes 10800; parks exactly when yellow_count >= 2, writing 10000 |
| PidOfficial.FirstBright | 5g-car-python/test/pid_official.py:70-72 | the first 255 pixel at or after a column, or 600 when there is none |
| PidOfficial.ScanLine | 5g-car-python/test/pid_official.py:67-90 | left is the first foreground column (0 on an empty row); a paired right lies more than 100 columns further; unpaired with left > 0 gives right 599 |
| PidOfficial.RowMid | 5g-car-python/test/pid_official.py:92-103 | the midpoint of the previous row, mirrored (left := 599-right, right := old left) when this row has no right line and the left line moved left |
| PidOfficial.BandLines | 5g-car-python/test/pid_official.py:67-105 | exactly 100 rows, 370 down to 271, each scanned as `Raw` says |
| PidOfficial.ErrorAngle | 5g-car-python/test/pid_official.py:113-119 | the PD output clamped to [-45, 25], unchanged inside that range |
| PidOfficial.ServoAngle | 5g-car-python/test/pid_official.py:113-121 | the commanded angle 85 - error_angle always lies in [60, 130] |
| PidOfficial.LaneLoop.constructor | 5g-car-python/test/pid_official.py:17-18 | last_error and error start at 0 |
| PidOfficial.LaneLoop.Iterate | 5g-car-python/test/pid_official.py:45-124 | one pass of the main loop sets error := mid_final - 300, stores it as last_error, and writes the pulse width of the angle in [60, 130] |
| PidOfficial.LaneLoop.SetDuo | 5g-car-python/test/pid_official.py:28-37 | one write of the clamped pulse width |
| PidOfficial.ScanBand | 5g-car-python/test/pid_official.py:57-106 | the nested row loops compute `MidFinal`: the sum of the midpoints of rows 0..98 divided by 100 |
| PidOfficial.BandRow | 5g-car-python/test/pid_official.py:67-105 | one pass of the row loop scans row t as `Raw` says, adds that row's midpoint to the running sum, and leaves the later right slots at their initial value |
| PidOfficial.ScanRow | 5g-car-python/test/pid_official.py:67-90 | the column loops for one row compute `ScanLine` |
| PidOfficial.FindRight | 5g-car-python/test/pid_official.py:75-80 | the partner search finds the first foreground column more than 100 past left, or keeps the previous slot |
| PidOfficial.ConstantLane | 5g-car-python/test/pid_official.py:103-105 | when every row sees the same lines, the running sum after t rows is t-1 midpoints |
| PidOfficial.LanePairScan | 5g-car-python/test/pid_official.py:70-80 | a row whose only lines are at a and b more than 100 apart scans as the pair (a, b) |
| PidOfficial.StraightLane | 5g-car-python/test/pid_official.py:103-121 | a straight lane at a and b gives mid_final 0.99*(a+b)/2: for lines symmetric about 300 it reads 297 and steers 85.75 degrees, not 85 |
| FindBaffle.ZeroRows | 5g-car-python/src/find_baffle.py:35-36 | rows in [lo, hi) become 0 and every other cell is unchanged |
| FindBaffle.ProcessBlueArea | 5g-car-python/src/find_baffle.py:12-38 | a missing or empty frame is refused with the mask untouched; otherwise rows < 70 and >= 120 are zeroed and rows 70..119 kept |
| FindBaffle.FindBlueCard | 5g-car-python/src/find_baffle.py:40-63 | true exactly when contours exist and some area exceeds 10000; an exception gives false |
| FindBaffle.IsBlueCardRemoved | 5g-car-python/src/find_baffle.py:65-88 | true on an exception or when every area is below 10000, including no contours |
| FindBaffle.CalculateBlueArea | 5g-car-python/src/find_baffle.py:90-108 | the sum of the contour areas, 0.0 on an exception |
| FindBaffle.FoundAndRemovedExclusive | 5g-car-python/src/find_baffle.py:52-84 | the two decisions never hold together, and both are false exactly when the largest area is 10000 |
| FindBaffle.TotalAtLeastLargest | 5g-car-python/src/find_baffle.py:98-104 | the total area is at least the largest area, so a found card means a total above 10000 |
| SmartCar.ServoValue | old/core/smartcar.cpp:87 | 1565 + (int)(angle*10), truncated toward zero on both sides of 0 |
| SmartCar.ServoTrace | old/core/smartcar.cpp:77-88 | one servo value per call |
| SmartCar.MotorTrace | old/core/smartcar.cpp:91-95 | each call writes 10800 while Banma_finish is non-zero, else 12000 |
| SmartCar.CallsFrom | old/core/smartcar.cpp:105-115 | the number of loop iterations lies between the start frame and the frame count |
| SmartCar.CallsFromMeaning | old/core/smartcar.cpp:105-115 | every counted frame was read; ESC came on none before the last; the loop stopped on an empty frame or on ESC |
| SmartCar.SmartCar.constructor | old/core/smartcar.cpp:11-13 | res_y 240.0, Banma_finish 1, static last_error 0 |
| SmartCar.SmartCar.Initialize | old/core/smartcar.cpp:27-47 | writes motor 10000 and servo 1565 |
| SmartCar.SmartCar.ControlMotors | old/core/smartcar.cpp:72-96 | error = res_y - 120; writes 1565 + (int)(10*PD) and the Banma_finish motor level; last_error := error |
| SmartCar.SmartCar.ProcessedFrame | old/core/smartcar.cpp:106-110 | one frame's `controlMotors` extends the servo trace by its next element |
| SmartCar.SmartCar.Run | old/core/smartcar.cpp:98-119 | the loop makes one call per frame until an empty frame or ESC, producing exactly `ServoTrace` and `MotorTrace` |
| SmartCar.StartTrace | old/core/smartcar.cpp:13-96 | from the initial state the first call writes servo 2015 and every later call 1865 |
| SmartCar.SteadyTrace | old/core/smartcar.cpp:80-87 | once last_error is 120 every call writes 1865 |
| Debug.LevelStr | 5g-car/include/debug.h:75-83 | every level tag is four characters |
| Debug.LevelStrInjective | 5g-car/include/debug.h:75-83 | the tags tell the levels apart |
| Debug.LevelOf | 5g-car/include/debug.h:75-83 | a recognised tag names the level it is the tag of |
| Debug.DigitsRoundTrip | 5g-car/include/debug.h:35-36 | the zero-padded time fields read back as the numbers written |
| Debug.Timestamp | 5g-car/include/debug.h:29-36 | HH:MM:SS.mmm, twelve characters with the separators in place |
| Debug.FormatLine | 5g-car/include/debug.h:38-40 | "[" timestamp "] [" tag "] " message and a newline, with each part at its fixed column |
| Debug.Log | 5g-car/include/debug.h:24-41 | nothing is written exactly for DEBUG with the switch off; otherwise the formatted line |
| Debug.ParseFormat | 5g-car/include/debug.h:38-40 | every written line parses back to its level and message |
| Debug.Wrappers | 5g-car/include/debug.h:46-69 | only `debug` can be silenced, and each wrapper's line carries its own level |

## Findings

| source | as written | input that shows it | evidently intended | confidence | as-written member | corrected member |
|---|---|---|---|---|---|---|
| 5g-car-python/src/drive.py:44-47 | `pid` assigns `last_error` without a `global` declaration, so the name is local and its read on line 45 raises UnboundLocalError | any call, for example `pid(1.0)` on a fresh controller | the PD law against the module-level `last_error`, which is then replaced (as in the other `pid` methods) | high; not executed | SrcDrive.GPIOController.PidAsWritten | SrcDrive.GPIOController.Pid |

## Left out
- Threads, mutexes, condition variables, the frame and result queues and their admission rule: each model step is one iteration on one dequeued item.
- Camera reads, frame-rate sleeps, ramp sleeps and the 500 ms A/B pause: time is not modelled, except for `now` in `IntervalPid.PidController.Update`.
- OpenCV (colour conversion, thresholds, morphology, Canny, contours, pixel counts) and the YOLO/`callYoloAB` calls: their results are inputs (binary grids, area lists, the `Detections` record, the `yolo` answer).
- pigpio set-up calls (modes, ranges, frequencies, `gpioInitialise`, `stop`, `gpioTerminate`), `start_pigpiod` and `src/drive.py` `cleanup` (it only stops the connection): only duty and pulse writes are recorded.
- Printing and drawing: `print`, `cout`, `cv2.circle`, `imwrite`, `imshow`; pid_official's unused `mid` list and debug lines.
- Audio (`Broadcast`) and the zebra stop's announcement and ten-second pause in `tracking_thread`: the pause sets `parked` and clears it again before the next frame, so the model only resets the streak.
- The `tracking_thread` frame limit and the steering computed per frame: `ZebraScan.ZebraWatch.OnFrame` models the zebra counter only; `LaneScan.Tracking` and `LaneScan.Steering` model the rest.
- The `abs_i >= rows` break of the zebra scan: `abs_i` is always below `rows`.
- `smartcar.cpp` `processFrame`: every branch is empty, so it changes nothing and `SmartCar.SmartCar.Run` makes no step for it.
- `Logger::log`'s wall clock and time zone: the broken-down local time and the millisecond count are parameters. `ENABLE_DEBUG_LOG` comes from config.h, which is not part of this model; it is a parameter. The `UNKN` default of `levelStr` cannot occur with the four enumerators.
- Floating point: all arithmetic is exact over `real`; `0.1875` is exactly 3/16.
- OldAllInOne.OldServoWrite: states the double-to-unsigned conversion only for a non-negative duty; a negative duty (an angle below -67.5 degrees) is undefined behaviour in C++.
- SrcDrive.GPIOController.SetDuo: records the real duty value; pigpio's own integer conversion of it is not part of this model.
- AllInOnePy.Baffle.Step: the quit key is an input, read after the frame's decision as in the source; the capture-failure retry records nothing.
