# Face tracker pan/tilt/roll controller in Dafny

This is a model of the closed-loop controller in `face_tracker.py`. The controller keeps the midpoint between two tracked eyes centred in the camera frame by driving three ST3215 servos: pan, tilt and roll.

- **Dead-zone PD step** (`EyeTracker.calculate_servo_offsets`). For each axis, an error strictly inside the dead zone is zeroed and clears the axis's previous error. A non-zero error yields `int(e*kp + (e - prev)*kd)` and becomes the new previous error. `int` truncates toward zero. Roll multiplies both terms by 5.
- **Range and limit guard** (`ServoController.move_to_position`, `_check_servo_loads`):
  - A load reading that is present and above 80 % in magnitude flags the axis as at its limit. A missing reading clears the flag.
  - The increment applies when the axis is not at its limit, or when increment × offset < 0. Pan and roll subtract it; tilt adds it.
  - The offset is then clamped to ±568 steps and sent as `2048 + offset`.
- **Target-loss supervisor and decimation** (`EyeTracker.run`):
  - A detection records the time and, if the servos were released, resumes them.
  - After 10 s without a detection, the servos are parked at the centre, torque is dropped and the offsets are zeroed.
  - The servos are commanded only on frames where both eyes are seen, the incremented frame count is a multiple of 5, and the servos are not released.

## Structure

- `pd_control.dfy` (module `PdControl`): truncation toward zero, the per-axis tuning constants, and `PdStep`, with lemmas about it.
- `servo_spec.dfy` (module `ServoSpec`): the value-level specification of the servo controller. `ServoState` holds the three axes and the log of commands sent to the ST3215 transport. The module defines `Clamp`, `AtLimit`, `Accumulate`, `Move`, `Release`, `Resume` and `StopAll`, with lemmas about them.
- `servo_controller.dfy` (module `ServoControl`): class `ServoController`. It has the source's fields (`panOffset`, `panAtLimit`, …) and a command log, and each method updates them in place. Every method is proved to produce `State() == Spec(old(State()))` and to keep the range invariant `Valid()`.
- `tracker_spec.dfy` (module `TrackerSpec`): the eye midpoint, the per-frame offsets (`ServoOffsets`), the supervisor (`Supervise`), one loop iteration (`Step`) and a run of frames (`RunFrames`), with lemmas about whole runs.
- `eye_tracker.dfy` (module `Tracker`): class `EyeTracker`. Its fields are the previous errors, the last detection time, the released flag and the frame counter. `ProcessFrame` is proved against `Step`. `Run` is a loop proved against `RunFrames` and followed by stopping every servo.

Inputs that the program gets from the outside world are parameters of the model:
- each frame's detection, as an optional eye pair;
- the clock reading;
- the eye-line angle in degrees, which the source computes with `atan2`;
- the three load readings, as optional reals.

### Behaviour of the code worth noting

- A failed load read clears `at_limit`; it does not leave it unchanged (`face_tracker.py:168-173`).
- Release zeroes the cumulative offsets only. The previous errors and the at-limit flags survive (`face_tracker.py:235-238`).
- Pan and roll check `delta * offset < 0` and then apply `offset -= delta`. So at a limit, the only moves the gate admits push the offset further from the centre. `ServoSpec.ReversedAxisAtLimitMovesOutward` proves this. On tilt, which adds the increment, the same gate admits only moves toward or past the centre (`ServoSpec.ForwardAxisAtLimitMovesInward`).
- The PD output is truncated toward zero, not rounded.
- Frames that are not command frames send no tracking move: their increments are dropped and only the previous errors carry over. On such a frame the servo state changes only through the timeout release or a resume, and the load check runs only inside a move (`face_tracker.py:547-563`). `TrackerSpec.StepGating` states this.

## Model

| member | source | states |
|---|---|---|
| `PdControl.Truncate` | face_tracker.py:404-408 | Python's `int()` on the PD output: the result has the sign of its input and the largest magnitude not above the input's |
| `PdControl.DeadZoneResets` | face_tracker.py:398-401 | an error strictly inside the dead zone gives increment 0 and previous error 0, whatever the previous error was |
| `PdControl.OutsideDeadZoneFires` | face_tracker.py:403-410 | a non-zero error outside the dead zone gives the PD output truncated toward zero (never larger in magnitude, same sign), and the error becomes the previous error |
| `PdControl.ZeroErrorKeepsHistory` | face_tracker.py:404-410 | a zero error outside a non-positive dead zone gives increment 0 and leaves the previous error unchanged |
| `PdControl.DeadZoneIdempotent` | face_tracker.py:399-401 | feeding the same dead-zone error twice gives increment 0 both times and the same state |
| `PdControl.PdStep` | face_tracker.py:398-410 | no contract of its own (it computes one axis's step); its properties are in `DeadZoneResets`, `OutsideDeadZoneFires`, `ZeroErrorKeepsHistory`, `DeadZoneIdempotent`, `RepeatedErrorIsProportional` and `PanScenarios` |
| `PdControl.RepeatedErrorIsProportional` | face_tracker.py:404-408 | feeding the same error twice outside the dead zone cancels the derivative term on the second step |
| `PdControl.PanScenarios` | face_tracker.py:396-410 | with the shipped pan tuning: error 20 (on the boundary) gives increment 30, error 15 gives 0 and clears the history, error -25 gives -37 |
| `ServoSpec.Clamp` | face_tracker.py:130-133 | the clamped offset lies in [-568, 568], equals the input when that is in range, and is the nearer bound otherwise |
| `ServoSpec.CheckLoadsSetsFlags` | face_tracker.py:160-191 | after a load check, each axis's flag holds iff its reading is present and its magnitude is strictly above 80; offsets and the command log are unchanged |
| `ServoSpec.CheckLoads` | face_tracker.py:160-191 | no contract of its own; `CheckLoadsSetsFlags` states each new flag and that offsets and the log are kept, and `ServoControl.ServoController.CheckServoLoads` is proved equal to it |
| `ServoSpec.LimitRaised` | face_tracker.py:167-189 | no contract of its own; `MoveGuarantees` states that the limit warning names exactly the axes whose flag went from clear to set |
| `ServoSpec.Accumulate` | face_tracker.py:114-123 | no contract of its own; its properties are in `LimitSuppresses`, `IncrementApplies`, `ReversedAxisAtLimitMovesOutward` and `ForwardAxisAtLimitMovesInward` |
| `ServoSpec.LimitSuppresses` | face_tracker.py:114-123 | at the limit, an increment with increment × offset ≥ 0 (including a zero offset) leaves the pre-clamp offset unchanged, on every axis |
| `ServoSpec.IncrementApplies` | face_tracker.py:114-123 | when not at the limit, or when increment × offset < 0, pan and roll subtract the increment and tilt adds it |
| `ServoSpec.ReversedAxisAtLimitMovesOutward` | face_tracker.py:116-123 | on pan and roll at their limit, every increment the gate admits moves the offset further from the centre |
| `ServoSpec.ForwardAxisAtLimitMovesInward` | face_tracker.py:119-120 | on tilt at its limit, every increment the gate admits moves the offset toward or past the centre |
| `ServoSpec.Move` | face_tracker.py:99-158 | no contract of its own; `MoveGuarantees` (the stored flags, each offset as `Clamp` of the gated value, and the exact commands sent to each servo id), `DisabledMoveIsInert`, `OperationsKeepRange` and `ClampScenario` state its properties |
| `ServoSpec.MoveWarnings` | face_tracker.py:126-144 | no contract of its own; `MoveGuarantees` states that the clamp warning names exactly the axes the clamp altered, and `DisabledMoveIsInert` that a disabled move warns of nothing |
| `ServoSpec.MoveGuarantees` | face_tracker.py:99-158 | after an enabled move: the servos stay enabled; the stored at-limit flags are those of the load check; every offset is in [-568, 568] and equals `Clamp` of its gated value (kept if in range, else the nearer bound); the clamp warning names exactly the axes the clamp altered; the limit warning names exactly the newly flagged axes; the log gains exactly three moves, pan to servo 1, tilt to servo 3 and roll to servo 2, each to `2048 +` its new offset at speed 200 and acceleration 5, so every position lies in [1480, 2616] |
| `ServoSpec.DisabledMoveIsInert` | face_tracker.py:108-109 | without servos a move changes nothing and warns of nothing |
| `ServoSpec.OperationsKeepRange` | face_tracker.py:126-133 | load check, move, release, resume and stop all keep every offset within ±568 |
| `ServoSpec.Release` | face_tracker.py:211-240 | no contract of its own; `ReleaseZeroesOffsets` and `OperationsKeepRange` state its properties |
| `ServoSpec.Resume` | face_tracker.py:242-255 | no contract of its own; `ResumeAndStopKeepAxes` and `OperationsKeepRange` state its properties |
| `ServoSpec.StopAll` | face_tracker.py:257-269 | no contract of its own; `ResumeAndStopKeepAxes` (with servos it appends one torque-off each to servos 1, 3 and 2 and leaves the axes alone) and `OperationsKeepRange` state its properties |
| `ServoSpec.ReleaseZeroesOffsets` | face_tracker.py:211-240 | release with servos enabled zeroes the three offsets, keeps the at-limit flags, and sends three centre moves, a 1.5 s pause, then three torque-off commands; without servos it changes nothing |
| `ServoSpec.ResumeAndStopKeepAxes` | face_tracker.py:242-269 | resume and stop leave the axes untouched; with servos, resume appends a torque-on and stop a torque-off to servos 1, 3 and 2 in that order; without servos both change nothing |
| `ServoSpec.ClampScenario` | face_tracker.py:126-144 | tilt at 560 with increment +50 ends at 568, with a clamp warning for tilt only |
| `ServoControl.ServoController.constructor` | face_tracker.py:33-97 | zero offsets and cleared flags; servos are enabled only if requested and the link opened, and then each servo is started and set to speed 200 and acceleration 5 |
| `ServoControl.ServoController.CheckServoLoads` | face_tracker.py:160-195 | overwrites the three flags as `CheckLoads` says and reports the rising edges |
| `ServoControl.ServoController.MoveToPosition` | face_tracker.py:99-158 | updates the fields in place to `Move` of the old state and returns the warnings as `MoveWarnings` says; keeps the offsets in range |
| `ServoControl.ServoController.ReturnToNeutralAndRelease` | face_tracker.py:211-240 | updates the fields in place to `Release` of the old state; keeps the offsets in range |
| `ServoControl.ServoController.ResumeServos` | face_tracker.py:242-255 | updates the command log to `Resume` of the old state |
| `ServoControl.ServoController.StopAllServos` | face_tracker.py:257-269 | updates the command log to `StopAll` of the old state |
| `TrackerSpec.Midpoint` | face_tracker.py:378-381 | `(a + b) // 2` is the floor of the average, and lies between a and b |
| `TrackerSpec.EyeCenter` | face_tracker.py:378-381 | no contract of its own; each coordinate is a `Midpoint`, whose contract gives the floor of the average and the betweenness |
| `TrackerSpec.ServoOffsets` | face_tracker.py:385-449 | no contract of its own; `MissingPositionChangesNothing` and `OffsetsPerAxis` state its properties, and `Tracker.EyeTracker.CalculateServoOffsets` is proved equal to it |
| `TrackerSpec.MissingPositionChangesNothing` | face_tracker.py:392-393 | with left, right or centre missing, the increments are (0, 0, 0) and no previous error changes |
| `TrackerSpec.OffsetsPerAxis` | face_tracker.py:395-449 | per axis, the dead zone (pan and tilt 20 px, roll 6°) zeroes the increment and the history; outside it the increment is the truncated `e*0.3 + (e-prev)*kd` (roll ×5) and the error is remembered |
| `TrackerSpec.Supervise` | face_tracker.py:531-550 | no contract of its own; `SuperviseTransitions` states its transitions |
| `TrackerSpec.SuperviseTransitions` | face_tracker.py:531-550 | the supervisor enters released iff there is no detection, it is not released, and `now - last_seen >= 10`; a detection sets `last_seen := now` and clears released; without a detection last_seen is kept and released stays |
| `TrackerSpec.Step` | face_tracker.py:529-563 | no contract of its own; `StepGating` (the supervisor is `Supervise`, and commands are decimated), `StepInvariant` and `DetectionResumes` state its properties, and `Tracker.EyeTracker.ProcessFrame` is proved equal to it |
| `TrackerSpec.RunFrames` | face_tracker.py:518-563 | no contract of its own; `RunInvariant`, `NoFaceRun` and `TimeoutBoundary` state its properties over every frame sequence, and `Tracker.EyeTracker.Run` is proved against it |
| `TrackerSpec.StepGating` | face_tracker.py:552-563 | per frame the count rises by one, the supervisor is `Supervise` of the old one on this frame's detection and time, and the previous errors follow the PD step; off command frames the servo state (axes and command log) is unchanged unless the supervisor released it (then it is `Release`) or resumed it (then it is `Resume`), so the increments are dropped and nothing else is sent; on a command frame the servo state is `Move` of the (possibly resumed) state |
| `TrackerSpec.StepInvariant` | face_tracker.py:529-563 | one frame keeps every offset within ±568 and never changes whether the servos are enabled |
| `TrackerSpec.RunInvariant` | face_tracker.py:518-563 | for every sequence of frames the offsets stay within ±568, the servo mode is kept, and the frame count rises by exactly the number of frames |
| `TrackerSpec.NoFaceRun` | face_tracker.py:542-550 | over a run without detections: last_seen is kept and the previous errors do not change; the run ends released iff it was already released or some frame came at least 10 s after last_seen; a release in the run leaves the three offsets at zero; while still tracking, the servos are untouched |
| `TrackerSpec.TimeoutBoundary` | face_tracker.py:543-550 | without detections, frames all before `last_seen + 10` keep a tracking supervisor tracking and the servos untouched; a frame at or after it ends in released |
| `TrackerSpec.DetectionResumes` | face_tracker.py:533-541 | after a release, one frame with both eyes returns to tracking with `last_seen := now` and first sends a torque-on to each servo |
| `Tracker.EyeTracker.constructor` | face_tracker.py:273-341 | zero previous errors, tracking, last seen at construction time, a new servo controller |
| `Tracker.EyeTracker.CalculateServoOffsets` | face_tracker.py:385-449 | returns the increments and updates the three previous errors in place as `ServoOffsets` says |
| `Tracker.EyeTracker.ProcessFrame` | face_tracker.py:528-563 | updates the tracker and its servo controller in place to `Step` of the old state; reports whether the frame commanded the servos |
| `Tracker.EyeTracker.Run` | face_tracker.py:514-605 | processes the frames in order, then stops every servo: the final state is `Shutdown(RunFrames(old state, frames))`, with the offsets in range throughout |

## Left out

- `servo_setup.py` is not part of this model. It is an interactive EEPROM and ID setup tool made of prompts, hardware calls and timed polling.
- The camera, the MediaPipe landmark detector, the conversion of landmarks to pixels, and all OpenCV drawing are left out. Each frame's detection is an input: an optional pair of integer eye points.
- The roll angle comes from `math.atan2` and `math.degrees`, which are floating-point trigonometry. It is an input, `Frame.angleDeg`.
- Floating point: gains, errors, loads and times are exact reals, so double-precision rounding is not modelled. This matters only when a PD output lands within rounding distance of an integer.
- The ST3215 transport: position moves, torque on/off, speed and acceleration settings, and the settle pause appear only as entries in a command log. Load readings are inputs.
- Transport exceptions are left out because they are I/O failures. The source swallows them: an exception partway through `_check_servo_loads` leaves the remaining flags as they were; the three tracking moves share one `try`, so a failed move also skips the moves after it (`face_tracker.py:151-158`); in the release a failed centre move also skips the later centre moves and the 1.5 s pause (`face_tracker.py:220-226`); a failed torque command skips only that servo.
- `ListServos` at start-up and `get_current_positions` are left out: the first is a query whose result is only printed, and the loop never calls the second.
- Console output is left out: the start-up messages, the 30-frame status line and the FPS figure. The limit and clamp warnings are kept as returned flags.
- argparse, `main`, the display mode, the ESC key, Ctrl+C and `time.sleep(0.01)` are left out. The loop ends when the frame sequence ends, which stands for a failed camera read or a stop request.
- `frame_count` is a local of `run` in the source. Here it is the field `EyeTracker.frameCount`, so that one loop iteration can be a method.
- `pan_gain`, `tilt_gain` and `roll_gain` are set in `__init__` but never read, so they are not modelled.
