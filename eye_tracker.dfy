/**
 * EyeTracker (face_tracker.py:272-605) as a class: the previous errors, the
 * target-loss bookkeeping and the frame counter are fields updated once per
 * frame. The camera, the landmark detector and the atan2 of the eye line are
 * outside the model: each frame arrives as a TrackerSpec.Frame.
 */
module Tracker {
  import opened Wrappers
  import opened PdControl
  import opened ServoSpec
  import opened ServoControl
  import opened TrackerSpec

  class EyeTracker {
    const servo: ServoController
    var prevPanError: real
    var prevTiltError: real
    var prevRollError: real
    var lastFaceDetectedTime: real
    var servoReleased: bool
    /** Frames processed so far (a local of run in the source). */
    var frameCount: nat

    ghost function State(): TrackerState
      reads this, servo
    {
      TrackerState(PrevErrors(prevPanError, prevTiltError, prevRollError),
                   Supervisor(lastFaceDetectedTime, servoReleased), frameCount, servo.State())
    }

    ghost predicate Valid()
      reads this, servo
    {
      servo.Valid()
    }

    /** __init__: a servo controller, zero previous errors, tracking, last seen now. */
    constructor (enableServo: bool, linkOpened: bool, now: real)
      ensures Valid() && fresh(servo)
      ensures State() == InitialTracker(enableServo && linkOpened, now)
    {
      servo := new ServoController(enableServo, linkOpened);
      prevPanError, prevTiltError, prevRollError := 0.0, 0.0, 0.0;
      lastFaceDetectedTime := now;
      servoReleased := false;
      frameCount := 0;
    }

    /** calculate_servo_offsets: per axis, zero the error and the history inside
        the dead zone, otherwise fire the PD formula and remember the error. */
    method CalculateServoOffsets(left: Option<Point>, right: Option<Point>, center: Option<Point>, angleDeg: real)
      returns (panDelta: int, tiltDelta: int, rollDelta: int)
      modifies this`prevPanError, this`prevTiltError, this`prevRollError
      ensures (Deltas(panDelta, tiltDelta, rollDelta), PrevErrors(prevPanError, prevTiltError, prevRollError))
              == ServoOffsets(old(PrevErrors(prevPanError, prevTiltError, prevRollError)), left, right, center, angleDeg)
    {
      if left.None? || right.None? || center.None? {
        return 0, 0, 0;
      }

      var panError := (center.value.x - FRAME_CENTER_X) as real;
      if Abs(panError) < PAN_TUNING.deadZone {
        panError := 0.0;
        prevPanError := 0.0;
      }
      if panError != 0.0 {
        var pTerm := panError * PAN_TUNING.kp;
        var dTerm := (panError - prevPanError) * PAN_TUNING.kd;
        panDelta := Truncate(pTerm + dTerm);
        prevPanError := panError;
      } else {
        panDelta := 0;
      }

      var tiltError := (center.value.y - FRAME_CENTER_Y) as real;
      if Abs(tiltError) < TILT_TUNING.deadZone {
        tiltError := 0.0;
        prevTiltError := 0.0;
      }
      if tiltError != 0.0 {
        var pTerm := tiltError * TILT_TUNING.kp;
        var dTerm := (tiltError - prevTiltError) * TILT_TUNING.kd;
        tiltDelta := Truncate(pTerm + dTerm);
        prevTiltError := tiltError;
      } else {
        tiltDelta := 0;
      }

      var rollError := angleDeg;
      if Abs(rollError) < ROLL_TUNING.deadZone {
        rollError := 0.0;
        prevRollError := 0.0;
      }
      if rollError != 0.0 {
        var pTerm := rollError * ROLL_TUNING.kp * ROLL_TUNING.scale;
        var dTerm := (rollError - prevRollError) * ROLL_TUNING.kd * ROLL_TUNING.scale;
        rollDelta := Truncate(pTerm + dTerm);
        prevRollError := rollError;
      } else {
        rollDelta := 0;
      }
    }

    /** One iteration of run's loop: supervise (resume on re-detection, park and
        release after the timeout), compute the increments, count the frame, and
        move the servos on a command frame only. */
    method ProcessFrame(f: Frame) returns (commanded: bool)
      requires Valid()
      modifies this, servo
      ensures Valid()
      ensures State() == Step(old(State()), f)
      ensures commanded == IsCommandFrame(f.eyes.Some?, frameCount, servoReleased)
    {
      var left, right, center := LeftOf(f.eyes), RightOf(f.eyes), CenterOf(f.eyes);

      if left.Some? && right.Some? && center.Some? {
        lastFaceDetectedTime := f.now;
        if servoReleased {
          servo.ResumeServos();
          servoReleased := false;
        }
      } else {
        var timeSinceLastFace := f.now - lastFaceDetectedTime;
        if !servoReleased && timeSinceLastFace >= NO_FACE_TIMEOUT {
          servo.ReturnToNeutralAndRelease();
          servoReleased := true;
        }
      }

      var panDelta, tiltDelta, rollDelta := CalculateServoOffsets(left, right, center, f.angleDeg);

      frameCount := frameCount + 1;
      commanded := left.Some? && right.Some? && center.Some? && frameCount % COMMAND_EVERY == 0 && !servoReleased;
      if commanded {
        var _ := servo.MoveToPosition(panDelta, tiltDelta, rollDelta, f.loads);
      }
    }

    /** run: process the frames in order until the camera stops, then stop every
        servo (cleanup). */
    method Run(frames: seq<Frame>)
      requires Valid()
      modifies this, servo
      ensures Valid()
      ensures State() == Shutdown(RunFrames(old(State()), frames))
    {
      var i := 0;
      while i < |frames|
        invariant 0 <= i <= |frames|
        invariant Valid()
        invariant State() == RunFrames(old(State()), frames[..i])
      {
        var _ := ProcessFrame(frames[i]);
        assert frames[..i + 1][..i] == frames[..i];
        i := i + 1;
      }
      assert frames[..i] == frames;
      servo.StopAllServos();
    }
  }
}
