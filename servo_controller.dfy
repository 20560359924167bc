/**
 * ServoController (face_tracker.py:16-269) as a class whose fields the methods
 * update in place. State() gives the value each method is specified against.
 */
module ServoControl {
  import opened ServoSpec

  class ServoController {
    /** False when servos were not requested or the link could not be opened. */
    const enableServo: bool
    var panOffset: int
    var tiltOffset: int
    var rollOffset: int
    var panAtLimit: bool
    var tiltAtLimit: bool
    var rollAtLimit: bool
    /** Commands sent to the ST3215 transport so far. */
    var issued: seq<Command>

    ghost function State(): ServoState
      reads this
    {
      ServoState(enableServo, Axis(panOffset, panAtLimit), Axis(tiltOffset, tiltAtLimit),
                 Axis(rollOffset, rollAtLimit), issued)
    }

    ghost predicate Valid()
      reads this
    {
      OffsetsInRange(State())
    }

    /** __init__ and _initialize_servos: zero offsets, no limits; when servos are
        enabled and the link opened, start and configure each servo. */
    constructor (requested: bool, linkOpened: bool)
      ensures Valid()
      ensures State() == Initial(requested && linkOpened)
    {
      enableServo := requested && linkOpened;
      panOffset, tiltOffset, rollOffset := 0, 0, 0;
      panAtLimit, tiltAtLimit, rollAtLimit := false, false, false;
      new;
      issued := [];
      if enableServo {
        var i := 0;
        while i < |SERVO_IDS|
          invariant 0 <= i <= |SERVO_IDS|
          invariant issued == InitCommands()[..3 * i]
          invariant State() == Initial(false).(enabled := enableServo, issued := issued)
        {
          var id := SERVO_IDS[i];
          issued := issued + [StartServo(id), SetSpeed(id, TRACK_SPEED), SetAcceleration(id, TRACK_ACC)];
          i := i + 1;
        }
      }
    }

    /** _check_servo_loads: overwrite each flag from its reading; returns the axes
        whose flag rose (those get a warning). */
    method CheckServoLoads(loads: Loads) returns (raised: Flags)
      requires Valid()
      modifies this
      ensures Valid()
      ensures State() == CheckLoads(old(State()), loads)
      ensures raised == LimitRaised(old(State()), loads)
    {
      if !enableServo {
        return NO_FLAGS;
      }
      var panWas, tiltWas, rollWas := panAtLimit, tiltAtLimit, rollAtLimit;
      panAtLimit := AtLimit(loads.pan);
      tiltAtLimit := AtLimit(loads.tilt);
      rollAtLimit := AtLimit(loads.roll);
      raised := Flags(panAtLimit && !panWas, tiltAtLimit && !tiltWas, rollAtLimit && !rollWas);
    }

    /** move_to_position: check loads, apply the gated increments, clamp, and send
        the three targets. */
    method MoveToPosition(panDelta: int, tiltDelta: int, rollDelta: int, loads: Loads)
      returns (report: MoveReport)
      requires Valid()
      modifies this
      ensures Valid()
      ensures State() == Move(old(State()), Deltas(panDelta, tiltDelta, rollDelta), loads)
      ensures report == MoveWarnings(old(State()), Deltas(panDelta, tiltDelta, rollDelta), loads)
    {
      if !enableServo {
        return MoveReport(NO_FLAGS, NO_FLAGS);
      }
      var raised := CheckServoLoads(loads);
      ghost var checked := State();

      ghost var unclamped := Unclamped(checked, Deltas(panDelta, tiltDelta, rollDelta));
      if MayMove(panAtLimit, panDelta, panOffset) {
        panOffset := panOffset - panDelta;
      }
      assert panOffset == unclamped.pan;
      if MayMove(tiltAtLimit, tiltDelta, tiltOffset) {
        tiltOffset := tiltOffset + tiltDelta;
      }
      assert tiltOffset == unclamped.tilt;
      if MayMove(rollAtLimit, rollDelta, rollOffset) {
        rollOffset := rollOffset - rollDelta;
      }
      assert rollOffset == unclamped.roll;

      var originalPan, originalTilt, originalRoll := panOffset, tiltOffset, rollOffset;
      panOffset := Clamp(panOffset);
      tiltOffset := Clamp(tiltOffset);
      rollOffset := Clamp(rollOffset);
      var clamped := Flags(originalPan != panOffset, originalTilt != tiltOffset, originalRoll != rollOffset);

      issued := issued + TrackCommands(panOffset, tiltOffset, rollOffset);
      report := MoveReport(raised, clamped);
      assert State() == checked.(pan := checked.pan.(offset := Clamp(unclamped.pan)),
                                 tilt := checked.tilt.(offset := Clamp(unclamped.tilt)),
                                 roll := checked.roll.(offset := Clamp(unclamped.roll)),
                                 issued := checked.issued + TrackCommands(Clamp(unclamped.pan), Clamp(unclamped.tilt), Clamp(unclamped.roll)));

    }

    /** return_to_neutral_and_release: park at the centre, wait, drop torque, then
        zero the cumulative offsets (flags untouched). */
    method ReturnToNeutralAndRelease()
      requires Valid()
      modifies this
      ensures Valid()
      ensures State() == Release(old(State()))
    {
      if !enableServo {
        return;
      }
      for i := 0 to |SERVO_IDS|
        invariant issued == old(issued) + ReleaseCommands()[..i]
        invariant State() == old(State()).(issued := issued)
      {
        issued := issued + [MoveTo(SERVO_IDS[i], CENTER_POSITION, NEUTRAL_SPEED, NEUTRAL_ACC)];
      }
      issued := issued + [Pause(SETTLE_SECONDS)];
      for i := 0 to |SERVO_IDS|
        invariant issued == old(issued) + ReleaseCommands()[..4 + i]
        invariant State() == old(State()).(issued := issued)
      {
        issued := issued + [StopServo(SERVO_IDS[i])];
      }
      panOffset := 0;
      tiltOffset := 0;
      rollOffset := 0;
    }

    /** resume_servos: re-enable torque on each servo. */
    method ResumeServos()
      requires Valid()
      modifies this
      ensures Valid()
      ensures State() == Resume(old(State()))
    {
      if !enableServo {
        return;
      }
      for i := 0 to |SERVO_IDS|
        invariant issued == old(issued) + StartCommands()[..i]
        invariant State() == old(State()).(issued := issued)
      {
        issued := issued + [StartServo(SERVO_IDS[i])];
      }
    }

    /** stop_all: drop torque on each servo. */
    method StopAllServos()
      requires Valid()
      modifies this
      ensures Valid()
      ensures State() == StopAll(old(State()))
    {
      if !enableServo {
        return;
      }
      for i := 0 to |SERVO_IDS|
        invariant issued == old(issued) + StopCommands()[..i]
        invariant State() == old(State()).(issued := issued)
      {
        issued := issued + [StopServo(SERVO_IDS[i])];
      }
    }
  }
}
