/**
 * The dead-zone PD step that EyeTracker.calculate_servo_offsets applies to each
 * axis error (face_tracker.py:385-449). Floating-point gains are modelled as
 * exact reals; Python's int() on the PD output is truncation toward zero.
 */
module PdControl {

  /** Tuning of one axis: dead-zone width, proportional and derivative gains, and
      the extra factor the roll axis applies to both terms. */
  datatype Tuning = Tuning(deadZone: real, kp: real, kd: real, scale: real)

  // pan_dead_zone / pan_kp / pan_kd (face_tracker.py:316, 328-329)
  const PAN_TUNING: Tuning := Tuning(20.0, 0.3, 1.2, 1.0)
  // tilt_dead_zone / tilt_kp / tilt_kd (face_tracker.py:317, 326-327)
  const TILT_TUNING: Tuning := Tuning(20.0, 0.3, 1.0, 1.0)
  // roll_dead_zone / roll_kp / roll_kd, and the "* 5" on both terms (face_tracker.py:318, 330-331, 442-443)
  const ROLL_TUNING: Tuning := Tuning(6.0, 0.3, 1.0, 5.0)

  /** Increment for one axis and the new value of that axis's previous error. */
  datatype PdResult = PdResult(delta: int, prevError: real)

  function Abs(x: real): real {
    if x < 0.0 then -x else x
  }

  /** Python's int() on a float: drop the fraction, toward zero. */
  function Truncate(x: real): (r: int)
    ensures 0.0 <= x ==> 0 <= r && r as real <= x < r as real + 1.0
    ensures x < 0.0 ==> r <= 0 && x <= r as real < x + 1.0
  {
    if x >= 0.0 then x.Floor else -((-x).Floor)
  }

  /** Proportional plus derivative term, before truncation. */
  function PdOutput(e: real, prev: real, t: Tuning): real {
    e * t.kp * t.scale + (e - prev) * t.kd * t.scale
  }

  /** One axis of calculate_servo_offsets: an error strictly inside the dead zone
      is zeroed and resets the previous error; a non-zero error yields the
      truncated PD output and becomes the previous error. */
  function PdStep(e: real, prev: real, t: Tuning): PdResult {
    var inDeadZone := Abs(e) < t.deadZone;
    var error := if inDeadZone then 0.0 else e;
    var prev' := if inDeadZone then 0.0 else prev;
    if error != 0.0 then PdResult(Truncate(PdOutput(error, prev', t)), error)
    else PdResult(0, prev')
  }

  /** Inside the dead zone the increment is 0 and the history is cleared,
      whatever the previous error was. */
  lemma DeadZoneResets(e: real, prev: real, t: Tuning)
    requires Abs(e) < t.deadZone
    ensures PdStep(e, prev, t) == PdResult(0, 0.0)
  {
  }

  /** Outside the dead zone a non-zero error fires the PD formula: the increment is
      the PD output truncated toward zero (never larger in magnitude, same sign),
      and the error becomes the previous error. */
  lemma OutsideDeadZoneFires(e: real, prev: real, t: Tuning)
    requires Abs(e) >= t.deadZone && e != 0.0
    ensures PdStep(e, prev, t).prevError == e
    ensures PdStep(e, prev, t).delta == Truncate(PdOutput(e, prev, t))
    ensures var u := PdOutput(e, prev, t); var d := PdStep(e, prev, t).delta as real;
            Abs(d) <= Abs(u) < Abs(d) + 1.0 && (u >= 0.0 ==> d >= 0.0) && (u <= 0.0 ==> d <= 0.0)
  {
  }

  /** A zero error outside the dead zone (only possible when the dead zone is not
      positive) produces no increment and leaves the previous error alone. */
  lemma ZeroErrorKeepsHistory(prev: real, t: Tuning)
    requires t.deadZone <= 0.0
    ensures PdStep(0.0, prev, t) == PdResult(0, prev)
  {
  }

  /** Feeding the same dead-zone error twice yields a zero increment both times
      and the same state. */
  lemma DeadZoneIdempotent(e: real, prev: real, t: Tuning)
    requires Abs(e) < t.deadZone
    ensures var r1 := PdStep(e, prev, t); var r2 := PdStep(e, r1.prevError, t);
            r1.delta == 0 && r2 == r1
  {
  }

  /** Feeding the same error twice outside the dead zone: the derivative term of
      the second step vanishes, leaving the proportional term alone. */
  lemma RepeatedErrorIsProportional(e: real, prev: real, t: Tuning)
    requires Abs(e) >= t.deadZone && e != 0.0
    ensures var r1 := PdStep(e, prev, t); var r2 := PdStep(e, r1.prevError, t);
            r2 == PdResult(Truncate(e * t.kp * t.scale), e)
  {
    OutsideDeadZoneFires(e, prev, t);
    OutsideDeadZoneFires(e, e, t);
    assert PdOutput(e, e, t) == e * t.kp * t.scale;
  }

  /** Pan with the shipped tuning: an error of exactly 20 pixels is on the
      boundary and fires (0.3*20 + 1.2*20 = 30); an error of 15 does not. */
  lemma PanScenarios()
    ensures PdStep(20.0, 0.0, PAN_TUNING) == PdResult(30, 20.0)
    ensures PdStep(15.0, 7.0, PAN_TUNING) == PdResult(0, 0.0)
    ensures PdStep(-25.0, 0.0, PAN_TUNING) == PdResult(-37, -25.0)
  {
  }
}
