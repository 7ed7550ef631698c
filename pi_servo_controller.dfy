/** The pi agent's steering servo: the angle is clamped to [0, 180], and a
    change of less than one degree from the last applied angle is ignored to
    keep the servo from buzzing. */
module PiServoController {
  import opened Common
  import opened Hardware

  /** The servo's memory and its PWM output. */
  datatype ServoPwm = ServoPwm(lastAngle: real, duty: real)

  /** The state before the first command: no angle applied yet (-1) and no
      signal. */
  const Initial := ServoPwm(-1.0, 0.0)

  /** A clamped angle this close to the last applied one is skipped. */
  predicate Jitter(lastAngle: real, angle: real)
    ensures Jitter(lastAngle, angle) <==> lastAngle - 1.0 < angle < lastAngle + 1.0
  {
    Abs(angle - lastAngle) < 1.0
  }

  /** What `set_angle` does to the servo's state. */
  function SetAngleStep(s: ServoPwm, angle: real): (t: ServoPwm)
    ensures Jitter(s.lastAngle, ClampAngle(angle)) ==> t == s
    ensures !Jitter(s.lastAngle, ClampAngle(angle)) ==>
      t.lastAngle == ClampAngle(angle) && t.duty == ServoDuty(ClampAngle(angle)) && 2.0 <= t.duty <= 12.0
    ensures 0.0 <= s.lastAngle <= 180.0 ==> 0.0 <= t.lastAngle <= 180.0
  {
    var a := ClampAngle(angle);
    if Jitter(s.lastAngle, a) then s else ServoPwm(a, ServoDuty(a))
  }

  /** The first command always moves the servo, whatever the angle. */
  lemma FirstCommandApplies(angle: real)
    ensures SetAngleStep(Initial, angle) == ServoPwm(ClampAngle(angle), ServoDuty(ClampAngle(angle)))
  {
    assert !Jitter(-1.0, ClampAngle(angle));
  }

  /** Repeating a command changes nothing. */
  lemma SetAngleIdempotent(s: ServoPwm, angle: real)
    ensures SetAngleStep(SetAngleStep(s, angle), angle) == SetAngleStep(s, angle)
  {
  }

  /** Once an angle has been applied, the applied angle always lies in [0, 180]
      and a signal is being sent. */
  lemma AppliedStateInRange(s: ServoPwm, angle: real)
    requires SetAngleStep(s, angle) != s
    ensures var t := SetAngleStep(s, angle);
      0.0 <= t.lastAngle <= 180.0 && 2.0 <= t.duty <= 12.0 && t.duty == ServoDuty(t.lastAngle)
  {
  }

  class ServoController {
    const pin: int
    var lastAngle: real
    var duty: real

    function State(): ServoPwm
      reads this
    {
      ServoPwm(lastAngle, duty)
    }

    constructor (pin: int)
      ensures this.pin == pin && State() == Initial
    {
      this.pin := pin;
      lastAngle := -1.0;
      duty := 0.0;
    }

    /** `set_angle`. */
    method SetAngle(angle: real)
      modifies this
      ensures State() == SetAngleStep(old(State()), angle)
    {
      var a := Max(0.0, Min(180.0, angle));
      if Abs(a - lastAngle) < 1.0 {
        return;
      }
      lastAngle := a;
      duty := 2.0 + a / 18.0;
    }

    /** `detach`: stops the signal but keeps the memory of the last angle. */
    method Detach()
      modifies this
      ensures State() == old(State()).(duty := 0.0)
    {
      duty := 0.0;
    }
  }

  /** After a detach, asking again for the angle last applied sends nothing:
      the servo stays without a signal. */
  method DetachThenSameAngle(servo: ServoController, angle: real)
    requires servo.lastAngle == ClampAngle(angle)
    modifies servo
    ensures servo.duty == 0.0 && servo.lastAngle == old(servo.lastAngle)
  {
    servo.Detach();
    servo.SetAngle(angle);
  }
}
