/** The backend's steering servo: every command clamps the angle to
    [0, 180] and writes the duty `2 + angle / 18`; nothing is remembered. */
module BackendServoController {
  import opened Common
  import opened Hardware

  /** The duty a command writes. */
  function CommandDuty(angle: real): (d: real)
    ensures 2.0 <= d <= 12.0
    ensures 0.0 <= angle <= 180.0 ==> AngleForDuty(d) == angle
  {
    ServoDuty(ClampAngle(angle))
  }

  /** A larger requested angle never gets a smaller duty, clamping included. */
  lemma CommandDutyMonotone(a: real, b: real)
    requires a <= b
    ensures CommandDuty(a) <= CommandDuty(b)
  {
    ServoDutyMonotone(ClampAngle(a), ClampAngle(b));
  }

  class ServoController {
    const pin: int
    var duty: real

    /** The PWM starts at duty 0. */
    constructor (pin: int)
      ensures this.pin == pin && duty == 0.0
    {
      this.pin := pin;
      duty := 0.0;
    }

    /** `set_angle`. */
    method SetAngle(angle: real)
      modifies this
      ensures duty == CommandDuty(angle)
    {
      var a := Max(0.0, Min(180.0, angle));
      duty := 2.0 + a / 18.0;
    }
  }
}
