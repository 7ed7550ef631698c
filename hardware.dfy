/** The GPIO and PWM vocabulary shared by the Raspberry Pi agent's drivers and
    the backend's drivers: pin levels, what one motor channel is driven with,
    and the servo duty-cycle formula both servo controllers use. Real GPIO and
    PWM objects are replaced by the state they would hold (a level per pin, a
    duty per PWM channel). */
module Hardware {
  import opened Common

  datatype Level = Low | High

  /** The two direction pins and the PWM duty one motor channel is driven with. */
  datatype MotorOutput = MotorOutput(in1: Level, in2: Level, duty: real)

  /** What `set_motor` writes for a requested speed: the speed is clamped to
      [-limit, limit], the direction pins follow its sign (0 counts as forward)
      and the duty is its magnitude. Both drivers use the limit 100. */
  function MotorOutputFor(speed: real, limit: real): (o: MotorOutput)
    requires limit > 0.0
    ensures 0.0 <= o.duty <= limit
    ensures o.duty == Min(Abs(speed), limit)
    ensures o.in1 == High <==> speed >= 0.0
    ensures o.in2 == (if o.in1 == High then Low else High)
  {
    var s := Clamp(-limit, limit, speed);
    if s >= 0.0 then MotorOutput(High, Low, Abs(s)) else MotorOutput(Low, High, Abs(s))
  }

  /** A requested speed inside the limit is passed through unchanged: its
      magnitude is the duty and its sign the direction. */
  lemma MotorOutputInRange(speed: real, limit: real)
    requires limit > 0.0 && -limit <= speed <= limit
    ensures MotorOutputFor(speed, limit).duty == Abs(speed)
  {
  }

  /** The servo angle is clamped to [0, 180] degrees before use. */
  function ClampAngle(angle: real): (a: real)
    ensures 0.0 <= a <= 180.0
    ensures 0.0 <= angle <= 180.0 ==> a == angle
  {
    Clamp(0.0, 180.0, angle)
  }

  /** The duty cycle (percent) for a servo angle, `2 + angle / 18`. */
  function ServoDuty(angle: real): (d: real)
    ensures 0.0 <= angle <= 180.0 ==> 2.0 <= d <= 12.0
  {
    2.0 + angle / 18.0
  }

  /** The angle a duty cycle stands for: the inverse of `ServoDuty`. */
  function AngleForDuty(d: real): real
  {
    (d - 2.0) * 18.0
  }

  /** The duty formula loses nothing: the angle can be read back from it. */
  lemma ServoDutyRoundTrip(angle: real)
    ensures AngleForDuty(ServoDuty(angle)) == angle
    ensures ServoDuty(AngleForDuty(angle)) == angle
  {
  }

  /** A larger angle never gets a smaller duty. */
  lemma ServoDutyMonotone(a: real, b: real)
    requires a <= b
    ensures ServoDuty(a) <= ServoDuty(b)
  {
  }

  /** The recorded pin levels after driving one channel: `in1` is written
      first, then `in2`. */
  function Drive(levels: map<int, Level>, in1: int, in2: int, speed: real, limit: real): (m: map<int, Level>)
    requires limit > 0.0
    ensures m.Keys == levels.Keys + {in1, in2}
    ensures in1 != in2 ==> m[in1] == MotorOutputFor(speed, limit).in1
    ensures m[in2] == MotorOutputFor(speed, limit).in2
    ensures forall p :: p in levels && p != in1 && p != in2 ==> m[p] == levels[p]
  {
    var o := MotorOutputFor(speed, limit);
    levels[in1 := o.in1][in2 := o.in2]
  }

  /** With four distinct direction pins, driving the left channel and then
      the right one leaves each channel's pins set from its own speed alone:
      the two channels do not interfere. */
  lemma DriveChannelsIndependent(levels: map<int, Level>, l1: int, l2: int, r1: int, r2: int,
                                 left: real, right: real, limit: real)
    requires limit > 0.0
    requires l1 != l2 && l1 != r1 && l1 != r2 && l2 != r1 && l2 != r2 && r1 != r2
    ensures var m := Drive(Drive(levels, l1, l2, left, limit), r1, r2, right, limit);
      && m[l1] == MotorOutputFor(left, limit).in1 && m[l2] == MotorOutputFor(left, limit).in2
      && m[r1] == MotorOutputFor(right, limit).in1 && m[r2] == MotorOutputFor(right, limit).in2
      && m[l1] != m[l2] && m[r1] != m[r2]
  {
  }

  /** The recorded pin levels after `stop`: all four direction pins low. */
  function Release(levels: map<int, Level>, l1: int, l2: int, r1: int, r2: int): (m: map<int, Level>)
    ensures m.Keys == levels.Keys + {l1, l2, r1, r2}
    ensures m[l1] == Low && m[l2] == Low && m[r1] == Low && m[r2] == Low
    ensures forall p :: p in levels && p !in {l1, l2, r1, r2} ==> m[p] == levels[p]
  {
    levels[l1 := Low][l2 := Low][r1 := Low][r2 := Low]
  }
}
