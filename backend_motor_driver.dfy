/** The backend's two-channel motor driver, on fixed pins: left direction 5
    and 6 with PWM on 12, right direction 13 and 19 with PWM on 18. GPIO
    becomes a recorded map from pin to level, each PWM its duty cycle. */
module BackendMotorDriver {
  import opened Common
  import opened Hardware

  const LeftIn1: int := 5
  const LeftIn2: int := 6
  const LeftPwmPin: int := 12
  const RightIn1: int := 13
  const RightIn2: int := 19
  const RightPwmPin: int := 18

  /** The hard-coded speed limit of `set_motor`. */
  const SpeedLimit: real := 100.0

  datatype Channel = LeftChannel | RightChannel

  class MotorDriver {
    var levels: map<int, Level>
    var leftDuty: real
    var rightDuty: real

    constructor ()
      ensures levels == map[] && leftDuty == 0.0 && rightDuty == 0.0
    {
      levels := map[];
      leftDuty := 0.0;
      rightDuty := 0.0;
    }

    /** `set_motor`: clamps to [-100, 100], sets the direction pins from the
        sign and the channel's duty to the magnitude. */
    method SetMotor(in1: int, in2: int, pwm: Channel, speed: real)
      modifies this
      ensures levels == Drive(old(levels), in1, in2, speed, SpeedLimit)
      ensures pwm == LeftChannel ==>
        leftDuty == MotorOutputFor(speed, SpeedLimit).duty && rightDuty == old(rightDuty)
      ensures pwm == RightChannel ==>
        rightDuty == MotorOutputFor(speed, SpeedLimit).duty && leftDuty == old(leftDuty)
    {
      var s := Max(-100.0, Min(100.0, speed));
      if s >= 0.0 {
        levels := levels[in1 := High];
        levels := levels[in2 := Low];
      } else {
        levels := levels[in1 := Low];
        levels := levels[in2 := High];
      }
      if pwm == LeftChannel {
        leftDuty := Abs(s);
      } else {
        rightDuty := Abs(s);
      }
    }

    /** `set_speed`: the left channel from `leftSpeed`, then the right one
        from `rightSpeed`; since the four direction pins differ, each
        channel's pins depend on its own speed only. */
    method SetSpeed(leftSpeed: real, rightSpeed: real)
      modifies this
      ensures levels == Drive(Drive(old(levels), LeftIn1, LeftIn2, leftSpeed, SpeedLimit),
                              RightIn1, RightIn2, rightSpeed, SpeedLimit)
      ensures levels[LeftIn1] == MotorOutputFor(leftSpeed, SpeedLimit).in1
      ensures levels[LeftIn2] == MotorOutputFor(leftSpeed, SpeedLimit).in2
      ensures levels[RightIn1] == MotorOutputFor(rightSpeed, SpeedLimit).in1
      ensures levels[RightIn2] == MotorOutputFor(rightSpeed, SpeedLimit).in2
      ensures leftDuty == MotorOutputFor(leftSpeed, SpeedLimit).duty
      ensures rightDuty == MotorOutputFor(rightSpeed, SpeedLimit).duty
    {
      SetMotor(LeftIn1, LeftIn2, LeftChannel, leftSpeed);
      SetMotor(RightIn1, RightIn2, RightChannel, rightSpeed);
      DriveChannelsIndependent(old(levels), LeftIn1, LeftIn2, RightIn1, RightIn2, leftSpeed, rightSpeed, SpeedLimit);
    }

    /** `stop`: both duties 0 and pins 5, 6, 13 and 19 low. */
    method Stop()
      modifies this
      ensures leftDuty == 0.0 && rightDuty == 0.0
      ensures levels == Release(old(levels), LeftIn1, LeftIn2, RightIn1, RightIn2)
    {
      leftDuty := 0.0;
      rightDuty := 0.0;
      levels := levels[LeftIn1 := Low];
      levels := levels[LeftIn2 := Low];
      levels := levels[RightIn1 := Low];
      levels := levels[RightIn2 := Low];
    }
  }
}
