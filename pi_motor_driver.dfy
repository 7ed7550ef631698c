/** The pi agent's two-channel motor driver. GPIO direction pins become a
    recorded map from pin to level, and each channel's PWM its duty cycle. */
module PiMotorDriver {
  import opened Common
  import opened Hardware
  import PiConfig

  datatype Channel = LeftChannel | RightChannel

  class MotorDriver {
    const leftIn1: int
    const leftIn2: int
    const leftPwmPin: int
    const rightIn1: int
    const rightIn2: int
    const rightPwmPin: int
    var levels: map<int, Level>
    var leftDuty: real
    var rightDuty: real

    /** Both PWM channels start at duty 0; no level has been written yet. */
    constructor (leftIn1: int, leftIn2: int, leftPwmPin: int, rightIn1: int, rightIn2: int, rightPwmPin: int)
      ensures this.leftIn1 == leftIn1 && this.leftIn2 == leftIn2 && this.leftPwmPin == leftPwmPin
      ensures this.rightIn1 == rightIn1 && this.rightIn2 == rightIn2 && this.rightPwmPin == rightPwmPin
      ensures levels == map[] && leftDuty == 0.0 && rightDuty == 0.0
    {
      this.leftIn1 := leftIn1;
      this.leftIn2 := leftIn2;
      this.leftPwmPin := leftPwmPin;
      this.rightIn1 := rightIn1;
      this.rightIn2 := rightIn2;
      this.rightPwmPin := rightPwmPin;
      levels := map[];
      leftDuty := 0.0;
      rightDuty := 0.0;
    }

    /** `set_motor`: clamps the speed to the configured maximum, sets the
        direction pins from its sign and the channel's duty to its magnitude. */
    method SetMotor(in1: int, in2: int, pwm: Channel, speed: real)
      modifies this
      ensures levels == Drive(old(levels), in1, in2, speed, PiConfig.MaxSpeed)
      ensures pwm == LeftChannel ==>
        leftDuty == MotorOutputFor(speed, PiConfig.MaxSpeed).duty && rightDuty == old(rightDuty)
      ensures pwm == RightChannel ==>
        rightDuty == MotorOutputFor(speed, PiConfig.MaxSpeed).duty && leftDuty == old(leftDuty)
    {
      var s := Max(-PiConfig.MaxSpeed, Min(PiConfig.MaxSpeed, speed));
      if s >= 0.0 {
        levels := levels[in1 := High];
        levels := levels[in2 := Low];
      } else {
        levels := levels[in1 := Low];
        levels := levels[in2 := High];
      }
      if pwm == LeftChannel {
        leftDuty := Abs(s);
      } else {
        rightDuty := Abs(s);
      }
    }

    /** `set_speed`: drives the left channel from `leftSpeed`, then the right
        one from `rightSpeed`. */
    method SetSpeed(leftSpeed: real, rightSpeed: real)
      modifies this
      ensures levels == Drive(Drive(old(levels), leftIn1, leftIn2, leftSpeed, PiConfig.MaxSpeed),
                              rightIn1, rightIn2, rightSpeed, PiConfig.MaxSpeed)
      ensures leftDuty == MotorOutputFor(leftSpeed, PiConfig.MaxSpeed).duty
      ensures rightDuty == MotorOutputFor(rightSpeed, PiConfig.MaxSpeed).duty
    {
      SetMotor(leftIn1, leftIn2, LeftChannel, leftSpeed);
      SetMotor(rightIn1, rightIn2, RightChannel, rightSpeed);
    }

    /** `stop`: both duties to 0 and all four direction pins low. */
    method Stop()
      modifies this
      ensures leftDuty == 0.0 && rightDuty == 0.0
      ensures levels == Release(old(levels), leftIn1, leftIn2, rightIn1, rightIn2)
    {
      leftDuty := 0.0;
      rightDuty := 0.0;
      levels := levels[leftIn1 := Low];
      levels := levels[leftIn2 := Low];
      levels := levels[rightIn1 := Low];
      levels := levels[rightIn2 := Low];
    }
  }
}
