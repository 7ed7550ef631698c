/** The pi agent's command path (`RoverMotion`): a deadzone on the joystick,
    differential wheel mixing, four-wheel counter-steering, an idle rule that
    stops everything, and a watchdog that stops the motors once per silence.
    The clock is passed in as `now`. */
module PiMotion {
  import opened Common
  import opened Hardware
  import PiConfig
  import opened PiMotorDriver
  import opened PiServoController

  /** The component with its small jitter removed. */
  function Deadzone(v: real): (r: real)
    ensures Abs(v) < PiConfig.JoystickDeadzone ==> r == 0.0
    ensures Abs(v) >= PiConfig.JoystickDeadzone ==> r == v
    ensures r == 0.0 || Abs(r) >= PiConfig.JoystickDeadzone
  {
    if Abs(v) < PiConfig.JoystickDeadzone then 0.0 else v
  }

  /** The deadzone leaves its own output alone. */
  lemma DeadzoneIdempotent(v: real)
    ensures Deadzone(Deadzone(v)) == Deadzone(v)
  {
  }

  /** `joystick_to_wheels`: left = y + x and right = y - x, each clamped to
      [-maxSpeed, maxSpeed]. */
  function JoystickToWheels(x: real, y: real, maxSpeed: real): (w: (real, real))
    ensures maxSpeed >= 0.0 ==> -maxSpeed <= w.0 <= maxSpeed && -maxSpeed <= w.1 <= maxSpeed
    ensures -maxSpeed <= y + x <= maxSpeed ==> w.0 == y + x
    ensures -maxSpeed <= y - x <= maxSpeed ==> w.1 == y - x
  {
    (Clamp(-maxSpeed, maxSpeed, y + x), Clamp(-maxSpeed, maxSpeed, y - x))
  }

  /** Turning the other way swaps the two sides. */
  lemma WheelsMirror(x: real, y: real, maxSpeed: real)
    ensures JoystickToWheels(-x, y, maxSpeed) == (JoystickToWheels(x, y, maxSpeed).1, JoystickToWheels(x, y, maxSpeed).0)
  {
  }

  /** Pushing straight ahead drives both sides alike. */
  lemma StraightDrivesEqually(y: real, maxSpeed: real)
    ensures JoystickToWheels(0.0, y, maxSpeed).0 == JoystickToWheels(0.0, y, maxSpeed).1
  {
  }

  /** `joystick_to_steering`: front 90 + x/5 and rear 90 - x/5 degrees, each
      clamped to [70, 110]. */
  function JoystickToSteering(x: real): (a: (real, real))
    ensures 70.0 <= a.0 <= 110.0 && 70.0 <= a.1 <= 110.0
    ensures -100.0 <= x <= 100.0 ==> a.0 == 90.0 + x * 20.0 / 100.0 && a.0 + a.1 == 180.0
  {
    var delta := (x * 20.0) / 100.0;
    (Clamp(70.0, 110.0, 90.0 + delta), Clamp(70.0, 110.0, 90.0 - delta))
  }

  /** The front and rear wheels always turn by the same amount in opposite
      directions, even when both are clamped. */
  lemma SteeringCounterTurns(x: real)
    ensures JoystickToSteering(x).0 + JoystickToSteering(x).1 == 180.0
    ensures JoystickToSteering(-x) == (JoystickToSteering(x).1, JoystickToSteering(x).0)
  {
  }

  /** A stronger turn never turns the front wheels less. */
  lemma SteeringMonotone(x1: real, x2: real)
    requires x1 <= x2
    ensures JoystickToSteering(x1).0 <= JoystickToSteering(x2).0
    ensures JoystickToSteering(x1).1 >= JoystickToSteering(x2).1
  {
  }

  class RoverMotion {
    const motors: MotorDriver
    const servoFL: ServoController
    const servoFR: ServoController
    const servoRL: ServoController
    const servoRR: ServoController
    var lastCmdTime: real
    /** The latch that makes the watchdog stop the motors once per silence;
        absent until the first command or trigger, read as false. */
    var watchdogTriggered: bool

    /** The four servos are four different objects. */
    predicate Valid()
      reads this
    {
      && servoFL != servoFR && servoFL != servoRL && servoFL != servoRR
      && servoFR != servoRL && servoFR != servoRR && servoRL != servoRR
    }

    constructor (leftIn1: int, leftIn2: int, leftPwmPin: int, rightIn1: int, rightIn2: int, rightPwmPin: int, now: real)
      ensures Valid() && fresh(motors) && fresh(servoFL) && fresh(servoFR) && fresh(servoRL) && fresh(servoRR)
      ensures motors.leftDuty == 0.0 && motors.rightDuty == 0.0 && motors.levels == map[]
      ensures servoFL.State() == Initial && servoFR.State() == Initial
      ensures servoRL.State() == Initial && servoRR.State() == Initial
      ensures servoFL.pin == PiConfig.ServoPinFL && servoFR.pin == PiConfig.ServoPinFR
      ensures servoRL.pin == PiConfig.ServoPinRL && servoRR.pin == PiConfig.ServoPinRR
      ensures lastCmdTime == now && !watchdogTriggered
    {
      motors := new MotorDriver(leftIn1, leftIn2, leftPwmPin, rightIn1, rightIn2, rightPwmPin);
      servoFL := new ServoController(PiConfig.ServoPinFL);
      servoFR := new ServoController(PiConfig.ServoPinFR);
      servoRL := new ServoController(PiConfig.ServoPinRL);
      servoRR := new ServoController(PiConfig.ServoPinRR);
      lastCmdTime := now;
      watchdogTriggered := false;
    }

    /** `process_command`: after the deadzone, an idle joystick stops the motors
        and detaches every servo; any other command drives the motors with the
        mixed speeds (limited by `speed`) and steers front and rear. The
        `servoAngle` argument is accepted and ignored. */
    method ProcessCommand(x: real, y: real, speed: real, servoAngle: Option<real>, now: real)
      requires Valid()
      modifies this, motors, servoFL, servoFR, servoRL, servoRR
      ensures lastCmdTime == now && !watchdogTriggered
      ensures Deadzone(x) == 0.0 && Deadzone(y) == 0.0 ==>
        && motors.leftDuty == 0.0 && motors.rightDuty == 0.0
        && motors.levels == Release(old(motors.levels), motors.leftIn1, motors.leftIn2, motors.rightIn1, motors.rightIn2)
        && servoFL.State() == old(servoFL.State()).(duty := 0.0)
        && servoFR.State() == old(servoFR.State()).(duty := 0.0)
        && servoRL.State() == old(servoRL.State()).(duty := 0.0)
        && servoRR.State() == old(servoRR.State()).(duty := 0.0)
      ensures !(Deadzone(x) == 0.0 && Deadzone(y) == 0.0) ==>
        var w := JoystickToWheels(Deadzone(x), Deadzone(y), speed);
        var a := JoystickToSteering(Deadzone(x));
        && motors.leftDuty == MotorOutputFor(w.0, PiConfig.MaxSpeed).duty
        && motors.rightDuty == MotorOutputFor(w.1, PiConfig.MaxSpeed).duty
        && motors.levels == Drive(Drive(old(motors.levels), motors.leftIn1, motors.leftIn2, w.0, PiConfig.MaxSpeed),
                                  motors.rightIn1, motors.rightIn2, w.1, PiConfig.MaxSpeed)
        && servoFL.State() == SetAngleStep(old(servoFL.State()), a.0)
        && servoFR.State() == SetAngleStep(old(servoFR.State()), a.0)
        && servoRL.State() == SetAngleStep(old(servoRL.State()), a.1)
        && servoRR.State() == SetAngleStep(old(servoRR.State()), a.1)
    {
      var x := x;
      var y := y;
      if Abs(x) < PiConfig.JoystickDeadzone { x := 0.0; }
      if Abs(y) < PiConfig.JoystickDeadzone { y := 0.0; }

      lastCmdTime := now;
      watchdogTriggered := false;

      if x == 0.0 && y == 0.0 {
        motors.Stop();
        servoFL.Detach();
        servoFR.Detach();
        servoRL.Detach();
        servoRR.Detach();
        return;
      }

      var (left, right) := JoystickToWheels(x, y, speed);
      motors.SetSpeed(left, right);

      var (front, rear) := JoystickToSteering(x);
      servoFL.SetAngle(front);
      servoFR.SetAngle(front);
      servoRL.SetAngle(rear);
      servoRR.SetAngle(rear);
    }

    /** `check_watchdog`: reports whether more than the timeout has passed
        since the last command, and stops the motors on the first such call
        only. */
    method CheckWatchdog(now: real) returns (expired: bool)
      modifies this, motors
      ensures expired <==> now - old(lastCmdTime) > PiConfig.WatchdogTimeout
      ensures lastCmdTime == old(lastCmdTime)
      ensures watchdogTriggered == (old(watchdogTriggered) || expired)
      ensures expired && !old(watchdogTriggered) ==>
        && motors.leftDuty == 0.0 && motors.rightDuty == 0.0
        && motors.levels == Release(old(motors.levels), motors.leftIn1, motors.leftIn2, motors.rightIn1, motors.rightIn2)
      ensures !(expired && !old(watchdogTriggered)) ==> unchanged(motors)
    {
      if now - lastCmdTime > PiConfig.WatchdogTimeout {
        if !watchdogTriggered {
          motors.Stop();
          watchdogTriggered := true;
        }
        return true;
      }
      return false;
    }
  }

  /** Two watchdog checks in one silence: the motors are stopped by the first
      and left alone by the second, and both report the timeout. */
  method WatchdogStopsOnce(rover: RoverMotion, now1: real, now2: real) returns (first: bool, second: bool)
    requires !rover.watchdogTriggered
    requires now1 - rover.lastCmdTime > PiConfig.WatchdogTimeout && now2 >= now1
    modifies rover, rover.motors
    ensures first && second && rover.watchdogTriggered
    ensures rover.motors.leftDuty == 0.0 && rover.motors.rightDuty == 0.0
  {
    first := rover.CheckWatchdog(now1);
    ghost var afterFirst := rover.motors.levels;
    second := rover.CheckWatchdog(now2);
    assert rover.motors.levels == afterFirst;
  }
}
