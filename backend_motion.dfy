/** The backend's command path (`RoverMotion`): explicit or computed
    four-wheel steering angles applied to the four servos in order, both
    motors driven at the same speed from the joystick's y, and a watchdog
    that stops the motors on every check past one second of silence. The
    clock is passed in as `now`. */
module BackendMotion {
  import opened Common
  import opened Hardware
  import opened BackendMotorDriver
  import opened BackendServoController

  const ServoPins: seq<int> := [23, 24, 25, 8]
  const WatchdogTimeout: real := 1.0

  /** `calculate_steering_angles`: [front-left, front-right, rear-left,
      rear-right] = [90 - o, 90 - o, 90 + o, 90 + o] with o = 45x/100. */
  function CalculateSteeringAngles(x: real): (a: seq<real>)
    ensures |a| == 4
    ensures a[0] == a[1] && a[2] == a[3] && a[0] + a[2] == 180.0
    ensures a[0] == 90.0 - (x / 100.0) * 45.0
    ensures -100.0 <= x <= 100.0 ==> forall i :: 0 <= i < 4 ==> 45.0 <= a[i] <= 135.0
  {
    var offset := (x / 100.0) * 45.0;
    [90.0 - offset, 90.0 - offset, 90.0 + offset, 90.0 + offset]
  }

  /** Turning the other way swaps the front and rear angles. */
  lemma SteeringAnglesMirror(x: real)
    ensures var a := CalculateSteeringAngles(x);
      CalculateSteeringAngles(-x) == [a[2], a[3], a[0], a[1]]
  {
  }

  /** The angles move in opposite directions as the turn grows. */
  lemma SteeringAnglesMonotone(x1: real, x2: real)
    requires x1 <= x2
    ensures CalculateSteeringAngles(x1)[0] >= CalculateSteeringAngles(x2)[0]
    ensures CalculateSteeringAngles(x1)[2] <= CalculateSteeringAngles(x2)[2]
  {
  }

  /** `joystick_to_wheels`: both sides at y, clamped to [-maxSpeed, maxSpeed]. */
  function JoystickToWheels(x: real, y: real, maxSpeed: real): (w: (real, real))
    ensures w.0 == w.1
    ensures maxSpeed >= 0.0 ==> -maxSpeed <= w.0 <= maxSpeed
    ensures -maxSpeed <= y <= maxSpeed ==> w.0 == y
  {
    var speedVal := Clamp(-maxSpeed, maxSpeed, y);
    (speedVal, speedVal)
  }

  /** The joystick's x has no effect on the wheels. */
  lemma WheelsIgnoreX(x1: real, x2: real, y: real, maxSpeed: real)
    ensures JoystickToWheels(x1, y, maxSpeed) == JoystickToWheels(x2, y, maxSpeed)
  {
  }

  /** The angles a command steers to: a non-empty explicit list wins, and an
      absent or empty one falls back to the computed angles. */
  function TargetAngles(x: real, servos: Option<seq<real>>): (t: seq<real>)
    ensures servos.Some? && servos.value != [] ==> t == servos.value
    ensures servos.None? || servos.value == [] ==> t == CalculateSteeringAngles(x)
    ensures t != []
  {
    if servos.Some? && servos.value != [] then servos.value else CalculateSteeringAngles(x)
  }

  class RoverMotion {
    const motors: MotorDriver
    const servos: seq<ServoController>
    var lastCmdTime: real

    /** Four servos, four different objects. */
    predicate Valid()
      reads this
    {
      |servos| == 4 && forall i, j :: 0 <= i < j < |servos| ==> servos[i] != servos[j]
    }

    constructor (now: real)
      ensures Valid() && fresh(motors) && motors.leftDuty == 0.0 && motors.rightDuty == 0.0
      ensures forall i :: 0 <= i < 4 ==> fresh(servos[i]) && servos[i].pin == ServoPins[i] && servos[i].duty == 0.0
      ensures lastCmdTime == now
    {
      motors := new MotorDriver();
      var s0 := new ServoController(ServoPins[0]);
      var s1 := new ServoController(ServoPins[1]);
      var s2 := new ServoController(ServoPins[2]);
      var s3 := new ServoController(ServoPins[3]);
      servos := [s0, s1, s2, s3];
      lastCmdTime := now;
    }

    /** `process_command`: the i-th of the first four target angles goes to
        the i-th servo, extra angles are ignored and servos without an angle
        keep theirs; then both motors get the same speed from y. The
        `servoAngle` argument is accepted and ignored. */
    method ProcessCommand(x: real, y: real, speed: real, servoAngle: Option<real>, servoList: Option<seq<real>>, now: real)
      requires Valid()
      modifies this, motors, servos
      ensures lastCmdTime == now
      ensures var t := TargetAngles(x, servoList);
        forall i :: 0 <= i < |servos| ==>
          servos[i].duty == if i < |t| then CommandDuty(t[i]) else old(servos[i].duty)
      ensures var w := JoystickToWheels(x, y, speed);
        && motors.leftDuty == MotorOutputFor(w.0, SpeedLimit).duty
        && motors.rightDuty == motors.leftDuty
        && motors.levels == Drive(Drive(old(motors.levels), LeftIn1, LeftIn2, w.0, SpeedLimit),
                                  RightIn1, RightIn2, w.1, SpeedLimit)
    {
      lastCmdTime := now;

      var targetAngles: seq<real>;
      if servoList.Some? && servoList.value != [] {
        targetAngles := servoList.value;
      } else {
        targetAngles := CalculateSteeringAngles(x);
      }

      var i := 0;
      while i < |targetAngles|
        invariant 0 <= i <= |targetAngles|
        invariant forall j :: 0 <= j < |servos| ==>
          servos[j].duty == if j < i && j < |targetAngles| then CommandDuty(targetAngles[j]) else old(servos[j].duty)
        invariant unchanged(motors) && lastCmdTime == now
      {
        if i < |servos| {
          servos[i].SetAngle(targetAngles[i]);
        }
        i := i + 1;
      }

      var (left, right) := JoystickToWheels(x, y, speed);
      motors.SetSpeed(left, right);
    }

    /** `check_watchdog`: past one second of silence, stops the motors and
        reports it, on every call. */
    method CheckWatchdog(now: real) returns (expired: bool)
      modifies motors
      ensures expired <==> now - lastCmdTime > WatchdogTimeout
      ensures expired ==>
        && motors.leftDuty == 0.0 && motors.rightDuty == 0.0
        && motors.levels == Release(old(motors.levels), LeftIn1, LeftIn2, RightIn1, RightIn2)
      ensures !expired ==> unchanged(motors)
    {
      if now - lastCmdTime > WatchdogTimeout {
        motors.Stop();
        return true;
      }
      return false;
    }
  }

  /** Two checks in one silence both stop the motors: there is no latch. */
  method WatchdogStopsEveryTime(rover: RoverMotion, now1: real, now2: real) returns (first: bool, second: bool)
    requires now1 - rover.lastCmdTime > WatchdogTimeout && now2 >= now1
    modifies rover.motors
    ensures first && second
    ensures rover.motors.leftDuty == 0.0 && rover.motors.rightDuty == 0.0
  {
    first := rover.CheckWatchdog(now1);
    second := rover.CheckWatchdog(now2);
  }
}
