/** The pi agent's tuning constants (`RoverConfig`). The motor direction and
    PWM pins the motor driver reads are not defined there and are passed to
    it instead. */
module PiConfig {
  /** Full speed, on the -100..100 scale. */
  const MaxSpeed: real := 100.0
  /** Seconds without a command before the watchdog stops the motors. */
  const WatchdogTimeout: real := 1.0
  /** Joystick components smaller than this in magnitude count as zero. */
  const JoystickDeadzone: real := 5.0
  const ServoPinFL: int := 23
  const ServoPinFR: int := 24
  const ServoPinRL: int := 25
  const ServoPinRR: int := 8
}
