/** The rover control panel's state: the displayed rover state, the last
    joystick vector, and the emergency-stop flag that a 2-second timer clears.
    The timer is modelled as a separate event. */
module RoverControl {
  import opened SensorTypes
  import opened VirtualJoystick
  import MockSensorData

  const OptimalColor := "text-status-optimal"
  const WarningColor := "text-status-warning"
  const CriticalColor := "text-status-critical"

  /** `getBatteryColor`: optimal above 50 %, warning above 20 %, critical
      otherwise. */
  function BatteryColor(battery: real): (c: string)
    ensures c == OptimalColor <==> battery > 50.0
    ensures c == WarningColor <==> 20.0 < battery <= 50.0
    ensures c == CriticalColor <==> battery <= 20.0
  {
    if battery > 50.0 then OptimalColor
    else if battery > 20.0 then WarningColor
    else CriticalColor
  }

  /** How bad a colour is: 0 optimal, 1 warning, 2 critical. */
  function ColorSeverity(c: string): nat
  {
    if c == OptimalColor then 0 else if c == WarningColor then 1 else 2
  }

  /** More charge never shows a worse colour. */
  lemma BatteryColorMonotone(a: real, b: real)
    requires a <= b
    ensures ColorSeverity(BatteryColor(b)) <= ColorSeverity(BatteryColor(a))
  {
    assert OptimalColor != WarningColor && OptimalColor != CriticalColor && WarningColor != CriticalColor;
  }

  /** The dashboard's initial rover is connected and shows an optimal
      battery, so a panel built from it starts with every control enabled. */
  lemma MockRoverStartsReady(p: Panel)
    requires p.roverState == MockSensorData.MockRoverState && !p.isEmergencyStop
    ensures BatteryColor(p.roverState.battery) == OptimalColor
    ensures !p.JoystickDisabled() && !p.ControlsDisabled()
  {
  }

  class Panel {
    var roverState: RoverState
    var joystickPosition: JoystickPosition
    var isEmergencyStop: bool

    constructor (initial: RoverState)
      ensures roverState == initial && joystickPosition == JoystickPosition(0.0, 0.0) && !isEmergencyStop
    {
      roverState := initial;
      joystickPosition := JoystickPosition(0.0, 0.0);
      isEmergencyStop := false;
    }

    /** The joystick is disabled while disconnected or stopped. */
    predicate JoystickDisabled()
      reads this
      ensures isEmergencyStop ==> JoystickDisabled()
      ensures !roverState.connected ==> JoystickDisabled()
      ensures JoystickDisabled() ==> !roverState.connected || isEmergencyStop
    {
      !roverState.connected || isEmergencyStop
    }

    /** The speed slider and the stop button are disabled while disconnected. */
    predicate ControlsDisabled()
      reads this
      ensures ControlsDisabled() ==> JoystickDisabled()
      ensures roverState.connected && isEmergencyStop ==> !ControlsDisabled() && JoystickDisabled()
    {
      !roverState.connected
    }

    /** `handleJoystickMove`: records the vector unless stopped. */
    method HandleJoystickMove(position: JoystickPosition)
      modifies this
      ensures old(isEmergencyStop) ==> unchanged(this)
      ensures !old(isEmergencyStop) ==> joystickPosition == position
      ensures roverState == old(roverState) && isEmergencyStop == old(isEmergencyStop)
    {
      if isEmergencyStop {
        return;
      }
      joystickPosition := position;
    }

    /** `handleSpeedChange`: the slider's first value becomes the speed;
        connection, battery and position are kept. */
    method HandleSpeedChange(value: seq<real>)
      requires |value| >= 1
      modifies this
      ensures roverState == old(roverState).(speed := value[0])
      ensures roverState.connected == old(roverState.connected)
      ensures roverState.battery == old(roverState.battery)
      ensures roverState.position == old(roverState.position)
      ensures joystickPosition == old(joystickPosition) && isEmergencyStop == old(isEmergencyStop)
    {
      roverState := roverState.(speed := value[0]);
    }

    /** `handleEmergencyStop`: raises the flag and zeroes the vector. */
    method HandleEmergencyStop()
      modifies this
      ensures isEmergencyStop && joystickPosition == JoystickPosition(0.0, 0.0)
      ensures roverState == old(roverState)
      ensures JoystickDisabled()
    {
      isEmergencyStop := true;
      joystickPosition := JoystickPosition(0.0, 0.0);
    }

    /** The timer set by the emergency stop fires: only the flag is cleared,
        the vector stays as it is until the next move. */
    method EmergencyTimerElapsed()
      modifies this
      ensures !isEmergencyStop
      ensures joystickPosition == old(joystickPosition) && roverState == old(roverState)
    {
      isEmergencyStop := false;
    }
  }

  /** After a stop, moves are ignored until the timer fires; the vector then
      stays at rest until the next move. */
  method StopThenMoveThenTimer(panel: Panel, position: JoystickPosition)
    modifies panel
    ensures panel.joystickPosition == JoystickPosition(0.0, 0.0)
    ensures !panel.isEmergencyStop
  {
    panel.HandleEmergencyStop();
    panel.HandleJoystickMove(position);
    assert panel.joystickPosition == JoystickPosition(0.0, 0.0);
    panel.EmergencyTimerElapsed();
  }
}
