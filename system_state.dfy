/** The backend's shared `SystemState`: connection, battery, the stored
    sensor readings and the last joystick command with its time. The clock
    is passed in: `now` as seconds for `datetime.now()`, and the ISO text
    `get_sensors` stamps as a string argument. */
module BackendState {
  import opened Common
  import opened RulesEngine

  datatype Command = Command(x: real, y: real, speed: real, ts: real)

  datatype Status = Status(connection: string, battery: real, lastCommand: string)

  /** What `get_sensors` returns: the stored groups plus the time stamp. */
  datatype SensorsReport = SensorsReport(groups: SensorDict, lastUpdated: string)

  const InitialSensors: SensorDict := map[
    "soil" := map[
      "moisture" := 42.0, "temperature" := 26.0, "ph" := 5.6,
      "nitrogen" := 18.0, "phosphorus" := 12.0, "potassium" := 20.0],
    "environment" := map["temperature" := 30.0, "humidity" := 60.0]]

  const NoCommand := Command(0.0, 0.0, 0.0, 0.0)

  /** Python's `int()` on a float: truncation toward zero. */
  function Trunc(x: real): (n: int)
    ensures x >= 0.0 ==> n as real <= x < n as real + 1.0
    ensures x < 0.0 ==> n as real - 1.0 < x <= n as real
    ensures Abs(n as real) <= Abs(x)
  {
    if x >= 0.0 then x.Floor else -((-x).Floor)
  }

  function DigitChar(d: nat): (c: char)
    requires d < 10
    ensures '0' <= c <= '9' && (c as int) - ('0' as int) == d
  {
    ('0' as int + d) as char
  }

  /** The decimal digits of `n`, without leading zeros. */
  function NatToDecimal(n: nat): (s: string)
    ensures |s| >= 1 && forall i :: 0 <= i < |s| ==> '0' <= s[i] <= '9'
    ensures |s| > 1 ==> s[0] != '0'
  {
    if n < 10 then [DigitChar(n)] else NatToDecimal(n / 10) + [DigitChar(n % 10)]
  }

  /** `str(n)` for an integer: a minus sign before the digits of a negative.
      The text reads back as `n`, so distinct elapsed times give distinct
      texts. */
  function IntToDecimal(n: int): (s: string)
    ensures s != [] && (s[0] == '-' <==> n < 0)
    ensures forall i :: (if s[0] == '-' then 1 else 0) <= i < |s| ==> '0' <= s[i] <= '9'
    ensures ParseDecimal(s) == n
  {
    if n < 0 then
      var digits := NatToDecimal(-n);
      NatDecimalRoundTrip(-n);
      assert ("-" + digits)[1..] == digits;
      "-" + digits
    else
      NatDecimalRoundTrip(n);
      NatToDecimal(n)
  }

  /** The value of a string of decimal digits. */
  function DigitsValue(s: string): nat
    requires forall i :: 0 <= i < |s| ==> '0' <= s[i] <= '9'
  {
    if s == [] then 0
    else DigitsValue(s[..|s| - 1]) * 10 + ((s[|s| - 1] as int) - ('0' as int))
  }

  /** Reading an optionally signed decimal back. */
  function ParseDecimal(s: string): int
    requires s != []
    requires forall i :: (if s[0] == '-' then 1 else 0) <= i < |s| ==> '0' <= s[i] <= '9'
  {
    if s[0] == '-' then 0 - DigitsValue(s[1..]) else DigitsValue(s)
  }

  lemma {:induction false} NatDecimalRoundTrip(n: nat)
    ensures DigitsValue(NatToDecimal(n)) == n
  {
    if n >= 10 {
      var s := NatToDecimal(n);
      assert s[..|s| - 1] == NatToDecimal(n / 10);
      NatDecimalRoundTrip(n / 10);
    }
  }

  /** `get_status`'s lastCommand: "Never" before any command, else the whole
      seconds elapsed. */
  function LastCommandText(lastCommandTime: Option<real>, now: real): (s: string)
    ensures lastCommandTime.None? <==> s == "Never"
  {
    if lastCommandTime.None? then "Never"
    else
      var text := IntToDecimal(Trunc(now - lastCommandTime.value)) + " seconds ago";
      assert text[0] != 'N';
      text
  }

  /** The elapsed seconds can be read back from the text. */
  lemma LastCommandTextElapsed(t: real, now: real)
    ensures var s := LastCommandText(Some(t), now);
      var k := |s| - |" seconds ago"|;
      && 0 < k && s[k..] == " seconds ago"
      && (forall i :: (if s[0] == '-' then 1 else 0) <= i < k ==> '0' <= s[i] <= '9')
      && ParseDecimal(s[..k]) == Trunc(now - t)
  {
    var d := IntToDecimal(Trunc(now - t));
    var s := LastCommandText(Some(t), now);
    assert s == d + " seconds ago";
    assert s[..|d|] == d;
    assert s[|d|..] == " seconds ago";
  }

  /** Example: 2.7 seconds after the last command the status reads
      "2 seconds ago". */
  lemma TwoSecondsAgo()
    ensures LastCommandText(Some(10.0), 12.7) == "2 seconds ago"
  {
    assert Trunc(12.7 - 10.0) == 2;
    assert IntToDecimal(2) == "2";
  }

  class SystemState {
    var connectionStatus: string
    var batteryLevel: real
    var lastCommandTime: Option<real>
    var sensors: SensorDict
    var lastCommand: Command

    /** The state `initialize` establishes. */
    predicate IsInitial()
      reads this
    {
      && connectionStatus == "online" && batteryLevel == 78.0 && lastCommandTime.None?
      && sensors == InitialSensors && lastCommand == NoCommand
    }

    constructor ()
      ensures IsInitial()
    {
      connectionStatus := "online";
      batteryLevel := 78.0;
      lastCommandTime := None;
      sensors := InitialSensors;
      lastCommand := NoCommand;
    }

    /** `initialize`. */
    method Initialize()
      modifies this
      ensures IsInitial()
    {
      connectionStatus := "online";
      batteryLevel := 78.0;
      lastCommandTime := None;
      sensors := InitialSensors;
      lastCommand := NoCommand;
    }

    /** `set_command`: stores the command stamped `ts`, then records the
        command time `now` (the source reads the clock twice). */
    method SetCommand(x: real, y: real, speed: real, ts: real, now: real)
      modifies this
      ensures lastCommand == Command(x, y, speed, ts) && lastCommandTime == Some(now)
      ensures connectionStatus == old(connectionStatus) && batteryLevel == old(batteryLevel)
      ensures sensors == old(sensors)
    {
      lastCommand := Command(x, y, speed, ts);
      UpdateLastCommandTime(now);
    }

    /** `update_last_command_time`. */
    method UpdateLastCommandTime(now: real)
      modifies this
      ensures lastCommandTime == Some(now)
      ensures connectionStatus == old(connectionStatus) && batteryLevel == old(batteryLevel)
      ensures sensors == old(sensors) && lastCommand == old(lastCommand)
    {
      lastCommandTime := Some(now);
    }

    /** `get_status`: reads the state and changes nothing. */
    method GetStatus(now: real) returns (status: Status)
      ensures status.connection == connectionStatus && status.battery == batteryLevel
      ensures status.lastCommand == LastCommandText(lastCommandTime, now)
      ensures status.lastCommand == "Never" <==> lastCommandTime.None?
    {
      var lastCmdStr := "Never";
      if lastCommandTime.Some? {
        var seconds := Trunc(now - lastCommandTime.value);
        lastCmdStr := IntToDecimal(seconds) + " seconds ago";
      }
      status := Status(connectionStatus, batteryLevel, lastCmdStr);
    }

    /** `get_sensors`: the stored groups and the time stamp; changes nothing. */
    method GetSensors(timestamp: string) returns (report: SensorsReport)
      ensures report.groups == sensors && report.lastUpdated == timestamp
    {
      report := SensorsReport(sensors, timestamp);
    }
  }

  /** The singleton: `SystemState()` initialises an instance the first time
      and hands back that same instance, untouched, every later time. */
  class Registry {
    var instance: SystemState?

    constructor ()
      ensures instance == null
    {
      instance := null;
    }

    method Get() returns (s: SystemState)
      modifies this
      ensures instance == s
      ensures old(instance) == null ==> fresh(s) && s.IsInitial()
      ensures old(instance) != null ==> s == old(instance) && unchanged(s)
    {
      if instance == null {
        var created := new SystemState();
        instance := created;
      }
      s := instance;
    }
  }

  /** The first constructions are the same object. */
  method SameInstance(registry: Registry) returns (first: SystemState, second: SystemState)
    modifies registry
    ensures first == second
  {
    first := registry.Get();
    second := registry.Get();
  }

  /** Example: the rules engine on the initial readings (pH 5.6, nitrogen 18,
      moisture 42) asks for lime and fertilizer. */
  lemma InitialReadingsAnalysis()
    ensures Recommendations(InitialSensors) == [Recommendation(AddLime, 5.6), Recommendation(ApplyNitrogen, 18.0)]
    ensures Summary(Recommendations(InitialSensors)) == AttentionPrefix + AddLime + ", " + ApplyNitrogen + "."
  {
    var r := Recommendations(InitialSensors);
    assert Soil(InitialSensors)["ph"] == 5.6;
    assert Ph(InitialSensors) == 5.6 && Nitrogen(InitialSensors) == 18.0 && Moisture(InitialSensors) == 42.0;
    assert r == [Recommendation(AddLime, 5.6), Recommendation(ApplyNitrogen, 18.0)];
    SummaryOfTwo(r);
  }
}
