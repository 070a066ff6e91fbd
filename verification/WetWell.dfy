/** What one write and one tick do to the wet well, as functions on its state. */
module WetWell {
  import opened Wrappers
  import opened Numbers
  import opened RegisterMaps

  /** The process section of the manifest, with its register definitions. */
  datatype Config = Config(
    capacityLiters: real,
    maxPumpFlow: real,
    nominalInletFlow: real,
    hysteresis: int,
    actuatorDelay: real,
    registers: RegisterMap)
  {
    function Reg(k: Key): Definition
      requires registers.Complete()
    {
      registers.byKey[k]
    }

    function DefaultOf(k: Key): int
      requires registers.Complete()
    {
      Reg(k).default
    }
  }

  /** The manifest bounds the model relies on. */
  ghost predicate ValidConfig(c: Config) {
    && c.registers.Complete()
    && c.capacityLiters > 0.0
    && c.maxPumpFlow > 0.0
    && c.nominalInletFlow >= 0.0
    && c.hysteresis >= 1
    && c.actuatorDelay > 0.0
    && 0 <= c.Reg(ControlMode).minimum <= c.DefaultOf(ControlMode) <= c.Reg(ControlMode).maximum <= 1
    && 0 <= c.Reg(PumpSpeedSetpoint).minimum <= c.DefaultOf(PumpSpeedSetpoint)
    && c.DefaultOf(PumpSpeedSetpoint) <= c.Reg(PumpSpeedSetpoint).maximum <= 10_000
    && 0 <= c.DefaultOf(TankLevelPv) <= 10_000
    && 0 <= c.DefaultOf(PumpStartCount) <= 65_535
    && 0 <= c.DefaultOf(InletFlowPv) && 0 <= c.DefaultOf(OutletFlowPv) && 0 <= c.DefaultOf(PumpCurrentPv)
    && !(c.DefaultOf(PumpFault) != 0 && c.DefaultOf(PumpFeedback) != 0)
  }

  /** A delayed two-position actuator: where it is going, where it reports, travel time left. */
  datatype Actuator = Actuator(target: bool, feedback: bool, remaining: real)

  datatype Alarm = Alarm(active: bool, acknowledged: bool)

  /** The six values a client may write. */
  datatype Controls = Controls(
    levelSetpoint: int,
    controlMode: int,
    pumpSpeed: int,
    pumpCommand: bool,
    valveCommand: bool,
    alarmAcknowledge: bool)

  /** Values derived at the end of each tick. */
  datatype Readings = Readings(inletFlow: int, outletFlow: int, pumpCurrent: int, temperature: int)

  datatype State = State(
    elapsed: real,
    level: real,
    controls: Controls,
    pumpStarts: int,
    pumpFault: bool,
    pump: Actuator,
    valve: Actuator,
    high: Alarm,
    low: Alarm,
    readings: Readings)

  function InitialControls(c: Config): Controls
    requires c.registers.Complete()
  {
    Controls(
      c.DefaultOf(LevelSetpoint), c.DefaultOf(ControlMode), c.DefaultOf(PumpSpeedSetpoint),
      c.DefaultOf(PumpCommand) != 0, c.DefaultOf(InletValveCommand) != 0, false)
  }

  function InitialReadings(c: Config): Readings
    requires c.registers.Complete()
  {
    Readings(
      c.DefaultOf(InletFlowPv), c.DefaultOf(OutletFlowPv), c.DefaultOf(PumpCurrentPv),
      c.DefaultOf(ProcessTemperaturePv))
  }

  /** The checked-in initial state. */
  function Reset(c: Config): State
    requires c.registers.Complete()
  {
    var pump := c.DefaultOf(PumpFeedback) != 0;
    var valve := c.DefaultOf(InletValveFeedback) != 0;
    State(
      0.0,
      c.DefaultOf(TankLevelPv) as real,
      InitialControls(c),
      c.DefaultOf(PumpStartCount),
      c.DefaultOf(PumpFault) != 0,
      Actuator(pump, pump, 0.0),
      Actuator(valve, valve, 0.0),
      Alarm(false, false),
      Alarm(false, false),
      InitialReadings(c))
  }

  // ----- Snapshot -----

  function Snapshot(c: Config, s: State, k: Key): Raw
    requires c.registers.Complete()
  {
    match k
    case TankLevelPv => IntRaw(RoundHalfEven(s.level))
    case InletFlowPv => IntRaw(s.readings.inletFlow)
    case OutletFlowPv => IntRaw(s.readings.outletFlow)
    case PumpCurrentPv => IntRaw(s.readings.pumpCurrent)
    case ProcessTemperaturePv => IntRaw(s.readings.temperature)
    case LevelSetpoint => IntRaw(s.controls.levelSetpoint)
    case HighAlarmLimit => IntRaw(c.DefaultOf(HighAlarmLimit))
    case LowAlarmLimit => IntRaw(c.DefaultOf(LowAlarmLimit))
    case PumpStartCount => IntRaw(s.pumpStarts)
    case ControlMode => IntRaw(s.controls.controlMode)
    case PumpSpeedSetpoint => IntRaw(s.controls.pumpSpeed)
    case FirmwareMajorMinor => IntRaw(c.DefaultOf(FirmwareMajorMinor))
    case PumpCommand => BoolRaw(s.controls.pumpCommand)
    case InletValveCommand => BoolRaw(s.controls.valveCommand)
    case AlarmAcknowledge => BoolRaw(s.controls.alarmAcknowledge)
    case PumpFeedback => BoolRaw(s.pump.feedback)
    case InletValveFeedback => BoolRaw(s.valve.feedback)
    case HighLevelAlarm => BoolRaw(s.high.active)
    case LowLevelAlarm => BoolRaw(s.low.active)
    case PumpFault => BoolRaw(s.pumpFault)
    case AutoControlActive => BoolRaw(s.controls.controlMode == 1)
  }

  // ----- Writes -----

  datatype WriteError = ReadOnly | NotBoolean | NotInteger | OutOfRange | NoHandler

  datatype Transition = Transition(key: Key, previous: Raw, requested: Raw, stored: Raw)

  /** A boolean register takes booleans, 0 and 1; any other takes integers that are not booleans. */
  predicate Typed(t: DataType, v: Raw) {
    if t == Bool then v.AsInt() == 0 || v.AsInt() == 1 else v.IntRaw?
  }

  function CoerceWrite(d: Definition, v: Raw): (r: Result<Raw, WriteError>)
    ensures r.Success? <==> Typed(d.dataType, v) && d.minimum <= v.AsInt() <= d.maximum
    ensures r.Failure? ==>
      r.error == if Typed(d.dataType, v) then OutOfRange else if d.dataType == Bool then NotBoolean else NotInteger
    ensures r.Success? ==>
      && d.minimum <= r.value.AsInt() <= d.maximum
      && r.value.AsInt() == v.AsInt()
      && (r.value.BoolRaw? <==> d.dataType == Bool)
  {
    var normalized :=
      if d.dataType == Bool then
        if v.BoolRaw? || v.n == 0 || v.n == 1 then Success(BoolRaw(v.Truth())) else Failure(NotBoolean)
      else
        if v.BoolRaw? then Failure(NotInteger) else Success(v);
    if normalized.Failure? then normalized
    else if d.minimum <= normalized.value.AsInt() <= d.maximum then normalized
    else Failure(OutOfRange)
  }

  /** The six keys that have a process write handler. */
  predicate Handled(k: Key) {
    k in {LevelSetpoint, ControlMode, PumpSpeedSetpoint, PumpCommand, InletValveCommand, AlarmAcknowledge}
  }

  function Acknowledge(a: Alarm): Alarm { Alarm(a.active, a.active) }

  function Store(s: State, k: Key, v: Raw): State
    requires Handled(k)
  {
    match k
    case LevelSetpoint => s.(controls := s.controls.(levelSetpoint := v.AsInt()))
    case ControlMode => s.(controls := s.controls.(controlMode := v.AsInt()))
    case PumpSpeedSetpoint => s.(controls := s.controls.(pumpSpeed := v.AsInt()))
    case PumpCommand => s.(controls := s.controls.(pumpCommand := v.Truth()))
    case InletValveCommand => s.(controls := s.controls.(valveCommand := v.Truth()))
    case AlarmAcknowledge =>
      var pulsed := if v.Truth() then s.(high := Acknowledge(s.high), low := Acknowledge(s.low)) else s;
      pulsed.(controls := s.controls.(alarmAcknowledge := false))
  }

  /** Why a write is refused, if it is. */
  function WriteRefusal(c: Config, k: Key, v: Raw): Option<WriteError>
    requires c.registers.Complete()
  {
    var d := c.Reg(k);
    if !d.writable || !d.hasWriteEffect then Some(ReadOnly)
    else
      var r := CoerceWrite(d, v);
      if r.Failure? then Some(r.error)
      else if !Handled(k) then Some(NoHandler)
      else None
  }

  function Write(c: Config, s: State, k: Key, v: Raw): State
    requires c.registers.Complete()
  {
    if WriteRefusal(c, k, v).None? then Store(s, k, CoerceWrite(c.Reg(k), v).value) else s
  }

  // ----- One tick -----

  predicate ValidInterval(seconds: real) { 0.0 < seconds <= 10.0 }

  function Request(c: Config, a: Actuator, target: bool): Actuator {
    if target != a.target then a.(target := target, remaining := c.actuatorDelay) else a
  }

  /** Travel for an interval; a blocked actuator arrives reporting false. */
  function Travel(a: Actuator, seconds: real, blocked: bool): Actuator {
    if a.remaining > 0.0 then
      var left := Max(0.0, a.remaining - seconds);
      Actuator(a.target, if left == 0.0 then a.target && !blocked else a.feedback, left)
    else a
  }

  function DesiredPumpState(c: Config, s: State): bool {
    if s.controls.controlMode == 0 then s.controls.pumpCommand
    else if s.pump.feedback || s.pump.target then s.level > (s.controls.levelSetpoint - c.hysteresis) as real
    else s.level >= (s.controls.levelSetpoint + c.hysteresis) as real
  }

  function CountStart(starts: int): int { if 65_535 < starts + 1 then 65_535 else starts + 1 }

  /** Both actuators after their requests and `seconds` of travel. */
  function Actuate(c: Config, s: State, seconds: real): State {
    var pump := Travel(Request(c, s.pump, DesiredPumpState(c, s)), seconds, s.pumpFault);
    s.(valve := Travel(Request(c, s.valve, s.controls.valveCommand), seconds, false),
       pump := pump,
       pumpStarts := if pump.feedback && !s.pump.feedback then CountStart(s.pumpStarts) else s.pumpStarts)
  }

  function InletRate(c: Config, s: State): real {
    if s.valve.feedback then c.nominalInletFlow else 0.0
  }

  function SpeedFraction(s: State): real { s.controls.pumpSpeed as real / 10_000.0 }

  /** Discharge of a running pump at the commanded speed. */
  function PumpFlow(c: Config, s: State): real { c.maxPumpFlow * SpeedFraction(s) }

  function OutletRate(c: Config, s: State): real {
    if s.pump.feedback then PumpFlow(c, s) else 0.0
  }

  /** Raw level change of a net flow over an interval. */
  function LevelDelta(c: Config, netFlow: real, seconds: real): real
    requires c.capacityLiters > 0.0
  {
    netFlow * seconds / c.capacityLiters * 10_000.0
  }

  /** The level after an interval of the flows the actuators now allow. */
  function Flow(c: Config, s: State, seconds: real): real
    requires c.capacityLiters > 0.0
  {
    Clamp(s.level + LevelDelta(c, InletRate(c, s) - OutletRate(c, s), seconds), 0.0, 10_000.0)
  }

  /** The twenty-minute thermal cycle at a given elapsed time. */
  function Thermal(elapsed: real): int {
    var phase := (elapsed / 60.0).Floor % 20;
    if phase <= 10 then phase else 20 - phase
  }

  function Derive(c: Config, s: State, elapsed: real): Readings
    requires c.registers.Complete()
  {
    Readings(
      RoundHalfEven(InletRate(c, s) * 100.0),
      RoundHalfEven(OutletRate(c, s) * 100.0),
      if s.pump.feedback then RoundHalfEven(300.0 + 1_200.0 * SpeedFraction(s)) else 0,
      c.DefaultOf(ProcessTemperaturePv) + Thermal(elapsed))
  }

  predicate IsHigh(c: Config, level: real)
    requires c.registers.Complete()
  {
    RoundHalfEven(level) >= c.DefaultOf(HighAlarmLimit)
  }

  predicate IsLow(c: Config, level: real)
    requires c.registers.Complete()
  {
    RoundHalfEven(level) <= c.DefaultOf(LowAlarmLimit)
  }

  function Watch(a: Alarm, active: bool): Alarm { Alarm(active, a.acknowledged && active) }

  /** The state a tick leaves, before its interval check. */
  function Advance(c: Config, s: State, seconds: real): State
    requires c.registers.Complete() && c.capacityLiters > 0.0
  {
    var moved := Actuate(c, s, seconds);
    var level := Flow(c, moved, seconds);
    moved.(level := level,
           readings := Derive(c, moved, s.elapsed + seconds),
           high := Watch(s.high, IsHigh(c, level)),
           low := Watch(s.low, IsLow(c, level)),
           elapsed := s.elapsed + seconds)
  }

  /** The checks a tick ends with. */
  predicate InvariantsHold(s: State) {
    && 0.0 <= s.level <= 10_000.0
    && (s.controls.controlMode == 0 || s.controls.controlMode == 1)
    && !(s.pumpFault && s.pump.feedback)
    && s.readings.inletFlow >= 0 && s.readings.outletFlow >= 0 && s.readings.pumpCurrent >= 0
  }
}
