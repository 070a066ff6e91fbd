/** What the snapshot shows of the state, of the initial state, and of a write. */
module Snapshots {
  import opened Numbers
  import opened RegisterMaps
  import opened WetWell
  import opened WetWellRuns

  /** The settings clients write, each under its own register. */
  lemma SettingsShown(c: Config, s: State)
    requires c.registers.Complete()
    ensures Snapshot(c, s, LevelSetpoint) == IntRaw(s.controls.levelSetpoint)
    ensures Snapshot(c, s, ControlMode) == IntRaw(s.controls.controlMode)
    ensures Snapshot(c, s, PumpSpeedSetpoint) == IntRaw(s.controls.pumpSpeed)
    ensures Snapshot(c, s, PumpCommand) == BoolRaw(s.controls.pumpCommand)
    ensures Snapshot(c, s, InletValveCommand) == BoolRaw(s.controls.valveCommand)
    ensures Snapshot(c, s, AlarmAcknowledge) == BoolRaw(s.controls.alarmAcknowledge)
    ensures Snapshot(c, s, AutoControlActive) == BoolRaw(s.controls.controlMode == 1)
  {
    hide RoundHalfEven;
  }

  /** What the plant reports, each under its own register; the level to the nearest raw unit. */
  lemma ReadingsShown(c: Config, s: State)
    requires c.registers.Complete()
    ensures Snapshot(c, s, TankLevelPv) == IntRaw(RoundHalfEven(s.level))
    ensures -0.5 <= s.level - Snapshot(c, s, TankLevelPv).AsInt() as real <= 0.5
    ensures Snapshot(c, s, InletFlowPv) == IntRaw(s.readings.inletFlow)
    ensures Snapshot(c, s, OutletFlowPv) == IntRaw(s.readings.outletFlow)
    ensures Snapshot(c, s, PumpCurrentPv) == IntRaw(s.readings.pumpCurrent)
    ensures Snapshot(c, s, ProcessTemperaturePv) == IntRaw(s.readings.temperature)
    ensures Snapshot(c, s, PumpStartCount) == IntRaw(s.pumpStarts)
  {
    hide RoundHalfEven;
  }

  /** Feedback, fault and alarms, each under its own register. */
  lemma FlagsShown(c: Config, s: State)
    requires c.registers.Complete()
    ensures Snapshot(c, s, PumpFault) == BoolRaw(s.pumpFault)
    ensures Snapshot(c, s, PumpFeedback) == BoolRaw(s.pump.feedback)
    ensures Snapshot(c, s, InletValveFeedback) == BoolRaw(s.valve.feedback)
    ensures Snapshot(c, s, HighLevelAlarm) == BoolRaw(s.high.active)
    ensures Snapshot(c, s, LowLevelAlarm) == BoolRaw(s.low.active)
  {
    hide RoundHalfEven;
  }

  /** The registers the process never changes show their defaults. */
  lemma ConstantsShown(c: Config, s: State)
    requires c.registers.Complete()
    ensures Snapshot(c, s, HighAlarmLimit) == IntRaw(c.registers.byKey[HighAlarmLimit].default)
    ensures Snapshot(c, s, LowAlarmLimit) == IntRaw(c.registers.byKey[LowAlarmLimit].default)
    ensures Snapshot(c, s, FirmwareMajorMinor) == IntRaw(c.registers.byKey[FirmwareMajorMinor].default)
  {
    hide RoundHalfEven;
  }

  /** A value and a register's default, an integer or a condition that is not 0. */
  predicate IsDefault(c: Config, k: Key, shown: Raw)
    requires c.registers.Complete()
  {
    match shown
    case IntRaw(n) => n == c.registers.byKey[k].default
    case BoolRaw(b) => b <==> c.registers.byKey[k].default != 0
  }

  /**
   * The initial state shows every register's default, except that nothing is alarmed or acknowledged and
   * automatic control is on exactly in mode 1; both actuators rest where they report.
   */
  lemma ResetShowsDefaults(c: Config, k: Key)
    requires c.registers.Complete()
    ensures var s := Reset(c);
      && (k !in {AlarmAcknowledge, HighLevelAlarm, LowLevelAlarm, AutoControlActive} ==>
            IsDefault(c, k, Snapshot(c, s, k)))
      && (k in {AlarmAcknowledge, HighLevelAlarm, LowLevelAlarm} ==> Snapshot(c, s, k) == BoolRaw(false))
      && Snapshot(c, s, AutoControlActive) == BoolRaw(c.registers.byKey[ControlMode].default == 1)
      && s.elapsed == 0.0 && !s.high.acknowledged && !s.low.acknowledged
      && s.pump.target == s.pump.feedback && s.pump.remaining == 0.0
      && s.valve.target == s.valve.feedback && s.valve.remaining == 0.0
  {
    RoundOfInteger(c.DefaultOf(TankLevelPv));
    hide RoundHalfEven;
  }

  /** What a register shows after a value has been written to it; an acknowledge pulse is consumed at once. */
  function ShownAfter(k: Key, v: Raw): Raw {
    if k in {PumpCommand, InletValveCommand} then BoolRaw(v.AsInt() != 0)
    else if k == AlarmAcknowledge then BoolRaw(false)
    else IntRaw(v.AsInt())
  }

  const HANDLED: set<Key> :=
    {LevelSetpoint, ControlMode, PumpSpeedSetpoint, PumpCommand, InletValveCommand, AlarmAcknowledge}

  /**
   * A write is accepted exactly when its register is writable with an effect and one of the six handled
   * ones, and its value is of the register's kind and in range. It then reads back, and leaves every other
   * register as it was, though changing the mode shows in the automatic-control flag; otherwise nothing
   * changes.
   */
  lemma WriteReadsBack(c: Config, s: State, k: Key, v: Raw)
    requires c.registers.Complete()
    ensures var d, w := c.registers.byKey[k], Write(c, s, k, v);
      var kind := if d.dataType == Bool then v.AsInt() == 0 || v.AsInt() == 1 else v.IntRaw?;
      var accepted := d.writable && d.hasWriteEffect && kind && d.minimum <= v.AsInt() <= d.maximum && k in HANDLED;
      && (accepted <==> WriteRefusal(c, k, v).None?)
      && (accepted ==> Snapshot(c, w, k) == ShownAfter(k, v))
      && (accepted ==> forall other :: other != k && !(k == ControlMode && other == AutoControlActive) ==>
            Snapshot(c, w, other) == Snapshot(c, s, other))
      && (!accepted ==> w == s)
  {
    var d := c.Reg(k);
    assert k in HANDLED <==> Handled(k);
    if WriteRefusal(c, k, v).None? {
      var stored := CoerceWrite(d, v).value;
      assert stored.AsInt() == v.AsInt();
      StoreShows(c, s, k, stored);
      hide Store, CoerceWrite, Snapshot;
    }
  }

  lemma StoreShows(c: Config, s: State, k: Key, v: Raw)
    requires c.registers.Complete() && Handled(k)
    ensures Snapshot(c, Store(s, k, v), k) == ShownAfter(k, v)
    ensures forall other :: other != k && !(k == ControlMode && other == AutoControlActive) ==>
      Snapshot(c, Store(s, k, v), other) == Snapshot(c, s, other)
  {
    forall other | other != k && !(k == ControlMode && other == AutoControlActive)
      ensures Snapshot(c, Store(s, k, v), other) == Snapshot(c, s, other)
    {
    }
    hide RoundHalfEven;
  }

  /** A tick leaves what clients write, the fault and the constants as they are shown. */
  lemma TickKeepsSettings(c: Config, s: State, seconds: real, k: Key)
    requires c.registers.Complete() && c.capacityLiters > 0.0
    requires k in HANDLED || k in {PumpFault, AutoControlActive, HighAlarmLimit, LowAlarmLimit, FirmwareMajorMinor}
    ensures Snapshot(c, Apply(c, s, Tick(seconds)), k) == Snapshot(c, s, k)
  {
    AdvanceParts(c, s, seconds);
    hide Advance;
  }

  function DischargeAt(c: Config, fraction: real): real { c.maxPumpFlow * fraction }

  /** The outlet flow and the pump current a fraction of the full speed calls for, to the nearest raw unit. */
  function FlowAt(c: Config, fraction: real): int { RoundHalfEven(DischargeAt(c, fraction) * 100.0) }

  function CurrentAt(fraction: real): int { RoundHalfEven(300.0 + 1_200.0 * fraction) }

  /**
   * The registers a client reads agree with one another: the level shown is the level to the nearest unit,
   * the flows and the current are those of the feedback and the speed shown, each alarm compares the level
   * shown with its limit shown, and automatic control is on in mode 1.
   */
  ghost predicate ShowsItself(c: Config, s: State)
    requires c.registers.Complete()
  {
    var level := Snapshot(c, s, TankLevelPv).AsInt();
    var speed := Snapshot(c, s, PumpSpeedSetpoint).AsInt() as real / 10_000.0;
    var open, running := Snapshot(c, s, InletValveFeedback).Truth(), Snapshot(c, s, PumpFeedback).Truth();
    && -0.5 <= s.level - level as real <= 0.5
    && Snapshot(c, s, InletFlowPv) == IntRaw(if open then RoundHalfEven(c.nominalInletFlow * 100.0) else 0)
    && Snapshot(c, s, OutletFlowPv) == IntRaw(if running then FlowAt(c, speed) else 0)
    && Snapshot(c, s, PumpCurrentPv) == IntRaw(if running then CurrentAt(speed) else 0)
    && Snapshot(c, s, HighLevelAlarm) == BoolRaw(level >= Snapshot(c, s, HighAlarmLimit).AsInt())
    && Snapshot(c, s, LowLevelAlarm) == BoolRaw(level <= Snapshot(c, s, LowAlarmLimit).AsInt())
    && Snapshot(c, s, AutoControlActive) == BoolRaw(Snapshot(c, s, ControlMode) == IntRaw(1))
  }

  lemma AtSpeed(c: Config, s: State)
    ensures RoundHalfEven(PumpFlow(c, s) * 100.0) == FlowAt(c, SpeedFraction(s))
    ensures RoundHalfEven(300.0 + 1_200.0 * SpeedFraction(s)) == CurrentAt(SpeedFraction(s))
  {
    assert PumpFlow(c, s) == DischargeAt(c, SpeedFraction(s));
    hide RoundHalfEven, SpeedFraction, PumpFlow, DischargeAt;
  }

  lemma TickReadings(c: Config, s: State, seconds: real)
    requires c.registers.Complete() && c.capacityLiters > 0.0
    ensures var w := Advance(c, s, seconds);
      && w.readings.inletFlow == (if w.valve.feedback then RoundHalfEven(c.nominalInletFlow * 100.0) else 0)
      && w.readings.outletFlow == (if w.pump.feedback then FlowAt(c, SpeedFraction(w)) else 0)
      && w.readings.pumpCurrent == (if w.pump.feedback then CurrentAt(SpeedFraction(w)) else 0)
      && (w.high.active <==> RoundHalfEven(w.level) >= c.registers.byKey[HighAlarmLimit].default)
      && (w.low.active <==> RoundHalfEven(w.level) <= c.registers.byKey[LowAlarmLimit].default)
  {
    RoundOfInteger(0);
    AtSpeed(c, Actuate(c, s, seconds));
    assert SpeedFraction(Actuate(c, s, seconds)) == SpeedFraction(Advance(c, s, seconds));
    hide LevelDelta, RoundHalfEven, PumpFlow, SpeedFraction, FlowAt, CurrentAt;
    AdvanceParts(c, s, seconds);
  }

  /** After a tick the registers a client reads agree with one another. */
  lemma TickShows(c: Config, s: State, seconds: real)
    requires c.registers.Complete() && c.capacityLiters > 0.0 && 0.0 < seconds <= 10.0
    ensures ShowsItself(c, Apply(c, s, Tick(seconds)))
  {
    var w := Apply(c, s, Tick(seconds));
    hide Advance, RoundHalfEven, FlowAt, CurrentAt, ShowsItself;
    TickReadings(c, s, seconds);
    StateShows(c, w);
  }

  lemma StateShows(c: Config, s: State)
    requires c.registers.Complete()
    requires s.readings.inletFlow == if s.valve.feedback then RoundHalfEven(c.nominalInletFlow * 100.0) else 0
    requires s.readings.outletFlow == if s.pump.feedback then FlowAt(c, SpeedFraction(s)) else 0
    requires s.readings.pumpCurrent == if s.pump.feedback then CurrentAt(SpeedFraction(s)) else 0
    requires s.high.active <==> RoundHalfEven(s.level) >= c.registers.byKey[HighAlarmLimit].default
    requires s.low.active <==> RoundHalfEven(s.level) <= c.registers.byKey[LowAlarmLimit].default
    ensures ShowsItself(c, s)
  {
    hide Snapshot, RoundHalfEven, FlowAt, CurrentAt;
    SettingsShown(c, s);
    ReadingsShown(c, s);
    FlagsShown(c, s);
    ConstantsShown(c, s);
  }
}
