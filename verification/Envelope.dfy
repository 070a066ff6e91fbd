/** The level envelope automatic control keeps over every run. */
module Envelopes {
  import opened RegisterMaps
  import opened WetWell
  import opened WetWellRuns
  import opened LevelChanges

  /** The envelope's parameters: setpoints in [a, b], ticks of at most `dt`. */
  datatype Envelope = Envelope(a: int, b: int, dt: real)

  predicate Disciplined(c: Config, e: Envelope, op: Op)
    requires c.registers.Complete()
  {
    && StaysAuto(c, op)
    && SetpointWithin(c, op, e.a, e.b)
    && SpeedKeepsUp(c, op)
    && Seconds(op) <= e.dt
  }

  function Floor(c: Config, e: Envelope): real { (e.a - c.hysteresis) as real }

  function Ceiling(c: Config, e: Envelope): real { (e.b + c.hysteresis) as real }

  /** A level no phase falls to: once stopping, the draw so far since the stop request counts. */
  function LeastLevel(c: Config, e: Envelope, pump: Actuator): real
    requires c.capacityLiters > 0.0
  {
    if !pump.feedback then Floor(c, e) - Fall(c, c.actuatorDelay + e.dt)
    else if pump.target then Floor(c, e) - Fall(c, e.dt)
    else Floor(c, e) - Fall(c, c.actuatorDelay - pump.remaining + e.dt)
  }

  /** Levels below what each phase can reach: once starting, the inflow since the request counts. */
  predicate BelowGreatest(c: Config, e: Envelope, pump: Actuator, level: real)
    requires c.capacityLiters > 0.0
  {
    if pump.feedback then level < Ceiling(c, e) + Rise(c, c.actuatorDelay + e.dt)
    else if pump.target then level < Ceiling(c, e) + Rise(c, c.actuatorDelay - pump.remaining + e.dt)
    else level < Ceiling(c, e) + Rise(c, e.dt)
  }

  /** What each actuator phase guarantees: how far past the band the level can already be. */
  ghost predicate InEnvelope(c: Config, e: Envelope, s: State)
    requires c.registers.Complete() && c.capacityLiters > 0.0
  {
    && s.controls.controlMode == 1
    && !s.pumpFault
    && e.a <= s.controls.levelSetpoint <= e.b
    && KeepsUp(c, s.controls.pumpSpeed)
    && LeastLevel(c, e, s.pump) < s.level
    && BelowGreatest(c, e, s.pump, s.level)
  }

  /** Automatic control, no fault, level inside the control band; both actuators may still be travelling. */
  ghost predicate InBand(c: Config, e: Envelope, s: State)
    requires c.registers.Complete()
  {
    && Sound(c, s)
    && s.controls.controlMode == 1 && !s.pumpFault
    && e.a <= s.controls.levelSetpoint <= e.b
    && KeepsUp(c, s.controls.pumpSpeed)
    && Floor(c, e) <= s.level < Ceiling(c, e)
  }

  lemma BandInEnvelope(c: Config, e: Envelope, s: State)
    requires ValidConfig(c) && InBand(c, e, s) && e.dt > 0.0
    ensures InEnvelope(c, e, s)
  {
    hide Fall, Rise, InvariantsHold, IsHigh, IsLow;
    FallPositive(c, e.dt);
    Amounts(c, e.dt, c.actuatorDelay + e.dt);
    Amounts(c, e.dt, c.actuatorDelay - s.pump.remaining + e.dt);
  }

  /** The automatic controller's request at a level and setpoint. */
  predicate AutoRequest(c: Config, pump: Actuator, level: real, setpoint: int) {
    if pump.feedback || pump.target then level > (setpoint - c.hysteresis) as real
    else level >= (setpoint + c.hysteresis) as real
  }

  function Commanded(c: Config, pump: Actuator, level: real, setpoint: int, seconds: real): Actuator {
    Travel(Request(c, pump, AutoRequest(c, pump, level, setpoint)), seconds, false)
  }

  /** The plant's parameters, without the manifest. */
  predicate Plant(c: Config) {
    && c.capacityLiters > 0.0 && c.nominalInletFlow >= 0.0 && c.maxPumpFlow > 0.0
    && c.actuatorDelay > 0.0 && c.hysteresis >= 1
  }

  lemma GreatestKept(
    c: Config, e: Envelope, pump: Actuator, level: real, setpoint: int, seconds: real, change: real)
    requires Plant(c) && 0.0 < seconds <= e.dt && Settles(c, pump, false) && e.a <= setpoint <= e.b
    requires BelowGreatest(c, e, pump, level)
    requires change <= Rise(c, seconds)
    requires Commanded(c, pump, level, setpoint, seconds).feedback ==> change <= 0.0
    ensures BelowGreatest(c, e, Commanded(c, pump, level, setpoint, seconds), level + change)
  {
    hide Rise;
    var after := Commanded(c, pump, level, setpoint, seconds);
    Amounts(c, seconds, e.dt);
    Amounts(c, e.dt, c.actuatorDelay + e.dt);
    if after.feedback {
      if after.target && !pump.feedback {
        Amounts(c, c.actuatorDelay - pump.remaining + e.dt, c.actuatorDelay + e.dt);
      }
    } else if after.target {
      var waited := c.actuatorDelay - after.remaining;
      Amounts(c, seconds, waited + e.dt);
      assert waited + e.dt - seconds == (waited - seconds) + e.dt;
      if pump.target {
        assert waited - seconds == c.actuatorDelay - pump.remaining;
      } else {
        assert waited == seconds;
      }
    } else {
      assert level < Ceiling(c, e);
    }
  }

  lemma LeastKept(
    c: Config, e: Envelope, pump: Actuator, level: real, setpoint: int, seconds: real, change: real)
    requires Plant(c) && 0.0 < seconds <= e.dt && Settles(c, pump, false) && e.a <= setpoint <= e.b
    requires LeastLevel(c, e, pump) < level
    requires -Fall(c, seconds) <= change
    requires !Commanded(c, pump, level, setpoint, seconds).feedback ==> change >= 0.0
    ensures LeastLevel(c, e, Commanded(c, pump, level, setpoint, seconds)) < level + change
  {
    hide Fall;
    var after := Commanded(c, pump, level, setpoint, seconds);
    Amounts(c, seconds, e.dt);
    Amounts(c, e.dt, c.actuatorDelay + e.dt);
    if !after.feedback {
      if pump.feedback && !pump.target {
        Amounts(c, c.actuatorDelay - pump.remaining + e.dt, c.actuatorDelay + e.dt);
      }
    } else if !after.target {
      var waited := c.actuatorDelay - after.remaining;
      Amounts(c, seconds, waited + e.dt);
      assert waited + e.dt - seconds == (waited - seconds) + e.dt;
      if pump.target {
        assert waited == seconds;
      } else {
        assert waited - seconds == c.actuatorDelay - pump.remaining;
      }
    } else {
      assert level > Floor(c, e);
    }
  }

  lemma EnvelopeTick(c: Config, e: Envelope, s: State, seconds: real)
    requires ValidConfig(c) && Sound(c, s) && InEnvelope(c, e, s)
    requires 0.0 < seconds <= e.dt
    ensures InEnvelope(c, e, Advance(c, s, seconds))
  {
    hide LeastLevel, BelowGreatest, Advance, Rise, Fall, KeepsUp;
    var after, setpoint := Advance(c, s, seconds), s.controls.levelSetpoint;
    AdvanceParts(c, s, seconds);
    TickChange(c, s, seconds);
    assert after.pump == Commanded(c, s.pump, s.level, setpoint, seconds);
    GreatestKept(c, e, s.pump, s.level, setpoint, seconds, after.level - s.level);
    LeastKept(c, e, s.pump, s.level, setpoint, seconds, after.level - s.level);
    assert s.level + (after.level - s.level) == after.level;
  }

  lemma EnvelopeWrite(c: Config, e: Envelope, s: State, k: Key, v: Raw)
    requires c.registers.Complete() && c.capacityLiters > 0.0 && InEnvelope(c, e, s)
    requires Disciplined(c, e, WriteOp(k, v))
    ensures InEnvelope(c, e, Write(c, s, k, v))
  {
    hide LeastLevel, BelowGreatest;
    WriteKeepsPlant(c, s, k, v);
  }

  lemma PhaseBounds(c: Config, e: Envelope, pump: Actuator, level: real)
    requires Plant(c) && e.dt > 0.0 && 0.0 <= pump.remaining <= c.actuatorDelay
    requires LeastLevel(c, e, pump) < level && BelowGreatest(c, e, pump, level)
    ensures Floor(c, e) - Fall(c, c.actuatorDelay + e.dt) < level
    ensures level < Ceiling(c, e) + Rise(c, c.actuatorDelay + e.dt)
  {
    hide Rise, Fall;
    Amounts(c, c.actuatorDelay - pump.remaining + e.dt, c.actuatorDelay + e.dt);
    Amounts(c, e.dt, c.actuatorDelay + e.dt);
  }

  lemma {:induction false} RunInEnvelope(c: Config, e: Envelope, s: State, ops: seq<Op>)
    requires ValidConfig(c) && Sound(c, s) && InEnvelope(c, e, s)
    requires forall op :: op in ops ==> Disciplined(c, e, op)
    ensures InEnvelope(c, e, Run(c, s, ops))
  {
    hide InEnvelope, Disciplined, Advance, Write, Sound;
    if ops != [] {
      var front, op := ops[..|ops| - 1], ops[|ops| - 1];
      RunInEnvelope(c, e, s, front);
      RunSound(c, s, front);
      assert Disciplined(c, e, op);
      if op.WriteOp? {
        EnvelopeWrite(c, e, Run(c, s, front), op.key, op.value);
      } else if ValidInterval(op.seconds) {
        DisciplinedTick(c, e, op.seconds);
        EnvelopeTick(c, e, Run(c, s, front), op.seconds);
      }
    }
  }

  lemma DisciplinedTick(c: Config, e: Envelope, seconds: real)
    requires c.registers.Complete() && ValidInterval(seconds) && Disciplined(c, e, Tick(seconds))
    ensures 0.0 < seconds <= e.dt
  {
  }

  /**
   * From anywhere in the control band, whatever travel is under way, no disciplined run ever takes the
   * level further past the band than one delay and one tick of the inlet above, or of the full pump below.
   */
  lemma LevelEnvelope(c: Config, e: Envelope, s: State, ops: seq<Op>)
    requires ValidConfig(c) && InBand(c, e, s) && e.dt > 0.0
    requires forall op :: op in ops ==> Disciplined(c, e, op)
    ensures var level := Run(c, s, ops).level;
      && (e.a - c.hysteresis) as real - Fall(c, c.actuatorDelay + e.dt) < level
      && level < (e.b + c.hysteresis) as real + Rise(c, c.actuatorDelay + e.dt)
  {
    hide Run, Disciplined, Rise, Fall, LeastLevel, BelowGreatest, InvariantsHold;
    BandInEnvelope(c, e, s);
    RunInEnvelope(c, e, s, ops);
    RunSound(c, s, ops);
    PhaseBounds(c, e, Run(c, s, ops).pump, Run(c, s, ops).level);
  }

  /** Disciplined runs whose envelope clears both alarm limits never raise an alarm. */
  lemma NoAlarms(c: Config, e: Envelope, s: State, ops: seq<Op>)
    requires ValidConfig(c) && InBand(c, e, s) && e.dt > 0.0
    requires forall op :: op in ops ==> Disciplined(c, e, op)
    requires (e.b + c.hysteresis) as real + Rise(c, c.actuatorDelay + e.dt)
          <= c.DefaultOf(HighAlarmLimit) as real - 0.5
    requires c.DefaultOf(LowAlarmLimit) as real + 0.5
          <= (e.a - c.hysteresis) as real - Fall(c, c.actuatorDelay + e.dt)
    ensures !Run(c, s, ops).high.active && !Run(c, s, ops).low.active
  {
    hide Run, Disciplined, Rise, Fall, InvariantsHold;
    LevelEnvelope(c, e, s, ops);
    RunSound(c, s, ops);
  }
}
