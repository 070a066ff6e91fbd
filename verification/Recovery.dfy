/** How long automatic control takes to bring a high level back, and that it then stays back. */
module Recovery {
  import opened RegisterMaps
  import opened WetWell
  import opened WetWellRuns
  import opened LevelChanges
  import opened Envelopes

  /** The running pump outdoes the open inlet by a margin of `m` litres per second. */
  predicate ExceedsBy(c: Config, m: real, speed: int) {
    c.nominalInletFlow + m <= c.maxPumpFlow * (speed as real / 10_000.0)
  }

  predicate Drains(c: Config, e: Envelope, m: real, op: Op)
    requires c.registers.Complete()
  {
    Disciplined(c, e, op) && (Accepted(c, op, PumpSpeedSetpoint) ==> ExceedsBy(c, m, op.value.AsInt()))
  }

  /** Automatic control, no fault, a speed that exceeds the inlet by the margin. */
  ghost predicate Draining(c: Config, e: Envelope, m: real, s: State)
    requires c.registers.Complete()
  {
    && Sound(c, s)
    && s.controls.controlMode == 1 && !s.pumpFault
    && e.a <= s.controls.levelSetpoint <= e.b
    && ExceedsBy(c, m, s.controls.pumpSpeed)
  }

  /** The least the level falls in an interval of running pump. */
  function Drop(c: Config, m: real, seconds: real): real
    requires c.capacityLiters > 0.0
  {
    m * seconds / c.capacityLiters * 10_000.0
  }

  lemma DropIsDelta(c: Config, m: real, seconds: real)
    requires c.capacityLiters > 0.0
    ensures Drop(c, m, seconds) == LevelDelta(c, m, seconds)
  {
  }

  /** Time until a pump asked to run does. */
  function StartTime(c: Config, pump: Actuator): real {
    if pump.feedback then 0.0 else if pump.target then pump.remaining else c.actuatorDelay
  }

  /** What is still to be drawn to reach the top of the band, counting what the waiting pump lets in. */
  function Excess(c: Config, e: Envelope, m: real, s: State): real
    requires c.capacityLiters > 0.0
  {
    s.level - Ceiling(c, e) + Rise(c, StartTime(c, s.pump)) + Drop(c, m, StartTime(c, s.pump))
  }

  ghost predicate Setting(c: Config, e: Envelope, m: real) {
    ValidConfig(c) && e.dt > 0.0 && m > 0.0 && e.b + c.hysteresis > 0
  }

  lemma DropAmounts(c: Config, m: real, t: real, u: real)
    requires c.capacityLiters > 0.0 && m >= 0.0
    ensures Drop(c, m, u) == Drop(c, m, t) + Drop(c, m, u - t)
    ensures 0.0 <= t ==> 0.0 <= Drop(c, m, t)
  {
    DropIsDelta(c, m, t);
    DropIsDelta(c, m, u);
    DropIsDelta(c, m, u - t);
    hide LevelDelta, Drop;
    assert t + (u - t) == u;
    DeltaAdditive(c, m, t, u - t);
    if 0.0 <= t { DeltaNonNegative(c, m, t); }
  }

  /** Asked to run, a pump waits out its travel and a running one keeps running. */
  lemma PumpStarts(c: Config, pump: Actuator, seconds: real)
    requires c.actuatorDelay > 0.0 && Settles(c, pump, false) && seconds > 0.0
    ensures var after := Travel(Request(c, pump, true), seconds, false);
      && after.target && 0.0 <= StartTime(c, after) <= c.actuatorDelay && 0.0 <= StartTime(c, pump) <= c.actuatorDelay
      && (pump.feedback ==> after.feedback)
      && (!after.feedback ==> StartTime(c, after) == StartTime(c, pump) - seconds)
  {
  }

  /** Above the band the controller asks the pump to run. */
  lemma AskedToRun(c: Config, e: Envelope, m: real, s: State)
    requires Setting(c, e, m) && Draining(c, e, m, s) && s.level >= Ceiling(c, e)
    ensures DesiredPumpState(c, s)
  {
    hide Sound, ValidConfig, ExceedsBy;
    assert c.hysteresis >= 1 by { HysteresisPositive(c); }
    assert (s.controls.levelSetpoint + c.hysteresis) as real <= Ceiling(c, e);
  }

  lemma HysteresisPositive(c: Config)
    requires ValidConfig(c)
    ensures c.hysteresis >= 1
  {
  }

  /** With the pump running a tick that ends above zero draws at least the margin. */
  lemma RunningDraws(c: Config, m: real, s: State, seconds: real)
    requires ValidConfig(c) && 0 <= s.controls.pumpSpeed <= 10_000 && seconds > 0.0 && m > 0.0
    requires ExceedsBy(c, m, s.controls.pumpSpeed) && Advance(c, s, seconds).pump.feedback
    requires Advance(c, s, seconds).level > 0.0
    ensures Advance(c, s, seconds).level <= s.level - Drop(c, m, seconds)
  {
    var moved := Actuate(c, s, seconds);
    AdvanceParts(c, s, seconds);
    assert InletRate(c, moved) <= c.nominalInletFlow;
    assert OutletRate(c, moved) == PumpFlow(c, moved) && PumpFlow(c, moved) == PumpFlow(c, s);
    assert c.nominalInletFlow + m <= PumpFlow(c, s);
    DropIsDelta(c, m, seconds);
    hide Advance, Actuate, InletRate, OutletRate, PumpFlow, LevelDelta, Drop;
    var net := InletRate(c, moved) - OutletRate(c, moved);
    DeltaMonotoneInFlow(c, net, -m, seconds);
    DeltaNegated(c, m, seconds);
  }

  lemma DrainTick(c: Config, e: Envelope, m: real, s: State, seconds: real)
    requires Setting(c, e, m) && Draining(c, e, m, s) && seconds > 0.0
    requires s.level >= Ceiling(c, e) && Advance(c, s, seconds).level >= Ceiling(c, e)
    ensures Excess(c, e, m, Advance(c, s, seconds)) + Drop(c, m, seconds) <= Excess(c, e, m, s)
  {
    var after := Advance(c, s, seconds);
    AskedToRun(c, e, m, s);
    AdvanceParts(c, s, seconds);
    PumpStarts(c, s.pump, seconds);
    hide Advance, Request, Travel, DesiredPumpState, Rise, Fall, Drop, ExceedsBy, KeepsUp, StartTime, IsHigh, IsLow;
    var before, later := StartTime(c, s.pump), StartTime(c, after.pump);
    Amounts(c, 0.0, before);
    DropAmounts(c, m, before, before);
    if after.pump.feedback {
      assert later == 0.0 by { RunningNeedsNoTime(c, after.pump); }
      RunningDraws(c, m, s, seconds);
      NothingInNoTime(c, m);
    } else {
      TickChange(c, s, seconds);
      Amounts(c, seconds, before);
      DropAmounts(c, m, seconds, before);
    }
  }

  lemma RunningNeedsNoTime(c: Config, pump: Actuator)
    requires pump.feedback
    ensures StartTime(c, pump) == 0.0
  {
  }

  lemma NothingInNoTime(c: Config, m: real)
    requires c.capacityLiters > 0.0
    ensures Rise(c, 0.0) == 0.0 && Drop(c, m, 0.0) == 0.0
  {
    assert c.nominalInletFlow * 0.0 == 0.0 && m * 0.0 == 0.0;
  }

  /** The tick that brings the level under the top of the band brings it into the envelope. */
  lemma EntryTick(c: Config, e: Envelope, m: real, s: State, seconds: real)
    requires Setting(c, e, m) && Draining(c, e, m, s) && 0.0 < seconds <= e.dt
    requires s.level >= Ceiling(c, e) > Advance(c, s, seconds).level
    ensures InEnvelope(c, e, Advance(c, s, seconds))
  {
    var after := Advance(c, s, seconds);
    AskedToRun(c, e, m, s);
    AdvanceParts(c, s, seconds);
    PumpStarts(c, s.pump, seconds);
    TickChange(c, s, seconds);
    MarginKeepsUp(c, m, s.controls.pumpSpeed);
    hide Advance, Request, Travel, DesiredPumpState, Rise, Fall, ExceedsBy, KeepsUp, IsHigh, IsLow;
    Amounts(c, seconds, e.dt);
    Amounts(c, e.dt, c.actuatorDelay + e.dt);
  }

  lemma MarginKeepsUp(c: Config, m: real, speed: int)
    requires m > 0.0 && ExceedsBy(c, m, speed)
    ensures KeepsUp(c, speed)
  {
  }

  /** Which of the values draining depends on a write can change. */
  lemma WriteDrains(c: Config, e: Envelope, m: real, s: State, k: Key, v: Raw)
    requires c.registers.Complete() && Drains(c, e, m, WriteOp(k, v))
    requires s.controls.controlMode == 1 && e.a <= s.controls.levelSetpoint <= e.b
    requires ExceedsBy(c, m, s.controls.pumpSpeed)
    ensures var w := Write(c, s, k, v);
      && w.controls.controlMode == 1 && w.pumpFault == s.pumpFault
      && e.a <= w.controls.levelSetpoint <= e.b
      && ExceedsBy(c, m, w.controls.pumpSpeed)
  {
    hide ExceedsBy, CoerceWrite;
  }

  lemma DrainingKept(c: Config, e: Envelope, m: real, s: State, op: Op)
    requires Setting(c, e, m) && Draining(c, e, m, s) && Drains(c, e, m, op)
    ensures Draining(c, e, m, Apply(c, s, op))
  {
    ApplySound(c, s, op);
    hide Sound, ValidConfig, ExceedsBy;
    match op
    case Tick(seconds) =>
      hide Advance;
      AdvanceParts(c, s, seconds);
    case WriteOp(k, v) =>
      WriteDrains(c, e, m, s, k, v);
  }

  /** The level has entered the envelope after some of the operations. */
  ghost predicate EntersAt(c: Config, e: Envelope, s: State, ops: seq<Op>, n: nat)
    requires c.registers.Complete() && c.capacityLiters > 0.0
  {
    n <= |ops| && InEnvelope(c, e, Run(c, s, ops[..n]))
  }

  lemma EntersLater(c: Config, e: Envelope, s: State, ops: seq<Op>, n: nat)
    requires c.registers.Complete() && c.capacityLiters > 0.0 && ops != []
    requires EntersAt(c, e, s, ops[..|ops| - 1], n)
    ensures EntersAt(c, e, s, ops, n)
  {
    hide InEnvelope;
    assert ops[..|ops| - 1][..n] == ops[..n];
  }

  /** Either the level has entered the envelope or every second so far has drawn its share. */
  lemma {:induction false} Descend(c: Config, e: Envelope, m: real, s: State, ops: seq<Op>)
    requires Setting(c, e, m) && Draining(c, e, m, s) && s.level >= Ceiling(c, e)
    requires forall op :: op in ops ==> Drains(c, e, m, op)
    ensures Draining(c, e, m, Run(c, s, ops))
    ensures (exists n: nat :: EntersAt(c, e, s, ops, n)) ||
      (Run(c, s, ops).level >= Ceiling(c, e)
       && Excess(c, e, m, Run(c, s, ops)) + Drop(c, m, TickTime(ops)) <= Excess(c, e, m, s))
  {
    hide Draining, Drains, Excess, Drop, Advance, Write, InEnvelope, EntersAt, ValidConfig;
    assert c.registers.Complete() && c.capacityLiters > 0.0 by { PlantOf(c); }
    if ops == [] {
      NothingInNoTime(c, m);
    } else {
      var front, op := ops[..|ops| - 1], ops[|ops| - 1];
      Descend(c, e, m, s, front);
      assert Drains(c, e, m, op);
      DrainingKept(c, e, m, Run(c, s, front), op);
      if n: nat :| EntersAt(c, e, s, front, n) {
        EntersLater(c, e, s, ops, n);
      } else {
        DescendStep(c, e, m, s, ops);
      }
    }
  }

  lemma PlantOf(c: Config)
    requires ValidConfig(c)
    ensures c.registers.Complete() && c.capacityLiters > 0.0
  {
  }

  lemma DescendStep(c: Config, e: Envelope, m: real, s: State, ops: seq<Op>)
    requires Setting(c, e, m) && ops != [] && Drains(c, e, m, ops[|ops| - 1])
    requires var front := ops[..|ops| - 1];
      && Draining(c, e, m, Run(c, s, front))
      && Run(c, s, front).level >= Ceiling(c, e)
      && Excess(c, e, m, Run(c, s, front)) + Drop(c, m, TickTime(front)) <= Excess(c, e, m, s)
    ensures EntersAt(c, e, s, ops, |ops|) ||
      (Run(c, s, ops).level >= Ceiling(c, e)
       && Excess(c, e, m, Run(c, s, ops)) + Drop(c, m, TickTime(ops)) <= Excess(c, e, m, s))
  {
    hide Draining, Drop, Advance, Write, InEnvelope, Rise, ValidConfig;
    PlantOf(c);
    var front, op := ops[..|ops| - 1], ops[|ops| - 1];
    var x := Run(c, s, front);
    assert ops[..|ops|] == ops;
    match op
    case WriteOp(k, v) =>
      WriteKeepsPlant(c, x, k, v);
    case Tick(seconds) =>
      if ValidInterval(seconds) {
        if Advance(c, x, seconds).level < Ceiling(c, e) {
          DisciplinedTick(c, e, seconds);
          EntryTick(c, e, m, x, seconds);
        } else {
          hide Excess;
          DrainTick(c, e, m, x, seconds);
          DropAmounts(c, m, TickTime(front), TickTime(ops));
        }
      }
  }

  lemma ExcessBounds(c: Config, e: Envelope, m: real, s: State)
    requires Setting(c, e, m) && Draining(c, e, m, s)
    ensures s.level - Ceiling(c, e) <= Excess(c, e, m, s)
    ensures Excess(c, e, m, s) <= s.level - Ceiling(c, e) + Rise(c, c.actuatorDelay) + Drop(c, m, c.actuatorDelay)
  {
    var wait := StartTime(c, s.pump);
    assert 0.0 <= wait <= c.actuatorDelay;
    hide Rise, Fall, Drop, ExceedsBy, StartTime;
    Amounts(c, wait, c.actuatorDelay);
    DropAmounts(c, m, wait, c.actuatorDelay);
    DropAmounts(c, m, c.actuatorDelay - wait, c.actuatorDelay);
  }

  /** From `n` operations on the level stays within the envelope. */
  ghost predicate StaysFrom(c: Config, e: Envelope, s: State, ops: seq<Op>, n: nat)
    requires c.registers.Complete() && c.capacityLiters > 0.0
  {
    && n <= |ops|
    && forall k :: n <= k <= |ops| ==>
         Floor(c, e) - Fall(c, c.actuatorDelay + e.dt) < Run(c, s, ops[..k]).level
           < Ceiling(c, e) + Rise(c, c.actuatorDelay + e.dt)
  }

  lemma EnteredStays(c: Config, e: Envelope, s: State, ops: seq<Op>, n: nat)
    requires ValidConfig(c) && e.dt > 0.0 && Sound(c, s) && EntersAt(c, e, s, ops, n)
    requires forall op :: op in ops ==> Disciplined(c, e, op)
    ensures StaysFrom(c, e, s, ops, n)
  {
    hide Run, Disciplined, Rise, Fall, LeastLevel, BelowGreatest, InvariantsHold;
    var entered := Run(c, s, ops[..n]);
    RunSound(c, s, ops[..n]);
    forall k | n <= k <= |ops|
      ensures Floor(c, e) - Fall(c, c.actuatorDelay + e.dt) < Run(c, s, ops[..k]).level
        < Ceiling(c, e) + Rise(c, c.actuatorDelay + e.dt)
    {
      var later := ops[n..k];
      assert ops[..k] == ops[..n] + later;
      RunConcat(c, s, ops[..n], later);
      RunInEnvelope(c, e, entered, later);
      RunSound(c, entered, later);
      PhaseBounds(c, e, Run(c, entered, later).pump, Run(c, entered, later).level);
    }
  }

  /**
   * From any level at or above the top of the band, wherever the pump is in its travel, a run whose speeds
   * exceed the inlet by a margin brings the level back into the envelope, to stay, once the time after
   * one delay is enough to draw the surplus, and what one delay lets in, at the margin's rate.
   */
  lemma LevelRecovers(c: Config, e: Envelope, m: real, s: State, ops: seq<Op>)
    requires Setting(c, e, m) && Draining(c, e, m, s) && s.level >= Ceiling(c, e)
    requires forall op :: op in ops ==> Drains(c, e, m, op)
    requires Drop(c, m, TickTime(ops) - c.actuatorDelay) > s.level - Ceiling(c, e) + Rise(c, c.actuatorDelay)
    ensures exists n: nat :: StaysFrom(c, e, s, ops, n)
  {
    hide Draining, Drains, Excess, LevelDelta, EntersAt, StaysFrom, Rise, Drop;
    PlantOf(c);
    Descend(c, e, m, s, ops);
    if n: nat :| EntersAt(c, e, s, ops, n) {
      forall op | op in ops ensures Disciplined(c, e, op) {
        assert Drains(c, e, m, op);
        DrainsIsDisciplined(c, e, m, op);
      }
      DrainingIsSound(c, e, m, s);
      EnteredStays(c, e, s, ops, n);
    } else {
      ExcessBounds(c, e, m, s);
      ExcessBounds(c, e, m, Run(c, s, ops));
      DropAmounts(c, m, c.actuatorDelay, TickTime(ops));
      assert false;
    }
  }

  lemma DrainsIsDisciplined(c: Config, e: Envelope, m: real, op: Op)
    requires c.registers.Complete() && Drains(c, e, m, op)
    ensures Disciplined(c, e, op)
  {
  }

  lemma DrainingIsSound(c: Config, e: Envelope, m: real, s: State)
    requires c.registers.Complete() && Draining(c, e, m, s)
    ensures Sound(c, s)
  {
  }

  /** With an envelope clear of the limits, both alarms are then off and stay off. */
  lemma AlarmsRecover(c: Config, e: Envelope, m: real, s: State, ops: seq<Op>)
    requires Setting(c, e, m) && Draining(c, e, m, s) && s.level >= Ceiling(c, e)
    requires forall op :: op in ops ==> Drains(c, e, m, op)
    requires Drop(c, m, TickTime(ops) - c.actuatorDelay) > s.level - Ceiling(c, e) + Rise(c, c.actuatorDelay)
    requires Ceiling(c, e) + Rise(c, c.actuatorDelay + e.dt) <= c.DefaultOf(HighAlarmLimit) as real - 0.5
    requires c.DefaultOf(LowAlarmLimit) as real + 0.5 <= Floor(c, e) - Fall(c, c.actuatorDelay + e.dt)
    ensures !Run(c, s, ops).high.active && !Run(c, s, ops).low.active
  {
    hide Drains, Rise, Fall, Drop, Run, InvariantsHold, ExceedsBy;
    LevelRecovers(c, e, m, s, ops);
    var n: nat :| StaysFrom(c, e, s, ops, n);
    assert ops[..|ops|] == ops;
    RunSound(c, s, ops);
  }
}
