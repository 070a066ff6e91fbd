/** Level changes as amounts, and which operations leave automatic control undisturbed. */
module LevelChanges {
  import opened RegisterMaps
  import opened WetWell
  import opened WetWellRuns
  import opened Arithmetic

  /** Raw level units the open inlet adds in an interval. */
  function Rise(c: Config, seconds: real): real
    requires c.capacityLiters > 0.0
  {
    c.nominalInletFlow * seconds / c.capacityLiters * 10_000.0
  }

  /** Raw level units the pump draws in an interval at full speed. */
  function Fall(c: Config, seconds: real): real
    requires c.capacityLiters > 0.0
  {
    c.maxPumpFlow * seconds / c.capacityLiters * 10_000.0
  }

  /** The amounts are the level changes of the full inlet and the full pump. */
  lemma AmountsAreDeltas(c: Config, seconds: real)
    requires c.capacityLiters > 0.0
    ensures Rise(c, seconds) == LevelDelta(c, c.nominalInletFlow, seconds)
    ensures Fall(c, seconds) == LevelDelta(c, c.maxPumpFlow, seconds)
  {
  }

  /** The operation is a write the process accepts for this key. */
  predicate Accepted(c: Config, op: Op, k: Key)
    requires c.registers.Complete()
  {
    op.WriteOp? && op.key == k && WriteRefusal(c, k, op.value).None?
  }

  predicate StaysAuto(c: Config, op: Op)
    requires c.registers.Complete()
  {
    Accepted(c, op, ControlMode) ==> op.value.AsInt() == 1
  }

  predicate SetpointWithin(c: Config, op: Op, a: int, b: int)
    requires c.registers.Complete()
  {
    Accepted(c, op, LevelSetpoint) ==> a <= op.value.AsInt() <= b
  }

  /** A speed at which the running pump keeps up with the open inlet. */
  predicate KeepsUp(c: Config, speed: int) { c.nominalInletFlow <= c.maxPumpFlow * (speed as real / 10_000.0) }

  predicate SpeedKeepsUp(c: Config, op: Op)
    requires c.registers.Complete()
  {
    Accepted(c, op, PumpSpeedSetpoint) ==> KeepsUp(c, op.value.AsInt())
  }

  // ----- Level changes as amounts -----

  lemma DeltaMonotoneInFlow(c: Config, low: real, high: real, seconds: real)
    requires c.capacityLiters > 0.0 && low <= high && seconds >= 0.0
    ensures LevelDelta(c, low, seconds) <= LevelDelta(c, high, seconds)
  {
    ProductMonotone(low, high, seconds);
    QuotientMonotone(low * seconds, high * seconds, c.capacityLiters);
  }

  lemma DeltaOfNothing(c: Config, seconds: real)
    requires c.capacityLiters > 0.0
    ensures LevelDelta(c, 0.0, seconds) == 0.0
  {
  }

  lemma DeltaNegated(c: Config, flow: real, seconds: real)
    requires c.capacityLiters > 0.0
    ensures LevelDelta(c, -flow, seconds) == -LevelDelta(c, flow, seconds)
  {
    QuotientNegated(flow * seconds, c.capacityLiters);
    assert (-flow) * seconds == -(flow * seconds);
  }

  lemma DeltaAdditive(c: Config, flow: real, t: real, u: real)
    requires c.capacityLiters > 0.0
    ensures LevelDelta(c, flow, t + u) == LevelDelta(c, flow, t) + LevelDelta(c, flow, u)
  {
    Distribute(flow, t, u);
    QuotientSum(flow * t, flow * u, c.capacityLiters);
  }

  lemma DeltaNonNegative(c: Config, flow: real, seconds: real)
    requires c.capacityLiters > 0.0 && flow >= 0.0 && seconds >= 0.0
    ensures LevelDelta(c, flow, seconds) >= 0.0
  {
    DeltaOfNothing(c, seconds);
    DeltaMonotoneInFlow(c, 0.0, flow, seconds);
  }

  /** Rise and fall grow with time, and over adjoining intervals they add up. */
  lemma Amounts(c: Config, t: real, u: real)
    requires c.capacityLiters > 0.0 && c.nominalInletFlow >= 0.0 && c.maxPumpFlow >= 0.0
    requires 0.0 <= t <= u
    ensures 0.0 <= Rise(c, t) <= Rise(c, u) && Rise(c, u) == Rise(c, t) + Rise(c, u - t)
    ensures 0.0 <= Fall(c, t) <= Fall(c, u) && Fall(c, u) == Fall(c, t) + Fall(c, u - t)
  {
    AmountsAreDeltas(c, t);
    AmountsAreDeltas(c, u);
    AmountsAreDeltas(c, u - t);
    hide LevelDelta, Rise, Fall;
    assert t + (u - t) == u;
    DeltaAdditive(c, c.nominalInletFlow, t, u - t);
    DeltaAdditive(c, c.maxPumpFlow, t, u - t);
    DeltaNonNegative(c, c.nominalInletFlow, t);
    DeltaNonNegative(c, c.maxPumpFlow, t);
    DeltaNonNegative(c, c.nominalInletFlow, u - t);
    DeltaNonNegative(c, c.maxPumpFlow, u - t);
  }

  lemma FallPositive(c: Config, seconds: real)
    requires c.capacityLiters > 0.0 && c.maxPumpFlow > 0.0 && seconds > 0.0
    ensures Fall(c, seconds) > 0.0
  {
    Positive(c.maxPumpFlow, seconds, c.capacityLiters);
  }

  lemma Positive(x: real, y: real, d: real)
    requires x > 0.0 && y > 0.0 && d > 0.0
    ensures x * y / d > 0.0
  {
    assert x * y > 0.0;
  }

  /** How far one interval can move the level in each actuator position. */
  lemma DeltaBounds(c: Config, s: State, seconds: real)
    requires c.capacityLiters > 0.0 && c.nominalInletFlow >= 0.0 && c.maxPumpFlow > 0.0
    requires 0 <= s.controls.pumpSpeed <= 10_000 && seconds > 0.0
    ensures var delta := LevelDelta(c, InletRate(c, s) - OutletRate(c, s), seconds);
      && -Fall(c, seconds) <= delta <= Rise(c, seconds)
      && (!s.pump.feedback ==> delta >= 0.0)
      && (s.pump.feedback && KeepsUp(c, s.controls.pumpSpeed) ==> delta <= 0.0)
  {
    AmountsAreDeltas(c, seconds);
    hide LevelDelta, Rise, Fall;
    OutletBounds(c, s);
    var net := InletRate(c, s) - OutletRate(c, s);
    assert -c.maxPumpFlow <= net <= c.nominalInletFlow;
    DeltaMonotoneInFlow(c, -c.maxPumpFlow, net, seconds);
    DeltaNegated(c, c.maxPumpFlow, seconds);
    DeltaMonotoneInFlow(c, net, c.nominalInletFlow, seconds);
    DeltaOfNothing(c, seconds);
    if net >= 0.0 { DeltaMonotoneInFlow(c, 0.0, net, seconds); }
    if net <= 0.0 { DeltaMonotoneInFlow(c, net, 0.0, seconds); }
  }

  /** How far a tick moves the level; clamping only brings it back towards where it was. */
  lemma TickChange(c: Config, s: State, seconds: real)
    requires ValidConfig(c) && 0 <= s.controls.pumpSpeed <= 10_000 && seconds > 0.0
    requires 0.0 <= s.level <= 10_000.0
    ensures var after := Advance(c, s, seconds);
      var change := after.level - s.level;
      && -Fall(c, seconds) <= change <= Rise(c, seconds)
      && (!after.pump.feedback ==> change >= 0.0)
      && (after.pump.feedback && KeepsUp(c, s.controls.pumpSpeed) ==> change <= 0.0)
  {
    var moved := Actuate(c, s, seconds);
    AdvanceParts(c, s, seconds);
    DeltaBounds(c, moved, seconds);
    Amounts(c, 0.0, seconds);
    hide Advance, Actuate, InletRate, OutletRate, LevelDelta, Rise, Fall, KeepsUp;
  }
}
