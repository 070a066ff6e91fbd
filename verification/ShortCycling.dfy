/** How often automatic control can start the pump. */
module ShortCycling {
  import opened RegisterMaps
  import opened WetWell
  import opened WetWellRuns
  import opened LevelChanges

  /** Rising edges of the pump's run feedback over a run. */
  function Starts(c: Config, s: State, ops: seq<Op>): nat
    requires c.registers.Complete() && c.capacityLiters > 0.0
  {
    if ops == [] then 0
    else
      var front := ops[..|ops| - 1];
      var rose := !Run(c, s, front).pump.feedback && Run(c, s, ops).pump.feedback;
      Starts(c, s, front) + if rose then 1 else 0
  }

  /** The start counter is the saturated number of rising edges, over every run. */
  lemma {:induction false} StartCounter(c: Config, s: State, ops: seq<Op>)
    requires c.registers.Complete() && c.capacityLiters > 0.0 && s.pumpStarts <= 65_535
    ensures var count := s.pumpStarts + Starts(c, s, ops);
      Run(c, s, ops).pumpStarts == if 65_535 < count then 65_535 else count
  {
    if ops != [] {
      var front, op := ops[..|ops| - 1], ops[|ops| - 1];
      StartCounter(c, s, front);
      match op
      case Tick(seconds) => AdvanceParts(c, Run(c, s, front), seconds);
      case WriteOp(k, v) => WriteKeepsPlant(c, Run(c, s, front), k, v);
    }
  }

  /** Automatic control at one setpoint; every other write is free. */
  predicate HoldsSetpoint(c: Config, setpoint: int, op: Op)
    requires c.registers.Complete()
  {
    StaysAuto(c, op) && SetpointWithin(c, op, setpoint, setpoint)
  }

  /** Level units the starts after the first one have cost. */
  function Paid(c: Config, starts: nat): real {
    if starts <= 1 then 0.0 else Paid(c, starts - 1) + (2 * c.hysteresis) as real
  }

  /** After the first start, inflow so far covers every later cycle and the climb since the last stop. */
  ghost predicate Covered(c: Config, s: State, setpoint: int, starts: nat, inflow: real) {
    && s.controls.controlMode == 1
    && s.controls.levelSetpoint == setpoint
    && 0.0 <= inflow
    && (starts >= 1 ==>
          && Paid(c, starts) <= inflow
          && (!s.pump.feedback ==>
                if s.pump.target then Paid(c, starts + 1) <= inflow
                else Paid(c, starts) + s.level - (setpoint - c.hysteresis) as real <= inflow))
  }

  lemma {:induction false} PaidClosedForm(c: Config, starts: nat)
    requires starts >= 1
    ensures Paid(c, starts) == (2 * c.hysteresis * (starts - 1)) as real
  {
    if starts > 1 {
      PaidClosedForm(c, starts - 1);
      assert 2 * c.hysteresis * (starts - 1) == 2 * c.hysteresis * (starts - 2) + 2 * c.hysteresis;
    }
  }

  lemma CoveredTick(c: Config, s: State, setpoint: int, starts: nat, inflow: real, seconds: real)
    requires ValidConfig(c) && Sound(c, s) && seconds > 0.0
    requires Covered(c, s, setpoint, starts, inflow)
    ensures var after := Advance(c, s, seconds);
      Covered(c, after, setpoint, starts + (if !s.pump.feedback && after.pump.feedback then 1 else 0),
              inflow + Rise(c, seconds))
  {
    AdvanceParts(c, s, seconds);
    TickChange(c, s, seconds);
    Amounts(c, 0.0, seconds);
    hide Advance, Flow, InletRate, OutletRate, Rise, Fall, KeepsUp;
  }

  lemma CoveredWrite(c: Config, s: State, setpoint: int, starts: nat, inflow: real, k: Key, v: Raw)
    requires c.registers.Complete() && HoldsSetpoint(c, setpoint, WriteOp(k, v))
    requires Covered(c, s, setpoint, starts, inflow)
    ensures Covered(c, Write(c, s, k, v), setpoint, starts, inflow)
    ensures Write(c, s, k, v).pump == s.pump
  {
    WriteKeepsPlant(c, s, k, v);
  }

  lemma CoveredStep(c: Config, s: State, setpoint: int, starts: nat, inflow: real, op: Op)
    requires ValidConfig(c) && Sound(c, s) && HoldsSetpoint(c, setpoint, op)
    requires Covered(c, s, setpoint, starts, inflow)
    ensures var after := Apply(c, s, op);
      Covered(c, after, setpoint, starts + (if !s.pump.feedback && after.pump.feedback then 1 else 0),
              inflow + Rise(c, Seconds(op)))
  {
    hide Covered, Advance, Write, Rise, Sound;
    if op.WriteOp? {
      CoveredWrite(c, s, setpoint, starts, inflow, op.key, op.value);
    } else if ValidInterval(op.seconds) {
      CoveredTick(c, s, setpoint, starts, inflow, op.seconds);
    }
    RiseAtOnce(c);
  }

  lemma RiseAtOnce(c: Config)
    requires c.capacityLiters > 0.0
    ensures Rise(c, 0.0) == 0.0
  {
    assert c.nominalInletFlow * 0.0 == 0.0;
  }

  lemma {:induction false} RunCovered(c: Config, s: State, setpoint: int, ops: seq<Op>)
    requires ValidConfig(c) && Sound(c, s)
    requires s.controls.controlMode == 1 && s.controls.levelSetpoint == setpoint
    requires forall op :: op in ops ==> HoldsSetpoint(c, setpoint, op)
    ensures Covered(c, Run(c, s, ops), setpoint, Starts(c, s, ops), Rise(c, TickTime(ops)))
  {
    hide Apply, HoldsSetpoint, Rise, Sound;
    if ops == [] {
      RiseAtOnce(c);
    } else {
      hide Covered;
      var front, op := ops[..|ops| - 1], ops[|ops| - 1];
      RunCovered(c, s, setpoint, front);
      RunSound(c, s, front);
      CoveredStep(c, Run(c, s, front), setpoint, Starts(c, s, front), Rise(c, TickTime(front)), op);
      Amounts(c, TickTime(front), TickTime(ops));
      assert TickTime(ops) - TickTime(front) == Seconds(op);
    }
  }

  /**
   * In automatic control at a fixed setpoint, every start after the first needs the inlet to refill
   * the whole hysteresis band, whatever speeds, valve commands and tick sizes are used.
   */
  lemma NoShortCycling(c: Config, s: State, ops: seq<Op>)
    requires ValidConfig(c) && Sound(c, s) && s.controls.controlMode == 1
    requires forall op :: op in ops ==> HoldsSetpoint(c, s.controls.levelSetpoint, op)
    ensures (2 * c.hysteresis * (Starts(c, s, ops) - 1)) as real <= Rise(c, TickTime(ops))
  {
    hide Run, Starts, Rise, HoldsSetpoint;
    RunCovered(c, s, s.controls.levelSetpoint, ops);
    CoveredPays(c, Run(c, s, ops), s.controls.levelSetpoint, Starts(c, s, ops), Rise(c, TickTime(ops)));
  }

  lemma CoveredPays(c: Config, s: State, setpoint: int, starts: nat, inflow: real)
    requires c.hysteresis >= 0 && Covered(c, s, setpoint, starts, inflow)
    ensures (2 * c.hysteresis * (starts - 1)) as real <= inflow
  {
    if starts == 0 {
      assert 2 * c.hysteresis * (starts - 1) == -2 * c.hysteresis;
    } else {
      PaidClosedForm(c, starts);
    }
  }
}
