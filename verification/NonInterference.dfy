/** Which writes the inactive control mode leaves without effect. */
module NonInterference {
  import opened Numbers
  import opened RegisterMaps
  import opened WetWell
  import opened WetWellRuns

  /** The write a control mode ignores: the manual command in AUTO, the setpoint in MANUAL. */
  function Ignored(mode: int): Key { if mode == 0 then LevelSetpoint else PumpCommand }

  /** A run without the writes to one key. */
  function Without(ops: seq<Op>, k: Key): seq<Op> {
    if ops == [] then []
    else
      var front, op := Without(ops[..|ops| - 1], k), ops[|ops| - 1];
      if op.WriteOp? && op.key == k then front else front + [op]
  }

  /** Agreement on every state component except the value of the ignored key. */
  ghost predicate AgreeExcept(k: Key, s: State, t: State) {
    && t == s.(controls := t.controls)
    && (if k == PumpCommand then t.controls == s.controls.(pumpCommand := t.controls.pumpCommand)
        else t.controls == s.controls.(levelSetpoint := t.controls.levelSetpoint))
  }

  predicate KeepsMode(c: Config, mode: int, op: Op)
    requires c.registers.Complete()
  {
    op.WriteOp? && op.key == ControlMode && WriteRefusal(c, ControlMode, op.value).None? ==>
      op.value.AsInt() == mode
  }

  lemma AgreeingDesire(c: Config, mode: int, s: State, t: State)
    requires (mode == 0 || mode == 1) && s.controls.controlMode == mode && AgreeExcept(Ignored(mode), s, t)
    ensures DesiredPumpState(c, s) == DesiredPumpState(c, t)
  {
  }

  lemma AgreeingActuation(c: Config, mode: int, s: State, t: State, seconds: real)
    requires (mode == 0 || mode == 1) && s.controls.controlMode == mode && AgreeExcept(Ignored(mode), s, t)
    ensures AgreeExcept(Ignored(mode), Actuate(c, s, seconds), Actuate(c, t, seconds))
    ensures Actuate(c, s, seconds).controls == s.controls && Actuate(c, t, seconds).controls == t.controls
  {
    AgreeingDesire(c, mode, s, t);
    hide DesiredPumpState, Travel, Request;
  }

  lemma AgreeingTick(c: Config, mode: int, s: State, t: State, seconds: real)
    requires c.registers.Complete() && c.capacityLiters > 0.0
    requires (mode == 0 || mode == 1) && s.controls.controlMode == mode && AgreeExcept(Ignored(mode), s, t)
    ensures AgreeExcept(Ignored(mode), Advance(c, s, seconds), Advance(c, t, seconds))
    ensures Advance(c, s, seconds).controls.controlMode == mode
  {
    AgreeingActuation(c, mode, s, t, seconds);
    SameFlows(c, mode, Actuate(c, s, seconds), Actuate(c, t, seconds), seconds, s.elapsed + seconds);
    hide Flow, Derive, Actuate, IsHigh, IsLow, Watch;
  }

  lemma SameFlows(c: Config, mode: int, s: State, t: State, seconds: real, elapsed: real)
    requires c.registers.Complete() && c.capacityLiters > 0.0 && AgreeExcept(Ignored(mode), s, t)
    ensures Flow(c, s, seconds) == Flow(c, t, seconds)
    ensures Derive(c, s, elapsed) == Derive(c, t, elapsed)
  {
    assert InletRate(c, s) == InletRate(c, t);
    assert SpeedFraction(s) == SpeedFraction(t);
    hide SpeedFraction;
    assert PumpFlow(c, s) == PumpFlow(c, t);
    hide PumpFlow;
    assert OutletRate(c, s) == OutletRate(c, t);
    hide InletRate, OutletRate, LevelDelta, RoundHalfEven, Clamp, AgreeExcept;
    assert s.level == t.level && s.pump == t.pump;
  }

  lemma AgreeingPulse(mode: int, s: State, t: State, v: Raw)
    requires (mode == 0 || mode == 1) && s.controls.controlMode == mode && AgreeExcept(Ignored(mode), s, t)
    ensures Store(s, AlarmAcknowledge, v).controls.controlMode == mode
    ensures AgreeExcept(Ignored(mode), Store(s, AlarmAcknowledge, v), Store(t, AlarmAcknowledge, v))
  {
    hide Acknowledge;
    assert s.high == t.high && s.low == t.low;
  }

  lemma AgreeingStore(mode: int, s: State, t: State, k: Key, v: Raw)
    requires (mode == 0 || mode == 1) && s.controls.controlMode == mode && AgreeExcept(Ignored(mode), s, t)
    requires Handled(k) && (k == ControlMode ==> v.AsInt() == mode)
    ensures Store(s, k, v).controls.controlMode == mode
    ensures k == Ignored(mode) ==> AgreeExcept(Ignored(mode), Store(s, k, v), t)
    ensures k != Ignored(mode) ==> AgreeExcept(Ignored(mode), Store(s, k, v), Store(t, k, v))
  {
    if k == AlarmAcknowledge {
      AgreeingPulse(mode, s, t, v);
      hide Store, AgreeExcept;
    } else {
      var stored := Store(s, k, v);
      assert stored == s.(controls := stored.controls);
    }
  }

  lemma AgreeingWrite(c: Config, mode: int, s: State, t: State, k: Key, v: Raw)
    requires c.registers.Complete() && (mode == 0 || mode == 1)
    requires s.controls.controlMode == mode && AgreeExcept(Ignored(mode), s, t)
    requires KeepsMode(c, mode, WriteOp(k, v))
    ensures Write(c, s, k, v).controls.controlMode == mode
    ensures k == Ignored(mode) ==> AgreeExcept(Ignored(mode), Write(c, s, k, v), t)
    ensures k != Ignored(mode) ==> AgreeExcept(Ignored(mode), Write(c, s, k, v), Write(c, t, k, v))
  {
    if WriteRefusal(c, k, v).None? {
      AgreeingStore(mode, s, t, k, CoerceWrite(c.Reg(k), v).value);
    }
    hide Store, AgreeExcept, CoerceWrite;
  }

  /**
   * From states that agree but for the ignored value, a run that keeps its mode and the same run without
   * its ignored writes agree on everything else, forever.
   */
  lemma {:induction false} IgnoredWrites(c: Config, mode: int, s: State, t: State, ops: seq<Op>)
    requires c.registers.Complete() && c.capacityLiters > 0.0
    requires (mode == 0 || mode == 1) && s.controls.controlMode == mode && AgreeExcept(Ignored(mode), s, t)
    requires forall op :: op in ops ==> KeepsMode(c, mode, op)
    ensures AgreeExcept(Ignored(mode), Run(c, s, ops), Run(c, t, Without(ops, Ignored(mode))))
    ensures Run(c, s, ops).controls.controlMode == mode
  {
    if ops != [] {
      hide AgreeExcept, Advance, Write, KeepsMode;
      var front, op, k := ops[..|ops| - 1], ops[|ops| - 1], Ignored(mode);
      IgnoredWrites(c, mode, s, t, front);
      var before, other := Run(c, s, front), Run(c, t, Without(front, k));
      assert KeepsMode(c, mode, op);
      if op.WriteOp? {
        AgreeingWrite(c, mode, before, other, op.key, op.value);
      } else if ValidInterval(op.seconds) {
        AgreeingTick(c, mode, before, other, op.seconds);
      }
      if !(op.WriteOp? && op.key == k) {
        var kept := Without(ops, k);
        assert kept[..|kept| - 1] == Without(front, k);
      }
    }
  }

  /** Agreement but for one value is symmetric and transitive. */
  lemma AgreementIsMutual(k: Key, s: State, t: State, u: State)
    requires k == LevelSetpoint || k == PumpCommand
    requires AgreeExcept(k, s, u) && AgreeExcept(k, t, u)
    ensures AgreeExcept(k, s, t)
  {
  }

  /**
   * Two mode-keeping runs that differ only in ignored writes, from states that differ at most in the
   * ignored value, agree on everything else.
   */
  lemma ControlNonInterference(c: Config, mode: int, s: State, t: State, one: seq<Op>, other: seq<Op>)
    requires c.registers.Complete() && c.capacityLiters > 0.0
    requires (mode == 0 || mode == 1) && s.controls.controlMode == mode && AgreeExcept(Ignored(mode), s, t)
    requires forall op :: op in one ==> KeepsMode(c, mode, op)
    requires forall op :: op in other ==> KeepsMode(c, mode, op)
    requires Without(one, Ignored(mode)) == Without(other, Ignored(mode))
    ensures AgreeExcept(Ignored(mode), Run(c, s, one), Run(c, t, other))
  {
    assert AgreeExcept(Ignored(mode), t, t);
    assert t.controls.controlMode == mode;
    hide Run, KeepsMode, Without, AgreeExcept;
    IgnoredWrites(c, mode, s, t, one);
    IgnoredWrites(c, mode, t, t, other);
    AgreementIsMutual(Ignored(mode), Run(c, s, one), Run(c, t, other), Run(c, t, Without(one, Ignored(mode))));
  }
}
