/** What the tick reports, and when an alarm counts as acknowledged. */
module Alarms {
  import opened Numbers
  import opened RegisterMaps
  import opened WetWell
  import opened WetWellRuns

  /**
   * A tick reports the flows in force and the current they draw to the nearest raw unit, a temperature that
   * climbs and falls by ten over twenty minutes, and alarms that compare the rounded level with their limits.
   */
  lemma TickReports(c: Config, s: State, seconds: real)
    requires c.registers.Complete() && c.capacityLiters > 0.0
    ensures var after := Advance(c, s, seconds);
      var speed := s.controls.pumpSpeed as real / 10_000.0;
      var minute := (after.elapsed / 60.0).Floor % 20;
      && after.elapsed == s.elapsed + seconds
      && after.readings.inletFlow == (if after.valve.feedback then RoundHalfEven(c.nominalInletFlow * 100.0) else 0)
      && after.readings.outletFlow == (if after.pump.feedback then RoundHalfEven(c.maxPumpFlow * speed * 100.0) else 0)
      && after.readings.pumpCurrent == (if after.pump.feedback then RoundHalfEven(300.0 + 1_200.0 * speed) else 0)
      && after.readings.temperature - c.DefaultOf(ProcessTemperaturePv) == (if minute < 10 then minute else 20 - minute)
      && (after.high.active <==> RoundHalfEven(after.level) >= c.DefaultOf(HighAlarmLimit))
      && (after.low.active <==> RoundHalfEven(after.level) <= c.DefaultOf(LowAlarmLimit))
  {
    RoundOfInteger(0);
    hide LevelDelta, RoundHalfEven;
    AdvanceParts(c, s, seconds);
  }

  datatype Side = High | Low

  function AlarmOf(s: State, side: Side): Alarm { match side case High => s.high case Low => s.low }

  /** An accepted acknowledge pulse. */
  predicate Pulses(c: Config, op: Op)
    requires c.registers.Complete()
  {
    && op.WriteOp? && op.key == AlarmAcknowledge
    && WriteRefusal(c, op.key, op.value).None?
    && op.value.Truth()
  }

  /** The alarm after the first `j` operations. */
  function AlarmAfter(c: Config, s: State, ops: seq<Op>, side: Side, j: nat): Alarm
    requires c.registers.Complete() && c.capacityLiters > 0.0 && j <= |ops|
  {
    AlarmOf(Run(c, s, ops[..j]), side)
  }

  /** A pulse at `i` that found the alarm active, and active it has stayed up to `n`. */
  ghost predicate PulsedSince(c: Config, s: State, ops: seq<Op>, side: Side, n: nat, i: nat)
    requires c.registers.Complete() && c.capacityLiters > 0.0 && n <= |ops|
  {
    && i < n && Pulses(c, ops[i])
    && forall j :: i < j <= n ==> AlarmAfter(c, s, ops, side, j).active
  }

  lemma OneOp(c: Config, s: State, op: Op, side: Side)
    requires c.registers.Complete() && c.capacityLiters > 0.0
    requires AlarmOf(s, side).acknowledged ==> AlarmOf(s, side).active
    ensures var before, after := AlarmOf(s, side), AlarmOf(Apply(c, s, op), side);
      after.acknowledged <==> after.active && (Pulses(c, op) || before.acknowledged)
  {
    hide LevelDelta, Derive, DesiredPumpState, Travel, Request;
  }

  lemma {:induction false} AcknowledgedUpTo(c: Config, s: State, ops: seq<Op>, side: Side, n: nat)
    requires c.registers.Complete() && c.capacityLiters > 0.0 && n <= |ops|
    requires !AlarmOf(s, side).acknowledged
    ensures var a := AlarmAfter(c, s, ops, side, n);
      && (a.acknowledged <==> exists i: nat :: PulsedSince(c, s, ops, side, n, i))
      && (a.acknowledged ==> a.active)
  {
    if n == 0 {
      assert ops[..0] == [];
    } else {
      hide Pulses, Apply, AlarmOf;
      var m := n - 1;
      AcknowledgedUpTo(c, s, ops, side, m);
      assert ops[..n][..m] == ops[..m];
      OneOp(c, Run(c, s, ops[..m]), ops[m], side);
      var a := AlarmAfter(c, s, ops, side, n);
      if a.acknowledged {
        if Pulses(c, ops[m]) {
          assert PulsedSince(c, s, ops, side, n, m);
        } else {
          var i: nat :| PulsedSince(c, s, ops, side, m, i);
          assert PulsedSince(c, s, ops, side, n, i);
        }
      }
      if i: nat :| PulsedSince(c, s, ops, side, n, i) {
        assert a.active;
        if i < m { assert PulsedSince(c, s, ops, side, m, i); }
      }
    }
  }

  /**
   * Over every run an alarm is acknowledged exactly when some accepted pulse found it active and it has
   * been active ever since: an alarm that clears, even for one tick, must be acknowledged again.
   */
  lemma AcknowledgedExactly(c: Config, s: State, ops: seq<Op>, side: Side)
    requires c.registers.Complete() && c.capacityLiters > 0.0
    requires !AlarmOf(s, side).acknowledged
    ensures AlarmOf(Run(c, s, ops), side).acknowledged <==>
      exists i: nat :: PulsedSince(c, s, ops, side, |ops|, i)
  {
    hide Run, AlarmOf, Pulses;
    AcknowledgedUpTo(c, s, ops, side, |ops|);
    assert ops[..|ops|] == ops;
  }
}
