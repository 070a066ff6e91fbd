/** In manual control with settled actuators, only the total tick time matters. */
module Subdivision {
  import opened Numbers
  import opened WetWell
  import opened WetWellRuns
  import opened LevelChanges

  /** Manual control with both actuators at rest on their commands. */
  predicate SettledManually(s: State) {
    && s.controls.controlMode == 0
    && s.pump.target == s.controls.pumpCommand && s.pump.remaining == 0.0
    && s.valve.target == s.controls.valveCommand && s.valve.remaining == 0.0
  }

  function Ticks(c: Config, s: State, schedule: seq<real>): State
    requires c.registers.Complete() && c.capacityLiters > 0.0
  {
    Run(c, s, AsOps(schedule))
  }

  function AsOps(schedule: seq<real>): seq<Op> {
    if schedule == [] then [] else AsOps(schedule[..|schedule| - 1]) + [Tick(schedule[|schedule| - 1])]
  }

  function Sum(schedule: seq<real>): real {
    if schedule == [] then 0.0 else Sum(schedule[..|schedule| - 1]) + schedule[|schedule| - 1]
  }

  ghost predicate ValidSchedule(schedule: seq<real>) {
    forall i :: 0 <= i < |schedule| ==> ValidInterval(schedule[i])
  }

  lemma {:induction false} SumPositive(schedule: seq<real>)
    requires ValidSchedule(schedule) && schedule != []
    ensures Sum(schedule) > 0.0
  {
    if |schedule| > 1 {
      SumPositive(schedule[..|schedule| - 1]);
    }
  }

  /** Nothing moves, so a tick only integrates the present flows. */
  lemma SettledActuate(c: Config, s: State, seconds: real)
    requires SettledManually(s)
    ensures Actuate(c, s, seconds) == s
  {
  }

  lemma ClampTwice(x: real, d: real, e: real)
    requires 0.0 <= x <= 10_000.0 && ((d >= 0.0 && e >= 0.0) || (d <= 0.0 && e <= 0.0))
    ensures Clamp(Clamp(x + d, 0.0, 10_000.0) + e, 0.0, 10_000.0) == Clamp(x + (d + e), 0.0, 10_000.0)
  {
  }

  /** Where the level goes in one interval decides where it has been in between. */
  lemma FlowTwice(c: Config, s: State, middle: State, t: real, u: real)
    requires c.capacityLiters > 0.0 && t > 0.0 && u > 0.0 && 0.0 <= s.level <= 10_000.0
    requires middle == s.(level := middle.level, readings := middle.readings, high := middle.high,
                          low := middle.low, elapsed := middle.elapsed)
    requires middle.level == Flow(c, s, t)
    ensures Flow(c, middle, u) == Flow(c, s, t + u)
    ensures s.level <= middle.level <= Flow(c, s, t + u) || s.level >= middle.level >= Flow(c, s, t + u)
  {
    var net := InletRate(c, s) - OutletRate(c, s);
    assert InletRate(c, middle) - OutletRate(c, middle) == net;
    DeltaAdditive(c, net, t, u);
    DeltaOfNothing(c, t);
    DeltaOfNothing(c, u);
    if net >= 0.0 {
      DeltaMonotoneInFlow(c, 0.0, net, t);
      DeltaMonotoneInFlow(c, 0.0, net, u);
    } else {
      DeltaMonotoneInFlow(c, net, 0.0, t);
      DeltaMonotoneInFlow(c, net, 0.0, u);
    }
    hide LevelDelta, InletRate, OutletRate;
    ClampTwice(s.level, LevelDelta(c, net, t), LevelDelta(c, net, u));
  }

  /** Acknowledgements survive a monotone passage exactly when they survive its end. */
  lemma AlarmsTwice(c: Config, s: State, middle: real, last: real)
    requires c.registers.Complete() && Sound(c, s)
    requires s.level <= middle <= last || s.level >= middle >= last
    ensures Watch(Watch(s.high, IsHigh(c, middle)), IsHigh(c, last)) == Watch(s.high, IsHigh(c, last))
    ensures Watch(Watch(s.low, IsLow(c, middle)), IsLow(c, last)) == Watch(s.low, IsLow(c, last))
  {
    if s.level <= middle <= last {
      RoundMonotone(s.level, middle);
      RoundMonotone(middle, last);
    } else {
      RoundMonotone(middle, s.level);
      RoundMonotone(last, middle);
    }
    hide RoundHalfEven;
  }

  /** What a tick does when nothing moves. */
  function Integrated(c: Config, s: State, seconds: real): State
    requires c.registers.Complete() && c.capacityLiters > 0.0
  {
    var level := Flow(c, s, seconds);
    s.(level := level,
       readings := Derive(c, s, s.elapsed + seconds),
       high := Watch(s.high, IsHigh(c, level)),
       low := Watch(s.low, IsLow(c, level)),
       elapsed := s.elapsed + seconds)
  }

  lemma SettledAdvance(c: Config, s: State, seconds: real)
    requires c.registers.Complete() && c.capacityLiters > 0.0 && SettledManually(s)
    ensures Advance(c, s, seconds) == Integrated(c, s, seconds)
    ensures SettledManually(Integrated(c, s, seconds))
  {
    SettledActuate(c, s, seconds);
    hide Flow, Derive, IsHigh, IsLow, Watch, Actuate;
  }

  lemma SameDerivation(c: Config, s: State, t: State, elapsed: real)
    requires c.registers.Complete() && s.pump == t.pump && s.valve == t.valve && s.controls == t.controls
    ensures Derive(c, s, elapsed) == Derive(c, t, elapsed)
  {
    assert InletRate(c, s) == InletRate(c, t);
    assert PumpFlow(c, s) == PumpFlow(c, t);
    assert OutletRate(c, s) == OutletRate(c, t);
  }

  lemma AdvanceTwice(c: Config, s: State, t: real, u: real)
    requires ValidConfig(c) && Sound(c, s) && SettledManually(s) && t > 0.0 && u > 0.0
    ensures Advance(c, Advance(c, s, t), u) == Advance(c, s, t + u)
    ensures SettledManually(Advance(c, s, t))
  {
    hide Advance, Flow, Derive, IsHigh, IsLow, Watch, SettledManually;
    var middle, last := Integrated(c, s, t), Flow(c, s, t + u);
    SettledAdvance(c, s, t);
    SettledAdvance(c, s, t + u);
    SettledAdvance(c, middle, u);
    FlowTwice(c, s, middle, t, u);
    AlarmsTwice(c, s, middle.level, last);
    SameDerivation(c, s, middle, s.elapsed + (t + u));
    assert middle.elapsed + u == s.elapsed + (t + u);
    hide Sound, ValidConfig;
  }

  /** A whole schedule acts as one interval of its total length. */
  lemma {:induction false} ScheduleIsOneInterval(c: Config, s: State, schedule: seq<real>)
    requires ValidConfig(c) && Sound(c, s) && SettledManually(s)
    requires ValidSchedule(schedule) && schedule != []
    ensures Ticks(c, s, schedule) == Advance(c, s, Sum(schedule))
  {
    hide Advance, Sound;
    var front, last := schedule[..|schedule| - 1], schedule[|schedule| - 1];
    var ops := AsOps(schedule);
    assert ops[..|ops| - 1] == AsOps(front);
    if front == [] {
      assert ops == [Tick(last)] && Run(c, s, ops[..0]) == s;
    } else {
      ScheduleIsOneInterval(c, s, front);
      SumPositive(front);
      AdvanceTwice(c, s, Sum(front), last);
    }
  }

  /** Any two nonempty schedules of equal total time reach the same complete state. */
  lemma TickSubdivision(c: Config, s: State, one: seq<real>, other: seq<real>)
    requires ValidConfig(c) && Sound(c, s) && SettledManually(s)
    requires ValidSchedule(one) && one != [] && ValidSchedule(other) && other != []
    requires Sum(one) == Sum(other)
    ensures Ticks(c, s, one) == Ticks(c, s, other)
  {
    hide Ticks, Advance, Sound, ValidConfig;
    ScheduleIsOneInterval(c, s, one);
    ScheduleIsOneInterval(c, s, other);
  }
}
