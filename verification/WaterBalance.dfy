/** The tank's water, in litres: how far each tick moves the level, and the balance of every run. */
module WaterBalance {
  import opened Numbers
  import opened WetWell
  import opened WetWellRuns

  lemma QuotientBack(x: real, d: real)
    requires d > 0.0
    ensures x / d * d == x
  {
  }

  /** A product with a positive factor has the sign of the other. */
  lemma SignOfProduct(x: real, y: real, d: real)
    requires d > 0.0
    ensures x < y <==> x * d < y * d
    ensures x == y <==> x * d == y * d
  {
    if x < y { assert (y - x) * d > 0.0; }
    if y < x { assert (x - y) * d > 0.0; }
  }

  /**
   * Litres per second in, less litres per second out: the nominal inlet while the valve reports open, the
   * pump's share in proportion to the commanded speed while the pump reports running.
   */
  function NetFlow(c: Config, before: State, after: State): real {
    (if after.valve.feedback then c.nominalInletFlow else 0.0)
      - (if after.pump.feedback then c.maxPumpFlow * (before.controls.pumpSpeed as real / 10_000.0) else 0.0)
  }

  /** The level has moved by a flow over an interval, stopping where the tank would run over or dry. */
  predicate MovesBy(capacity: real, level: real, after: real, flow: real, seconds: real) {
    var due := level * capacity + flow * seconds * 10_000.0;
    && (0.0 <= due <= 10_000.0 * capacity ==> (after - level) * capacity == flow * seconds * 10_000.0)
    && (due < 0.0 ==> after == 0.0)
    && (due > 10_000.0 * capacity ==> after == 10_000.0)
  }

  /** The flows a tick uses are those of the actuators as it leaves them and of the commanded speed. */
  lemma TickFlows(c: Config, s: State, seconds: real)
    requires c.registers.Complete() && c.capacityLiters > 0.0
    ensures InletRate(c, Actuate(c, s, seconds)) - OutletRate(c, Actuate(c, s, seconds))
         == NetFlow(c, s, Advance(c, s, seconds))
  {
    AdvanceParts(c, s, seconds);
  }

  lemma FlowMoves(c: Config, s: State, moved: State, seconds: real, net: real)
    requires c.capacityLiters > 0.0 && moved.level == s.level
    requires net == InletRate(c, moved) - OutletRate(c, moved)
    ensures MovesBy(c.capacityLiters, s.level, Flow(c, moved, seconds), net, seconds)
  {
    hide InletRate, OutletRate, MovesBy, Clamp, LevelDelta;
    DeltaMoves(c, s.level, net, seconds);
  }

  lemma DeltaMoves(c: Config, level: real, net: real, seconds: real)
    requires c.capacityLiters > 0.0
    ensures MovesBy(c.capacityLiters, level, Clamp(level + LevelDelta(c, net, seconds), 0.0, 10_000.0), net, seconds)
  {
    hide MovesBy, Clamp;
    var litres := net * seconds;
    ClampedByVolume(level, net, seconds, litres, litres / c.capacityLiters, c.capacityLiters);
  }

  lemma TickMoves(c: Config, s: State, seconds: real, net: real)
    requires c.registers.Complete() && c.capacityLiters > 0.0
    requires net == NetFlow(c, s, Advance(c, s, seconds))
    ensures MovesBy(c.capacityLiters, s.level, Advance(c, s, seconds).level, net, seconds)
  {
    AdvanceParts(c, s, seconds);
    TickFlows(c, s, seconds);
    hide Advance, Actuate, InletRate, OutletRate, Flow, MovesBy, NetFlow;
    FlowMoves(c, s, Actuate(c, s, seconds), seconds, net);
  }

  /**
   * Every accepted tick moves the level, in ten-thousandths of the capacity, by the net flow over its
   * length; a tank that would run over or dry stops at its limit.
   */
  lemma TickLevel(c: Config, s: State, seconds: real)
    requires c.registers.Complete() && c.capacityLiters > 0.0
    requires 0.0 < seconds <= 10.0
    ensures var after := Apply(c, s, Tick(seconds));
      MovesBy(c.capacityLiters, s.level, after.level, NetFlow(c, s, after), seconds)
  {
    hide Advance, MovesBy, NetFlow;
    TickMoves(c, s, seconds, NetFlow(c, s, Advance(c, s, seconds)));
  }

  lemma DifferenceTimes(x: real, y: real, d: real)
    ensures (x - y) * d == x * d - y * d
  {
  }

  lemma SumTimes(level: real, quotient: real, d: real)
    ensures (level + quotient * 10_000.0) * d == level * d + quotient * d * 10_000.0
  {
  }

  lemma ClampedByVolume(level: real, net: real, seconds: real, litres: real, quotient: real, capacity: real)
    requires capacity > 0.0 && litres == net * seconds && quotient == litres / capacity
    ensures MovesBy(capacity, level, Clamp(level + quotient * 10_000.0, 0.0, 10_000.0), net, seconds)
  {
    QuotientBack(litres, capacity);
    SumTimes(level, quotient, capacity);
    var sum := level + quotient * 10_000.0;
    DifferenceTimes(sum, level, capacity);
    SignOfProduct(0.0, sum, capacity);
    SignOfProduct(sum, 0.0, capacity);
    SignOfProduct(sum, 10_000.0, capacity);
    SignOfProduct(10_000.0, sum, capacity);
    ClampCases(level, net, seconds, sum, level * capacity, sum * capacity, (sum - level) * capacity, capacity);
  }

  /** The cases of the clamp, with every product named. */
  lemma ClampCases(
    level: real, net: real, seconds: real, sum: real, had: real, asked: real, moved: real, capacity: real)
    requires had == level * capacity && asked == sum * capacity && moved == (sum - level) * capacity
    requires asked == had + net * seconds * 10_000.0 && moved == asked - had
    requires (0.0 < sum <==> 0.0 < asked) && (sum < 0.0 <==> asked < 0.0)
    requires (sum < 10_000.0 <==> asked < 10_000.0 * capacity) && (10_000.0 < sum <==> 10_000.0 * capacity < asked)
    ensures MovesBy(capacity, level, Clamp(sum, 0.0, 10_000.0), net, seconds)
  {
    var after := Clamp(sum, 0.0, 10_000.0);
    if 0.0 <= asked <= 10_000.0 * capacity {
      assert after == sum;
      assert (after - level) * capacity == moved;
    }
  }

  // ----- The balance of a run -----

  /** Litres in the tank at a level. */
  function Litres(c: Config, level: real): real { level * c.capacityLiters / 10_000.0 }

  /** Litres the flows of an operation bring in, net of what they draw. */
  function NetLitres(c: Config, before: State, after: State, op: Op): real {
    if op.Tick? && 0.0 < op.seconds <= 10.0 then NetFlow(c, before, after) * op.seconds else 0.0
  }

  function Inflow(c: Config, s: State, ops: seq<Op>): real
    requires c.registers.Complete() && c.capacityLiters > 0.0
  {
    if ops == [] then 0.0
    else
      var front := ops[..|ops| - 1];
      Inflow(c, s, front) + NetLitres(c, Run(c, s, front), Run(c, s, ops), ops[|ops| - 1])
  }

  /** Litres a full tank could not hold: they accrue only in operations that end at 10000. */
  function Spill(c: Config, s: State, ops: seq<Op>): (x: real)
    requires c.registers.Complete() && c.capacityLiters > 0.0
    ensures x >= 0.0
  {
    if ops == [] then 0.0
    else
      var front := ops[..|ops| - 1];
      var before, after := Run(c, s, front), Run(c, s, ops);
      var due := Litres(c, before.level) + NetLitres(c, before, after, ops[|ops| - 1]);
      Spill(c, s, front) + if after.level == 10_000.0 then Max(0.0, due - c.capacityLiters) else 0.0
  }

  /** Litres the pump could not draw from an empty tank: they accrue only in operations that end at 0. */
  function Shortfall(c: Config, s: State, ops: seq<Op>): (x: real)
    requires c.registers.Complete() && c.capacityLiters > 0.0
    ensures x >= 0.0
  {
    if ops == [] then 0.0
    else
      var front := ops[..|ops| - 1];
      var before, after := Run(c, s, front), Run(c, s, ops);
      var due := Litres(c, before.level) + NetLitres(c, before, after, ops[|ops| - 1]);
      Shortfall(c, s, front) + if after.level == 0.0 then Max(0.0, -due) else 0.0
  }

  lemma LitresAt(c: Config)
    ensures Litres(c, 0.0) == 0.0 && Litres(c, 10_000.0) == c.capacityLiters
  {
  }

  lemma MovesInLitres(c: Config, level: real, after: real, flow: real, seconds: real)
    requires c.capacityLiters > 0.0 && 0.0 <= level <= 10_000.0
    requires MovesBy(c.capacityLiters, level, after, flow, seconds)
    ensures var due := Litres(c, level) + flow * seconds;
      && (0.0 <= due <= c.capacityLiters ==> Litres(c, after) == due)
      && (due < 0.0 ==> after == 0.0)
      && (due > c.capacityLiters ==> after == 10_000.0)
  {
    var capacity := c.capacityLiters;
    var had, has := level * capacity, after * capacity;
    DifferenceTimes(after, level, capacity);
    assert Litres(c, level) == had / 10_000.0 && Litres(c, after) == has / 10_000.0;
  }

  lemma TickLitres(c: Config, s: State, op: Op)
    requires c.registers.Complete() && c.capacityLiters > 0.0 && 0.0 <= s.level <= 10_000.0
    ensures var after := Apply(c, s, op);
      var due := Litres(c, s.level) + NetLitres(c, s, after, op);
      && 0.0 <= after.level <= 10_000.0
      && (0.0 <= due <= c.capacityLiters ==> Litres(c, after.level) == due)
      && (due < 0.0 ==> after.level == 0.0)
      && (due > c.capacityLiters ==> after.level == 10_000.0)
  {
    hide MovesBy, Litres, NetFlow, Advance, Write;
    LevelInRange(c, s, op);
    if op.Tick? && 0.0 < op.seconds <= 10.0 {
      var after := Advance(c, s, op.seconds);
      TickMoves(c, s, op.seconds, NetFlow(c, s, after));
      MovesInLitres(c, s.level, after.level, NetFlow(c, s, after), op.seconds);
    } else {
      if op.WriteOp? { WriteKeepsPlant(c, s, op.key, op.value); }
      LitresInRange(c, s.level);
    }
  }

  lemma LitresInRange(c: Config, level: real)
    requires c.capacityLiters > 0.0 && 0.0 <= level <= 10_000.0
    ensures 0.0 <= Litres(c, level) <= c.capacityLiters
  {
    DifferenceTimes(10_000.0, level, c.capacityLiters);
    SignOfProduct(0.0, level, c.capacityLiters);
    SignOfProduct(0.0, 10_000.0 - level, c.capacityLiters);
  }

  lemma LevelInRange(c: Config, s: State, op: Op)
    requires c.registers.Complete() && c.capacityLiters > 0.0 && 0.0 <= s.level <= 10_000.0
    ensures 0.0 <= Apply(c, s, op).level <= 10_000.0
  {
    match op
    case WriteOp(k, v) => WriteKeepsPlant(c, s, k, v); hide Write;
    case Tick(seconds) => AdvanceParts(c, s, seconds); hide Advance, LevelDelta;
  }

  /** Over every run the water in the tank changes by the net inflow, less what spilled, plus what was short. */
  lemma {:induction false} MassBalance(c: Config, s: State, ops: seq<Op>)
    requires c.registers.Complete() && c.capacityLiters > 0.0 && 0.0 <= s.level <= 10_000.0
    ensures 0.0 <= Run(c, s, ops).level <= 10_000.0
    ensures Litres(c, Run(c, s, ops).level) - Litres(c, s.level)
         == Inflow(c, s, ops) - Spill(c, s, ops) + Shortfall(c, s, ops)
  {
    if ops != [] {
      hide Apply, Litres, NetLitres;
      var front, op := ops[..|ops| - 1], ops[|ops| - 1];
      MassBalance(c, s, front);
      TickLitres(c, Run(c, s, front), op);
      LitresAt(c);
    }
  }
}
