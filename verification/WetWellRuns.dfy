/** Runs: every interleaving of ticks and writes, and what all of them keep. */
module WetWellRuns {
  import opened Numbers
  import opened RegisterMaps
  import opened WetWell
  import opened Arithmetic

  datatype Op = Tick(seconds: real) | WriteOp(key: Key, value: Raw)

  /** A call on the process; refused calls leave the state alone. */
  function Apply(c: Config, s: State, op: Op): State
    requires c.registers.Complete() && c.capacityLiters > 0.0
  {
    match op
    case Tick(seconds) => if ValidInterval(seconds) then Advance(c, s, seconds) else s
    case WriteOp(k, v) => Write(c, s, k, v)
  }

  function Run(c: Config, s: State, ops: seq<Op>): State
    requires c.registers.Complete() && c.capacityLiters > 0.0
  {
    if ops == [] then s
    else Apply(c, Run(c, s, ops[..|ops| - 1]), ops[|ops| - 1])
  }

  lemma {:induction false} RunConcat(c: Config, s: State, first: seq<Op>, second: seq<Op>)
    requires c.registers.Complete() && c.capacityLiters > 0.0
    ensures Run(c, s, first + second) == Run(c, Run(c, s, first), second)
  {
    if second == [] {
      assert first + second == first;
    } else {
      var front := second[..|second| - 1];
      RunConcat(c, s, first, front);
      assert (first + second)[..|first + second| - 1] == first + front;
    }
  }

  /** Seconds of accepted tick time. */
  function TickTime(ops: seq<Op>): (t: real)
    ensures t >= 0.0
  {
    if ops == [] then 0.0
    else TickTime(ops[..|ops| - 1]) + Seconds(ops[|ops| - 1])
  }

  function Seconds(op: Op): (t: real)
    ensures t >= 0.0
  {
    if op.Tick? && ValidInterval(op.seconds) then op.seconds else 0.0
  }

  // ----- What one call changes and keeps -----

  lemma WriteKeepsPlant(c: Config, s: State, k: Key, v: Raw)
    requires c.registers.Complete()
    ensures var w := Write(c, s, k, v);
      && w.level == s.level && w.elapsed == s.elapsed && w.pump == s.pump && w.valve == s.valve
      && w.pumpStarts == s.pumpStarts && w.pumpFault == s.pumpFault && w.readings == s.readings
      && w.high.active == s.high.active && w.low.active == s.low.active
  {
  }

  lemma AdvanceParts(c: Config, s: State, seconds: real)
    requires c.registers.Complete() && c.capacityLiters > 0.0
    ensures var moved, after := Actuate(c, s, seconds), Advance(c, s, seconds);
      && after.controls == s.controls && after.pumpFault == s.pumpFault
      && after.pump == moved.pump == Travel(Request(c, s.pump, DesiredPumpState(c, s)), seconds, s.pumpFault)
      && after.valve == moved.valve == Travel(Request(c, s.valve, s.controls.valveCommand), seconds, false)
      && after.level == Flow(c, moved, seconds)
      && moved.level == s.level
      && InletRate(c, after) == InletRate(c, moved)
      && OutletRate(c, after) == OutletRate(c, moved)
  {
  }

  // ----- What every state keeps -----

  ghost predicate Settles(c: Config, a: Actuator, blocked: bool) {
    && 0.0 <= a.remaining <= c.actuatorDelay
    && (a.remaining == 0.0 ==> a.feedback == (a.target && !blocked))
  }

  /** The state invariant: physical bounds, coherent actuators, acknowledgements only of real alarms. */
  ghost predicate Sound(c: Config, s: State)
    requires c.registers.Complete()
  {
    && InvariantsHold(s)
    && 0 <= s.controls.pumpSpeed <= 10_000
    && !s.controls.alarmAcknowledge
    && 0 <= s.pumpStarts <= 65_535
    && s.elapsed >= 0.0
    && Settles(c, s.pump, s.pumpFault)
    && Settles(c, s.valve, false)
    && (s.high.active ==> IsHigh(c, s.level))
    && (s.low.active ==> IsLow(c, s.level))
    && (s.high.acknowledged ==> s.high.active)
    && (s.low.acknowledged ==> s.low.active)
  }

  lemma ResetSound(c: Config)
    requires ValidConfig(c)
    ensures Sound(c, Reset(c))
  {
  }

  lemma ActuateSettles(c: Config, a: Actuator, target: bool, seconds: real, blocked: bool)
    requires c.actuatorDelay > 0.0 && seconds > 0.0
    requires Settles(c, a, blocked)
    ensures Settles(c, Travel(Request(c, a, target), seconds, blocked), blocked)
  {
  }

  lemma SpeedFractionBounds(s: State)
    requires 0 <= s.controls.pumpSpeed <= 10_000
    ensures 0.0 <= SpeedFraction(s) <= 1.0
  {
  }

  lemma Throttled(flow: real, fraction: real)
    requires 0.0 <= flow && 0.0 <= fraction <= 1.0
    ensures 0.0 <= flow * fraction <= flow
  {
    Product(flow, fraction, 1.0);
  }

  lemma PumpFlowBounds(c: Config, s: State)
    requires c.maxPumpFlow >= 0.0 && 0 <= s.controls.pumpSpeed <= 10_000
    ensures 0.0 <= PumpFlow(c, s) <= c.maxPumpFlow
  {
    SpeedFractionBounds(s);
    hide SpeedFraction;
    Throttled(c.maxPumpFlow, SpeedFraction(s));
    var flow := c.maxPumpFlow * SpeedFraction(s);
    assert 0.0 <= flow <= c.maxPumpFlow;
    assert PumpFlow(c, s) == flow;
  }

  lemma OutletBounds(c: Config, s: State)
    requires c.maxPumpFlow >= 0.0 && 0 <= s.controls.pumpSpeed <= 10_000
    ensures 0.0 <= OutletRate(c, s) <= c.maxPumpFlow
  {
    PumpFlowBounds(c, s);
    hide PumpFlow;
  }

  lemma ReadingsNonNegative(c: Config, s: State, elapsed: real)
    requires ValidConfig(c) && 0 <= s.controls.pumpSpeed <= 10_000
    ensures var d := Derive(c, s, elapsed); d.inletFlow >= 0 && d.outletFlow >= 0 && d.pumpCurrent >= 0
  {
    OutletBounds(c, s);
    SpeedFractionBounds(s);
    RoundBetween(InletRate(c, s) * 100.0, 0, (c.nominalInletFlow * 100.0).Floor + 1);
    RoundBetween(OutletRate(c, s) * 100.0, 0, (c.maxPumpFlow * 100.0).Floor + 1);
    RoundBetween(300.0 + 1_200.0 * SpeedFraction(s), 300, 1_500);
  }

  lemma AdvanceSound(c: Config, s: State, seconds: real)
    requires ValidConfig(c) && Sound(c, s) && seconds > 0.0
    ensures Sound(c, Advance(c, s, seconds))
  {
    ActuateSettles(c, s.pump, DesiredPumpState(c, s), seconds, s.pumpFault);
    ActuateSettles(c, s.valve, s.controls.valveCommand, seconds, false);
    ReadingsNonNegative(c, Actuate(c, s, seconds), s.elapsed + seconds);
  }

  lemma WriteSound(c: Config, s: State, k: Key, v: Raw)
    requires ValidConfig(c) && Sound(c, s)
    ensures Sound(c, Write(c, s, k, v))
  {
  }

  lemma ApplySound(c: Config, s: State, op: Op)
    requires ValidConfig(c) && Sound(c, s)
    ensures Sound(c, Apply(c, s, op))
  {
    match op
    case Tick(seconds) => if ValidInterval(seconds) { AdvanceSound(c, s, seconds); }
    case WriteOp(k, v) => WriteSound(c, s, k, v);
  }

  /** No run from a sound state reaches the tick's closing checks with a failure. */
  lemma {:induction false} RunSound(c: Config, s: State, ops: seq<Op>)
    requires ValidConfig(c) && Sound(c, s)
    ensures Sound(c, Run(c, s, ops))
  {
    if ops != [] {
      RunSound(c, s, ops[..|ops| - 1]);
      ApplySound(c, Run(c, s, ops[..|ops| - 1]), ops[|ops| - 1]);
    }
  }

  // ----- Exact actuator delay -----

  datatype Device = Pump | Valve

  function ActuatorOf(s: State, dev: Device): Actuator {
    match dev case Pump => s.pump case Valve => s.valve
  }

  predicate Blocked(s: State, dev: Device) { dev == Pump && s.pumpFault }

  /** Tick time since, and including, the last change of target, and the feedback held at it. */
  datatype Retarget = Never | Since(seconds: real, held: bool)

  function Retargeted(r: Retarget, before: Actuator, after: Actuator, seconds: real): Retarget {
    if before.target != after.target then Since(seconds, before.feedback)
    else if r.Never? then Never else r.(seconds := r.seconds + seconds)
  }

  function LastRetarget(c: Config, s: State, ops: seq<Op>, dev: Device): Retarget
    requires c.registers.Complete() && c.capacityLiters > 0.0
  {
    if ops == [] then Never
    else
      var front, op := ops[..|ops| - 1], ops[|ops| - 1];
      var before, after := ActuatorOf(Run(c, s, front), dev), ActuatorOf(Run(c, s, ops), dev);
      Retargeted(LastRetarget(c, s, front, dev), before, after, Seconds(op))
  }

  /** Where an actuator that started at `initial` must stand, given its last retarget. */
  predicate Tracks(c: Config, a: Actuator, blocked: bool, initial: Actuator, r: Retarget) {
    match r
    case Never => a == initial
    case Since(seconds, held) =>
      && a.remaining == Max(0.0, c.actuatorDelay - seconds)
      && a.feedback == (if seconds < c.actuatorDelay then held else a.target && !blocked)
  }

  lemma TravelTracks(
    c: Config, a: Actuator, asked: bool, seconds: real, blocked: bool, initial: Actuator, r: Retarget)
    requires c.actuatorDelay > 0.0 && seconds > 0.0
    requires initial.remaining == 0.0 && Tracks(c, a, blocked, initial, r)
    ensures var after := Travel(Request(c, a, asked), seconds, blocked);
      Tracks(c, after, blocked, initial, Retargeted(r, a, after, seconds))
  {
  }

  /**
   * Over any run the travel time left is the delay less the tick time since the last retarget;
   * the feedback holds its old value until that reaches zero and equals the target from then on,
   * however often requests reverse on the way.
   */
  lemma {:induction false} ExactDelay(c: Config, s: State, ops: seq<Op>, dev: Device)
    requires ValidConfig(c) && ActuatorOf(s, dev).remaining == 0.0
    ensures var a, r := ActuatorOf(Run(c, s, ops), dev), LastRetarget(c, s, ops, dev);
      && Tracks(c, a, Blocked(Run(c, s, ops), dev), ActuatorOf(s, dev), r)
      && Blocked(Run(c, s, ops), dev) == Blocked(s, dev)
  {
    if ops != [] {
      var front, op := ops[..|ops| - 1], ops[|ops| - 1];
      var before := Run(c, s, front);
      ExactDelay(c, s, front, dev);
      match op
      case WriteOp(k, v) => WriteKeepsPlant(c, before, k, v);
      case Tick(seconds) =>
        if ValidInterval(seconds) {
          AdvanceParts(c, before, seconds);
          var asked := if dev == Pump then DesiredPumpState(c, before) else before.controls.valveCommand;
          TravelTracks(c, ActuatorOf(before, dev), asked, seconds, Blocked(before, dev), ActuatorOf(s, dev),
                       LastRetarget(c, s, front, dev));
        }
    }
  }

  /**
   * What each tick asks of the two actuators: the valve its command; the pump its command in MANUAL, and in
   * AUTO to run on above the bottom of the band, or to start at the top of it.
   */
  lemma TickTargets(c: Config, s: State, seconds: real)
    requires c.registers.Complete() && c.capacityLiters > 0.0
    ensures Advance(c, s, seconds).valve.target == s.controls.valveCommand
    ensures Advance(c, s, seconds).pump.target ==
      if s.controls.controlMode == 0 then s.controls.pumpCommand
      else if s.pump.feedback || s.pump.target then s.level > (s.controls.levelSetpoint - c.hysteresis) as real
      else s.level >= (s.controls.levelSetpoint + c.hysteresis) as real
  {
  }
}
