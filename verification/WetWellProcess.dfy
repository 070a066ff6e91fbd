/** The process object: fields updated in place, each method tied to its state function. */
module WetWellProcesses {
  import opened Wrappers
  import opened Numbers
  import opened RegisterMaps
  import opened WetWell

  datatype TickResult = Ticked | IntervalRefused | InvariantBroken

  class WetWellProcess {
    const config: Config

    var elapsed: real
    var level: real
    var controls: Controls
    var pumpStarts: int
    var pumpFault: bool
    var pump: Actuator
    var valve: Actuator
    var high: Alarm
    var low: Alarm
    var readings: Readings

    /** The manifest was loaded: keys complete and distinct, a real tank. */
    ghost predicate Valid() { config.registers.Complete() && config.capacityLiters > 0.0 }

    function Abs(): State
      reads this
    {
      State(elapsed, level, controls, pumpStarts, pumpFault, pump, valve, high, low, readings)
    }

    constructor (config: Config)
      requires config.registers.Complete() && config.capacityLiters > 0.0
      ensures Valid() && this.config == config
      ensures Abs() == Reset(config)
    {
      this.config := config;
      new;
      Restore();
    }

    method Restore()
      requires Valid()
      modifies this
      ensures Abs() == Reset(config)
    {
      hide InitialControls, InitialReadings, Config.DefaultOf;
      elapsed := 0.0;
      level := config.DefaultOf(TankLevelPv) as real;
      controls := InitialControls(config);
      pumpStarts := config.DefaultOf(PumpStartCount);
      pumpFault := config.DefaultOf(PumpFault) != 0;
      var running := config.DefaultOf(PumpFeedback) != 0;
      var open := config.DefaultOf(InletValveFeedback) != 0;
      pump := Actuator(running, running, 0.0);
      valve := Actuator(open, open, 0.0);
      high := Alarm(false, false);
      low := Alarm(false, false);
      readings := InitialReadings(config);
    }

    function SnapshotRaw(k: Key): Raw
      requires Valid()
      reads this
    {
      Snapshot(config, Abs(), k)
    }

    method WriteRaw(k: Key, v: Raw) returns (r: Result<Transition, WriteError>)
      requires Valid()
      modifies this
      ensures Abs() == Write(config, old(Abs()), k, v)
      ensures WriteRefusal(config, k, v).Some? ==> r == Failure(WriteRefusal(config, k, v).value)
      ensures WriteRefusal(config, k, v).None? ==>
        r == Success(Transition(k, old(SnapshotRaw(k)), CoerceWrite(config.Reg(k), v).value, SnapshotRaw(k)))
    {
      hide Snapshot, Store, Handled;
      var definition := config.Reg(k);
      if !definition.writable || !definition.hasWriteEffect {
        return Failure(ReadOnly);
      }
      var coerced := CoerceWrite(definition, v);
      if coerced.Failure? {
        return Failure(coerced.error);
      }
      var normalized := coerced.value;
      var before := SnapshotRaw(k);
      var handled := StoreControl(k, normalized);
      if !handled {
        return Failure(NoHandler);
      }
      return Success(Transition(k, before, normalized, SnapshotRaw(k)));
    }

    /** The six keys with a process write handler. */
    method StoreControl(k: Key, normalized: Raw) returns (handled: bool)
      modifies this`controls, this`high, this`low
      ensures handled <==> Handled(k)
      ensures Abs() == if handled then Store(old(Abs()), k, normalized) else old(Abs())
    {
      handled := true;
      if k == LevelSetpoint {
        controls := controls.(levelSetpoint := normalized.AsInt());
      } else if k == ControlMode {
        controls := controls.(controlMode := normalized.AsInt());
      } else if k == PumpSpeedSetpoint {
        controls := controls.(pumpSpeed := normalized.AsInt());
      } else if k == PumpCommand {
        controls := controls.(pumpCommand := normalized.Truth());
      } else if k == InletValveCommand {
        controls := controls.(valveCommand := normalized.Truth());
      } else if k == AlarmAcknowledge {
        if normalized.Truth() {
          high := high.(acknowledged := high.active);
          low := low.(acknowledged := low.active);
        }
        controls := controls.(alarmAcknowledge := false);
      } else {
        handled := false;
      }
    }

    method RequestPump(target: bool)
      modifies this`pump
      ensures pump == Request(config, old(pump), target)
    {
      if target != pump.target {
        pump := pump.(target := target, remaining := config.actuatorDelay);
      }
    }

    method RequestValve(target: bool)
      modifies this`valve
      ensures valve == Request(config, old(valve), target)
    {
      if target != valve.target {
        valve := valve.(target := target, remaining := config.actuatorDelay);
      }
    }

    method AdvanceActuators(seconds: real)
      modifies this`pump, this`pumpStarts, this`valve
      ensures pump == Travel(old(pump), seconds, pumpFault)
      ensures valve == Travel(old(valve), seconds, false)
      ensures pumpStarts ==
        if pump.feedback && !old(pump.feedback) then CountStart(old(pumpStarts)) else old(pumpStarts)
    {
      if pump.remaining > 0.0 {
        pump := pump.(remaining := Max(0.0, pump.remaining - seconds));
        if pump.remaining == 0.0 {
          var previous := pump.feedback;
          pump := pump.(feedback := pump.target && !pumpFault);
          if pump.feedback && !previous {
            pumpStarts := if 65_535 < pumpStarts + 1 then 65_535 else pumpStarts + 1;
          }
        }
      }
      if valve.remaining > 0.0 {
        valve := valve.(remaining := Max(0.0, valve.remaining - seconds));
        if valve.remaining == 0.0 {
          valve := valve.(feedback := valve.target);
        }
      }
    }

    /** Level, flows, current and temperature for an interval of the present flows. */
    method Integrate(seconds: real)
      requires Valid()
      modifies this`level, this`readings
      ensures level == Flow(config, old(Abs()), seconds)
      ensures readings == Derive(config, old(Abs()), elapsed + seconds)
    {
      ghost var before := Abs();
      var inlet := if valve.feedback then config.nominalInletFlow else 0.0;
      var speedFraction := controls.pumpSpeed as real / 10_000.0;
      var outlet := if pump.feedback then config.maxPumpFlow * speedFraction else 0.0;
      assert inlet == InletRate(config, before);
      assert speedFraction == SpeedFraction(before);
      assert outlet == OutletRate(config, before);
      var delta := (inlet - outlet) * seconds / config.capacityLiters * 10_000.0;
      assert delta == LevelDelta(config, inlet - outlet, seconds);
      level := Min(10_000.0, Max(0.0, level + delta));
      var current := if pump.feedback then RoundHalfEven(300.0 + 1_200.0 * speedFraction) else 0;
      var phase := ((elapsed + seconds) / 60.0).Floor % 20;
      var swing := if phase <= 10 then phase else 20 - phase;
      assert swing == Thermal(elapsed + seconds);
      readings := Readings(
        RoundHalfEven(inlet * 100.0), RoundHalfEven(outlet * 100.0), current,
        config.DefaultOf(ProcessTemperaturePv) + swing);
    }

    method WatchLevel()
      requires Valid()
      modifies this`high, this`low
      ensures high == Watch(old(high), IsHigh(config, level))
      ensures low == Watch(old(low), IsLow(config, level))
    {
      var rounded := RoundHalfEven(level);
      var newHigh := rounded >= config.DefaultOf(HighAlarmLimit);
      var newLow := rounded <= config.DefaultOf(LowAlarmLimit);
      if !newHigh {
        high := high.(acknowledged := false);
      }
      if !newLow {
        low := low.(acknowledged := false);
      }
      high := high.(active := newHigh);
      low := low.(active := newLow);
    }

    /**
     * One tick. A refused interval changes nothing; the closing checks run on the new state,
     * which stays in place even when they fail.
     */
    method Tick(seconds: real) returns (r: TickResult)
      requires Valid()
      modifies this
      ensures r == IntervalRefused <==> !(0.0 < seconds <= 10.0)
      ensures Abs() == if 0.0 < seconds <= 10.0 then Advance(config, old(Abs()), seconds) else old(Abs())
      ensures r == Ticked <==> 0.0 < seconds <= 10.0 && InvariantsHold(Abs())
    {
      if seconds <= 0.0 || seconds > 10.0 {
        return IntervalRefused;
      }
      hide Request, Travel, Flow, Derive, IsHigh, IsLow, Watch, InvariantsHold;
      RequestValve(controls.valveCommand);
      var desired := DesiredPumpState(config, Abs());
      RequestPump(desired);
      AdvanceActuators(seconds);
      assert Abs() == Actuate(config, old(Abs()), seconds);
      Integrate(seconds);
      WatchLevel();
      elapsed := elapsed + seconds;
      r := if InvariantsHold(Abs()) then Ticked else InvariantBroken;
    }
  }
}
