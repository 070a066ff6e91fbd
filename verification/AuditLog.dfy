/** The audit log of a run of requests and ticks replays to the live values. */
module AuditLog {
  import opened Wrappers
  import opened RegisterMaps
  import opened WetWell
  import opened WetWellRuns
  import opened Protocol
  import opened AtomicWrites
  import opened WriteOrder

  /** A numbered event, as a working sink receives it. */
  datatype Event = Event(sequence: nat, report: Report)

  datatype Call =
    | Elapse(seconds: real)
    | Ask(functionCode: int, address: int, count: nat, values: Option<seq<Raw>>)

  datatype Served = Served(process: State, log: seq<Event>)

  function Emit(log: seq<Event>, report: Option<Report>): seq<Event> {
    match report
    case None => log
    case Some(r) => log + [Event(|log| + 1, r)]
  }

  function Step(c: Config, x: Served, call: Call): Served
    requires c.registers.Complete() && c.capacityLiters > 0.0
  {
    match call
    case Elapse(seconds) => x.(process := Apply(c, x.process, Tick(seconds)))
    case Ask(functionCode, address, count, values) =>
      var o := Act(c, x.process, functionCode, address, count, values);
      Served(o.state, Emit(x.log, o.report))
  }

  function Serve(c: Config, calls: seq<Call>): Served
    requires c.registers.Complete() && c.capacityLiters > 0.0
  {
    if calls == [] then Served(Reset(c), [])
    else Step(c, Serve(c, calls[..|calls| - 1]), calls[|calls| - 1])
  }

  const WRITABLE: seq<Key> :=
    [LevelSetpoint, ControlMode, PumpSpeedSetpoint, PumpCommand, InletValveCommand, AlarmAcknowledge]

  /** The defaults of the writable registers, overridden by each successful write in turn. */
  function Replay(c: Config, log: seq<Event>): map<Key, Raw>
    requires c.registers.Complete()
  {
    if log == [] then Values(c, Reset(c), WRITABLE)
    else
      var earlier, report := Replay(c, log[..|log| - 1]), log[|log| - 1].report;
      if report.after.Some? then earlier + report.after.value else earlier
  }

  lemma TickKeepsControls(c: Config, s: State, seconds: real)
    requires c.registers.Complete() && c.capacityLiters > 0.0
    ensures Apply(c, s, Tick(seconds)).controls == s.controls
  {
    if ValidInterval(seconds) { AdvanceParts(c, s, seconds); }
  }

  lemma ControlsDecideValues(c: Config, s: State, t: State)
    requires c.registers.Complete() && s.controls == t.controls
    ensures Values(c, s, WRITABLE) == Values(c, t, WRITABLE)
  {
    forall k | k in WRITABLE ensures Snapshot(c, s, k) == Snapshot(c, t, k) {
      assert Handled(k);
    }
    hide Snapshot;
  }

  /** A write leaves every writable value but its own. */
  lemma StoreElsewhere(c: Config, s: State, k: Key, v: Raw, other: Key)
    requires c.registers.Complete() && Handled(k) && Handled(other) && other != k
    ensures Snapshot(c, Store(s, k, v), other) == Snapshot(c, s, other)
  {
  }

  lemma {:induction false} StoresElsewhere(
    c: Config, s: State, ds: seq<Definition>, vs: seq<Raw>, other: Key)
    requires c.registers.Complete() && |ds| == |vs| && Handled(other)
    requires StoreAll(c, s, ds, vs).Success?
    requires forall i :: 0 <= i < |ds| ==> ds[i].key != other
    ensures Snapshot(c, StoreAll(c, s, ds, vs).value, other) == Snapshot(c, s, other)
  {
    if ds != [] {
      hide Store, Snapshot;
      var n := |ds| - 1;
      StoresElsewhere(c, s, ds[..n], vs[..n], other);
      StoreElsewhere(c, StoreAll(c, s, ds[..n], vs[..n]).value, ds[n].key,
                     CoerceWrite(c.Reg(ds[n].key), vs[n]).value, other);
    }
  }

  lemma HandledAreWritable(k: Key)
    ensures k in WRITABLE <==> Handled(k)
  {
  }

  /** What a report says about the writable values around the request it belongs to. */
  ghost predicate Faithful(c: Config, before: State, after: State, report: Option<Report>)
    requires c.registers.Complete()
  {
    var now, earlier := Values(c, after, WRITABLE), Values(c, before, WRITABLE);
    if report.Some? && report.value.after.Some? then
      && now == earlier + report.value.after.value
      && report.value.before.Some?
      && report.value.before.value.Keys == report.value.after.value.Keys <= earlier.Keys
      && (forall k :: k in report.value.before.value ==> report.value.before.value[k] == earlier[k])
    else now == earlier
  }

  lemma WriteReportFaithful(c: Config, s: State, ds: seq<Definition>, vs: seq<Raw>)
    requires c.registers.Complete() && |ds| == |vs| && StoreAll(c, s, ds, vs).Success?
    requires forall i :: 0 <= i < |ds| ==> Handled(ds[i].key)
    ensures var reached := StoreAll(c, s, ds, vs).value;
      && Values(c, reached, WRITABLE) == Values(c, s, WRITABLE) + Values(c, reached, KeysOf(ds))
      && Values(c, s, KeysOf(ds)).Keys == Values(c, reached, KeysOf(ds)).Keys <= Values(c, s, WRITABLE).Keys
      && (forall k :: k in Values(c, s, KeysOf(ds)) ==>
            Values(c, s, KeysOf(ds))[k] == Values(c, s, WRITABLE)[k])
  {
    hide Snapshot, StoreAll, Handled;
    var reached, ks := StoreAll(c, s, ds, vs).value, KeysOf(ds);
    forall k ensures k in ks ==> k in WRITABLE {
      HandledAreWritable(k);
      if k in ks {
        var i :| 0 <= i < |ks| && ks[i] == k;
        assert Handled(ds[i].key);
      }
    }
    forall k | k in WRITABLE && k !in ks ensures Snapshot(c, reached, k) == Snapshot(c, s, k) {
      HandledAreWritable(k);
      forall i | 0 <= i < |ds| ensures ds[i].key != k { assert ks[i] in ks; }
      StoresElsewhere(c, s, ds, vs, k);
    }
  }

  lemma ActFaithful(c: Config, s: State, functionCode: int, address: int, count: nat, values: Option<seq<Raw>>)
    requires c.registers.Complete() && c.registers.WellFormed() && AllServiced(c.registers)
    ensures var o := Act(c, s, functionCode, address, count, values); Faithful(c, s, o.state, o.report)
  {
    hide Resolve, CoerceAll, StoreAll, Values, CoerceWrite, RegisterMap.WellFormed, AllServiced;
    if IsWrite(functionCode) && values.Some? {
      var vs, area := values.value, AreaOf(functionCode).value;
      AtomicMultiWrite(c, s, functionCode, address, count, values);
      var resolved := Resolve(c.registers, area, address, |vs|);
      if resolved.Success? && CoerceAll(resolved.value, vs).Some? {
        ResolvedIsReady(c, area, address, vs);
        WriteReportFaithful(c, s, resolved.value, CoerceAll(resolved.value, vs).value);
      }
    }
  }

  /**
   * At every point of every run of reads, writes and ticks the log replays to the live value of all
   * six writable registers.
   */
  lemma {:induction false} ReplayIsLive(c: Config, calls: seq<Call>)
    requires c.registers.Complete() && c.registers.WellFormed() && AllServiced(c.registers)
    requires c.capacityLiters > 0.0
    ensures Replay(c, Serve(c, calls).log) == Values(c, Serve(c, calls).process, WRITABLE)
  {
    if calls != [] {
      hide Act, Apply, Values, AllServiced, RegisterMap.WellFormed, Reset;
      var front, call := calls[..|calls| - 1], calls[|calls| - 1];
      ReplayIsLive(c, front);
      var before := Serve(c, front);
      match call
      case Elapse(seconds) =>
        TickKeepsControls(c, before.process, seconds);
        ControlsDecideValues(c, before.process, Serve(c, calls).process);
      case Ask(functionCode, address, count, values) =>
        ActFaithful(c, before.process, functionCode, address, count, values);
        var log := Serve(c, calls).log;
        assert log != before.log ==> log[..|log| - 1] == before.log;
    }
  }

  /** The `before` map of a successful write agrees with the replay of an earlier log. */
  ghost predicate Continues(c: Config, earlier: seq<Event>, r: Report)
    requires c.registers.Complete()
  {
    r.after.Some? ==>
      var was := Replay(c, earlier);
      && r.before.Some?
      && r.before.value.Keys == r.after.value.Keys <= was.Keys
      && (forall k :: k in r.before.value ==> r.before.value[k] == was[k])
  }

  /** A numbered log, each successful write's `before` agreeing with the replay of what precedes it. */
  ghost predicate Chained(c: Config, log: seq<Event>)
    requires c.registers.Complete()
  {
    forall i :: 0 <= i < |log| ==> log[i].sequence == i + 1 && Continues(c, log[..i], log[i].report)
  }

  lemma ChainOneMore(c: Config, log: seq<Event>, r: Report)
    requires c.registers.Complete() && Chained(c, log) && Continues(c, log, r)
    ensures Chained(c, log + [Event(|log| + 1, r)])
  {
    hide Continues;
    var more := log + [Event(|log| + 1, r)];
    forall i | 0 <= i < |more| ensures more[i].sequence == i + 1 && Continues(c, more[..i], more[i].report) {
      assert more[..i] == log[..i];
    }
    assert log[..|log|] == log;
  }

  /** Every log is contiguously numbered and every `before` map is the replay of the earlier log. */
  lemma {:induction false} LogIsChained(c: Config, calls: seq<Call>)
    requires c.registers.Complete() && c.registers.WellFormed() && AllServiced(c.registers)
    requires c.capacityLiters > 0.0
    ensures Chained(c, Serve(c, calls).log)
  {
    if calls != [] {
      hide Act, Apply, Values, Replay, AllServiced, RegisterMap.WellFormed, Reset, Chained;
      var front, call := calls[..|calls| - 1], calls[|calls| - 1];
      LogIsChained(c, front);
      ReplayIsLive(c, front);
      var before := Serve(c, front);
      if call.Ask? {
        ActFaithful(c, before.process, call.functionCode, call.address, call.count, call.values);
        var report := Act(c, before.process, call.functionCode, call.address, call.count, call.values).report;
        if report.Some? { ChainOneMore(c, before.log, report.value); }
      }
    } else {
      assert Chained(c, []);
    }
  }
}
