/** Protocol requests as runs of process writes, so that what every run keeps holds for every client session. */
module RequestRuns {
  import opened Wrappers
  import opened RegisterMaps
  import opened WetWell
  import opened WetWellRuns
  import opened Protocol
  import opened AtomicWrites
  import opened WriteOrder
  import opened AuditLog

  function WriteOps(ds: seq<Definition>, vs: seq<Raw>): (ops: seq<Op>)
    requires |ds| == |vs|
    ensures |ops| == |ds| && forall i :: 0 <= i < |ds| ==> ops[i] == WriteOp(ds[i].key, vs[i])
  {
    seq(|ds|, i requires 0 <= i < |ds| => WriteOp(ds[i].key, vs[i]))
  }

  /** The process writes one request performs. */
  function RequestOps(c: Config, functionCode: int, address: int, values: Option<seq<Raw>>): seq<Op> {
    if !IsWrite(functionCode) || values.None? then []
    else
      match Resolve(c.registers, AreaOf(functionCode).value, address, |values.value|)
      case Failure(_) => []
      case Success(ds) =>
        match CoerceAll(ds, values.value)
        case None => []
        case Some(normalized) => WriteOps(ds, normalized)
  }

  function CallOps(c: Config, call: Call): seq<Op> {
    match call
    case Elapse(seconds) => [Tick(seconds)]
    case Ask(functionCode, address, count, values) => RequestOps(c, functionCode, address, values)
  }

  function SessionOps(c: Config, calls: seq<Call>): seq<Op> {
    if calls == [] then [] else SessionOps(c, calls[..|calls| - 1]) + CallOps(c, calls[|calls| - 1])
  }

  /** None of the first `n` writes is refused. */
  ghost predicate Taken(c: Config, ds: seq<Definition>, vs: seq<Raw>, n: nat)
    requires c.registers.Complete() && |ds| == |vs| && n <= |ds|
  {
    forall i :: 0 <= i < n ==> WriteRefusal(c, ds[i].key, vs[i]).None?
  }

  /** Storing is running the writes; a refused one ends it, with the writes before it already made. */
  lemma {:induction false} StoreIsRun(c: Config, s: State, ds: seq<Definition>, vs: seq<Raw>)
    requires c.registers.Complete() && c.capacityLiters > 0.0 && |ds| == |vs|
    ensures match StoreAll(c, s, ds, vs)
      case Success(reached) => Taken(c, ds, vs, |ds|) && reached == Run(c, s, WriteOps(ds, vs))
      case Failure(reached) =>
        exists n: nat :: n < |ds| && Taken(c, ds, vs, n) && WriteRefusal(c, ds[n].key, vs[n]).Some?
          && reached == Run(c, s, WriteOps(ds, vs)[..n])
  {
    if ds != [] {
      hide Write, WriteRefusal, Taken;
      var n := |ds| - 1;
      var ops, front := WriteOps(ds, vs), StoreAll(c, s, ds[..n], vs[..n]);
      StoreIsRun(c, s, ds[..n], vs[..n]);
      assert ops[..n] == WriteOps(ds[..n], vs[..n]);
      if front.Failure? {
        var m: nat :| m < n && Taken(c, ds[..n], vs[..n], m)
          && WriteRefusal(c, ds[..n][m].key, vs[..n][m]).Some?
          && front.error == Run(c, s, WriteOps(ds[..n], vs[..n])[..m]);
        assert ops[..m] == WriteOps(ds[..n], vs[..n])[..m];
        TakenOfFront(c, ds, vs, m, n);
      } else {
        TakenOfFront(c, ds, vs, n, n);
        TakenNext(c, ds, vs, n);
      }
    } else {
      assert WriteOps(ds, vs) == [];
    }
  }

  lemma TakenOfFront(c: Config, ds: seq<Definition>, vs: seq<Raw>, m: nat, n: nat)
    requires c.registers.Complete() && |ds| == |vs| && m <= n <= |ds| && Taken(c, ds[..n], vs[..n], m)
    ensures Taken(c, ds, vs, m)
  {
    hide WriteRefusal;
    forall i | 0 <= i < m ensures WriteRefusal(c, ds[i].key, vs[i]).None? {
      assert ds[..n][i] == ds[i] && vs[..n][i] == vs[i];
    }
  }

  lemma TakenNext(c: Config, ds: seq<Definition>, vs: seq<Raw>, n: nat)
    requires c.registers.Complete() && n < |ds| == |vs| && Taken(c, ds, vs, n)
    ensures Taken(c, ds, vs, n + 1) <==> WriteRefusal(c, ds[n].key, vs[n]).None?
  {
    hide WriteRefusal;
  }

  /** A request moves the process exactly as its writes do, one by one. */
  lemma RequestIsRun(c: Config, s: State, functionCode: int, address: int, count: nat, values: Option<seq<Raw>>)
    requires c.registers.Complete() && c.registers.WellFormed() && AllServiced(c.registers)
    requires c.capacityLiters > 0.0
    ensures Act(c, s, functionCode, address, count, values).state
         == Run(c, s, RequestOps(c, functionCode, address, values))
  {
    AtomicMultiWrite(c, s, functionCode, address, count, values);
    hide Resolve, CoerceAll, StoreAll, Values, RegisterMap.WellFormed, AllServiced;
    assert Run(c, s, []) == s;
    if IsWrite(functionCode) && values.Some? {
      var resolved := Resolve(c.registers, AreaOf(functionCode).value, address, |values.value|);
      if resolved.Success? && CoerceAll(resolved.value, values.value).Some? {
        StoreIsRun(c, s, resolved.value, CoerceAll(resolved.value, values.value).value);
      }
    }
  }

  /** A session of requests and elapsed time leaves the process where some run of ticks and writes does. */
  lemma {:induction false} ServeIsRun(c: Config, calls: seq<Call>)
    requires c.registers.Complete() && c.registers.WellFormed() && AllServiced(c.registers)
    requires c.capacityLiters > 0.0
    ensures Serve(c, calls).process == Run(c, Reset(c), SessionOps(c, calls))
  {
    if calls != [] {
      hide Act, Apply, Reset, AllServiced, RegisterMap.WellFormed, RequestOps;
      var front, call := calls[..|calls| - 1], calls[|calls| - 1];
      ServeIsRun(c, front);
      var s, ops := Serve(c, front).process, SessionOps(c, front);
      RunConcat(c, Reset(c), ops, CallOps(c, call));
      match call
      case Elapse(seconds) =>
        RunOne(c, s, Tick(seconds));
      case Ask(functionCode, address, count, values) =>
        RequestIsRun(c, s, functionCode, address, count, values);
    }
  }

  // ----- Without a handler for some writable entry -----

  /** The writes up to the first entry without a handler. */
  ghost predicate HandledUpTo(m: RegisterMap, area: Area, address: int, n: nat) {
    !ServicedAt(m, area, address, n) && forall i :: 0 <= i < n ==> ServicedAt(m, area, address, i)
  }

  /**
   * A server failure is not atomic: it leaves exactly the writes before the first entry without a
   * handler made, and no event.
   */
  lemma ServerFailureKeepsPrefix(c: Config, s: State, functionCode: int, address: int, count: nat, vs: seq<Raw>)
    requires c.registers.Complete() && c.registers.WellFormed() && c.capacityLiters > 0.0
    requires IsWrite(functionCode)
    requires Act(c, s, functionCode, address, count, Some(vs)).exception == Some(ServerFailure)
    ensures var o := Act(c, s, functionCode, address, count, Some(vs));
      var ops := RequestOps(c, functionCode, address, Some(vs));
      && o.report.None?
      && |ops| == |vs|
      && exists n: nat :: n < |vs| && HandledUpTo(c.registers, AreaOf(functionCode).value, address, n)
           && o.state == Run(c, s, ops[..n])
  {
    hide Resolve, CoerceAll, StoreAll, Values, RegisterMap.WellFormed, CoerceWrite, Serviced;
    var m, area := c.registers, AreaOf(functionCode).value;
    var ds := Resolve(m, area, address, |vs|).value;
    var normalized := CoerceAll(ds, vs).value;
    StoreIsRun(c, s, ds, normalized);
    ResolvedIsValidated(c, area, address, vs);
    var n: nat :| n < |ds| && Taken(c, ds, normalized, n) && WriteRefusal(c, ds[n].key, normalized[n]).Some?
      && StoreAll(c, s, ds, normalized).error == Run(c, s, WriteOps(ds, normalized)[..n]);
    forall i | 0 <= i <= n ensures ServicedAt(m, area, address, i) <==> i < n {
      RefusalOfValidated(c, ds[i], normalized[i]);
      assert Slot(m, area, address, i) == Some(ds[i]);
    }
    assert HandledUpTo(m, area, address, n);
  }

  /** A write to the key of slot 0 shows in it until another write to that key. */
  lemma {:induction false} FirstWriteStays(c: Config, s: State, ds: seq<Definition>, vs: seq<Raw>, n: nat)
    requires c.registers.Complete() && c.capacityLiters > 0.0 && Validated(c, ds, vs)
    requires 0 < n <= |ds| && Serviced(ds[0]) && forall i :: 0 <= i < n ==> Serviced(ds[i])
    requires forall i, j :: 0 <= i < j < |ds| ==> ds[i].key != ds[j].key
    ensures Snapshot(c, Run(c, s, WriteOps(ds, vs)[..n]), ds[0].key)
         == Snapshot(c, Store(s, ds[0].key, vs[0]), ds[0].key)
  {
    hide Snapshot, Store, CoerceWrite;
    var ops, m := WriteOps(ds, vs), n - 1;
    assert ops[..n][..m] == ops[..m] && ops[..n][m] == WriteOp(ds[m].key, vs[m]);
    RefusalOfValidated(c, ds[m], vs[m]);
    if m == 0 {
      assert Run(c, s, ops[..0]) == s;
    } else {
      FirstWriteStays(c, s, ds, vs, m);
      StoreElsewhere(c, Run(c, s, ops[..m]), ds[m].key, vs[m], ds[0].key);
    }
  }

  /** A start the first write of a validated request moves. */
  lemma SomewhereElse(c: Config, d: Definition, v: Raw) returns (s: State)
    requires c.registers.Complete() && Serviced(d) && CoerceWrite(d, v) == Success(v)
    ensures Snapshot(c, Store(s, d.key, v), d.key) != Snapshot(c, s, d.key)
  {
    s := Reset(c);
    var n, b := v.AsInt() + 1, !v.Truth();
    s := s.(controls := match d.key
            case AlarmAcknowledge => s.controls.(alarmAcknowledge := true)
            case _ => Controls(n, n, n, b, b, false));
    hide Reset;
  }

  /**
   * Whenever a write is answered with a server failure and its first entry has a handler, that entry is
   * left written, whatever the function, the area and the number of values.
   */
  lemma PartialWriteWithoutHandler(c: Config, s: State, functionCode: int, address: int, count: nat, vs: seq<Raw>)
    requires c.registers.Complete() && c.registers.WellFormed() && c.capacityLiters > 0.0 && IsWrite(functionCode)
    requires var area := AreaOf(functionCode).value;
      Verdict(c.registers, area, address, vs) == Some(ServerFailure) && ServicedAt(c.registers, area, address, 0)
    ensures var o, d := Act(c, s, functionCode, address, count, Some(vs)),
              Slot(c.registers, AreaOf(functionCode).value, address, 0).value;
      && |vs| > 0 && CoerceWrite(d, vs[0]).Success?
      && o.exception == Some(ServerFailure)
      && Snapshot(c, o.state, d.key) == Snapshot(c, Store(s, d.key, CoerceWrite(d, vs[0]).value), d.key)
  {
    hide StoreAll, Values, RegisterMap.WellFormed, CoerceWrite, Serviced, Store, Snapshot, Resolve, CoerceAll, Act;
    var m, area := c.registers, AreaOf(functionCode).value;
    WriteAnswer(c, s, functionCode, address, count, vs);
    ServerFailureKeepsPrefix(c, s, functionCode, address, count, vs);
    var ops := RequestOps(c, functionCode, address, Some(vs));
    var n: nat :| n < |vs| && HandledUpTo(m, area, address, n)
      && Act(c, s, functionCode, address, count, Some(vs)).state == Run(c, s, ops[..n]);
    ResolvedWhenFailing(c, area, address, vs);
    var ds := Resolve(m, area, address, |vs|).value;
    var normalized := CoerceAll(ds, vs).value;
    ResolvedIsValidated(c, area, address, vs);
    ResolvedAreDistinct(c, area, address, vs);
    forall i | 0 <= i < n ensures Serviced(ds[i]) {
      assert ServicedAt(m, area, address, i) && Slot(m, area, address, i) == Some(ds[i]);
    }
    assert Slot(m, area, address, 0) == Some(ds[0]);
    FirstWriteStays(c, s, ds, normalized, n);
  }

  lemma ResolvedWhenFailing(c: Config, area: Area, address: int, vs: seq<Raw>)
    requires Verdict(c.registers, area, address, vs) == Some(ServerFailure)
    ensures |vs| > 0 && Resolve(c.registers, area, address, |vs|).Success?
    ensures CoerceAll(Resolve(c.registers, area, address, |vs|).value, vs).Some?
  {
    hide Resolve, CoerceAll, WritableSlot, AcceptsAt, ServicedAt;
    CoercedExactly(c.registers, area, address, vs);
  }

  /** Every exception this write may be answered with leaves the process unchanged, wherever it stands. */
  ghost predicate AtomicOnError(c: Config, functionCode: int, address: int, count: nat, vs: seq<Raw>)
    requires c.registers.Complete()
  {
    forall s: State :: Act(c, s, functionCode, address, count, Some(vs)).exception.Some? ==>
      Act(c, s, functionCode, address, count, Some(vs)).state == s
  }

  /**
   * Exactly which writes are atomic on error: all but those answered with a server failure whose first
   * entry has a handler.
   */
  lemma AtomicExactly(c: Config, functionCode: int, address: int, count: nat, vs: seq<Raw>)
    requires c.registers.Complete() && c.registers.WellFormed() && c.capacityLiters > 0.0 && IsWrite(functionCode)
    ensures var area := AreaOf(functionCode).value;
      AtomicOnError(c, functionCode, address, count, vs) <==>
        !(Verdict(c.registers, area, address, vs) == Some(ServerFailure) && ServicedAt(c.registers, area, address, 0))
  {
    hide Act, Verdict, RegisterMap.WellFormed, CoerceWrite, Store, Snapshot, Serviced;
    var m, area := c.registers, AreaOf(functionCode).value;
    if Verdict(m, area, address, vs) == Some(ServerFailure) && ServicedAt(m, area, address, 0) {
      var d := Slot(m, area, address, 0).value;
      PartialWriteWithoutHandler(c, Reset(c), functionCode, address, count, vs);
      CoercionIdempotent(d, vs[0]);
      var s := SomewhereElse(c, d, CoerceWrite(d, vs[0]).value);
      PartialWriteWithoutHandler(c, s, functionCode, address, count, vs);
    } else {
      forall s: State | Act(c, s, functionCode, address, count, Some(vs)).exception.Some?
        ensures Act(c, s, functionCode, address, count, Some(vs)).state == s
      {
        WriteAnswer(c, s, functionCode, address, count, vs);
        if Verdict(m, area, address, vs) == Some(ServerFailure) {
          ServerFailureKeepsPrefix(c, s, functionCode, address, count, vs);
          var ops := RequestOps(c, functionCode, address, Some(vs));
          assert ops[..0] == [] && Run(c, s, []) == s;
        }
      }
    }
  }

  lemma RunOne(c: Config, s: State, op: Op)
    requires c.registers.Complete() && c.capacityLiters > 0.0
    ensures Run(c, s, [op]) == Apply(c, s, op)
  {
    assert [op][..0] == [];
    assert Run(c, s, []) == s;
  }
}
