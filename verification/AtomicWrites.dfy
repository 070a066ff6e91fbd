/** Multi-writes are all-or-nothing, exactly when the manifest's writable keys all have handlers. */
module AtomicWrites {
  import opened Wrappers
  import opened RegisterMaps
  import opened WetWell
  import opened Protocol

  /** A definition the process will accept writes for. */
  predicate Serviced(d: Definition) { d.hasWriteEffect && Handled(d.key) }

  /** Every writable entry is one the process services. */
  ghost predicate AllServiced(m: RegisterMap) {
    forall d :: d in m.definitions && d.writable ==> Serviced(d)
  }

  /** Coercing a coerced value changes nothing, so validation cannot succeed and the write then refuse. */
  lemma CoercionIdempotent(d: Definition, v: Raw)
    requires CoerceWrite(d, v).Success?
    ensures CoerceWrite(d, CoerceWrite(d, v).value) == CoerceWrite(d, v)
  {
  }

  lemma RefusalOfValidated(c: Config, d: Definition, v: Raw)
    requires c.registers.Complete() && c.Reg(d.key) == d && d.writable && CoerceWrite(d, v).Success?
    ensures WriteRefusal(c, d.key, CoerceWrite(d, v).value).None? <==> Serviced(d)
    ensures Serviced(d) ==> CoerceWrite(d, CoerceWrite(d, v).value) == CoerceWrite(d, v)
  {
    CoercionIdempotent(d, v);
  }

  ghost predicate Validated(c: Config, ds: seq<Definition>, vs: seq<Raw>)
    requires c.registers.Complete()
  {
    && |ds| == |vs|
    && (forall i :: 0 <= i < |ds| ==> c.Reg(ds[i].key) == ds[i] && ds[i].writable)
    && (forall i :: 0 <= i < |ds| ==> CoerceWrite(ds[i], vs[i]) == Success(vs[i]))
  }

  /** The first refusal decides, however many values follow it. */
  lemma {:induction false} StoreStops(c: Config, s: State, ds: seq<Definition>, vs: seq<Raw>, n: nat)
    requires c.registers.Complete() && |ds| == |vs| && n <= |ds| && StoreAll(c, s, ds[..n], vs[..n]).Failure?
    ensures StoreAll(c, s, ds, vs) == StoreAll(c, s, ds[..n], vs[..n])
  {
    if n < |ds| {
      var last := |ds| - 1;
      assert ds[..last][..n] == ds[..n] && vs[..last][..n] == vs[..n];
      StoreStops(c, s, ds[..last], vs[..last], n);
    } else {
      assert ds[..n] == ds && vs[..n] == vs;
    }
  }

  /** Storing validated values fails exactly when some definition is not serviced. */
  lemma {:induction false} StoreAllFails(c: Config, s: State, ds: seq<Definition>, vs: seq<Raw>)
    requires c.registers.Complete() && Validated(c, ds, vs)
    ensures StoreAll(c, s, ds, vs).Success? <==> forall i :: 0 <= i < |ds| ==> Serviced(ds[i])
  {
    if ds != [] {
      var n := |ds| - 1;
      StoreAllFails(c, s, ds[..n], vs[..n]);
      RefusalOfValidated(c, ds[n], vs[n]);
      hide CoerceWrite, Serviced, WriteRefusal, Write;
      assert forall i :: 0 <= i < n ==> ds[..n][i] == ds[i];
    }
  }

  lemma ResolvedIsValidated(c: Config, area: Area, address: int, vs: seq<Raw>)
    requires c.registers.Complete() && c.registers.WellFormed()
    requires Resolve(c.registers, area, address, |vs|).Success?
    requires CoerceAll(Resolve(c.registers, area, address, |vs|).value, vs).Some?
    ensures var ds := Resolve(c.registers, area, address, |vs|).value;
      && Validated(c, ds, CoerceAll(ds, vs).value)
      && (forall i :: 0 <= i < |ds| ==> ds[i] in c.registers.definitions)
  {
    hide Resolve, CoerceAll, CoerceWrite;
    var ds := Resolve(c.registers, area, address, |vs|).value;
    var normalized := CoerceAll(ds, vs).value;
    forall i | 0 <= i < |ds|
      ensures c.Reg(ds[i].key) == ds[i] && ds[i] in c.registers.definitions && ds[i].writable
      ensures CoerceWrite(ds[i], normalized[i]) == Success(normalized[i])
    {
      assert WritableSlot(c.registers, area, address, i);
      assert Slot(c.registers, area, address, i) == Some(ds[i]);
      CoercionIdempotent(ds[i], vs[i]);
    }
  }

  /** The slot is writable and takes the value. */
  predicate AcceptsAt(m: RegisterMap, area: Area, address: int, vs: seq<Raw>, i: nat)
    requires i < |vs|
  {
    WritableSlot(m, area, address, i) && CoerceWrite(Slot(m, area, address, i).value, vs[i]).Success?
  }

  predicate ServicedAt(m: RegisterMap, area: Area, address: int, i: int) {
    Slot(m, area, address, i).Some? && Serviced(Slot(m, area, address, i).value)
  }

  /** The answer to a write, read off its addresses and values alone. */
  ghost function Verdict(m: RegisterMap, area: Area, address: int, vs: seq<Raw>): Option<ExcCode> {
    if exists i :: 0 <= i < |vs| && !WritableSlot(m, area, address, i) then Some(IllegalAddress)
    else if exists i :: 0 <= i < |vs| && !AcceptsAt(m, area, address, vs, i) then Some(IllegalValue)
    else if exists i :: 0 <= i < |vs| && !ServicedAt(m, area, address, i) then Some(ServerFailure)
    else None
  }

  lemma CoercedExactly(m: RegisterMap, area: Area, address: int, vs: seq<Raw>)
    requires Resolve(m, area, address, |vs|).Success?
    ensures CoerceAll(Resolve(m, area, address, |vs|).value, vs).Some?
      <==> forall i :: 0 <= i < |vs| ==> AcceptsAt(m, area, address, vs, i)
    ensures (forall i :: 0 <= i < |vs| ==> Serviced(Resolve(m, area, address, |vs|).value[i]))
      <==> forall i :: 0 <= i < |vs| ==> ServicedAt(m, area, address, i)
  {
    hide Resolve, CoerceAll, CoerceWrite, Serviced;
    var ds := Resolve(m, area, address, |vs|).value;
    assert forall i :: 0 <= i < |vs| ==> Slot(m, area, address, i) == Some(ds[i]);
    forall i | 0 <= i < |vs|
      ensures AcceptsAt(m, area, address, vs, i) <==> CoerceWrite(ds[i], vs[i]).Success?
      ensures ServicedAt(m, area, address, i) <==> Serviced(ds[i])
    {
      assert WritableSlot(m, area, address, i);
    }
  }

  /**
   * Every write is answered with exactly this verdict, and the process changes only under a success or
   * a server failure: any other exception leaves it untouched.
   */
  lemma WriteAnswer(c: Config, s: State, functionCode: int, address: int, count: nat, vs: seq<Raw>)
    requires c.registers.Complete() && c.registers.WellFormed() && IsWrite(functionCode)
    ensures var o := Act(c, s, functionCode, address, count, Some(vs));
      && o.exception == Verdict(c.registers, AreaOf(functionCode).value, address, vs)
      && (o.exception.Some? && o.exception != Some(ServerFailure) ==> o.state == s)
      && (o.exception == Some(ServerFailure) <==> o.report.None?)
  {
    hide Resolve, CoerceAll, StoreAll, CoerceWrite, Serviced, RegisterMap.WellFormed, RegisterMap.Complete;
    hide AcceptsAt, ServicedAt, WritableSlot;
    var area := AreaOf(functionCode).value;
    var resolved := Resolve(c.registers, area, address, |vs|);
    if resolved.Success? {
      CoercedExactly(c.registers, area, address, vs);
      if CoerceAll(resolved.value, vs).Some? {
        ResolvedIsValidated(c, area, address, vs);
        StoreAllFails(c, s, resolved.value, CoerceAll(resolved.value, vs).value);
      }
    }
  }

  /**
   * With every writable entry serviced the server-failure branch is unreachable, and an exception of
   * any kind leaves the process untouched.
   */
  lemma AtomicMultiWrite(
    c: Config, s: State, functionCode: int, address: int, count: nat, values: Option<seq<Raw>>)
    requires c.registers.Complete() && c.registers.WellFormed() && AllServiced(c.registers)
    ensures var o := Act(c, s, functionCode, address, count, values);
      && o.exception != Some(ServerFailure)
      && (o.exception.Some? ==> o.state == s)
  {
    if IsWrite(functionCode) && values.Some? {
      var vs, area := values.value, AreaOf(functionCode).value;
      WriteAnswer(c, s, functionCode, address, count, vs);
      hide Act, CoerceWrite, Serviced;
      forall i | 0 <= i < |vs| && WritableSlot(c.registers, area, address, i)
        ensures ServicedAt(c.registers, area, address, i)
      {
      }
    }
  }
}
