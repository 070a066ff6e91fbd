/** Which registers each function code reads and writes, and what its report says of them. */
module RequestAreas {
  import opened Wrappers
  import opened RegisterMaps
  import opened WetWell
  import opened Protocol
  import opened Mirror
  import opened AtomicWrites
  import opened WriteOrder
  import opened Snapshots

  /** The key of a register of the area within a window. */
  ghost predicate InWindow(m: RegisterMap, area: Area, address: int, count: int, k: Key) {
    exists d :: d in m.definitions && d.area == area && address <= d.address < address + count && d.key == k
  }

  /** The keys of a window are those of its registers, in address order. */
  lemma {:induction false} WindowKeys(m: RegisterMap, area: Area, address: int, count: nat)
    requires m.WellFormed()
    ensures var ks := KeysIn(m, area, address, count);
      && (forall k :: k in ks <==> InWindow(m, area, address, count, k))
      && (forall k :: k in ks ==> k in m.byKey && address <= m.byKey[k].address < address + count)
      && (forall i, j :: 0 <= i < j < |ks| ==> m.byKey[ks[i]].address < m.byKey[ks[j]].address)
  {
    hide RegisterMap.WellFormed, RegisterMap.At;
    if count != 0 {
      hide InWindow;
      var n := count - 1;
      WindowKeys(m, area, address, n);
      NextInWindow(m, area, address, n);
      var front, at := KeysIn(m, area, address, n), m.At(area, address + n);
      assert KeysIn(m, area, address, count) == if at.None? then front else front + [at.value.key];
      hide KeysIn;
    }
  }

  lemma NextInWindow(m: RegisterMap, area: Area, address: int, n: nat)
    requires m.WellFormed()
    ensures match m.At(area, address + n)
      case None => forall k :: InWindow(m, area, address, n + 1, k) <==> InWindow(m, area, address, n, k)
      case Some(d) =>
        && d.key in m.byKey && m.byKey[d.key] == d && d.address == address + n
        && (forall k :: InWindow(m, area, address, n + 1, k) <==> InWindow(m, area, address, n, k) || k == d.key)
  {
    MappedIsAt(m, area, address + n);
    var at := m.At(area, address + n);
    if at.Some? {
      var d := at.value;
      assert d in m.definitions && d.area == area && d.address == address + n && m.byKey[d.key] == d;
    }
    forall d | d in m.definitions && d.area == area && d.address == address + n ensures at == Some(d) { }
    hide RegisterMap.WellFormed, RegisterMap.At;
    forall k
      ensures InWindow(m, area, address, n + 1, k) <==>
        InWindow(m, area, address, n, k) || (at.Some? && k == at.value.key)
    {
      if InWindow(m, area, address, n + 1, k) && !InWindow(m, area, address, n, k) {
        var d :| d in m.definitions && d.key == k && d.area == area && address <= d.address < address + n + 1;
        assert d.address == address + n && at == Some(d);
      }
    }
  }

  /** A read's report: exactly the registers of the window, in address order, each with its live value. */
  ghost predicate Serves(c: Config, s: State, area: Area, address: int, count: int, r: Report)
    requires c.registers.Complete()
  {
    && r.operation == ReadOperation && r.area == Some(area) && r.address == address && r.count == count
    && (forall k :: k in r.keys <==> InWindow(c.registers, area, address, count, k))
    && (forall i, j :: 0 <= i < j < |r.keys| ==>
          c.registers.byKey[r.keys[i]].address < c.registers.byKey[r.keys[j]].address)
    && r.response.Some?
    && (forall k :: k in r.response.value <==> InWindow(c.registers, area, address, count, k))
    && (forall k :: k in r.response.value ==> r.response.value[k] == Snapshot(c, s, k))
    && r.requested.None? && r.exception.None? && r.before.None? && r.after.None?
  }

  /**
   * Function 1 reads coils, 2 discrete inputs, 3 holding registers, 4 input registers: the process stays
   * as it is, no exception is answered, and the report serves exactly the registers of the window.
   */
  lemma ReadsServe(
    c: Config, s: State, functionCode: int, address: int, count: nat, values: Option<seq<Raw>>)
    requires c.registers.Complete() && c.registers.WellFormed() && functionCode in {1, 2, 3, 4}
    ensures var o := Act(c, s, functionCode, address, count, values);
      var area :=
        if functionCode == 1 then Coil else if functionCode == 2 then DiscreteInput
        else if functionCode == 3 then HoldingRegister else InputRegister;
      && o.state == s && o.exception.None?
      && o.report.Some? && o.report.value.functionCode == functionCode
      && Serves(c, s, area, address, count, o.report.value)
  {
    hide Snapshot, KeysIn, InWindow, RegisterMap.WellFormed;
    var area :=
      if functionCode == 1 then Coil else if functionCode == 2 then DiscreteInput
      else if functionCode == 3 then HoldingRegister else InputRegister;
    WindowKeys(c.registers, area, address, count);
  }

  /** Any other function that is no write is answered with an illegal function, and nothing moves. */
  lemma OthersAreIllegal(
    c: Config, s: State, functionCode: int, address: int, count: nat, values: Option<seq<Raw>>)
    requires c.registers.Complete() && functionCode !in {1, 2, 3, 4, 5, 6, 15, 16}
    ensures var o := Act(c, s, functionCode, address, count, values);
      && o.state == s && o.exception == Some(IllegalFunction)
      && o.report.Some? && o.report.value.exception == Some(IllegalFunction)
      && o.report.value.functionCode == functionCode && o.report.value.operation == UnknownOperation
      && o.report.value.area.None? && o.report.value.keys == [] && o.report.value.response.None?
  {
  }

  /** The read-back of a write neither moves the process nor reports. */
  lemma ReadBackIsSilent(c: Config, s: State, functionCode: int, address: int, count: nat)
    requires c.registers.Complete() && functionCode in {5, 6, 15, 16}
    ensures Act(c, s, functionCode, address, count, None) == Outcome(s, None, None)
  {
  }

  /** The register `i` places into a window of an area, and that clients may write it. */
  ghost predicate WritableAt(m: RegisterMap, area: Area, address: int, i: int, d: Definition) {
    d in m.definitions && d.area == area && d.address == address + i && d.writable
  }

  /** Clients may write some register `i` places into the window. */
  ghost predicate Reachable(m: RegisterMap, area: Area, address: int, i: int) {
    exists d :: WritableAt(m, area, address, i, d)
  }

  /** The writable register `i` places into the window takes its value. */
  ghost predicate TakesValue(m: RegisterMap, area: Area, address: int, vs: seq<Raw>, i: int)
    requires 0 <= i < |vs|
  {
    forall d :: WritableAt(m, area, address, i, d) ==> CoerceWrite(d, vs[i]).Success?
  }

  /** The key of the writable register `i` places into the window. */
  ghost predicate KeyAt(m: RegisterMap, area: Area, address: int, i: int, k: Key) {
    exists d :: WritableAt(m, area, address, i, d) && d.key == k
  }

  lemma SlotIsWritable(m: RegisterMap, area: Area, address: int, i: int)
    requires m.WellFormed()
    ensures WritableSlot(m, area, address, i) <==> Reachable(m, area, address, i)
    ensures WritableSlot(m, area, address, i) ==>
      Slot(m, area, address, i).Some? && WritableAt(m, area, address, i, Slot(m, area, address, i).value)
    ensures forall d :: WritableAt(m, area, address, i, d) ==> Slot(m, area, address, i) == Some(d)
  {
    MappedIsAt(m, area, address + i);
    var at := m.At(area, address + i);
    if at.Some? {
      assert at.value in m.definitions && at.value.area == area && at.value.address == address + i;
    }
    hide RegisterMap.WellFormed, RegisterMap.At, Mapped;
    if WritableSlot(m, area, address, i) { assert WritableAt(m, area, address, i, at.value); }
  }

  /** What the report of a completed write says, register by register. */
  ghost predicate ReportsWrite(
    c: Config, before: State, after: State, area: Area, address: int, vs: seq<Raw>, r: Report)
    requires c.registers.Complete()
  {
    && r.operation == WriteOperation && r.area == Some(area) && r.address == address
    && r.count == |vs| == |r.keys| && r.exception.None? && r.response.None?
    && r.requested.Some? && |r.requested.value| == |vs|
    && (forall i :: 0 <= i < |vs| ==>
          && KeyAt(c.registers, area, address, i, r.keys[i])
          && r.requested.value[i].AsInt() == vs[i].AsInt())
    && r.before.Some? && r.after.Some?
    && (forall k :: k in r.before.value <==> k in r.keys) && (forall k :: k in r.after.value <==> k in r.keys)
    && (forall k :: k in r.keys ==> r.before.value[k] == Snapshot(c, before, k))
    && (forall k :: k in r.keys ==> r.after.value[k] == Snapshot(c, after, k))
  }

  /**
   * The registers of a window show the written values, and no other register has changed but for the
   * automatic-control flag, which follows the mode.
   */
  ghost predicate Lands(c: Config, before: State, after: State, area: Area, address: int, vs: seq<Raw>)
    requires c.registers.Complete()
  {
    && (forall i, d :: 0 <= i < |vs| && WritableAt(c.registers, area, address, i, d) ==>
          Snapshot(c, after, d.key) == ShownAfter(d.key, vs[i]))
    && (forall k :: k != AutoControlActive && (forall i, d ::
            0 <= i < |vs| && WritableAt(c.registers, area, address, i, d) ==> d.key != k) ==>
          Snapshot(c, after, k) == Snapshot(c, before, k))
  }

  /** A stored value shows under its key however many writes to other keys follow. */
  lemma {:induction false} StoredShows(c: Config, s: State, ds: seq<Definition>, vs: seq<Raw>, i: nat)
    requires c.registers.Complete() && Ready(c, ds, vs) && i < |ds| && StoreAll(c, s, ds, vs).Success?
    ensures Snapshot(c, StoreAll(c, s, ds, vs).value, ds[i].key) == ShownAfter(ds[i].key, vs[i])
  {
    hide Snapshot, Store, CoerceWrite, ShownAfter;
    var n := |ds| - 1;
    var earlier := StoreAll(c, s, ds[..n], vs[..n]).value;
    WriteReady(c, earlier, ds, vs, n);
    StoreShows(c, earlier, ds[n].key, vs[n]);
    if i < n {
      ReadyFront(c, ds, vs, n);
      StoredShows(c, s, ds[..n], vs[..n], i);
      assert Handled(ds[i].key) && ds[i].key != ds[n].key by { WriteReady(c, earlier, ds, vs, i); }
      assert ds[i].key != AutoControlActive;
    }
  }

  lemma ReadyFront(c: Config, ds: seq<Definition>, vs: seq<Raw>, n: nat)
    requires c.registers.Complete() && Ready(c, ds, vs) && n <= |ds|
    ensures Ready(c, ds[..n], vs[..n])
  {
  }

  lemma {:induction false} OthersKept(c: Config, s: State, ds: seq<Definition>, vs: seq<Raw>, k: Key)
    requires c.registers.Complete() && Ready(c, ds, vs) && StoreAll(c, s, ds, vs).Success?
    requires k != AutoControlActive && forall i :: 0 <= i < |ds| ==> ds[i].key != k
    ensures Snapshot(c, StoreAll(c, s, ds, vs).value, k) == Snapshot(c, s, k)
  {
    if ds != [] {
      hide Snapshot, Store, CoerceWrite;
      var n := |ds| - 1;
      var earlier := StoreAll(c, s, ds[..n], vs[..n]).value;
      ReadyFront(c, ds, vs, n);
      OthersKept(c, s, ds[..n], vs[..n], k);
      WriteReady(c, earlier, ds, vs, n);
      StoreShows(c, earlier, ds[n].key, vs[n]);
    }
  }

  lemma ShownIsByNumber(k: Key, v: Raw, w: Raw)
    requires v.AsInt() == w.AsInt()
    ensures ShownAfter(k, v) == ShownAfter(k, w)
  {
  }

  /** Each slot of a resolved window holds its definition, whose value lands in it. */
  lemma SlotLands(c: Config, s: State, area: Area, address: int, vs: seq<Raw>, i: nat)
    requires c.registers.Complete() && c.registers.WellFormed() && AllServiced(c.registers) && i < |vs|
    requires Resolve(c.registers, area, address, |vs|).Success?
    requires CoerceAll(Resolve(c.registers, area, address, |vs|).value, vs).Some?
    requires var ds := Resolve(c.registers, area, address, |vs|).value;
      StoreAll(c, s, ds, CoerceAll(ds, vs).value).Success?
    ensures var m, ds := c.registers, Resolve(c.registers, area, address, |vs|).value;
      var normalized := CoerceAll(ds, vs).value;
      && WritableAt(m, area, address, i, ds[i])
      && (forall d :: WritableAt(m, area, address, i, d) ==> d == ds[i])
      && normalized[i].AsInt() == vs[i].AsInt()
      && Snapshot(c, StoreAll(c, s, ds, normalized).value, ds[i].key) == ShownAfter(ds[i].key, vs[i])
  {
    hide Resolve, CoerceAll, StoreAll, Snapshot, RegisterMap.WellFormed, CoerceWrite, Serviced, AllServiced, Ready;
    hide ShownAfter, WritableSlot, WritableAt;
    var ds := Resolve(c.registers, area, address, |vs|).value;
    var normalized := CoerceAll(ds, vs).value;
    ResolvedIsReady(c, area, address, vs);
    SlotIsWritable(c.registers, area, address, i);
    assert WritableSlot(c.registers, area, address, i);
    assert Slot(c.registers, area, address, i) == Some(ds[i]);
    StoredShows(c, s, ds, normalized, i);
    ShownIsByNumber(ds[i].key, normalized[i], vs[i]);
  }

  /** A completed write's own account of itself. */
  lemma Completed(c: Config, s: State, functionCode: int, address: int, count: nat, vs: seq<Raw>)
    requires c.registers.Complete() && c.registers.WellFormed() && AllServiced(c.registers)
    requires functionCode in {5, 6, 15, 16}
    requires Act(c, s, functionCode, address, count, Some(vs)).exception.None?
    ensures var o := Act(c, s, functionCode, address, count, Some(vs));
      var area := if functionCode == 5 || functionCode == 15 then Coil else HoldingRegister;
      var resolved := Resolve(c.registers, area, address, |vs|);
      && resolved.Success? && CoerceAll(resolved.value, vs).Some?
      && var ds, normalized := resolved.value, CoerceAll(resolved.value, vs).value;
      && StoreAll(c, s, ds, normalized) == Success(o.state)
      && o.report == Some(Report(
           functionCode, WriteOperation, Some(area), address, |vs|, KeysOf(ds), Some(normalized), None, None,
           Some(Values(c, s, KeysOf(ds))), Some(Values(c, o.state, KeysOf(ds)))))
  {
    hide Resolve, CoerceAll, StoreAll, Values, RegisterMap.WellFormed, AllServiced;
  }

  /**
   * Functions 5 and 15 write coils, 6 and 16 holding registers: a completed write is answered without an
   * exception and shows in exactly the registers of the window.
   */
  lemma WritesLand(c: Config, s: State, functionCode: int, address: int, count: nat, vs: seq<Raw>)
    requires c.registers.Complete() && c.registers.WellFormed() && AllServiced(c.registers)
    requires functionCode in {5, 6, 15, 16}
    requires Act(c, s, functionCode, address, count, Some(vs)).exception.None?
    ensures var area := if functionCode == 5 || functionCode == 15 then Coil else HoldingRegister;
      Lands(c, s, Act(c, s, functionCode, address, count, Some(vs)).state, area, address, vs)
  {
    hide Resolve, CoerceAll, StoreAll, Snapshot, RegisterMap.WellFormed, AllServiced, Ready, Act, Values;
    hide ShownAfter, WritableAt, Handled;
    var m, area := c.registers, if functionCode == 5 || functionCode == 15 then Coil else HoldingRegister;
    Completed(c, s, functionCode, address, count, vs);
    ResolvedIsReady(c, area, address, vs);
    var ds := Resolve(m, area, address, |vs|).value;
    forall i | 0 <= i < |vs|
      ensures WritableAt(m, area, address, i, ds[i])
      ensures forall d :: WritableAt(m, area, address, i, d) ==>
        Snapshot(c, Act(c, s, functionCode, address, count, Some(vs)).state, d.key) == ShownAfter(d.key, vs[i])
    {
      SlotLands(c, s, area, address, vs, i);
    }
    forall k | k != AutoControlActive && (forall i, d ::
        0 <= i < |vs| && WritableAt(m, area, address, i, d) ==> d.key != k)
      ensures Snapshot(c, Act(c, s, functionCode, address, count, Some(vs)).state, k) == Snapshot(c, s, k)
    {
      forall i | 0 <= i < |ds| ensures ds[i].key != k { assert WritableAt(m, area, address, i, ds[i]); }
      OthersKept(c, s, ds, CoerceAll(ds, vs).value, k);
    }
  }

  /** A completed write is reported register by register, with the values before and after it. */
  lemma WritesReported(c: Config, s: State, functionCode: int, address: int, count: nat, vs: seq<Raw>)
    requires c.registers.Complete() && c.registers.WellFormed() && AllServiced(c.registers)
    requires functionCode in {5, 6, 15, 16}
    requires Act(c, s, functionCode, address, count, Some(vs)).exception.None?
    ensures var o := Act(c, s, functionCode, address, count, Some(vs));
      var area := if functionCode == 5 || functionCode == 15 then Coil else HoldingRegister;
      && o.report.Some? && o.report.value.functionCode == functionCode
      && ReportsWrite(c, s, o.state, area, address, vs, o.report.value)
  {
    hide Resolve, CoerceAll, StoreAll, Snapshot, RegisterMap.WellFormed, AllServiced, Act, WritableAt;
    var m, area := c.registers, if functionCode == 5 || functionCode == 15 then Coil else HoldingRegister;
    Completed(c, s, functionCode, address, count, vs);
    var ds := Resolve(m, area, address, |vs|).value;
    forall i | 0 <= i < |vs|
      ensures KeyAt(m, area, address, i, KeysOf(ds)[i])
      ensures CoerceAll(ds, vs).value[i].AsInt() == vs[i].AsInt()
    {
      SlotLands(c, s, area, address, vs, i);
    }
  }

  /** How a refused write is reported. */
  ghost predicate ReportsRefusal(area: Area, address: int, vs: seq<Raw>, code: ExcCode, r: Report) {
    && r.operation == WriteOperation && r.area == Some(area) && r.address == address && r.count == |vs|
    && r.requested == Some(vs) && r.exception == Some(code)
    && r.response.None? && r.before.None? && r.after.None?
  }

  /**
   * A write is refused with an illegal address exactly when some address of its window has no writable
   * register in the function's area, otherwise with an illegal value exactly when some register there
   * does not take its value; either way nothing moves and the report says so.
   */
  lemma WritesRefused(c: Config, s: State, functionCode: int, address: int, count: nat, vs: seq<Raw>)
    requires c.registers.Complete() && c.registers.WellFormed() && AllServiced(c.registers)
    requires functionCode in {5, 6, 15, 16}
    ensures var o := Act(c, s, functionCode, address, count, Some(vs));
      var m, area := c.registers, if functionCode == 5 || functionCode == 15 then Coil else HoldingRegister;
      && o.exception ==
           (if exists i :: 0 <= i < |vs| && !Reachable(m, area, address, i) then Some(IllegalAddress)
            else if exists i :: 0 <= i < |vs| && !TakesValue(m, area, address, vs, i) then Some(IllegalValue)
            else None)
      && (o.exception.Some? ==>
            && o.state == s && o.report.Some? && o.report.value.functionCode == functionCode
            && ReportsRefusal(area, address, vs, o.exception.value, o.report.value))
  {
    hide Resolve, CoerceAll, StoreAll, Values, RegisterMap.WellFormed, CoerceWrite, Serviced, AllServiced;
    hide WritableSlot, WritableAt, Slot, Reachable;
    var m, area := c.registers, if functionCode == 5 || functionCode == 15 then Coil else HoldingRegister;
    AtomicMultiWrite(c, s, functionCode, address, count, Some(vs));
    forall i | 0 <= i < |vs|
      ensures WritableSlot(m, area, address, i) <==> Reachable(m, area, address, i)
    {
      SlotIsWritable(m, area, address, i);
    }
    var resolved := Resolve(m, area, address, |vs|);
    if resolved.Success? {
      var ds := resolved.value;
      forall i | 0 <= i < |vs|
        ensures TakesValue(m, area, address, vs, i) <==> CoerceWrite(ds[i], vs[i]).Success?
      {
        SlotIsWritable(m, area, address, i);
        assert Slot(m, area, address, i) == Some(ds[i]) && WritableSlot(m, area, address, i);
      }
      hide TakesValue;
    } else {
      assert exists i :: 0 <= i < |vs| && !WritableSlot(m, area, address, i);
    }
  }
}
