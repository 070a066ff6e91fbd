/** The adapter object: synchronises the window in place, drives the process, emits audit events. */
module ProtocolAdapters {
  import opened Wrappers
  import opened RegisterMaps
  import opened WetWell
  import opened WetWellProcesses
  import opened Mirror
  import opened Protocol
  import opened AtomicWrites
  import opened AuditLog

  /** Where events go: nowhere, to a working consumer, or to one that raises on every call. */
  datatype Sink = NoSink | Working | Raising

  /** The sequence number after a request: only a missing sink leaves it, even a raising one consumes a number. */
  function Numbered(sink: Sink, sequence: nat, report: Option<Report>): nat {
    sequence + if sink == NoSink || report.None? then 0 else 1
  }

  /** What reaches the consumer. */
  function Sent(sink: Sink, sequence: nat, report: Option<Report>): seq<Event> {
    if sink == Working && report.Some? then [Event(sequence + 1, report.value)] else []
  }

  class ProcessProtocolAdapter {
    const process: WetWellProcess
    const sink: Sink

    var sequence: nat
    var delivered: seq<Event>

    ghost predicate Valid() {
      process.Valid() && process.config.registers.WellFormed()
    }

    constructor (process: WetWellProcess, sink: Sink)
      requires process.Valid() && process.config.registers.WellFormed()
      ensures Valid() && this.process == process && this.sink == sink
      ensures sequence == 0 && delivered == []
    {
      this.process := process;
      this.sink := sink;
      sequence := 0;
      delivered := [];
    }

    /** Number an event and hand it over; a missing or raising sink never reaches the caller. */
    method EmitEvent(report: Report)
      modifies this
      ensures sequence == Numbered(sink, old(sequence), Some(report))
      ensures delivered == old(delivered) + Sent(sink, old(sequence), Some(report))
    {
      if sink == NoSink {
        return;
      }
      sequence := sequence + 1;
      if sink == Working {
        delivered := delivered + [Event(sequence, report)];
      }
    }

    method SyncRegisterArea(area: Area, start: int, cells: array<int>)
      requires Valid()
      modifies cells
      ensures cells[..] == SyncCells(process.config, process.Abs(), area, start, old(cells[..]))
    {
      hide Snapshot, EncodeRegister, SyncedCell, RegisterMap.WellFormed;
      var c, s, ds := process.config, process.Abs(), process.config.registers.definitions;
      ghost var was := cells[..];
      var n := 0;
      while n < |ds|
        invariant 0 <= n <= |ds|
        invariant forall i :: 0 <= i < cells.Length ==>
          cells[i] == CellAfter(c, s, ds[..n], area, start + i, was[i])
      {
        hide CellAfter;
        var d := ds[n];
        var index := d.address - start;
        ghost var before := cells[..];
        if d.area == area && 0 <= index < cells.Length {
          cells[index] := EncodeRegister(Snapshot(c, s, d.key));
        }
        forall i | 0 <= i < cells.Length
          ensures cells[i] == CellAfter(c, s, ds[..n + 1], area, start + i, was[i])
        {
          CellAfterNext(c, s, ds, n, area, start + i, was[i]);
          assert before[i] == CellAfter(c, s, ds[..n], area, start + i, was[i]);
        }
        n := n + 1;
      }
      assert ds[..|ds|] == ds;
      forall i | 0 <= i < cells.Length
        ensures cells[i] == SyncedCell(c, s, area, start + i, was[i])
      {
        CellAfterAll(c, s, area, start + i, was[i]);
      }
    }

    method SyncBitArea(area: Area, start: int, cells: array<int>)
      requires Valid()
      modifies cells
      ensures cells[..] ==
        BitsToRegisters(SyncedBits(process.config, process.Abs(), area, 16 * start, RegistersToBits(old(cells[..]))))
    {
      hide Snapshot, SyncedBit, RegistersToBits, BitsToRegisters, RegisterMap.WellFormed;
      var c, s, ds := process.config, process.Abs(), process.config.registers.definitions;
      var bits := RegistersToBits(cells[..]);
      ghost var was := bits;
      var base := start * 16;
      var n := 0;
      while n < |ds|
        invariant 0 <= n <= |ds| && |bits| == |was|
        invariant forall j :: 0 <= j < |bits| ==> bits[j] == BitAfter(c, s, ds[..n], area, base + j, was[j])
      {
        hide BitAfter;
        var d := ds[n];
        var index := d.address - base;
        ghost var before := bits;
        if d.area == area && 0 <= index < |bits| {
          bits := bits[index := Snapshot(c, s, d.key).Truth()];
        }
        forall j | 0 <= j < |bits|
          ensures bits[j] == BitAfter(c, s, ds[..n + 1], area, base + j, was[j])
        {
          BitAfterNext(c, s, ds, n, area, base + j, was[j]);
          assert before[j] == BitAfter(c, s, ds[..n], area, base + j, was[j]);
        }
        n := n + 1;
      }
      assert ds[..|ds|] == ds;
      forall j | 0 <= j < |bits| ensures bits[j] == SyncedBit(c, s, area, 16 * start + j, was[j]) {
        BitAfterAll(c, s, area, base + j, was[j]);
      }
      assert bits == SyncedBits(c, s, area, 16 * start, was);
      var packed := BitsToRegisters(bits);
      forall i | 0 <= i < cells.Length {
        cells[i] := packed[i];
      }
      assert cells[..] == packed;
    }

    method SyncWindow(area: Area, start: int, cells: array<int>) returns (snapshot: State)
      requires Valid()
      modifies cells
      ensures snapshot == process.Abs()
      ensures cells[..] == SyncArea(process.config, process.Abs(), area, start, old(cells[..]))
    {
      snapshot := process.Abs();
      if area == Coil || area == DiscreteInput {
        SyncBitArea(area, start, cells);
      } else {
        SyncRegisterArea(area, start, cells);
      }
    }

    /** The mapped keys of a read window, collected address by address. */
    method CollectKeys(area: Area, address: int, count: nat) returns (keys: seq<Key>)
      ensures keys == KeysIn(process.config.registers, area, address, count)
    {
      keys := [];
      for offset := 0 to count
        invariant keys == KeysIn(process.config.registers, area, address, offset)
      {
        var definition := process.config.registers.At(area, address + offset);
        if definition.Some? {
          keys := keys + [definition.value.key];
        }
      }
    }

    /** The definitions a write addresses, or the report of the first address it may not touch. */
    method ResolveWrite(functionCode: int, area: Area, address: int, vs: seq<Raw>)
      returns (ds: seq<Definition>, refusal: Option<Report>)
      ensures refusal.None? <==> Resolve(process.config.registers, area, address, |vs|).Success?
      ensures refusal.None? ==> Resolve(process.config.registers, area, address, |vs|) == Success(ds)
      ensures refusal.Some? ==>
        refusal == ObstacleReport(functionCode, area, address, vs,
                                  Resolve(process.config.registers, area, address, |vs|).error)
    {
      hide Resolve, WritableSlot;
      var m := process.config.registers;
      ds, refusal := [], None;
      var offset := 0;
      while offset < |vs|
        invariant 0 <= offset <= |vs| && refusal.None?
        invariant Resolve(m, area, address, offset) == Success(ds)
      {
        var definition := m.At(area, address + offset);
        ResolveNext(m, area, address, offset);
        if definition.None? {
          refusal := Refused(functionCode, area, address, vs, KeysOf(ds), IllegalAddress);
          ResolveStops(m, area, address, offset + 1, |vs|);
          return;
        }
        if !definition.value.writable {
          refusal := Refused(functionCode, area, address, vs, [definition.value.key], IllegalAddress);
          ResolveStops(m, area, address, offset + 1, |vs|);
          return;
        }
        ds := ds + [definition.value];
        offset := offset + 1;
      }
    }

    /** All coerced values, or none when one value is refused. */
    method ValidateAll(ds: seq<Definition>, vs: seq<Raw>) returns (normalized: Option<seq<Raw>>)
      requires |ds| == |vs|
      ensures normalized == CoerceAll(ds, vs)
    {
      var values := [];
      var i := 0;
      assert ds[..0] == [] && vs[..0] == [];
      while i < |ds|
        invariant 0 <= i <= |ds| && CoerceAll(ds[..i], vs[..i]) == Some(values)
      {
        var coerced := CoerceWrite(ds[i], vs[i]);
        if coerced.Failure? {
          return None;
        }
        values := values + [coerced.value];
        assert ds[..i + 1][..i] == ds[..i] && vs[..i + 1][..i] == vs[..i];
        i := i + 1;
      }
      assert ds[..i] == ds && vs[..i] == vs;
      normalized := Some(values);
    }

    /** Write the values through the process until it refuses one. */
    method CommitAll(ds: seq<Definition>, vs: seq<Raw>) returns (ok: bool)
      requires Valid() && |ds| == |vs|
      modifies process
      ensures ok <==> StoreAll(process.config, old(process.Abs()), ds, vs).Success?
      ensures ok ==> StoreAll(process.config, old(process.Abs()), ds, vs) == Success(process.Abs())
      ensures !ok ==> StoreAll(process.config, old(process.Abs()), ds, vs) == Failure(process.Abs())
    {
      hide WetWellProcess.Abs;
      ghost var c, s := process.config, process.Abs();
      var i := 0;
      assert ds[..0] == [] && vs[..0] == [];
      while i < |ds|
        invariant 0 <= i <= |ds| && StoreAll(c, s, ds[..i], vs[..i]) == Success(process.Abs())
      {
        assert ds[..i + 1][..i] == ds[..i] && vs[..i + 1][..i] == vs[..i];
        ghost var reached := process.Abs();
        var written := process.WriteRaw(ds[i].key, vs[i]);
        if written.Failure? {
          assert StoreAll(c, s, ds[..i + 1], vs[..i + 1]) == Failure(reached);
          StoreStops(c, s, ds, vs, i + 1);
          return false;
        }
        i := i + 1;
      }
      assert ds[..i] == ds && vs[..i] == vs;
      return true;
    }

    /** The write half of the hook: resolve, validate, commit, mirror again, report. */
    method WriteRequest(
      functionCode: int, area: Area, start: int, address: int, cells: array<int>, vs: seq<Raw>)
      returns (exception: Option<ExcCode>)
      requires Valid()
      modifies this, process, cells
      ensures var o := WriteMany(process.config, old(process.Abs()), functionCode, area, address, vs);
        && process.Abs() == o.state
        && exception == o.exception
        && sequence == Numbered(sink, old(sequence), o.report)
        && delivered == old(delivered) + Sent(sink, old(sequence), o.report)
      ensures exception.Some? && exception != Some(ServerFailure) ==> process.Abs() == old(process.Abs())
      ensures cells[..] == if exception.Some? then old(cells[..])
        else SyncArea(process.config, process.Abs(), area, start, old(cells[..]))
    {
      hide Resolve, CoerceAll, StoreAll, SyncArea, Values, Snapshot, WetWellProcess.Abs;
      var c, before := process.config, process.Abs();
      var ds, refusal := ResolveWrite(functionCode, area, address, vs);
      if refusal.Some? {
        EmitEvent(refusal.value);
        return Some(IllegalAddress);
      }
      var normalized := ValidateAll(ds, vs);
      if normalized.None? {
        EmitEvent(Refused(functionCode, area, address, vs, KeysOf(ds), IllegalValue).value);
        return Some(IllegalValue);
      }
      var committed := CommitAll(ds, normalized.value);
      if !committed {
        return Some(ServerFailure);
      }
      var after := SyncWindow(area, start, cells);
      var keys := KeysOf(ds);
      EmitEvent(Report(functionCode, WriteOperation, Some(area), address, |normalized.value|, keys,
                       normalized, None, None, Some(Values(c, before, keys)), Some(Values(c, after, keys))));
      return None;
    }

    /** The read half of the hook: report the values the synchronised window serves. */
    method ReadRequest(functionCode: int, area: Area, address: int, count: nat)
      requires Valid()
      modifies this
      ensures var keys := KeysIn(process.config.registers, area, address, count);
              var report := Some(Report(
                functionCode, ReadOperation, Some(area), address, count, keys, None,
                Some(Values(process.config, process.Abs(), keys)), None, None, None));
        && sequence == Numbered(sink, old(sequence), report)
        && delivered == old(delivered) + Sent(sink, old(sequence), report)
    {
      hide KeysIn, Snapshot, WetWellProcess.Abs;
      var keys := CollectKeys(area, address, count);
      EmitEvent(Report(functionCode, ReadOperation, Some(area), address, count, keys, None,
                       Some(Values(process.config, process.Abs(), keys)), None, None, None));
    }

    /**
     * The datastore hook. The process moves as the request function says, the answer is its verdict,
     * the sink receives its report, and the window mirrors the process as it stands. With a working
     * sink the pair of process and delivered events takes exactly one step of the audited run.
     */
    method Action(
      functionCode: int, start: int, address: int, count: nat, cells: array<int>, setValues: Option<seq<Raw>>)
      returns (exception: Option<ExcCode>)
      requires Valid()
      modifies this, process, cells
      ensures var o := Act(process.config, old(process.Abs()), functionCode, address, count, setValues);
        && process.Abs() == o.state
        && exception == o.exception
        && sequence == Numbered(sink, old(sequence), o.report)
        && delivered == old(delivered) + Sent(sink, old(sequence), o.report)
      ensures sink == Working && old(sequence) == |old(delivered)| ==>
        && sequence == |delivered|
        && Served(process.Abs(), delivered) ==
             Step(process.config, old(Served(process.Abs(), delivered)), Ask(functionCode, address, count, setValues))
      ensures var mirrored := if exception == Some(ServerFailure) then old(process.Abs()) else process.Abs();
        && (functionCode in {1, 5, 15} ==>
              cells[..] == SyncArea(process.config, mirrored, Coil, start, old(cells[..])))
        && (functionCode == 2 ==>
              cells[..] == SyncArea(process.config, mirrored, DiscreteInput, start, old(cells[..])))
        && (functionCode in {3, 6, 16} ==>
              cells[..] == SyncArea(process.config, mirrored, HoldingRegister, start, old(cells[..])))
        && (functionCode == 4 ==>
              cells[..] == SyncArea(process.config, mirrored, InputRegister, start, old(cells[..])))
        && (functionCode !in {1, 2, 3, 4, 5, 6, 15, 16} ==> cells[..] == old(cells[..]))
    {
      hide WriteMany, SyncArea, Values, KeysIn, Snapshot, WetWellProcess.Abs;
      var found := AreaOf(functionCode);
      if found.None? {
        EmitEvent(Report(functionCode, UnknownOperation, None, address, count, [], None, None,
                         Some(IllegalFunction), None, None));
        return Some(IllegalFunction);
      }
      var area := found.value;
      ghost var was, initial := cells[..], process.Abs();
      var _ := SyncWindow(area, start, cells);
      if IsWrite(functionCode) && setValues.None? {
        return None;
      }
      if !IsWrite(functionCode) {
        ReadRequest(functionCode, area, address, count);
        return None;
      }
      exception := WriteRequest(functionCode, area, start, address, cells, setValues.value);
      SyncOverrides(process.config, initial, process.Abs(), area, start, was);
    }
  }

  // ----- The loops' running values -----

  /** A cell after some definitions have been written over it in order. */
  function CellAfter(c: Config, s: State, ds: seq<Definition>, area: Area, address: int, was: int): int
    requires c.registers.Complete()
  {
    if ds == [] then was
    else
      var d := ds[|ds| - 1];
      if d.area == area && d.address == address then EncodeRegister(Snapshot(c, s, d.key))
      else CellAfter(c, s, ds[..|ds| - 1], area, address, was)
  }

  function BitAfter(c: Config, s: State, ds: seq<Definition>, area: Area, address: int, was: bool): bool
    requires c.registers.Complete()
  {
    if ds == [] then was
    else
      var d := ds[|ds| - 1];
      if d.area == area && d.address == address then Snapshot(c, s, d.key).Truth()
      else BitAfter(c, s, ds[..|ds| - 1], area, address, was)
  }

  lemma CellAfterNext(c: Config, s: State, ds: seq<Definition>, n: nat, area: Area, address: int, was: int)
    requires c.registers.Complete() && n < |ds|
    ensures CellAfter(c, s, ds[..n + 1], area, address, was) ==
      if ds[n].area == area && ds[n].address == address then EncodeRegister(Snapshot(c, s, ds[n].key))
      else CellAfter(c, s, ds[..n], area, address, was)
  {
    hide Snapshot, EncodeRegister;
    assert ds[..n + 1][..n] == ds[..n];
  }

  lemma BitAfterNext(c: Config, s: State, ds: seq<Definition>, n: nat, area: Area, address: int, was: bool)
    requires c.registers.Complete() && n < |ds|
    ensures BitAfter(c, s, ds[..n + 1], area, address, was) ==
      if ds[n].area == area && ds[n].address == address then Snapshot(c, s, ds[n].key).Truth()
      else BitAfter(c, s, ds[..n], area, address, was)
  {
    hide Snapshot;
    assert ds[..n + 1][..n] == ds[..n];
  }

  lemma {:induction false} CellAfterIs(c: Config, s: State, ds: seq<Definition>, area: Area, address: int, was: int)
    requires c.registers.Complete() && c.registers.WellFormed()
    requires forall d :: d in ds ==> d in c.registers.definitions
    ensures CellAfter(c, s, ds, area, address, was) ==
      if exists d :: d in ds && d.area == area && d.address == address
      then SyncedCell(c, s, area, address, was) else was
  {
    if ds != [] {
      hide Snapshot, EncodeRegister;
      var front, last := ds[..|ds| - 1], ds[|ds| - 1];
      assert ds == front + [last];
      CellAfterIs(c, s, front, area, address, was);
      MappedIsAt(c.registers, area, address);
    }
  }

  lemma {:induction false} BitAfterIs(c: Config, s: State, ds: seq<Definition>, area: Area, address: int, was: bool)
    requires c.registers.Complete() && c.registers.WellFormed()
    requires forall d :: d in ds ==> d in c.registers.definitions
    ensures BitAfter(c, s, ds, area, address, was) ==
      if exists d :: d in ds && d.area == area && d.address == address
      then SyncedBit(c, s, area, address, was) else was
  {
    if ds != [] {
      hide Snapshot;
      var front, last := ds[..|ds| - 1], ds[|ds| - 1];
      assert ds == front + [last];
      BitAfterIs(c, s, front, area, address, was);
      MappedIsAt(c.registers, area, address);
    }
  }

  lemma CellAfterAll(c: Config, s: State, area: Area, address: int, was: int)
    requires c.registers.Complete() && c.registers.WellFormed()
    ensures CellAfter(c, s, c.registers.definitions, area, address, was) == SyncedCell(c, s, area, address, was)
  {
    CellAfterIs(c, s, c.registers.definitions, area, address, was);
    MappedIsAt(c.registers, area, address);
    hide Snapshot, CellAfter, EncodeRegister, RegisterMap.WellFormed;
  }

  lemma BitAfterAll(c: Config, s: State, area: Area, address: int, was: bool)
    requires c.registers.Complete() && c.registers.WellFormed()
    ensures BitAfter(c, s, c.registers.definitions, area, address, was) == SyncedBit(c, s, area, address, was)
  {
    BitAfterIs(c, s, c.registers.definitions, area, address, was);
    MappedIsAt(c.registers, area, address);
    hide Snapshot, BitAfter, RegisterMap.WellFormed;
  }

  lemma ResolveNext(m: RegisterMap, area: Area, address: int, n: nat)
    requires Resolve(m, area, address, n).Success?
    ensures var known := Resolve(m, area, address, n).value;
      Resolve(m, area, address, n + 1) == match m.At(area, address + n)
        case None => Failure(Undefined(KeysOf(known)))
        case Some(d) => if d.writable then Success(known + [d]) else Failure(NotWritable(d.key))
  {
    hide RegisterMap.At;
  }

  /** The first obstacle decides, however many addresses follow it. */
  lemma {:induction false} ResolveStops(m: RegisterMap, area: Area, address: int, n: nat, count: nat)
    requires n <= count && Resolve(m, area, address, n).Failure?
    ensures Resolve(m, area, address, count) == Resolve(m, area, address, n)
  {
    if n < count {
      ResolveStops(m, area, address, n, count - 1);
    }
  }
}
