/** Every value the shipped profile can reach lies in its declared range and survives its encoding. */
module ReachableRange {
  import opened Numbers
  import opened RegisterMaps
  import opened WetWell
  import opened WetWellRuns
  import opened ShippedProfile
  import opened Mirror
  import opened AtomicWrites
  import opened AuditLog
  import opened RequestRuns

  predicate Within(d: Definition, v: Raw) {
    d.minimum <= v.AsInt() <= d.maximum && (v.BoolRaw? <==> d.dataType == Bool)
  }

  /** The controls and readings a snapshot shows, each within its manifest entry. */
  ghost predicate InRange(s: State) {
    && 3000 <= s.controls.levelSetpoint <= 8000
    && 0 <= s.controls.controlMode <= 1
    && 2000 <= s.controls.pumpSpeed <= 10_000
    && !s.controls.alarmAcknowledge
    && 0 <= s.pumpStarts <= 65_535
    && 0.0 <= s.level <= 10_000.0
    && 0 <= s.readings.inletFlow <= 5000
    && 0 <= s.readings.outletFlow <= 5000
    && 0 <= s.readings.pumpCurrent <= 2500
    && 2130 <= s.readings.temperature <= 2140
  }

  /** The range of the state is the range of every register. */
  lemma RangeOfRegisters(s: State, k: Key)
    requires InRange(s)
    ensures Within(Entry(k), Snapshot(Shipped(), s, k))
  {
    ShippedEntries();
    RoundBetween(s.level, 0, 10_000);
    hide ShippedRegisters, RegisterMap.Complete, RoundHalfEven;
  }

  lemma ResetInRange()
    ensures InRange(Reset(Shipped()))
  {
    ShippedEntries();
    hide ShippedRegisters, RegisterMap.Complete;
  }

  lemma WriteInRange(s: State, k: Key, v: Raw)
    requires InRange(s)
    ensures InRange(Write(Shipped(), s, k, v))
  {
    ShippedEntries();
    hide ShippedRegisters, RegisterMap.Complete, CoerceWrite;
  }

  lemma ReadingsInRange(s: State, elapsed: real)
    requires 0 <= s.controls.pumpSpeed <= 10_000
    ensures var r := Derive(Shipped(), s, elapsed);
      && 0 <= r.inletFlow <= 5000 && 0 <= r.outletFlow <= 5000
      && 0 <= r.pumpCurrent <= 2500 && 2130 <= r.temperature <= 2140
  {
    ShippedEntries();
    var c := Shipped();
    PumpFlowBounds(c, s);
    SpeedFractionBounds(s);
    hide SpeedFraction, PumpFlow, RoundHalfEven, ShippedRegisters, RegisterMap.Complete;
    RoundBetween(InletRate(c, s) * 100.0, 0, 5000);
    RoundBetween(OutletRate(c, s) * 100.0, 0, 5000);
    RoundBetween(300.0 + 1_200.0 * SpeedFraction(s), 0, 2500);
  }

  lemma AdvanceInRange(s: State, seconds: real)
    requires InRange(s)
    ensures InRange(Advance(Shipped(), s, seconds))
  {
    var c := Shipped();
    hide Derive, Shipped, LevelDelta, DesiredPumpState, Travel, Request, IsHigh, IsLow, InletRate, OutletRate;
    ReadingsInRange(Actuate(c, s, seconds), s.elapsed + seconds);
  }

  lemma {:induction false} RunInRange(ops: seq<Op>)
    ensures InRange(Run(Shipped(), Reset(Shipped()), ops))
  {
    hide InRange, Reset, Advance, Write, Shipped;
    if ops == [] {
      ResetInRange();
    } else {
      var s, op := Run(Shipped(), Reset(Shipped()), ops[..|ops| - 1]), ops[|ops| - 1];
      RunInRange(ops[..|ops| - 1]);
      match op
      case Tick(seconds) => AdvanceInRange(s, seconds);
      case WriteOp(k, v) => WriteInRange(s, k, v);
    }
  }

  lemma EntryFits(k: Key, v: Raw)
    requires Within(Entry(k), v)
    ensures Fits(Entry(k).dataType, v)
  {
  }

  /**
   * After every run of ticks and writes every register of the shipped profile lies between its declared
   * minimum and maximum, and its sixteen-bit encoding decodes to the same value.
   */
  lemma ReachableValues(ops: seq<Op>, k: Key)
    ensures var v := Snapshot(Shipped(), Run(Shipped(), Reset(Shipped()), ops), k);
      && Entry(k).minimum <= v.AsInt() <= Entry(k).maximum
      && DecodeRegister(Entry(k).dataType, EncodeRegister(v)) == v
  {
    hide *;
    var s := Run(Shipped(), Reset(Shipped()), ops);
    RunInRange(ops);
    RangeOfRegisters(s, k);
    WithinRange(k, s);
  }

  lemma WithinRange(k: Key, s: State)
    requires Within(Entry(k), Snapshot(Shipped(), s, k))
    ensures var v := Snapshot(Shipped(), s, k);
      && Entry(k).minimum <= v.AsInt() <= Entry(k).maximum
      && DecodeRegister(Entry(k).dataType, EncodeRegister(v)) == v
  {
    hide Snapshot;
    EntryFits(k, Snapshot(Shipped(), s, k));
    LosslessExactlyWhenFitting(Entry(k).dataType, Snapshot(Shipped(), s, k));
    hide Entry, Fits;
  }

  lemma ShippedServiced()
    ensures Shipped().registers.WellFormed() && AllServiced(Shipped().registers)
  {
    hide Entries, Entry, RegisterMap.WellFormed;
    ShippedWellFormed();
    forall d | d in Shipped().registers.definitions && d.writable ensures Serviced(d) {
      var i :| 0 <= i < |SHIPPED_DEFINITIONS| && SHIPPED_DEFINITIONS[i] == d;
      assert d == Entry(MANIFEST_ORDER[i]);
      EntryFacts(MANIFEST_ORDER[i]);
    }
  }

  /**
   * In every client session of the shipped profile, a synchronised register window decodes, cell by cell
   * and by each register's data type, to the live process values.
   */
  lemma SessionWindowDecodes(calls: seq<Call>, area: Area, start: int, cells: seq<int>, i: nat, k: Key)
    requires !BitArea(area) && i < |cells|
    requires Entry(k).area == area && Entry(k).address == start + i
    ensures var c := Shipped();
      var s := Serve(c, calls).process;
      DecodeRegister(Entry(k).dataType, SyncArea(c, s, area, start, cells)[i]) == Snapshot(c, s, k)
  {
    hide *;
    var c := Shipped();
    var s := Serve(c, calls).process;
    ShippedServiced();
    ServeIsRun(c, calls);
    RunInRange(SessionOps(c, calls));
    RangeOfRegisters(s, k);
    EntryFits(k, Snapshot(c, s, k));
    ShippedListed(k);
    CellCoherent(c, s, area, start, cells, i);
  }

  lemma ShippedListed(k: Key)
    ensures Entry(k).key == k && Entry(k) in Shipped().registers.definitions
  {
    hide Entries, RegisterMap.WellFormed;
    ShippedWellFormed();
    ShippedOrder(k);
    EntryFacts(k);
    assert SHIPPED_DEFINITIONS[Ordinal(k)] == Entry(k);
  }
}
