/** A manifest that declares an unhandled key writable loses all-or-nothing writes. */
module UnhandledWritable {
  import opened Wrappers
  import opened RegisterMaps
  import opened WetWell
  import opened Protocol
  import opened AtomicWrites
  import opened ShippedProfile
  import opened ReachableRange
  import opened RequestRuns

  /** The high-alarm limit, next to the pump speed, declared writable. */
  const WRITABLE_LIMIT: Definition :=
    Definition(HighAlarmLimit, HoldingRegister, 44, UInt16, 6000, 9500, 8200, true, true)

  function Widened(m: RegisterMap): RegisterMap {
    RegisterMap(
      seq(|m.definitions|, i requires 0 <= i < |m.definitions| =>
        if m.definitions[i].key == HighAlarmLimit then WRITABLE_LIMIT else m.definitions[i]),
      m.byKey[HighAlarmLimit := WRITABLE_LIMIT],
      m.byLocation[(HoldingRegister, 44) := WRITABLE_LIMIT])
  }

  lemma WidenedKeepsPlaces(m: RegisterMap, i: nat)
    requires m.WellFormed() && Entry(HighAlarmLimit) in m.definitions && i < |m.definitions|
    ensures var d, w := m.definitions[i], Widened(m).definitions[i];
      && w.key == d.key && w.area == d.area && w.address == d.address
      && (w == d || w == WRITABLE_LIMIT)
      && (d.key == HighAlarmLimit <==> (d.area, d.address) == (HoldingRegister, 44))
  {
    hide RegisterMap.WellFormed;
    ListedIsLocated(m, m.definitions[i]);
    ListedIsLocated(m, Entry(HighAlarmLimit));
  }

  lemma WidenedDefinition(m: RegisterMap, d: Definition)
    requires m.WellFormed() && Entry(HighAlarmLimit) in m.definitions
    ensures d in Widened(m).definitions <==>
      d == WRITABLE_LIMIT || (d in m.definitions && d.key != HighAlarmLimit)
  {
    hide RegisterMap.WellFormed;
    var ds, w := m.definitions, Widened(m).definitions;
    var limit :| 0 <= limit < |ds| && ds[limit] == Entry(HighAlarmLimit);
    assert w[limit] == WRITABLE_LIMIT;
    if i :| 0 <= i < |ds| && ds[i] == d && d.key != HighAlarmLimit {
      assert w[i] == d;
    }
    if i :| 0 <= i < |w| && w[i] == d && d != WRITABLE_LIMIT {
      assert ds[i] == d;
    }
  }

  lemma WidenedDistinct(m: RegisterMap)
    requires m.WellFormed() && Entry(HighAlarmLimit) in m.definitions
    ensures DistinctEntries(Widened(m).definitions)
  {
    hide Widened;
    assert DistinctEntries(m.definitions);
    var w, ds := Widened(m).definitions, m.definitions;
    WidenedLength(m);
    forall i | 0 <= i < |w|
      ensures w[i].key == ds[i].key && w[i].area == ds[i].area && w[i].address == ds[i].address
    {
      WidenedKeepsPlaces(m, i);
    }
    hide RegisterMap.WellFormed;
  }

  lemma WidenedLength(m: RegisterMap)
    ensures |Widened(m).definitions| == |m.definitions|
  {
  }

  lemma WidenedPlaces(m: RegisterMap, d: Definition)
    requires m.WellFormed() && Entry(HighAlarmLimit) in m.definitions && d in m.definitions
    ensures d.key == HighAlarmLimit <==> (d.area, d.address) == (HoldingRegister, 44)
  {
    hide RegisterMap.WellFormed, Widened;
    var i :| 0 <= i < |m.definitions| && m.definitions[i] == d;
    WidenedKeepsPlaces(m, i);
  }

  lemma WidenedWellFormed(m: RegisterMap)
    requires m.WellFormed() && Entry(HighAlarmLimit) in m.definitions
    ensures Widened(m).WellFormed()
  {
    hide DistinctEntries;
    WidenedDistinct(m);
    var w := Widened(m);
    forall d
      ensures d in w.definitions <==> d == WRITABLE_LIMIT || (d in m.definitions && d.key != HighAlarmLimit)
      ensures d in m.definitions ==> (d.key == HighAlarmLimit <==> (d.area, d.address) == (HoldingRegister, 44))
    {
      WidenedDefinition(m, d);
      if d in m.definitions { WidenedPlaces(m, d); }
    }
  }

  function WidenedProfile(): (c: Config)
    ensures c.registers.Complete() && c.capacityLiters > 0.0
  {
    Shipped().(registers := Widened(ShippedRegisters()))
  }

  lemma WidenedFacts()
    ensures WidenedProfile().registers.WellFormed()
    ensures WidenedProfile().registers.At(HoldingRegister, 43) == Some(Entry(PumpSpeedSetpoint))
    ensures WidenedProfile().registers.At(HoldingRegister, 44) == Some(WRITABLE_LIMIT)
    ensures WidenedProfile().Reg(PumpSpeedSetpoint) == Entry(PumpSpeedSetpoint)
    ensures Reset(WidenedProfile()).controls.pumpSpeed == 6800
  {
    ShippedListed(HighAlarmLimit);
    ShippedListed(PumpSpeedSetpoint);
    ShippedServiced();
    ShippedEntries();
    hide ShippedRegisters, RegisterMap.WellFormed;
    WidenedWellFormed(ShippedRegisters());
    assert ShippedRegisters().byLocation[(HoldingRegister, 43)] == Entry(PumpSpeedSetpoint) by {
      ListedIsLocated(ShippedRegisters(), Entry(PumpSpeedSetpoint));
    }
  }

  lemma ListedIsLocated(m: RegisterMap, d: Definition)
    requires m.WellFormed() && d in m.definitions
    ensures (d.area, d.address) in m.byLocation && m.byLocation[(d.area, d.address)] == d
    ensures d.key in m.byKey && m.byKey[d.key] == d
  {
  }

  /**
   * Writing 7000 and 8200 from address 43 is then answered with a server failure although the pump
   * speed has already moved from 6800 to 7000.
   */
  lemma WidenedLosesAtomicity()
    ensures var c := WidenedProfile();
      var o := Act(c, Reset(c), 16, 43, 2, Some([IntRaw(7000), IntRaw(8200)]));
      && o.exception == Some(ServerFailure)
      && Reset(c).controls.pumpSpeed == 6800
      && o.state.controls.pumpSpeed == 7000
  {
    WidenedFacts();
    hide WidenedProfile, Act, RegisterMap.WellFormed, RegisterMap.Complete, Reset;
    var c, vs := WidenedProfile(), [IntRaw(7000), IntRaw(8200)];
    assert Slot(c.registers, HoldingRegister, 43, 0) == Some(Entry(PumpSpeedSetpoint));
    assert Slot(c.registers, HoldingRegister, 43, 1) == Some(WRITABLE_LIMIT);
    assert forall i :: 0 <= i < 2 ==> WritableSlot(c.registers, HoldingRegister, 43, i);
    assert forall i :: 0 <= i < 2 ==> AcceptsAt(c.registers, HoldingRegister, 43, vs, i);
    assert !ServicedAt(c.registers, HoldingRegister, 43, 1);
    PartialWriteWithoutHandler(c, Reset(c), 16, 43, 2, vs);
  }
}
