/** The community profile that ships with the repository. */
module ShippedProfile {
  import opened RegisterMaps
  import opened WetWell

  /** The manifest entry of each key. */
  function Entry(k: Key): Definition {
    match k
    case TankLevelPv =>
      Definition(TankLevelPv, InputRegister, 32, UInt16, 0, 10000, 4700, false, false)
    case InletFlowPv =>
      Definition(InletFlowPv, InputRegister, 33, UInt16, 0, 5000, 720, false, false)
    case OutletFlowPv =>
      Definition(OutletFlowPv, InputRegister, 34, UInt16, 0, 5000, 0, false, false)
    case PumpCurrentPv =>
      Definition(PumpCurrentPv, InputRegister, 30, UInt16, 0, 2500, 0, false, false)
    case ProcessTemperaturePv =>
      Definition(ProcessTemperaturePv, InputRegister, 31, Int16, -2000, 8000, 2130, false, false)
    case LevelSetpoint =>
      Definition(LevelSetpoint, HoldingRegister, 42, UInt16, 3000, 8000, 5100, true, true)
    case HighAlarmLimit =>
      Definition(HighAlarmLimit, HoldingRegister, 44, UInt16, 6000, 9500, 8200, false, false)
    case LowAlarmLimit =>
      Definition(LowAlarmLimit, HoldingRegister, 45, UInt16, 500, 4000, 1800, false, false)
    case PumpStartCount =>
      Definition(PumpStartCount, HoldingRegister, 46, UInt16, 0, 65535, 386, false, false)
    case ControlMode =>
      Definition(ControlMode, HoldingRegister, 41, Enum16, 0, 1, 1, true, true)
    case PumpSpeedSetpoint =>
      Definition(PumpSpeedSetpoint, HoldingRegister, 43, UInt16, 2000, 10000, 6800, true, true)
    case FirmwareMajorMinor =>
      Definition(FirmwareMajorMinor, HoldingRegister, 40, UInt16, 0, 65535, 103, false, false)
    case PumpCommand =>
      Definition(PumpCommand, Coil, 13, Bool, 0, 1, 0, true, true)
    case InletValveCommand =>
      Definition(InletValveCommand, Coil, 14, Bool, 0, 1, 1, true, true)
    case AlarmAcknowledge =>
      Definition(AlarmAcknowledge, Coil, 12, Bool, 0, 1, 0, true, true)
    case PumpFeedback =>
      Definition(PumpFeedback, DiscreteInput, 13, Bool, 0, 1, 0, false, false)
    case InletValveFeedback =>
      Definition(InletValveFeedback, DiscreteInput, 14, Bool, 0, 1, 1, false, false)
    case HighLevelAlarm =>
      Definition(HighLevelAlarm, DiscreteInput, 15, Bool, 0, 1, 0, false, false)
    case LowLevelAlarm =>
      Definition(LowLevelAlarm, DiscreteInput, 16, Bool, 0, 1, 0, false, false)
    case PumpFault =>
      Definition(PumpFault, DiscreteInput, 17, Bool, 0, 1, 0, false, false)
    case AutoControlActive =>
      Definition(AutoControlActive, DiscreteInput, 12, Bool, 0, 1, 1, false, false)
  }

  const MANIFEST_ORDER: seq<Key> := [
    TankLevelPv, InletFlowPv, OutletFlowPv, PumpCurrentPv, ProcessTemperaturePv,
    LevelSetpoint, HighAlarmLimit, LowAlarmLimit, PumpStartCount, ControlMode,
    PumpSpeedSetpoint, FirmwareMajorMinor, PumpCommand, InletValveCommand, AlarmAcknowledge,
    PumpFeedback, InletValveFeedback, HighLevelAlarm, LowLevelAlarm, PumpFault,
    AutoControlActive
  ]

  function Entries(ks: seq<Key>): (ds: seq<Definition>)
    ensures |ds| == |ks|
    ensures forall i :: 0 <= i < |ks| ==> ds[i] == Entry(ks[i])
  {
    if ks == [] then [] else Entries(ks[..|ks| - 1]) + [Entry(ks[|ks| - 1])]
  }

  const SHIPPED_DEFINITIONS: seq<Definition> := Entries(MANIFEST_ORDER)

  /** Where each key stands in the manifest. */
  function Ordinal(k: Key): nat {
    match k
    case TankLevelPv => 0 case InletFlowPv => 1 case OutletFlowPv => 2 case PumpCurrentPv => 3
    case ProcessTemperaturePv => 4 case LevelSetpoint => 5 case HighAlarmLimit => 6
    case LowAlarmLimit => 7 case PumpStartCount => 8 case ControlMode => 9
    case PumpSpeedSetpoint => 10 case FirmwareMajorMinor => 11 case PumpCommand => 12
    case InletValveCommand => 13 case AlarmAcknowledge => 14 case PumpFeedback => 15
    case InletValveFeedback => 16 case HighLevelAlarm => 17 case LowLevelAlarm => 18
    case PumpFault => 19 case AutoControlActive => 20
  }

  /** Where each location stands in the manifest; used only to tell locations apart. */
  function LocationOrdinal(area: Area, address: int): int {
    match area
    case InputRegister =>
      if address == 32 then 0 else if address == 33 then 1 else if address == 34 then 2
      else if address == 30 then 3 else 4
    case HoldingRegister =>
      if address == 42 then 5 else if address == 44 then 6 else if address == 45 then 7
      else if address == 46 then 8 else if address == 41 then 9 else if address == 43 then 10 else 11
    case Coil => if address == 13 then 12 else if address == 14 then 13 else 14
    case DiscreteInput =>
      if address == 12 then 20 else address + 2
  }

  lemma ShippedKey(i: int)
    requires 0 <= i < 21
    ensures |MANIFEST_ORDER| == 21 && Ordinal(MANIFEST_ORDER[i]) == i
  {
  }

  lemma ShippedOrder(k: Key)
    ensures Ordinal(k) < |MANIFEST_ORDER| && MANIFEST_ORDER[Ordinal(k)] == k
  {
  }

  lemma EntryFacts(k: Key)
    ensures Entry(k).key == k
    ensures LocationOrdinal(Entry(k).area, Entry(k).address) == Ordinal(k)
    ensures Entry(k).minimum <= Entry(k).default <= Entry(k).maximum
    ensures Entry(k).writable == Entry(k).hasWriteEffect == Handled(k)
    ensures Entry(k).dataType == Bool <==> Entry(k).area in {Coil, DiscreteInput}
  {
  }

  lemma ShippedDistinct()
    ensures DistinctEntries(SHIPPED_DEFINITIONS)
  {
    forall i, j | 0 <= i < j < |SHIPPED_DEFINITIONS|
      ensures SHIPPED_DEFINITIONS[i].key != SHIPPED_DEFINITIONS[j].key
      ensures SHIPPED_DEFINITIONS[i].area != SHIPPED_DEFINITIONS[j].area
        || SHIPPED_DEFINITIONS[i].address != SHIPPED_DEFINITIONS[j].address
    {
      ShippedKey(i);
      ShippedKey(j);
      EntryFacts(MANIFEST_ORDER[i]);
      EntryFacts(MANIFEST_ORDER[j]);
    }
  }

  /** Looking a key up in the loaded profile yields its manifest entry. */
  lemma LoadedEntry(k: Key)
    ensures Load(SHIPPED_DEFINITIONS).Some? && Load(SHIPPED_DEFINITIONS).value.WellFormed()
    ensures k in Load(SHIPPED_DEFINITIONS).value.byKey
    ensures Load(SHIPPED_DEFINITIONS).value.byKey[k] == Entry(k)
  {
    hide Entries, IndexByKey, IndexByLocation, DistinctEntries;
    ShippedDistinct();
    LoadIsFaithful(SHIPPED_DEFINITIONS);
    ShippedOrder(k);
    EntryFacts(k);
    assert SHIPPED_DEFINITIONS[Ordinal(k)] == Entry(k);
    assert Entry(k) in Load(SHIPPED_DEFINITIONS).value.definitions;
  }

  function ShippedRegisters(): (m: RegisterMap)
    ensures m.Complete()
  {
    ShippedDistinct();
    assert Load(SHIPPED_DEFINITIONS).value.Complete() by {
      forall k ensures k in Load(SHIPPED_DEFINITIONS).value.byKey { LoadedEntry(k); }
    }
    Load(SHIPPED_DEFINITIONS).value
  }

  function Shipped(): (c: Config)
    ensures c.registers.Complete() && c.capacityLiters > 0.0
  {
    Config(6500.0, 13.5, 7.2, 400, 1.5, ShippedRegisters())
  }

  lemma ShippedWellFormed()
    ensures Shipped().registers.WellFormed() && Shipped().registers.definitions == SHIPPED_DEFINITIONS
  {
    hide Entries, RegisterMap.WellFormed, IndexByKey, IndexByLocation;
    LoadedEntry(ControlMode);
  }

  lemma ShippedEntries()
    ensures forall k :: Shipped().Reg(k) == Entry(k)
  {
    hide Entry, Entries, Load, RegisterMap.WellFormed;
    forall k: Key ensures ShippedRegisters().byKey[k] == Entry(k) {
      LoadedEntry(k);
    }
  }

  /** The shipped profile meets every bound the process relies on. */
  lemma ShippedConfigValid()
    ensures ValidConfig(Shipped())
  {
    ShippedEntries();
    hide ShippedRegisters, RegisterMap.Complete;
  }
}
