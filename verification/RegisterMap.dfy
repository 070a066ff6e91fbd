/** The register manifest: keys, locations and lookups. */
module RegisterMaps {
  import opened Wrappers

  /** The semantic keys the process model snapshots, in manifest order. */
  datatype Key =
    | TankLevelPv | InletFlowPv | OutletFlowPv | PumpCurrentPv | ProcessTemperaturePv
    | LevelSetpoint | HighAlarmLimit | LowAlarmLimit | PumpStartCount | ControlMode
    | PumpSpeedSetpoint | FirmwareMajorMinor
    | PumpCommand | InletValveCommand | AlarmAcknowledge
    | PumpFeedback | InletValveFeedback | HighLevelAlarm | LowLevelAlarm | PumpFault
    | AutoControlActive

  datatype Area = Coil | DiscreteInput | HoldingRegister | InputRegister

  datatype DataType = Bool | UInt16 | Int16 | Enum16

  /** A raw register value: the source keeps integers and booleans apart. */
  datatype Raw = IntRaw(n: int) | BoolRaw(b: bool) {
    function AsInt(): int {
      match this
      case IntRaw(n) => n
      case BoolRaw(b) => if b then 1 else 0
    }

    /** Truth of the value, as a condition sees it. */
    function Truth(): bool { AsInt() != 0 }
  }

  datatype Definition = Definition(
    key: Key,
    area: Area,
    address: int,
    dataType: DataType,
    minimum: int,
    maximum: int,
    default: int,
    writable: bool,
    hasWriteEffect: bool)

  /** The manifest in its checked-in order, with the two lookup indexes built from it. */
  datatype RegisterMap = RegisterMap(
    definitions: seq<Definition>,
    byKey: map<Key, Definition>,
    byLocation: map<(Area, int), Definition>)
  {
    /** Every key the process snapshots has a definition. */
    ghost predicate Complete() { forall k: Key :: k in byKey }

    /** The definition at a location, if there is one. */
    function At(area: Area, address: int): Option<Definition> {
      if (area, address) in byLocation then Some(byLocation[(area, address)]) else None
    }

    /** Both indexes hold exactly the listed definitions, each under its own key and location. */
    ghost predicate WellFormed() {
      && DistinctEntries(definitions)
      && (forall d :: d in definitions ==> d.key in byKey && byKey[d.key] == d)
      && (forall k :: k in byKey ==> byKey[k] in definitions && byKey[k].key == k)
      && (forall d :: d in definitions ==>
            (d.area, d.address) in byLocation && byLocation[(d.area, d.address)] == d)
      && (forall l :: l in byLocation ==>
            byLocation[l] in definitions && byLocation[l].area == l.0 && byLocation[l].address == l.1)
    }
  }

  predicate DistinctEntries(ds: seq<Definition>) {
    forall i, j :: 0 <= i < j < |ds| ==>
      ds[i].key != ds[j].key && (ds[i].area != ds[j].area || ds[i].address != ds[j].address)
  }

  /** Later entries win, as they do when a dictionary is filled in order. */
  function IndexByKey(ds: seq<Definition>): map<Key, Definition> {
    if ds == [] then map[]
    else var d := ds[|ds| - 1]; IndexByKey(ds[..|ds| - 1])[d.key := d]
  }

  function IndexByLocation(ds: seq<Definition>): map<(Area, int), Definition> {
    if ds == [] then map[]
    else var d := ds[|ds| - 1]; IndexByLocation(ds[..|ds| - 1])[(d.area, d.address) := d]
  }

  /** Index a manifest, refusing duplicate keys or locations. */
  function Load(ds: seq<Definition>): Option<RegisterMap> {
    if DistinctEntries(ds) then Some(RegisterMap(ds, IndexByKey(ds), IndexByLocation(ds))) else None
  }

  /** A manifest without duplicates loads into faithful indexes. */
  lemma LoadIsFaithful(ds: seq<Definition>)
    requires DistinctEntries(ds)
    ensures Load(ds).Some? && Load(ds).value.WellFormed()
  {
    IndexedByKey(ds);
    IndexedByLocation(ds);
  }

  lemma {:induction false} IndexedByKey(ds: seq<Definition>)
    requires DistinctEntries(ds)
    ensures forall k :: k in IndexByKey(ds) ==> IndexByKey(ds)[k] in ds && IndexByKey(ds)[k].key == k
    ensures forall d :: d in ds ==> d.key in IndexByKey(ds) && IndexByKey(ds)[d.key] == d
  {
    if ds != [] {
      var front, last := ds[..|ds| - 1], ds[|ds| - 1];
      IndexedByKey(front);
      assert ds == front + [last];
      forall d | d in front ensures d.key != last.key {
        var i :| 0 <= i < |front| && ds[i] == d;
      }
    }
  }

  lemma {:induction false} IndexedByLocation(ds: seq<Definition>)
    requires DistinctEntries(ds)
    ensures forall l :: l in IndexByLocation(ds) ==>
      && IndexByLocation(ds)[l] in ds
      && IndexByLocation(ds)[l].area == l.0 && IndexByLocation(ds)[l].address == l.1
    ensures forall d :: d in ds ==>
      (d.area, d.address) in IndexByLocation(ds) && IndexByLocation(ds)[(d.area, d.address)] == d
  {
    if ds != [] {
      var front, last := ds[..|ds| - 1], ds[|ds| - 1];
      IndexedByLocation(front);
      assert ds == front + [last];
      forall d | d in front ensures (d.area, d.address) != (last.area, last.address) {
        var i :| 0 <= i < |front| && ds[i] == d;
      }
    }
  }
}
