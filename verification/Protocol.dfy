/** What one protocol request does to the process, answers, and reports. */
module Protocol {
  import opened Wrappers
  import opened RegisterMaps
  import opened WetWell

  datatype ExcCode = IllegalFunction | IllegalAddress | IllegalValue | ServerFailure

  datatype Operation = ReadOperation | WriteOperation | UnknownOperation

  /** An audit event without its sequence number. */
  datatype Report = Report(
    functionCode: int,
    operation: Operation,
    area: Option<Area>,
    address: int,
    count: int,
    keys: seq<Key>,
    requested: Option<seq<Raw>>,
    response: Option<map<Key, Raw>>,
    exception: Option<ExcCode>,
    before: Option<map<Key, Raw>>,
    after: Option<map<Key, Raw>>)

  /** The process state left, the exception answered if any, and the event reported if any. */
  datatype Outcome = Outcome(state: State, exception: Option<ExcCode>, report: Option<Report>)

  function AreaOf(functionCode: int): Option<Area> {
    if functionCode == 1 || functionCode == 5 || functionCode == 15 then Some(Coil)
    else if functionCode == 2 then Some(DiscreteInput)
    else if functionCode == 3 || functionCode == 6 || functionCode == 16 then Some(HoldingRegister)
    else if functionCode == 4 then Some(InputRegister)
    else None
  }

  predicate IsWrite(functionCode: int) { functionCode in {5, 6, 15, 16} }

  function KeysOf(ds: seq<Definition>): (ks: seq<Key>)
    ensures |ks| == |ds| && forall i :: 0 <= i < |ds| ==> ks[i] == ds[i].key
  {
    seq(|ds|, i requires 0 <= i < |ds| => ds[i].key)
  }

  /** The snapshot restricted to some keys. */
  function Values(c: Config, s: State, ks: seq<Key>): map<Key, Raw>
    requires c.registers.Complete()
  {
    map k | k in ks :: Snapshot(c, s, k)
  }

  /** The mapped keys of a window, in address order. */
  function KeysIn(m: RegisterMap, area: Area, address: int, count: nat): seq<Key> {
    if count == 0 then []
    else
      var front := KeysIn(m, area, address, count - 1);
      match m.At(area, address + count - 1)
      case None => front
      case Some(d) => front + [d.key]
  }

  /** The definition `i` places into a window. */
  function Slot(m: RegisterMap, area: Area, address: int, i: int): Option<Definition> { m.At(area, address + i) }

  predicate WritableSlot(m: RegisterMap, area: Area, address: int, i: int) {
    Slot(m, area, address, i).Some? && Slot(m, area, address, i).value.writable
  }

  /** The first address a write may not touch. */
  datatype Obstacle = Undefined(known: seq<Key>) | NotWritable(key: Key)

  function Resolve(m: RegisterMap, area: Area, address: int, count: nat): (r: Result<seq<Definition>, Obstacle>)
    ensures r.Success? <==> forall i :: 0 <= i < count ==> WritableSlot(m, area, address, i)
    ensures r.Success? ==> |r.value| == count && forall i :: 0 <= i < count ==>
      Slot(m, area, address, i) == Some(r.value[i])
  {
    if count == 0 then Success([])
    else
      var front := Resolve(m, area, address, count - 1);
      if front.Failure? then front
      else
        assert WritableSlot(m, area, address, count - 1) <==>
          Slot(m, area, address, count - 1).Some? && Slot(m, area, address, count - 1).value.writable;
        match Slot(m, area, address, count - 1)
        case None => Failure(Undefined(KeysOf(front.value)))
        case Some(d) => if d.writable then Success(front.value + [d]) else Failure(NotWritable(d.key))
  }

  function CoerceAll(ds: seq<Definition>, vs: seq<Raw>): (r: Option<seq<Raw>>)
    requires |ds| == |vs|
    ensures r.Some? ==> |r.value| == |ds| && forall i :: 0 <= i < |ds| ==>
      CoerceWrite(ds[i], vs[i]) == Success(r.value[i])
    ensures r.None? <==> exists i :: 0 <= i < |ds| && CoerceWrite(ds[i], vs[i]).Failure?
  {
    if ds == [] then Some([])
    else
      var n := |ds| - 1;
      var front := CoerceAll(ds[..n], vs[..n]);
      var last := CoerceWrite(ds[n], vs[n]);
      if front.None? || last.Failure? then None else Some(front.value + [last.value])
  }

  /** Write the values one by one, stopping where the process refuses; either way the state reached. */
  function StoreAll(c: Config, s: State, ds: seq<Definition>, vs: seq<Raw>): Result<State, State>
    requires |ds| == |vs| && c.registers.Complete()
  {
    if ds == [] then Success(s)
    else
      var n := |ds| - 1;
      var front := StoreAll(c, s, ds[..n], vs[..n]);
      if front.Failure? then front
      else if WriteRefusal(c, ds[n].key, vs[n]).Some? then Failure(front.value)
      else Success(Write(c, front.value, ds[n].key, vs[n]))
  }

  function Refused(
    functionCode: int, area: Area, address: int, vs: seq<Raw>, keys: seq<Key>, code: ExcCode): Option<Report>
  {
    Some(Report(functionCode, WriteOperation, Some(area), address, |vs|, keys, Some(vs), None, Some(code), None, None))
  }

  /** How a write to an address it may not touch is reported: what was resolved before it, or the read-only key. */
  function ObstacleReport(functionCode: int, area: Area, address: int, vs: seq<Raw>, o: Obstacle): Option<Report> {
    var keys := match o case Undefined(known) => known case NotWritable(key) => [key];
    Refused(functionCode, area, address, vs, keys, IllegalAddress)
  }

  function WriteMany(c: Config, s: State, functionCode: int, area: Area, address: int, vs: seq<Raw>): Outcome
    requires c.registers.Complete()
  {
    match Resolve(c.registers, area, address, |vs|)
    case Failure(o) => Outcome(s, Some(IllegalAddress), ObstacleReport(functionCode, area, address, vs, o))
    case Success(ds) =>
      match CoerceAll(ds, vs)
      case None =>
        Outcome(s, Some(IllegalValue), Refused(functionCode, area, address, vs, KeysOf(ds), IllegalValue))
      case Some(normalized) =>
        match StoreAll(c, s, ds, normalized)
        case Failure(reached) => Outcome(reached, Some(ServerFailure), None)
        case Success(reached) =>
          Outcome(reached, None, Some(Report(
            functionCode, WriteOperation, Some(area), address, |vs|, KeysOf(ds), Some(normalized), None, None,
            Some(Values(c, s, KeysOf(ds))), Some(Values(c, reached, KeysOf(ds))))))
  }

  /** One request: an unknown function, a write's read-back, a read, or a write. */
  function Act(c: Config, s: State, functionCode: int, address: int, count: nat, values: Option<seq<Raw>>): Outcome
    requires c.registers.Complete()
  {
    match AreaOf(functionCode)
    case None =>
      Outcome(s, Some(IllegalFunction), Some(Report(
        functionCode, UnknownOperation, None, address, count, [], None, None, Some(IllegalFunction), None, None)))
    case Some(area) =>
      if IsWrite(functionCode) then
        match values
        case None => Outcome(s, None, None)
        case Some(vs) => WriteMany(c, s, functionCode, area, address, vs)
      else
        var keys := KeysIn(c.registers, area, address, count);
        Outcome(s, None, Some(Report(
          functionCode, ReadOperation, Some(area), address, count, keys, None, Some(Values(c, s, keys)),
          None, None, None)))
  }
}
