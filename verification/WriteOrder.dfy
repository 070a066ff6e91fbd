/** A successful multi-write equals its single writes in any order. */
module WriteOrder {
  import opened Wrappers
  import opened RegisterMaps
  import opened WetWell
  import opened Protocol
  import opened AtomicWrites

  /** What a set of writes to distinct keys leaves, read off the final values alone. */
  function Overlay(s: State, m: map<Key, Raw>): State {
    var k := s.controls;
    var acknowledged := AlarmAcknowledge in m && m[AlarmAcknowledge].Truth();
    s.(controls := Controls(
         if LevelSetpoint in m then m[LevelSetpoint].AsInt() else k.levelSetpoint,
         if ControlMode in m then m[ControlMode].AsInt() else k.controlMode,
         if PumpSpeedSetpoint in m then m[PumpSpeedSetpoint].AsInt() else k.pumpSpeed,
         if PumpCommand in m then m[PumpCommand].Truth() else k.pumpCommand,
         if InletValveCommand in m then m[InletValveCommand].Truth() else k.valveCommand,
         if AlarmAcknowledge in m then false else k.alarmAcknowledge),
       high := if acknowledged then Acknowledge(s.high) else s.high,
       low := if acknowledged then Acknowledge(s.low) else s.low)
  }

  lemma StoreExtendsOverlay(s: State, m: map<Key, Raw>, k: Key, v: Raw)
    requires Handled(k) && k !in m
    ensures Store(Overlay(s, m), k, v) == Overlay(s, m[k := v])
  {
  }

  ghost predicate Ready(c: Config, ds: seq<Definition>, vs: seq<Raw>)
    requires c.registers.Complete()
  {
    && Validated(c, ds, vs)
    && (forall i :: 0 <= i < |ds| ==> Serviced(ds[i]))
    && (forall i, j :: 0 <= i < j < |ds| ==> ds[i].key != ds[j].key)
  }

  /** The values of some of the writes, by key. */
  function ByKeyOf(ds: seq<Definition>, vs: seq<Raw>, order: seq<nat>): map<Key, Raw>
    requires |ds| == |vs| && forall i :: 0 <= i < |order| ==> order[i] < |ds|
  {
    if order == [] then map[]
    else
      var last := order[|order| - 1];
      ByKeyOf(ds, vs, order[..|order| - 1])[ds[last].key := vs[last]]
  }

  ghost predicate NoRepeats(order: seq<nat>) { forall i, j :: 0 <= i < j < |order| ==> order[i] != order[j] }

  lemma {:induction false} ByKeyOfIs(c: Config, ds: seq<Definition>, vs: seq<Raw>, order: seq<nat>)
    requires c.registers.Complete() && Ready(c, ds, vs) && forall i :: 0 <= i < |order| ==> order[i] < |ds|
    ensures forall i :: 0 <= i < |ds| ==>
      (i in order <==> ds[i].key in ByKeyOf(ds, vs, order)) &&
      (i in order ==> ByKeyOf(ds, vs, order)[ds[i].key] == vs[i])
    ensures forall k :: k in ByKeyOf(ds, vs, order) ==> exists i :: 0 <= i < |ds| && ds[i].key == k
  {
    if order != [] {
      var front, last := order[..|order| - 1], order[|order| - 1];
      ByKeyOfIs(c, ds, vs, front);
      assert order == front + [last];
      forall i | 0 <= i < |ds| && i != last ensures ds[i].key != ds[last].key {
      }
    }
  }

  /** Writing in some order, through the process's own checks. */
  function StoreInOrder(c: Config, s: State, ds: seq<Definition>, vs: seq<Raw>, order: seq<nat>): State
    requires c.registers.Complete() && |ds| == |vs| && forall i :: 0 <= i < |order| ==> order[i] < |ds|
  {
    if order == [] then s
    else
      var last := order[|order| - 1];
      Write(c, StoreInOrder(c, s, ds, vs, order[..|order| - 1]), ds[last].key, vs[last])
  }

  lemma WriteReady(c: Config, s: State, ds: seq<Definition>, vs: seq<Raw>, i: nat)
    requires c.registers.Complete() && Ready(c, ds, vs) && i < |ds|
    ensures Handled(ds[i].key) && WriteRefusal(c, ds[i].key, vs[i]).None?
    ensures Write(c, s, ds[i].key, vs[i]) == Store(s, ds[i].key, vs[i])
  {
    RefusalOfValidated(c, ds[i], vs[i]);
    hide Store, CoerceWrite;
  }

  lemma {:induction false} StoreInOrderIsOverlay(
    c: Config, s: State, ds: seq<Definition>, vs: seq<Raw>, order: seq<nat>)
    requires c.registers.Complete() && Ready(c, ds, vs) && NoRepeats(order)
    requires forall i :: 0 <= i < |order| ==> order[i] < |ds|
    ensures StoreInOrder(c, s, ds, vs, order) == Overlay(s, ByKeyOf(ds, vs, order))
  {
    if order != [] {
      hide Store, Overlay, Write, Ready;
      var front, last := order[..|order| - 1], order[|order| - 1];
      StoreInOrderIsOverlay(c, s, ds, vs, front);
      WriteReady(c, StoreInOrder(c, s, ds, vs, front), ds, vs, last);
      ByKeyOfIs(c, ds, vs, front);
      assert last !in front;
      StoreExtendsOverlay(s, ByKeyOf(ds, vs, front), ds[last].key, vs[last]);
    } else {
      assert Overlay(s, map[]) == s;
    }
  }

  function Upto(n: nat): (order: seq<nat>)
    ensures |order| == n && forall i :: 0 <= i < n ==> order[i] == i
  {
    seq(n, i => i)
  }

  lemma {:induction false} StoreAllIsInOrder(c: Config, s: State, ds: seq<Definition>, vs: seq<Raw>, n: nat)
    requires c.registers.Complete() && Ready(c, ds, vs) && n <= |ds|
    ensures StoreAll(c, s, ds[..n], vs[..n]) == Success(StoreInOrder(c, s, ds, vs, Upto(n)))
  {
    if n > 0 {
      hide Write, Ready;
      StoreAllIsInOrder(c, s, ds, vs, n - 1);
      assert ds[..n][..n - 1] == ds[..n - 1] && vs[..n][..n - 1] == vs[..n - 1];
      assert Upto(n)[..n - 1] == Upto(n - 1);
      WriteReady(c, StoreInOrder(c, s, ds, vs, Upto(n - 1)), ds, vs, n - 1);
    }
  }

  /** The order lists every index of a window of `n` exactly once. */
  ghost predicate Permutes(order: seq<nat>, n: nat) {
    && NoRepeats(order)
    && (forall i :: 0 <= i < |order| ==> order[i] < n)
    && (forall i: nat :: i < n ==> i in order)
  }

  lemma AnyOrderSameValues(c: Config, ds: seq<Definition>, vs: seq<Raw>, one: seq<nat>, other: seq<nat>)
    requires c.registers.Complete() && Ready(c, ds, vs)
    requires Permutes(one, |ds|) && Permutes(other, |ds|)
    ensures ByKeyOf(ds, vs, one) == ByKeyOf(ds, vs, other)
  {
    ByKeyOfIs(c, ds, vs, one);
    ByKeyOfIs(c, ds, vs, other);
    var a, b := ByKeyOf(ds, vs, one), ByKeyOf(ds, vs, other);
    hide ByKeyOf, Ready, NoRepeats, RegisterMap.Complete;
    forall k ensures (k in a <==> k in b) && (k in a ==> a[k] == b[k]) {
      if k in a || k in b {
        var i: nat :| i < |ds| && ds[i].key == k;
        assert i in one && i in other;
      }
    }
  }

  lemma UptoPermutes(n: nat)
    ensures Permutes(Upto(n), n)
  {
    forall i: nat | i < n ensures i in Upto(n) { assert Upto(n)[i] == i; }
  }

  lemma AnyOrderSame(c: Config, s: State, ds: seq<Definition>, vs: seq<Raw>, order: seq<nat>)
    requires c.registers.Complete() && Ready(c, ds, vs) && Permutes(order, |ds|)
    ensures StoreAll(c, s, ds, vs) == Success(StoreInOrder(c, s, ds, vs, order))
  {
    var n := |ds|;
    assert |vs| == n && NoRepeats(order) && forall i :: 0 <= i < |order| ==> order[i] < n;
    hide Overlay, StoreAll, StoreInOrder, ByKeyOf, Ready, Permutes, NoRepeats;
    assert ds[..n] == ds && vs[..n] == vs;
    StoreAllIsInOrder(c, s, ds, vs, n);
    UptoPermutes(n);
    AnyOrderSameValues(c, ds, vs, Upto(n), order);
    assert NoRepeats(Upto(n)) by { UptoDistinct(n); }
    StoreInOrderIsOverlay(c, s, ds, vs, Upto(n));
    StoreInOrderIsOverlay(c, s, ds, vs, order);
  }

  lemma UptoDistinct(n: nat)
    ensures NoRepeats(Upto(n))
  {
  }

  /** The single-value write requests of a multi-write, sent in some order. */
  function Singles(
    c: Config, s: State, functionCode: int, address: int, vs: seq<Raw>, order: seq<nat>): State
    requires c.registers.Complete() && forall i :: 0 <= i < |order| ==> order[i] < |vs|
  {
    if order == [] then s
    else
      var last := order[|order| - 1];
      var before := Singles(c, s, functionCode, address, vs, order[..|order| - 1]);
      Act(c, before, functionCode, address + last, 1, Some([vs[last]])).state
  }

  /** A write of one value to a resolved slot stores exactly its coerced value. */
  lemma SingleWrite(
    c: Config, s: State, functionCode: int, area: Area, address: int, ds: seq<Definition>, vs: seq<Raw>,
    normalized: seq<Raw>, i: nat)
    requires c.registers.Complete() && IsWrite(functionCode) && AreaOf(functionCode) == Some(area)
    requires |ds| == |vs| == |normalized| && i < |ds| && Ready(c, ds, normalized)
    requires Slot(c.registers, area, address, i) == Some(ds[i])
    requires CoerceWrite(ds[i], vs[i]) == Success(normalized[i])
    ensures Act(c, s, functionCode, address + i, 1, Some([vs[i]])).state == Write(c, s, ds[i].key, normalized[i])
  {
    hide CoerceWrite, Write, Snapshot, WriteRefusal;
    var m, one, value, stored := c.registers, [ds[i]], [vs[i]], [normalized[i]];
    assert one[..0] == [] && value[..0] == [] && stored[..0] == [];
    assert Slot(m, area, address + i, 0) == Some(ds[i]);
    assert ds[i].writable;
    assert Resolve(m, area, address + i, 0) == Success([]);
    assert Resolve(m, area, address + i, |value|) == Success([] + one);
    assert CoerceAll(one[..0], value[..0]) == Some([]);
    assert CoerceAll(one, value) == Some([] + stored);
    assert [] + one == one && [] + stored == stored;
    WriteReady(c, s, ds, normalized, i);
    assert StoreAll(c, s, one[..0], stored[..0]) == Success(s);
    assert StoreAll(c, s, one, stored) == Success(Write(c, s, ds[i].key, normalized[i]));
  }

  lemma {:induction false} SinglesStoreInOrder(
    c: Config, s: State, functionCode: int, area: Area, address: int, ds: seq<Definition>, vs: seq<Raw>,
    normalized: seq<Raw>, order: seq<nat>)
    requires c.registers.Complete() && IsWrite(functionCode) && AreaOf(functionCode) == Some(area)
    requires |ds| == |vs| == |normalized| && Ready(c, ds, normalized)
    requires forall i :: 0 <= i < |ds| ==> Slot(c.registers, area, address, i) == Some(ds[i])
    requires forall i :: 0 <= i < |ds| ==> CoerceWrite(ds[i], vs[i]) == Success(normalized[i])
    requires forall i :: 0 <= i < |order| ==> order[i] < |vs|
    ensures Singles(c, s, functionCode, address, vs, order) == StoreInOrder(c, s, ds, normalized, order)
  {
    hide Act, Write, CoerceWrite, Ready, Slot;
    if order != [] {
      var front, last := order[..|order| - 1], order[|order| - 1];
      SinglesStoreInOrder(c, s, functionCode, area, address, ds, vs, normalized, front);
      SingleWrite(c, StoreInOrder(c, s, ds, normalized, front), functionCode, area, address, ds, vs, normalized, last);
    }
  }

  lemma ResolvedAreDistinct(c: Config, area: Area, address: int, vs: seq<Raw>)
    requires c.registers.Complete() && c.registers.WellFormed()
    requires Resolve(c.registers, area, address, |vs|).Success?
    requires CoerceAll(Resolve(c.registers, area, address, |vs|).value, vs).Some?
    ensures var ds := Resolve(c.registers, area, address, |vs|).value;
      forall i, j :: 0 <= i < j < |ds| ==> ds[i].key != ds[j].key
  {
    hide Resolve, CoerceAll, CoerceWrite;
    ResolvedIsValidated(c, area, address, vs);
    var ds := Resolve(c.registers, area, address, |vs|).value;
    forall i | 0 <= i < |ds| ensures ds[i].address == address + i {
      assert Slot(c.registers, area, address, i) == Some(ds[i]);
      assert ds[i] in c.registers.definitions;
    }
    forall i, j | 0 <= i < j < |ds| ensures ds[i].key != ds[j].key {
      assert ds[i].address != ds[j].address;
      assert c.Reg(ds[i].key) == ds[i] && c.Reg(ds[j].key) == ds[j];
    }
  }

  lemma ResolvedIsReady(c: Config, area: Area, address: int, vs: seq<Raw>)
    requires c.registers.Complete() && c.registers.WellFormed() && AllServiced(c.registers)
    requires Resolve(c.registers, area, address, |vs|).Success?
    requires CoerceAll(Resolve(c.registers, area, address, |vs|).value, vs).Some?
    ensures var ds := Resolve(c.registers, area, address, |vs|).value;
      Ready(c, ds, CoerceAll(ds, vs).value)
  {
    hide Resolve, CoerceAll, CoerceWrite, Serviced;
    ResolvedIsValidated(c, area, address, vs);
    ResolvedAreDistinct(c, area, address, vs);
    var ds := Resolve(c.registers, area, address, |vs|).value;
    forall i | 0 <= i < |ds| ensures Serviced(ds[i]) {
      assert WritableSlot(c.registers, area, address, i);
      assert ds[i] in c.registers.definitions;
    }
  }

  /**
   * A write that succeeds leaves the state its values, sent one request each, leave in any order.
   */
  lemma MultiWriteIsItsSingles(
    c: Config, s: State, functionCode: int, address: int, count: nat, vs: seq<Raw>, order: seq<nat>)
    requires c.registers.Complete() && c.registers.WellFormed() && AllServiced(c.registers)
    requires IsWrite(functionCode) && Permutes(order, |vs|)
    requires Act(c, s, functionCode, address, count, Some(vs)).exception.None?
    ensures Act(c, s, functionCode, address, count, Some(vs)).state
         == Singles(c, s, functionCode, address, vs, order)
  {
    var area := AreaOf(functionCode).value;
    var ds := Resolve(c.registers, area, address, |vs|).value;
    var normalized := CoerceAll(ds, vs).value;
    ResolvedIsReady(c, area, address, vs);
    hide Resolve, CoerceAll, CoerceWrite, StoreAll, Ready, Permutes, AllServiced, RegisterMap.WellFormed;
    AnyOrderSame(c, s, ds, normalized, order);
    assert forall i :: 0 <= i < |order| ==> order[i] < |vs|;
    SinglesStoreInOrder(c, s, functionCode, area, address, ds, vs, normalized, order);
  }
}
