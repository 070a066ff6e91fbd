/** The STIX bundle of a tally: references, identifiers, counts and time order. */
module StixBundles {
  import opened Aggregation

  const MAX_NUMBER_OBSERVED := 999_999_999

  datatype AddressKind = Ipv4 | Ipv6

  /** Identifiers are derived from these seeds; different seeds are taken to give different identifiers. */
  datatype Id =
    | IdentityId(sensor: string)
    | AddressId(kind: AddressKind, value: Address)
    | ObservedDataId(value: Address, first: Time, last: Time)
    | IndicatorId(value: Address, first: Time)

  datatype StixObject =
    | Identity(id: Id, name: string, created: Time)
    | AddressObject(id: Id, kind: AddressKind, value: Address)
    | ObservedData(
        id: Id, createdBy: Id, created: Time, first: Time, last: Time, number: nat, objectRefs: seq<Id>)
    | Indicator(
        id: Id, createdBy: Id, created: Time, value: Address, kind: AddressKind, count: nat, codes: set<int>,
        validFrom: Time, attemptedWrite: bool)

  /** A colon marks an IPv6 address. */
  function KindOf(value: Address): AddressKind { if ':' in value then Ipv6 else Ipv4 }

  function FirstObserved(r: Record, now: Time): Time { if r.first.Some? then r.first.value else now }

  function LastObserved(r: Record, now: Time): Time {
    if r.last.Some? then r.last.value else FirstObserved(r, now)
  }

  function NumberObserved(r: Record): nat { if r.count < MAX_NUMBER_OBSERVED then r.count else MAX_NUMBER_OBSERVED }

  /** The three objects of one source. */
  function Entry(value: Address, r: Record, sensor: string, now: Time): seq<StixObject> {
    var kind, first, last := KindOf(value), FirstObserved(r, now), LastObserved(r, now);
    [AddressObject(AddressId(kind, value), kind, value),
     ObservedData(ObservedDataId(value, first, last), IdentityId(sensor), now, first, last, NumberObserved(r),
                  [AddressId(kind, value)]),
     Indicator(IndicatorId(value, first), IdentityId(sensor), now, value, kind, r.count, r.codes, first, r.wrote)]
  }

  function Objects(keys: seq<Address>, m: Sources, sensor: string, now: Time): (os: seq<StixObject>)
    requires forall a :: a in keys ==> a in m
    ensures |os| == 1 + 3 * |keys|
  {
    if keys == [] then [Identity(IdentityId(sensor), sensor, now)]
    else
      var last := keys[|keys| - 1];
      Objects(keys[..|keys| - 1], m, sensor, now) + Entry(last, m[last], sensor, now)
  }

  // ----- Addresses in order -----

  /** Lexicographic order on text. */
  predicate AtMost(x: string, y: string) {
    if x == [] then true
    else if y == [] then false
    else x[0] < y[0] || (x[0] == y[0] && AtMost(x[1..], y[1..]))
  }

  /** `x` and `y` first differ at `k`, and `x` is the smaller there. */
  predicate FirstLower(x: string, y: string, k: nat) {
    k < |x| && k < |y| && x[..k] == y[..k] && x[k] < y[k]
  }

  /** A text comes before another when it is a prefix of it or the smaller where they first differ. */
  lemma {:induction false} OrderMeans(x: string, y: string)
    ensures AtMost(x, y) <==> x <= y || exists k: nat :: FirstLower(x, y, k)
  {
    if x != [] && y != [] {
      OrderMeans(x[1..], y[1..]);
      if x[0] < y[0] {
        assert FirstLower(x, y, 0);
      } else if x[0] == y[0] {
        forall k: nat ensures FirstLower(x[1..], y[1..], k) <==> FirstLower(x, y, k + 1) {
          LowerInTail(x, y, k);
        }
        if k: nat :| FirstLower(x, y, k) {
          assert k > 0 && FirstLower(x[1..], y[1..], k - 1);
        }
        assert x[1..] <= y[1..] <==> x <= y by { assert x == [x[0]] + x[1..] && y == [y[0]] + y[1..]; }
      }
    }
  }

  lemma LowerInTail(x: string, y: string, k: nat)
    requires x != [] && y != [] && x[0] == y[0]
    ensures FirstLower(x[1..], y[1..], k) <==> FirstLower(x, y, k + 1)
  {
    if k + 1 < |x| && k + 1 < |y| {
      assert x[..k + 1] == [x[0]] + x[1..][..k] && y[..k + 1] == [y[0]] + y[1..][..k];
    }
  }

  lemma {:induction false} OrderTotal(x: string, y: string)
    ensures AtMost(x, y) || AtMost(y, x)
    ensures AtMost(x, y) && AtMost(y, x) ==> x == y
  {
    if x != [] && y != [] {
      OrderTotal(x[1..], y[1..]);
      assert x == [x[0]] + x[1..] && y == [y[0]] + y[1..];
    }
  }

  lemma {:induction false} OrderTransitive(x: string, y: string, z: string)
    requires AtMost(x, y) && AtMost(y, z)
    ensures AtMost(x, z)
  {
    if x != [] && y != [] && z != [] && x[0] == y[0] == z[0] {
      OrderTransitive(x[1..], y[1..], z[1..]);
    }
  }

  lemma HasLeast(s: set<Address>)
    requires s != {}
    ensures exists x :: x in s && forall y :: y in s ==> AtMost(x, y)
  {
    var x :| x in s;
    var rest := s - {x};
    if rest == {} {
      OrderTotal(x, x);
      assert s == {x};
    } else {
      HasLeast(rest);
      var least :| least in rest && forall y :: y in rest ==> AtMost(least, y);
      OrderTotal(x, least);
      OrderTotal(x, x);
      if AtMost(x, least) {
        forall y | y in s ensures AtMost(x, y) { if y != x { OrderTransitive(x, least, y); } }
      } else {
        forall y | y in s ensures AtMost(least, y) { }
      }
    }
  }

  ghost predicate SortedKeys(keys: seq<Address>, s: set<Address>) {
    && (forall a :: a in keys <==> a in s)
    && (forall i, j :: 0 <= i < j < |keys| ==> keys[i] != keys[j] && AtMost(keys[i], keys[j]))
  }

  /** The addresses in ascending order. */
  method Sorted(s: set<Address>) returns (keys: seq<Address>)
    ensures SortedKeys(keys, s)
  {
    hide AtMost;
    keys := [];
    var left := s;
    while left != {}
      invariant left <= s && SortedKeys(keys, s - left)
      invariant forall a, b :: a in keys && b in left ==> AtMost(a, b)
      decreases |left|
    {
      HasLeast(left);
      var least :| least in left && forall y :: y in left ==> AtMost(least, y);
      keys := keys + [least];
      left := left - {least};
    }
  }

  method BuildBundle(m: Sources, sensor: string, now: Time) returns (objects: seq<StixObject>, ghost keys: seq<Address>)
    ensures SortedKeys(keys, m.Keys)
    ensures objects == Objects(keys, m, sensor, now)
  {
    hide SortedKeys, Entry;
    var order := Sorted(m.Keys);
    keys := order;
    assert forall a :: a in order ==> a in m by { SortedAreKeys(order, m); }
    objects := [Identity(IdentityId(sensor), sensor, now)];
    var n := 0;
    assert order[..0] == [];
    while n < |order|
      invariant 0 <= n <= |order| && objects == Objects(order[..n], m, sensor, now)
    {
      assert order[..n + 1][..n] == order[..n];
      var value := order[n];
      objects := objects + Entry(value, m[value], sensor, now);
      n := n + 1;
    }
    assert order[..n] == order;
  }

  lemma SortedAreKeys(keys: seq<Address>, m: Sources)
    requires SortedKeys(keys, m.Keys)
    ensures forall a :: a in keys ==> a in m
  {
  }
}
