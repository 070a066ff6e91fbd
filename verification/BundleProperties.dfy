/** What every packaged bundle guarantees to its consumer. */
module BundleProperties {
  import opened Wrappers
  import opened Aggregation
  import opened StixBundles

  /** Where each source's three objects stand. */
  lemma {:induction false} ObjectsAt(keys: seq<Address>, m: Sources, sensor: string, now: Time, i: nat)
    requires (forall a :: a in keys ==> a in m) && i < |keys|
    ensures var os := Objects(keys, m, sensor, now);
      && os[0] == Identity(IdentityId(sensor), sensor, now)
      && os[1 + 3 * i..4 + 3 * i] == Entry(keys[i], m[keys[i]], sensor, now)
  {
    hide Entry;
    var front := keys[..|keys| - 1];
    var os, earlier := Objects(keys, m, sensor, now), Objects(front, m, sensor, now);
    if i < |front| {
      ObjectsAt(front, m, sensor, now, i);
      assert os[..|earlier|] == earlier;
      assert os[1 + 3 * i..4 + 3 * i] == earlier[1 + 3 * i..4 + 3 * i];
    } else {
      FirstObject(front, m, sensor, now);
      assert os[|earlier|..] == Entry(keys[i], m[keys[i]], sensor, now);
    }
  }

  lemma {:induction false} FirstObject(keys: seq<Address>, m: Sources, sensor: string, now: Time)
    requires forall a :: a in keys ==> a in m
    ensures Objects(keys, m, sensor, now)[0] == Identity(IdentityId(sensor), sensor, now)
  {
    hide Entry;
    if keys != [] { FirstObject(keys[..|keys| - 1], m, sensor, now); }
  }

  /** The source an object belongs to; the identity belongs to none. */
  function SourceIndex(j: nat): int { (j - 1) / 3 }

  lemma ObjectOf(keys: seq<Address>, m: Sources, sensor: string, now: Time, j: nat)
    requires (forall a :: a in keys ==> a in m) && 0 < j <= 3 * |keys|
    ensures var i := SourceIndex(j);
      && 0 <= i < |keys| && 1 <= j - 3 * i <= 3
      && Objects(keys, m, sensor, now)[j] == Entry(keys[i], m[keys[i]], sensor, now)[j - 3 * i - 1]
  {
    hide Entry;
    var i := SourceIndex(j);
    ObjectsAt(keys, m, sensor, now, i);
    var os := Objects(keys, m, sensor, now);
    assert os[j] == os[1 + 3 * i..4 + 3 * i][j - 3 * i - 1];
  }

  /** An object's references all name objects of the bundle. */
  ghost predicate Resolves(o: StixObject, os: seq<StixObject>) {
    && (o.ObservedData? || o.Indicator? ==> exists p :: p in os && p.Identity? && p.id == o.createdBy)
    && (o.ObservedData? ==> |o.objectRefs| > 0 && forall r :: r in o.objectRefs ==>
          exists p :: p in os && p.AddressObject? && p.id == r)
  }

  /** Every reference of every object resolves inside the bundle. */
  lemma ReferencesResolve(keys: seq<Address>, m: Sources, sensor: string, now: Time)
    requires forall a :: a in keys ==> a in m
    ensures var os := Objects(keys, m, sensor, now); forall o :: o in os ==> Resolves(o, os)
  {
    var os := Objects(keys, m, sensor, now);
    FirstObject(keys, m, sensor, now);
    hide Objects;
    assert os[0] in os;
    forall o | o in os ensures Resolves(o, os) {
      var j: nat :| j < |os| && os[j] == o;
      if j > 0 {
        ObjectOf(keys, m, sensor, now, j);
        var i := SourceIndex(j);
        ObjectOf(keys, m, sensor, now, 1 + 3 * i);
        assert os[1 + 3 * i] in os;
      }
    }
  }

  /** No two objects share an identifier. */
  lemma IdentifiersDistinct(keys: seq<Address>, m: Sources, sensor: string, now: Time)
    requires SortedKeys(keys, m.Keys)
    ensures var os := Objects(keys, m, sensor, now);
      forall i, j :: 0 <= i < j < |os| ==> os[i].id != os[j].id
  {
    var os := Objects(keys, m, sensor, now);
    FirstObject(keys, m, sensor, now);
    hide Objects, AtMost;
    forall i, j | 0 <= i < j < |os| ensures os[i].id != os[j].id {
      ObjectOf(keys, m, sensor, now, j);
      if i > 0 {
        ObjectOf(keys, m, sensor, now, i);
        assert SourceIndex(i) < SourceIndex(j) ==> keys[SourceIndex(i)] != keys[SourceIndex(j)];
      }
    }
  }

  /** A record's first and last are both set or both unset, and in order. */
  lemma RecordInOrder(r: Record, es: seq<Line>)
    requires (forall e :: e in es ==> e.Event?) && Summarizes(r, es)
    ensures r.first.Some? <==> r.last.Some?
    ensures r.first.Some? ==> r.first.value <= r.last.value
  {
  }

  /** In a bundle of collected sources nothing is last observed before it is first observed. */
  lemma ObservedInOrder(
    lines: seq<Line>, includeNonGlobal: bool, keys: seq<Address>, sensor: string, now: Time, o: StixObject)
    requires SortedKeys(keys, Tally(lines, includeNonGlobal).Keys)
    requires o in Objects(keys, Tally(lines, includeNonGlobal), sensor, now) && o.ObservedData?
    ensures o.first <= o.last
  {
    hide Tally, Objects, SortedKeys, Summarizes;
    var m := Tally(lines, includeNonGlobal);
    SortedAreKeys(keys, m);
    var os := Objects(keys, m, sensor, now);
    var j: nat :| j < |os| && os[j] == o;
    FirstObject(keys, m, sensor, now);
    ObjectOf(keys, m, sensor, now, j);
    var a := keys[SourceIndex(j)];
    TallyMeans(lines, includeNonGlobal, a);
    RecordInOrder(m[a], EventsOf(lines, includeNonGlobal, a));
  }

  /** The earliest (or latest) time of some events, or the time of packaging when none carries one. */
  ghost predicate Observed(t: Time, es: seq<Line>, now: Time, least: bool) {
    if exists e :: e in es && e.Event? && e.moment.Some? then
      && (exists e :: e in es && e.Event? && e.moment == Some(t))
      && (forall e :: e in es && e.Event? && e.moment.Some? ==>
            if least then t <= e.moment.value else e.moment.value <= t)
    else t == now
  }

  /** Three objects say of the source `a` what its events say. */
  ghost predicate Describe(os: seq<StixObject>, a: Address, es: seq<Line>, author: Id, now: Time)
    requires forall e :: e in es ==> e.Event?
  {
    && |os| == 3 && os[0].AddressObject? && os[1].ObservedData? && os[2].Indicator?
    && os[0].value == os[2].value == a
    && os[0].kind == os[2].kind == (if ':' in a then Ipv6 else Ipv4)
    && os[1].createdBy == os[2].createdBy == author
    && os[1].created == os[2].created == now
    && os[1].objectRefs == [os[0].id]
    && Observed(os[1].first, es, now, true)
    && Observed(os[1].last, es, now, false)
    && os[1].number == (if |es| <= 999_999_999 then |es| else 999_999_999)
    && os[2].count == |es|
    && (forall c :: c in os[2].codes <==> exists e :: e in es && e.code == Some(c))
    && os[2].validFrom == os[1].first
    && (os[2].attemptedWrite <==> exists e :: e in es && e.write)
  }

  lemma ObservedTimes(r: Record, es: seq<Line>, now: Time)
    requires (forall e :: e in es ==> e.Event?) && Summarizes(r, es)
    ensures Observed(FirstObserved(r, now), es, now, true)
    ensures Observed(LastObserved(r, now), es, now, false)
  {
  }

  lemma EntryDescribes(a: Address, r: Record, es: seq<Line>, sensor: string, now: Time)
    requires (forall e :: e in es ==> e.Event?) && Summarizes(r, es)
    ensures Describe(Entry(a, r, sensor, now), a, es, IdentityId(sensor), now)
  {
    ObservedTimes(r, es, now);
    hide Observed, FirstObserved, LastObserved, Extreme;
  }

  /** The bundle is the sensor's identity and, for each source in order, what its events say. */
  lemma BundleDescribes(
    lines: seq<Line>, includeNonGlobal: bool, keys: seq<Address>, sensor: string, now: Time, i: nat)
    requires SortedKeys(keys, Tally(lines, includeNonGlobal).Keys) && i < |keys|
    ensures forall a :: a in keys ==> a in Tally(lines, includeNonGlobal)
    ensures var os := Objects(keys, Tally(lines, includeNonGlobal), sensor, now);
      && os[0].Identity? && os[0].name == sensor && os[0].created == now
      && Describe(os[1 + 3 * i..4 + 3 * i], keys[i], EventsOf(lines, includeNonGlobal, keys[i]), os[0].id, now)
  {
    hide Tally, Objects, SortedKeys, Summarizes, Describe, Entry;
    var m, a := Tally(lines, includeNonGlobal), keys[i];
    SortedAreKeys(keys, m);
    ObjectsAt(keys, m, sensor, now, i);
    TallyRecords(lines, includeNonGlobal, a);
    EntryDescribes(a, m[a], EventsOf(lines, includeNonGlobal, a), sensor, now);
  }

  // ----- Counting -----

  /** Events that are packaged. */
  function KeptCount(lines: seq<Line>, includeNonGlobal: bool): nat {
    if lines == [] then 0
    else
      var e := lines[|lines| - 1];
      KeptCount(lines[..|lines| - 1], includeNonGlobal)
        + if e.Event? && e.origin.Some? && (includeNonGlobal || e.origin.value.isGlobal) then 1 else 0
  }

  /** The sum of `number_observed` over a bundle. */
  function NumberSum(os: seq<StixObject>): nat {
    if os == [] then 0
    else
      var last := os[|os| - 1];
      NumberSum(os[..|os| - 1]) + if last.ObservedData? then last.number else 0
  }

  function EventSum(keys: seq<Address>, lines: seq<Line>, includeNonGlobal: bool): nat {
    if keys == [] then 0
    else
      var last := keys[|keys| - 1];
      EventSum(keys[..|keys| - 1], lines, includeNonGlobal) + |EventsOf(lines, includeNonGlobal, last)|
  }

  lemma {:induction false} EventSumStep(keys: seq<Address>, lines: seq<Line>, includeNonGlobal: bool)
    requires lines != [] && forall i, j :: 0 <= i < j < |keys| ==> keys[i] != keys[j]
    ensures var kept := KeptUnder(lines[|lines| - 1], includeNonGlobal);
      EventSum(keys, lines, includeNonGlobal) ==
        EventSum(keys, lines[..|lines| - 1], includeNonGlobal)
          + (if kept.Some? && kept.value in keys then 1 else 0)
  {
    if keys != [] {
      var front, last := keys[..|keys| - 1], keys[|keys| - 1];
      EventSumStep(front, lines, includeNonGlobal);
      KeptUnderIs(lines[|lines| - 1], includeNonGlobal, last);
      hide KeptUnder, Names;
      assert forall a :: a in keys <==> a in front || a == last;
    }
  }

  lemma {:induction false} EventSumIsKept(keys: seq<Address>, lines: seq<Line>, includeNonGlobal: bool)
    requires forall i, j :: 0 <= i < j < |keys| ==> keys[i] != keys[j]
    requires forall l :: l in lines && KeptUnder(l, includeNonGlobal).Some? ==>
      KeptUnder(l, includeNonGlobal).value in keys
    ensures EventSum(keys, lines, includeNonGlobal) == KeptCount(lines, includeNonGlobal)
  {
    hide Names;
    if lines == [] {
      NoEvents(keys, includeNonGlobal);
    } else {
      EventSumIsKept(keys, lines[..|lines| - 1], includeNonGlobal);
      EventSumStep(keys, lines, includeNonGlobal);
    }
  }

  lemma {:induction false} NoEvents(keys: seq<Address>, includeNonGlobal: bool)
    ensures EventSum(keys, [], includeNonGlobal) == 0
  {
    if keys != [] { NoEvents(keys[..|keys| - 1], includeNonGlobal); }
  }

  lemma {:induction false} KeptAreSources(lines: seq<Line>, includeNonGlobal: bool, line: Line)
    requires line in lines && KeptUnder(line, includeNonGlobal).Some?
    ensures KeptUnder(line, includeNonGlobal).value in Tally(lines, includeNonGlobal)
  {
    hide KeptUnder, Sighting, Merge;
    var front, last := lines[..|lines| - 1], lines[|lines| - 1];
    assert lines == front + [last];
    if line != last { KeptAreSources(front, includeNonGlobal, line); }
  }

  lemma {:induction false} EventsAreCounted(lines: seq<Line>, includeNonGlobal: bool, a: Address)
    ensures |EventsOf(lines, includeNonGlobal, a)| <= EventCount(lines)
  {
    if lines != [] { EventsAreCounted(lines[..|lines| - 1], includeNonGlobal, a); }
  }

  lemma NumberSumEntry(os: seq<StixObject>, value: Address, r: Record, sensor: string, now: Time)
    ensures NumberSum(os + Entry(value, r, sensor, now)) == NumberSum(os) + NumberObserved(r)
  {
    hide NumberObserved;
    var e := Entry(value, r, sensor, now);
    var one, two, three := os + [e[0]], os + [e[0], e[1]], os + e;
    assert three[..|os| + 2] == two && two[..|os| + 1] == one && one[..|os|] == os;
    assert NumberSum(one) == NumberSum(os);
    assert NumberSum(two) == NumberSum(os) + NumberObserved(r);
  }

  lemma {:induction false} NumbersAreEvents(
    lines: seq<Line>, includeNonGlobal: bool, keys: seq<Address>, sensor: string, now: Time)
    requires EventCount(lines) <= MAX_EVENTS
    requires forall a :: a in keys ==> a in Tally(lines, includeNonGlobal)
    ensures NumberSum(Objects(keys, Tally(lines, includeNonGlobal), sensor, now))
         == EventSum(keys, lines, includeNonGlobal)
  {
    hide Entry, Tally, EventCount, EventsOf;
    var m := Tally(lines, includeNonGlobal);
    if keys == [] {
      assert NumberSum([Identity(IdentityId(sensor), sensor, now)]) == 0;
    } else {
      var front, last := keys[..|keys| - 1], keys[|keys| - 1];
      NumbersAreEvents(lines, includeNonGlobal, front, sensor, now);
      NumberSumEntry(Objects(front, m, sensor, now), last, m[last], sensor, now);
      TallyMeans(lines, includeNonGlobal, last);
      EventsAreCounted(lines, includeNonGlobal, last);
    }
  }

  /** Within the packaging bounds the `number_observed` values sum to the events kept: none lost, none twice. */
  lemma NumbersSumToKept(
    lines: seq<Line>, includeNonGlobal: bool, keys: seq<Address>, sensor: string, now: Time)
    requires WithinBounds(lines, includeNonGlobal)
    requires SortedKeys(keys, Tally(lines, includeNonGlobal).Keys)
    ensures NumberSum(Objects(keys, Tally(lines, includeNonGlobal), sensor, now))
         == KeptCount(lines, includeNonGlobal)
  {
    hide Tally, EventCount, KeptUnder, Objects, AtMost, WithinBounds;
    BoundsMean(lines, includeNonGlobal);
    NumbersAreEvents(lines, includeNonGlobal, keys, sensor, now);
    forall l | l in lines && KeptUnder(l, includeNonGlobal).Some?
      ensures KeptUnder(l, includeNonGlobal).value in keys
    {
      KeptAreSources(lines, includeNonGlobal, l);
    }
    EventSumIsKept(keys, lines, includeNonGlobal);
  }
}
