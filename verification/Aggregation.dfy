/** Aggregating events per source address: a fold that is a merge, and so forgets order and splitting. */
module Aggregation {
  import opened Wrappers

  const MAX_SOURCES: nat := 10_000
  const MAX_EVENTS: nat := 5_000_000

  type Address = string

  /** Milliseconds; the textual form compares the same way. */
  type Time = int

  datatype Origin = Origin(address: Address, isGlobal: bool)

  /** A line of the log stream once parsed: not an event, or an event with the fields packaging reads. */
  datatype Line =
    | Noise
    | Event(origin: Option<Origin>, moment: Option<Time>, code: Option<int>, write: bool)

  /** What is known of one source. */
  datatype Record = Record(first: Option<Time>, last: Option<Time>, count: nat, codes: set<int>, wrote: bool)

  const UNSEEN := Record(None, None, 0, {}, false)

  function Earlier(x: Option<Time>, y: Option<Time>): Option<Time> {
    if x.None? then y else if y.None? then x else if y.value < x.value then y else x
  }

  function Later(x: Option<Time>, y: Option<Time>): Option<Time> {
    if x.None? then y else if y.None? then x else if y.value > x.value then y else x
  }

  function Merge(r: Record, s: Record): Record {
    Record(Earlier(r.first, s.first), Later(r.last, s.last), r.count + s.count, r.codes + s.codes, r.wrote || s.wrote)
  }

  /** The record of a single event. */
  function Sighting(e: Line): Record
    requires e.Event?
  {
    Record(e.moment, e.moment, 1, if e.code.Some? then {e.code.value} else {}, e.write)
  }

  /** The source an event is packaged under, unless it is left out. */
  function KeptUnder(line: Line, includeNonGlobal: bool): Option<Address> {
    if line.Event? && line.origin.Some? && (includeNonGlobal || line.origin.value.isGlobal)
    then Some(line.origin.value.address)
    else None
  }

  type Sources = map<Address, Record>

  function MergeSources(m: Sources, n: Sources): Sources {
    map a | a in m.Keys + n.Keys ::
      if a in m && a in n then Merge(m[a], n[a]) else if a in m then m[a] else n[a]
  }

  /** What one line contributes. */
  function Contribution(line: Line, includeNonGlobal: bool): Sources {
    var kept := KeptUnder(line, includeNonGlobal);
    if kept.Some? then map[kept.value := Sighting(line)] else map[]
  }

  /** All lines folded in order. */
  function Tally(lines: seq<Line>, includeNonGlobal: bool): Sources {
    if lines == [] then map[]
    else MergeSources(Tally(lines[..|lines| - 1], includeNonGlobal), Contribution(lines[|lines| - 1], includeNonGlobal))
  }

  /** Events seen, kept or not. */
  function EventCount(lines: seq<Line>): (n: nat)
    ensures n <= |lines|
  {
    if lines == [] then 0
    else EventCount(lines[..|lines| - 1]) + if lines[|lines| - 1].Event? then 1 else 0
  }

  datatype Excess = TooManyEvents | TooManySources

  /** At most five million events, from at most ten thousand addresses to package. */
  ghost predicate WithinBounds(lines: seq<Line>, includeNonGlobal: bool) {
    && |set i: nat | i < |lines| && lines[i].Event?| <= 5_000_000
    && |set e | e in lines && e.Event? && e.origin.Some? && (includeNonGlobal || e.origin.value.isGlobal)
          :: e.origin.value.address| <= 10_000
  }

  // ----- The algebra of records -----

  lemma MergeCommutes(r: Record, s: Record)
    ensures Merge(r, s) == Merge(s, r)
  {
  }

  lemma MergeAssociates(r: Record, s: Record, t: Record)
    ensures Merge(Merge(r, s), t) == Merge(r, Merge(s, t))
    ensures Merge(UNSEEN, r) == r
  {
    assert (r.codes + s.codes) + t.codes == r.codes + (s.codes + t.codes);
  }

  lemma SourcesCommute(m: Sources, n: Sources)
    ensures MergeSources(m, n) == MergeSources(n, m)
  {
    forall a | a in m && a in n ensures Merge(m[a], n[a]) == Merge(n[a], m[a]) {
      MergeCommutes(m[a], n[a]);
    }
  }

  lemma MergedAt(m: Sources, n: Sources, a: Address)
    ensures a in MergeSources(m, n) <==> a in m || a in n
    ensures a in m || a in n ==>
      MergeSources(m, n)[a] == if a in m && a in n then Merge(m[a], n[a]) else if a in m then m[a] else n[a]
  {
  }

  lemma SourcesUnit(m: Sources)
    ensures MergeSources(m, map[]) == m
  {
  }

  lemma AssociateAt(m: Sources, n: Sources, o: Sources, a: Address)
    ensures var left, right := MergeSources(MergeSources(m, n), o), MergeSources(m, MergeSources(n, o));
      (a in left <==> a in right) && (a in left ==> left[a] == right[a])
  {
    hide Merge, MergeSources;
    MergedAt(m, n, a);
    MergedAt(n, o, a);
    MergedAt(MergeSources(m, n), o, a);
    MergedAt(m, MergeSources(n, o), a);
    if a in m && a in n && a in o { MergeAssociates(m[a], n[a], o[a]); }
  }

  lemma SourcesAssociate(m: Sources, n: Sources, o: Sources)
    ensures MergeSources(MergeSources(m, n), o) == MergeSources(m, MergeSources(n, o))
    ensures MergeSources(m, map[]) == m
  {
    hide Merge, MergeSources;
    SourcesUnit(m);
    forall a
      ensures var left, right := MergeSources(MergeSources(m, n), o), MergeSources(m, MergeSources(n, o));
        (a in left <==> a in right) && (a in left ==> left[a] == right[a])
    {
      AssociateAt(m, n, o, a);
    }
  }

  /** Aggregating a concatenation is merging the aggregates: split logs can be packaged apart. */
  lemma {:induction false} TallyConcat(one: seq<Line>, other: seq<Line>, includeNonGlobal: bool)
    ensures Tally(one + other, includeNonGlobal)
         == MergeSources(Tally(one, includeNonGlobal), Tally(other, includeNonGlobal))
    ensures EventCount(one + other) == EventCount(one) + EventCount(other)
  {
    hide MergeSources, Contribution;
    if other == [] {
      assert one + other == one;
      SourcesAssociate(Tally(one, includeNonGlobal), map[], map[]);
    } else {
      var all, front := one + other, other[..|other| - 1];
      assert all[..|all| - 1] == one + front;
      TallyConcat(one, front, includeNonGlobal);
      SourcesAssociate(Tally(one, includeNonGlobal), Tally(front, includeNonGlobal),
                       Contribution(other[|other| - 1], includeNonGlobal));
    }
  }

  lemma RemoveAt(lines: seq<Line>, i: nat)
    requires i < |lines|
    ensures lines == lines[..i] + [lines[i]] + lines[i + 1..]
    ensures multiset(lines) == multiset(lines[..i] + lines[i + 1..]) + multiset{lines[i]}
  {
    assert lines == lines[..i] + [lines[i]] + lines[i + 1..];
  }

  /** Moving one line to the end changes nothing. */
  lemma MoveLast(lines: seq<Line>, i: nat, includeNonGlobal: bool)
    requires i < |lines|
    ensures Tally(lines, includeNonGlobal)
         == Tally((lines[..i] + lines[i + 1..]) + [lines[i]], includeNonGlobal)
    ensures EventCount(lines) == EventCount((lines[..i] + lines[i + 1..]) + [lines[i]])
  {
    hide MergeSources, Contribution, Tally, EventCount;
    var before, line, after := lines[..i], [lines[i]], lines[i + 1..];
    RemoveAt(lines, i);
    TallyConcat(before + line, after, includeNonGlobal);
    TallyConcat(before, line, includeNonGlobal);
    TallyConcat(before + after, line, includeNonGlobal);
    TallyConcat(before, after, includeNonGlobal);
    var b, l, a := Tally(before, includeNonGlobal), Tally(line, includeNonGlobal), Tally(after, includeNonGlobal);
    calc {
      MergeSources(MergeSources(b, l), a);
      { SourcesAssociate(b, l, a); }
      MergeSources(b, MergeSources(l, a));
      { SourcesCommute(l, a); }
      MergeSources(b, MergeSources(a, l));
      { SourcesAssociate(b, a, l); }
      MergeSources(MergeSources(b, a), l);
    }
  }

  lemma SameWithout(lines: seq<Line>, others: seq<Line>, i: nat)
    requires lines != [] && i < |others| && others[i] == lines[|lines| - 1]
    requires multiset(lines) == multiset(others)
    ensures multiset(lines[..|lines| - 1]) == multiset(others[..i] + others[i + 1..])
  {
    var front, last := lines[..|lines| - 1], lines[|lines| - 1];
    assert lines == front + [last];
    RemoveAt(others, i);
    assert multiset(front) == multiset(lines) - multiset{last};
  }

  lemma {:induction false} SameTally(lines: seq<Line>, others: seq<Line>, includeNonGlobal: bool)
    requires multiset(lines) == multiset(others)
    ensures Tally(lines, includeNonGlobal) == Tally(others, includeNonGlobal)
    ensures EventCount(lines) == EventCount(others)
    decreases |lines|
  {
    hide MergeSources, Contribution;
    if lines == [] {
      assert |others| == |multiset(others)| == |multiset(lines)| == 0;
    } else {
      var front, last := lines[..|lines| - 1], lines[|lines| - 1];
      assert lines == front + [last];
      assert last in multiset(others);
      var i :| 0 <= i < |others| && others[i] == last;
      RemoveAt(others, i);
      var rest := others[..i] + others[i + 1..];
      SameWithout(lines, others, i);
      SameTally(front, rest, includeNonGlobal);
      MoveLast(others, i, includeNonGlobal);
      assert (rest + [last])[..|rest|] == rest;
    }
  }

  // ----- What a record means -----

  /** An event to package under `a`: it has that origin, and private origins are asked for or it is not one. */
  predicate Names(e: Line, includeNonGlobal: bool, a: Address) {
    e.Event? && e.origin.Some? && e.origin.value.address == a && (includeNonGlobal || e.origin.value.isGlobal)
  }

  lemma KeptUnderIs(e: Line, includeNonGlobal: bool, a: Address)
    ensures KeptUnder(e, includeNonGlobal) == Some(a) <==> Names(e, includeNonGlobal, a)
  {
  }

  /** The events packaged under an address, in stream order. */
  function EventsOf(lines: seq<Line>, includeNonGlobal: bool, a: Address): (es: seq<Line>)
    ensures forall i :: 0 <= i < |es| ==> es[i].Event?
  {
    if lines == [] then []
    else
      var last := lines[|lines| - 1];
      EventsOf(lines[..|lines| - 1], includeNonGlobal, a)
        + if Names(last, includeNonGlobal, a) then [last] else []
  }

  /** A bound that some event attains. */
  ghost predicate Extreme(bound: Option<Time>, es: seq<Line>, least: bool)
    requires forall e :: e in es ==> e.Event?
  {
    match bound
    case None => forall e :: e in es ==> e.moment.None?
    case Some(t) =>
      && (exists e :: e in es && e.moment == Some(t))
      && (forall e :: e in es && e.moment.Some? ==> if least then t <= e.moment.value else e.moment.value <= t)
  }

  /** The record says exactly this of the events: how many, when first and last, which codes, any write. */
  ghost predicate Summarizes(r: Record, es: seq<Line>)
    requires forall e :: e in es ==> e.Event?
  {
    && r.count == |es|
    && Extreme(r.first, es, true)
    && Extreme(r.last, es, false)
    && (forall c :: c in r.codes <==> exists e :: e in es && e.code == Some(c))
    && (r.wrote <==> exists e :: e in es && e.write)
  }

  lemma SummarizesOneMore(r: Record, es: seq<Line>, e: Line)
    requires (forall e :: e in es ==> e.Event?) && e.Event? && Summarizes(r, es)
    ensures Summarizes(Merge(r, Sighting(e)), es + [e])
  {
    var more, s := es + [e], Merge(r, Sighting(e));
    assert forall x :: x in more <==> x in es || x == e;
    ExtremeOneMore(r.first, es, e, true);
    ExtremeOneMore(r.last, es, e, false);
    hide Extreme;
    forall c ensures c in s.codes <==> exists x :: x in more && x.code == Some(c) {
      if c in s.codes && c !in r.codes { assert e in more && e.code == Some(c); }
    }
    if e.write { assert e in more; }
  }

  lemma ExtremeOneMore(bound: Option<Time>, es: seq<Line>, e: Line, least: bool)
    requires (forall e :: e in es ==> e.Event?) && e.Event? && Extreme(bound, es, least)
    ensures Extreme(if least then Earlier(bound, e.moment) else Later(bound, e.moment), es + [e], least)
  {
    var more := es + [e];
    assert e in more && forall x :: x in more <==> x in es || x == e;
  }

  lemma {:induction false} TallyRecords(lines: seq<Line>, includeNonGlobal: bool, a: Address)
    ensures var m, es := Tally(lines, includeNonGlobal), EventsOf(lines, includeNonGlobal, a);
      && (a in m <==> es != [])
      && (a in m ==> Summarizes(m[a], es))
  {
    if lines != [] {
      hide Merge, Summarizes;
      var front, last := lines[..|lines| - 1], lines[|lines| - 1];
      TallyRecords(front, includeNonGlobal, a);
      var es := EventsOf(front, includeNonGlobal, a);
      KeptUnderIs(last, includeNonGlobal, a);
      if KeptUnder(last, includeNonGlobal) == Some(a) {
        if a in Tally(front, includeNonGlobal) {
          SummarizesOneMore(Tally(front, includeNonGlobal)[a], es, last);
        } else {
          FirstSighting(last);
          assert es + [last] == [last];
        }
      } else {
        assert EventsOf(lines, includeNonGlobal, a) == es;
      }
    }
  }

  lemma {:induction false} SomeNames(lines: seq<Line>, includeNonGlobal: bool, a: Address)
    ensures EventsOf(lines, includeNonGlobal, a) != [] <==> exists e :: e in lines && Names(e, includeNonGlobal, a)
  {
    if lines != [] {
      hide Names;
      var front, last := lines[..|lines| - 1], lines[|lines| - 1];
      SomeNames(front, includeNonGlobal, a);
      SameElements(lines, front, last);
    }
  }

  lemma SameElements(lines: seq<Line>, front: seq<Line>, last: Line)
    requires lines != [] && front == lines[..|lines| - 1] && last == lines[|lines| - 1]
    ensures forall e :: e in lines <==> e in front || e == last
  {
    var joined := front + [last];
    assert lines == joined && forall e :: e in joined <==> e in front || e == last;
  }

  /**
   * A source appears exactly when some event has it as its origin, a global one unless private ones are
   * asked for, and its record says exactly what those events say.
   */
  lemma TallyMeans(lines: seq<Line>, includeNonGlobal: bool, a: Address)
    ensures var m := Tally(lines, includeNonGlobal);
      && (a in m <==> exists e :: e in lines && e.Event? && e.origin.Some? && e.origin.value.address == a
                                  && (includeNonGlobal || e.origin.value.isGlobal))
      && (a in m ==> Summarizes(m[a], EventsOf(lines, includeNonGlobal, a)))
  {
    hide Tally, EventsOf, Summarizes;
    TallyRecords(lines, includeNonGlobal, a);
    SomeNames(lines, includeNonGlobal, a);
    assert forall e :: Names(e, includeNonGlobal, a) <==>
      e.Event? && e.origin.Some? && e.origin.value.address == a && (includeNonGlobal || e.origin.value.isGlobal);
  }

  /** Unless they are asked for, addresses seen only as private origins are not packaged. */
  lemma PrivateLeftOut(lines: seq<Line>, a: Address)
    requires forall e :: e in lines && e.Event? && e.origin.Some? && e.origin.value.address == a ==>
      !e.origin.value.isGlobal
    ensures a !in Tally(lines, false)
  {
    hide Tally;
    TallyMeans(lines, false, a);
  }

  lemma FirstSighting(e: Line)
    requires e.Event?
    ensures Summarizes(Sighting(e), [e])
  {
    assert e in [e];
  }

  // ----- The packaging bounds -----

  lemma KeysOfMerge(m: Sources, n: Sources)
    ensures MergeSources(m, n).Keys == m.Keys + n.Keys
    ensures |MergeSources(m, n).Keys| >= |m.Keys|
  {
    var merged := MergeSources(m, n);
    assert m.Keys <= merged.Keys;
    SubsetSize(m.Keys, merged.Keys);
  }

  lemma SubsetSize<T>(s: set<T>, t: set<T>)
    requires s <= t
    ensures |s| <= |t|
  {
    if s != {} {
      var x :| x in s;
      SubsetSize(s - {x}, t - {x});
    }
  }

  /** A prefix meets the bounds whenever the whole does. */
  lemma {:induction false} PrefixWithin(lines: seq<Line>, n: nat, includeNonGlobal: bool)
    requires n <= |lines|
    ensures EventCount(lines[..n]) <= EventCount(lines)
    ensures |Tally(lines[..n], includeNonGlobal).Keys| <= |Tally(lines, includeNonGlobal).Keys|
  {
    assert lines == lines[..n] + lines[n..];
    TallyConcat(lines[..n], lines[n..], includeNonGlobal);
    KeysOfMerge(Tally(lines[..n], includeNonGlobal), Tally(lines[n..], includeNonGlobal));
  }

  lemma {:induction false} EventCountIs(lines: seq<Line>, n: nat)
    requires n <= |lines|
    ensures EventCount(lines[..n]) == |set i: nat | i < n && lines[i].Event?|
  {
    var all := set i: nat | i < n && lines[i].Event?;
    if n == 0 {
      assert all == {};
    } else {
      EventCountIs(lines, n - 1);
      assert lines[..n][..n - 1] == lines[..n - 1];
      var before := set i: nat | i < n - 1 && lines[i].Event?;
      assert all == if lines[n - 1].Event? then before + {n - 1} else before;
    }
  }

  /** The running count and the fold are what the bounds are about. */
  lemma BoundsMean(lines: seq<Line>, includeNonGlobal: bool)
    ensures WithinBounds(lines, includeNonGlobal) <==>
      EventCount(lines) <= MAX_EVENTS && |Tally(lines, includeNonGlobal).Keys| <= MAX_SOURCES
  {
    hide Tally, EventCount;
    EventCountIs(lines, |lines|);
    assert lines[..|lines|] == lines;
    var m := Tally(lines, includeNonGlobal);
    var sources := set e | e in lines && e.Event? && e.origin.Some? && (includeNonGlobal || e.origin.value.isGlobal)
      :: e.origin.value.address;
    forall a ensures a in m.Keys <==> a in sources { TallyMeans(lines, includeNonGlobal, a); }
    assert m.Keys == sources;
  }

  /** Every reordering of the lines aggregates to the same sources and meets the same bounds. */
  lemma OrderIndependent(lines: seq<Line>, others: seq<Line>, includeNonGlobal: bool)
    requires multiset(lines) == multiset(others)
    ensures Tally(lines, includeNonGlobal) == Tally(others, includeNonGlobal)
    ensures EventCount(lines) == EventCount(others)
    ensures WithinBounds(lines, includeNonGlobal) <==> WithinBounds(others, includeNonGlobal)
  {
    hide Tally, EventCount, WithinBounds;
    SameTally(lines, others, includeNonGlobal);
    BoundsMean(lines, includeNonGlobal);
    BoundsMean(others, includeNonGlobal);
  }
}
