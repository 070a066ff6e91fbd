/** Collecting sources from a log stream: one mutable record per address, proved to be the tally. */
module SourceCollectors {
  import opened Wrappers
  import opened Aggregation

  class Source {
    const value: Address

    var first: Option<Time>
    var last: Option<Time>
    var count: nat
    var functionCodes: set<int>
    var wrote: bool

    function Abs(): Record
      reads this
    {
      Record(first, last, count, functionCodes, wrote)
    }

    constructor (value: Address)
      ensures this.value == value && Abs() == UNSEEN
    {
      this.value := value;
      first, last, count, functionCodes, wrote := None, None, 0, {}, false;
    }

    method Observe(event: Line)
      requires event.Event?
      modifies this
      ensures Abs() == Merge(old(Abs()), Sighting(event))
    {
      count := count + 1;
      if event.moment.Some? {
        var moment := event.moment.value;
        first := if first.None? then Some(moment) else if moment < first.value then Some(moment) else first;
        last := if last.None? then Some(moment) else if moment > last.value then Some(moment) else last;
      }
      if event.code.Some? {
        functionCodes := functionCodes + {event.code.value};
      }
      if event.write {
        wrote := true;
      }
    }
  }

  /** Different addresses have different objects, each holding its address's record. */
  ghost predicate Represents(sources: map<Address, Source>, m: Sources)
    reads set a | a in sources :: sources[a]
  {
    && sources.Keys == m.Keys
    && (forall a :: a in sources ==> sources[a].value == a && sources[a].Abs() == m[a])
    && (forall a, b :: a in sources && b in sources && a != b ==> sources[a] != sources[b])
  }

  lemma TallyStep(lines: seq<Line>, n: nat, includeNonGlobal: bool)
    requires n < |lines|
    ensures var before, after := Tally(lines[..n], includeNonGlobal), Tally(lines[..n + 1], includeNonGlobal);
      match KeptUnder(lines[n], includeNonGlobal)
      case None => after == before
      case Some(a) =>
        after == before[a := Merge(if a in before then before[a] else UNSEEN, Sighting(lines[n]))]
    ensures EventCount(lines[..n + 1]) == EventCount(lines[..n]) + (if lines[n].Event? then 1 else 0)
  {
    hide Merge;
    assert lines[..n + 1][..n] == lines[..n];
    var before := Tally(lines[..n], includeNonGlobal);
    SourcesUnit(before);
    if lines[n].Event? { MergeAssociates(Sighting(lines[n]), UNSEEN, UNSEEN); }
  }

  /** The first line that takes the stream out of its bounds, and which bound it is. */
  ghost predicate StopsAt(lines: seq<Line>, n: nat, includeNonGlobal: bool, error: Excess)
    requires n < |lines|
  {
    && WithinBounds(lines[..n], includeNonGlobal)
    && !WithinBounds(lines[..n + 1], includeNonGlobal)
    && (error == TooManyEvents <==> |set i: nat | i < n + 1 && lines[i].Event?| > 5_000_000)
  }

  /** One kept event goes to its source's object, made on first sight. */
  method Admit(sources: map<Address, Source>, ghost m: Sources, key: Address, event: Line)
    returns (r: map<Address, Source>)
    requires Represents(sources, m) && event.Event?
    modifies set a | a in sources :: sources[a]
    ensures r.Keys == sources.Keys + {key}
    ensures Represents(r, m[key := Merge(if key in m then m[key] else UNSEEN, Sighting(event))])
    ensures forall a :: a in r ==> fresh(r[a]) || (a in sources && r[a] == sources[a])
  {
    hide Merge, Sighting;
    r := sources;
    if key !in sources {
      var source := new Source(key);
      r := sources[key := source];
    }
    r[key].Observe(event);
  }

  /** One line of the stream: skipped, counted, admitted, or the one that leaves the bounds. */
  method TakeLine(
    ghost lines: seq<Line>, ghost n: nat, event: Line, includeNonGlobal: bool,
    sources: map<Address, Source>, seenEvents: nat)
    returns (excess: Option<Excess>, more: map<Address, Source>, seen: nat)
    requires n < |lines| && event == lines[n]
    requires seenEvents == EventCount(lines[..n]) <= MAX_EVENTS && |sources.Keys| <= MAX_SOURCES
    requires sources.Keys == Tally(lines[..n], includeNonGlobal).Keys
    requires Represents(sources, Tally(lines[..n], includeNonGlobal))
    modifies set a | a in sources :: sources[a]
    ensures forall a :: a in more ==> fresh(more[a]) || (a in sources && more[a] == sources[a])
    ensures excess.Some? ==>
      !WithinBounds(lines, includeNonGlobal) && StopsAt(lines, n, includeNonGlobal, excess.value)
    ensures excess.None? ==>
      && seen == EventCount(lines[..n + 1]) <= MAX_EVENTS && |more.Keys| <= MAX_SOURCES
      && more.Keys == Tally(lines[..n + 1], includeNonGlobal).Keys
      && Represents(more, Tally(lines[..n + 1], includeNonGlobal))
  {
    hide Merge, Sighting, Tally, EventCount, WithinBounds, Represents, StopsAt;
    TallyStep(lines, n, includeNonGlobal);
    BoundsStep(lines, n, includeNonGlobal);
    more, seen := sources, seenEvents;
    if event.Noise? {
      return None, more, seen;
    }
    seen := seen + 1;
    if seen > MAX_EVENTS {
      return Some(TooManyEvents), more, seen;
    }
    if event.origin.None? || !(includeNonGlobal || event.origin.value.isGlobal) {
      return None, more, seen;
    }
    var key := event.origin.value.address;
    if key !in sources && |sources.Keys| >= MAX_SOURCES {
      return Some(TooManySources), more, seen;
    }
    more := Admit(sources, Tally(lines[..n], includeNonGlobal), key, event);
    return None, more, seen;
  }

  /**
   * The addresses that some event has as its origin, a global one unless private ones are asked for, each
   * with what exactly those events say.
   */
  ghost predicate Describes(sources: map<Address, Source>, lines: seq<Line>, includeNonGlobal: bool)
    reads set a | a in sources :: sources[a]
  {
    && (forall a :: a in sources <==>
          exists e :: e in lines && e.Event? && e.origin.Some? && e.origin.value.address == a
            && (includeNonGlobal || e.origin.value.isGlobal))
    && (forall a :: a in sources ==> Summarizes(sources[a].Abs(), EventsOf(lines, includeNonGlobal, a)))
  }

  lemma RepresentsMeans(sources: map<Address, Source>, lines: seq<Line>, includeNonGlobal: bool)
    requires Represents(sources, Tally(lines, includeNonGlobal))
    ensures Describes(sources, lines, includeNonGlobal)
  {
    hide Tally, Summarizes, EventsOf;
    forall a ensures a in sources <==>
      exists e :: e in lines && e.Event? && e.origin.Some? && e.origin.value.address == a
        && (includeNonGlobal || e.origin.value.isGlobal)
    {
      TallyMeans(lines, includeNonGlobal, a);
    }
    forall a | a in sources ensures Summarizes(sources[a].Abs(), EventsOf(lines, includeNonGlobal, a)) {
      TallyMeans(lines, includeNonGlobal, a);
    }
  }

  method Collect(lines: seq<Line>, includeNonGlobal: bool) returns (r: Result<map<Address, Source>, Excess>)
    ensures r.Success? <==> WithinBounds(lines, includeNonGlobal)
    ensures r.Success? ==> Describes(r.value, lines, includeNonGlobal)
    ensures r.Success? ==> Represents(r.value, Tally(lines, includeNonGlobal))
    ensures r.Success? ==> forall a :: a in r.value ==> fresh(r.value[a])
    ensures r.Failure? ==> exists n: nat :: n < |lines| && StopsAt(lines, n, includeNonGlobal, r.error)
  {
    hide Merge, Sighting, Tally, EventCount, WithinBounds, Represents, StopsAt, Describes;
    var sources: map<Address, Source> := map[];
    var seenEvents: nat := 0;
    var n := 0;
    NoLines(includeNonGlobal);
    assert lines[..0] == [];
    while n < |lines|
      invariant 0 <= n <= |lines|
      invariant seenEvents == EventCount(lines[..n]) <= MAX_EVENTS && |sources.Keys| <= MAX_SOURCES
      invariant sources.Keys == Tally(lines[..n], includeNonGlobal).Keys
      invariant Represents(sources, Tally(lines[..n], includeNonGlobal))
      invariant forall a :: a in sources ==> fresh(sources[a])
    {
      var excess: Option<Excess>;
      excess, sources, seenEvents := TakeLine(lines, n, lines[n], includeNonGlobal, sources, seenEvents);
      if excess.Some? {
        return Failure(excess.value);
      }
      n := n + 1;
    }
    assert lines[..n] == lines;
    BoundsMean(lines, includeNonGlobal);
    RepresentsMeans(sources, lines, includeNonGlobal);
    return Success(sources);
  }

  lemma NoLines(includeNonGlobal: bool)
    ensures Tally([], includeNonGlobal) == map[] && EventCount([]) == 0
    ensures Represents(map[], map[])
  {
  }

  /** Where the next line would leave the bounds, the stream as a whole is out of them. */
  lemma BoundsStep(lines: seq<Line>, n: nat, includeNonGlobal: bool)
    requires n < |lines|
    requires EventCount(lines[..n]) <= MAX_EVENTS && |Tally(lines[..n], includeNonGlobal).Keys| <= MAX_SOURCES
    ensures EventCount(lines[..n + 1]) > MAX_EVENTS ==>
      !WithinBounds(lines, includeNonGlobal) && StopsAt(lines, n, includeNonGlobal, TooManyEvents)
    ensures EventCount(lines[..n + 1]) <= MAX_EVENTS && |Tally(lines[..n + 1], includeNonGlobal).Keys| > MAX_SOURCES ==>
      !WithinBounds(lines, includeNonGlobal) && StopsAt(lines, n, includeNonGlobal, TooManySources)
    ensures EventCount(lines[..n]) <= EventCount(lines[..n + 1])
  {
    hide Tally, EventCount, WithinBounds;
    BoundsMean(lines[..n], includeNonGlobal);
    BoundsMean(lines[..n + 1], includeNonGlobal);
    BoundsMean(lines, includeNonGlobal);
    PrefixWithin(lines, n + 1, includeNonGlobal);
    assert lines[..n + 1][..n] == lines[..n];
    EventCountIs(lines, n + 1);
    PrefixWithin(lines[..n + 1], n, includeNonGlobal);
  }
}
