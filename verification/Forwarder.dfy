/** The event forwarder: every line is accounted for exactly once, and the bucket bounds what is sent. */
module Forwarders {
  import opened Wrappers
  import opened Numbers
  import opened TokenBucket

  const MAX_LINE_BYTES := 64 * 1024
  const MAX_DATAGRAM_BYTES := 8 * 1024

  /** The forwarder's counters. */
  datatype Tally = Tally(forwarded: nat, unreachable: nat, oversized: nat, limited: nat, ignored: nat) {
    function Total(): nat { forwarded + unreachable + oversized + limited + ignored }
  }

  const NOTHING := Tally(0, 0, 0, 0, 0)

  datatype Fate = Forwarded | Unreachable | Oversized | Limited | Ignored

  function Count(t: Tally, fate: Fate): Tally {
    match fate
    case Forwarded => t.(forwarded := t.forwarded + 1)
    case Unreachable => t.(unreachable := t.unreachable + 1)
    case Oversized => t.(oversized := t.oversized + 1)
    case Limited => t.(limited := t.limited + 1)
    case Ignored => t.(ignored := t.ignored + 1)
  }

  /** An event of the stream: when it is sent, its datagram's size, and whether the socket would take it. */
  datatype Sending = Sending(time: real, size: nat, reachable: bool)

  /** A line of the log stream: its length and the event it parses into, if any. */
  datatype Line = Line(length: nat, event: Option<Sending>)

  function FateOf(granted: bool, dryRun: bool, e: Sending): Fate {
    if !granted then Limited
    else if e.size > MAX_DATAGRAM_BYTES then Oversized
    else if dryRun || e.reachable then Forwarded
    else Unreachable
  }

  /** The event a line puts through the bucket. */
  function EventOf(line: Line): Option<Sending> { if line.length > MAX_LINE_BYTES then None else line.event }

  /** The forwarder's state: its bucket, counters, and whether it holds a socket. */
  datatype Progress = Progress(bucket: Bucket, tally: Tally, connected: bool)

  function Dispatch(p: Progress, dryRun: bool, e: Sending): Progress {
    var fate := FateOf(Grants(p.bucket, e.time), dryRun, e);
    Progress(
      Take(p.bucket, e.time),
      Count(p.tally, fate),
      if fate == Unreachable then false else p.connected || (fate == Forwarded && !dryRun))
  }

  function Feed(p: Progress, dryRun: bool, line: Line): Progress {
    match EventOf(line)
    case None => p.(tally := Count(p.tally, Ignored))
    case Some(e) => Dispatch(p, dryRun, e)
  }

  function FeedAll(p: Progress, dryRun: bool, lines: seq<Line>): Progress {
    if lines == [] then p else Feed(FeedAll(p, dryRun, lines[..|lines| - 1]), dryRun, lines[|lines| - 1])
  }

  /** The times at which the lines' events ask for a token. */
  function AttemptTimes(lines: seq<Line>): seq<real> {
    if lines == [] then []
    else
      var last := lines[|lines| - 1];
      AttemptTimes(lines[..|lines| - 1])
        + if last.length <= 65_536 && last.event.Some? then [last.event.value.time] else []
  }

  class Counters {
    var forwarded: nat
    var droppedUnreachable: nat
    var droppedOversized: nat
    var droppedRateLimited: nat
    var ignoredNonEvent: nat

    function Abs(): Tally
      reads this
    {
      Tally(forwarded, droppedUnreachable, droppedOversized, droppedRateLimited, ignoredNonEvent)
    }

    constructor ()
      ensures Abs() == NOTHING
    {
      forwarded, droppedUnreachable, droppedOversized, droppedRateLimited, ignoredNonEvent := 0, 0, 0, 0, 0;
    }
  }

  class Forwarder {
    const rate: real
    const capacity: real
    const counters: Counters
    const dryRun: bool

    var tokens: real
    var refilled: real
    var connected: bool

    ghost predicate Valid() { capacity == Capacity(rate) }

    function Abs(): Progress
      reads this, counters
    {
      Progress(Bucket(rate, tokens, refilled), counters.Abs(), connected)
    }

    constructor (eventsPerSecond: real, counters: Counters, dryRun: bool, now: real)
      ensures Valid() && this.counters == counters && this.dryRun == dryRun && rate == eventsPerSecond
      ensures Abs() == Progress(NewBucket(eventsPerSecond, now), counters.Abs(), false)
      ensures capacity == tokens && refilled == now
      ensures tokens == if eventsPerSecond <= 0.0 then 0.0 else if eventsPerSecond < 1.0 then 1.0 else eventsPerSecond
    {
      rate := eventsPerSecond;
      capacity := if eventsPerSecond > 0.0 then Max(1.0, eventsPerSecond) else 0.0;
      this.counters := counters;
      this.dryRun := dryRun;
      tokens := if eventsPerSecond > 0.0 then Max(1.0, eventsPerSecond) else 0.0;
      refilled := now;
      connected := false;
    }

    method TakeToken(now: real) returns (granted: bool)
      requires Valid()
      modifies `tokens, `refilled
      ensures granted == old(Grants(Abs().bucket, now))
      ensures Abs() == old(Abs()).(bucket := old(Take(Abs().bucket, now)))
    {
      if rate <= 0.0 {
        return true;
      }
      tokens := Min(capacity, tokens + (now - refilled) * rate);
      refilled := now;
      if tokens < 1.0 {
        return false;
      }
      tokens := tokens - 1.0;
      return true;
    }

    /** Use the socket, opening it if needed; a socket error is reported, never raised further. */
    method Transmit(reachable: bool) returns (sent: bool)
      modifies `connected
      ensures sent == reachable
      ensures connected == (old(connected) || reachable)
    {
      if reachable {
        connected := true;
      }
      return reachable;
    }

    method Reset()
      modifies `connected
      ensures !connected
    {
      connected := false;
    }

    method Send(e: Sending) returns (forwarded: bool)
      requires Valid()
      modifies this, counters
      ensures Abs() == Dispatch(old(Abs()), dryRun, e)
      ensures forwarded <==> FateOf(old(Grants(Abs().bucket, e.time)), dryRun, e) == Forwarded
    {
      var granted := TakeToken(e.time);
      if !granted {
        counters.droppedRateLimited := counters.droppedRateLimited + 1;
        return false;
      }
      if e.size > MAX_DATAGRAM_BYTES {
        counters.droppedOversized := counters.droppedOversized + 1;
        return false;
      }
      if dryRun {
        counters.forwarded := counters.forwarded + 1;
        return true;
      }
      var sent := Transmit(e.reachable);
      if !sent {
        counters.droppedUnreachable := counters.droppedUnreachable + 1;
        Reset();
        return false;
      }
      counters.forwarded := counters.forwarded + 1;
      return true;
    }
  }

  /** Read the whole stream, counting what becomes of every line. */
  method Run(lines: seq<Line>, eventsPerSecond: real, dryRun: bool, created: real) returns (counters: Counters)
    ensures fresh(counters)
    ensures counters.Abs() ==
      FeedAll(Progress(NewBucket(eventsPerSecond, created), NOTHING, false), dryRun, lines).tally
  {
    counters := new Counters();
    var forwarder := new Forwarder(eventsPerSecond, counters, dryRun, created);
    ghost var start := forwarder.Abs();
    var n := 0;
    assert lines[..0] == [];
    while n < |lines|
      invariant 0 <= n <= |lines|
      invariant forwarder.Valid() && forwarder.counters == counters && forwarder.dryRun == dryRun
      invariant fresh(forwarder) && fresh(counters)
      invariant forwarder.Abs() == FeedAll(start, dryRun, lines[..n])
    {
      hide Dispatch;
      assert lines[..n + 1][..n] == lines[..n];
      var line := lines[n];
      n := n + 1;
      if line.length > MAX_LINE_BYTES {
        counters.ignoredNonEvent := counters.ignoredNonEvent + 1;
        continue;
      }
      if line.event.None? {
        counters.ignoredNonEvent := counters.ignoredNonEvent + 1;
      } else {
        var _ := forwarder.Send(line.event.value);
      }
    }
    assert lines[..n] == lines;
  }

  // ----- Accounting -----

  /** The books balance: every line is counted once, and what passed the bucket is what it granted. */
  ghost predicate Balanced(b: Bucket, times: seq<real>, p: Progress, lines: nat) {
    var granted := GrantedCount(b, times, 0, |times|);
    && p.bucket == AfterAttempts(b, times)
    && p.tally.ignored + |times| == lines
    && p.tally.forwarded + p.tally.unreachable + p.tally.oversized == granted
    && p.tally.limited + granted == |times|
  }

  lemma DispatchBalanced(b: Bucket, times: seq<real>, p: Progress, lines: nat, dryRun: bool, e: Sending)
    requires Balanced(b, times, p, lines)
    ensures Balanced(b, times + [e.time], Dispatch(p, dryRun, e), lines + 1)
  {
    OneMoreAttempt(b, times, e.time);
    hide AfterAttempts, GrantedCount, Take, Grants;
  }

  lemma IgnoreBalanced(b: Bucket, times: seq<real>, p: Progress, lines: nat)
    requires Balanced(b, times, p, lines)
    ensures Balanced(b, times, p.(tally := Count(p.tally, Ignored)), lines + 1)
  {
    hide AfterAttempts, GrantedCount;
  }

  lemma {:induction false} RunBalanced(b: Bucket, dryRun: bool, lines: seq<Line>)
    ensures Balanced(b, AttemptTimes(lines), FeedAll(Progress(b, NOTHING, false), dryRun, lines), |lines|)
  {
    if lines != [] {
      hide Balanced, Dispatch;
      var front, last := lines[..|lines| - 1], lines[|lines| - 1];
      RunBalanced(b, dryRun, front);
      var p := FeedAll(Progress(b, NOTHING, false), dryRun, front);
      if EventOf(last).Some? {
        DispatchBalanced(b, AttemptTimes(front), p, |front|, dryRun, EventOf(last).value);
      } else {
        assert AttemptTimes(lines) == AttemptTimes(front);
        IgnoreBalanced(b, AttemptTimes(front), p, |front|);
      }
    }
  }

  /** Every line is counted exactly once, and the counters agree with the bucket's decisions. */
  lemma RunAccounts(b: Bucket, dryRun: bool, lines: seq<Line>)
    ensures var p, times := FeedAll(Progress(b, NOTHING, false), dryRun, lines), AttemptTimes(lines);
      && p.bucket == AfterAttempts(b, times)
      && p.tally.Total() == |lines|
      && p.tally.ignored + |times| == |lines|
      && p.tally.forwarded + p.tally.unreachable + p.tally.oversized == GrantedCount(b, times, 0, |times|)
      && p.tally.limited == |times| - GrantedCount(b, times, 0, |times|)
  {
    hide FeedAll, AttemptTimes, AfterAttempts, GrantedCount;
    RunBalanced(b, dryRun, lines);
  }

  lemma OneMoreAttempt(b: Bucket, earlier: seq<real>, time: real)
    ensures var times, before := earlier + [time], AfterAttempts(b, earlier);
      && AfterAttempts(b, times) == Take(before, time)
      && GrantedCount(b, times, 0, |times|) ==
           GrantedCount(b, earlier, 0, |earlier|) + (if Grants(before, time) then 1 else 0)
  {
    hide Take, Grants;
    var times := earlier + [time];
    assert times[..|earlier|] == earlier;
    SameGrants(b, earlier, times, 0, |earlier|);
  }

  /** Later attempts do not change what earlier ones were granted. */
  lemma {:induction false} SameGrants(b: Bucket, earlier: seq<real>, times: seq<real>, from: nat, end: nat)
    requires end <= |earlier| && earlier <= times
    ensures GrantedCount(b, earlier, from, end) == GrantedCount(b, times, from, end)
    decreases end
  {
    if from < end {
      SameGrants(b, earlier, times, from, end - 1);
      assert earlier[..end - 1] == times[..end - 1];
    }
  }

  // ----- What each counter counts -----

  /** A line that is an event asking to be sent. */
  predicate Asks(line: Line) { line.length <= 65_536 && line.event.Some? }

  /** Line `i` asks, and the bucket grants it a token. */
  predicate Passes(b: Bucket, lines: seq<Line>, i: nat)
    requires i < |lines|
  {
    Asks(lines[i]) && Grants(AfterAttempts(b, AttemptTimes(lines[..i])), lines[i].event.value.time)
  }

  function FateAt(b: Bucket, dryRun: bool, lines: seq<Line>, i: nat): Fate
    requires i < |lines|
  {
    match EventOf(lines[i])
    case None => Ignored
    case Some(e) => FateOf(Grants(AfterAttempts(b, AttemptTimes(lines[..i])), e.time), dryRun, e)
  }

  function LinesWith(b: Bucket, dryRun: bool, lines: seq<Line>, fate: Fate): set<nat> {
    set i: nat | i < |lines| && FateAt(b, dryRun, lines, i) == fate
  }

  function CounterOf(t: Tally, fate: Fate): nat {
    match fate
    case Forwarded => t.forwarded
    case Unreachable => t.unreachable
    case Oversized => t.oversized
    case Limited => t.limited
    case Ignored => t.ignored
  }

  lemma SameFates(b: Bucket, dryRun: bool, front: seq<Line>, last: Line)
    ensures forall i: nat :: i < |front| ==> FateAt(b, dryRun, front + [last], i) == FateAt(b, dryRun, front, i)
  {
    var lines := front + [last];
    forall i: nat | i < |front| ensures FateAt(b, dryRun, lines, i) == FateAt(b, dryRun, front, i) {
      assert lines[..i] == front[..i] && lines[i] == front[i];
      hide EventOf, FateOf, Grants, AfterAttempts, AttemptTimes;
    }
  }

  lemma OneMoreLine(b: Bucket, dryRun: bool, front: seq<Line>, last: Line, fate: Fate)
    ensures |LinesWith(b, dryRun, front + [last], fate)| == |LinesWith(b, dryRun, front, fate)| +
      (if FateAt(b, dryRun, front + [last], |front|) == fate then 1 else 0)
  {
    hide FateAt;
    SameFates(b, dryRun, front, last);
    var before, after := LinesWith(b, dryRun, front, fate), LinesWith(b, dryRun, front + [last], fate);
    assert after == if FateAt(b, dryRun, front + [last], |front|) == fate then before + {|front|} else before;
  }

  /** One more line moves the counter of its own fate. */
  lemma FeedCounts(b: Bucket, dryRun: bool, p: Progress, front: seq<Line>, last: Line, fate: Fate)
    requires p.bucket == AfterAttempts(b, AttemptTimes(front))
    ensures CounterOf(Feed(p, dryRun, last).tally, fate) ==
      CounterOf(p.tally, fate) + (if FateAt(b, dryRun, front + [last], |front|) == fate then 1 else 0)
  {
    assert (front + [last])[..|front|] == front;
    hide AfterAttempts, AttemptTimes, Grants, Take, EventOf, FateOf;
  }

  lemma {:induction false} CountersAreFates(b: Bucket, dryRun: bool, lines: seq<Line>, fate: Fate)
    ensures CounterOf(FeedAll(Progress(b, NOTHING, false), dryRun, lines).tally, fate)
         == |LinesWith(b, dryRun, lines, fate)|
  {
    hide CounterOf, Feed, LinesWith, AfterAttempts, AttemptTimes, GrantedCount;
    if lines == [] {
      NothingCounted(b, dryRun, fate);
    } else {
      var front, last := lines[..|lines| - 1], lines[|lines| - 1];
      CountersAreFates(b, dryRun, front, fate);
      RunAccounts(b, dryRun, front);
      FeedCounts(b, dryRun, FeedAll(Progress(b, NOTHING, false), dryRun, front), front, last, fate);
      OneMoreLine(b, dryRun, front, last, fate);
      assert lines == front + [last];
    }
  }

  lemma NothingCounted(b: Bucket, dryRun: bool, fate: Fate)
    ensures CounterOf(NOTHING, fate) == 0 == |LinesWith(b, dryRun, [], fate)|
  {
    assert LinesWith(b, dryRun, [], fate) == {};
  }

  /** Each counter counts exactly its own lines. */
  lemma CountersMean(b: Bucket, dryRun: bool, lines: seq<Line>)
    ensures var t := FeedAll(Progress(b, NOTHING, false), dryRun, lines).tally;
      && t.ignored == |set i: nat | i < |lines| && !Asks(lines[i])|
      && t.limited == |set i: nat | i < |lines| && Asks(lines[i]) && !Passes(b, lines, i)|
      && t.oversized == |set i: nat | i < |lines| && Passes(b, lines, i) && lines[i].event.value.size > 8_192|
      && t.forwarded == |set i: nat | i < |lines| && Passes(b, lines, i) && lines[i].event.value.size <= 8_192
                                      && (dryRun || lines[i].event.value.reachable)|
      && t.unreachable == |set i: nat | i < |lines| && Passes(b, lines, i) && lines[i].event.value.size <= 8_192
                                        && !dryRun && !lines[i].event.value.reachable|
  {
    CountersAreFates(b, dryRun, lines, Ignored);
    CountersAreFates(b, dryRun, lines, Limited);
    CountersAreFates(b, dryRun, lines, Oversized);
    CountersAreFates(b, dryRun, lines, Forwarded);
    CountersAreFates(b, dryRun, lines, Unreachable);
    hide FeedAll, Grants, AfterAttempts, AttemptTimes;
    assert LinesWith(b, dryRun, lines, Ignored) == set i: nat | i < |lines| && !Asks(lines[i]);
    assert LinesWith(b, dryRun, lines, Limited) ==
      set i: nat | i < |lines| && Asks(lines[i]) && !Passes(b, lines, i);
    assert LinesWith(b, dryRun, lines, Oversized) ==
      set i: nat | i < |lines| && Passes(b, lines, i) && lines[i].event.value.size > 8_192;
    assert LinesWith(b, dryRun, lines, Forwarded) ==
      set i: nat | i < |lines| && Passes(b, lines, i) && lines[i].event.value.size <= 8_192
                   && (dryRun || lines[i].event.value.reachable);
    assert LinesWith(b, dryRun, lines, Unreachable) ==
      set i: nat | i < |lines| && Passes(b, lines, i) && lines[i].event.value.size <= 8_192
                   && !dryRun && !lines[i].event.value.reachable;
  }

  lemma GrantsSplit(b: Bucket, times: seq<real>, from: nat, middle: nat, end: nat)
    requires from <= middle <= end <= |times|
    ensures GrantedCount(b, times, from, end)
         == GrantedCount(b, times, from, middle) + GrantedCount(b, times, middle, end)
    decreases end
  {
    hide Granted;
    if middle < end {
      GrantsSplit(b, times, from, middle, end - 1);
    }
  }

  lemma FeedGrows(p: Progress, dryRun: bool, line: Line)
    ensures var q := Feed(p, dryRun, line);
      && p.tally.forwarded <= q.tally.forwarded
      && p.tally.unreachable <= q.tally.unreachable
      && p.tally.oversized <= q.tally.oversized
  {
    hide Take, Grants;
  }

  lemma {:induction false} ForwardedGrows(p: Progress, dryRun: bool, lines: seq<Line>, i: nat)
    requires i <= |lines|
    ensures var early, late := FeedAll(p, dryRun, lines[..i]).tally, FeedAll(p, dryRun, lines).tally;
      && early.forwarded <= late.forwarded
      && early.unreachable <= late.unreachable
      && early.oversized <= late.oversized
    ensures AttemptTimes(lines[..i]) <= AttemptTimes(lines)
  {
    if i == |lines| {
      assert lines[..i] == lines;
    } else {
      hide Feed, EventOf;
      var front, last := lines[..|lines| - 1], lines[|lines| - 1];
      assert front[..i] == lines[..i];
      ForwardedGrows(p, dryRun, front, i);
      FeedGrows(FeedAll(p, dryRun, front), dryRun, last);
    }
  }

  /** Over any stretch of the stream no more is forwarded than the bucket grants. */
  lemma ForwardedAreGranted(b: Bucket, dryRun: bool, lines: seq<Line>, i: nat)
    requires i <= |lines|
    ensures var start, times, earlier :=
        Progress(b, NOTHING, false), AttemptTimes(lines), |AttemptTimes(lines[..i])|;
      && earlier <= |times|
      && FeedAll(start, dryRun, lines).tally.forwarded - FeedAll(start, dryRun, lines[..i]).tally.forwarded
           <= GrantedCount(b, times, earlier, |times|)
  {
    hide FeedAll, AttemptTimes, GrantedCount;
    var start, times, earlier := Progress(b, NOTHING, false), AttemptTimes(lines), AttemptTimes(lines[..i]);
    ForwardedGrows(start, dryRun, lines, i);
    RunAccounts(b, dryRun, lines);
    RunAccounts(b, dryRun, lines[..i]);
    SameGrants(b, earlier, times, 0, |earlier|);
    GrantsSplit(b, times, 0, |earlier|, |times|);
  }

  lemma WithinBudget(sent: int, granted: nat, rate: real, seconds: real)
    requires sent <= granted && granted as real <= (if rate < 1.0 then 1.0 else rate) + rate * seconds
    ensures sent as real <= (if rate < 1.0 then 1.0 else rate) + rate * seconds
  {
  }

  /**
   * What is forwarded over any stretch of the stream is at most the larger of the rate and one, plus the
   * rate times the time between the stretch's first and last events.
   */
  lemma ForwardedBound(rate: real, created: real, dryRun: bool, lines: seq<Line>, i: nat)
    requires rate > 0.0 && i <= |lines| && Nondecreasing(created, AttemptTimes(lines))
    requires |AttemptTimes(lines[..i])| < |AttemptTimes(lines)|
    ensures var start, times := Progress(NewBucket(rate, created), NOTHING, false), AttemptTimes(lines);
      var sent := FeedAll(start, dryRun, lines).tally.forwarded - FeedAll(start, dryRun, lines[..i]).tally.forwarded;
      sent as real <=
        (if rate < 1.0 then 1.0 else rate) + rate * (times[|times| - 1] - times[|AttemptTimes(lines[..i])|])
  {
    hide FeedAll, AttemptTimes, GrantedCount, NewBucket, Nondecreasing;
    var b := NewBucket(rate, created);
    var start, times, earlier := Progress(b, NOTHING, false), AttemptTimes(lines), |AttemptTimes(lines[..i])|;
    var sent := FeedAll(start, dryRun, lines).tally.forwarded - FeedAll(start, dryRun, lines[..i]).tally.forwarded;
    ForwardedAreGranted(b, dryRun, lines, i);
    WindowBound(rate, created, times, earlier + 1, |times| - 1);
    WithinBudget(sent, GrantedCount(b, times, earlier, |times|), rate, times[|times| - 1] - times[earlier]);
  }
}
