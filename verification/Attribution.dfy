/** Every event and reply belongs to the request that caused it, however sessions interleave. */
module Attribution {
  import opened Wrappers
  import opened Framing
  import opened Sessions
  import opened ServerSystem
  import opened QueueDiscipline
  import opened Segmentation
  import opened DeliveryStreams

  /** A request the session has begun to execute. */
  predicate Began(x: System, cause: Cause) {
    cause.conn < |x.conns| && cause.pdu in x.conns[cause.conn].begun
  }

  /** While a task awaits a request its own context names that request; otherwise it has none. */
  ghost predicate Bound(x: System, t: TaskId) {
    t < |x.tasks| ==>
      var task := x.tasks[t];
      && task.conn < |x.conns|
      && (match task.running
          case None => task.bound == None
          case Some(pdu) =>
            && task.bound == ContextOf(x.conns[task.conn].peer, task.conn, pdu)
            && pdu in x.conns[task.conn].begun)
  }

  ghost predicate Attributed(x: System, e: Emitted) {
    && Began(x, e.cause)
    && e.origin == ContextOf(x.conns[e.cause.conn].peer, e.cause.conn, e.cause.pdu)
  }

  ghost predicate AllAttributed(x: System) {
    && (forall t: TaskId :: Bound(x, t))
    && (forall e :: e in x.events ==> Attributed(x, e))
  }

  /** Connections are kept, with their peer, and what has begun stays begun. */
  ghost predicate Grows(x: System, y: System) {
    && |x.conns| <= |y.conns|
    && (forall c :: 0 <= c < |x.conns| ==> y.conns[c].peer == x.conns[c].peer)
    && (forall c, pdu :: 0 <= c < |x.conns| && pdu in x.conns[c].begun ==> pdu in y.conns[c].begun)
  }

  lemma NextGrows(p: Setup, x: System, step: Step)
    requires Handles(x)
    ensures Grows(x, Next(p, x, step))
  {
    hide Receive, Handles;
    if step.Begin? && Enabled(x, step) { HandlesAt(x, step.task, 0); }
  }

  lemma KeptAttributed(x: System, y: System, e: Emitted)
    requires Grows(x, y) && Attributed(x, e)
    ensures Attributed(y, e)
  {
  }

  lemma NextBound(p: Setup, x: System, step: Step, t: TaskId)
    requires Handles(x) && forall u: TaskId :: Bound(x, u)
    ensures Bound(Next(p, x, step), t)
  {
    NextGrows(p, x, step);
    HandlesAt(x, t, 0);
    assert Bound(x, t);
    hide Receive, Handles;
  }

  lemma NextAttributed(p: Setup, x: System, step: Step)
    requires Handles(x) && AllAttributed(x)
    ensures AllAttributed(Next(p, x, step))
  {
    var y := Next(p, x, step);
    NextGrows(p, x, step);
    forall t: TaskId ensures Bound(y, t) { NextBound(p, x, step, t); }
    forall e | e in y.events ensures Attributed(y, e) {
      EventOfStep(p, x, step, e);
      KeptAttributed(x, y, e);
    }
    hide Next, Handles;
  }

  lemma EventOfStep(p: Setup, x: System, step: Step, e: Emitted)
    requires AllAttributed(x) && e in Next(p, x, step).events
    ensures Attributed(x, e)
  {
    hide Receive;
    if step.Emit? && Enabled(x, step) { assert Bound(x, step.task); }
  }

  lemma {:induction false} ReachAttributed(p: Setup, steps: seq<Step>)
    ensures AllAttributed(Reach(p, steps))
  {
    hide Next;
    if steps != [] {
      hide AllAttributed, Handles;
      ReachAttributed(p, steps[..|steps| - 1]);
      ReachHandles(p, steps[..|steps| - 1]);
      NextAttributed(p, Reach(p, steps[..|steps| - 1]), steps[|steps| - 1]);
    }
  }

  /**
   * Every event carries the session and transaction identifier of a request its session really began,
   * namely the one that caused it, or no context at all exactly when the peer is unknown; that request is
   * one its deliveries ask for and, in a clean session, one its received bytes encode.
   */
  lemma EventsAttributed(p: Setup, steps: seq<Step>, i: nat)
    requires i < |Reach(p, steps).events|
    ensures var x := Reach(p, steps);
      var e := x.events[i];
      && e.cause.conn < |x.conns| && e.cause.pdu in x.conns[e.cause.conn].begun
      && (e.origin.None? <==> x.conns[e.cause.conn].peer.None?)
      && (e.origin.Some? ==>
            && e.origin.value.session == e.cause.conn
            && e.origin.value.transaction == e.cause.pdu.transaction
            && x.conns[e.cause.conn].peer == Some(e.origin.value.peer))
      && e.cause.pdu in TakenOver(p.kind, x.conns[e.cause.conn].deliveries)
      && (Clean(p, x.conns[e.cause.conn]) ==>
            e.cause.pdu in Accepted(p.kind, Frames(x.conns[e.cause.conn].received)))
  {
    hide Reach, Accepted, Frames, Clean, TakenOver;
    ReachAttributed(p, steps);
    var x := Reach(p, steps);
    var e := x.events[i];
    assert Attributed(x, e);
    TakenFromDeliveries(p, steps, e.cause.conn);
    if Clean(p, x.conns[e.cause.conn]) { DecodedAsOneStream(p, steps, e.cause.conn); }
  }

  // ----- Replies keep the identifiers and the order of the requests -----

  /** `part` can be obtained from `whole` by leaving elements out. */
  predicate Subsequence<T(==)>(part: seq<T>, whole: seq<T>) {
    if part == [] then true
    else if whole == [] then false
    else
      || (part[|part| - 1] == whole[|whole| - 1] && Subsequence(part[..|part| - 1], whole[..|whole| - 1]))
      || Subsequence(part, whole[..|whole| - 1])
  }

  lemma SubsequenceGrows<T>(part: seq<T>, whole: seq<T>, next: T)
    requires Subsequence(part, whole)
    ensures Subsequence(part, whole + [next]) && Subsequence(part + [next], whole + [next])
  {
    assert (whole + [next])[..|whole|] == whole && (part + [next])[..|part|] == part;
  }

  lemma {:induction false} SubsequenceExtends<T>(part: seq<T>, whole: seq<T>, more: seq<T>)
    requires Subsequence(part, whole)
    ensures Subsequence(part, whole + more)
  {
    if more == [] {
      assert whole + more == whole;
    } else {
      hide Subsequence;
      var front, last := more[..|more| - 1], more[|more| - 1];
      SubsequenceExtends(part, whole, front);
      SubsequenceGrows(part, whole + front, last);
      SplitAt(more, |more| - 1);
      assert more[|more| - 1..] == [last];
      Associative(whole, front, [last]);
    }
  }

  /** A transaction and a unit identifier. */
  type Identifiers = (int, int)

  function IdentifiersOf(pdus: seq<Pdu>): seq<Identifiers> {
    seq(|pdus|, i requires 0 <= i < |pdus| => (pdus[i].transaction, pdus[i].unit))
  }

  /** The identifiers a connection's replies carry, in the order they are sent. */
  function RepliesOn(responses: seq<Response>, c: ConnId): seq<Identifiers> {
    if responses == [] then []
    else
      var last := responses[|responses| - 1];
      RepliesOn(responses[..|responses| - 1], c) + if last.conn == c then [(last.transaction, last.unit)] else []
  }

  /** The header bytes of the frames that are to be executed, in stream order. */
  function RequestHeaders(kind: seq<Byte> -> Kind, frames: seq<seq<Byte>>): seq<Identifiers> {
    if frames == [] then []
    else
      var frame := frames[0];
      (if KindOf(kind, frame) == Request && !RefusedCoil(frame) then
         [(256 * (frame[0] as int) + frame[1] as int, frame[UNIT_OFFSET] as int)]
       else [])
        + RequestHeaders(kind, frames[1..])
  }

  lemma IdentifiersConcat(one: seq<Pdu>, other: seq<Pdu>)
    ensures IdentifiersOf(one + other) == IdentifiersOf(one) + IdentifiersOf(other)
  {
  }

  lemma HeaderOf(frame: seq<Byte>)
    requires |frame| >= MINIMUM_FRAME
    ensures IdentifiersOf([PduOf(frame)]) == [(256 * (frame[0] as int) + frame[1] as int, frame[UNIT_OFFSET] as int)]
    ensures IdentifiersOf([]) == []
  {
  }

  lemma {:induction false} HeadersOfAccepted(kind: seq<Byte> -> Kind, frames: seq<seq<Byte>>)
    ensures IdentifiersOf(Accepted(kind, frames)) == RequestHeaders(kind, frames)
  {
    if frames != [] {
      hide RefusedCoil, IdentifiersOf, PduOf;
      var frame, later := frames[0], Accepted(kind, frames[1..]);
      HeadersOfAccepted(kind, frames[1..]);
      if KindOf(kind, frame) == Request && !RefusedCoil(frame) {
        HeaderOf(frame);
        IdentifiersConcat([PduOf(frame)], later);
        assert Accepted(kind, frames) == [PduOf(frame)] + later;
      } else {
        assert Accepted(kind, frames) == later;
      }
    }
  }

  /** The header bytes of the frames that are to be executed, delivery by delivery. */
  function HeadersOver(kind: seq<Byte> -> Kind, deliveries: seq<seq<Byte>>): seq<Identifiers> {
    if deliveries == [] then []
    else
      var front := deliveries[..|deliveries| - 1];
      var bytes := Carried(kind, front) + deliveries[|deliveries| - 1];
      HeadersOver(kind, front) + RequestHeaders(kind, Decoded(kind, Frames(bytes)))
  }

  lemma {:induction false} HeadersOfTaken(kind: seq<Byte> -> Kind, deliveries: seq<seq<Byte>>)
    ensures IdentifiersOf(TakenOver(kind, deliveries)) == HeadersOver(kind, deliveries)
  {
    if deliveries != [] {
      hide Carried, Frames, Decoded, Accepted, RequestHeaders, IdentifiersOf;
      var front := deliveries[..|deliveries| - 1];
      var bytes := Carried(kind, front) + deliveries[|deliveries| - 1];
      HeadersOfTaken(kind, front);
      HeadersOfAccepted(kind, Decoded(kind, Frames(bytes)));
      IdentifiersConcat(TakenOver(kind, front), Accepted(kind, Decoded(kind, Frames(bytes))));
    }
  }

  ghost predicate InOrder(x: System, c: ConnId) {
    && (c < |x.conns| ==> Subsequence(RepliesOn(x.responses, c), IdentifiersOf(x.conns[c].finished)))
    && (c >= |x.conns| ==> RepliesOn(x.responses, c) == [])
  }

  lemma OneMoreFinished(finished: seq<Pdu>, pdu: Pdu)
    ensures IdentifiersOf(finished + [pdu]) == IdentifiersOf(finished) + [(pdu.transaction, pdu.unit)]
  {
  }

  lemma FinishInOrder(x: System, t: TaskId, answered: bool, c: ConnId)
    requires Handles(x) && Enabled(x, Finish(t, answered)) && InOrder(x, c)
    ensures InOrder(OnFinish(x, t, answered), c)
  {
    HandlesAt(x, t, c);
    hide Handles, Subsequence, IdentifiersOf;
    var y, pdu := OnFinish(x, t, answered), x.tasks[t].running.value;
    if answered {
      assert y.responses[..|y.responses| - 1] == x.responses;
      assert RepliesOn(x.responses, c) + [] == RepliesOn(x.responses, c);
    }
    if c == x.tasks[t].conn {
      OneMoreFinished(x.conns[c].finished, pdu);
      SubsequenceGrows(RepliesOn(x.responses, c), IdentifiersOf(x.conns[c].finished), (pdu.transaction, pdu.unit));
    }
  }

  lemma CrashInOrder(x: System, t: TaskId, c: ConnId)
    requires Handles(x) && Enabled(x, Crash(t)) && InOrder(x, c)
    ensures InOrder(OnCrash(x, t), c)
  {
    HandlesAt(x, t, c);
    hide Handles, Subsequence, IdentifiersOf, RepliesOn;
    var pdu := x.tasks[t].running.value;
    if c == x.tasks[t].conn {
      OneMoreFinished(x.conns[c].finished, pdu);
      SubsequenceGrows(RepliesOn(x.responses, c), IdentifiersOf(x.conns[c].finished), (pdu.transaction, pdu.unit));
    }
  }

  lemma NextInOrder(p: Setup, x: System, step: Step, c: ConnId)
    requires Handles(x) && InOrder(x, c)
    ensures InOrder(Next(p, x, step), c)
  {
    hide Receive, Handles, RepliesOn, IdentifiersOf;
    if Enabled(x, step) {
      match step
      case Finish(t, answered) => FinishInOrder(x, t, answered, c);
      case Crash(t) => CrashInOrder(x, t, c);
      case Begin(t) => HandlesAt(x, t, c); hide Subsequence;
      case Accept(_) =>
      case _ => hide Subsequence;
    }
  }

  /** A connection's replies answer its finished requests in order, each at most once. */
  lemma {:induction false} RepliesInOrder(p: Setup, steps: seq<Step>, c: ConnId)
    ensures InOrder(Reach(p, steps), c)
  {
    hide Next;
    if steps != [] {
      hide InOrder, Handles;
      RepliesInOrder(p, steps[..|steps| - 1], c);
      ReachHandles(p, steps[..|steps| - 1]);
      NextInOrder(p, Reach(p, steps[..|steps| - 1]), steps[|steps| - 1], c);
    }
  }

  /**
   * The replies a client receives carry, in order and each at most once, the transaction and unit
   * identifiers of requests its connection began: header bytes the client itself sent, delivery by
   * delivery and, in a clean session, as one stream, whatever the other sessions do in between.
   */
  lemma RepliesEcho(p: Setup, steps: seq<Step>, c: ConnId)
    requires c < |Reach(p, steps).conns|
    ensures var x := Reach(p, steps);
      && Subsequence(RepliesOn(x.responses, c), IdentifiersOf(x.conns[c].begun))
      && Subsequence(RepliesOn(x.responses, c), HeadersOver(p.kind, x.conns[c].deliveries))
      && (Clean(p, x.conns[c]) ==>
            Subsequence(RepliesOn(x.responses, c), RequestHeaders(p.kind, Frames(x.conns[c].received))))
  {
    hide Reach, Subsequence, RepliesOn, Frames, Accepted, RequestHeaders, Clean, IdentifiersOf, TakenOver, HeadersOver;
    var x := Reach(p, steps);
    var conn := x.conns[c];
    RepliesInOrder(p, steps, c);
    QueueKept(p, steps, c);
    SubsequenceExtends(RepliesOn(x.responses, c), IdentifiersOf(conn.finished), IdentifiersOf(Running(x, c)));
    IdentifiersConcat(conn.finished, Running(x, c));
    TakenFromDeliveries(p, steps, c);
    var taken := TakenOver(p.kind, conn.deliveries);
    SplitAt(taken, |conn.begun|);
    assert taken[..|conn.begun|] == conn.begun;
    IdentifiersConcat(conn.begun, taken[|conn.begun|..]);
    SubsequenceExtends(RepliesOn(x.responses, c), IdentifiersOf(conn.begun), IdentifiersOf(taken[|conn.begun|..]));
    HeadersOfTaken(p.kind, conn.deliveries);
    if Clean(p, conn) {
      DecodedAsOneStream(p, steps, c);
      HeadersOfAccepted(p.kind, Frames(conn.received));
      SubsequenceExtends(RepliesOn(x.responses, c), IdentifiersOf(conn.begun), IdentifiersOf(conn.session.queue));
      IdentifiersConcat(conn.begun, conn.session.queue);
    }
  }
}
