/** A decoding failure, or a failing reply, can leave requests queued with nothing running to execute them. */
module StrandedRequests {
  import opened Wrappers
  import opened Framing
  import opened Sessions
  import opened ServerSystem
  import opened SessionSlots

  /** Two register reads, and a frame whose function code the decoder rejects. */
  const READ_REQUEST: seq<Byte> := [0, 1, 0, 0, 0, 6, 1, 3, 0, 42, 0, 1]
  const SECOND_READ: seq<Byte> := [0, 2, 0, 0, 0, 6, 1, 3, 0, 42, 0, 1]
  const UNDECODABLE: seq<Byte> := [0, 2, 0, 0, 0, 2, 1, 99]

  function Rejects99(frame: seq<Byte>): Kind {
    if |frame| > FUNCTION_CODE_OFFSET && frame[FUNCTION_CODE_OFFSET] == 99 then OtherFailure else Request
  }

  const LIMITS := Limits(128, 120.0, 5.0)
  const SETUP := Setup(Rejects99, LIMITS)

  // ----- Two frames in one delivery -----

  predicate Executes(kind: seq<Byte> -> Kind, adu: seq<Byte>) {
    WellFormedAdu(adu) && KindOf(kind, adu) == Request && !RefusedCoil(adu)
  }

  lemma TwoFrames(one: seq<Byte>, other: seq<Byte>)
    requires WellFormedAdu(one) && WellFormedAdu(other)
    ensures Frames(one + other) == [one] + [other]
  {
    hide WellFormedAdu, Frames, Rest, Flatten;
    var tail, nothing: seq<Byte> := [], [];
    var none: seq<seq<Byte>> := [];
    FramesOfStream([one] + [other], tail);
    FlattenFirst(one, [other]);
    FlattenFirst(other, none);
    assert [other] + none == [other];
    FlattenNothing();
    assert (one + (other + nothing)) + tail == one + other;
  }

  lemma FlattenNothing()
    ensures Flatten([]) == [] && FrameLength([]) == 0
  {
  }

  lemma ListsOfTwo(kind: seq<Byte> -> Kind, one: seq<Byte>, other: seq<Byte>)
    requires Executes(kind, one)
    ensures var frames := [one] + [other];
      && (Fails(kind, other) ==>
            Rejected(kind, frames) == Some(other) && Accepted(kind, Decoded(kind, frames)) == [PduOf(one)])
      && (Executes(kind, other) ==>
            Rejected(kind, frames) == None && Accepted(kind, frames) == [PduOf(one)] + [PduOf(other)])
  {
    hide PduOf, RefusedCoil, WellFormedAdu, Accepted, Decoded, Rejected, Refusals;
    NoFrames(kind);
    FirstOf(kind, one, [other]);
    FirstOf(kind, other, []);
    FirstOf(kind, one, []);
    assert [other] + [] == [other] && [one] + [] == [one];
  }

  /** A read, then a frame that fails: the read is queued and nothing is started. */
  lemma FailureStrands(kind: seq<Byte> -> Kind, s: Session, one: seq<Byte>, other: seq<Byte>)
    requires Executes(kind, one) && WellFormedAdu(other) && Fails(kind, other)
    requires s.buffer == [] && s.queue == [] && !s.closed && |one + other| <= MAX_PENDING_REQUEST_BYTES
    ensures var d := Receive(kind, LIMITS, 0.0, false, 0, s, one + other);
      !d.started && !d.session.closed && d.session.queue == [PduOf(one)]
  {
    hide ScanFrames, Frames, Rest, Accepted, Refusals, Decoded, Rejected, PduOf, WellFormedAdu, RefusedCoil;
    assert s.buffer + (one + other) == one + other;
    TwoFrames(one, other);
    ListsOfTwo(kind, one, other);
    ScanMeans(kind, Room(s.queue), one + other);
  }

  /** Two reads: both are queued and a task is started. */
  lemma ReadsQueued(kind: seq<Byte> -> Kind, s: Session, one: seq<Byte>, other: seq<Byte>)
    requires Executes(kind, one) && Executes(kind, other)
    requires s.buffer == [] && s.queue == [] && !s.closed && |one + other| <= MAX_PENDING_REQUEST_BYTES
    ensures var d := Receive(kind, LIMITS, 0.0, false, 0, s, one + other);
      && d.started && d.session.drain == Some(0) && !d.session.closed
      && d.session.queue == [PduOf(one)] + [PduOf(other)]
  {
    hide ScanFrames, Frames, Rest, Accepted, Refusals, Decoded, Rejected, PduOf, WellFormedAdu, RefusedCoil, KindOf;
    assert s.buffer + (one + other) == one + other;
    TwoFrames(one, other);
    ListsOfTwo(kind, one, other);
    ReceiveDecodes(kind, LIMITS, 0.0, false, 0, s, one + other);
  }

  lemma TheFrames()
    ensures Executes(Rejects99, READ_REQUEST) && Executes(Rejects99, SECOND_READ)
    ensures WellFormedAdu(UNDECODABLE) && Fails(Rejects99, UNDECODABLE)
    ensures |READ_REQUEST + SECOND_READ| == 24 && |READ_REQUEST + UNDECODABLE| == 20
  {
  }

  // ----- The runs -----

  const OPENED: seq<Step> := [Accept(None)]
  const FAILED: seq<Step> := OPENED + [Deliver(0, READ_REQUEST + UNDECODABLE)]
  const QUEUED: seq<Step> := OPENED + [Deliver(0, READ_REQUEST + SECOND_READ)]
  const CRASHED: seq<Step> := QUEUED + [Begin(0)] + [Crash(0)]

  lemma AfterOpening()
    ensures var x := Reach(SETUP, OPENED);
      && x.now == 0.0 && |x.conns| == 1 && x.tasks == []
      && x.conns[0].session == Session([], [], None, Some(120.0), None, true, false)
  {
    var none: seq<Step> := [];
    ReachMore(SETUP, none, Accept(None));
    assert none + [Accept(None)] == OPENED;
  }

  /** Both frames in one delivery to a new session: the read is queued, and no task exists to run it. */
  lemma RequestStranded()
    ensures var x := Reach(SETUP, FAILED);
      && |x.conns| == 1
      && !x.conns[0].session.closed
      && x.conns[0].session.queue == [PduOf(READ_REQUEST)]
      && x.tasks == []
  {
    hide Reach, Receive, PduOf, WellFormedAdu, Fails, Executes;
    TheFrames();
    AfterOpening();
    ReachMore(SETUP, OPENED, Deliver(0, READ_REQUEST + UNDECODABLE));
    FailureStrands(Rejects99, Reach(SETUP, OPENED).conns[0].session, READ_REQUEST, UNDECODABLE);
  }

  lemma AfterTwoReads()
    ensures var x := Reach(SETUP, QUEUED);
      && |x.conns| == 1 && x.tasks == [Task(0, None, None, false)]
      && x.conns[0].session.drain == Some(0) && !x.conns[0].session.closed
      && x.conns[0].session.queue == [PduOf(READ_REQUEST)] + [PduOf(SECOND_READ)]
  {
    hide Reach, Receive, PduOf, WellFormedAdu, Fails, Executes;
    TheFrames();
    AfterOpening();
    ReachMore(SETUP, OPENED, Deliver(0, READ_REQUEST + SECOND_READ));
    ReadsQueued(Rejects99, Reach(SETUP, OPENED).conns[0].session, READ_REQUEST, SECOND_READ);
  }

  /** Two reads in one delivery, and the first one's reply fails: the second stays queued with no task. */
  lemma CrashStrandsRequest()
    ensures var x := Reach(SETUP, CRASHED);
      && |x.conns| == 1
      && !x.conns[0].session.closed
      && x.conns[0].session.queue == [PduOf(SECOND_READ)]
      && |x.tasks| == 1 && x.tasks[0].done
  {
    hide Reach, Receive, PduOf;
    AfterTwoReads();
    ReachMore(SETUP, QUEUED, Begin(0));
    ReachMore(SETUP, QUEUED + [Begin(0)], Crash(0));
  }
}
