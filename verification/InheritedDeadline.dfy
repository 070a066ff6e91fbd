/** A request that begins behind a completed one inherits the deadline of the one before it. */
module InheritedDeadline {
  import opened Wrappers
  import opened Framing
  import opened Sessions
  import opened ServerSystem
  import opened SessionSlots

  /** A register read, its first byte, and the delivery that completes it and begins the next request. */
  const READ_REQUEST: seq<Byte> := [0, 1, 0, 0, 0, 6, 1, 3, 0, 42, 0, 1]
  const FIRST: seq<Byte> := [0]
  const REST: seq<Byte> := [1, 0, 0, 0, 6, 1, 3, 0, 42, 0, 1, 0]

  const SETUP := Setup(frame => Request, Limits(128, 120.0, 5.0))

  lemma CompletesAndBegins()
    ensures Frames(FIRST + REST) == [READ_REQUEST] && Rest(FIRST + REST) == FIRST
  {
    var adus: seq<seq<Byte>> := [READ_REQUEST];
    assert WellFormedAdu(READ_REQUEST);
    FramesOfStream(adus, FIRST);
    FlattenFirst(READ_REQUEST, []);
    assert [READ_REQUEST] + [] == adus;
    assert Flatten(adus) + FIRST == READ_REQUEST + FIRST == FIRST + REST;
  }

  lemma FirstByteWaits()
    ensures Frames(FIRST) == [] && Rest(FIRST) == FIRST
  {
    FirstFrame(FIRST);
  }

  const ACCEPTED := Session([], [], None, Some(120.0), None, true, false)
  const WAITING := Session(FIRST, [], None, Some(120.0), Some(5.0), true, false)
  const BEHIND := Session(FIRST, [PduOf(READ_REQUEST)], Some(0), Some(124.0), Some(5.0), true, false)

  lemma OneAccepted()
    ensures var frames: seq<seq<Byte>> := [READ_REQUEST];
      && Rejected(SETUP.kind, frames) == None
      && Accepted(SETUP.kind, frames) == [PduOf(READ_REQUEST)]
  {
    NoFrames(SETUP.kind);
    FirstOf(SETUP.kind, READ_REQUEST, []);
    assert [READ_REQUEST] + [] == [READ_REQUEST];
  }

  lemma FirstDelivery()
    ensures var d := Receive(SETUP.kind, SETUP.limits, 0.0, false, 0, ACCEPTED, FIRST);
      d.session == WAITING && !d.started
  {
    FirstByteWaits();
    assert [] + FIRST == FIRST;
    NoFrames(SETUP.kind);
    ReceiveDecodes(SETUP.kind, SETUP.limits, 0.0, false, 0, ACCEPTED, FIRST);
    hide ScanFrames, Frames, Rest, Accepted, Rejected, Refusals;
  }

  lemma SecondDelivery()
    ensures var d := Receive(SETUP.kind, SETUP.limits, 4.0, false, 0, WAITING, REST);
      d.session == BEHIND && d.started
  {
    CompletesAndBegins();
    OneAccepted();
    ReceiveDecodes(SETUP.kind, SETUP.limits, 4.0, false, 0, WAITING, REST);
    hide ScanFrames, Frames, Rest, Accepted, Rejected, Refusals, PduOf;
  }

  const OPENING: seq<Step> := [Accept(None), Deliver(0, FIRST)]
  const CONTINUED: seq<Step> := OPENING + [Wait(4.0)] + [Deliver(0, REST)]
  const EXPIRED: seq<Step> := CONTINUED + [Wait(1.0)] + [Fire(0)]

  /** One session, and no drain task created yet or one. */
  ghost predicate Alone(x: System, now: real, s: Session, tasks: nat) {
    x.now == now && |x.conns| == 1 && x.conns[0].session == s && |x.tasks| == tasks
  }

  lemma Accepts()
    ensures Alone(Next(SETUP, START, Accept(None)), 0.0, ACCEPTED, 0)
  {
  }

  lemma Delivers(x: System, now: real, s: Session, data: seq<Byte>)
    requires Alone(x, now, s, 0) && !s.closed && s.drain.None?
    ensures var d := Receive(SETUP.kind, SETUP.limits, now, false, 0, s, data);
      Alone(Next(SETUP, x, Deliver(0, data)), now, d.session, if d.started then 1 else 0)
  {
    hide Receive;
  }

  lemma Waits(x: System, now: real, s: Session, tasks: nat, seconds: real)
    requires Alone(x, now, s, tasks) && seconds >= 0.0
    requires Before(now + seconds, s.idle) && Before(now + seconds, s.incomplete)
    ensures Alone(Next(SETUP, x, Wait(seconds)), now + seconds, s, tasks)
  {
  }

  lemma Fires(x: System, now: real, s: Session, tasks: nat)
    requires Alone(x, now, s, tasks) && Due(s.incomplete, now)
    ensures Alone(Next(SETUP, x, Fire(0)), now, Closed(s), tasks)
  {
  }

  lemma AfterOpening()
    ensures Alone(Reach(SETUP, OPENING), 0.0, WAITING, 0)
  {
    var none: seq<Step> := [];
    ReachMore(SETUP, none, Accept(None));
    ReachMore(SETUP, [Accept(None)], Deliver(0, FIRST));
    assert none + [Accept(None)] == [Accept(None)];
    assert [Accept(None)] + [Deliver(0, FIRST)] == OPENING;
    Accepts();
    FirstDelivery();
    hide Next, Receive, Alone;
    Delivers(Reach(SETUP, [Accept(None)]), 0.0, ACCEPTED, FIRST);
  }

  lemma AfterContinuing()
    ensures Alone(Reach(SETUP, CONTINUED), 4.0, BEHIND, 1)
  {
    hide Reach, Next, Receive, Alone, PduOf;
    AfterOpening();
    ReachMore(SETUP, OPENING, Wait(4.0));
    ReachMore(SETUP, OPENING + [Wait(4.0)], Deliver(0, REST));
    Waits(Reach(SETUP, OPENING), 0.0, WAITING, 0, 4.0);
    SecondDelivery();
    Delivers(Reach(SETUP, OPENING + [Wait(4.0)]), 4.0, WAITING, REST);
  }

  /**
   * A delivery at four seconds completes a read and begins the next request; one second later, under a
   * limit of five, the session is closed for that request being incomplete.
   */
  lemma SecondOldRequestCloses()
    ensures var x, y := Reach(SETUP, CONTINUED), Reach(SETUP, EXPIRED);
      && |x.conns| == |y.conns| == 1
      && x.conns[0].session.queue == [PduOf(READ_REQUEST)] && x.conns[0].session.buffer == FIRST
      && !x.conns[0].session.closed && y.conns[0].session.closed
      && y.now - x.now == 1.0 && SETUP.limits.incompleteTimeout == 5.0
  {
    hide Reach, Next, PduOf;
    AfterContinuing();
    ReachMore(SETUP, CONTINUED, Wait(1.0));
    ReachMore(SETUP, CONTINUED + [Wait(1.0)], Fire(0));
    Waits(Reach(SETUP, CONTINUED), 4.0, BEHIND, 1, 1.0);
    Fires(Reach(SETUP, CONTINUED + [Wait(1.0)]), 5.0, BEHIND, 1);
  }
}
