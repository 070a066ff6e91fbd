/** The histories the session theorems speak of are what really happened on each connection. */
module Histories {
  import opened Framing
  import opened Sessions
  import opened ServerSystem
  import opened QueueDiscipline
  import opened DeliveryStreams

  predicate Serving(x: System, t: TaskId, c: ConnId) {
    t < |x.tasks| && x.tasks[t].conn == c && x.tasks[t].running.Some?
  }

  /** A delivery that reaches a session: nothing is read for one that has closed. */
  predicate Reaches(x: System, step: Step, c: ConnId) {
    step.Deliver? && step.conn == c < |x.conns| && !x.conns[c].session.closed
  }

  // ----- One step -----

  /** The requests a delivery adds to a queue fit it, and the bytes the buffer. */
  predicate WithinLimits(kind: seq<Byte> -> Kind, s: Session, data: seq<Byte>) {
    && |s.buffer + data| <= 1024
    && |s.queue| + |Accepted(kind, Decoded(kind, Frames(s.buffer + data)))| <= 32
  }

  /** Exactly when a delivery returns normally, and when it exceeds a limit. */
  lemma EndingExactly(p: Setup, x: System, c: ConnId, data: seq<Byte>)
    requires c < |x.conns| && |x.conns[c].session.queue| <= 32
    ensures var s, ending := x.conns[c].session, DeliveryOf(p, x, c, data).ending;
      && (ending.None? <==> |s.buffer + data| > 1024)
      && (ending.None? || ending.value == Overflowed <==> !WithinLimits(p.kind, s, data))
      && (ending.Some? && ending.value == Drained <==>
            WithinLimits(p.kind, s, data) && Rejected(p.kind, Frames(s.buffer + data)).None?)
  {
    hide Frames, Rest, Accepted, Refusals, Decoded, Rejected, ScanFrames, Live;
    ScanMeans(p.kind, Room(x.conns[c].session.queue), x.conns[c].session.buffer + data);
  }

  lemma DeliveryRecorded(p: Setup, x: System, c: ConnId, data: seq<Byte>)
    requires Reaches(x, Deliver(c, data), c) && |x.conns[c].session.queue| <= 32
    ensures var before, after := x.conns[c], Next(p, x, Deliver(c, data)).conns[c];
      && after.lastDelivery == x.now
      && after.nonemptySince == (if before.session.buffer == [] then x.now else before.nonemptySince)
      && after.deliveries == before.deliveries + (if |before.session.buffer + data| <= 1024 then [data] else [])
      && after.cut == (before.cut || !WithinLimits(p.kind, before.session, data))
      && after.crashed == (before.crashed
                           && !(&& WithinLimits(p.kind, before.session, data)
                                && Rejected(p.kind, Frames(before.session.buffer + data)).None?))
      && after.begun == before.begun && after.finished == before.finished
  {
    EndingExactly(p, x, c, data);
    hide DeliveryOf, WithinLimits, Rejected, Frames;
  }

  /**
   * What one step adds to the history of a connection: a delivery its time, its bytes and whether it
   * exceeded a limit; a finished or failed request its place among those finished; nothing else anything.
   */
  lemma HistoryStep(p: Setup, x: System, step: Step, c: ConnId)
    requires Handles(x) && c < |x.conns| && |x.conns[c].session.queue| <= 32
    ensures c < |Next(p, x, step).conns|
    ensures var before, after := x.conns[c], Next(p, x, step).conns[c];
      if Reaches(x, step, c) then
        && after.lastDelivery == x.now
        && after.nonemptySince == (if before.session.buffer == [] then x.now else before.nonemptySince)
        && after.deliveries ==
             before.deliveries + (if |before.session.buffer + step.data| <= 1024 then [step.data] else [])
        && after.cut == (before.cut || !WithinLimits(p.kind, before.session, step.data))
        && after.crashed == (before.crashed
                             && !(&& WithinLimits(p.kind, before.session, step.data)
                                  && Rejected(p.kind, Frames(before.session.buffer + step.data)).None?))
        && after.finished == before.finished
      else
        var ended := (step.Finish? || step.Crash?) && Serving(x, step.task, c);
        && after.lastDelivery == before.lastDelivery && after.nonemptySince == before.nonemptySince
        && after.deliveries == before.deliveries && after.cut == before.cut
        && after.crashed == (before.crashed || (step.Crash? && ended))
        && after.finished == before.finished + (if ended then [x.tasks[step.task].running.value] else [])
  {
    if Reaches(x, step, c) {
      DeliveryRecorded(p, x, c, step.data);
    } else {
      hide Receive, WithinLimits, Rejected, Frames;
      if step.Begin? || step.Finish? || step.Crash? { HandlesAt(x, step.task, c); }
      hide Handles;
    }
  }

  // ----- Every run -----

  /** What a step delivers to a session to be decoded. */
  function DataTo(x: System, step: Step, c: ConnId): seq<seq<Byte>> {
    if Reaches(x, step, c) && |x.conns[c].session.buffer| + |step.data| <= 1024 then [step.data] else []
  }

  /** The deliveries to a connection, read off a run. */
  function DeliveriesTo(p: Setup, steps: seq<Step>, c: ConnId): seq<seq<Byte>> {
    if steps == [] then []
    else
      var front := steps[..|steps| - 1];
      DeliveriesTo(p, front, c) + DataTo(Reach(p, front), steps[|steps| - 1], c)
  }

  lemma {:induction false} ReachDeliveries(p: Setup, steps: seq<Step>, c: ConnId)
    ensures var x := Reach(p, steps);
      DeliveriesTo(p, steps, c) == if c < |x.conns| then x.conns[c].deliveries else []
  {
    hide Next;
    if steps != [] {
      hide AllOrderly;
      var front := steps[..|steps| - 1];
      ReachDeliveries(p, front, c);
      ReachOrderly(p, front);
      NextDeliveries(p, Reach(p, front), steps[|steps| - 1], c);
    }
  }

  lemma NextDeliveries(p: Setup, x: System, step: Step, c: ConnId)
    requires AllOrderly(x)
    ensures var y := Next(p, x, step);
      (if c < |x.conns| then x.conns[c].deliveries else []) + DataTo(x, step, c)
        == if c < |y.conns| then y.conns[c].deliveries else []
  {
    if c < |x.conns| {
      OrderlyAt(x, c);
      HistoryStep(p, x, step, c);
      hide Next, AllOrderly, Handles, WithinLimits;
    } else {
      hide Receive, AllOrderly;
    }
  }

  /** A session is given exactly the bytes sent to it while it was open, short of the one that exceeds its buffer. */
  lemma DeliveriesAre(p: Setup, steps: seq<Step>, c: ConnId)
    requires c < |Reach(p, steps).conns|
    ensures Reach(p, steps).conns[c].deliveries == DeliveriesTo(p, steps, c)
    ensures Reach(p, steps).conns[c].received == Flatten(DeliveriesTo(p, steps, c))
  {
    hide Reach;
    ReachDeliveries(p, steps, c);
    TakenFromDeliveries(p, steps, c);
  }
}
