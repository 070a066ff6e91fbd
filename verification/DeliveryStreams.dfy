/** What a session takes from its deliveries, whatever they hold: failures resynchronise, nothing is reordered. */
module DeliveryStreams {
  import opened Wrappers
  import opened Framing
  import opened Sessions
  import opened ServerSystem
  import opened QueueDiscipline

  /** The bytes left over when each delivery has been decoded behind what the one before it left. */
  function Carried(kind: seq<Byte> -> Kind, deliveries: seq<seq<Byte>>): seq<Byte> {
    if deliveries == [] then []
    else
      var bytes := Carried(kind, deliveries[..|deliveries| - 1]) + deliveries[|deliveries| - 1];
      bytes[Meaning(kind, bytes).used..]
  }

  /** The requests the deliveries ask for: of each, the accepted frames before the first rejected one. */
  function TakenOver(kind: seq<Byte> -> Kind, deliveries: seq<seq<Byte>>): seq<Pdu> {
    if deliveries == [] then []
    else
      var front := deliveries[..|deliveries| - 1];
      var bytes := Carried(kind, front) + deliveries[|deliveries| - 1];
      TakenOver(kind, front) + Accepted(kind, Decoded(kind, Frames(bytes)))
  }

  /** The exception responses the deliveries call for before any request runs. */
  function RefusedOver(kind: seq<Byte> -> Kind, deliveries: seq<seq<Byte>>): seq<Refusal> {
    if deliveries == [] then []
    else
      var front := deliveries[..|deliveries| - 1];
      var bytes := Carried(kind, front) + deliveries[|deliveries| - 1];
      RefusedOver(kind, front) + Meaning(kind, bytes).refused
  }

  lemma OneMoreDelivery(kind: seq<Byte> -> Kind, deliveries: seq<seq<Byte>>, data: seq<Byte>)
    ensures var more, bytes := deliveries + [data], Carried(kind, deliveries) + data;
      && Carried(kind, more) == bytes[Meaning(kind, bytes).used..]
      && TakenOver(kind, more) == TakenOver(kind, deliveries) + Meaning(kind, bytes).taken
      && RefusedOver(kind, more) == RefusedOver(kind, deliveries) + Meaning(kind, bytes).refused
  {
    hide Frames, Rest, Accepted, Refusals, Decoded, Rejected;
    var more := deliveries + [data];
    assert more[..|more| - 1] == deliveries;
  }

  lemma {:induction false} FlattenMore(frames: seq<seq<Byte>>, next: seq<Byte>)
    ensures Flatten(frames + [next]) == Flatten(frames) + next
  {
    if frames == [] {
      assert [next][1..] == [];
      assert frames + [next] == [next];
    } else {
      FlattenMore(frames[1..], next);
      assert (frames + [next])[1..] == frames[1..] + [next];
      Associative(frames[0], Flatten(frames[1..]), next);
    }
  }

  /** The session follows its deliveries; an overflow is the last of them and drops only queued requests. */
  ghost predicate Follows(kind: seq<Byte> -> Kind, conn: Conn) {
    && conn.received == Flatten(conn.deliveries)
    && conn.begun <= TakenOver(kind, conn.deliveries)
    && (conn.lastEnding != Some(Overflowed) ==>
          && conn.taken == TakenOver(kind, conn.deliveries)
          && conn.refused == RefusedOver(kind, conn.deliveries)
          && conn.session.buffer == Carried(kind, conn.deliveries))
  }

  /** A delivery either does what its frames say or ends in an overflow. */
  lemma DeliveryMeans(p: Setup, x: System, c: ConnId, data: seq<Byte>)
    requires c < |x.conns|
    ensures var s, d := x.conns[c].session, DeliveryOf(p, x, c, data);
      var bytes := s.buffer + data;
      var m := Meaning(p.kind, bytes);
      && (d.ending.None? ==> d.taken == [] && d.refused == [] && d.session.buffer == s.buffer)
      && (d.ending.Some? && d.ending != Some(Overflowed) ==>
            d.taken == m.taken && d.refused == m.refused && d.session.buffer == bytes[m.used..])
  {
    hide ScanFrames, Meaning, Live;
    ScanMeans(p.kind, Room(x.conns[c].session.queue), x.conns[c].session.buffer + data);
  }

  lemma PrefixGrows(begun: seq<Pdu>, taken: seq<Pdu>, more: seq<Pdu>)
    requires begun <= taken
    ensures begun <= taken + more && taken + [] == taken
  {
  }

  lemma NothingRefused(refused: seq<Refusal>)
    ensures refused + [] == refused
  {
  }

  /** The history after a delivery that means `m`, or that overflowed, or that was too large. */
  lemma FollowsDelivery(kind: seq<Byte> -> Kind, now: real, conn: Conn, data: seq<Byte>, d: Delivery)
    requires conn.lastEnding != Some(Overflowed) && Follows(kind, conn)
    requires d.ending.None? ==> d.taken == [] && d.refused == [] && d.session.buffer == conn.session.buffer
    requires var bytes := conn.session.buffer + data;
      var m := Meaning(kind, bytes);
      d.ending.Some? && d.ending != Some(Overflowed) ==>
        d.taken == m.taken && d.refused == m.refused && d.session.buffer == bytes[m.used..]
    ensures Follows(kind, Delivered(now, conn, data, d))
  {
    hide Meaning, Carried, TakenOver, RefusedOver, Flatten;
    OneMoreDelivery(kind, conn.deliveries, data);
    FlattenMore(conn.deliveries, data);
    var m := Meaning(kind, conn.session.buffer + data);
    PrefixGrows(conn.begun, TakenOver(kind, conn.deliveries), m.taken);
    NothingRefused(conn.refused);
  }

  lemma DeliverFollows(p: Setup, x: System, c: ConnId, data: seq<Byte>)
    requires c < |x.conns| && !x.conns[c].session.closed
    requires ArrivalOrder(x.conns[c]) && Follows(p.kind, x.conns[c])
    ensures Follows(p.kind, Delivered(x.now, x.conns[c], data, DeliveryOf(p, x, c, data)))
  {
    DeliveryMeans(p, x, c, data);
    hide DeliveryOf, Meaning, Follows, Delivered;
    FollowsDelivery(p.kind, x.now, x.conns[c], data, DeliveryOf(p, x, c, data));
  }

  ghost predicate AllFollow(p: Setup, x: System) {
    forall c :: 0 <= c < |x.conns| ==> Follows(p.kind, x.conns[c])
  }

  lemma BeginFollows(p: Setup, x: System, t: TaskId, c: ConnId)
    requires AllOrderly(x) && AllFollow(p, x) && Enabled(x, Begin(t)) && c < |x.conns|
    ensures Follows(p.kind, OnBegin(x, t).conns[c])
  {
    OrderlyAt(x, x.tasks[t].conn);
    hide AllOrderly, Carried, TakenOver, RefusedOver, Flatten, Live, Running;
    var conn := x.conns[c];
    if c == x.tasks[t].conn {
      PrefixByOne(conn.begun, conn.session.queue);
    }
  }

  lemma PrefixByOne(begun: seq<Pdu>, queue: seq<Pdu>)
    requires queue != []
    ensures begun + [queue[0]] <= begun + queue
  {
  }

  lemma NextFollows(p: Setup, x: System, step: Step)
    requires AllOrderly(x) && AllFollow(p, x)
    ensures AllFollow(p, Next(p, x, step))
  {
    var y := Next(p, x, step);
    if Enabled(x, step) {
      match step
      case Deliver(c, data) =>
        OrderlyAt(x, c);
        DeliverFollows(p, x, c, data);
        hide DeliveryOf, Delivered, Follows, AllOrderly, Orderly;
      case Begin(t) =>
        forall c | 0 <= c < |y.conns| ensures Follows(p.kind, y.conns[c]) { BeginFollows(p, x, t, c); }
        hide AllOrderly, Follows;
      case Accept(_) =>
        hide AllOrderly, DeliveryOf, Live;
      case _ =>
        hide AllOrderly, DeliveryOf, Carried, TakenOver, RefusedOver, Flatten;
    }
  }

  lemma {:induction false} ReachFollows(p: Setup, steps: seq<Step>)
    ensures AllFollow(p, Reach(p, steps))
  {
    hide Next;
    if steps != [] {
      hide AllFollow, AllOrderly;
      ReachFollows(p, steps[..|steps| - 1]);
      ReachOrderly(p, steps[..|steps| - 1]);
      NextFollows(p, Reach(p, steps[..|steps| - 1]), steps[|steps| - 1]);
    }
  }

  /**
   * In every interleaving, and whatever bytes arrive, the requests begun are a prefix of those the
   * deliveries ask for, in order; unless an overflow has closed the session, begun plus queued requests
   * are all of them, the exception responses are those called for, and the buffer is what they leave.
   */
  lemma TakenFromDeliveries(p: Setup, steps: seq<Step>, c: ConnId)
    requires c < |Reach(p, steps).conns|
    ensures var conn := Reach(p, steps).conns[c];
      && conn.received == Flatten(conn.deliveries)
      && conn.begun <= TakenOver(p.kind, conn.deliveries)
      && (conn.lastEnding != Some(Overflowed) ==>
            && conn.begun + conn.session.queue == TakenOver(p.kind, conn.deliveries)
            && conn.refused == RefusedOver(p.kind, conn.deliveries)
            && conn.session.buffer == Carried(p.kind, conn.deliveries))
  {
    hide Reach;
    ReachFollows(p, steps);
    QueueKept(p, steps, c);
  }
}
