/** How a stream is cut into deliveries and interleaved with execution makes no difference. */
module Segmentation {
  import opened Wrappers
  import opened Framing
  import opened Sessions
  import opened ServerSystem
  import opened QueueDiscipline

  lemma {:induction false} ListsConcat(kind: seq<Byte> -> Kind, first: seq<seq<Byte>>, second: seq<seq<Byte>>)
    ensures Accepted(kind, first + second) == Accepted(kind, first) + Accepted(kind, second)
    ensures Refusals(kind, first + second) == Refusals(kind, first) + Refusals(kind, second)
    ensures Rejected(kind, first + second).None? <==> Rejected(kind, first).None? && Rejected(kind, second).None?
  {
    hide RefusedCoil, PduOf, Accepted, Refusals, Rejected, Decoded;
    NoFrames(kind);
    if first == [] {
      assert first + second == second;
    } else {
      var head, later := first[0], first[1..];
      ListsConcat(kind, later, second);
      assert first == [head] + later;
      FirstOf(kind, head, later);
      FirstOf(kind, head, later + second);
      Associative([head], later, second);
    }
  }

  /** The session has taken and refused exactly what its stream asks for, and holds its tail. */
  ghost predicate Decodes(p: Setup, conn: Conn) {
    !conn.cut && Rejected(p.kind, Frames(conn.received)).None? ==>
      && conn.taken == Accepted(p.kind, Frames(conn.received))
      && conn.refused == Refusals(p.kind, Frames(conn.received))
      && conn.session.buffer == Rest(conn.received)
      && !FailedReturn(conn.lastEnding)
  }

  lemma EndingOf(p: Setup, x: System, c: ConnId, data: seq<Byte>)
    requires c < |x.conns| && !x.conns[c].session.closed
    ensures var d := DeliveryOf(p, x, c, data);
      d.session.closed <==> d.ending.None? || d.ending == Some(Overflowed)
  {
    hide ScanFrames;
  }

  lemma DeliverDecodes(p: Setup, x: System, c: ConnId, data: seq<Byte>)
    requires c < |x.conns| && !x.conns[c].session.closed
    requires |x.conns[c].session.queue| <= MAX_PENDING_REQUESTS
    requires Decodes(p, x.conns[c])
    ensures Decodes(p, Delivered(x.now, x.conns[c], data, DeliveryOf(p, x, c, data)))
  {
    var conn := x.conns[c];
    var s, all := conn.session, conn.received + data;
    FramesConcat(conn.received, data);
    ListsConcat(p.kind, Frames(conn.received), Frames(Rest(conn.received) + data));
    if Rejected(p.kind, Frames(all)).None? && !conn.cut {
      ReceiveDecodes(p.kind, p.limits, x.now, Live(x, s.drain), |x.tasks|, s, data);
      EndingOf(p, x, c, data);
    }
    hide Receive, Frames, Rest, Accepted, Refusals, Rejected, Live, Fits;
  }

  ghost predicate AllDecode(p: Setup, x: System) {
    forall c :: 0 <= c < |x.conns| ==> Decodes(p, x.conns[c])
  }

  lemma NextDecodes(p: Setup, x: System, step: Step)
    requires AllOrderly(x) && AllDecode(p, x)
    ensures AllDecode(p, Next(p, x, step))
  {
    if Enabled(x, step) {
      match step
      case Accept(peer) =>
        hide Receive;
        assert FrameLength([]) == 0;
        NoFrames(p.kind);
      case Deliver(c, data) =>
        OrderlyAt(x, c);
        DeliverDecodes(p, x, c, data);
        hide DeliveryOf, Delivered, Decodes, AllOrderly, Orderly;
      case _ =>
        hide Receive, AllOrderly;
    }
  }

  lemma {:induction false} ReachDecodes(p: Setup, steps: seq<Step>)
    ensures AllDecode(p, Reach(p, steps))
  {
    hide Next;
    if steps != [] {
      hide AllDecode;
      ReachDecodes(p, steps[..|steps| - 1]);
      ReachOrderly(p, steps[..|steps| - 1]);
      NextDecodes(p, Reach(p, steps[..|steps| - 1]), steps[|steps| - 1]);
    }
  }

  /** The stream stayed under both limits and every frame of it was decodable. */
  ghost predicate Clean(p: Setup, conn: Conn) {
    !conn.cut && Rejected(p.kind, Frames(conn.received)).None?
  }

  /**
   * For every cut of a stream into deliveries and every interleaving with the other steps, the requests
   * begun and then still queued, the refused coil writes and the buffered tail are those of decoding the
   * received bytes all at once.
   */
  lemma DecodedAsOneStream(p: Setup, steps: seq<Step>, c: ConnId)
    requires c < |Reach(p, steps).conns| && Clean(p, Reach(p, steps).conns[c])
    ensures var conn := Reach(p, steps).conns[c];
      && conn.begun + conn.session.queue == Accepted(p.kind, Frames(conn.received))
      && conn.refused == Refusals(p.kind, Frames(conn.received))
      && conn.session.buffer == Rest(conn.received)
      && Flatten(Frames(conn.received)) + conn.session.buffer == conn.received
  {
    hide Reach, Frames, Rest, Accepted, Refusals, Rejected;
    ReachDecodes(p, steps);
    QueueKept(p, steps, c);
    FramesPartition(Reach(p, steps).conns[c].received);
  }

  /** Two interleavings that delivered the same bytes agree on all of it. */
  lemma SegmentationIndependence(p: Setup, steps: seq<Step>, c: ConnId, others: seq<Step>, e: ConnId)
    requires c < |Reach(p, steps).conns| && e < |Reach(p, others).conns|
    requires Clean(p, Reach(p, steps).conns[c]) && Clean(p, Reach(p, others).conns[e])
    requires Reach(p, steps).conns[c].received == Reach(p, others).conns[e].received
    ensures var one, other := Reach(p, steps).conns[c], Reach(p, others).conns[e];
      && one.begun + one.session.queue == other.begun + other.session.queue
      && one.refused == other.refused
      && one.session.buffer == other.session.buffer
  {
    hide Reach, Clean;
    DecodedAsOneStream(p, steps, c);
    DecodedAsOneStream(p, others, e);
  }

  /** A stream of well-formed ADUs is taken ADU by ADU, and an unfinished one stays buffered. */
  lemma WellFormedStream(p: Setup, steps: seq<Step>, c: ConnId, adus: seq<seq<Byte>>, tail: seq<Byte>)
    requires c < |Reach(p, steps).conns| && Clean(p, Reach(p, steps).conns[c])
    requires (forall adu :: adu in adus ==> WellFormedAdu(adu)) && Unfinished(tail)
    requires Reach(p, steps).conns[c].received == Flatten(adus) + tail
    ensures var conn := Reach(p, steps).conns[c];
      && conn.begun + conn.session.queue == Accepted(p.kind, adus)
      && conn.refused == Refusals(p.kind, adus)
      && conn.session.buffer == tail
  {
    hide Reach, Clean, Frames, Rest, FrameLength, WellFormedAdu;
    FramesOfStream(adus, tail);
    DecodedAsOneStream(p, steps, c);
  }

  /**
   * With no drain task left running, the requests of a clean stream are those finished, in order, and
   * none is left queued unless an exception ended a task since the last normal return.
   */
  lemma QuietSessionServed(p: Setup, steps: seq<Step>, c: ConnId)
    requires c < |Reach(p, steps).conns| && Clean(p, Reach(p, steps).conns[c])
    requires !Live(Reach(p, steps), Reach(p, steps).conns[c].session.drain)
    ensures var conn := Reach(p, steps).conns[c];
      && conn.finished + conn.session.queue == Accepted(p.kind, Frames(conn.received))
      && (!conn.crashed ==> conn.finished == Accepted(p.kind, Frames(conn.received)) && conn.session.queue == [])
  {
    hide Reach, Frames, Rest, Accepted, Refusals, Rejected;
    ReachDecodes(p, steps);
    QueueKept(p, steps, c);
    var conn := Reach(p, steps).conns[c];
    assert conn.finished + [] == conn.finished;
  }
}
