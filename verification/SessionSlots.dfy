/** Connection slots and deadlines over every interleaving. */
module SessionSlots {
  import opened Wrappers
  import opened Framing
  import opened Sessions
  import opened ServerSystem

  // ----- Slots -----

  /** A session is open exactly while it is registered. */
  ghost predicate Slotted(x: System, c: ConnId) {
    c < |x.conns| ==>
      && (c in x.active <==> x.conns[c].session.registered)
      && (x.conns[c].session.registered <==> !x.conns[c].session.closed)
  }

  ghost predicate Slots(p: Setup, x: System) {
    && (forall c: ConnId :: Slotted(x, c))
    && (forall c :: c in x.active ==> c < |x.conns|)
    && |x.active| <= p.limits.maxActive
  }

  lemma ReceiveRegistration(p: Setup, x: System, c: ConnId, data: seq<Byte>)
    requires c < |x.conns| && x.conns[c].session.registered && !x.conns[c].session.closed
    ensures var s := DeliveryOf(p, x, c, data).session; s.registered <==> !s.closed
  {
    hide ScanFrames;
  }

  lemma AcceptSlots(p: Setup, x: System, peer: Option<Peer>)
    requires Slots(p, x)
    ensures Slots(p, OnAccept(p, x, peer))
  {
    ConnectedSlots(p, x);
    assert |x.conns| !in x.active;
    hide Connected;
    var y := OnAccept(p, x, peer);
    forall d: ConnId ensures Slotted(y, d) { assert Slotted(x, d); }
  }

  /** Replacing one connection by a coherent one, freeing its slot if it gave up its registration. */
  lemma ReplaceSlots(p: Setup, x: System, c: ConnId, conn: Conn, y: System)
    requires Slots(p, x) && c < |x.conns|
    requires conn.session.registered <==> !conn.session.closed
    requires conn.session.registered ==> x.conns[c].session.registered
    requires y.conns == x.conns[c := conn]
    requires y.active == if x.conns[c].session.registered && !conn.session.registered then x.active - {c} else x.active
    ensures Slots(p, y)
  {
    forall d: ConnId ensures Slotted(y, d) {
      assert Slotted(x, d);
      assert Slotted(x, c);
    }
  }

  lemma SameSlots(p: Setup, x: System, y: System)
    requires Slots(p, x) && y.active == x.active && |y.conns| == |x.conns|
    requires forall c :: 0 <= c < |x.conns| ==>
      && y.conns[c].session.registered == x.conns[c].session.registered
      && y.conns[c].session.closed == x.conns[c].session.closed
    ensures Slots(p, y)
  {
    forall d: ConnId ensures Slotted(y, d) { assert Slotted(x, d); }
  }

  lemma CloseSlots(p: Setup, x: System, c: ConnId)
    requires Slots(p, x) && c < |x.conns|
    ensures Slots(p, OnClose(x, c))
  {
    SlottedAt(p, x, c);
    hide Slots;
    ReplaceSlots(p, x, c, OnClose(x, c).conns[c], OnClose(x, c));
  }

  lemma DeliverSlots(p: Setup, x: System, c: ConnId, data: seq<Byte>)
    requires Slots(p, x) && c < |x.conns| && !x.conns[c].session.closed
    ensures Slots(p, OnDeliver(p, x, c, data))
  {
    SlottedAt(p, x, c);
    ReceiveRegistration(p, x, c, data);
    hide Slots, DeliveryOf;
    ReplaceSlots(p, x, c, OnDeliver(p, x, c, data).conns[c], OnDeliver(p, x, c, data));
  }

  lemma NextSlots(p: Setup, x: System, step: Step)
    requires Slots(p, x)
    ensures Slots(p, Next(p, x, step))
  {
    hide Slots, OnDeliver, OnAccept, OnClose;
    if Enabled(x, step) {
      match step
      case Accept(peer) => AcceptSlots(p, x, peer);
      case Deliver(c, data) => DeliverSlots(p, x, c, data);
      case Fire(c) => CloseSlots(p, x, c);
      case Lose(c) => CloseSlots(p, x, c);
      case _ => SameSlots(p, x, Next(p, x, step));
    }
  }

  lemma SlottedAt(p: Setup, x: System, c: ConnId)
    requires Slots(p, x)
    ensures Slotted(x, c)
  {
  }

  lemma ConnectedSlots(p: Setup, x: System)
    ensures forall admitted ::
      var s := Connected(p.limits, x.now, admitted); s.registered == admitted == !s.closed
  {
  }

  /** The active set is exactly the open sessions, and never exceeds the maximum. */
  lemma ActiveSetExact(p: Setup, steps: seq<Step>)
    ensures var x := Reach(p, steps);
      && x.active == (set c | 0 <= c < |x.conns| && !x.conns[c].session.closed)
      && |x.active| <= p.limits.maxActive
      && forall c :: 0 <= c < |x.conns| ==> (x.conns[c].session.registered <==> !x.conns[c].session.closed)
  {
    hide Next;
    ReachSlots(p, steps);
    var x := Reach(p, steps);
    forall c: ConnId ensures c in x.active <==> c < |x.conns| && !x.conns[c].session.closed {
      assert Slotted(x, c);
    }
    forall c | 0 <= c < |x.conns| ensures x.conns[c].session.registered <==> !x.conns[c].session.closed {
      assert Slotted(x, c);
    }
  }

  lemma {:induction false} ReachSlots(p: Setup, steps: seq<Step>)
    ensures Slots(p, Reach(p, steps))
  {
    hide Next;
    if steps != [] {
      ReachSlots(p, steps[..|steps| - 1]);
      NextSlots(p, Reach(p, steps[..|steps| - 1]), steps[|steps| - 1]);
    }
  }

  lemma ReachMore(p: Setup, steps: seq<Step>, step: Step)
    ensures Reach(p, steps + [step]) == Next(p, Reach(p, steps), step)
  {
    hide Next;
    var more := steps + [step];
    assert more[..|more| - 1] == steps;
  }

  /** A connection is admitted exactly while fewer than the maximum are open; one turned away takes no slot. */
  lemma AdmittedExactly(p: Setup, steps: seq<Step>, peer: Option<Peer>)
    ensures var x, y := Reach(p, steps), Reach(p, steps + [Accept(peer)]);
      && |y.conns| == |x.conns| + 1
      && y.conns[..|x.conns|] == x.conns
      && y.conns[|x.conns|].peer == peer
      && y.conns[|x.conns|].lastDelivery == x.now && y.conns[|x.conns|].deliveries == []
      && (y.conns[|x.conns|].session.closed <==> |x.active| >= p.limits.maxActive)
      && y.active == if |x.active| < p.limits.maxActive then x.active + {|x.conns|} else x.active
  {
    ReachMore(p, steps, Accept(peer));
    hide Reach;
  }

  // ----- Deadlines -----

  /** An open session's timers, and that neither is overdue. */
  ghost predicate Timely(l: Limits, now: real, conn: Conn) {
    var s := conn.session;
    && conn.nonemptySince <= now && conn.lastDelivery <= now
    && (!s.closed ==>
          && s.idle == Some(conn.lastDelivery + l.idleTimeout)
          && now <= conn.lastDelivery + l.idleTimeout
          && s.incomplete == (if s.buffer == [] then None else Some(conn.nonemptySince + l.incompleteTimeout))
          && (s.buffer != [] ==> now <= conn.nonemptySince + l.incompleteTimeout))
  }

  ghost predicate AllTimely(p: Setup, x: System) {
    forall c :: 0 <= c < |x.conns| ==> Timely(p.limits, x.now, x.conns[c])
  }

  lemma DeliverTimely(p: Setup, x: System, c: ConnId, data: seq<Byte>)
    requires ValidLimits(p.limits) && c < |x.conns| && !x.conns[c].session.closed
    requires Timely(p.limits, x.now, x.conns[c])
    ensures Timely(p.limits, x.now, Delivered(x.now, x.conns[c], data, DeliveryOf(p, x, c, data)))
  {
    hide ScanFrames, Live;
  }

  /** Time stops short of every deadline. */
  lemma WaitTimely(p: Setup, x: System, seconds: real, c: ConnId)
    requires AllTimely(p, x) && Enabled(x, Wait(seconds)) && c < |x.conns|
    ensures Timely(p.limits, x.now + seconds, x.conns[c])
  {
  }

  lemma NextTimely(p: Setup, x: System, step: Step)
    requires ValidLimits(p.limits) && AllTimely(p, x)
    ensures AllTimely(p, Next(p, x, step))
  {
    var y := Next(p, x, step);
    if Enabled(x, step) {
      if step.Deliver? {
        DeliverTimely(p, x, step.conn, step.data);
        hide DeliveryOf, Delivered, Timely;
      } else if step.Wait? {
        hide Enabled;
        forall c | 0 <= c < |y.conns| ensures Timely(p.limits, y.now, y.conns[c]) {
          WaitTimely(p, x, step.seconds, c);
        }
      } else {
        hide Receive;
      }
    }
  }

  lemma {:induction false} ReachTimely(p: Setup, steps: seq<Step>)
    requires ValidLimits(p.limits)
    ensures AllTimely(p, Reach(p, steps))
  {
    hide Next, Timely;
    if steps != [] {
      ReachTimely(p, steps[..|steps| - 1]);
      NextTimely(p, Reach(p, steps[..|steps| - 1]), steps[|steps| - 1]);
    }
  }

  /**
   * An open session is never past its last delivery plus the idle limit, and its buffer never stays
   * nonempty past the incomplete limit counted from when it last became nonempty: deliveries that leave
   * it nonempty extend the first deadline only.
   */
  lemma DeadlinesKept(p: Setup, steps: seq<Step>, c: ConnId)
    requires ValidLimits(p.limits) && c < |Reach(p, steps).conns|
    requires !Reach(p, steps).conns[c].session.closed
    ensures var x := Reach(p, steps);
      && x.now <= x.conns[c].lastDelivery + p.limits.idleTimeout
      && (x.conns[c].session.buffer != [] ==> x.now <= x.conns[c].nonemptySince + p.limits.incompleteTimeout)
  {
    hide Next;
    ReachTimely(p, steps);
  }

  /** What a delivery does to the history its timers are measured from. */
  lemma DeliverHistory(p: Setup, x: System, c: ConnId, data: seq<Byte>)
    requires c < |x.conns| && !x.conns[c].session.closed
    ensures var y := Next(p, x, Deliver(c, data));
      && |y.conns| == |x.conns| && y.now == x.now
      && y.conns[c].nonemptySince == (if x.conns[c].session.buffer == [] then x.now else x.conns[c].nonemptySince)
  {
    hide Receive;
  }

  /**
   * Exactly which deliveries give the partial request they leave behind a full time limit: those that
   * found the buffer empty, or came at the very time it became nonempty. Completing a request in between
   * makes no difference: `data` may finish any number of frames before the one it begins.
   */
  lemma FreshDeadlineExactly(p: Setup, steps: seq<Step>, c: ConnId, data: seq<Byte>)
    requires ValidLimits(p.limits) && c < |Reach(p, steps).conns| && !Reach(p, steps).conns[c].session.closed
    requires var y := Reach(p, steps + [Deliver(c, data)]);
      c < |y.conns| && !y.conns[c].session.closed && y.conns[c].session.buffer != []
    ensures var x, y := Reach(p, steps), Reach(p, steps + [Deliver(c, data)]);
      y.conns[c].session.incomplete == Some(x.now + p.limits.incompleteTimeout) <==>
        x.conns[c].session.buffer == [] || x.conns[c].nonemptySince == x.now
  {
    hide Reach, Next, AllTimely;
    var x, y := Reach(p, steps), Reach(p, steps + [Deliver(c, data)]);
    ReachTimely(p, steps + [Deliver(c, data)]);
    ReachMore(p, steps, Deliver(c, data));
    DeliverHistory(p, x, c, data);
    TimelyAt(p, y, c);
  }

  lemma TimelyAt(p: Setup, x: System, c: ConnId)
    requires AllTimely(p, x) && c < |x.conns|
    ensures Timely(p.limits, x.now, x.conns[c])
  {
  }

  /** While the buffer stays nonempty its deadline stays where it was, whatever requests are completed. */
  lemma PartialDataKeepsDeadline(p: Setup, steps: seq<Step>, c: ConnId, data: seq<Byte>)
    requires ValidLimits(p.limits) && c < |Reach(p, steps).conns|
    requires var x, y := Reach(p, steps), Reach(p, steps + [Deliver(c, data)]);
      && !x.conns[c].session.closed && x.conns[c].session.buffer != []
      && c < |y.conns| && !y.conns[c].session.closed && y.conns[c].session.buffer != []
    ensures var x, y := Reach(p, steps), Reach(p, steps + [Deliver(c, data)]);
      x.conns[c].session.incomplete.Some? && y.conns[c].session.incomplete == x.conns[c].session.incomplete
  {
    hide Reach, Next, AllTimely;
    var x, y := Reach(p, steps), Reach(p, steps + [Deliver(c, data)]);
    ReachTimely(p, steps);
    ReachTimely(p, steps + [Deliver(c, data)]);
    ReachMore(p, steps, Deliver(c, data));
    DeliverHistory(p, x, c, data);
    TimelyAt(p, x, c);
    TimelyAt(p, y, c);
  }

  /** A session at its idle deadline, or at the deadline of its incomplete request. */
  predicate AtDeadline(l: Limits, now: real, conn: Conn) {
    || now == conn.lastDelivery + l.idleTimeout
    || (conn.session.buffer != [] && now == conn.nonemptySince + l.incompleteTimeout)
  }

  lemma FireCloses(p: Setup, x: System, c: ConnId)
    requires c < |x.conns| && Timely(p.limits, x.now, x.conns[c]) && Slotted(x, c)
    requires !x.conns[c].session.closed && AtDeadline(p.limits, x.now, x.conns[c])
    ensures forall t: real :: t > 0.0 ==> !Enabled(x, Wait(t))
    ensures var y := Next(p, x, Fire(c));
      |y.conns| == |x.conns| && y.conns[c].session.closed && y.active == x.active - {c}
  {
    hide Receive;
    forall t: real | t > 0.0 ensures !Enabled(x, Wait(t)) {
      var s := x.conns[c].session;
      assert !Before(x.now + t, s.idle) || !Before(x.now + t, s.incomplete);
    }
  }

  /** At either deadline a session cannot outlive it: time waits, and its timer closes it and frees its slot. */
  lemma DueSessionCloses(p: Setup, steps: seq<Step>, c: ConnId)
    requires ValidLimits(p.limits) && c < |Reach(p, steps).conns|
    requires var x := Reach(p, steps);
      !x.conns[c].session.closed && AtDeadline(p.limits, x.now, x.conns[c])
    ensures var x, y := Reach(p, steps), Reach(p, steps + [Fire(c)]);
      && (forall t: real :: t > 0.0 ==> !Enabled(x, Wait(t)))
      && c < |y.conns| && y.conns[c].session.closed
      && y.active == x.active - {c}
  {
    hide Reach, Next, Enabled, AllTimely, Slots, AtDeadline;
    ReachTimely(p, steps);
    ReachSlots(p, steps);
    ReachMore(p, steps, Fire(c));
    TimelyAt(p, Reach(p, steps), c);
    SlottedAt(p, Reach(p, steps), c);
    FireCloses(p, Reach(p, steps), c);
  }
}
