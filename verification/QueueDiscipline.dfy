/** The bounded queue and its single drain task over every interleaving. */
module QueueDiscipline {
  import opened Wrappers
  import opened Framing
  import opened Sessions
  import opened ServerSystem

  // ----- One task per session -----

  /** A task that is not done is the one its session's handle names. */
  ghost predicate TaskHeld(x: System, t: TaskId) {
    t < |x.tasks| ==>
      && x.tasks[t].conn < |x.conns|
      && (!x.tasks[t].done ==> x.conns[x.tasks[t].conn].session.drain == Some(t))
      && (x.tasks[t].done ==> x.tasks[t].running.None?)
  }

  ghost predicate HandleNames(x: System, c: ConnId) {
    c < |x.conns| && x.conns[c].session.drain.Some? ==>
      var t := x.conns[c].session.drain.value;
      t < |x.tasks| && x.tasks[t].conn == c
  }

  ghost predicate Handles(x: System) {
    (forall t: TaskId :: TaskHeld(x, t)) && (forall c: ConnId :: HandleNames(x, c))
  }

  lemma HandlesAt(x: System, t: TaskId, c: ConnId)
    requires Handles(x)
    ensures TaskHeld(x, t) && HandleNames(x, c)
  {
  }

  lemma StartedWhen(p: Setup, x: System, c: ConnId, data: seq<Byte>)
    requires c < |x.conns|
    ensures var d, s := DeliveryOf(p, x, c, data), x.conns[c].session;
      && (d.started ==> !Live(x, s.drain) && d.session.drain == Some(|x.tasks|))
      && (!d.started ==> d.session.drain == s.drain)
  {
    hide ScanFrames;
  }

  lemma DeliverHandles(p: Setup, x: System, c: ConnId, data: seq<Byte>)
    requires Handles(x) && c < |x.conns|
    ensures Handles(OnDeliver(p, x, c, data))
  {
    StartedWhen(p, x, c, data);
    hide DeliveryOf, Handles;
    var y := OnDeliver(p, x, c, data);
    forall t: TaskId ensures TaskHeld(y, t) { HandlesAt(x, t, c); }
    forall b: ConnId ensures HandleNames(y, b) { HandlesAt(x, 0, b); }
    HandlesFrom(y);
  }

  lemma HandlesFrom(y: System)
    requires (forall t: TaskId :: TaskHeld(y, t)) && (forall b: ConnId :: HandleNames(y, b))
    ensures Handles(y)
  {
  }

  lemma NextHandles(p: Setup, x: System, step: Step)
    requires Handles(x)
    ensures Handles(Next(p, x, step))
  {
    if Enabled(x, step) {
      var y := Next(p, x, step);
      if step.Deliver? {
        DeliverHandles(p, x, step.conn, step.data);
      } else {
        hide Receive, Handles;
        forall t: TaskId ensures TaskHeld(y, t) { HandlesAt(x, t, 0); }
        forall b: ConnId ensures HandleNames(y, b) { HandlesAt(x, 0, b); }
        HandlesFrom(y);
      }
    }
  }

  lemma {:induction false} ReachHandles(p: Setup, steps: seq<Step>)
    ensures Handles(Reach(p, steps))
  {
    hide Next;
    if steps != [] {
      hide Handles;
      ReachHandles(p, steps[..|steps| - 1]);
      NextHandles(p, Reach(p, steps[..|steps| - 1]), steps[|steps| - 1]);
    }
  }

  /** At most one drain task of a session is ever running. */
  lemma OneDrainTask(p: Setup, steps: seq<Step>, t: TaskId, u: TaskId)
    requires t < |Reach(p, steps).tasks| && u < |Reach(p, steps).tasks|
    requires !Reach(p, steps).tasks[t].done && !Reach(p, steps).tasks[u].done
    requires Reach(p, steps).tasks[t].conn == Reach(p, steps).tasks[u].conn
    ensures t == u
  {
    hide Reach;
    ReachHandles(p, steps);
    HandlesAt(Reach(p, steps), t, 0);
    HandlesAt(Reach(p, steps), u, 0);
  }

  // ----- The queue -----

  /** What the running task of a session, if any, is executing. */
  function Running(x: System, c: ConnId): seq<Pdu> {
    if c < |x.conns| && Live(x, x.conns[c].session.drain)
      && x.tasks[x.conns[c].session.drain.value].running.Some?
    then [x.tasks[x.conns[c].session.drain.value].running.value]
    else []
  }

  predicate FailedReturn(ending: Option<Ending>) {
    ending == Some(IoFailed) || ending == Some(DecodeFailed)
  }

  /** What can leave work waiting: an early return, or a task ended by an exception, with no normal return since. */
  predicate Interrupted(conn: Conn) { FailedReturn(conn.lastEnding) || conn.crashed }

  /**
   * What has begun and then what is queued are the requests taken, in arrival order; only an overflow drops
   * some, the ones queued last, and closes the session.
   */
  ghost predicate ArrivalOrder(conn: Conn) {
    && (conn.lastEnding != Some(Overflowed) ==> conn.begun + conn.session.queue == conn.taken)
    && conn.begun + conn.session.queue <= conn.taken
    && (conn.lastEnding == Some(Overflowed) ==> conn.session.closed && conn.session.queue == [] && conn.cut)
  }

  /** Bounded, first in first out, and drained unless interrupted. */
  ghost predicate Orderly(x: System, c: ConnId) {
    c < |x.conns| ==>
      var conn := x.conns[c];
      && |conn.session.queue| <= MAX_PENDING_REQUESTS
      && ArrivalOrder(conn)
      && conn.begun == conn.finished + Running(x, c)
      && (conn.session.queue != [] && !Interrupted(conn) ==> Live(x, conn.session.drain))
  }

  ghost predicate AllOrderly(x: System) { Handles(x) && forall c: ConnId :: Orderly(x, c) }

  lemma OrderlyAt(x: System, c: ConnId)
    requires AllOrderly(x)
    ensures Orderly(x, c) && Handles(x)
  {
  }

  /** What a delivery does to the queue, its handle, and the reason it returned. */
  lemma DeliveryQueue(p: Setup, x: System, c: ConnId, data: seq<Byte>)
    requires c < |x.conns| && |x.conns[c].session.queue| <= MAX_PENDING_REQUESTS
    ensures var d, s := DeliveryOf(p, x, c, data), x.conns[c].session;
      && |d.session.queue| <= MAX_PENDING_REQUESTS
      && (d.ending.None? ==> d.session.queue == s.queue)
      && (d.ending.None? ==> d.taken == [])
      && (d.ending == Some(Overflowed) ==> d.session.queue == [] && d.session.closed)
      && (d.ending.Some? && d.ending != Some(Overflowed) ==> d.session.queue == s.queue + d.taken)
      && (d.ending == Some(Drained) && d.session.queue != [] ==> Live(x, s.drain) || d.started)
  {
    hide FrameLength;
  }

  /** A session whose connection is untouched stays orderly while tasks of other sessions are added. */
  lemma ElsewhereOrderly(x: System, y: System, b: ConnId)
    requires Handles(x) && Orderly(x, b) && b < |x.conns| <= |y.conns|
    requires y.conns[b] == x.conns[b] && x.tasks <= y.tasks
    ensures Orderly(y, b)
  {
    HandlesAt(x, 0, b);
    hide Handles;
    var drain := x.conns[b].session.drain;
    if drain.Some? { assert y.tasks[drain.value] == x.tasks[drain.value]; }
  }

  /** What running work a delivery leaves to its own session. */
  lemma DeliverRunning(p: Setup, x: System, c: ConnId, data: seq<Byte>)
    requires Handles(x) && c < |x.conns|
    ensures var y, d, drain := OnDeliver(p, x, c, data), DeliveryOf(p, x, c, data), x.conns[c].session.drain;
      && Running(y, c) == Running(x, c)
      && (Live(y, y.conns[c].session.drain) <==> Live(x, drain) || d.started)
  {
    HandlesAt(x, 0, c);
    StartedWhen(p, x, c, data);
    hide Handles, DeliveryOf;
  }

  lemma DeliverOrderly(p: Setup, x: System, c: ConnId, data: seq<Byte>, b: ConnId)
    requires AllOrderly(x) && c < |x.conns| && !x.conns[c].session.closed
    ensures Orderly(OnDeliver(p, x, c, data), b)
  {
    OrderlyAt(x, c);
    OrderlyAt(x, b);
    hide DeliveryOf, Handles, AllOrderly, Live;
    if b != c {
      if b < |x.conns| { ElsewhereOrderly(x, OnDeliver(p, x, c, data), b); }
    } else {
      DeliveryQueue(p, x, c, data);
      DeliverRunning(p, x, c, data);
      hide Running;
      var conn, d := x.conns[c], DeliveryOf(p, x, c, data);
      if d.ending.Some? && d.ending != Some(Overflowed) {
        Associative(conn.begun, conn.session.queue, d.taken);
      }
    }
  }

  lemma BeginOrderly(x: System, t: TaskId, b: ConnId)
    requires AllOrderly(x) && Enabled(x, Begin(t))
    ensures Orderly(OnBegin(x, t), b)
  {
    var c := x.tasks[t].conn;
    OrderlyAt(x, b);
    OrderlyAt(x, c);
    HandlesAt(x, t, b);
    hide Handles, AllOrderly;
    var s := x.conns[c].session;
    assert s.queue == [s.queue[0]] + s.queue[1..];
    Associative(x.conns[c].begun, [s.queue[0]], s.queue[1..]);
  }

  lemma FinishOrderly(x: System, t: TaskId, answered: bool, b: ConnId)
    requires AllOrderly(x) && Enabled(x, Finish(t, answered))
    ensures Orderly(OnFinish(x, t, answered), b)
  {
    OrderlyAt(x, b);
    HandlesAt(x, t, b);
    hide Handles, AllOrderly;
  }

  lemma CrashOrderly(x: System, t: TaskId, b: ConnId)
    requires AllOrderly(x) && Enabled(x, Crash(t))
    ensures Orderly(OnCrash(x, t), b)
  {
    OrderlyAt(x, b);
    HandlesAt(x, t, b);
    hide Handles, AllOrderly;
  }

  lemma ExitOrderly(x: System, t: TaskId, b: ConnId)
    requires AllOrderly(x) && Enabled(x, Exit(t))
    ensures Orderly(OnExit(x, t), b)
  {
    OrderlyAt(x, b);
    HandlesAt(x, t, b);
    hide Handles, AllOrderly;
  }

  lemma NextOrderly(p: Setup, x: System, step: Step)
    requires AllOrderly(x)
    ensures AllOrderly(Next(p, x, step))
  {
    var y := Next(p, x, step);
    NextHandles(p, x, step);
    hide Handles, Receive;
    if Enabled(x, step) {
      forall b: ConnId ensures Orderly(y, b) {
        match step
        case Deliver(c, data) => DeliverOrderly(p, x, c, data, b);
        case Begin(t) => BeginOrderly(x, t, b);
        case Finish(t, answered) => FinishOrderly(x, t, answered, b);
        case Crash(t) => CrashOrderly(x, t, b);
        case Exit(t) => ExitOrderly(x, t, b);
        case _ => OrderlyAt(x, b);
      }
    }
  }

  lemma {:induction false} ReachOrderly(p: Setup, steps: seq<Step>)
    ensures AllOrderly(Reach(p, steps))
  {
    hide Next;
    if steps != [] {
      hide AllOrderly;
      ReachOrderly(p, steps[..|steps| - 1]);
      NextOrderly(p, Reach(p, steps[..|steps| - 1]), steps[|steps| - 1]);
    }
  }

  /**
   * In every interleaving the queue holds at most 32 requests; what has begun, followed by the queue, is
   * what was taken, in arrival order, or a prefix of it once an overflow has cleared the queue and closed
   * the session; one request runs at a time; and work waits without a running task only after a decoding
   * failure or a task ended by an exception, and no normal return since.
   */
  lemma QueueKept(p: Setup, steps: seq<Step>, c: ConnId)
    requires c < |Reach(p, steps).conns|
    ensures var x := Reach(p, steps);
      var conn := x.conns[c];
      && |conn.session.queue| <= 32
      && conn.begun + conn.session.queue <= conn.taken
      && (conn.lastEnding != Some(Overflowed) ==> conn.begun + conn.session.queue == conn.taken)
      && (conn.lastEnding == Some(Overflowed) ==> conn.session.closed && conn.session.queue == [] && conn.cut)
      && conn.begun == conn.finished + Running(x, c)
      && (conn.session.queue != [] && !Interrupted(conn) ==> Live(x, conn.session.drain))
  {
    hide Reach;
    ReachOrderly(p, steps);
    OrderlyAt(Reach(p, steps), c);
  }

  /** A task ended by an exception leaves whatever is queued with nothing running it. */
  lemma CrashLeavesQueue(p: Setup, steps: seq<Step>, t: TaskId)
    requires Enabled(Reach(p, steps), Crash(t))
    ensures var x, y := Reach(p, steps), Next(p, Reach(p, steps), Crash(t));
      var c := x.tasks[t].conn;
      && c < |x.conns| == |y.conns|
      && y.conns[c].session.queue == x.conns[c].session.queue
      && !Live(y, y.conns[c].session.drain)
  {
    hide Reach, Handles;
    ReachHandles(p, steps);
    HandlesAt(Reach(p, steps), t, 0);
  }
}
