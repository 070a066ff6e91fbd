/** All sessions together: every interleaving of accepts, deliveries, drain steps, timers and closes. */
module ServerSystem {
  import opened Wrappers
  import opened Framing
  import opened Sessions

  type ConnId = nat

  datatype Peer = Peer(ip: string, port: int)

  /** What a request binds for the events it causes. */
  datatype Context = Context(peer: Peer, transaction: int, session: ConnId)

  /**
   * A connection: its handler's state, and the history the properties speak of. `deliveries` holds the data
   * of every delivery that was decoded, `received` all of it in one; `crashed` records a drain task ended by
   * an exception since the last normal return, `cut` a session that exceeded a limit.
   */
  datatype Conn = Conn(
    peer: Option<Peer>,
    session: Session,
    received: seq<Byte>,
    deliveries: seq<seq<Byte>>,
    taken: seq<Pdu>,
    begun: seq<Pdu>,
    finished: seq<Pdu>,
    refused: seq<Refusal>,
    lastDelivery: real,
    nonemptySince: real,
    lastEnding: Option<Ending>,
    crashed: bool,
    cut: bool)

  /** A drain task: the request it is awaiting, if any, and its own context variable. */
  datatype Task = Task(conn: ConnId, running: Option<Pdu>, bound: Option<Context>, done: bool)

  datatype Cause = Cause(conn: ConnId, pdu: Pdu)

  /** An audit event carries whatever context its task has bound; the cause is what really asked for it. */
  datatype Emitted = Emitted(origin: Option<Context>, cause: Cause)

  /** A reply to an executed request, on the connection it is sent over. */
  datatype Response = Response(conn: ConnId, transaction: int, unit: int)

  datatype System = System(
    now: real,
    conns: seq<Conn>,
    active: set<ConnId>,
    tasks: seq<Task>,
    events: seq<Emitted>,
    responses: seq<Response>)

  datatype Setup = Setup(kind: seq<Byte> -> Kind, limits: Limits)

  const START := System(0.0, [], {}, [], [], [])

  /** One atomic step between two awaits, or of the transport, the clock or a peer. */
  datatype Step =
    | Accept(peer: Option<Peer>)
    | Deliver(conn: ConnId, data: seq<Byte>)
    | Begin(task: TaskId)
    | Emit(task: TaskId)
    | Finish(task: TaskId, answered: bool)
    | Crash(task: TaskId)
    | Exit(task: TaskId)
    | Fire(conn: ConnId)
    | Lose(conn: ConnId)
    | Wait(seconds: real)

  predicate Live(x: System, drain: Option<TaskId>) {
    drain.Some? && drain.value < |x.tasks| && !x.tasks[drain.value].done
  }

  predicate Due(deadline: Option<real>, now: real) { deadline.Some? && deadline.value <= now }

  predicate Before(time: real, deadline: Option<real>) { deadline.None? || time <= deadline.value }

  function ContextOf(peer: Option<Peer>, c: ConnId, pdu: Pdu): Option<Context> {
    if peer.None? then None else Some(Context(peer.value, pdu.transaction, c))
  }

  function QueueOf(x: System, t: TaskId): seq<Pdu>
    requires t < |x.tasks|
  {
    var c := x.tasks[t].conn;
    if c < |x.conns| then x.conns[c].session.queue else []
  }

  /** What can happen next. Timers are prompt: time does not pass an armed deadline. */
  predicate Enabled(x: System, step: Step) {
    match step
    case Accept(_) => true
    case Deliver(c, _) => c < |x.conns| && !x.conns[c].session.closed
    case Begin(t) => t < |x.tasks| && !x.tasks[t].done && x.tasks[t].running.None? && QueueOf(x, t) != []
    case Emit(t) => t < |x.tasks| && x.tasks[t].running.Some?
    case Finish(t, _) => t < |x.tasks| && x.tasks[t].running.Some?
    case Crash(t) => t < |x.tasks| && x.tasks[t].running.Some?
    case Exit(t) => t < |x.tasks| && !x.tasks[t].done && x.tasks[t].running.None? && QueueOf(x, t) == []
    case Fire(c) =>
      c < |x.conns| && (Due(x.conns[c].session.idle, x.now) || Due(x.conns[c].session.incomplete, x.now))
    case Lose(c) => c < |x.conns|
    case Wait(seconds) =>
      && seconds >= 0.0
      && (forall c :: 0 <= c < |x.conns| ==>
            && Before(x.now + seconds, x.conns[c].session.idle)
            && Before(x.now + seconds, x.conns[c].session.incomplete))
  }

  function OnAccept(p: Setup, x: System, peer: Option<Peer>): System {
    var admitted := |x.active| < p.limits.maxActive;
    var c := |x.conns|;
    x.(conns := x.conns + [Conn(
         peer, Connected(p.limits, x.now, admitted), [], [], [], [], [], [], x.now, x.now, None, false, false)],
       active := if admitted then x.active + {c} else x.active)
  }

  function DeliveryOf(p: Setup, x: System, c: ConnId, data: seq<Byte>): Delivery
    requires c < |x.conns|
  {
    var s := x.conns[c].session;
    Receive(p.kind, p.limits, x.now, Live(x, s.drain), |x.tasks|, s, data)
  }

  function Delivered(now: real, conn: Conn, data: seq<Byte>, d: Delivery): Conn {
    conn.(
      session := d.session,
      received := if d.ending.Some? then conn.received + data else conn.received,
      deliveries := if d.ending.Some? then conn.deliveries + [data] else conn.deliveries,
      taken := conn.taken + d.taken,
      refused := conn.refused + d.refused,
      lastDelivery := now,
      nonemptySince := if conn.session.buffer == [] then now else conn.nonemptySince,
      lastEnding := if d.ending.Some? then d.ending else conn.lastEnding,
      crashed := conn.crashed && d.ending != Some(Drained),
      cut := conn.cut || d.ending.None? || d.ending.value == Overflowed)
  }

  function OnDeliver(p: Setup, x: System, c: ConnId, data: seq<Byte>): System
    requires c < |x.conns|
  {
    var d := DeliveryOf(p, x, c, data);
    x.(conns := x.conns[c := Delivered(x.now, x.conns[c], data, d)],
       active := if x.conns[c].session.registered && !d.session.registered then x.active - {c} else x.active,
       tasks := if d.started then x.tasks + [Task(c, None, None, false)] else x.tasks)
  }

  function OnBegin(x: System, t: TaskId): System
    requires t < |x.tasks| && QueueOf(x, t) != []
  {
    var c := x.tasks[t].conn;
    var conn := x.conns[c];
    var pdu := conn.session.queue[0];
    x.(conns := x.conns[c := conn.(session := conn.session.(queue := conn.session.queue[1..]),
                                   begun := conn.begun + [pdu])],
       tasks := x.tasks[t := x.tasks[t].(
         running := Some(pdu),
         bound := if conn.peer.Some? then ContextOf(conn.peer, c, pdu) else x.tasks[t].bound)])
  }

  function OnEmit(x: System, t: TaskId): System
    requires t < |x.tasks| && x.tasks[t].running.Some?
  {
    x.(events := x.events + [Emitted(x.tasks[t].bound, Cause(x.tasks[t].conn, x.tasks[t].running.value))])
  }

  function OnFinish(x: System, t: TaskId, answered: bool): System
    requires t < |x.tasks| && x.tasks[t].running.Some?
  {
    var c, pdu := x.tasks[t].conn, x.tasks[t].running.value;
    var reply := Response(c, pdu.transaction, pdu.unit);
    x.(conns := if c < |x.conns| then x.conns[c := x.conns[c].(finished := x.conns[c].finished + [pdu])] else x.conns,
       tasks := x.tasks[t := x.tasks[t].(running := None, bound := None)],
       responses := if answered then x.responses + [reply] else x.responses)
  }

  /** An exception outside the datastore guard, as when sending the reply fails, ends the whole task. */
  function OnCrash(x: System, t: TaskId): System
    requires t < |x.tasks| && x.tasks[t].running.Some?
  {
    var c, pdu := x.tasks[t].conn, x.tasks[t].running.value;
    x.(conns := if c < |x.conns| then
         x.conns[c := x.conns[c].(finished := x.conns[c].finished + [pdu], crashed := true)]
       else x.conns,
       tasks := x.tasks[t := x.tasks[t].(running := None, bound := None, done := true)])
  }

  function OnExit(x: System, t: TaskId): System
    requires t < |x.tasks|
  {
    x.(tasks := x.tasks[t := x.tasks[t].(done := true)])
  }

  /** A timer or a lost connection closes the session; its drain task is left to finish. */
  function OnClose(x: System, c: ConnId): System
    requires c < |x.conns|
  {
    x.(conns := x.conns[c := x.conns[c].(session := Closed(x.conns[c].session))],
       active := if x.conns[c].session.registered then x.active - {c} else x.active)
  }

  /** A step that cannot happen leaves everything as it is. */
  function Next(p: Setup, x: System, step: Step): System {
    if !Enabled(x, step) then x
    else
      match step
      case Accept(peer) => OnAccept(p, x, peer)
      case Deliver(c, data) => OnDeliver(p, x, c, data)
      case Begin(t) => OnBegin(x, t)
      case Emit(t) => OnEmit(x, t)
      case Finish(t, answered) => OnFinish(x, t, answered)
      case Crash(t) => OnCrash(x, t)
      case Exit(t) => OnExit(x, t)
      case Fire(c) => OnClose(x, c)
      case Lose(c) => OnClose(x, c)
      case Wait(seconds) => x.(now := x.now + seconds)
  }

  /** Every finite interleaving, one step at a time. */
  function Reach(p: Setup, steps: seq<Step>): System {
    if steps == [] then START else Next(p, Reach(p, steps[..|steps| - 1]), steps[|steps| - 1])
  }
}
