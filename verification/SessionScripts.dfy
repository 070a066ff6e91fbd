/** What a session reports and answers is fixed by its own deliveries and its own acts, one reply to an answer. */
module SessionScripts {
  import opened Framing
  import opened Sessions
  import opened ServerSystem
  import opened QueueDiscipline
  import opened DeliveryStreams
  import opened Segmentation
  import opened Histories
  import opened Attribution

  /** An act of a drain task; an exception ends a request as one left unanswered. */
  datatype Act = Start | Report | End(answered: bool)

  predicate CanStart(x: System, t: TaskId, c: ConnId) {
    && t < |x.tasks| && x.tasks[t].conn == c && !x.tasks[t].done && x.tasks[t].running.None?
    && c < |x.conns| && x.conns[c].session.queue != []
  }

  /** What a step is to connection `c`. */
  function ActOf(x: System, step: Step, c: ConnId): seq<Act> {
    match step
    case Begin(t) => if CanStart(x, t, c) then [Start] else []
    case Emit(t) => if Serving(x, t, c) then [Report] else []
    case Finish(t, answered) => if Serving(x, t, c) then [End(answered)] else []
    case Crash(t) => if Serving(x, t, c) then [End(false)] else []
    case _ => []
  }

  /** The acts on one connection, read off a run. */
  function ActsOn(p: Setup, steps: seq<Step>, c: ConnId): seq<Act> {
    if steps == [] then []
    else
      var front := steps[..|steps| - 1];
      ActsOn(p, front, c) + ActOf(Reach(p, front), steps[|steps| - 1], c)
  }

  // ----- One session alone, executing a list of requests -----

  function Starts(acts: seq<Act>): nat {
    if acts == [] then 0 else Starts(acts[..|acts| - 1]) + if acts[|acts| - 1] == Start then 1 else 0
  }

  /** The request started last. */
  function Latest(requests: seq<Pdu>, acts: seq<Act>): seq<Pdu> {
    if 0 < Starts(acts) <= |requests| then [requests[Starts(acts) - 1]] else []
  }

  /** The request behind each report. */
  function Reported(requests: seq<Pdu>, acts: seq<Act>): seq<Pdu> {
    if acts == [] then []
    else
      var front := acts[..|acts| - 1];
      Reported(requests, front) + if acts[|acts| - 1] == Report then Latest(requests, front) else []
  }

  /** The request behind each answer. */
  function Answered(requests: seq<Pdu>, acts: seq<Act>): seq<Pdu> {
    if acts == [] then []
    else
      var front := acts[..|acts| - 1];
      Answered(requests, front) + if acts[|acts| - 1] == End(true) then Latest(requests, front) else []
  }

  /** The requests behind a connection's events. */
  function CausesOn(events: seq<Emitted>, c: ConnId): seq<Pdu> {
    if events == [] then []
    else
      var cause := events[|events| - 1].cause;
      CausesOn(events[..|events| - 1], c) + if cause.conn == c then [cause.pdu] else []
  }

  /** Requests that have not been started make no difference. */
  lemma {:induction false} LaterRequests(requests: seq<Pdu>, more: seq<Pdu>, acts: seq<Act>)
    requires Starts(acts) <= |requests|
    ensures Reported(requests + more, acts) == Reported(requests, acts)
    ensures Answered(requests + more, acts) == Answered(requests, acts)
  {
    if acts != [] { LaterRequests(requests, more, acts[..|acts| - 1]); }
  }

  lemma OneMoreAct(requests: seq<Pdu>, acts: seq<Act>, act: Act)
    ensures var more := acts + [act];
      && Starts(more) == Starts(acts) + (if act == Start then 1 else 0)
      && Reported(requests, more) == Reported(requests, acts) + (if act == Report then Latest(requests, acts) else [])
      && Answered(requests, more) ==
           Answered(requests, acts) + (if act == End(true) then Latest(requests, acts) else [])
  {
    assert (acts + [act])[..|acts|] == acts;
  }

  // ----- One step -----

  /**
   * A finished request that was answered adds its transaction and unit identifier to the replies of its
   * own connection, once; no other step adds a reply anywhere.
   */
  lemma OneReplyEach(p: Setup, x: System, step: Step, c: ConnId)
    ensures RepliesOn(Next(p, x, step).responses, c) == RepliesOn(x.responses, c) +
      (if step.Finish? && step.answered && Serving(x, step.task, c) then
         [(x.tasks[step.task].running.value.transaction, x.tasks[step.task].running.value.unit as int)]
       else [])
  {
    hide Receive;
    var y := Next(p, x, step);
    if step.Finish? && step.answered && Enabled(x, step) {
      assert y.responses[..|y.responses| - 1] == x.responses;
    } else {
      assert y.responses == x.responses;
      hide RepliesOn;
    }
  }

  /** Each event is caused by the request its task was executing; no other step adds an event. */
  lemma OneCauseEach(p: Setup, x: System, step: Step, c: ConnId)
    ensures CausesOn(Next(p, x, step).events, c) == CausesOn(x.events, c) +
      (if step.Emit? && Serving(x, step.task, c) then [x.tasks[step.task].running.value] else [])
  {
    hide Receive;
    var y := Next(p, x, step);
    if step.Emit? && Enabled(x, step) {
      assert y.events[..|y.events| - 1] == x.events;
    } else {
      assert y.events == x.events;
      hide CausesOn;
    }
  }

  /** A request begins by leaving the head of its queue; no other step begins one. */
  lemma OneBegunEach(p: Setup, x: System, step: Step, c: ConnId)
    requires Handles(x) && c < |x.conns|
    ensures var y := Next(p, x, step);
      && c < |y.conns|
      && y.conns[c].begun == x.conns[c].begun +
           (if step.Begin? && CanStart(x, step.task, c) then [x.conns[c].session.queue[0]] else [])
  {
    if step.Begin? { HandlesAt(x, step.task, c); }
    hide Receive, Handles;
  }

  lemma LatestIsRunning(x: System, t: TaskId, c: ConnId, acts: seq<Act>)
    requires AllOrderly(x) && Serving(x, t, c) && c < |x.conns| && Starts(acts) == |x.conns[c].begun|
    ensures Latest(x.conns[c].begun, acts) == [x.tasks[t].running.value]
  {
    OrderlyAt(x, c);
    HandlesAt(x, t, c);
    hide AllOrderly, Handles, Starts;
  }

  /** So far the session has done what its acts make of the requests it has begun. */
  ghost predicate Scripted(x: System, c: ConnId, acts: seq<Act>) {
    if c < |x.conns| then
      && Starts(acts) == |x.conns[c].begun|
      && CausesOn(x.events, c) == Reported(x.conns[c].begun, acts)
      && RepliesOn(x.responses, c) == IdentifiersOf(Answered(x.conns[c].begun, acts))
    else acts == [] && CausesOn(x.events, c) == [] && RepliesOn(x.responses, c) == []
  }

  lemma {:induction false} ReachScripted(p: Setup, steps: seq<Step>, c: ConnId)
    ensures Scripted(Reach(p, steps), c, ActsOn(p, steps, c))
  {
    hide Next;
    if steps != [] {
      hide Scripted, AllOrderly;
      var front, step := steps[..|steps| - 1], steps[|steps| - 1];
      ReachScripted(p, front, c);
      ReachOrderly(p, front);
      NextScripted(p, Reach(p, front), step, c, ActsOn(p, front, c));
    }
  }

  lemma NextScripted(p: Setup, x: System, step: Step, c: ConnId, acts: seq<Act>)
    requires AllOrderly(x) && Scripted(x, c, acts)
    ensures Scripted(Next(p, x, step), c, acts + ActOf(x, step, c))
  {
    OneReplyEach(p, x, step, c);
    OneCauseEach(p, x, step, c);
    if c < |x.conns| {
      NextScriptedOpen(p, x, step, c, acts);
    } else {
      NotOpened(p, x, step, c);
      hide Next, AllOrderly;
      assert acts + ActOf(x, step, c) == acts;
    }
  }

  lemma NotOpened(p: Setup, x: System, step: Step, c: ConnId)
    requires AllOrderly(x) && c >= |x.conns|
    ensures ActOf(x, step, c) == []
    ensures !(exists t: TaskId :: Serving(x, t, c))
    ensures c < |Next(p, x, step).conns| ==>
      var conn := Next(p, x, step).conns[c]; conn.begun == [] && conn.finished == [] && !conn.crashed
  {
    forall t: TaskId ensures !Serving(x, t, c) { HandlesAt(x, t, c); }
    hide Receive, AllOrderly;
  }

  /** What one act adds to each list, given the requests begun before it. */
  lemma ActAdds(begun: seq<Pdu>, acts: seq<Act>, act: Act, next: Pdu)
    requires Starts(acts) == |begun|
    ensures var more, later := acts + [act], if act == Start then begun + [next] else begun;
      && Starts(more) == |later|
      && Reported(later, more) == Reported(begun, acts) + (if act == Report then Latest(begun, acts) else [])
      && IdentifiersOf(Answered(later, more)) ==
           IdentifiersOf(Answered(begun, acts)) + (if act == End(true) then IdentifiersOf(Latest(begun, acts)) else [])
  {
    OneMoreAct(begun, acts, act);
    if act == Start {
      LaterRequests(begun, [next], acts);
      OneMoreAct(begun + [next], acts, Start);
    }
    hide Starts, Reported, Answered, Latest, IdentifiersOf;
    if act == End(true) { IdentifiersConcat(Answered(begun, acts), Latest(begun, acts)); }
  }

  lemma NextScriptedOpen(p: Setup, x: System, step: Step, c: ConnId, acts: seq<Act>)
    requires AllOrderly(x) && Scripted(x, c, acts) && c < |x.conns|
    ensures Scripted(Next(p, x, step), c, acts + ActOf(x, step, c))
  {
    OneReplyEach(p, x, step, c);
    OneCauseEach(p, x, step, c);
    OneBegunEach(p, x, step, c);
    hide Next, AllOrderly, Handles, RepliesOn, CausesOn, Reported, Answered, Starts, Latest;
    var begun, did := x.conns[c].begun, ActOf(x, step, c);
    if did == [] {
      assert acts + did == acts;
    } else if did[0] == Start {
      ActAdds(begun, acts, Start, x.conns[c].session.queue[0]);
    } else {
      var pdu := x.tasks[step.task].running.value;
      LatestIsRunning(x, step.task, c, acts);
      ActAdds(begun, acts, did[0], pdu);
    }
  }

  /**
   * In every interleaving a session has begun as many of the requests its deliveries ask for as it has
   * started, in order; its events are caused, and its replies owed, by exactly the requests behind its own
   * reports and answers. In a clean session those requests are the ones its bytes encode.
   */
  lemma ScriptFollowed(p: Setup, steps: seq<Step>, c: ConnId)
    requires c < |Reach(p, steps).conns|
    ensures var x, acts := Reach(p, steps), ActsOn(p, steps, c);
      var requests := TakenOver(p.kind, x.conns[c].deliveries);
      && Starts(acts) <= |requests| && x.conns[c].begun == requests[..Starts(acts)]
      && CausesOn(x.events, c) == Reported(requests, acts)
      && RepliesOn(x.responses, c) == IdentifiersOf(Answered(requests, acts))
      && (Clean(p, x.conns[c]) ==> requests == Accepted(p.kind, Frames(x.conns[c].received)))
  {
    hide Reach, TakenOver, Clean, Accepted, Frames, Starts, Reported, Answered, CausesOn, RepliesOn, IdentifiersOf;
    var x, acts := Reach(p, steps), ActsOn(p, steps, c);
    var conn := x.conns[c];
    var requests := TakenOver(p.kind, conn.deliveries);
    ReachScripted(p, steps, c);
    TakenFromDeliveries(p, steps, c);
    SplitAt(requests, |conn.begun|);
    LaterRequests(conn.begun, requests[|conn.begun|..], acts);
    if Clean(p, conn) {
      DecodedAsOneStream(p, steps, c);
      QueueKept(p, steps, c);
      NotCut(p, conn);
    }
  }

  lemma NotCut(p: Setup, conn: Conn)
    requires Clean(p, conn)
    ensures !conn.cut
  {
  }

  // ----- When nothing goes wrong -----

  predicate Faultless(steps: seq<Step>) {
    forall step :: step in steps ==> !step.Crash? && (step.Finish? ==> step.answered)
  }

  ghost predicate AllAnswered(x: System, c: ConnId) {
    if c < |x.conns| then RepliesOn(x.responses, c) == IdentifiersOf(x.conns[c].finished) && !x.conns[c].crashed
    else RepliesOn(x.responses, c) == []
  }

  lemma NextAnswered(p: Setup, x: System, step: Step, c: ConnId)
    requires AllOrderly(x) && !step.Crash? && (step.Finish? ==> step.answered)
    requires AllAnswered(x, c)
    ensures AllAnswered(Next(p, x, step), c)
  {
    OneReplyEach(p, x, step, c);
    NoIdentifiers();
    if c < |x.conns| {
      OrderlyAt(x, c);
      HistoryStep(p, x, step, c);
      hide Next, AllOrderly, Handles, RepliesOn, IdentifiersOf, WithinLimits;
      if step.Finish? && Serving(x, step.task, c) {
        OneMoreFinished(x.conns[c].finished, x.tasks[step.task].running.value);
      }
    } else {
      NotOpened(p, x, step, c);
      hide AllOrderly, Receive, RepliesOn, IdentifiersOf;
    }
  }

  lemma NoIdentifiers()
    ensures IdentifiersOf([]) == []
  {
  }

  lemma {:induction false} ReachAnswered(p: Setup, steps: seq<Step>, c: ConnId)
    requires Faultless(steps)
    ensures AllAnswered(Reach(p, steps), c)
  {
    hide Next;
    if steps != [] {
      hide AllOrderly, AllAnswered;
      var front := steps[..|steps| - 1];
      ReachAnswered(p, front, c);
      ReachOrderly(p, front);
      NextAnswered(p, Reach(p, front), steps[|steps| - 1], c);
    }
  }

  /**
   * Once a clean session is quiet, and no request failed to be answered, its client has been sent one
   * reply to each request of its stream, in order, under that request's own header bytes.
   */
  lemma EveryRequestAnswered(p: Setup, steps: seq<Step>, c: ConnId)
    requires c < |Reach(p, steps).conns| && Clean(p, Reach(p, steps).conns[c]) && Faultless(steps)
    requires !Live(Reach(p, steps), Reach(p, steps).conns[c].session.drain)
    ensures var x := Reach(p, steps);
      RepliesOn(x.responses, c) == RequestHeaders(p.kind, Frames(x.conns[c].received))
  {
    hide Reach, Clean, Accepted, Frames, RequestHeaders, RepliesOn, IdentifiersOf, Live;
    ReachAnswered(p, steps, c);
    QuietSessionServed(p, steps, c);
    HeadersOfAccepted(p.kind, Frames(Reach(p, steps).conns[c].received));
  }
}
