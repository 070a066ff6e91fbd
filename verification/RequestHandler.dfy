/** The connection handler and the shared connection table, updated in place. */
module RequestHandlers {
  import opened Wrappers
  import opened Framing
  import opened Sessions

  /** The event loop as the handler sees it: a clock, and tasks created in order, some of them done. */
  class EventLoop {
    var time: real
    var created: nat
    var done: set<TaskId>

    constructor (start: real)
      ensures time == start && created == 0 && done == {}
    {
      time, created, done := start, 0, {};
    }

    method CreateTask() returns (id: TaskId)
      modifies `created
      ensures id == old(created) && created == old(created) + 1
    {
      id := created;
      created := created + 1;
    }
  }

  class ModbusTcpServer {
    const limits: Limits
    var active: set<RequestHandler>

    constructor (limits: Limits)
      requires ValidLimits(limits)
      ensures this.limits == limits && active == {}
    {
      this.limits := limits;
      active := {};
    }

    method RegisterConnection(handler: RequestHandler) returns (admitted: bool)
      modifies this
      ensures admitted <==> |old(active)| < limits.maxActive
      ensures active == if admitted then old(active) + {handler} else old(active)
    {
      if |active| >= limits.maxActive {
        return false;
      }
      active := active + {handler};
      return true;
    }

    method UnregisterConnection(handler: RequestHandler)
      modifies this
      ensures active == old(active) - {handler}
    {
      active := active - {handler};
    }
  }

  /** What decoding the front of the buffer yields: an exception, or bytes used and perhaps a request. */
  datatype Decoding = Raised(io: bool) | Read(used: nat, pdu: Option<Pdu>)

  class RequestHandler {
    const server: ModbusTcpServer
    const loop: EventLoop
    const kind: seq<Byte> -> Kind

    var recvBuffer: seq<Byte>
    var pendingRequests: seq<Pdu>
    var drainTask: Option<TaskId>
    var idleTimer: Option<real>
    var incompleteTimer: Option<real>
    var registered: bool
    var closed: bool
    var sent: seq<Refusal>

    function Abs(): Session
      reads this
    {
      Session(recvBuffer, pendingRequests, drainTask, idleTimer, incompleteTimer, registered, closed)
    }

    function Live(): bool
      reads this, loop
    {
      drainTask.Some? && drainTask.value !in loop.done
    }

    constructor (server: ModbusTcpServer, loop: EventLoop, kind: seq<Byte> -> Kind)
      ensures this.server == server && this.loop == loop && this.kind == kind
      ensures Abs() == NEW_SESSION && sent == []
    {
      this.server, this.loop, this.kind := server, loop, kind;
      recvBuffer, pendingRequests, drainTask, sent := [], [], None, [];
      idleTimer, incompleteTimer, registered, closed := None, None, false, false;
    }

    method ConnectionMade()
      requires Abs() == NEW_SESSION
      modifies this, server
      ensures var admitted := |old(server.active)| < server.limits.maxActive;
        && Abs() == Connected(server.limits, loop.time, admitted)
        && server.active == if admitted then old(server.active) + {this} else old(server.active)
      ensures sent == old(sent)
    {
      var admitted := server.RegisterConnection(this);
      if !admitted {
        closed := true;
        return;
      }
      registered := true;
      ArmIdleTimer();
    }

    method ArmIdleTimer()
      modifies `idleTimer
      ensures idleTimer == Some(loop.time + server.limits.idleTimeout)
    {
      idleTimer := Some(loop.time + server.limits.idleTimeout);
    }

    method CancelTimers()
      modifies `idleTimer, `incompleteTimer
      ensures idleTimer == None && incompleteTimer == None
    {
      idleTimer := None;
      incompleteTimer := None;
    }

    method Unregister()
      modifies `registered, server
      ensures !registered
      ensures server.active == if old(registered) then old(server.active) - {this} else old(server.active)
    {
      if registered {
        server.UnregisterConnection(this);
        registered := false;
      }
    }

    /** Closing, from a timer or a lost connection alike; closing again changes nothing. */
    method Close()
      modifies this, server
      ensures Abs() == Closed(old(Abs()))
      ensures sent == old(sent)
      ensures server.active == if old(registered) then old(server.active) - {this} else old(server.active)
      ensures old(closed && !registered && idleTimer.None? && incompleteTimer.None?) ==>
        Abs() == old(Abs()) && server.active == old(server.active)
    {
      CancelTimers();
      Unregister();
      closed := true;
    }

    method DecodeOne(bytes: seq<Byte>) returns (r: Decoding)
      ensures var n := FrameLength(bytes);
        r == if n == 0 then Read(0, None)
             else match KindOf(kind, bytes[..n])
               case IoFailure => Raised(true)
               case OtherFailure => Raised(false)
               case Silent => Read(n, None)
               case Request => Read(n, Some(PduOf(bytes[..n])))
    {
      var n := FrameLength(bytes);
      if n == 0 {
        return Read(0, None);
      }
      match KindOf(kind, bytes[..n])
      case IoFailure => return Raised(true);
      case OtherFailure => return Raised(false);
      case Silent => return Read(n, None);
      case Request => return Read(n, Some(PduOf(bytes[..n])));
    }

    /** Answer bytes the decoder rejects. */
    method AnswerFailure(io: bool, frame: seq<Byte>)
      modifies `sent
      ensures sent == old(sent) + [if io then IO_REFUSAL else Undecodable(frame)]
    {
      sent := sent + [if io then IO_REFUSAL else Undecodable(frame)];
    }

    /** Refuse an undefined coil value, queue the request, or give the session up when the queue is full. */
    method Admit(frame: seq<Byte>, pdu: Pdu) returns (overflow: bool)
      modifies this, server
      ensures var s := old(Abs());
        if RefusedCoil(frame) then !overflow && Abs() == s && sent == old(sent) + [CoilRefusal(pdu)]
        else if |s.queue| >= MAX_PENDING_REQUESTS then
          overflow && Abs() == Closed(s.(queue := [])) && sent == old(sent)
        else !overflow && Abs() == s.(queue := s.queue + [pdu]) && sent == old(sent)
      ensures server.active == if overflow && old(registered) then old(server.active) - {this} else old(server.active)
    {
      if RefusedCoil(frame) {
        sent := sent + [CoilRefusal(pdu)];
        return false;
      }
      if |pendingRequests| >= MAX_PENDING_REQUESTS {
        pendingRequests := [];
        Close();
        return true;
      }
      pendingRequests := pendingRequests + [pdu];
      return false;
    }

    /** The decoding loop, and why it stopped. */
    method DecodeFrames(data: seq<Byte>) returns (totalUsed: nat, ending: Ending)
      requires |pendingRequests| <= MAX_PENDING_REQUESTS
      modifies this, server
      ensures var scan, s := ScanFrames(kind, Room(old(pendingRequests)), data), old(Abs());
        && totalUsed == scan.used && ending == scan.ending
        && sent == old(sent) + scan.refused
        && Abs() ==
             if ending == Overflowed then Closed(s.(queue := [])) else s.(queue := s.queue + scan.taken)
      ensures server.active == if ending == Overflowed && old(registered) then old(server.active) - {this}
        else old(server.active)
    {
      hide FrameLength, RefusedCoil, PduOf, Undecodable, ScanFrames, CoilRefusal, SoFar, Closed;
      totalUsed := 0;
      var remaining := data;
      ghost var was := Abs();
      ghost var whole := ScanFrames(kind, Room(was.queue), data);
      ghost var taken, refused: seq<Refusal> := [], [];
      Started(kind, was.queue, data);
      while remaining != []
        invariant SoFar(kind, whole, totalUsed, taken, refused, pendingRequests, remaining)
        invariant totalUsed + |remaining| == |data| && |pendingRequests| <= MAX_PENDING_REQUESTS
        invariant Abs() == was.(queue := was.queue + taken)
        invariant sent == old(sent) + refused
        invariant server.active == old(server.active)
        decreases |remaining|
      {
        var frame := remaining;
        Turn(kind, whole, totalUsed, taken, refused, pendingRequests, remaining);
        var decoded := DecodeOne(remaining);
        if decoded.Raised? {
          AnswerFailure(decoded.io, frame);
          return |data|, if decoded.io then IoFailed else DecodeFailed;
        }
        var used := decoded.used;
        if used <= 0 {
          break;
        }
        totalUsed := totalUsed + used;
        remaining := remaining[used..];
        if decoded.pdu.None? {
          continue;
        }
        var pdu := decoded.pdu.value;
        var overflow := Admit(frame[..used], pdu);
        if overflow {
          return |data|, Overflowed;
        }
        if RefusedCoil(frame[..used]) {
          refused := refused + [CoilRefusal(pdu)];
        } else {
          taken := taken + [pdu];
        }
      }
      Turn(kind, whole, totalUsed, taken, refused, pendingRequests, remaining);
      ending := Drained;
    }

    /** Decode every complete frame of a delivery into the bounded queue, and see to its being drained. */
    method CallbackData(data: seq<Byte>) returns (totalUsed: nat)
      requires |pendingRequests| <= MAX_PENDING_REQUESTS
      modifies this, server, loop`created
      ensures var d := Callback(kind, old(Live()), old(loop.created), old(Abs()), data);
        && Abs() == d.session
        && sent == old(sent) + d.refused
        && loop.created == old(loop.created) + (if d.started then 1 else 0)
        && totalUsed == ScanFrames(kind, Room(old(pendingRequests)), data).used
      ensures server.active == if old(registered) && !registered then old(server.active) - {this}
        else old(server.active)
    {
      hide ScanFrames, Room;
      var ending: Ending;
      totalUsed, ending := DecodeFrames(data);
      if ending == Drained {
        ScheduleDrain();
      }
    }

    /** Start a drain task when there is work and none is running. */
    method ScheduleDrain()
      modifies `drainTask, loop`created
      ensures var start := pendingRequests != [] && !old(Live());
        && drainTask == (if start then Some(old(loop.created)) else old(drainTask))
        && loop.created == old(loop.created) + (if start then 1 else 0)
    {
      if pendingRequests != [] && (drainTask.None? || drainTask.value in loop.done) {
        var id := loop.CreateTask();
        drainTask := Some(id);
      }
    }

    /** The library appends the delivery to the buffer and drops what the callback consumed. */
    method SuperDataReceived(data: seq<Byte>)
      requires |pendingRequests| <= MAX_PENDING_REQUESTS
      modifies this, server, loop`created
      ensures var bytes := old(recvBuffer) + data;
        var d := Callback(kind, old(Live()), old(loop.created), old(Abs()), bytes);
        && Abs() == d.session.(buffer := bytes[ScanFrames(kind, Room(old(pendingRequests)), bytes).used..])
        && sent == old(sent) + d.refused
        && loop.created == old(loop.created) + (if d.started then 1 else 0)
      ensures server.active == if old(registered) && !registered then old(server.active) - {this}
        else old(server.active)
    {
      hide ScanFrames;
      var bytes := recvBuffer + data;
      var used := CallbackData(bytes);
      recvBuffer := bytes[used..];
    }

    method DataReceived(data: seq<Byte>)
      requires |pendingRequests| <= MAX_PENDING_REQUESTS
      modifies this, server, loop`created
      ensures var d := Receive(kind, server.limits, loop.time, old(Live()), old(loop.created), old(Abs()), data);
        && Abs() == d.session
        && sent == old(sent) + d.refused
        && loop.created == old(loop.created) + (if d.started then 1 else 0)
      ensures server.active == if old(registered) && !registered then old(server.active) - {this}
        else old(server.active)
      ensures |pendingRequests| <= MAX_PENDING_REQUESTS
    {
      hide ScanFrames;
      var pendingSize := |recvBuffer| + |data|;
      if pendingSize > MAX_PENDING_REQUEST_BYTES {
        Close();
        return;
      }
      SuperDataReceived(data);
      ArmIdleTimer();
      if recvBuffer != [] {
        if incompleteTimer.None? {
          incompleteTimer := Some(loop.time + server.limits.incompleteTimeout);
        }
      } else if incompleteTimer.Some? {
        incompleteTimer := None;
      }
    }
  }

  /** The whole delivery's result, given what the loop has done and has left to do. */
  ghost predicate SoFar(
    kind: seq<Byte> -> Kind, whole: Scan, used: nat, taken: seq<Pdu>, refused: seq<Refusal>, queue: seq<Pdu>,
    remaining: seq<Byte>)
  {
    whole == After(used, taken, refused, ScanFrames(kind, Room(queue), remaining))
  }

  lemma Started(kind: seq<Byte> -> Kind, queue: seq<Pdu>, bytes: seq<Byte>)
    ensures SoFar(kind, ScanFrames(kind, Room(queue), bytes), 0, [], [], queue, bytes)
  {
  }

  /** One turn of the loop: it ends the decoding, or leaves the same whole to the frames after this one. */
  lemma Turn(
    kind: seq<Byte> -> Kind, whole: Scan, used: nat, taken: seq<Pdu>, refused: seq<Refusal>, queue: seq<Pdu>,
    remaining: seq<Byte>)
    requires SoFar(kind, whole, used, taken, refused, queue, remaining)
    ensures var n := FrameLength(remaining);
      if n == 0 then whole == Scan(taken, refused, used, Drained)
      else
        var frame, later := remaining[..n], remaining[n..];
        match KindOf(kind, frame)
        case IoFailure => whole == Scan(taken, refused + [IO_REFUSAL], used + |remaining|, IoFailed)
        case OtherFailure =>
          whole == Scan(taken, refused + [Undecodable(remaining)], used + |remaining|, DecodeFailed)
        case Silent => SoFar(kind, whole, used + n, taken, refused, queue, later)
        case Request =>
          var pdu := PduOf(frame);
          if RefusedCoil(frame) then SoFar(kind, whole, used + n, taken, refused + [CoilRefusal(pdu)], queue, later)
          else if |queue| >= MAX_PENDING_REQUESTS then whole == Scan(taken, refused, used + |remaining|, Overflowed)
          else SoFar(kind, whole, used + n, taken + [pdu], refused, queue + [pdu], later)
  {
    hide FrameLength, RefusedCoil, PduOf, Undecodable, CoilRefusal;
    var n := FrameLength(remaining);
    if n != 0 {
      var frame, later := remaining[..n], remaining[n..];
      assert taken + [] == taken && refused + [] == refused;
      if KindOf(kind, frame) == Silent {
        Compose(used, taken, refused, n, [], [], ScanFrames(kind, Room(queue), later));
      } else if KindOf(kind, frame) == Request && RefusedCoil(frame) {
        Compose(used, taken, refused, n, [], [CoilRefusal(PduOf(frame))], ScanFrames(kind, Room(queue), later));
      } else if KindOf(kind, frame) == Request && Room(queue) > 0 {
        Compose(used, taken, refused, n, [PduOf(frame)], [], ScanFrames(kind, Room(queue) - 1, later));
      }
    }
  }

  lemma Compose(
    n: nat, taken: seq<Pdu>, refused: seq<Refusal>, m: nat, more: seq<Pdu>, again: seq<Refusal>, later: Scan)
    ensures After(n, taken, refused, After(m, more, again, later))
         == After(n + m, taken + more, refused + again, later)
  {
    Associative(taken, more, later.taken);
    Associative(refused, again, later.refused);
  }
}
