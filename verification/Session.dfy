/** One TCP session: what a delivery of bytes does to its queue, its drain task and its timers. */
module Sessions {
  import opened Wrappers
  import opened Framing

  const MAX_PENDING_REQUEST_BYTES := 1024
  const MAX_PENDING_REQUESTS: nat := 32

  const ILLEGAL_FUNCTION := 1
  const ILLEGAL_VALUE := 3

  /** An exception response sent before any request runs; unset identifiers keep the library's defaults. */
  datatype Refusal = Refusal(functionCode: int, exception: int, transaction: Option<int>, unit: Option<int>)

  const IO_REFUSAL := Refusal(40, ILLEGAL_FUNCTION, None, None)

  /** The answer to bytes the decoder rejects: the claimed function code and the header's identifiers. */
  function Undecodable(bytes: seq<Byte>): Refusal {
    Refusal(
      if |bytes| > FUNCTION_CODE_OFFSET then bytes[FUNCTION_CODE_OFFSET] else 0,
      ILLEGAL_VALUE,
      if |bytes| >= 2 then Some(Word(bytes, 0)) else None,
      if |bytes| > UNIT_OFFSET then Some(bytes[UNIT_OFFSET]) else None)
  }

  function CoilRefusal(pdu: Pdu): Refusal {
    Refusal(WRITE_SINGLE_COIL, ILLEGAL_VALUE, Some(pdu.transaction), Some(pdu.unit))
  }

  // ----- Decoding one delivery -----

  datatype Ending = Drained | IoFailed | DecodeFailed | Overflowed

  /** Requests queued, refusals sent, bytes reported as consumed, and why decoding stopped. */
  datatype Scan = Scan(taken: seq<Pdu>, refused: seq<Refusal>, used: nat, ending: Ending)

  function After(n: nat, taken: seq<Pdu>, refused: seq<Refusal>, later: Scan): Scan {
    Scan(taken + later.taken, refused + later.refused, n + later.used, later.ending)
  }

  /** Decode frame by frame with space for `room` more requests. */
  function ScanFrames(kind: seq<Byte> -> Kind, room: nat, bytes: seq<Byte>): (s: Scan)
    ensures s.used <= |bytes|
    ensures s.ending != Drained ==> s.used == |bytes|
    ensures |s.taken| <= room
    decreases |bytes|
  {
    var n := FrameLength(bytes);
    if n == 0 then Scan([], [], 0, Drained)
    else
      var frame, later := bytes[..n], bytes[n..];
      match KindOf(kind, frame)
      case IoFailure => Scan([], [IO_REFUSAL], |bytes|, IoFailed)
      case OtherFailure => Scan([], [Undecodable(bytes)], |bytes|, DecodeFailed)
      case Silent => After(n, [], [], ScanFrames(kind, room, later))
      case Request =>
        if RefusedCoil(frame) then After(n, [], [CoilRefusal(PduOf(frame))], ScanFrames(kind, room, later))
        else if room == 0 then Scan([], [], |bytes|, Overflowed)
        else After(n, [PduOf(frame)], [], ScanFrames(kind, room - 1, later))
  }

  // ----- What a stream asks for, frame by frame -----

  predicate Fails(kind: seq<Byte> -> Kind, frame: seq<Byte>) {
    KindOf(kind, frame) == IoFailure || KindOf(kind, frame) == OtherFailure
  }

  /** The frames before the first one the decoder rejects. */
  function Decoded(kind: seq<Byte> -> Kind, frames: seq<seq<Byte>>): seq<seq<Byte>> {
    if frames == [] || Fails(kind, frames[0]) then [] else [frames[0]] + Decoded(kind, frames[1..])
  }

  /** The first frame the decoder rejects. */
  function Rejected(kind: seq<Byte> -> Kind, frames: seq<seq<Byte>>): Option<seq<Byte>> {
    if frames == [] then None
    else if Fails(kind, frames[0]) then Some(frames[0])
    else Rejected(kind, frames[1..])
  }

  /** The requests to execute, in stream order. */
  function Accepted(kind: seq<Byte> -> Kind, frames: seq<seq<Byte>>): seq<Pdu> {
    if frames == [] then []
    else
      var frame := frames[0];
      (if KindOf(kind, frame) == Request && !RefusedCoil(frame) then [PduOf(frame)] else [])
        + Accepted(kind, frames[1..])
  }

  /** The coil writes refused before execution, in stream order. */
  function Refusals(kind: seq<Byte> -> Kind, frames: seq<seq<Byte>>): seq<Refusal> {
    if frames == [] then []
    else
      var frame := frames[0];
      (if KindOf(kind, frame) == Request && RefusedCoil(frame) then [CoilRefusal(PduOf(frame))] else [])
        + Refusals(kind, frames[1..])
  }

  function Failure(kind: seq<Byte> -> Kind, frame: seq<Byte>): (Refusal, Ending) {
    if KindOf(kind, frame) == IoFailure then (IO_REFUSAL, IoFailed) else (Undecodable(frame), DecodeFailed)
  }

  /** What decoding a delivery comes to, read off the list of its frames. */
  function Meaning(kind: seq<Byte> -> Kind, bytes: seq<Byte>): (m: Scan)
    ensures m.used <= |bytes|
  {
    var decoded, rejected := Decoded(kind, Frames(bytes)), Rejected(kind, Frames(bytes));
    var accepted, refusals := Accepted(kind, decoded), Refusals(kind, decoded);
    match rejected
    case None => Scan(accepted, refusals, |bytes| - |Rest(bytes)|, Drained)
    case Some(frame) =>
      var (refusal, ending) := Failure(kind, frame);
      Scan(accepted, refusals + [refusal], |bytes|, ending)
  }

  lemma UndecodableFrame(bytes: seq<Byte>)
    requires FrameLength(bytes) >= MINIMUM_FRAME
    ensures Undecodable(bytes[..FrameLength(bytes)]) == Undecodable(bytes)
  {
    var frame := bytes[..FrameLength(bytes)];
    assert Word(frame, 0) == Word(bytes, 0);
  }

  lemma NoFrames(kind: seq<Byte> -> Kind)
    ensures Decoded(kind, []) == [] && Rejected(kind, []) == None
    ensures Accepted(kind, []) == [] && Refusals(kind, []) == []
  {
  }

  /** How each list reads its first frame. */
  lemma FirstOf(kind: seq<Byte> -> Kind, frame: seq<Byte>, later: seq<seq<Byte>>)
    ensures var frames := [frame] + later;
      && Decoded(kind, frames) == (if Fails(kind, frame) then [] else [frame] + Decoded(kind, later))
      && Rejected(kind, frames) == (if Fails(kind, frame) then Some(frame) else Rejected(kind, later))
      && Accepted(kind, frames) ==
           (if KindOf(kind, frame) == Request && !RefusedCoil(frame) then [PduOf(frame)] else [])
             + Accepted(kind, later)
      && Refusals(kind, frames) ==
           (if KindOf(kind, frame) == Request && RefusedCoil(frame) then [CoilRefusal(PduOf(frame))] else [])
             + Refusals(kind, later)
  {
    assert ([frame] + later)[1..] == later;
  }

  /**
   * The decoding loop computes the meaning of the delivery when its requests fit, and otherwise ends in
   * an overflow.
   */
  lemma {:induction false} ScanMeans(kind: seq<Byte> -> Kind, room: nat, bytes: seq<Byte>)
    ensures var s, m := ScanFrames(kind, room, bytes), Meaning(kind, bytes);
      if |m.taken| <= room then s == m else s.ending == Overflowed
    decreases |bytes|
  {
    hide Frames, Rest, FrameLength, RefusedCoil, PduOf, Decoded, Rejected, Accepted, Refusals, Undecodable;
    FirstFrame(bytes);
    NoFrames(kind);
    var n := FrameLength(bytes);
    if n != 0 {
      var frame, later := bytes[..n], bytes[n..];
      FirstOf(kind, frame, Frames(later));
      var decoded := Decoded(kind, Frames(later));
      FirstOf(kind, frame, decoded);
      if KindOf(kind, frame) == Request && RefusedCoil(frame) && Rejected(kind, Frames(later)).Some? {
        Associative([CoilRefusal(PduOf(frame))], Refusals(kind, decoded),
                    [Failure(kind, Rejected(kind, Frames(later)).value).0]);
      }
      if KindOf(kind, frame) == OtherFailure {
        UndecodableFrame(bytes);
      } else if KindOf(kind, frame) == Silent || (KindOf(kind, frame) == Request && RefusedCoil(frame)) {
        ScanMeans(kind, room, later);
      } else if KindOf(kind, frame) == Request && room > 0 {
        ScanMeans(kind, room - 1, later);
      }
    }
  }

  // ----- What each frame comes to, in bytes -----

  /** What one complete frame comes to when `later` is what the bytes behind it come to. */
  function Outcome(kind: seq<Byte> -> Kind, frame: seq<Byte>, bytes: nat, later: Scan): Scan
    requires |frame| >= 8
  {
    var transaction, unit := 256 * (frame[0] as int) + frame[1] as int, frame[6];
    match kind(frame)
    case IoFailure => Scan([], [Refusal(40, 1, None, None)], bytes, IoFailed)
    case OtherFailure => Scan([], [Refusal(frame[7], 3, Some(transaction), Some(unit))], bytes, DecodeFailed)
    case Silent => After(|frame|, [], [], later)
    case Request =>
      if |frame| >= 12 && frame[7] == 5 && [frame[10], frame[11]] != [0xFF, 0] && [frame[10], frame[11]] != [0, 0] then
        After(|frame|, [], [Refusal(5, 3, Some(transaction), Some(unit))], later)
      else After(|frame|, [Pdu(transaction, unit, frame[7..])], [], later)
  }

  lemma CoilValue(frame: seq<Byte>)
    requires |frame| >= 8
    ensures RefusedCoil(frame) <==>
      |frame| >= 12 && frame[7] == 5 && [frame[10], frame[11]] != [0xFF, 0] && [frame[10], frame[11]] != [0, 0]
    ensures var transaction := 256 * (frame[0] as int) + frame[1] as int;
      && PduOf(frame) == Pdu(transaction, frame[6], frame[7..])
      && CoilRefusal(PduOf(frame)) == Refusal(5, 3, Some(transaction), Some(frame[6]))
      && Undecodable(frame) == Refusal(frame[7], 3, Some(transaction), Some(frame[6]))
  {
    if |frame| >= 12 && frame[7] == 5 {
      assert Word(frame, 10) == 0xFF00 <==> frame[10] == 0xFF && frame[11] == 0;
      assert Word(frame, 10) == 0 <==> frame[10] == 0 && frame[11] == 0;
    }
  }

  /** How the meaning of a delivery reads its first frame. */
  lemma FirstMeans(kind: seq<Byte> -> Kind, frame: seq<Byte>, bytes: seq<Byte>)
    requires FrameLength(bytes) != 0 && frame == bytes[..FrameLength(bytes)]
    ensures var n := FrameLength(bytes);
      var m := Meaning(kind, bytes[n..]);
      Meaning(kind, bytes) ==
        match KindOf(kind, frame)
        case IoFailure => Scan([], [IO_REFUSAL], |bytes|, IoFailed)
        case OtherFailure => Scan([], [Undecodable(frame)], |bytes|, DecodeFailed)
        case Silent => After(n, [], [], m)
        case Request =>
          if RefusedCoil(frame) then After(n, [], [CoilRefusal(PduOf(frame))], m)
          else After(n, [PduOf(frame)], [], m)
  {
    FirstFrame(bytes);
    hide Frames, Rest, FrameLength, RefusedCoil, PduOf, Decoded, Rejected, Accepted, Refusals, Undecodable,
      CoilRefusal;
    NoFrames(kind);
    var later := bytes[FrameLength(bytes)..];
    FirstOf(kind, frame, Frames(later));
    var decoded := Decoded(kind, Frames(later));
    FirstOf(kind, frame, decoded);
    if KindOf(kind, frame) == Request && RefusedCoil(frame) && Rejected(kind, Frames(later)).Some? {
      Associative([CoilRefusal(PduOf(frame))], Refusals(kind, decoded),
                  [Failure(kind, Rejected(kind, Frames(later)).value).0]);
    }
  }

  /**
   * Byte by byte, what a delivery comes to: an unfinished frame waits; a complete one is a failure, a
   * refusal of an undefined coil value, or a request, under the identifiers of its own header.
   */
  lemma MeaningOfBytes(kind: seq<Byte> -> Kind, bytes: seq<Byte>)
    ensures Unfinished(bytes) ==> Meaning(kind, bytes) == Scan([], [], 0, Drained)
    ensures !Unfinished(bytes) ==>
      var n := 6 + 256 * (bytes[4] as int) + bytes[5] as int;
      var m := Meaning(kind, bytes[n..]);
      Meaning(kind, bytes) ==
        if n < 8 then After(n, [], [], m) else Outcome(kind, bytes[..n], |bytes|, m)
  {
    LengthIs(bytes);
    FirstFrame(bytes);
    NoFrames(kind);
    var n := FrameLength(bytes);
    if n == 0 {
      hide Unfinished, Frames, Rest, FrameLength;
    } else {
      hide Unfinished, FrameLength, RefusedCoil, PduOf, Undecodable, CoilRefusal, Meaning;
      var frame := bytes[..n];
      if n >= 8 { CoilValue(frame); }
      FirstMeans(kind, frame, bytes);
    }
  }

  // ----- The session's own state -----

  type TaskId = nat

  /** The configured limits of the server. */
  datatype Limits = Limits(maxActive: nat, idleTimeout: real, incompleteTimeout: real)

  ghost predicate ValidLimits(l: Limits) { l.maxActive > 0 && l.idleTimeout > 0.0 && l.incompleteTimeout > 0.0 }

  /** A handler's fields; timers hold their deadlines. */
  datatype Session = Session(
    buffer: seq<Byte>,
    queue: seq<Pdu>,
    drain: Option<TaskId>,
    idle: Option<real>,
    incomplete: Option<real>,
    registered: bool,
    closed: bool)

  const NEW_SESSION := Session([], [], None, None, None, false, false)

  /** After accepting a connection: registered with its idle timer armed, or turned away. */
  function Connected(l: Limits, now: real, admitted: bool): Session {
    if admitted then NEW_SESSION.(registered := true, idle := Some(now + l.idleTimeout))
    else NEW_SESSION.(closed := true)
  }

  function Closed(s: Session): Session {
    s.(idle := None, incomplete := None, registered := false, closed := true)
  }

  function Room(queue: seq<Pdu>): nat {
    if |queue| < MAX_PENDING_REQUESTS then MAX_PENDING_REQUESTS - |queue| else 0
  }

  /** The session after a callback or a delivery, what it sent, what it queued, and whether it started a task. */
  datatype Delivery = Delivery(
    session: Session, refused: seq<Refusal>, taken: seq<Pdu>, started: bool, ending: Option<Ending>)

  /** Decode a buffer into the queue and start a drain task when a normal return leaves work and no live task. */
  function Callback(
    kind: seq<Byte> -> Kind, live: bool, next: TaskId, s: Session, bytes: seq<Byte>): Delivery
  {
    var scan := ScanFrames(kind, Room(s.queue), bytes);
    var queue := s.queue + scan.taken;
    match scan.ending
    case Drained =>
      var start := queue != [] && !live;
      Delivery(s.(queue := queue, drain := if start then Some(next) else s.drain),
               scan.refused, scan.taken, start, Some(Drained))
    case Overflowed =>
      Delivery(Closed(s.(queue := [])), scan.refused, scan.taken, false, Some(Overflowed))
    case failed => Delivery(s.(queue := queue), scan.refused, scan.taken, false, Some(failed))
  }

  /** One TCP delivery; `live` says whether the session's last drain task is still running. */
  function Receive(
    kind: seq<Byte> -> Kind, l: Limits, now: real, live: bool, next: TaskId, s: Session, data: seq<Byte>): Delivery
  {
    var bytes := s.buffer + data;
    if |bytes| > MAX_PENDING_REQUEST_BYTES then Delivery(Closed(s), [], [], false, None)
    else
      var d := Callback(kind, live, next, s, bytes);
      var buffer := bytes[ScanFrames(kind, Room(s.queue), bytes).used..];
      d.(session := d.session.(
           buffer := buffer,
           idle := Some(now + l.idleTimeout),
           incomplete :=
             if buffer == [] then None
             else if d.session.incomplete.None? then Some(now + l.incompleteTimeout)
             else d.session.incomplete))
  }

  // ----- What one delivery guarantees -----

  /** A delivery whose frames all decode and whose requests fit the queue takes exactly its requests. */
  predicate Fits(kind: seq<Byte> -> Kind, s: Session, data: seq<Byte>) {
    |s.buffer + data| <= 1024 && |s.queue| + |Accepted(kind, Frames(s.buffer + data))| <= 32
  }

  lemma {:induction false} AllDecoded(kind: seq<Byte> -> Kind, frames: seq<seq<Byte>>)
    requires Rejected(kind, frames).None?
    ensures Decoded(kind, frames) == frames
  {
    if frames != [] {
      AllDecoded(kind, frames[1..]);
      assert frames == [frames[0]] + frames[1..];
    }
  }

  /**
   * With decodable frames a delivery closes the session exactly when a limit is exceeded; otherwise it
   * queues and refuses what its frames say and keeps the incomplete tail.
   */
  lemma ReceiveDecodes(
    kind: seq<Byte> -> Kind, l: Limits, now: real, live: bool, next: TaskId, s: Session, data: seq<Byte>)
    requires |s.queue| <= 32 && !s.closed
    requires Rejected(kind, Frames(s.buffer + data)).None?
    ensures var d, frames := Receive(kind, l, now, live, next, s, data), Frames(s.buffer + data);
      if Fits(kind, s, data) then
        && !d.session.closed && d.ending == Some(Drained)
        && d.taken == Accepted(kind, frames)
        && d.session.queue == s.queue + Accepted(kind, frames)
        && d.refused == Refusals(kind, frames)
        && d.session.buffer == Rest(s.buffer + data)
      else d.session.closed
  {
    hide Frames, Rest, Accepted, Refusals, Decoded, Rejected, ScanFrames;
    var bytes := s.buffer + data;
    AllDecoded(kind, Frames(bytes));
    ScanMeans(kind, Room(s.queue), bytes);
    RestIsTail(bytes);
  }

  /**
   * Exactly when a delivery leaves requests queued with no task to drain them: no task was live, and
   * either the delivery is oversized and the queue was not empty, or decoding fails without overflowing
   * the queue and the queue or the frames before the failing one held a request.
   */
  lemma StrandedExactly(
    kind: seq<Byte> -> Kind, l: Limits, now: real, live: bool, next: TaskId, s: Session, data: seq<Byte>)
    requires |s.queue| <= 32
    ensures var d, bytes := Receive(kind, l, now, live, next, s, data), s.buffer + data;
      var accepted := Accepted(kind, Decoded(kind, Frames(bytes)));
      (d.session.queue != [] && !live && !d.started) <==>
        (&& !live
         && if |bytes| > 1024 then s.queue != []
            else
              && Rejected(kind, Frames(bytes)).Some?
              && |s.queue| + |accepted| <= 32
              && s.queue + accepted != [])
  {
    hide Frames, Rest, Accepted, Refusals, Decoded, Rejected, ScanFrames;
    ScanMeans(kind, Room(s.queue), s.buffer + data);
  }

  /** After each normal return a nonempty queue has a live task, and its own task if it just started one. */
  lemma NormalReturnDrains(
    kind: seq<Byte> -> Kind, l: Limits, now: real, live: bool, next: TaskId, s: Session, data: seq<Byte>)
    ensures var d := Receive(kind, l, now, live, next, s, data);
      && (d.ending == Some(Drained) && d.session.queue != [] ==> live || d.started)
      && (d.started ==> !live && d.session.drain == Some(next) && d.session.queue != [])
      && (!d.started ==> d.session.drain == s.drain)
  {
  }
}
