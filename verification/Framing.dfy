/** The MBAP stream: where frames end, what each carries, and that a stream splits the same however it is cut. */
module Framing {
  import opened Wrappers

  type Byte = b: int | 0 <= b < 256

  /** A decoded request: the header fields a reply must echo, and the protocol data unit. */
  datatype Pdu = Pdu(transaction: int, unit: Byte, body: seq<Byte>)

  /** What the library's decoder makes of a complete frame. */
  datatype Kind = Request | Silent | IoFailure | OtherFailure

  const HEADER_BEFORE_LENGTH := 6
  const MINIMUM_FRAME := 8
  const UNIT_OFFSET := 6
  const FUNCTION_CODE_OFFSET := 7
  const WRITE_SINGLE_COIL := 5
  const COIL_ON := 0xFF00
  const COIL_OFF := 0

  function Word(bytes: seq<Byte>, i: nat): (w: nat)
    requires i + 2 <= |bytes|
    ensures w < 0x1_0000
  {
    var high: int := bytes[i];
    var low: int := bytes[i + 1];
    256 * high + low
  }

  /** Bytes of the first complete frame, or 0 while it is incomplete. */
  function FrameLength(bytes: seq<Byte>): (n: nat)
    ensures n <= |bytes|
  {
    if |bytes| < MINIMUM_FRAME || |bytes| < HEADER_BEFORE_LENGTH + Word(bytes, 4) then 0
    else HEADER_BEFORE_LENGTH + Word(bytes, 4)
  }

  /** A frame too short for a function code carries no request. */
  function KindOf(kind: seq<Byte> -> Kind, frame: seq<Byte>): Kind {
    if |frame| < MINIMUM_FRAME then Silent else kind(frame)
  }

  function PduOf(frame: seq<Byte>): Pdu
    requires |frame| >= MINIMUM_FRAME
  {
    Pdu(Word(frame, 0), frame[UNIT_OFFSET], frame[FUNCTION_CODE_OFFSET..])
  }

  /** The raw value a single-coil write asks for, if the frame is one. */
  function RequestedCoilValue(frame: seq<Byte>): Option<nat> {
    if |frame| < 12 || frame[FUNCTION_CODE_OFFSET] != WRITE_SINGLE_COIL then None
    else Some(Word(frame, 10))
  }

  predicate RefusedCoil(frame: seq<Byte>) {
    var value := RequestedCoilValue(frame);
    value.Some? && value.value != COIL_ON && value.value != COIL_OFF
  }

  // ----- The stream as a whole -----

  /** The complete frames of a byte stream. */
  function Frames(bytes: seq<Byte>): seq<seq<Byte>>
    decreases |bytes|
  {
    var n := FrameLength(bytes);
    if n == 0 then [] else [bytes[..n]] + Frames(bytes[n..])
  }

  /** The incomplete tail after them. */
  function Rest(bytes: seq<Byte>): (rest: seq<Byte>)
    ensures |rest| <= |bytes|
    decreases |bytes|
  {
    var n := FrameLength(bytes);
    if n == 0 then bytes else Rest(bytes[n..])
  }

  function Flatten(frames: seq<seq<Byte>>): seq<Byte> {
    if frames == [] then [] else frames[0] + Flatten(frames[1..])
  }

  /** Exactly as many bytes as its length field announces. */
  predicate WellFormedAdu(adu: seq<Byte>) {
    |adu| >= 8 && |adu| == 6 + 256 * (adu[4] as int) + adu[5] as int
  }

  /** Too short for a header and a function code, or for what its length field announces. */
  predicate Unfinished(bytes: seq<Byte>) {
    |bytes| < 8 || |bytes| < 6 + 256 * (bytes[4] as int) + bytes[5] as int
  }

  lemma LengthIs(bytes: seq<Byte>)
    ensures FrameLength(bytes) == if Unfinished(bytes) then 0 else 6 + 256 * (bytes[4] as int) + bytes[5] as int
  {
  }

  lemma LengthStable(bytes: seq<Byte>, more: seq<Byte>)
    requires FrameLength(bytes) != 0
    ensures FrameLength(bytes + more) == FrameLength(bytes)
  {
    assert Word(bytes + more, 4) == Word(bytes, 4);
  }

  /** No byte is lost or read twice: the frames and the tail are the stream. */
  lemma {:induction false} FramesPartition(bytes: seq<Byte>)
    ensures Flatten(Frames(bytes)) + Rest(bytes) == bytes
    ensures Frames(Rest(bytes)) == [] && Rest(Rest(bytes)) == Rest(bytes)
    decreases |bytes|
  {
    hide FrameLength, Frames, Rest;
    FirstFrame(bytes);
    var n := FrameLength(bytes);
    if n != 0 {
      var head, later := bytes[..n], bytes[n..];
      FramesPartition(later);
      FlattenFirst(head, Frames(later));
      Associative(head, Flatten(Frames(later)), Rest(later));
    }
  }

  lemma RestIsTail(bytes: seq<Byte>)
    ensures bytes[|bytes| - |Rest(bytes)|..] == Rest(bytes)
  {
    hide Frames, Rest, Flatten;
    FramesPartition(bytes);
    var read, rest := Flatten(Frames(bytes)), Rest(bytes);
    assert (read + rest)[|read|..] == rest;
  }

  /** Cutting a stream anywhere and carrying the tail over yields the same frames and the same tail. */
  lemma {:induction false} FramesConcat(first: seq<Byte>, second: seq<Byte>)
    ensures Frames(first + second) == Frames(first) + Frames(Rest(first) + second)
    ensures Rest(first + second) == Rest(Rest(first) + second)
    decreases |first|
  {
    hide Frames, Rest, FrameLength;
    FirstFrame(first);
    var n := FrameLength(first);
    if n != 0 {
      var whole, head, later := first + second, first[..n], first[n..];
      LengthStable(first, second);
      FramesConcat(later, second);
      assert whole[..n] == head && whole[n..] == later + second;
      FirstFrame(whole);
      Associative([head], Frames(later), Frames(Rest(first) + second));
    }
  }

  lemma FirstFrame(bytes: seq<Byte>)
    ensures FrameLength(bytes) == 0 ==> Frames(bytes) == [] && Rest(bytes) == bytes
    ensures FrameLength(bytes) != 0 ==>
      var n := FrameLength(bytes);
      && Frames(bytes) == [bytes[..n]] + Frames(bytes[n..])
      && Rest(bytes) == Rest(bytes[n..])
      && bytes == bytes[..n] + bytes[n..]
  {
    hide FrameLength;
    SplitAt(bytes, FrameLength(bytes));
  }

  lemma SplitAt<T>(s: seq<T>, n: nat)
    requires n <= |s|
    ensures s == s[..n] + s[n..]
  {
  }

  lemma FlattenFirst(head: seq<Byte>, later: seq<seq<Byte>>)
    ensures Flatten([head] + later) == head + Flatten(later)
  {
    assert ([head] + later)[1..] == later;
  }

  lemma Associative<T>(a: seq<T>, b: seq<T>, c: seq<T>)
    ensures (a + b) + c == a + (b + c)
  {
  }

  lemma AduFirst(adu: seq<Byte>, later: seq<Byte>)
    requires WellFormedAdu(adu)
    ensures var n := FrameLength(adu + later);
      n == |adu| != 0 && (adu + later)[..n] == adu && (adu + later)[n..] == later
  {
    assert FrameLength(adu) == |adu|;
    LengthStable(adu, later);
  }

  /** A stream of well-formed ADUs followed by an incomplete one decodes to exactly those ADUs. */
  lemma {:induction false} FramesOfStream(adus: seq<seq<Byte>>, tail: seq<Byte>)
    requires forall adu :: adu in adus ==> WellFormedAdu(adu)
    requires Unfinished(tail)
    ensures Frames(Flatten(adus) + tail) == adus && Rest(Flatten(adus) + tail) == tail
  {
    LengthIs(tail);
    hide Frames, Rest, FrameLength, WellFormedAdu;
    var stream := Flatten(adus) + tail;
    FirstFrame(stream);
    if adus == [] {
      assert stream == tail;
    } else {
      var later := Flatten(adus[1..]) + tail;
      FramesOfStream(adus[1..], tail);
      Associative(adus[0], Flatten(adus[1..]), tail);
      AduFirst(adus[0], later);
      assert adus == [adus[0]] + adus[1..];
    }
  }
}
