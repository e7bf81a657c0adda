/** The two frame formats of `framing.rs` and the packet pump of `backed.rs`, over a byte stream
    that may end or fail anywhere. */
module Framing {
  import opened Bytes
  import opened Packets

  const MAX_PACKET_LENGTH: nat := 128 * 1024 * 1024

  datatype FrameError = Closed | InvalidLength(length: int) | InvalidPacket | Io

  datatype Result<+T> = Ok(value: T) | Err(error: FrameError)

  /** The bytes still to come on a socket before it ends, or fails when it is `faulty`. A write
      fails once it has used up the `room`, if that is limited. */
  class ByteStream {
    const faulty: bool
    var pending: ByteString
    var room: Option<nat>

    constructor (bytes: ByteString, faulty: bool, room: Option<nat>)
      ensures pending == bytes && this.faulty == faulty && this.room == room
    {
      this.faulty, pending, this.room := faulty, bytes, room;
    }

    /** All `n` bytes or none: running into the end consumes what is left. */
    method ReadExact(n: nat) returns (bytes: Option<ByteString>)
      modifies this`pending
      ensures n <= |old(pending)| ==>
                bytes == Some(old(pending)[..n]) && pending == old(pending)[n..]
      ensures n > |old(pending)| ==> bytes == None && pending == []
    {
      if n <= |pending| {
        bytes := Some(pending[..n]);
        pending := pending[n..];
      } else {
        bytes := None;
        pending := [];
      }
    }

    /** A write that fails has put on the wire what there was room for. */
    method WriteAll(bytes: ByteString) returns (ok: bool)
      modifies this
      ensures pending == old(pending) + Fitting(old(room), bytes)
      ensures ok <==> Fitting(old(room), bytes) == bytes
      ensures room == Left(old(room), bytes)
    {
      var fitting := Fitting(room, bytes);
      ok := fitting == bytes;
      room := Left(room, bytes);
      pending := pending + fitting;
    }
  }

  function Fitting(room: Option<nat>, bytes: ByteString): ByteString {
    if room.None? || |bytes| <= room.value then bytes else bytes[..room.value]
  }

  function Left(room: Option<nat>, bytes: ByteString): Option<nat> {
    if room.None? then None else if |bytes| <= room.value then Some(room.value - |bytes|) else Some(0)
  }

  /** A read that finds the end of a faulty stream fails with that error. */
  function Ended<T>(r: Result<T>, faulty: bool): Result<T> {
    if r == Err(Closed) && faulty then Err(Io) else r
  }

  lemma FittingTwice(room: Option<nat>, head: ByteString, body: ByteString)
    ensures Fitting(room, head) != head ==> Fitting(room, head + body) == Fitting(room, head) != head + body
    ensures Fitting(room, head) == head ==>
              && Fitting(room, head + body) == head + Fitting(Left(room, head), body)
              && (Fitting(room, head + body) == head + body <==> Fitting(Left(room, head), body) == body)
  {
    if room.Some? && Fitting(room, head) == head && room.value < |head| + |body| {
      assert (head + body)[..room.value] == head + body[..room.value - |head|];
    }
  }

  /** `u32` big-endian length, then the body; the length is cast to 32 bits. */
  function PacketFrame(body: ByteString): ByteString {
    ToBigEndian(|body| % 0x1_0000_0000, 4) + body
  }

  /** `i64` little-endian length, then the body. */
  function ProtoFrame(body: ByteString): ByteString {
    ToLittleEndian(|body|, 8) + body
  }

  /** The value of eight bytes read as a little-endian `i64`. */
  function SignedLittleEndian(s: ByteString): int
    requires |s| == 8
  {
    var v := LittleEndian(s);
    if v < 0x8000_0000_0000_0000 then v else v - 0x1_0000_0000_0000_0000
  }

  /** What the reader makes of a frame around `body`: it refuses a length above the cap, and a length
      that was cut to 32 bits makes it take too little. */
  function ReadBack(body: ByteString): (r: Option<ByteString>) {
    var len := |body| % 0x1_0000_0000;
    if len > MAX_PACKET_LENGTH then None else Some(body[..len])
  }

  /** What reading one packet frame from `bytes` yields, and what it leaves. */
  function TakePacketFrame(bytes: ByteString, maxLen: nat): (Result<ByteString>, ByteString) {
    if |bytes| < 4 then (Err(Closed), [])
    else
      var len := BigEndian(bytes[..4]);
      if len > maxLen then (Err(InvalidLength(len)), bytes[4..])
      else if |bytes| < 4 + len then (Err(Closed), [])
      else (Ok(bytes[4..][..len]), bytes[4..][len..])
  }

  function TakeProtoFrame(bytes: ByteString, maxLen: nat): (Result<ByteString>, ByteString) {
    if |bytes| < 8 then (Err(Closed), [])
    else
      var len := SignedLittleEndian(bytes[..8]);
      if !(0 <= len <= maxLen) then (Err(InvalidLength(len)), bytes[8..])
      else if |bytes| < 8 + len then (Err(Closed), [])
      else (Ok(bytes[8..][..len]), bytes[8..][len..])
  }

  method ReadProtoFrame(r: ByteStream, maxLen: nat) returns (frame: Result<ByteString>)
    modifies r`pending
    ensures frame == Ended(TakeProtoFrame(old(r.pending), maxLen).0, r.faulty)
    ensures r.pending == TakeProtoFrame(old(r.pending), maxLen).1
  {
    var head := r.ReadExact(8);
    if head == None {
      return Err(if r.faulty then Io else Closed);
    }
    var len := SignedLittleEndian(head.value);
    if !(0 <= len <= maxLen) {
      return Err(InvalidLength(len));
    }
    var body := r.ReadExact(len);
    if body == None {
      return Err(if r.faulty then Io else Closed);
    }
    frame := Ok(body.value);
  }

  /** Succeeds exactly when the whole frame went out; a failed write leaves a proper prefix of it. */
  method WriteProtoFrame(w: ByteStream, body: ByteString) returns (ok: bool)
    modifies w
    ensures w.pending == old(w.pending) + Fitting(old(w.room), ProtoFrame(body))
    ensures ok <==> Fitting(old(w.room), ProtoFrame(body)) == ProtoFrame(body)
  {
    FittingTwice(w.room, ToLittleEndian(|body|, 8), body);
    ok := w.WriteAll(ToLittleEndian(|body|, 8));
    if ok {
      ok := w.WriteAll(body);
    }
  }

  method ReadPacketFrame(r: ByteStream, maxLen: nat) returns (frame: Result<ByteString>)
    modifies r`pending
    ensures frame == Ended(TakePacketFrame(old(r.pending), maxLen).0, r.faulty)
    ensures r.pending == TakePacketFrame(old(r.pending), maxLen).1
  {
    var head := r.ReadExact(4);
    if head == None {
      return Err(if r.faulty then Io else Closed);
    }
    var len := BigEndian(head.value);
    if len > maxLen {
      return Err(InvalidLength(len));
    }
    var body := r.ReadExact(len);
    if body == None {
      return Err(if r.faulty then Io else Closed);
    }
    frame := Ok(body.value);
  }

  method ReadFramedPacket(r: ByteStream, maxLen: nat) returns (packet: Result<Wire>)
    modifies r`pending
    ensures var (frame, rest) := TakePacketFrame(old(r.pending), maxLen);
            && r.pending == rest
            && packet == match Ended(frame, r.faulty)
                         case Err(e) => Err(e)
                         case Ok(body) =>
                           if Parse(body) == None then Err(InvalidPacket)
                           else Ok(Parse(body).value)
  {
    var frame := ReadPacketFrame(r, maxLen);
    match frame
    case Err(e) => packet := Err(e);
    case Ok(body) =>
      var parsed := Parse(body);
      packet := if parsed == None then Err(InvalidPacket) else Ok(parsed.value);
  }

  method WriteFramedPacket(w: ByteStream, packet: Wire) returns (ok: bool)
    modifies w
    ensures w.pending == old(w.pending) + Fitting(old(w.room), PacketFrame(Serialize(packet)))
    ensures ok <==> Fitting(old(w.room), PacketFrame(Serialize(packet))) == PacketFrame(Serialize(packet))
  {
    var bytes := Serialize(packet);
    FittingTwice(w.room, ToBigEndian(|bytes| % 0x1_0000_0000, 4), bytes);
    ok := w.WriteAll(ToBigEndian(|bytes| % 0x1_0000_0000, 4));
    if ok {
      ok := w.WriteAll(bytes);
    }
  }

  /** The bodies a socket's reader hands on before it stops. */
  function Pumped(bytes: ByteString): seq<ByteString>
    decreases |bytes|
  {
    var (frame, rest) := TakePacketFrame(bytes, MAX_PACKET_LENGTH);
    if frame.Err? then [] else [frame.value] + Pumped(rest)
  }

  /** The reader loop: frames go out until the first failure, which ends it. */
  method ReaderTask(r: ByteStream) returns (out: seq<ByteString>)
    modifies r`pending
    ensures out == Pumped(old(r.pending))
  {
    out := [];
    while true
      invariant out + Pumped(r.pending) == Pumped(old(r.pending))
      decreases |r.pending|
    {
      ghost var before := r.pending;
      var frame := ReadPacketFrame(r, MAX_PACKET_LENGTH);
      if frame.Err? {
        return out;
      }
      assert Pumped(before) == [frame.value] + Pumped(r.pending);
      out := out + [frame.value];
    }
  }

  /** What a writer that is handed `bodies` puts on the wire. */
  function OnTheWire(bodies: seq<ByteString>): ByteString {
    if bodies == [] then [] else PacketFrame(bodies[0]) + OnTheWire(bodies[1..])
  }

  ghost predicate WithinCap(bodies: seq<ByteString>) {
    forall b :: b in bodies ==> |b| <= MAX_PACKET_LENGTH
  }

  lemma PrefixReadsBack(len: nat)
    requires len < 0x1_0000_0000
    ensures BigEndian(ToBigEndian(len, 4)) == len
  {
    assert Pow256(4) == 0x1_0000_0000;
    BigEndianRoundTrip(len, 4);
  }

  lemma FrameParts(head: ByteString, body: ByteString, rest: ByteString)
    ensures var bytes := head + body + rest;
            && bytes[..|head|] == head
            && bytes[|head|..] == body + rest
            && (body + rest)[..|body|] == body
            && (body + rest)[|body|..] == rest
  {
  }

  /** A whole frame in front is read back and the rest is left. */
  lemma TakeWholeFrame(body: ByteString, rest: ByteString)
    requires |body| <= MAX_PACKET_LENGTH
    ensures TakePacketFrame(PacketFrame(body) + rest, MAX_PACKET_LENGTH) == (Ok(body), rest)
  {
    PrefixReadsBack(|body|);
    FrameParts(ToBigEndian(|body|, 4), body, rest);
  }

  /** A frame that is cut short yields nothing. */
  lemma TakeCutFrame(body: ByteString, cut: nat)
    requires |body| <= MAX_PACKET_LENGTH && cut < |PacketFrame(body)|
    ensures TakePacketFrame(PacketFrame(body)[..cut], MAX_PACKET_LENGTH).0 == Err(Closed)
  {
    var bytes := PacketFrame(body)[..cut];
    if cut >= 4 {
      PrefixReadsBack(|body|);
      assert bytes[..4] == ToBigEndian(|body|, 4);
    }
  }

  lemma {:induction false} PumpsWhole(bodies: seq<ByteString>, tail: ByteString)
    requires WithinCap(bodies) && Pumped(tail) == []
    ensures Pumped(OnTheWire(bodies) + tail) == bodies
  {
    if bodies == [] {
      assert OnTheWire(bodies) + tail == tail;
    } else {
      var rest := OnTheWire(bodies[1..]) + tail;
      PumpsWhole(bodies[1..], tail);
      assert OnTheWire(bodies) + tail == PacketFrame(bodies[0]) + rest;
      TakeWholeFrame(bodies[0], rest);
    }
  }

  lemma {:induction false} OnTheWireConcat(a: seq<ByteString>, b: seq<ByteString>)
    ensures OnTheWire(a + b) == OnTheWire(a) + OnTheWire(b)
  {
    hide PacketFrame;
    if a == [] {
      assert a + b == b;
    } else {
      OnTheWireConcat(a[1..], b);
      assert (a + b)[1..] == a[1..] + b;
      var first, mid, last := PacketFrame(a[0]), OnTheWire(a[1..]), OnTheWire(b);
      assert first + (mid + last) == (first + mid) + last;
    }
  }

  /** Every length: the frame is refused, or some of the body is taken and what is left of it is read
      as if it were the next frame. */
  lemma ReaderMakesOf(body: ByteString, rest: ByteString)
    ensures TakePacketFrame(PacketFrame(body) + rest, MAX_PACKET_LENGTH) ==
            match ReadBack(body)
            case None => (Err(InvalidLength(|body| % 0x1_0000_0000)), body + rest)
            case Some(taken) => (Ok(taken), body[|taken|..] + rest)
  {
    var len := |body| % 0x1_0000_0000;
    var prefix := ToBigEndian(len, 4);
    var bytes := PacketFrame(body) + rest;
    PrefixReadsBack(len);
    FrameParts(prefix, body, rest);
    assert bytes[..4] == prefix && bytes[4..] == body + rest;
    hide BigEndian, ToBigEndian;
    if len <= MAX_PACKET_LENGTH {
      assert (body + rest)[..len] == body[..len] && (body + rest)[len..] == body[len..] + rest;
    }
  }

  /** A packet arrives as itself exactly when it is within the cap; a longer one stops the reader, or,
      from 2^32 bytes on, may arrive as a fragment of itself. */
  lemma ArrivesAsItself(body: ByteString)
    ensures ReadBack(body) == Some(body) <==> |body| <= MAX_PACKET_LENGTH
    ensures |body| < 0x1_0000_0000 ==> ReadBack(body) == None || ReadBack(body) == Some(body)
    ensures ReadBack(body).Some? && ReadBack(body) != Some(body) <==>
              |body| >= 0x1_0000_0000 && |body| % 0x1_0000_0000 <= MAX_PACKET_LENGTH
  {
    assert body[..|body|] == body;
  }

  /** Cut the stream anywhere: the reader yields exactly the frames `before` that lie wholly before
      the cut, and then stops, however much of the next frame came through. */
  lemma CutAnywhere(before: seq<ByteString>, next: ByteString, after: seq<ByteString>, cut: nat)
    requires WithinCap(before) && |next| <= MAX_PACKET_LENGTH
    requires |OnTheWire(before)| <= cut < |OnTheWire(before + [next])|
    ensures cut <= |OnTheWire(before + [next] + after)|
    ensures Pumped(OnTheWire(before + [next] + after)[..cut]) == before
  {
    OnTheWireConcat(before + [next], after);
    OnTheWireConcat(before, [next]);
    assert OnTheWire([next]) == PacketFrame(next) + [];
    var tail := PacketFrame(next)[..cut - |OnTheWire(before)|];
    TakeCutFrame(next, |tail|);
    PumpsWhole(before, tail);
    assert OnTheWire(before + [next] + after)[..cut] == OnTheWire(before) + tail;
  }

  /** With nothing cut off, every frame arrives. */
  lemma NothingCut(bodies: seq<ByteString>)
    requires WithinCap(bodies)
    ensures Pumped(OnTheWire(bodies)) == bodies
  {
    PumpsWhole(bodies, []);
    assert OnTheWire(bodies) + [] == OnTheWire(bodies);
  }

  lemma SignedPrefixReadsBack(len: nat)
    requires len < 0x8000_0000_0000_0000
    ensures SignedLittleEndian(ToLittleEndian(len, 8)) == len
  {
    assert Pow256(8) == 0x1_0000_0000_0000_0000;
    LittleEndianRoundTrip(len, 8);
  }

  /** An `i64` frame is read back, whatever follows it. */
  lemma ProtoFrameRoundTrip(body: ByteString, rest: ByteString, maxLen: nat)
    requires |body| <= maxLen && |body| < 0x8000_0000_0000_0000
    ensures TakeProtoFrame(ProtoFrame(body) + rest, maxLen) == (Ok(body), rest)
  {
    SignedPrefixReadsBack(|body|);
    FrameParts(ToLittleEndian(|body|, 8), body, rest);
  }

  /** A length above the caller's limit is refused before any of the body is read. */
  lemma OversizeProtoFrameRefused(body: ByteString, rest: ByteString, maxLen: nat)
    requires maxLen < |body| < 0x8000_0000_0000_0000
    ensures TakeProtoFrame(ProtoFrame(body) + rest, maxLen) ==
            (Err(InvalidLength(|body|)), body + rest)
  {
    SignedPrefixReadsBack(|body|);
    FrameParts(ToLittleEndian(|body|, 8), body, rest);
  }
}
