/** One end of the resumable connection, described by its history: what its writer has accepted,
    what its reader has delivered, and which part of the former is still backed up. This is the
    specification that `BackedActor` implements with counters and a newest-first queue, and the
    state that the two-party protocol is built from. */
module Endpoints {
  import opened Bytes
  import opened Crypto
  import opened Packets

  const MAX_BACKUP_BYTES: int := 64 * 1024 * 1024
  const DISCONNECT_BUFFER_BYTES: int := 64 * 1024 * 1024
  const KEEP_ALIVE: Byte := 0
  /** What a packet costs beyond its payload: flag, header and MAC. */
  const OVERHEAD: nat := HEADER_SIZE + MAC_BYTES

  /** Cap on the encoded catch-up that a peer will read. */
  const DEFAULT_MAX_PROTO_LENGTH: int := 128 * 1024 * 1024

  /** A packet as the two owners see it. */
  datatype Msg = Msg(header: Byte, payload: ByteString)

  datatype Endpoint = Endpoint(
    outMsb: Byte,                // nonce direction of the writer
    inMsb: Byte,                 // nonce direction of the reader
    accepted: seq<Msg>,          // everything ever accepted for sending, in order
    floor: nat,                  // the oldest of them that is still backed up
    delivered: seq<Msg>,         // everything ever delivered to the owner, in order
    inbox: seq<ByteString>,      // received packets, still encrypted
    live: Option<nat>,           // the socket in use
    outage: Option<nat>,         // while down: the first packet of the outage
    downPending: bool,           // a socket went down and the owner was not told yet
    waiting: bool,               // a keepalive ping is unanswered
    lastActivity: int,
    shuttingDown: bool,
    mismatch: bool)              // ended by `CryptoMismatch`

  function NewEndpoint(outMsb: Byte, inMsb: Byte, socket: nat, now: int): Endpoint {
    Endpoint(outMsb, inMsb, [], 0, [], [], Some(socket), None, false, false, now, false, false)
  }

  // ---- the log of ciphertexts ----

  /** The bytes of the packet at position `i` of a writer's log. */
  function SealedAt(box: SecretBox, msb: Byte, i: nat, m: Msg): ByteString {
    Serialize(Wire(true, m.header, box.seal(NonceAfter(msb, i + 1), m.payload)))
  }

  /** Everything a writer ever produced: position `i` is sealed with the nonce of operation i+1. */
  function Log(box: SecretBox, msb: Byte, ms: seq<Msg>): (log: seq<ByteString>)
    ensures |log| == |ms|
    ensures forall i :: 0 <= i < |ms| ==> log[i] == SealedAt(box, msb, i, ms[i])
  {
    seq(|ms|, i requires 0 <= i < |ms| => SealedAt(box, msb, i, ms[i]))
  }

  lemma LogAppend(box: SecretBox, msb: Byte, ms: seq<Msg>, m: Msg)
    ensures Log(box, msb, ms + [m]) == Log(box, msb, ms) + [SealedAt(box, msb, |ms|, m)]
  {
  }

  /** Serialized size of a packet. */
  function Charge(m: Msg): nat {
    |m.payload| + OVERHEAD
  }

  function Total(ms: seq<Msg>): nat {
    if ms == [] then 0 else Charge(ms[0]) + Total(ms[1..])
  }

  lemma {:induction false} TotalAppend(ms: seq<Msg>, m: Msg)
    ensures Total(ms + [m]) == Total(ms) + Charge(m)
  {
    if ms == [] {
      assert ms + [m] == [m] && [m][1..] == [];
    } else {
      TotalAppend(ms[1..], m);
      assert (ms + [m])[1..] == ms[1..] + [m];
    }
  }

  lemma TotalFrom(ms: seq<Msg>, i: nat)
    requires i < |ms|
    ensures Total(ms[i..]) == Charge(ms[i]) + Total(ms[i + 1..])
  {
    assert ms[i..][1..] == ms[i + 1..];
  }

  lemma {:induction false} TotalAntitone(ms: seq<Msg>, i: nat, j: nat)
    requires i < j <= |ms|
    ensures Total(ms[i..]) >= Total(ms[j..]) + OVERHEAD
    decreases j - i
  {
    TotalFrom(ms, i);
    if i + 1 < j {
      TotalAntitone(ms, i + 1, j);
    }
  }

  // ---- operations ----

  /** The oldest position to keep so that what is kept fits: entries leave oldest first. */
  function Trimmed(ms: seq<Msg>, floor: nat): (f: nat)
    requires floor <= |ms|
    ensures floor <= f <= |ms|
    decreases |ms| - floor
  {
    if Total(ms[floor..]) <= MAX_BACKUP_BYTES then floor
    else
      assert floor < |ms|;
      Trimmed(ms, floor + 1)
  }

  lemma {:induction false} TrimmedFits(ms: seq<Msg>, floor: nat)
    requires floor <= |ms|
    ensures var f := Trimmed(ms, floor);
            && Total(ms[f..]) <= MAX_BACKUP_BYTES
            && (forall i :: floor <= i < f ==> Total(ms[i..]) > MAX_BACKUP_BYTES)
    decreases |ms| - floor
  {
    if Total(ms[floor..]) > MAX_BACKUP_BYTES {
      TrimmedFits(ms, floor + 1);
    }
  }

  datatype WriteResult = Written | Skipped | Shutdown

  /** Bytes accepted since the outage began. */
  function Buffered(e: Endpoint): nat
    requires e.outage.Some? && e.outage.value <= |e.accepted|
  {
    Total(e.accepted[e.outage.value..])
  }

  function CloseSocket(e: Endpoint): Endpoint {
    e.(live := None,
       downPending := e.downPending || e.live.Some?,
       waiting := false,
       outage := if e.outage.Some? then e.outage else Some(|e.accepted|))
  }

  predicate WriteRefused(e: Endpoint, m: Msg)
    requires WellFormed(e)
  {
    e.shuttingDown || (e.outage.Some? && Buffered(e) + |m.payload| > DISCONNECT_BUFFER_BYTES)
  }

  /** `refused` says whether the socket's queue turned the frame away. */
  function Sent(e: Endpoint, m: Msg, refused: bool, now: int): Endpoint
    requires e.floor <= |e.accepted|
  {
    var e' := e.(accepted := e.accepted + [m],
                 floor := Trimmed(e.accepted + [m], e.floor),
                 lastActivity := now);
    if refused then CloseSocket(e'.(outage := Some(|e.accepted|))) else e'
  }

  function Write(e: Endpoint, m: Msg, refused: bool, now: int): (r: (Endpoint, WriteResult))
    requires WellFormed(e)
  {
    if WriteRefused(e, m) then (e, if e.shuttingDown then Shutdown else Skipped)
    else if e.live.None? then (e.(accepted := e.accepted + [m]), Written)
    else (Sent(e, m, refused, now), Written)
  }

  datatype Delivery = Delivered(m: Msg) | Mismatch

  /** What the reader makes of the next packet, given how many it has opened before. */
  function Opened(box: SecretBox, msb: Byte, uses: nat, bytes: ByteString): Delivery {
    match Parse(bytes)
    case None => Mismatch
    case Some(w) =>
      if !w.encrypted || |w.payload| < MAC_BYTES then Mismatch
      else match box.open(NonceAfter(msb, uses + 1), w.payload)
        case None => Mismatch
        case Some(plain) => Delivered(Msg(w.header, plain))
  }

  function Deliver(box: SecretBox, e: Endpoint, now: int): (r: (Endpoint, Delivery))
    requires e.inbox != []
  {
    var rest := e.(inbox := e.inbox[1..]);
    match Opened(box, e.inMsb, |e.delivered|, e.inbox[0])
    case Mismatch => (rest.(shuttingDown := true, mismatch := true), Mismatch)
    case Delivered(m) =>
      (rest.(delivered := e.delivered + [m],
             lastActivity := now,
             waiting := e.waiting && m.header != KEEP_ALIVE),
       Delivered(m))
  }

  /** The sequence number sent to the peer. */
  function SequenceHeader(e: Endpoint): Int32 {
    Truncate32(|e.delivered|)
  }

  /** The catch-up for a peer that reports `n`: the log from `n` on, or a refusal when the peer
      claims packets that were never sent or lacks some that are no longer backed up. */
  function Catchup(box: SecretBox, e: Endpoint, n: Int32): Option<seq<ByteString>> {
    if e.floor <= n <= |e.accepted| then Some(Log(box, e.outMsb, e.accepted)[n..]) else None
  }

  /** How many bytes a length takes, seven bits to a byte. */
  function VarintLength(n: nat): nat {
    if n < 128 then 1 else 1 + VarintLength(n / 128)
  }

  /** The encoded size of a catch-up: each entry behind a tag and its length. */
  function EncodedLength(entries: seq<ByteString>): nat {
    if entries == [] then 0
    else 1 + VarintLength(|entries[0]|) + |entries[0]| + EncodedLength(entries[1..])
  }

  predicate CatchupFits(entries: seq<ByteString>) {
    EncodedLength(entries) <= DEFAULT_MAX_PROTO_LENGTH
  }

  /** A finished exchange: catch-up joins the inbox and the new socket takes over. */
  function Revive(e: Endpoint, entries: seq<ByteString>, socket: nat, now: int): Endpoint {
    e.(inbox := e.inbox + entries, outage := None, lastActivity := now, live := Some(socket))
  }

  function Tick(e: Endpoint, period: Option<int>, refused: bool, now: int): Endpoint
    requires WellFormed(e)
  {
    if period.None? || e.live.None? || e.shuttingDown || now - e.lastActivity < period.value then e
    else if e.waiting then CloseSocket(e)
    else Write(e.(waiting := true, lastActivity := now), Msg(KEEP_ALIVE, []), refused, now).0
  }

  // ---- what every operation keeps ----

  /** A socket is live exactly when no outage is open, and what is backed up is a suffix that only
      ever lost entries because the backup was full. */
  ghost predicate WellFormed(e: Endpoint) {
    && e.floor <= |e.accepted|
    && (e.live.Some? <==> e.outage.None?)
    && (e.outage.Some? ==> e.outage.value <= |e.accepted|)
    && (e.floor > 0 ==> Total(e.accepted[e.floor - 1..]) > MAX_BACKUP_BYTES)
    && (e.outage.Some? ==> LedgerBounded(e) && OutageKept(e))
    && (e.waiting ==> e.live.Some?)
    && (e.mismatch ==> e.shuttingDown)
  }

  /** The offline budget: it is overrun by at most one packet's overhead, or by the packet that
      killed the socket. */
  ghost predicate LedgerBounded(e: Endpoint)
    requires e.outage.Some? && e.outage.value <= |e.accepted|
  {
    var o := e.outage.value;
    || Buffered(e) <= DISCONNECT_BUFFER_BYTES + OVERHEAD
    || (o < |e.accepted| && Buffered(e) == Charge(e.accepted[o]))
  }

  /** Everything accepted since the outage began is backed up, except that a packet that killed
      its socket and does not fit the backup at all is lost. */
  ghost predicate OutageKept(e: Endpoint)
    requires e.outage.Some? && e.outage.value <= |e.accepted|
  {
    var o := e.outage.value;
    || e.floor <= o
    || (o < |e.accepted| && e.floor == o + 1 && Charge(e.accepted[o]) > MAX_BACKUP_BYTES)
  }

  lemma SuffixGrows(ms: seq<Msg>, m: Msg, i: nat)
    requires i <= |ms|
    ensures Total((ms + [m])[i..]) == Total(ms[i..]) + Charge(m)
  {
    TotalAppend(ms[i..], m);
    assert (ms + [m])[i..] == ms[i..] + [m];
  }

  lemma TrimKeepsReason(ms: seq<Msg>, m: Msg, floor: nat)
    requires floor <= |ms|
    requires floor > 0 ==> Total(ms[floor - 1..]) > MAX_BACKUP_BYTES
    ensures var f := Trimmed(ms + [m], floor);
            f > 0 ==> Total((ms + [m])[f - 1..]) > MAX_BACKUP_BYTES
  {
    TrimmedFits(ms + [m], floor);
    if floor > 0 {
      SuffixGrows(ms, m, floor - 1);
    }
  }

  /** Buffering while the socket is down. */
  lemma OfflineWriteKeeps(e: Endpoint, m: Msg)
    requires WellFormed(e) && !WriteRefused(e, m) && e.live.None?
    ensures WellFormed(e.(accepted := e.accepted + [m]))
  {
    var o := e.outage.value;
    SuffixGrows(e.accepted, m, o);
    if e.floor > 0 {
      SuffixGrows(e.accepted, m, e.floor - 1);
    }
  }

  /** A killed socket's outage begins with the packet `m` at its end. */
  lemma KilledKeeps(e: Endpoint, m: Msg)
    requires |e.accepted| > 0 && e.accepted[|e.accepted| - 1] == m && e.outage == Some(|e.accepted| - 1)
    requires e.live.None? && !e.waiting && (e.mismatch ==> e.shuttingDown) && e.floor <= |e.accepted|
    requires e.floor > 0 ==> Total(e.accepted[e.floor - 1..]) > MAX_BACKUP_BYTES
    ensures WellFormed(e)
  {
    var o := |e.accepted| - 1;
    assert e.accepted[o..] == [m] && [m][1..] == [];
    assert Total([m]) == Charge(m);
  }

  /** Writing to a live socket, whether or not the write kills it. */
  lemma LiveWriteKeeps(e: Endpoint, m: Msg, refused: bool, now: int)
    requires WellFormed(e) && !WriteRefused(e, m) && e.live.Some?
    ensures WellFormed(Write(e, m, refused, now).0)
  {
    var e' := Write(e, m, refused, now).0;
    TrimKeepsReason(e.accepted, m, e.floor);
    hide Trimmed, Total, Charge;
    assert e'.accepted == e.accepted + [m];
    if refused {
      KilledKeeps(e', m);
    }
  }

  lemma WriteKeeps(e: Endpoint, m: Msg, refused: bool, now: int)
    requires WellFormed(e)
    ensures WellFormed(Write(e, m, refused, now).0)
  {
    if !WriteRefused(e, m) {
      if e.live.None? {
        OfflineWriteKeeps(e, m);
      } else {
        LiveWriteKeeps(e, m, refused, now);
      }
    }
  }

  lemma CloseKeeps(e: Endpoint)
    requires WellFormed(e)
    ensures WellFormed(CloseSocket(e))
  {
    assert e.accepted[|e.accepted|..] == [];
  }

  lemma DeliverKeeps(box: SecretBox, e: Endpoint, now: int)
    requires WellFormed(e) && e.inbox != []
    ensures WellFormed(Deliver(box, e, now).0)
    ensures !e.shuttingDown ==> !e.mismatch
  {
  }

  lemma PingKeeps(e: Endpoint, now: int)
    requires WellFormed(e) && e.live.Some?
    ensures WellFormed(e.(waiting := true, lastActivity := now))
  {
  }

  lemma TickKeeps(e: Endpoint, period: Option<int>, refused: bool, now: int)
    requires WellFormed(e)
    ensures WellFormed(Tick(e, period, refused, now))
  {
    CloseKeeps(e);
    if e.live.Some? {
      WriteKeeps(e.(waiting := true, lastActivity := now), Msg(KEEP_ALIVE, []), refused, now);
    }
  }

  // ---- retention ----

  /** After a write to a live socket the backup is exactly the longest suffix of the log that
      fits, whatever was trimmed before. */
  lemma LiveWriteKeepsLongestSuffix(e: Endpoint, m: Msg, refused: bool, now: int)
    requires WellFormed(e) && !WriteRefused(e, m) && e.live.Some?
    ensures var e' := Write(e, m, refused, now).0;
            forall i :: 0 <= i <= |e'.accepted| ==>
              (e'.floor <= i <==> Total(e'.accepted[i..]) <= MAX_BACKUP_BYTES)
  {
    var e' := Write(e, m, refused, now).0;
    LiveWriteKeeps(e, m, refused, now);
    TrimmedFits(e'.accepted, e.floor);
    forall i | 0 <= i <= |e'.accepted|
      ensures e'.floor <= i <==> Total(e'.accepted[i..]) <= MAX_BACKUP_BYTES
    {
      if e'.floor < i {
        TotalAntitone(e'.accepted, e'.floor, i);
      } else if i < e'.floor {
        SuffixKept(e', i);
      }
    }
  }

  /** No entry of a suffix that fits the backup was ever dropped. */
  lemma SuffixKept(e: Endpoint, i: nat)
    requires WellFormed(e) && i <= |e.accepted|
    ensures Total(e.accepted[i..]) <= MAX_BACKUP_BYTES ==> e.floor <= i
  {
    if i < e.floor && i < e.floor - 1 {
      TotalAntitone(e.accepted, i, e.floor - 1);
    }
  }

  /** A packet whose write kills the socket stays backed up exactly when it fits the backup on its
      own. The comment in the source promises it always does; a packet above the limit is trimmed
      away with everything else, so no later exchange can supply it. */
  lemma KillingPacketKept(e: Endpoint, m: Msg, now: int)
    requires WellFormed(e) && !WriteRefused(e, m) && e.live.Some?
    ensures var e' := Write(e, m, true, now).0;
            e'.floor <= |e.accepted| <==> Charge(m) <= MAX_BACKUP_BYTES
  {
    var e' := Write(e, m, true, now).0;
    SuffixGrows(e.accepted, m, |e.accepted|);
    assert e.accepted[|e.accepted|..] == [];
    LiveWriteKeepsLongestSuffix(e, m, true, now);
    assert Total(e'.accepted[|e.accepted|..]) == Charge(m);
  }

  /** The failing family is not empty. */
  lemma KillingPacketLost(e: Endpoint, now: int) returns (m: Msg)
    requires e == NewEndpoint(0, 1, 0, now)
    ensures WellFormed(e) && Write(e, m, true, now).1 == Written
    ensures var e' := Write(e, m, true, now).0;
            && e'.floor == |e'.accepted| == 1
            && (forall box: SecretBox :: Catchup(box, e', 0).None?)
  {
    m := Msg(1, seq(MAX_BACKUP_BYTES, _ => 0));
    KillingPacketKept(e, m, now);
  }

  // ---- the sequence number on the wire ----

  /** The 32-bit sequence number of an honest peer that has `r` of our packets selects the wrong
      span exactly when the truncated number differs from `r` and is still backed up, and that
      takes a backup of at least 2^32 entries. Otherwise the span is the true one or the exchange
      is refused. */
  lemma TruncationExact(box: SecretBox, e: Endpoint, r: nat)
    requires WellFormed(e) && r <= |e.accepted|
    ensures var n, log := Truncate32(r), Log(box, e.outMsb, e.accepted);
            && ((Catchup(box, e, n).Some? && Catchup(box, e, n) != Some(log[r..])) <==>
                (n != r && e.floor <= n))
            && (n != r && e.floor <= n ==> |e.accepted| - e.floor >= 0x1_0000_0000)
            && (Catchup(box, e, n) == Some(log[r..]) <==> e.floor <= r < 0x8000_0000)
  {
    var n, log := Truncate32(r), Log(box, e.outMsb, e.accepted);
    if 0 <= n <= |log| && n != r {
      assert |log[n..]| != |log[r..]|;
    }
  }

  /** A peer that lacks only what fits the backup, or only what was accepted since the socket went
      down, is given exactly what it lacks. */
  lemma HonestPeerServed(box: SecretBox, e: Endpoint, r: nat)
    requires WellFormed(e) && r <= |e.accepted| && r < 0x8000_0000
    requires || Total(e.accepted[r..]) <= MAX_BACKUP_BYTES
             || (&& e.outage.Some? && e.outage.value <= r
                 && (r == e.outage.value < |e.accepted| ==>
                       Charge(e.accepted[r]) <= MAX_BACKUP_BYTES))
    ensures Catchup(box, e, Truncate32(r)) == Some(Log(box, e.outMsb, e.accepted)[r..])
  {
    SuffixKept(e, r);
    assert e.floor <= r by { hide Log, Total; }
    assert Truncate32(r) == r;
    hide WellFormed, Log, Total, Truncate32;
  }

  // ---- the size of a catch-up ----

  lemma {:induction false} VarintSmall(n: nat)
    ensures 64 * VarintLength(n) <= 64 + n
  {
    if n >= 128 {
      VarintSmall(n / 128);
    }
  }

  /** Tag and length take at most a third of what a packet takes. */
  lemma EntryOverhead(n: nat)
    requires n >= OVERHEAD
    ensures 3 * (1 + VarintLength(n)) <= n
  {
    VarintSmall(n);
  }

  /** The encoded catch-up is larger than its packets, but by no more than a third. */
  lemma {:induction false} EncodedBounds(box: SecretBox, msb: Byte, ms: seq<Msg>, i: nat)
    requires Correct(box) && i <= |ms|
    ensures var log := Log(box, msb, ms);
            Total(ms[i..]) <= EncodedLength(log[i..]) && 3 * EncodedLength(log[i..]) <= 4 * Total(ms[i..])
    decreases |ms| - i
  {
    var log := Log(box, msb, ms);
    if i == |ms| {
      assert ms[i..] == [] && log[i..] == [];
    } else {
      EncodedBounds(box, msb, ms, i + 1);
      SealedSize(box, msb, i, ms[i]);
      EntryOverhead(|log[i]|);
      TotalFrom(ms, i);
      assert log[i..][1..] == log[i + 1..] && log[i..][0] == log[i];
      hide Log, SealedAt, Charge, VarintLength, Total;
    }
  }

  /** A peer that lacks only what fits the backup, or only what was accepted since the socket went
      down, can read the catch-up it is given. */
  lemma HonestCatchupFits(box: SecretBox, e: Endpoint, r: nat)
    requires Correct(box) && WellFormed(e) && r <= |e.accepted|
    requires || Total(e.accepted[r..]) <= MAX_BACKUP_BYTES
             || (&& e.outage.Some? && e.outage.value <= r
                 && (r == e.outage.value < |e.accepted| ==>
                       Charge(e.accepted[r]) <= MAX_BACKUP_BYTES))
    ensures CatchupFits(Log(box, e.outMsb, e.accepted)[r..])
  {
    EncodedBounds(box, e.outMsb, e.accepted, r);
    if Total(e.accepted[r..]) > MAX_BACKUP_BYTES {
      var o := e.outage.value;
      if o < r {
        TotalAntitone(e.accepted, o, r);
        TotalFrom(e.accepted, o);
        if o + 1 < r {
          TotalAntitone(e.accepted, o + 1, r);
        }
      }
    }
  }

  // ---- opening what was sealed ----

  /** The reader opens position `i` of the peer's log to the message that was sealed there. */
  lemma OpensInOrder(box: SecretBox, msb: Byte, ms: seq<Msg>, i: nat)
    requires Correct(box) && i < |ms|
    ensures Opened(box, msb, i, Log(box, msb, ms)[i]) == Delivered(ms[i])
  {
    var sealed := box.seal(NonceAfter(msb, i + 1), ms[i].payload);
    ParseUndoesSerialize(Wire(true, ms[i].header, sealed));
    assert |sealed| == |ms[i].payload| + MAC_BYTES;
  }

  /** Every packet of the log has the size the ledger and the backup charge for it. */
  lemma SealedSize(box: SecretBox, msb: Byte, i: nat, m: Msg)
    requires Correct(box)
    ensures |SealedAt(box, msb, i, m)| == Charge(m)
  {
    assert |box.seal(NonceAfter(msb, i + 1), m.payload)| == |m.payload| + MAC_BYTES;
  }
}
