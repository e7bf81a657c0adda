/** `BackedActor` of `backed.rs`: counters, a newest-first backup queue and two nonce handlers,
    proved against the history-based `Endpoints.Endpoint`. Socket and channel outcomes, the clock
    and the peer's side of the recover exchange are inputs. */
module Backed {
  import opened Bytes
  import opened Crypto
  import opened Packets
  import opened Framing
  import opened Endpoints

  datatype Config = Config(readerMsb: Byte, writerMsb: Byte, keepalive: Option<int>)

  /** What the network gives one recover exchange, step by step. A missing sequence number in a
      well-formed header is `Some(None)`. */
  datatype ExchangeIo = ExchangeIo(
    headerWritten: bool,
    theirHeader: Option<Option<Int32>>,
    catchupWritten: bool,
    theirCatchup: Option<seq<ByteString>>)

  datatype Cmd =
    | CmdWrite(m: Msg, refused: bool, now: int)
    | CmdKillSocket
    | CmdRecover(socket: nat, io: ExchangeIo, now: int)
    | CmdShutdown

  function PeerSequence(io: ExchangeIo): Int32
    requires io.theirHeader.Some?
  {
    if io.theirHeader.value.Some? then io.theirHeader.value.value else 0
  }

  /** An exchange goes through when every step of it does and the peer's request can be met. */
  predicate ExchangeSucceeds(box: SecretBox, e: Endpoint, io: ExchangeIo) {
    && io.headerWritten
    && io.theirHeader.Some?
    && Catchup(box, e, PeerSequence(io)).Some?
    && io.catchupWritten
    && io.theirCatchup.Some?
  }

  function Recovered(box: SecretBox, e: Endpoint, socket: nat, io: ExchangeIo, now: int): Endpoint {
    if ExchangeSucceeds(box, e, io) then Revive(e, io.theirCatchup.value, socket, now) else e
  }

  function Served(box: SecretBox, e: Endpoint, cmd: Cmd): Endpoint
    requires WellFormed(e)
  {
    match cmd
    case CmdWrite(m, refused, now) => Write(e, m, refused, now).0
    case CmdKillSocket => CloseSocket(e)
    case CmdRecover(socket, io, now) => Recovered(box, e, socket, io, now)
    case CmdShutdown => e.(shuttingDown := true)
  }

  lemma ServedKeeps(box: SecretBox, e: Endpoint, cmd: Cmd)
    requires WellFormed(e)
    ensures WellFormed(Served(box, e, cmd))
  {
    match cmd
    case CmdWrite(m, refused, now) => WriteKeeps(e, m, refused, now);
    case CmdKillSocket => CloseKeeps(e);
    case CmdRecover(_, _, _) =>
    case CmdShutdown =>
  }

  /** Serving commands while an event waits for room, up to the first one that ends the session. */
  function ServedAll(box: SecretBox, e: Endpoint, cmds: seq<Cmd>): (e': Endpoint)
    requires WellFormed(e)
    ensures WellFormed(e')
    decreases |cmds|
  {
    if cmds == [] || e.shuttingDown then e
    else
      ServedKeeps(box, e, cmds[0]);
      ServedAll(box, Served(box, e, cmds[0]), cmds[1..])
  }

  /** Draining the inbox: each packet is opened, counted and handed over, and while it waits for
      room in the event queue the next batch of `stalls` is served. `clock` is read for every packet,
      `k` of them so far. */
  function Drained(box: SecretBox, e: Endpoint, stalls: seq<seq<Cmd>>, clock: nat -> int, k: nat): (e': Endpoint)
    requires WellFormed(e)
    ensures WellFormed(e')
    decreases |stalls|, |e.inbox|
  {
    if e.inbox == [] then e
    else
      var (e1, outcome) := Deliver(box, e, clock(k));
      DeliverKeeps(box, e, clock(k));
      if outcome.Mismatch? then e1
      else if stalls == [] then Drained(box, e1, stalls, clock, k + 1)
      else
        var e2 := ServedAll(box, e1, stalls[0]);
        if e2.shuttingDown then e2 else Drained(box, e2, stalls[1..], clock, k + 1)
  }

  /** The newest-first queue that holds the log from `floor` on. */
  ghost function BackupOf(box: SecretBox, msb: Byte, ms: seq<Msg>, floor: nat): seq<ByteString> {
    if floor <= |ms| then Reverse(Log(box, msb, ms)[floor..]) else []
  }

  ghost function SizeOf(ms: seq<Msg>, floor: nat): nat {
    if floor <= |ms| then Total(ms[floor..]) else 0
  }

  /** The ledger is open exactly during an outage and counts what was accepted since. */
  ghost function LedgerOf(ms: seq<Msg>, outage: Option<nat>): Option<int> {
    match outage
    case None => None
    case Some(o) => Some(SizeOf(ms, o))
  }

  /** Sealing one more message pushes it to the front of the newest-first backup. */
  lemma PushNewest(box: SecretBox, msb: Byte, ms: seq<Msg>, floor: nat, m: Msg)
    requires Correct(box) && floor <= |ms|
    ensures var sealed := SealedAt(box, msb, |ms|, m);
            && |sealed| == Charge(m)
            && BackupOf(box, msb, ms + [m], floor) == [sealed] + BackupOf(box, msb, ms, floor)
            && SizeOf(ms + [m], floor) == SizeOf(ms, floor) + |sealed|
  {
    var log, sealed := Log(box, msb, ms), SealedAt(box, msb, |ms|, m);
    SealedSize(box, msb, |ms|, m);
    LogAppend(box, msb, ms, m);
    SuffixGrows(ms, m, floor);
    assert (log + [sealed])[floor..] == log[floor..] + [sealed];
    ReverseAppend(log[floor..], sealed);
  }

  lemma BackupLength(box: SecretBox, msb: Byte, ms: seq<Msg>, floor: nat)
    requires floor <= |ms|
    ensures |BackupOf(box, msb, ms, floor)| == |ms| - floor
  {
  }

  /** The newest `k` entries, put back in order, are the end of the log. */
  lemma NewestInOrder(box: SecretBox, msb: Byte, ms: seq<Msg>, floor: nat, k: nat)
    requires floor <= |ms| && k <= |ms| - floor
    ensures |BackupOf(box, msb, ms, floor)| == |ms| - floor
    ensures Reverse(BackupOf(box, msb, ms, floor)[..k]) == Log(box, msb, ms)[|ms| - k..]
  {
    var kept := Log(box, msb, ms)[floor..];
    TakeOfReverse(kept, k);
    assert kept[|kept| - k..] == Log(box, msb, ms)[|ms| - k..];
  }

  /** Dropping the back of the queue drops the oldest entry. */
  lemma PopOldest(box: SecretBox, msb: Byte, ms: seq<Msg>, floor: nat)
    requires Correct(box) && floor <= |ms|
    ensures var queue := BackupOf(box, msb, ms, floor);
            && |queue| == |ms| - floor
            && (queue == [] ==> SizeOf(ms, floor) == 0)
            && (queue != [] ==>
                  && BackupOf(box, msb, ms, floor + 1) == queue[..|queue| - 1]
                  && SizeOf(ms, floor + 1) == SizeOf(ms, floor) - |queue[|queue| - 1]|)
  {
    if floor < |ms| {
      var log := Log(box, msb, ms);
      assert log[floor..][1..] == log[floor + 1..];
      SealedSize(box, msb, floor, ms[floor]);
      TotalFrom(ms, floor);
    }
  }

  lemma TrimStep(ms: seq<Msg>, floor: nat)
    requires floor <= |ms|
    ensures SizeOf(ms, floor) <= MAX_BACKUP_BYTES ==> Trimmed(ms, floor) == floor
    ensures SizeOf(ms, floor) > MAX_BACKUP_BYTES ==>
              floor < |ms| && Trimmed(ms, floor) == Trimmed(ms, floor + 1)
  {
  }

  /** An open ledger grows with every packet, and one opened at the end starts at zero. */
  lemma LedgerGrows(ms: seq<Msg>, m: Msg, o: nat)
    requires o <= |ms|
    ensures LedgerOf(ms, Some(o)).Some?
    ensures LedgerOf(ms + [m], Some(o)) == Some(LedgerOf(ms, Some(o)).value + Charge(m))
    ensures o == |ms| ==> LedgerOf(ms, Some(o)) == Some(0)
    ensures LedgerOf(ms, None) == None
  {
    assert ms[|ms|..] == [];
    SuffixGrows(ms, m, o);
  }

  class BackedActor {
    const cfg: Config
    const writerCrypto: CryptoHandler
    const readerCrypto: CryptoHandler
    var backup: seq<ByteString>          // newest first
    var backupSize: int
    var writerSeq: int
    var readerSeq: int
    var inbox: seq<ByteString>
    var live: Option<nat>
    var disconnectedBytes: Option<int>
    var socketDownPending: bool
    var waitingOnKeepalive: bool
    var lastActivity: int
    var shuttingDown: bool
    var deadSent: bool

    // The history behind the counters.
    ghost var accepted: seq<Msg>
    ghost var floor: nat
    ghost var delivered: seq<Msg>
    ghost var outage: Option<nat>

    ghost function Model(): Endpoint
      reads this
    {
      Endpoint(cfg.writerMsb, cfg.readerMsb, accepted, floor, delivered, inbox, live, outage,
               socketDownPending, waitingOnKeepalive, lastActivity, shuttingDown, deadSent)
    }

    /** The counters and queues agree with the history. */
    ghost predicate Represents()
      reads this, writerCrypto
    {
      && floor <= |accepted|
      && (outage.Some? ==> outage.value <= |accepted|)
      && backup == BackupOf(writerCrypto.box, cfg.writerMsb, accepted, floor)
      && backupSize == SizeOf(accepted, floor)
      && disconnectedBytes == LedgerOf(accepted, outage)
      && writerSeq == |accepted|
      && readerSeq == |delivered|
    }

    /** The nonce handlers outlive every socket: each holds its start value advanced by the number
        of packets of its direction. */
    ghost predicate NonceDiscipline()
      reads this, writerCrypto, readerCrypto, writerCrypto.nonce, readerCrypto.nonce
    {
      && writerCrypto.Valid() && readerCrypto.Valid()
      && writerCrypto.nonce != readerCrypto.nonce
      && writerCrypto.box == readerCrypto.box
      && writerCrypto.nonce[..] == NonceAfter(cfg.writerMsb, |accepted|)
      && (!deadSent ==> readerCrypto.nonce[..] == NonceAfter(cfg.readerMsb, |delivered|))
    }

    ghost predicate Valid()
      reads this, writerCrypto, readerCrypto, writerCrypto.nonce, readerCrypto.nonce
    {
      Represents() && NonceDiscipline() && Correct(writerCrypto.box) && WellFormed(Model())
    }

    constructor (cfg: Config, box: SecretBox, socket: nat, now: int)
      requires Correct(box)
      ensures Valid() && fresh(writerCrypto.nonce) && fresh(readerCrypto.nonce)
      ensures this.cfg == cfg && writerCrypto.box == box
      ensures Model() == NewEndpoint(cfg.writerMsb, cfg.readerMsb, socket, now)
    {
      this.cfg := cfg;
      writerCrypto := new CryptoHandler(box, cfg.writerMsb);
      readerCrypto := new CryptoHandler(box, cfg.readerMsb);
      backup, backupSize, writerSeq, readerSeq, inbox := [], 0, 0, 0, [];
      live, disconnectedBytes := Some(socket), None;
      socketDownPending, waitingOnKeepalive, lastActivity := false, false, now;
      shuttingDown, deadSent := false, false;
      accepted, floor, delivered, outage := [], 0, [], None;
    }

    method CloseCurrentSocket()
      requires Represents()
      modifies this`live, this`socketDownPending, this`waitingOnKeepalive,
               this`disconnectedBytes, this`outage
      ensures Represents()
      ensures Model() == CloseSocket(old(Model()))
    {
      hide BackupOf, SizeOf;
      LedgerGrows(accepted, Msg(0, []), |accepted|);
      if live.Some? {
        live := None;
        socketDownPending := true;
      }
      waitingOnKeepalive := false;
      if disconnectedBytes.None? {
        disconnectedBytes := Some(0);
        outage := Some(|accepted|);
      }
    }

    /** Drops the oldest entries until the rest fits. */
    method Trim()
      requires Correct(writerCrypto.box) && Represents()
      modifies this`backup, this`backupSize, this`floor
      ensures Represents() && floor == Trimmed(accepted, old(floor))
    {
      hide BackupOf, SizeOf, LedgerOf, Trimmed;
      while backupSize > MAX_BACKUP_BYTES
        invariant Represents()
        invariant Trimmed(accepted, floor) == Trimmed(accepted, old(floor))
        decreases |backup|
      {
        PopOldest(writerCrypto.box, cfg.writerMsb, accepted, floor);
        TrimStep(accepted, floor);
        if backup == [] {
          break;
        }
        var oldest := backup[|backup| - 1];
        backup := backup[..|backup| - 1];
        backupSize := backupSize - |oldest|;
        floor := floor + 1;
      }
      TrimStep(accepted, floor);
    }

    /** Encrypts with the next nonce of the writer and serializes. */
    method Seal(m: Msg) returns (serialized: ByteString)
      requires writerCrypto.Valid()
      requires writerCrypto.nonce[..] == NonceAfter(cfg.writerMsb, |accepted|)
      modifies writerCrypto.nonce
      ensures serialized == SealedAt(writerCrypto.box, cfg.writerMsb, |accepted|, m)
      ensures writerCrypto.nonce[..] == NonceAfter(cfg.writerMsb, |accepted| + 1)
    {
      var packet := new Packet(m.header, m.payload);
      packet.Encrypt(writerCrypto);
      serialized := packet.ToBytes();
    }

    /** Adds a packet to the ledger, opening it if need be. */
    method ChargeLedger(bytes: nat)
      modifies this`disconnectedBytes
      ensures disconnectedBytes ==
              Some((if old(disconnectedBytes).None? then 0 else old(disconnectedBytes).value) + bytes)
    {
      if disconnectedBytes.None? {
        disconnectedBytes := Some(0);
      }
      disconnectedBytes := Some(disconnectedBytes.value + bytes);
    }

    /** Without a socket: BUFFERED_ONLY. */
    method Buffer(ghost m: Msg, serialized: ByteString)
      requires Correct(writerCrypto.box) && Represents() && live.None? && outage.Some?
      requires serialized == SealedAt(writerCrypto.box, cfg.writerMsb, |accepted|, m)
      modifies this`backup, this`backupSize, this`writerSeq, this`disconnectedBytes, this`accepted
      ensures Represents() && accepted == old(accepted) + [m]
    {
      hide BackupOf, SizeOf, LedgerOf, SealedAt;
      PushNewest(writerCrypto.box, cfg.writerMsb, accepted, floor, m);
      LedgerGrows(accepted, m, outage.value);
      backup := [serialized] + backup;
      backupSize := backupSize + |serialized|;
      writerSeq := writerSeq + 1;
      accepted := accepted + [m];
      ChargeLedger(|serialized|);
    }

    /** With a socket: the backup is trimmed and the frame goes to the socket's queue. A queue that
        refuses it means the socket has stopped draining, so it is killed and the packet opens the
        ledger. */
    method Send(ghost m: Msg, serialized: ByteString, refused: bool, now: int)
      returns (frame: ByteString)
      requires Correct(writerCrypto.box) && Represents() && live.Some? && outage.None?
      requires serialized == SealedAt(writerCrypto.box, cfg.writerMsb, |accepted|, m)
      modifies this
      ensures Represents() && Model() == Sent(old(Model()), m, refused, now)
      ensures frame == PacketFrame(serialized)
    {
      hide BackupOf, SizeOf, SealedAt, Trimmed;
      PushNewest(writerCrypto.box, cfg.writerMsb, accepted, floor, m);
      LedgerGrows(accepted, m, |accepted|);
      backup := [serialized] + backup;
      backupSize := backupSize + |serialized|;
      writerSeq := writerSeq + 1;
      accepted := accepted + [m];
      Trim();
      frame := ToBigEndian(|serialized| % 0x1_0000_0000, 4) + serialized;
      if refused {
        KilledByQueue(|serialized|);
      }
      lastActivity := now;
    }

    /** The packet just backed up opens the ledger and its socket goes down. */
    method KilledByQueue(bytes: nat)
      requires Represents() && outage.None? && accepted != []
      requires LedgerOf(accepted, Some(|accepted| - 1)) == Some(bytes)
      modifies this`live, this`socketDownPending, this`waitingOnKeepalive,
               this`disconnectedBytes, this`outage
      ensures Represents()
      ensures Model() == CloseSocket(old(Model()).(outage := Some(|accepted| - 1)))
    {
      hide BackupOf, SizeOf;
      ChargeLedger(bytes);
      outage := Some(|accepted| - 1);
      CloseCurrentSocket();
    }

    /** Whether a write is admitted: offline, the payload has to fit the disconnect budget. */
    method Admit(m: Msg) returns (verdict: WriteResult)
      requires Represents() && WellFormed(Model())
      ensures verdict == Written <==> !WriteRefused(Model(), m)
      ensures verdict == Shutdown <==> shuttingDown
      ensures live.None? <==> outage.Some?
    {
      if shuttingDown {
        return Shutdown;
      }
      if disconnectedBytes.Some? {
        if disconnectedBytes.value + |m.payload| > DISCONNECT_BUFFER_BYTES {
          return Skipped;
        }
      }
      verdict := Written;
    }

    /** `BackedWriter::write`. The frame is what the socket's queue was offered. */
    method Write(m: Msg, refused: bool, now: int) returns (result: WriteResult, frame: Option<ByteString>)
      requires Valid()
      modifies this, writerCrypto.nonce
      ensures Valid()
      ensures Model() == Endpoints.Write(old(Model()), m, refused, now).0
      ensures result == Endpoints.Write(old(Model()), m, refused, now).1
      ensures result != Written ==>
                && backup == old(backup) && backupSize == old(backupSize)
                && disconnectedBytes == old(disconnectedBytes)
                && writerCrypto.nonce[..] == old(writerCrypto.nonce[..])
      ensures frame ==
              if result == Written && old(live).Some?
              then Some(PacketFrame(SealedAt(writerCrypto.box, cfg.writerMsb, |old(accepted)|, m)))
              else None
    {
      hide BackupOf, SizeOf, LedgerOf, SealedAt, PacketFrame, WellFormed, WriteRefused, NonceAfter;
      result := Admit(m);
      if result != Written {
        return result, None;
      }
      WriteKeeps(Model(), m, refused, now);
      var serialized := Seal(m);
      if live.None? {
        Buffer(m, serialized);
        frame := None;
      } else {
        var bytes := Send(m, serialized, refused, now);
        frame := Some(bytes);
      }
    }

    /** Fails closed: the session ends once, with `CryptoMismatch`. */
    method DieCryptoMismatch()
      modifies this`shuttingDown, this`deadSent
      ensures shuttingDown && deadSent
    {
      shuttingDown := true;
      deadSent := true;
    }

    /** Parses and opens one packet with the next nonce of the reader. */
    method Open(bytes: ByteString) returns (outcome: Delivery)
      requires readerCrypto.Valid()
      requires readerCrypto.nonce[..] == NonceAfter(cfg.readerMsb, |delivered|)
      modifies readerCrypto.nonce
      ensures outcome == Opened(readerCrypto.box, cfg.readerMsb, |delivered|, bytes)
      ensures outcome.Delivered? ==>
                readerCrypto.nonce[..] == NonceAfter(cfg.readerMsb, |delivered| + 1)
    {
      var parsed := Parse(bytes);
      if parsed == None {
        return Mismatch;
      }
      var packet := new Packet.FromWire(parsed.value);
      if !packet.encrypted {
        return Mismatch;
      }
      var ok := packet.Decrypt(readerCrypto);
      if !ok {
        return Mismatch;
      }
      outcome := Delivered(Msg(packet.header, packet.payload));
    }

    /** One turn of `deliver_inbox`: the next packet is opened and counted, or the session dies. */
    method OpenNext(now: int) returns (outcome: Delivery)
      requires Represents() && NonceDiscipline() && inbox != [] && !deadSent
      modifies this`inbox, this`shuttingDown, this`deadSent, this`lastActivity,
               this`waitingOnKeepalive, this`readerSeq, this`delivered, readerCrypto.nonce
      ensures Represents() && NonceDiscipline()
      ensures Model() == Deliver(writerCrypto.box, old(Model()), now).0
      ensures outcome == Deliver(writerCrypto.box, old(Model()), now).1
    {
      hide BackupOf, SizeOf, LedgerOf, Opened, NonceAfter;
      var bytes := inbox[0];
      inbox := inbox[1..];
      outcome := Open(bytes);
      if outcome.Mismatch? {
        DieCryptoMismatch();
        return;
      }
      lastActivity := now;
      if outcome.m.header == KEEP_ALIVE {
        waitingOnKeepalive := false;
      }
      readerSeq := readerSeq + 1;
      delivered := delivered + [outcome.m];
    }

    /** The newest `writer_seq - remote_seq` packets of the backup, oldest first, or a refusal. */
    method CatchupFor(remoteSeq: Int32) returns (entries: Option<seq<ByteString>>)
      requires Represents()
      ensures entries == Catchup(writerCrypto.box, Model(), remoteSeq)
    {
      BackupLength(writerCrypto.box, cfg.writerMsb, accepted, floor);
      var toRecover := writerSeq - remoteSeq;
      if toRecover < 0 {
        return None;
      }
      var buffer := [];
      if toRecover > 0 {
        if |backup| < toRecover {
          return None;
        }
        buffer := Reverse(backup[..toRecover]);
      }
      NewestInOrder(writerCrypto.box, cfg.writerMsb, accepted, floor, toRecover);
      entries := Some(buffer);
    }

    /** `Connection::recover`: header out, header in, catch-up out, catch-up in. Any failure leaves
        everything as it was. */
    method RecoverTimedActor(socket: nat, io: ExchangeIo, now: int)
      returns (ok: bool, header: Option<Int32>, catchup: Option<seq<ByteString>>)
      requires Valid()
      modifies this`inbox, this`disconnectedBytes, this`outage, this`lastActivity, this`live
      ensures Represents() && NonceDiscipline()
      ensures Model() == Recovered(writerCrypto.box, old(Model()), socket, io, now)
      ensures ok == ExchangeSucceeds(writerCrypto.box, old(Model()), io)
      ensures header == Some(SequenceHeader(old(Model())))
      ensures catchup == if io.headerWritten && io.theirHeader.Some?
                         then Catchup(writerCrypto.box, old(Model()), PeerSequence(io)) else None
    {
      hide BackupOf, SizeOf, WellFormed, Catchup;
      header, catchup := Some(Truncate32(readerSeq)), None;
      if !io.headerWritten || io.theirHeader.None? {
        return false, header, None;
      }
      var remoteSeq := if io.theirHeader.value.Some? then io.theirHeader.value.value else 0;
      catchup := CatchupFor(remoteSeq);
      if catchup.None? || !io.catchupWritten || io.theirCatchup.None? {
        return false, header, catchup;
      }
      inbox := inbox + io.theirCatchup.value;
      disconnectedBytes, outage := None, None;
      lastActivity := now;
      live := Some(socket);
      ok := true;
    }

    method HandleCmd(cmd: Cmd)
      requires Valid()
      modifies this, writerCrypto.nonce
      ensures Valid() && Model() == Served(writerCrypto.box, old(Model()), cmd)
      ensures delivered == old(delivered)
    {
      hide BackupOf, SizeOf, LedgerOf, WellFormed, NonceAfter;
      ServedKeeps(writerCrypto.box, Model(), cmd);
      match cmd {
        case CmdWrite(m, refused, now) =>
          var _, _ := Write(m, refused, now);
        case CmdKillSocket =>
          CloseCurrentSocket();
        case CmdRecover(socket, io, now) =>
          var _, _, _ := RecoverTimedActor(socket, io, now);
        case CmdShutdown =>
          shuttingDown := true;
      }
    }

    /** `send_event`: commands are served while the event waits for room. */
    method ServeWhileStalled(cmds: seq<Cmd>)
      requires Valid() && !shuttingDown
      modifies this, writerCrypto.nonce
      ensures Valid() && Model() == ServedAll(writerCrypto.box, old(Model()), cmds)
      ensures delivered == old(delivered)
    {
      hide BackupOf, SizeOf, LedgerOf, NonceAfter, Served;
      var i := 0;
      while i < |cmds| && !shuttingDown
        invariant 0 <= i <= |cmds| && Valid() && delivered == old(delivered)
        invariant ServedAll(writerCrypto.box, Model(), cmds[i..]) ==
                  ServedAll(writerCrypto.box, old(Model()), cmds)
      {
        assert cmds[i..][1..] == cmds[i + 1..];
        HandleCmd(cmds[i]);
        i := i + 1;
      }
    }

    /** `deliver_inbox`: packets go to the owner one by one; the one in hand when a command ends the
        session is not handed over. */
    method DeliverInbox(stalls: seq<seq<Cmd>>, clock: nat -> int) returns (handed: seq<Msg>)
      requires Valid() && !shuttingDown
      modifies this, writerCrypto.nonce, readerCrypto.nonce
      ensures Valid() && Model() == Drained(writerCrypto.box, old(Model()), stalls, clock, 0)
      ensures old(delivered) + handed <= delivered
      ensures !shuttingDown ==> old(delivered) + handed == delivered
    {
      hide BackupOf, SizeOf, LedgerOf, WellFormed, NonceAfter, ServedAll;
      handed := [];
      var i := 0;
      while inbox != []
        invariant 0 <= i <= |stalls| && Valid() && !shuttingDown
        invariant Drained(writerCrypto.box, Model(), stalls[i..], clock, |handed|) ==
                  Drained(writerCrypto.box, old(Model()), stalls, clock, 0)
        invariant old(delivered) + handed == delivered
        decreases |stalls| - i, |inbox|
      {
        DeliverKeeps(writerCrypto.box, Model(), clock(|handed|));
        var outcome := OpenNext(clock(|handed|));
        if outcome.Mismatch? {
          return;
        }
        if i < |stalls| {
          assert stalls[i..][1..] == stalls[i + 1..];
          ServeWhileStalled(stalls[i]);
          if shuttingDown {
            return;
          }
          i := i + 1;
        }
        handed := handed + [outcome.m];
      }
    }

    method KeepaliveTick(refused: bool, now: int)
      requires Valid()
      modifies this, writerCrypto.nonce
      ensures Valid() && Model() == Tick(old(Model()), cfg.keepalive, refused, now)
    {
      hide BackupOf, SizeOf, LedgerOf, WellFormed, NonceAfter;
      TickKeeps(Model(), cfg.keepalive, refused, now);
      if cfg.keepalive.None? {
        return;
      }
      if live.None? || shuttingDown {
        return;
      }
      if now - lastActivity >= cfg.keepalive.value {
        if waitingOnKeepalive {
          CloseCurrentSocket();
        } else {
          PingKeeps(Model(), now);
          waitingOnKeepalive := true;
          lastActivity := now;
          var _, _ := Write(Msg(KEEP_ALIVE, []), refused, now);
        }
      }
    }
  }
}
