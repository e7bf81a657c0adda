/** The client: its actor's run loop, the reconnect supervisor and the two queues between them, on
    top of the two-party machine. Side 0 of the world is the client; side 1 is any peer that keeps
    the discipline of the protocol. */
module Supervisors {
  import opened Bytes
  import opened Crypto
  import opened Endpoints
  import opened Sessions
  import Framing

  datatype Event = PacketEvent(m: Msg) | SocketDown

  datatype Cmd = WriteCmd(m: Msg) | KillCmd | RecoverCmd(socket: nat) | ShutdownCmd

  /** Where the actor is: at the select of its loop, after one of its arms, waiting for room for an
      event, or draining its inbox. */
  datatype ActorPc = Select | Check | SendDown | Drain | SendPacket(m: Msg) | Stopped

  datatype SupervisorPc =
    | Recv
    | Forward(m: Msg)
    | Handshake
    | Queueing(socket: nat)
    | AwaitReply
    | Replied(ok: bool)
    | Sleep
    | Ending
    | Gone

  /** One entry per `SocketDown` event and per successful recover. */
  datatype Mark = Down | Up

  datatype Client = Client(
    w: World,
    pc: ActorPc,
    cmds: seq<Cmd>,
    events: seq<Event>,
    sup: SupervisorPc,
    marks: seq<Mark>)

  datatype Act =
    // the actor
    | ServeCmd(refused: bool, now: int)
    | FrameArm
    | ErrorArm
    | TickArm(period: Option<int>, refused: bool, now: int)
    | CheckArm
    | DownSent
    | DrainArm(now: int)
    | PacketSent
    | HeaderRead
    | CatchupRead(now: int)
    | ExchangeFailed
    // its owner
    | OwnerSends(cmd: Cmd)
    // the supervisor
    | SupRecv
    | SupForwarded
    | SupReturning(socket: nat)
    | SupRetry
    | SupFatal
    | SupQueues
    | SupReply
    | SupWakes
    | SupShutsDown
    | SupLeaves
    // the peer and the network
    | Outside(a: Action)

  /** Queue capacities; any positive ones will do. */
  datatype Caps = Caps(cmds: nat, events: nat)

  ghost predicate Busy(k: Client)
    requires |k.w.sides| == 2
  {
    !k.w.sides[0].mode.Serving?
  }

  /** The step of the two-party machine behind a step of the client. */
  ghost function WorldAct(k: Client, act: Act): Option<Action>
    requires |k.w.sides| == 2
  {
    match act
    case ServeCmd(refused, now) =>
      if k.cmds == [] then None else
      (match k.cmds[0]
       case WriteCmd(m) => Some(WriteMsg(0, m, refused, now))
       case KillCmd => Some(Kill(0))
       case RecoverCmd(c) => Some(BeginRecover(0, c))
       case ShutdownCmd => Some(StopSession(0)))
    case FrameArm => Some(Receive(0))
    case ErrorArm => Some(Kill(0))
    case TickArm(period, refused, now) => Some(KeepaliveTick(0, period, refused, now))
    case CheckArm =>
      var e := k.w.sides[0].ep;
      if !e.shuttingDown && e.downPending then Some(ReportDown(0)) else None
    case DrainArm(now) => if k.w.sides[0].ep.inbox != [] then Some(DeliverNext(0, now)) else None
    case HeaderRead => Some(AnswerHeader(0))
    case CatchupRead(now) => Some(FinishRecover(0, now))
    case ExchangeFailed => Some(AbandonRecover(0))
    case Outside(a) => Some(a)
    case _ => None
  }

  /** When the client's own code can take a step. A recover is not asked to find an empty inbox. */
  ghost predicate Ready(caps: Caps, k: Client, act: Act)
    requires Shape(k.w)
  {
    match act
    case ServeCmd(_, _) => k.cmds != [] && !Busy(k) && (k.pc.Select? || k.pc.SendDown? || k.pc.SendPacket?)
    case FrameArm => k.pc.Select? && !Busy(k)
    case ErrorArm => k.pc.Select? && !Busy(k) && k.w.sides[0].ep.live.Some?
    case TickArm(_, _, _) => k.pc.Select? && !Busy(k)
    case CheckArm => k.pc.Check? && !Busy(k)
    case DownSent => k.pc.SendDown? && !Busy(k) && (|k.events| < caps.events || k.sup.Gone?)
    case DrainArm(_) => k.pc.Drain? && !Busy(k)
    case PacketSent => k.pc.SendPacket? && !Busy(k) && (|k.events| < caps.events || k.sup.Gone?)
    case HeaderRead => !k.pc.Stopped?
    case CatchupRead(_) => !k.pc.Stopped?
    case ExchangeFailed => !k.pc.Stopped?
    case OwnerSends(cmd) => |k.cmds| < caps.cmds && !cmd.RecoverCmd?
    case SupRecv => k.sup.Recv? && k.events != []
    case SupForwarded => k.sup.Forward?
    case SupReturning(_) => k.sup.Handshake?
    case SupRetry => k.sup.Handshake?
    case SupFatal => k.sup.Handshake?
    case SupQueues => k.sup.Queueing? && (|k.cmds| < caps.cmds || k.pc.Stopped?)
    case SupReply => k.sup.Replied? || (k.sup.AwaitReply? && k.pc.Stopped?)
    case SupWakes => k.sup.Sleep?
    case SupShutsDown => k.sup.Ending? && (|k.cmds| < caps.cmds || k.pc.Stopped?)
    case SupLeaves => k.sup.Recv? || k.sup.Forward? || k.sup.Handshake?
    case Outside(a) => a.Connect? || a.who == 1
  }

  ghost predicate ClientEnabled(box: SecretBox, caps: Caps, k: Client, act: Act) {
    && Shape(k.w) && SocketsExist(k.w) && Ready(caps, k, act)
    && (WorldAct(k, act).Some? ==> Possible(box, k.w, WorldAct(k, act).value))
    && (act.Outside? ==> Disciplined(k.w, act.a))
    && (act.HeaderRead? ==> Disciplined(k.w, AnswerHeader(0)))
    && (act.ServeCmd? && k.cmds[0].WriteCmd? ==> Disciplined(k.w, WorldAct(k, act).value))
  }

  ghost function NextWorld(box: SecretBox, caps: Caps, k: Client, act: Act): World
    requires ClientEnabled(box, caps, k, act)
  {
    var a := WorldAct(k, act);
    if a.Some? then Apply(box, k.w, a.value) else k.w
  }

  /** An arm of the loop is over; one that ran while an event waited leaves the actor waiting. */
  function AfterArm(pc: ActorPc, stop: bool): ActorPc {
    if pc.Select? then Check else if stop then Stopped else pc
  }

  ghost function Next(box: SecretBox, caps: Caps, k: Client, act: Act): Client
    requires ClientEnabled(box, caps, k, act)
    requires |NextWorld(box, caps, k, act).sides| == 2
  {
    var k1 := k.(w := NextWorld(box, caps, k, act));
    var e := k1.w.sides[0].ep;
    match act
    case ServeCmd(_, _) =>
      var k2 := k1.(cmds := k.cmds[1..]);
      if k.cmds[0].RecoverCmd? then k2 else k2.(pc := AfterArm(k.pc, e.shuttingDown))
    case FrameArm => k1.(pc := Check)
    case ErrorArm => k1.(pc := Check)
    case TickArm(_, _, _) => k1.(pc := Check)
    case CheckArm =>
      k1.(pc := if e.shuttingDown then Stopped else if k.w.sides[0].ep.downPending then SendDown else Drain)
    case DownSent =>
      if k.sup.Gone? then k1.(pc := Stopped)
      else k1.(pc := Drain, events := k.events + [SocketDown], marks := k.marks + [Down])
    case DrainArm(_) =>
      if k.w.sides[0].ep.inbox == [] then k1.(pc := Select)
      else if e.mismatch then k1.(pc := Stopped)
      else k1.(pc := SendPacket(e.delivered[|e.delivered| - 1]))
    case PacketSent =>
      if k.sup.Gone? then k1.(pc := Select)
      else k1.(pc := Drain, events := k.events + [PacketEvent(k.pc.m)])
    case HeaderRead => k1
    case CatchupRead(_) =>
      k1.(pc := AfterArm(k.pc, false), sup := Replied(true), marks := k.marks + [Up])
    case ExchangeFailed => k1.(pc := AfterArm(k.pc, false), sup := Replied(false))
    case OwnerSends(cmd) => k1.(cmds := k.cmds + [cmd])
    case SupRecv =>
      var k2 := k1.(events := k.events[1..]);
      (match k.events[0]
       case PacketEvent(m) => k2.(sup := Forward(m))
       case SocketDown => k2.(sup := Handshake))
    case SupForwarded => k1.(sup := Recv)
    case SupReturning(c) => k1.(sup := Queueing(c))
    case SupRetry => k1.(sup := Sleep)
    case SupFatal => k1.(sup := Ending)
    case SupQueues =>
      if k.pc.Stopped? then k1.(sup := Replied(false))
      else k1.(sup := AwaitReply, cmds := k.cmds + [RecoverCmd(k.sup.socket)])
    case SupReply => k1.(sup := if k.sup == Replied(true) then Recv else Sleep)
    case SupWakes => k1.(sup := Handshake)
    case SupShutsDown => k1.(sup := Gone, cmds := if k.pc.Stopped? then k.cmds else k.cmds + [ShutdownCmd])
    case SupLeaves => k1.(sup := Gone)
    case Outside(_) => k1
  }

  function NewClient(now: int): Client {
    Client(Start(now), Select, [], [], Recv, [])
  }

  // ---- what the supervisor establishes ----

  function Downs(events: seq<Event>): nat {
    if events == [] then 0 else (if events[0].SocketDown? then 1 else 0) + Downs(events[1..])
  }

  function Recovers(cmds: seq<Cmd>): nat {
    if cmds == [] then 0 else (if cmds[0].RecoverCmd? then 1 else 0) + Recovers(cmds[1..])
  }

  lemma {:induction false} DownsAppend(events: seq<Event>, e: Event)
    ensures Downs(events + [e]) == Downs(events) + (if e.SocketDown? then 1 else 0)
  {
    if events == [] {
      assert events + [e] == [e] && [e][1..] == [];
    } else {
      DownsAppend(events[1..], e);
      assert (events + [e])[1..] == events[1..] + [e];
    }
  }

  lemma {:induction false} RecoversAppend(cmds: seq<Cmd>, c: Cmd)
    ensures Recovers(cmds + [c]) == Recovers(cmds) + (if c.RecoverCmd? then 1 else 0)
  {
    if cmds == [] {
      assert cmds + [c] == [c] && [c][1..] == [];
    } else {
      RecoversAppend(cmds[1..], c);
      assert (cmds + [c])[1..] == cmds[1..] + [c];
    }
  }

  /** The socket a session owes its owner: in use, lost but not reported, being reported, or
      reported. */
  function Tokens(e: Endpoint, pc: ActorPc, events: seq<Event>): nat {
    (if e.live.Some? then 1 else 0) + (if e.downPending then 1 else 0)
    + (if pc.SendDown? then 1 else 0) + Downs(events)
  }

  /** The supervisor has taken the `SocketDown` event and no new socket is live yet. */
  predicate Reconnecting(sup: SupervisorPc) {
    sup.Handshake? || sup.Queueing? || sup.AwaitReply? || sup == Replied(false) || sup.Sleep? || sup.Ending?
  }

  /** Nothing is left to deliver wherever the code relies on it. */
  predicate InboxRule(e: Endpoint, pc: ActorPc, events: seq<Event>, sup: SupervisorPc) {
    (pc.Select? || pc.SendDown? || (pc.Check? && e.downPending) || Downs(events) > 0 || Reconnecting(sup)
     ==> e.inbox == [])
    && (Downs(events) > 0 || Reconnecting(sup) ==> !pc.SendPacket?)
  }

  ghost predicate Orderly(k: Client)
    requires |k.w.sides| == 2
  {
    var me := k.w.sides[0];
    && (!k.pc.Stopped? ==>
          && (if Busy(k) then 1 else 0) + Recovers(k.cmds) == (if k.sup.AwaitReply? then 1 else 0)
          && (Busy(k) ==> k.pc.Select?)
          && (me.ep.shuttingDown ==> k.pc.Check?))
    && (!k.pc.Stopped? && !k.sup.Gone? ==>
          && Tokens(me.ep, k.pc, k.events) == (if Reconnecting(k.sup) then 0 else 1)
          && InboxRule(me.ep, k.pc, k.events, k.sup)
          && (|k.marks| % 2 == 0 <==> me.ep.live.Some? || me.ep.downPending || k.pc.SendDown?))
    && (forall j :: 0 <= j < |k.marks| ==> k.marks[j] == if j % 2 == 0 then Down else Up)
  }

  lemma NewClientOrderly(now: int)
    ensures Orderly(NewClient(now))
  {
  }

  /** Each `Recover` is served with no live socket, nothing left to deliver, and every `SocketDown`
      taken: the discipline that the two-party protocol rests on. */
  lemma RecoverServedCleanly(box: SecretBox, caps: Caps, k: Client, refused: bool, now: int)
    requires |k.w.sides| == 2 && Orderly(k) && ClientEnabled(box, caps, k, ServeCmd(refused, now))
    requires k.cmds[0].RecoverCmd?
    ensures var e := k.w.sides[0].ep;
            && e.live.None? && e.inbox == [] && !e.downPending
            && Downs(k.events) == 0 && k.pc.Select? && k.sup.AwaitReply?
  {
    hide WellFormed, Possible;
  }

  /** Where the two-party machine puts the client's endpoint. */
  ghost function MySide(box: SecretBox, w: World, a: Action): Side
    requires Shape(w) && Possible(box, w, a)
  {
    var me := w.sides[0];
    if a.Connect? || a.who == 1 then me else
    match a
    case WriteMsg(_, m, refused, now) => me.(ep := Write(me.ep, m, refused, now).0)
    case KeepaliveTick(_, period, refused, now) => me.(ep := Tick(me.ep, period, refused, now))
    case Kill(_) => me.(ep := CloseSocket(me.ep))
    case ReportDown(_) => me.(ep := me.ep.(downPending := false))
    case Receive(_) =>
      var bytes := Framing.ReadBack(NextItem(w, me.ep.live.value, 0).bytes).value;
      me.(ep := me.ep.(inbox := me.ep.inbox + [bytes]))
    case DeliverNext(_, now) => me.(ep := Deliver(box, me.ep, now).0)
    case BeginRecover(_, c) => me.(mode := AwaitHeader(c))
    case AnswerHeader(_) => me.(mode := AwaitCatchup(me.mode.socket))
    case FinishRecover(_, now) =>
      Side(Revive(me.ep, NextItem(w, me.mode.socket, 0).entries, me.mode.socket, now), Serving)
    case AbandonRecover(_) => me.(mode := Serving)
    case StopSession(_) => me.(ep := me.ep.(shuttingDown := true))
    case Connect => me
  }

  lemma MySideIs(box: SecretBox, w: World, a: Action)
    requires Shape(w) && Possible(box, w, a) && SocketsExist(w)
    ensures var w' := Apply(box, w, a); |w'.sides| == 2 && w'.sides[0] == MySide(box, w, a)
  {
    hide WellFormed, Write, Tick, Deliver, Catchup, SealedAt, Revive, CloseSocket;
  }

  /** A write or a ping leaves the inbox alone and trades the live socket for a pending report. */
  ghost predicate Trades(e: Endpoint, e': Endpoint) {
    && e'.inbox == e.inbox && e'.shuttingDown == e.shuttingDown
    && (|| (e'.live.Some? == e.live.Some? && e'.downPending == e.downPending)
        || (e.live.Some? && e'.live.None? && e'.downPending))
  }

  lemma WriteTrades(e: Endpoint, m: Msg, refused: bool, now: int)
    requires WellFormed(e)
    ensures Trades(e, Write(e, m, refused, now).0)
  {
    hide WellFormed, Trimmed, WriteRefused;
  }

  lemma TickTrades(e: Endpoint, period: Option<int>, refused: bool, now: int)
    requires WellFormed(e)
    ensures Trades(e, Tick(e, period, refused, now))
  {
    if e.live.Some? {
      PingKeeps(e, now);
      hide WellFormed, Write;
      WriteTrades(e.(waiting := true, lastActivity := now), Msg(KEEP_ALIVE, []), refused, now);
    }
  }

  // The effect of each group of steps on the books, in terms of the client's endpoint.

  lemma ServeKeeps(box: SecretBox, caps: Caps, k: Client, k': Client, refused: bool, now: int)
    requires |k.w.sides| == 2 && Orderly(k) && ClientEnabled(box, caps, k, ServeCmd(refused, now))
    requires |NextWorld(box, caps, k, ServeCmd(refused, now)).sides| == 2
    requires k' == Next(box, caps, k, ServeCmd(refused, now))
    ensures |k'.w.sides| == 2 && Orderly(k')
  {
    var a := WorldAct(k, ServeCmd(refused, now)).value;
    var e := k.w.sides[0].ep;
    MySideIs(box, k.w, a);
    match k.cmds[0]
    case WriteCmd(m) =>
      WriteTrades(e, m, refused, now);
      hide WellFormed, Write, Possible, Apply;
    case KillCmd =>
      hide WellFormed, Possible, Apply;
    case RecoverCmd(c) =>
      RecoverServedCleanly(box, caps, k, refused, now);
      hide WellFormed, Possible, Apply;
    case ShutdownCmd =>
      hide WellFormed, Possible, Apply;
  }

  lemma ArmKeeps(box: SecretBox, caps: Caps, k: Client, k': Client, act: Act)
    requires |k.w.sides| == 2 && Orderly(k) && ClientEnabled(box, caps, k, act)
    requires |NextWorld(box, caps, k, act).sides| == 2
    requires k' == Next(box, caps, k, act)
    requires act.FrameArm? || act.ErrorArm? || act.TickArm?
    ensures |k'.w.sides| == 2 && Orderly(k')
  {
    var a, e := WorldAct(k, act).value, k.w.sides[0].ep;
    MySideIs(box, k.w, a);
    if act.TickArm? {
      TickTrades(e, act.period, act.refused, act.now);
    }
    hide WellFormed, Write, Tick, Possible, Apply;
  }

  lemma LoopKeeps(box: SecretBox, caps: Caps, k: Client, k': Client, act: Act)
    requires |k.w.sides| == 2 && Orderly(k) && ClientEnabled(box, caps, k, act)
    requires |NextWorld(box, caps, k, act).sides| == 2
    requires k' == Next(box, caps, k, act)
    requires act.CheckArm? || act.DownSent? || act.DrainArm? || act.PacketSent?
    ensures |k'.w.sides| == 2 && Orderly(k')
  {
    if WorldAct(k, act).Some? {
      MySideIs(box, k.w, WorldAct(k, act).value);
    }
    if act.DownSent? {
      DownsAppend(k.events, SocketDown);
    } else if act.PacketSent? {
      DownsAppend(k.events, PacketEvent(k.pc.m));
    }
    hide WellFormed, Possible, Apply, Opened;
  }

  lemma ExchangeKeeps(box: SecretBox, caps: Caps, k: Client, k': Client, act: Act)
    requires |k.w.sides| == 2 && Orderly(k) && ClientEnabled(box, caps, k, act)
    requires |NextWorld(box, caps, k, act).sides| == 2
    requires k' == Next(box, caps, k, act)
    requires act.HeaderRead? || act.CatchupRead? || act.ExchangeFailed?
    ensures |k'.w.sides| == 2 && Orderly(k')
  {
    assert Busy(k);
    MySideIs(box, k.w, WorldAct(k, act).value);
    hide WellFormed, Possible, Apply, Catchup;
  }

  lemma QueueKeeps(box: SecretBox, caps: Caps, k: Client, k': Client, act: Act)
    requires |k.w.sides| == 2 && Orderly(k) && ClientEnabled(box, caps, k, act)
    requires |NextWorld(box, caps, k, act).sides| == 2
    requires k' == Next(box, caps, k, act)
    requires act.OwnerSends? || act.SupRecv? || act.SupQueues? || act.SupShutsDown?
    ensures |k'.w.sides| == 2 && Orderly(k')
  {
    if act.OwnerSends? {
      RecoversAppend(k.cmds, act.cmd);
    } else if act.SupQueues? {
      RecoversAppend(k.cmds, RecoverCmd(k.sup.socket));
    } else if act.SupShutsDown? {
      RecoversAppend(k.cmds, ShutdownCmd);
    }
    hide WellFormed, Apply;
  }

  lemma OtherKeeps(box: SecretBox, caps: Caps, k: Client, k': Client, act: Act)
    requires |k.w.sides| == 2 && Orderly(k) && ClientEnabled(box, caps, k, act)
    requires |NextWorld(box, caps, k, act).sides| == 2
    requires k' == Next(box, caps, k, act)
    requires || act.SupForwarded? || act.SupReturning? || act.SupRetry? || act.SupFatal?
             || act.SupReply? || act.SupWakes? || act.SupLeaves? || act.Outside?
    ensures |k'.w.sides| == 2 && Orderly(k')
  {
    if act.Outside? {
      MySideIs(box, k.w, act.a);
    }
    hide WellFormed, Possible, Apply;
  }

  /** Every step of the client keeps its books, whatever the capacities of its queues. */
  lemma OrderlyKept(box: SecretBox, caps: Caps, k: Client, act: Act)
    requires |k.w.sides| == 2 && Orderly(k) && ClientEnabled(box, caps, k, act)
    ensures |NextWorld(box, caps, k, act).sides| == 2
    ensures var k' := Next(box, caps, k, act); |k'.w.sides| == 2 && Orderly(k')
  {
    if WorldAct(k, act).Some? {
      MySideIs(box, k.w, WorldAct(k, act).value);
    }
    var k' := Next(box, caps, k, act);
    hide Orderly, ClientEnabled, Next, NextWorld, WorldAct;
    match act
    case ServeCmd(refused, now) => ServeKeeps(box, caps, k, k', refused, now);
    case FrameArm => ArmKeeps(box, caps, k, k', act);
    case ErrorArm => ArmKeeps(box, caps, k, k', act);
    case TickArm(_, _, _) => ArmKeeps(box, caps, k, k', act);
    case CheckArm => LoopKeeps(box, caps, k, k', act);
    case DownSent => LoopKeeps(box, caps, k, k', act);
    case DrainArm(_) => LoopKeeps(box, caps, k, k', act);
    case PacketSent => LoopKeeps(box, caps, k, k', act);
    case HeaderRead => ExchangeKeeps(box, caps, k, k', act);
    case CatchupRead(_) => ExchangeKeeps(box, caps, k, k', act);
    case ExchangeFailed => ExchangeKeeps(box, caps, k, k', act);
    case OwnerSends(_) => QueueKeeps(box, caps, k, k', act);
    case SupRecv => QueueKeeps(box, caps, k, k', act);
    case SupQueues => QueueKeeps(box, caps, k, k', act);
    case SupShutsDown => QueueKeeps(box, caps, k, k', act);
    case _ => OtherKeeps(box, caps, k, k', act);
  }

  /** The step of the two-party machine behind a client's step keeps the protocol's discipline. */
  lemma ClientIsDisciplined(box: SecretBox, caps: Caps, k: Client, act: Act)
    requires |k.w.sides| == 2 && Orderly(k) && ClientEnabled(box, caps, k, act)
    requires WorldAct(k, act).Some?
    ensures Enabled(box, k.w, WorldAct(k, act).value)
  {
    if act.ServeCmd? && k.cmds[0].RecoverCmd? {
      RecoverServedCleanly(box, caps, k, act.refused, act.now);
    }
    hide WellFormed, Possible, Orderly;
  }

  ghost predicate ClientInv(box: SecretBox, k: Client) {
    Safe(box, k.w) && Orderly(k)
  }

  ghost predicate ClientRuns(box: SecretBox, caps: Caps, k: Client, acts: seq<Act>)
    decreases |acts|
  {
    acts == [] ||
    (&& ClientEnabled(box, caps, k, acts[0])
     && |NextWorld(box, caps, k, acts[0]).sides| == 2
     && ClientRuns(box, caps, Next(box, caps, k, acts[0]), acts[1..]))
  }

  ghost function ClientAfter(box: SecretBox, caps: Caps, k: Client, acts: seq<Act>): Client
    requires ClientRuns(box, caps, k, acts)
    decreases |acts|
  {
    if acts == [] then k else ClientAfter(box, caps, Next(box, caps, k, acts[0]), acts[1..])
  }

  lemma ClientStepKeeps(box: SecretBox, caps: Caps, k: Client, act: Act)
    requires Correct(box) && ClientInv(box, k) && ClientEnabled(box, caps, k, act)
    ensures |NextWorld(box, caps, k, act).sides| == 2
    ensures ClientInv(box, Next(box, caps, k, act))
  {
    OrderlyKept(box, caps, k, act);
    if WorldAct(k, act).Some? {
      ClientIsDisciplined(box, caps, k, act);
      StepKeeps(box, k.w, WorldAct(k, act).value);
    }
    NextHoldsWorld(box, caps, k, act);
    hide Safe, Orderly, Next;
  }

  lemma NextHoldsWorld(box: SecretBox, caps: Caps, k: Client, act: Act)
    requires ClientEnabled(box, caps, k, act) && |NextWorld(box, caps, k, act).sides| == 2
    ensures Next(box, caps, k, act).w == NextWorld(box, caps, k, act)
  {
    hide ClientEnabled, NextWorld;
  }

  lemma {:induction false} ClientRunKeeps(box: SecretBox, caps: Caps, k: Client, acts: seq<Act>)
    requires Correct(box) && ClientInv(box, k) && ClientRuns(box, caps, k, acts)
    ensures ClientInv(box, ClientAfter(box, caps, k, acts))
    decreases |acts|
  {
    hide ClientInv, ClientEnabled, Next, NextWorld;
    if acts != [] {
      ClientStepKeeps(box, caps, k, acts[0]);
      ClientRunKeeps(box, caps, Next(box, caps, k, acts[0]), acts[1..]);
    }
  }

  /** The client with its supervisor, over every run and for any queue capacities: delivery is
      exactly once and in order both ways without assuming anything of its recovers, and
      `SocketDown` events strictly alternate with successful recovers. */
  lemma ClientExactlyOnce(box: SecretBox, caps: Caps, now: int, acts: seq<Act>)
    requires Correct(box) && ClientRuns(box, caps, NewClient(now), acts)
    ensures var k := ClientAfter(box, caps, NewClient(now), acts);
            && |k.w.sides| == 2
            && k.w.sides[0].ep.delivered <= k.w.sides[1].ep.accepted
            && k.w.sides[1].ep.delivered <= k.w.sides[0].ep.accepted
            && !k.w.sides[0].ep.mismatch && !k.w.sides[1].ep.mismatch
            && (forall j :: 0 <= j < |k.marks| ==> k.marks[j] == if j % 2 == 0 then Down else Up)
  {
    StartInv(box, now);
    NewClientOrderly(now);
    ClientRunKeeps(box, caps, NewClient(now), acts);
    hide ClientAfter, ClientRuns, LivePart, ExchangePart, Books, WellFormed, LogOf;
  }

  /** Over every run of the client: whenever a `Recover` is about to be served, no socket is live,
      the inbox is empty and no `SocketDown` is pending, being sent or queued. */
  lemma SupervisorDiscipline(box: SecretBox, caps: Caps, now: int, acts: seq<Act>, refused: bool, t: int)
    requires Correct(box) && ClientRuns(box, caps, NewClient(now), acts)
    requires var k := ClientAfter(box, caps, NewClient(now), acts);
             ClientEnabled(box, caps, k, ServeCmd(refused, t)) && k.cmds[0].RecoverCmd?
    ensures var k := ClientAfter(box, caps, NewClient(now), acts);
            var e := k.w.sides[0].ep;
            && e.live.None? && e.inbox == [] && !e.downPending
            && !k.pc.SendDown? && Downs(k.events) == 0
  {
    StartInv(box, now);
    NewClientOrderly(now);
    ClientRunKeeps(box, caps, NewClient(now), acts);
    RecoverServedCleanly(box, caps, ClientAfter(box, caps, NewClient(now), acts), refused, t);
    hide *;
  }

  // ---- the discipline is put to use ----

  ghost predicate ClientLeads(box: SecretBox, caps: Caps, k: Client, acts: seq<Act>, k': Client) {
    ClientRuns(box, caps, k, acts) && ClientAfter(box, caps, k, acts) == k'
  }

  lemma {:induction false} ClientLeadsOn(box: SecretBox, caps: Caps, k: Client, acts: seq<Act>, k1: Client, act: Act)
    requires ClientLeads(box, caps, k, acts, k1)
    requires ClientEnabled(box, caps, k1, act) && |NextWorld(box, caps, k1, act).sides| == 2
    ensures ClientLeads(box, caps, k, acts + [act], Next(box, caps, k1, act))
    decreases |acts|
  {
    hide ClientEnabled, NextWorld, Next;
    if acts == [] {
      assert acts + [act] == [act] && [act][0] == act && [act][1..] == [];
      assert ClientLeads(box, caps, Next(box, caps, k1, act), [], Next(box, caps, k1, act));
      assert ClientRuns(box, caps, k1, [act]);
    } else {
      ClientLeadsOn(box, caps, Next(box, caps, k, acts[0]), acts[1..], k1, act);
      assert (acts + [act])[0] == acts[0] && (acts + [act])[1..] == acts[1..] + [act];
    }
  }

  /** A client whose first socket is lost, with a second one connected. */
  function Lost(now: int, downPending: bool): World {
    var e0 := NewEndpoint(0, 1, 0, now).(live := None, outage := Some(0), downPending := downPending);
    World([Side(e0, Serving), Side(NewEndpoint(1, 0, 0, now), Serving)],
          [[Stream([], 0), Stream([], 0)], [Stream([], 0), Stream([], 0)]])
  }

  function Connected(now: int): World {
    World([Side(NewEndpoint(0, 1, 0, now), Serving), Side(NewEndpoint(1, 0, 0, now), Serving)],
          [[Stream([], 0), Stream([], 0)], [Stream([], 0), Stream([], 0)]])
  }

  lemma LosingSteps(box: SecretBox, now: int)
    ensures Enabled(box, Start(now), Connect) && SocketsExist(Start(now))
    ensures Apply(box, Start(now), Connect) == Connected(now)
    ensures Enabled(box, Connected(now), Kill(0)) && SocketsExist(Connected(now))
    ensures Apply(box, Connected(now), Kill(0)) == Lost(now, true)
    ensures Enabled(box, Lost(now, true), ReportDown(0)) && SocketsExist(Lost(now, true))
    ensures Apply(box, Lost(now, true), ReportDown(0)) == Lost(now, false)
    ensures Enabled(box, Lost(now, false), BeginRecover(0, 1)) && SocketsExist(Lost(now, false))
  {
    assert Total([]) == 0;
    hide Write, Tick, Deliver, Catchup, Revive, SealedAt;
  }

  ghost predicate Steps(box: SecretBox, caps: Caps, k: Client, act: Act, k': Client) {
    && ClientEnabled(box, caps, k, act) && |NextWorld(box, caps, k, act).sides| == 2
    && Next(box, caps, k, act) == k'
  }

  /** The client with its first socket lost, at some point of its loop and its supervisor's. */
  function Down0(now: int, reported: bool, pc: ActorPc, sup: SupervisorPc, marks: seq<Mark>): Client {
    Client(Lost(now, !reported), pc, [], [], sup, marks)
  }

  lemma ReportSteps(box: SecretBox, caps: Caps, now: int)
    requires caps.events > 0
    ensures Steps(box, caps, NewClient(now), Outside(Connect), NewClient(now).(w := Connected(now)))
    ensures Steps(box, caps, NewClient(now).(w := Connected(now)), ErrorArm, Down0(now, false, Check, Recv, []))
    ensures Steps(box, caps, Down0(now, false, Check, Recv, []), CheckArm, Down0(now, true, SendDown, Recv, []))
  {
    LosingSteps(box, now);
    hide Possible, Apply, SocketsExist, WellFormed;
  }

  lemma DownSentStep(box: SecretBox, caps: Caps, now: int)
    requires caps.events > 0
    ensures Steps(box, caps, Down0(now, true, SendDown, Recv, []), DownSent,
                  Down0(now, true, Drain, Recv, [Down]).(events := [SocketDown]))
  {
    LosingSteps(box, now);
    hide Possible, Apply, SocketsExist, WellFormed;
    assert [] + [SocketDown] == [SocketDown] && [] + [Down] == [Down];
  }

  lemma QueueSteps(box: SecretBox, caps: Caps, now: int)
    ensures var k := Down0(now, true, Drain, Recv, [Down]).(events := [SocketDown]);
            && Steps(box, caps, k, DrainArm(now), k.(pc := Select))
            && Steps(box, caps, k.(pc := Select), SupRecv, Down0(now, true, Select, Handshake, [Down]))
  {
    LosingSteps(box, now);
    hide Possible, Apply, SocketsExist, WellFormed;
    assert [SocketDown][1..] == [];
  }

  lemma ReturnSteps(box: SecretBox, caps: Caps, now: int)
    requires caps.cmds > 0
    ensures var k := Down0(now, true, Select, Queueing(1), [Down]);
            && Steps(box, caps, Down0(now, true, Select, Handshake, [Down]), SupReturning(1), k)
            && Steps(box, caps, k, SupQueues, k.(sup := AwaitReply, cmds := [RecoverCmd(1)]))
            && ClientEnabled(box, caps, k.(sup := AwaitReply, cmds := [RecoverCmd(1)]), ServeCmd(false, now))
  {
    LosingSteps(box, now);
    hide Possible, Apply, SocketsExist, WellFormed;
    assert [] + [RecoverCmd(1)] == [RecoverCmd(1)];
  }

  /** The situation of `SupervisorDiscipline` does arise: a lost socket leads through the report, the
      queue and the supervisor's handshake to a `Recover` that the actor can serve. */
  lemma RecoverArises(box: SecretBox, caps: Caps, now: int) returns (acts: seq<Act>)
    requires caps.cmds > 0 && caps.events > 0
    ensures ClientRuns(box, caps, NewClient(now), acts)
    ensures var k := ClientAfter(box, caps, NewClient(now), acts);
            ClientEnabled(box, caps, k, ServeCmd(false, now)) && k.cmds[0].RecoverCmd?
  {
    ReportSteps(box, caps, now);
    DownSentStep(box, caps, now);
    QueueSteps(box, caps, now);
    ReturnSteps(box, caps, now);
    var k0 := NewClient(now);
    var k1, k2 := k0.(w := Connected(now)), Down0(now, false, Check, Recv, []);
    var k3, k4 := Down0(now, true, SendDown, Recv, []), Down0(now, true, Drain, Recv, [Down]).(events := [SocketDown]);
    var k5, k6 := k4.(pc := Select), Down0(now, true, Select, Handshake, [Down]);
    var k7 := Down0(now, true, Select, Queueing(1), [Down]);
    assert ClientLeads(box, caps, k0, [], k0);
    hide ClientEnabled, NextWorld, Next;
    acts := [];
    ClientLeadsOn(box, caps, k0, acts, k0, Outside(Connect));
    acts := acts + [Outside(Connect)];
    ClientLeadsOn(box, caps, k0, acts, k1, ErrorArm);
    acts := acts + [ErrorArm];
    ClientLeadsOn(box, caps, k0, acts, k2, CheckArm);
    acts := acts + [CheckArm];
    ClientLeadsOn(box, caps, k0, acts, k3, DownSent);
    acts := acts + [DownSent];
    ClientLeadsOn(box, caps, k0, acts, k4, DrainArm(now));
    acts := acts + [DrainArm(now)];
    ClientLeadsOn(box, caps, k0, acts, k5, SupRecv);
    acts := acts + [SupRecv];
    ClientLeadsOn(box, caps, k0, acts, k6, SupReturning(1));
    acts := acts + [SupReturning(1)];
    ClientLeadsOn(box, caps, k0, acts, k7, SupQueues);
    acts := acts + [SupQueues];
  }
}
