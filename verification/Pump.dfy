/** The four tasks of a session with port forwarding and the bounded queues that join them: the
    backed actor, the reconnect supervisor, the pump inside `next_event` and the engine. What the
    packets say does not matter here, only who waits for whom. */
module Pumps {
  datatype Event = PacketEvent(tunnel: bool) | DownEvent | DeadEvent

  /** `PumpWrite` is the write the pump waits for; `OtherWrite` comes from elsewhere. */
  datatype Cmd = PumpWrite | OtherWrite | RecoverCmd | ShutdownCmd

  /** `Parked` waits for room for an event and serves commands meanwhile; `Dying` has left its loop
      and tries, for a bounded time, to put its last event on the queue. */
  datatype Actor = Serving | Parked(event: Event) | Exchanging(parked: seq<Event>) | Dying | Ended

  /** `Reporting` passes on that the session is dead; `Closing` then shuts the actor down. */
  datatype Supervisor =
    | Recv
    | Forwarding(tunnel: bool)
    | Connecting
    | Queueing
    | Awaiting
    | Reporting(closes: bool)
    | Closing
    | Gone

  /** `Writing` and `AwaitingReply` remember whether a packet is still to be delivered. */
  datatype Pump = Waiting | Delivering | Writing(holds: bool) | AwaitingReply(holds: bool) | WithOwner

  /** `Stalled` waits for a local connection that does not read; `Halted` has stopped. */
  datatype Engine = Ready | Sending(frames: nat) | Stalled | Halted

  datatype Caps = Caps(cmds: nat, events: nat, client: nat, inbound: nat, outbound: nat)

  datatype Net = Net(
    live: bool,                 // a socket is in use
    inbox: seq<Event>,
    actor: Actor,
    cmds: seq<Cmd>,
    events: seq<Event>,
    sup: Supervisor,
    client: seq<bool>,          // for the session: does the packet belong to a tunnel?
    pump: Pump,
    inbound: nat,               // packets waiting for the engine
    engine: Engine,
    outbound: nat,              // frames waiting for the pump
    local: nat)                 // reads and accepts waiting for the engine

  datatype Step =
    // the actor
    | ServeCmd
    | TakeInbox
    | SendEvent
    | SendDead
    // the supervisor
    | SupRecv
    | SupForward
    | SupQueue
    | SupGivesUp
    | SupReports
    | SupCloses
    // the pump
    | PumpFrame
    | PumpEvent
    | PumpHands
    | PumpTick
    | PumpSubmits
    | PumpAbandons
    | OwnerReturns
    // the engine
    | EngineInbound(frames: nat, stalls: bool)
    | EngineLocal(frames: nat)
    | EngineSends

  predicate OfPumpOrEngine(step: Step) {
    || step.PumpFrame? || step.PumpEvent? || step.PumpHands? || step.PumpTick? || step.PumpSubmits?
    || step.PumpAbandons? || step.OwnerReturns? || step.EngineInbound? || step.EngineLocal? || step.EngineSends?
  }

  /** Back to the packet it was delivering, or to waiting. */
  function Resumed(holds: bool): Pump {
    if holds then Delivering else Waiting
  }

  /** What the session can tell of its end: its event stream closes when the supervisor is gone. */
  predicate SessionEnded(n: Net) {
    n.sup.Gone?
  }

  predicate Enabled(caps: Caps, n: Net, step: Step) {
    match step
    case ServeCmd => n.cmds != [] && (n.actor.Serving? || n.actor.Parked?)
    case TakeInbox => n.actor.Serving? && n.inbox != []
    case SendEvent => n.actor.Parked? && (|n.events| < caps.events || n.sup.Gone?)
    case SendDead => n.actor.Dying? && (|n.events| < caps.events || n.sup.Gone?)
    case SupRecv => n.sup.Recv? && (n.events != [] || n.actor.Ended?)
    case SupForward => n.sup.Forwarding? && |n.client| < caps.client
    case SupQueue => n.sup.Queueing? && |n.cmds| < caps.cmds && !n.actor.Ended?
    case SupGivesUp => (n.sup.Queueing? || n.sup.Awaiting?) && n.actor.Ended?
    case SupReports => n.sup.Reporting? && |n.client| < caps.client
    case SupCloses => n.sup.Closing? && (|n.cmds| < caps.cmds || n.actor.Ended?)
    case PumpFrame => (n.pump.Waiting? || n.pump.Delivering?) && n.outbound > 0
    case PumpEvent => n.pump.Waiting? && n.client != []
    case PumpHands => n.pump.Delivering? && (n.inbound < caps.inbound || n.engine.Halted?)
    case PumpTick => n.pump.Delivering? && SessionEnded(n)
    case PumpSubmits => n.pump.Writing? && |n.cmds| < caps.cmds && !n.actor.Ended?
    case PumpAbandons => (n.pump.Writing? || n.pump.AwaitingReply?) && n.actor.Ended?
    case OwnerReturns => n.pump.WithOwner?
    case EngineInbound(frames, _) => n.engine.Ready? && n.inbound > 0 && frames <= 1
    case EngineLocal(frames) => n.engine.Ready? && n.local > 0 && frames <= 2
    case EngineSends => n.engine.Sending? && n.engine.frames > 0 && n.outbound < caps.outbound
  }

  function Busy(frames: nat, stalls: bool): Engine {
    if stalls then Stalled else if frames == 0 then Ready else Sending(frames)
  }

  function Served(n: Net): Net
    requires n.cmds != []
  {
    var n' := n.(cmds := n.cmds[1..]);
    match n.cmds[0]
    case PumpWrite => if n.pump.AwaitingReply? then n'.(pump := Resumed(n.pump.holds)) else n'
    case OtherWrite => n'
    case RecoverCmd => n'.(actor := Exchanging(if n.actor.Parked? then [n.actor.event] else []))
    case ShutdownCmd => Over(n)
  }

  /** The actor leaves its loop. */
  function Over(n: Net): Net {
    n.(actor := Dying, inbox := [], live := false)
  }

  /** The actor is gone: its queue closes and every answer it still owed is an error. */
  function Finished(n: Net): Net {
    n.(actor := Ended, cmds := [])
  }

  function Next(caps: Caps, n: Net, step: Step): Net
    requires Enabled(caps, n, step)
  {
    match step
    case ServeCmd => Served(n)
    case TakeInbox => n.(actor := Parked(n.inbox[0]), inbox := n.inbox[1..])
    case SendEvent =>
      if !n.sup.Gone? then n.(actor := Serving, events := n.events + [n.actor.event])
      else if n.actor.event.DownEvent? then Over(n) else n.(actor := Serving)
    case SendDead => Finished(if n.sup.Gone? then n else n.(events := n.events + [DeadEvent]))
    case SupRecv =>
      if n.events == [] then n.(sup := Gone)
      else
        var n' := n.(events := n.events[1..]);
        (match n.events[0]
         case PacketEvent(tunnel) => n'.(sup := Forwarding(tunnel))
         case DownEvent => n'.(sup := Connecting)
         case DeadEvent => n'.(sup := Reporting(false)))
    case SupForward => n.(sup := Recv, client := n.client + [n.sup.tunnel])
    case SupQueue => n.(sup := Awaiting, cmds := n.cmds + [RecoverCmd])
    case SupGivesUp => n.(sup := Connecting)
    case SupReports => n.(client := n.client + [false], sup := if n.sup.closes then Closing else Gone)
    case SupCloses => n.(cmds := if n.actor.Ended? then n.cmds else n.cmds + [ShutdownCmd], sup := Gone)
    case PumpFrame => n.(outbound := n.outbound - 1, pump := Writing(n.pump.Delivering?))
    case PumpEvent =>
      n.(client := n.client[1..],
         pump := if !n.client[0] then WithOwner else if SessionEnded(n) then Waiting else Delivering)
    case PumpHands => n.(inbound := if n.engine.Halted? then n.inbound else n.inbound + 1, pump := Waiting)
    case PumpTick => n.(pump := Waiting)
    case PumpSubmits => n.(cmds := n.cmds + [PumpWrite], pump := AwaitingReply(n.pump.holds))
    case PumpAbandons => n.(pump := Resumed(n.pump.holds))
    case OwnerReturns => n.(pump := Waiting)
    case EngineInbound(frames, stalls) => n.(inbound := n.inbound - 1, engine := Busy(frames, stalls))
    case EngineLocal(frames) => n.(local := n.local - 1, engine := Busy(frames, false))
    case EngineSends => n.(outbound := n.outbound + 1, engine := Busy(n.engine.frames - 1, false))
  }

  /** What comes from outside: the socket, which is heard of until it is lost, the local connections,
      other writers, and time. */
  datatype Input =
    | Arrives(event: Event)
    | LocalEvent
    | OtherCmd(cmd: Cmd)
    | ExchangeEnds(ok: bool)
    | HandshakeEnds(next: Supervisor)
    | StallEnds
    | EngineStops
    | Mismatch
    | DeadTimesOut

  predicate Possible(caps: Caps, n: Net, i: Input) {
    match i
    case Arrives(event) => n.live && !n.actor.Ended? && !n.actor.Dying? && !event.DeadEvent?
    case LocalEvent => !n.engine.Halted?
    case OtherCmd(cmd) => |n.cmds| < caps.cmds && !n.actor.Ended? && (cmd.OtherWrite? || cmd.ShutdownCmd?)
    case ExchangeEnds(_) => n.actor.Exchanging? && n.sup.Awaiting?
    case HandshakeEnds(next) => n.sup.Connecting? && (next.Connecting? || next.Queueing? || next == Reporting(true))
    case StallEnds => n.engine.Stalled?
    case EngineStops => true
    case Mismatch => n.actor.Serving?
    case DeadTimesOut => n.actor.Dying?
  }

  function Outside(n: Net, i: Input): Net {
    match i
    case Arrives(event) => n.(inbox := n.inbox + [event], live := !event.DownEvent?)
    case LocalEvent => n.(local := n.local + 1)
    case OtherCmd(cmd) => n.(cmds := n.cmds + [cmd])
    case ExchangeEnds(ok) =>
      if !n.actor.Exchanging? then n
      else n.(actor := if n.actor.parked == [] then Serving else Parked(n.actor.parked[0]),
              sup := if ok then Recv else Connecting,
              live := ok)
    case HandshakeEnds(next) => n.(sup := next)
    case StallEnds => n.(engine := Ready)
    case EngineStops => n.(engine := Halted, inbound := 0, local := 0)
    case Mismatch => Over(n)
    case DeadTimesOut => Finished(n)
  }

  const START := Net(true, [], Serving, [], [], Recv, [], Waiting, 0, Ready, 0, 0)

  // ---- who waits for an answer ----

  predicate Holds(cmds: seq<Cmd>, cmd: Cmd) {
    exists i :: 0 <= i < |cmds| && cmds[i] == cmd
  }

  /** Whoever waits for an answer has asked for it; an engine that sends has something to send. */
  predicate Inv(n: Net) {
    && (n.pump.AwaitingReply? && !n.actor.Ended? ==> Holds(n.cmds, PumpWrite))
    && (n.sup.Awaiting? && !n.actor.Ended? ==> n.actor.Exchanging? || Holds(n.cmds, RecoverCmd))
    && (n.engine.Sending? ==> n.engine.frames > 0)
    && (n.actor.Exchanging? ==> |n.actor.parked| <= 1)
    && Once(n.cmds)
    && (Holds(n.cmds, PumpWrite) ==> n.pump.AwaitingReply?)
    && (Holds(n.cmds, RecoverCmd) || n.actor.Exchanging? ==> n.sup.Awaiting?)
    && (n.actor.Exchanging? ==> !Holds(n.cmds, RecoverCmd))
    && (n.actor.Dying? ==> n.inbox == [])
    && (n.actor.Ended? ==> n.cmds == [] && n.inbox == [])
    && (n.sup == Reporting(false) || DeadEvent in n.events ==> n.actor.Ended?)
    && ((n.actor.Parked? ==> !n.actor.event.DeadEvent?) && DeadEvent !in n.inbox)
    && (n.actor.Exchanging? ==> DeadEvent !in n.actor.parked)
    && (n.sup.Gone? ==> n.actor.Dying? || n.actor.Ended? || Holds(n.cmds, ShutdownCmd))
    && (n.engine.Halted? ==> n.inbound == 0 && n.local == 0)
  }

  /** Neither the pump nor the supervisor has asked twice. */
  predicate Once(cmds: seq<Cmd>) {
    forall i, j :: 0 <= i < j < |cmds| && cmds[i] == cmds[j] ==> !cmds[i].PumpWrite? && !cmds[i].RecoverCmd?
  }

  lemma Asked(cmds: seq<Cmd>, cmd: Cmd, c: Cmd)
    ensures Holds(cmds + [cmd], c) <==> Holds(cmds, c) || c == cmd
    ensures Once(cmds) && (cmd.PumpWrite? || cmd.RecoverCmd? ==> !Holds(cmds, cmd)) ==> Once(cmds + [cmd])
  {
    var more := cmds + [cmd];
    assert more[|cmds|] == cmd && forall i :: 0 <= i < |cmds| ==> more[i] == cmds[i];
  }

  lemma AskedAny(cmds: seq<Cmd>, cmd: Cmd)
    ensures Holds(cmds + [cmd], PumpWrite) <==> Holds(cmds, PumpWrite) || cmd.PumpWrite?
    ensures Holds(cmds + [cmd], RecoverCmd) <==> Holds(cmds, RecoverCmd) || cmd.RecoverCmd?
    ensures Holds(cmds + [cmd], ShutdownCmd) <==> Holds(cmds, ShutdownCmd) || cmd.ShutdownCmd?
    ensures Once(cmds) && (cmd.PumpWrite? || cmd.RecoverCmd? ==> !Holds(cmds, cmd)) ==> Once(cmds + [cmd])
  {
    Asked(cmds, cmd, PumpWrite);
    Asked(cmds, cmd, RecoverCmd);
    Asked(cmds, cmd, ShutdownCmd);
  }

  lemma Answered(cmds: seq<Cmd>, c: Cmd)
    requires cmds != []
    ensures Holds(cmds[1..], c) ==> Holds(cmds, c)
    ensures Holds(cmds, c) ==> cmds[0] == c || Holds(cmds[1..], c)
    ensures Once(cmds) ==> Once(cmds[1..])
    ensures Once(cmds) && (c.PumpWrite? || c.RecoverCmd?) && cmds[0] == c ==> !Holds(cmds[1..], c)
  {
    if Holds(cmds[1..], c) {
      var i :| 0 <= i < |cmds[1..]| && cmds[1..][i] == c;
      assert cmds[i + 1] == c;
    }
    if Holds(cmds, c) && cmds[0] != c {
      var i :| 0 <= i < |cmds| && cmds[i] == c;
      assert cmds[1..][i - 1] == c;
    }
  }

  lemma ServeKeeps(n: Net)
    requires Inv(n) && n.cmds != [] && (n.actor.Serving? || n.actor.Parked?)
    ensures Inv(Served(n))
  {
    Answered(n.cmds, PumpWrite);
    Answered(n.cmds, RecoverCmd);
    Answered(n.cmds, ShutdownCmd);
    NothingAsked();
    hide Holds, Once;
  }

  lemma NothingAsked()
    ensures !Holds([], PumpWrite) && !Holds([], RecoverCmd) && !Holds([], ShutdownCmd) && Once([])
  {
  }

  lemma AskingKeeps(caps: Caps, n: Net, step: Step)
    requires Inv(n) && Enabled(caps, n, step) && (step.SupQueue? || step.SupCloses? || step.PumpSubmits?)
    ensures Inv(Next(caps, n, step))
  {
    AskedAny(n.cmds, match step case SupQueue => RecoverCmd case SupCloses => ShutdownCmd case _ => PumpWrite);
    NothingAsked();
    hide Holds, Once;
  }

  lemma StepKeeps(caps: Caps, n: Net, step: Step)
    requires Inv(n) && Enabled(caps, n, step)
    ensures Inv(Next(caps, n, step))
  {
    if step.ServeCmd? {
      ServeKeeps(n);
    } else if step.SupQueue? || step.SupCloses? || step.PumpSubmits? {
      AskingKeeps(caps, n, step);
    } else {
      NothingAsked();
    }
    hide Holds, Once, Served;
  }

  lemma OutsideKeeps(caps: Caps, n: Net, i: Input)
    requires Inv(n) && Possible(caps, n, i)
    ensures Inv(Outside(n, i))
  {
    if i.OtherCmd? {
      AskedAny(n.cmds, i.cmd);
    }
    NothingAsked();
    hide Holds, Once;
  }

  // ---- the loss of a socket is the last that is heard of it ----

  function InHand(a: Actor): seq<Event> {
    match a
    case Parked(event) => [event]
    case Exchanging(parked) => parked
    case _ => []
  }

  /** What the actor and its queue hold for the supervisor, in order. */
  function Line(n: Net): seq<Event> {
    n.events + InHand(n.actor) + n.inbox
  }

  predicate EndsDown(line: seq<Event>) {
    line != [] && line[|line| - 1].DownEvent? && DownEvent !in line[..|line| - 1]
  }

  /** While the session lives: the supervisor that listens will hear of a loss once, after everything
      else; one that has heard of it finds nothing behind. */
  predicate Lined(n: Net) {
    || n.actor.Dying? || n.actor.Ended?
    || if n.sup.Recv? || n.sup.Forwarding? then
         (if n.live then DownEvent !in Line(n) else EndsDown(Line(n)))
       else !n.live && Line(n) == []
  }

  lemma LineGrows(line: seq<Event>, e: Event)
    requires DownEvent !in line
    ensures if e.DownEvent? then EndsDown(line + [e]) else DownEvent !in line + [e]
  {
    assert (line + [e])[..|line|] == line;
  }

  lemma LineShrinks(line: seq<Event>)
    requires line != []
    ensures DownEvent !in line ==> !line[0].DownEvent? && DownEvent !in line[1..]
    ensures EndsDown(line) && !line[0].DownEvent? ==> EndsDown(line[1..])
    ensures EndsDown(line) && line[0].DownEvent? ==> line[1..] == []
  {
    if EndsDown(line) && |line| > 1 {
      assert line[..|line| - 1][0] == line[0];
      assert line[1..][..|line[1..]| - 1] == line[..|line| - 1][1..];
    }
  }

  lemma LineMoves(n: Net)
    ensures n.actor.Serving? && n.inbox != [] ==>
              Line(n.(actor := Parked(n.inbox[0]), inbox := n.inbox[1..])) == Line(n)
    ensures n.actor.Parked? ==> Line(n.(actor := Serving, events := n.events + [n.actor.event])) == Line(n)
    ensures n.events != [] ==>
              && Line(n) != [] && Line(n)[0] == n.events[0]
              && Line(n)[1..] == Line(n.(events := n.events[1..]))
    ensures n.actor.Parked? ==> Line(n.(actor := Exchanging([n.actor.event]))) == Line(n)
    ensures n.actor.Serving? ==> Line(n.(actor := Exchanging([]))) == Line(n)
  {
  }

  /** A command changes nothing in the line; a recover is served where there is none. */
  lemma ServeLined(n: Net)
    requires Inv(n) && Lined(n) && n.cmds != [] && (n.actor.Serving? || n.actor.Parked?)
    ensures Lined(Served(n))
  {
    LineMoves(n);
    assert n.cmds[0].RecoverCmd? ==> Holds(n.cmds, RecoverCmd);
    hide Holds, Once, EndsDown;
  }

  lemma HeardLined(caps: Caps, n: Net)
    requires Inv(n) && Lined(n) && Enabled(caps, n, SupRecv)
    ensures Lined(Next(caps, n, SupRecv))
  {
    if n.events != [] && !n.actor.Dying? && !n.actor.Ended? {
      var line, n' := Line(n), Next(caps, n, SupRecv);
      assert n.events[0] in n.events && n'.live == n.live && n'.actor == n.actor;
      LineMoves(n);
      LineShrinks(line);
      assert Line(n') == line[1..];
      hide EndsDown, Line;
    }
    hide Holds, Once;
  }

  lemma ActorLined(caps: Caps, n: Net, step: Step)
    requires Inv(n) && Lined(n) && Enabled(caps, n, step) && (step.TakeInbox? || step.SendEvent? || step.SendDead?)
    ensures Lined(Next(caps, n, step))
  {
    LineMoves(n);
    assert n.actor.Parked? ==> Line(n) != [];
    hide Holds, Once, EndsDown, Line;
  }

  /** The other steps of the supervisor, the pump and the engine leave the line alone. */
  lemma LineStays(caps: Caps, n: Net, step: Step)
    requires Enabled(caps, n, step)
    requires !step.ServeCmd? && !step.SupRecv? && !step.TakeInbox? && !step.SendEvent? && !step.SendDead?
    ensures var n' := Next(caps, n, step);
            n'.live == n.live && n'.actor == n.actor && n'.events == n.events && n'.inbox == n.inbox
  {
  }

  lemma StepLined(caps: Caps, n: Net, step: Step)
    requires Inv(n) && Lined(n) && Enabled(caps, n, step)
    ensures Lined(Next(caps, n, step))
  {
    hide Holds, Once, EndsDown, Served;
    if step.ServeCmd? {
      ServeLined(n);
    } else if step.SupRecv? {
      HeardLined(caps, n);
    } else if step.TakeInbox? || step.SendEvent? || step.SendDead? {
      ActorLined(caps, n, step);
    } else {
      LineStays(caps, n, step);
      assert Line(Next(caps, n, step)) == Line(n) by { hide Next, Enabled; }
      hide Line;
      if OfPumpOrEngine(step) {
        assert Next(caps, n, step).sup == n.sup;
        hide Next;
      }
    }
  }

  lemma OutsideLined(caps: Caps, n: Net, i: Input)
    requires Inv(n) && Lined(n) && Possible(caps, n, i)
    ensures Lined(Outside(n, i))
  {
    hide Holds, Once;
    if i.Arrives? {
      assert Line(Outside(n, i)) == Line(n) + [i.event];
      LineGrows(Line(n), i.event);
    }
    hide EndsDown;
  }

  // ---- nobody waits in a circle ----

  /** The actor and the supervisor have nothing to pass on: one listens to the other, the session is
      over, or a new socket is being dialled, with the commands of the session served meanwhile. */
  predicate NothingComing(n: Net) {
    match n.sup
    case Recv => n.actor.Serving? && n.inbox == [] && n.events == []
    case Connecting => (n.actor.Serving? && n.inbox == [] && n.events == []) || n.actor.Ended?
    case Gone => n.actor.Ended?
    case _ => false
  }

  /** Nothing is on its way anywhere. */
  predicate Quiescent(n: Net) {
    && NothingComing(n) && n.cmds == [] && n.client == [] && n.pump.Waiting?
    && n.inbound == 0 && (n.engine.Ready? || n.engine.Halted?) && n.outbound == 0 && n.local == 0
  }

  /** A local connection does not read. Its engine waits for it, and whoever waits, waits for room
      further down this line and for nobody else: the pump behind a full inbound queue, the
      supervisor behind a full client queue, the actor behind a full event queue. Commands and the
      engine's own frames are all served. */
  predicate Backpressured(caps: Caps, n: Net) {
    && n.engine.Stalled? && n.cmds == [] && n.outbound == 0
    && (|| (n.pump.Waiting? && n.client == [] && NothingComing(n))
        || (&& n.pump.Delivering? && n.inbound >= caps.inbound && !n.sup.Gone?
            && (|| NothingComing(n)
                || (&& (n.sup.Forwarding? || n.sup.Reporting?) && |n.client| >= caps.client
                    && (|| n.actor.Ended?
                        || (n.actor.Serving? && n.inbox == [])
                        || (n.actor.Parked? && |n.events| >= caps.events))))))
  }

  /** The actor waits for the recover exchange, or for room for its last word. Both waits are bounded
      in time. */
  predicate BrieflyAway(n: Net) {
    n.actor.Exchanging? || n.actor.Dying?
  }

  predicate Roomy(caps: Caps) {
    caps.cmds > 0 && caps.events > 0 && caps.client > 0 && caps.inbound > 0 && caps.outbound > 0
  }

  /** Nothing is on its way, or all that is waits for one local connection. */
  predicate AtRest(caps: Caps, n: Net) {
    Quiescent(n) || Backpressured(caps, n)
  }

  /** Whatever the capacities: unless the actor is briefly away, some task can move or all is at
      rest. */
  lemma SomeoneMoves(caps: Caps, n: Net) returns (step: Step)
    requires Roomy(caps) && Inv(n) && Lined(n) && !BrieflyAway(n) && !AtRest(caps, n)
    ensures Enabled(caps, n, step)
  {
    assert n.cmds == [] ==> forall c :: !Holds(n.cmds, c);
    assert n.events != [] || n.actor.Parked? || n.inbox != [] ==> Line(n) != [];
    hide Holds, Once, Lined, Line;
    if n.cmds != [] {
      return ServeCmd;
    }
    match n.pump {
      case WithOwner => return OwnerReturns;
      case AwaitingReply(_) => return PumpAbandons;
      case Writing(_) => return if n.actor.Ended? then PumpAbandons else PumpSubmits;
      case Delivering =>
        if n.outbound > 0 { return PumpFrame; }
        if n.inbound < caps.inbound || n.engine.Halted? { return PumpHands; }
        if n.engine.Ready? { return EngineInbound(0, false); }
        if n.engine.Sending? { return EngineSends; }
        if n.sup.Gone? { return PumpTick; }
        step := AboveThePump(caps, n);
      case Waiting =>
        if n.outbound > 0 { return PumpFrame; }
        if n.client != [] { return PumpEvent; }
        if n.engine.Sending? { return EngineSends; }
        if n.engine.Ready? && n.inbound > 0 { return EngineInbound(0, false); }
        if n.engine.Ready? && n.local > 0 { return EngineLocal(0); }
        step := AboveThePump(caps, n);
    }
  }

  /** The actor and the supervisor, with no command to serve. */
  lemma AboveThePump(caps: Caps, n: Net) returns (step: Step)
    requires Roomy(caps) && Inv(n) && Lined(n) && !BrieflyAway(n) && n.cmds == []
    requires !NothingComing(n)
    requires !((n.sup.Forwarding? || n.sup.Reporting?) && |n.client| >= caps.client
               && (n.actor.Ended? || (n.actor.Serving? && n.inbox == [])
                   || (n.actor.Parked? && |n.events| >= caps.events)))
    ensures Enabled(caps, n, step)
  {
    assert forall c :: !Holds(n.cmds, c);
    assert n.events != [] || n.actor.Parked? || n.inbox != [] ==> Line(n) != [];
    hide Holds, Once, EndsDown, Line;
    if n.actor.Serving? && n.inbox != [] { return TakeInbox; }
    match n.sup {
      case Forwarding(_) => return if |n.client| < caps.client then SupForward else SendEvent;
      case Queueing => return if n.actor.Ended? then SupGivesUp else SupQueue;
      case Awaiting => return SupGivesUp;
      case Reporting(_) => return if |n.client| < caps.client then SupReports else SendEvent;
      case Closing => return SupCloses;
      case Recv => return if n.events != [] || n.actor.Ended? then SupRecv else SendEvent;
      case Connecting => return SendEvent;
      case Gone => return SendEvent;
    }
  }

  // ---- the network drains ----

  /** An actor that lives weighs what its last event will take. */
  function ActorWeight(a: Actor): nat {
    match a
    case Serving => 30
    case Parked(_) => 43
    case Exchanging(parked) => 30 + 13 * |parked|
    case Dying => 13
    case Ended => 0
  }

  /** `Recv` weighs what reporting the end of the session will take. */
  function SupWeight(s: Supervisor): nat {
    match s
    case Recv => 14
    case Forwarding(_) => 24
    case Reporting(_) => 13
    case Queueing => 3
    case Closing => 3
    case Awaiting => 1
    case _ => 0
  }

  function PumpWeight(p: Pump): nat {
    match p
    case Delivering => 8
    case Writing(holds) => if holds then 11 else 3
    case AwaitingReply(holds) => if holds then 9 else 1
    case WithOwner => 1
    case Waiting => 0
  }

  function EngineWeight(e: Engine): nat {
    if e.Sending? then 5 * e.frames else 0
  }

  /** How far everything in the network still has to go. */
  function Weight(n: Net): nat {
    14 * |n.inbox| + ActorWeight(n.actor) + |n.cmds| + 11 * |n.events| + SupWeight(n.sup)
    + 9 * |n.client| + PumpWeight(n.pump) + 7 * n.inbound + EngineWeight(n.engine)
    + 4 * n.outbound + 11 * n.local
  }

  lemma ServeDrains(n: Net)
    requires Inv(n) && n.cmds != [] && (n.actor.Serving? || n.actor.Parked?)
    ensures Weight(Served(n)) < Weight(n)
  {
    hide Holds, Once;
  }

  lemma PumpOrEngineDrains(caps: Caps, n: Net, step: Step)
    requires Enabled(caps, n, step) && OfPumpOrEngine(step)
    ensures Weight(Next(caps, n, step)) < Weight(n)
  {
    hide ActorWeight, SupWeight, Served;
  }

  lemma StepDrains(caps: Caps, n: Net, step: Step)
    requires Inv(n) && Enabled(caps, n, step)
    ensures Weight(Next(caps, n, step)) < Weight(n)
  {
    if step.ServeCmd? {
      ServeDrains(n);
    } else if OfPumpOrEngine(step) {
      PumpOrEngineDrains(caps, n, step);
    }
    hide Holds, Once, Inv, Served, PumpWeight, EngineWeight;
  }

  predicate Runs(caps: Caps, n: Net, run: seq<Step>)
    decreases |run|
  {
    run == [] || (Enabled(caps, n, run[0]) && Runs(caps, Next(caps, n, run[0]), run[1..]))
  }

  function After(caps: Caps, n: Net, run: seq<Step>): Net
    requires Runs(caps, n, run)
    decreases |run|
  {
    if run == [] then n else After(caps, Next(caps, n, run[0]), run[1..])
  }

  lemma {:induction false} RunDrains(caps: Caps, n: Net, run: seq<Step>)
    requires Inv(n) && Lined(n) && Runs(caps, n, run)
    ensures Inv(After(caps, n, run)) && Lined(After(caps, n, run))
    ensures Weight(After(caps, n, run)) + |run| <= Weight(n)
    decreases |run|
  {
    hide Inv, Lined, Enabled, Next, Weight;
    if run != [] {
      StepKeeps(caps, n, run[0]);
      StepLined(caps, n, run[0]);
      StepDrains(caps, n, run[0]);
      RunDrains(caps, Next(caps, n, run[0]), run[1..]);
    }
  }

  /** A history of the whole network: its own steps and what came from outside, in any order. */
  datatype Move = Own(step: Step) | From(input: Input)

  ghost predicate Reaches(caps: Caps, n: Net, moves: seq<Move>, n': Net)
    decreases |moves|
  {
    if moves == [] then n' == n
    else
      match moves[0]
      case Own(step) => Enabled(caps, n, step) && Reaches(caps, Next(caps, n, step), moves[1..], n')
      case From(input) => Possible(caps, n, input) && Reaches(caps, Outside(n, input), moves[1..], n')
  }

  lemma {:induction false} ReachableInv(caps: Caps, n: Net, moves: seq<Move>, n': Net)
    requires Inv(n) && Lined(n) && Reaches(caps, n, moves, n')
    ensures Inv(n') && Lined(n')
    decreases |moves|
  {
    hide Inv, Lined, Enabled, Next, Possible, Outside;
    if moves != [] {
      match moves[0] {
        case Own(step) =>
          StepKeeps(caps, n, step);
          StepLined(caps, n, step);
          ReachableInv(caps, Next(caps, n, step), moves[1..], n');
        case From(input) =>
          OutsideKeeps(caps, n, input);
          OutsideLined(caps, n, input);
          ReachableInv(caps, Outside(n, input), moves[1..], n');
      }
    }
  }

  lemma StartInv()
    ensures Inv(START) && Lined(START)
  {
    NothingAsked();
  }

  /** For any queue capacities, in every state the network can reach, in an outage as at any other
      time: left to itself it makes only finitely many steps, and when it can make no more, nothing is
      on its way anywhere, or all that waits, waits in one line for a local connection that does not
      read, or the actor is at one of its two waits that are bounded in time. It never stands still
      because its tasks wait for each other. */
  lemma NeverStandsStill(caps: Caps, moves: seq<Move>, n: Net, run: seq<Step>)
    requires Roomy(caps) && Reaches(caps, START, moves, n) && Runs(caps, n, run)
    ensures |run| <= Weight(n)
    ensures var n' := After(caps, n, run);
            (forall step :: !Enabled(caps, n', step)) ==> AtRest(caps, n') || BrieflyAway(n')
  {
    StartInv();
    ReachableInv(caps, START, moves, n);
    RunDrains(caps, n, run);
    var n' := After(caps, n, run);
    hide Inv, Lined, Weight, Runs, After, Enabled, Reaches;
    if !AtRest(caps, n') && !BrieflyAway(n') {
      var step := SomeoneMoves(caps, n');
    }
  }

  /** And at rest nothing moves. */
  lemma RestIsStill(caps: Caps, n: Net, step: Step)
    requires Roomy(caps) && AtRest(caps, n)
    ensures !Enabled(caps, n, step)
  {
  }

  // ---- histories ----

  lemma {:induction false} ReachesOn(caps: Caps, n: Net, moves: seq<Move>, n1: Net, more: seq<Move>, n2: Net)
    requires Reaches(caps, n, moves, n1) && Reaches(caps, n1, more, n2)
    ensures Reaches(caps, n, moves + more, n2)
    decreases |moves|
  {
    hide Enabled, Next, Possible, Outside;
    if moves == [] {
      assert moves + more == more;
    } else {
      assert (moves + more)[0] == moves[0] && (moves + more)[1..] == moves[1..] + more;
      match moves[0] {
        case Own(step) => ReachesOn(caps, Next(caps, n, step), moves[1..], n1, more, n2);
        case From(input) => ReachesOn(caps, Outside(n, input), moves[1..], n1, more, n2);
      }
    }
  }

  lemma OneStep(caps: Caps, n: Net, step: Step)
    requires Enabled(caps, n, step)
    ensures Reaches(caps, n, [Own(step)], Next(caps, n, step))
  {
    assert [Own(step)][1..] == [];
    assert Reaches(caps, Next(caps, n, step), [], Next(caps, n, step));
  }

  lemma OneInput(caps: Caps, n: Net, i: Input)
    requires Possible(caps, n, i)
    ensures Reaches(caps, n, [From(i)], Outside(n, i))
  {
    assert [From(i)][1..] == [];
    assert Reaches(caps, Outside(n, i), [], Outside(n, i));
  }

  /** The actor and the supervisor have nothing in hand. */
  predicate Idle(n: Net) {
    n.live && n.actor.Serving? && n.inbox == [] && n.cmds == [] && n.events == [] && n.sup.Recv?
  }

  /** A tunnel packet comes in from the socket and reaches the supervisor. */
  lemma PacketTaken(caps: Caps, n: Net) returns (moves: seq<Move>)
    requires Roomy(caps) && Idle(n)
    ensures Reaches(caps, n, moves, n.(sup := Forwarding(true)))
    ensures Own(PumpFrame) !in moves
  {
    var p := PacketEvent(true);
    var n1, n2, n3 := n.(inbox := [p]), n.(actor := Parked(p)), n.(events := [p]);
    assert [] + [p] == [p] && [p][1..] == [];
    OneInput(caps, n, Arrives(p));
    OneStep(caps, n1, TakeInbox);
    OneStep(caps, n2, SendEvent);
    OneStep(caps, n3, SupRecv);
    hide Reaches, Roomy;
    ReachesOn(caps, n, [From(Arrives(p))], n1, [Own(TakeInbox)], n2);
    ReachesOn(caps, n, [From(Arrives(p))] + [Own(TakeInbox)], n2, [Own(SendEvent)], n3);
    moves := [From(Arrives(p))] + [Own(TakeInbox)] + [Own(SendEvent)];
    ReachesOn(caps, n, moves, n3, [Own(SupRecv)], n.(sup := Forwarding(true)));
    moves := moves + [Own(SupRecv)];
  }

  /** And the client's queue, if there is room. */
  lemma PacketForwarded(caps: Caps, n: Net) returns (moves: seq<Move>)
    requires Roomy(caps) && Idle(n) && |n.client| < caps.client
    ensures Reaches(caps, n, moves, n.(client := n.client + [true]))
    ensures Own(PumpFrame) !in moves
  {
    var n1 := n.(sup := Forwarding(true));
    moves := PacketTaken(caps, n);
    OneStep(caps, n1, SupForward);
    hide Reaches;
    ReachesOn(caps, n, moves, n1, [Own(SupForward)], n.(client := n.client + [true]));
    moves := moves + [Own(SupForward)];
  }

  lemma {:induction false} ClientFilled(caps: Caps, n: Net, k: nat) returns (moves: seq<Move>)
    requires Roomy(caps) && Idle(n) && |n.client| + k <= caps.client
    ensures Reaches(caps, n, moves, n.(client := n.client + seq(k, _ => true)))
    ensures Own(PumpFrame) !in moves
    decreases k
  {
    if k == 0 {
      moves := [];
      assert n.client + seq(0, _ => true) == n.client;
    } else {
      var n1 := n.(client := n.client + [true]);
      var first := PacketForwarded(caps, n);
      var rest := ClientFilled(caps, n1, k - 1);
      hide Reaches;
      assert n1.client + seq(k - 1, _ => true) == n.client + seq(k, _ => true);
      ReachesOn(caps, n, first, n1, rest, n.(client := n.client + seq(k, _ => true)));
      moves := first + rest;
    }
  }

  /** A tunnel packet reaches the pump, which holds it. */
  lemma PacketHeld(caps: Caps, n: Net) returns (moves: seq<Move>)
    requires Roomy(caps) && Idle(n) && n.client == [] && n.pump.Waiting?
    ensures Reaches(caps, n, moves, n.(pump := Delivering))
    ensures Own(PumpFrame) !in moves
  {
    var n1 := n.(client := [true]);
    assert n.client + [true] == [true] && [true][1..] == [];
    moves := PacketForwarded(caps, n);
    OneStep(caps, n1, PumpEvent);
    hide Reaches;
    ReachesOn(caps, n, moves, n1, [Own(PumpEvent)], n.(pump := Delivering));
    moves := moves + [Own(PumpEvent)];
  }

  lemma PacketHanded(caps: Caps, n: Net) returns (moves: seq<Move>)
    requires Roomy(caps) && Idle(n) && n.client == [] && n.pump.Waiting?
    requires n.inbound < caps.inbound && !n.engine.Halted?
    ensures Reaches(caps, n, moves, n.(inbound := n.inbound + 1))
    ensures Own(PumpFrame) !in moves
  {
    var n1 := n.(pump := Delivering);
    moves := PacketHeld(caps, n);
    OneStep(caps, n1, PumpHands);
    hide Reaches;
    ReachesOn(caps, n, moves, n1, [Own(PumpHands)], n.(inbound := n.inbound + 1));
    moves := moves + [Own(PumpHands)];
  }

  /** With an engine that takes nothing, the pump fills its queue and is left holding a packet. */
  lemma {:induction false} InboundFilled(caps: Caps, n: Net) returns (moves: seq<Move>)
    requires Roomy(caps) && Idle(n) && n.client == [] && n.pump.Waiting?
    requires n.inbound <= caps.inbound && !n.engine.Halted?
    ensures Reaches(caps, n, moves, n.(inbound := caps.inbound, pump := Delivering))
    ensures Own(PumpFrame) !in moves
    decreases caps.inbound - n.inbound
  {
    if n.inbound == caps.inbound {
      moves := PacketHeld(caps, n);
    } else {
      var n1 := n.(inbound := n.inbound + 1);
      var first := PacketHanded(caps, n);
      var rest := InboundFilled(caps, n1);
      hide Reaches;
      ReachesOn(caps, n, first, n1, rest, n.(inbound := caps.inbound, pump := Delivering));
      moves := first + rest;
    }
  }

  // ---- a pump that is parked when the session dies ----

  /** The pump holds a packet for a full queue, the engine is stalled and has nothing to send. */
  predicate HeldUp(caps: Caps, n: Net) {
    n.pump.Delivering? && n.inbound >= caps.inbound && n.outbound == 0 && n.engine.Stalled?
  }

  predicate OfPump(step: Step) {
    || step.PumpFrame? || step.PumpEvent? || step.PumpHands? || step.PumpTick? || step.PumpSubmits?
    || step.PumpAbandons? || step.OwnerReturns?
  }

  /** Such a pump can move exactly when the supervisor is gone. */
  lemma ReleasedByTheSupervisor(caps: Caps, n: Net)
    requires HeldUp(caps, n)
    ensures (exists step :: OfPump(step) && Enabled(caps, n, step)) <==> n.sup.Gone?
  {
    if n.sup.Gone? {
      assert OfPump(PumpTick) && Enabled(caps, n, PumpTick);
    }
  }

  /** How many places of the client's queue the supervisor still needs before it goes, if it goes
      without waiting for the network. */
  function OwedFor(events: seq<Event>): (o: int)
    ensures o >= -1
  {
    if events == [] then 0
    else match events[0]
      case DownEvent => -1
      case DeadEvent => 1
      case PacketEvent(_) => if OwedFor(events[1..]) < 0 then -1 else 1 + OwedFor(events[1..])
  }

  function Owed(n: Net): (o: int)
    ensures o >= -1
  {
    match n.sup
    case Gone => 0
    case Closing => 0
    case Reporting(_) => 1
    case Recv => OwedFor(n.events)
    case Forwarding(_) => if OwedFor(n.events) < 0 then -1 else 1 + OwedFor(n.events)
    case _ => -1
  }

  /** What is still to be told fits into the client's queue. */
  predicate LastWordsFit(caps: Caps, n: Net) {
    Owed(n) == 0 || (Owed(n) > 0 && |n.client| + Owed(n) <= caps.client)
  }

  /** The network left to itself gets the supervisor to go. */
  ghost predicate CanRelease(caps: Caps, n: Net) {
    exists run :: Runs(caps, n, run) && After(caps, n, run).sup.Gone?
  }

  /** While the pump is held up only the supervisor moves, and it neither makes nor loses room. */
  lemma HeldStep(caps: Caps, n: Net, step: Step)
    requires HeldUp(caps, n) && n.actor.Ended? && n.cmds == [] && !n.sup.Gone? && Enabled(caps, n, step)
    ensures var n' := Next(caps, n, step);
            && HeldUp(caps, n') && n'.actor.Ended? && n'.cmds == []
            && (LastWordsFit(caps, n') ==> LastWordsFit(caps, n))
  {
  }

  lemma {:induction false} ReleaseFits(caps: Caps, n: Net, run: seq<Step>)
    requires HeldUp(caps, n) && n.actor.Ended? && n.cmds == []
    requires Runs(caps, n, run) && After(caps, n, run).sup.Gone?
    ensures LastWordsFit(caps, n)
    decreases |run|
  {
    if run != [] && !n.sup.Gone? {
      HeldStep(caps, n, run[0]);
      hide Enabled, Next, HeldUp, LastWordsFit;
      ReleaseFits(caps, Next(caps, n, run[0]), run[1..]);
    }
  }

  lemma {:induction false} FitsRelease(caps: Caps, n: Net) returns (run: seq<Step>)
    requires n.actor.Ended? && LastWordsFit(caps, n)
    ensures Runs(caps, n, run) && After(caps, n, run).sup.Gone?
    decreases SupWeight(n.sup) + 11 * |n.events|
  {
    if n.sup.Gone? {
      run := [];
    } else {
      var step := match n.sup
        case Recv => SupRecv
        case Forwarding(_) => SupForward
        case Reporting(_) => SupReports
        case _ => SupCloses;
      var n' := Next(caps, n, step);
      assert LastWordsFit(caps, n');
      var rest := FitsRelease(caps, n');
      run := [step] + rest;
      assert run[0] == step && run[1..] == rest;
    }
  }

  /** A pump that is parked behind a stalled engine when the session dies is let go, without the
      engine, exactly when what the supervisor still has to pass on fits into the client's queue and
      no reconnect lies in the way. The comment at the pump says it always is. */
  lemma ReleasedExactlyWhen(caps: Caps, moves: seq<Move>, n: Net)
    requires Reaches(caps, START, moves, n) && HeldUp(caps, n) && n.actor.Ended?
    ensures CanRelease(caps, n) <==> LastWordsFit(caps, n)
  {
    StartInv();
    ReachableInv(caps, START, moves, n);
    hide Reaches, Lined;
    if LastWordsFit(caps, n) {
      var run := FitsRelease(caps, n);
    }
    hide LastWordsFit, HeldUp;
    if CanRelease(caps, n) {
      var run :| Runs(caps, n, run) && After(caps, n, run).sup.Gone?;
      ReleaseFits(caps, n, run);
    }
  }

  /** The engine takes a packet and stalls on its local connection. */
  lemma EngineStalled(caps: Caps) returns (moves: seq<Move>)
    requires Roomy(caps)
    ensures Reaches(caps, START, moves, START.(engine := Stalled))
  {
    var n1 := START.(inbound := 1);
    moves := PacketHanded(caps, START);
    OneStep(caps, n1, EngineInbound(0, true));
    hide Reaches;
    ReachesOn(caps, START, moves, n1, [Own(EngineInbound(0, true))], START.(engine := Stalled));
    moves := moves + [Own(EngineInbound(0, true))];
  }

  /** Every queue full, the supervisor waiting with one more packet, and then a crypto mismatch. */
  function Dead(caps: Caps): Net {
    START.(live := false, engine := Stalled, inbound := caps.inbound, pump := Delivering,
           client := [] + seq(caps.client, _ => true), sup := Forwarding(true), actor := Dying)
  }

  lemma DeadReached(caps: Caps) returns (moves: seq<Move>)
    requires Roomy(caps)
    ensures Reaches(caps, START, moves, Dead(caps))
  {
    var n1 := START.(engine := Stalled);
    var n2 := n1.(inbound := caps.inbound, pump := Delivering);
    var n3 := n2.(client := [] + seq(caps.client, _ => true));
    var n4 := n3.(sup := Forwarding(true));
    var m1 := EngineStalled(caps);
    var m2 := InboundFilled(caps, n1);
    var m3 := ClientFilled(caps, n2, caps.client);
    var m4 := PacketTaken(caps, n3);
    OneInput(caps, n4, Mismatch);
    hide Reaches;
    ReachesOn(caps, START, m1, n1, m2, n2);
    ReachesOn(caps, START, m1 + m2, n2, m3, n3);
    ReachesOn(caps, START, m1 + m2 + m3, n3, m4, n4);
    ReachesOn(caps, START, m1 + m2 + m3 + m4, n4, [From(Mismatch)], Dead(caps));
    moves := m1 + m2 + m3 + m4 + [From(Mismatch)];
  }

  /** Whatever the capacities, a session can die with its pump held up for as long as the stall
      lasts. */
  lemma DeadSessionHoldsPump(caps: Caps) returns (moves: seq<Move>, n: Net)
    requires Roomy(caps)
    ensures Reaches(caps, START, moves, n) && HeldUp(caps, n) && n.actor.Ended?
    ensures !CanRelease(caps, n)
  {
    n := Finished(Dead(caps).(events := [DeadEvent]));
    var first := DeadReached(caps);
    assert [] + [DeadEvent] == [DeadEvent] && |[] + seq(caps.client, _ => true)| == caps.client;
    OneStep(caps, Dead(caps), SendDead);
    ReachesOn(caps, START, first, Dead(caps), [Own(SendDead)], n);
    moves := first + [Own(SendDead)];
    assert Owed(n) == 2;
    ReleasedExactlyWhen(caps, moves, n);
    hide Reaches, CanRelease;
  }

  // ---- why the pump keeps draining ----

  /** The network without the pump taking frames while it delivers. */
  predicate EnabledWithoutDraining(caps: Caps, n: Net, step: Step) {
    Enabled(caps, n, step) && !(step.PumpFrame? && n.pump.Delivering?)
  }

  /** The engine reads local connections and sends until its queue is full and it holds one more. */
  lemma {:induction false} OutboundFilled(caps: Caps, n: Net) returns (moves: seq<Move>)
    requires Roomy(caps) && n.engine.Ready? && n.local == 0 && n.outbound <= caps.outbound
    ensures Reaches(caps, n, moves, n.(engine := Sending(1), outbound := caps.outbound))
    ensures Own(PumpFrame) !in moves
    decreases caps.outbound - n.outbound
  {
    var n1, n2 := n.(local := 1), n.(engine := Sending(1));
    OneInput(caps, n, LocalEvent);
    OneStep(caps, n1, EngineLocal(1));
    ReachesOn(caps, n, [From(LocalEvent)], n1, [Own(EngineLocal(1))], n2);
    moves := [From(LocalEvent)] + [Own(EngineLocal(1))];
    if n.outbound < caps.outbound {
      var n3 := n.(outbound := n.outbound + 1);
      OneStep(caps, n2, EngineSends);
      hide Reaches;
      ReachesOn(caps, n, moves, n2, [Own(EngineSends)], n3);
      var rest := OutboundFilled(caps, n3);
      ReachesOn(caps, n, moves + [Own(EngineSends)], n3, rest, n.(engine := Sending(1), outbound := caps.outbound));
      moves := moves + [Own(EngineSends)] + rest;
    }
  }

  /** Parking without draining would close a circle for any capacities: the pump waits for the
      engine's queue, the engine for the pump's, and no task can move. With draining, the pump can. */
  lemma ParkingWouldDeadlock(caps: Caps) returns (moves: seq<Move>, n: Net)
    requires Roomy(caps)
    ensures Reaches(caps, START, moves, n) && Own(PumpFrame) !in moves
    ensures forall step :: !EnabledWithoutDraining(caps, n, step)
    ensures !AtRest(caps, n) && !BrieflyAway(n) && Enabled(caps, n, PumpFrame)
  {
    var n1 := START.(engine := Sending(1), outbound := caps.outbound);
    n := n1.(inbound := caps.inbound, pump := Delivering);
    var m1 := OutboundFilled(caps, START);
    var m2 := InboundFilled(caps, n1);
    hide Reaches;
    ReachesOn(caps, START, m1, n1, m2, n);
    moves := m1 + m2;
  }
}
