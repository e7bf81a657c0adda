/** What the keepalive timer may and must do to a socket, told from the history of what was sent
    and delivered rather than from the two fields the code keeps for it. */
module Keepalives {
  import opened Bytes
  import opened Crypto
  import opened Endpoints

  datatype Mark = Connected | Wrote | Pinged | Got(header: Byte)

  datatype Entry = Entry(at: int, what: Mark)

  /** An endpoint with a clock and the history of its sockets. */
  datatype Watch = Watch(e: Endpoint, now: int, history: seq<Entry>)

  datatype Op =
    | WriteOp(m: Msg, refused: bool)
    | TickOp(refused: bool)
    | ArriveOp(bytes: ByteString)
    | DeliverOp
    | KillOp
    | ReportOp
    | RecoverOp(entries: seq<ByteString>, socket: nat)
    | StopOp

  datatype Timed = Timed(at: int, op: Op)

  /** Time does not run backwards, and recovers come only without a live socket. */
  ghost predicate Allowed(k: Watch, t: Timed) {
    && WellFormed(k.e) && k.now <= t.at
    && (t.op.DeliverOp? ==> k.e.inbox != [])
    && (t.op.RecoverOp? ==> k.e.live.None?)
  }

  /** The timer sends a ping: the socket has been quiet for a period and no ping is out. */
  predicate TimerPings(e: Endpoint, period: nat, now: int) {
    e.live.Some? && !e.shuttingDown && now - e.lastActivity >= period && !e.waiting
  }

  ghost function Step(box: SecretBox, period: nat, k: Watch, t: Timed): Watch
    requires Allowed(k, t)
  {
    var e, later := k.e, k.(now := t.at);
    match t.op
    case WriteOp(m, refused) =>
      var k' := later.(e := Write(e, m, refused, t.at).0);
      if e.live.None? || WriteRefused(e, m) then k' else k'.(history := k.history + [Entry(t.at, Wrote)])
    case TickOp(refused) =>
      var k' := later.(e := Tick(e, Some(period), refused, t.at));
      if TimerPings(e, period, t.at) then k'.(history := k.history + [Entry(t.at, Pinged)]) else k'
    case ArriveOp(bytes) => later.(e := e.(inbox := e.inbox + [bytes]))
    case DeliverOp =>
      var (e', d) := Deliver(box, e, t.at);
      if d.Mismatch? then later.(e := e')
      else later.(e := e', history := k.history + [Entry(t.at, Got(d.m.header))])
    case KillOp => later.(e := CloseSocket(e))
    case ReportOp => later.(e := e.(downPending := false))
    case RecoverOp(entries, socket) =>
      later.(e := Revive(e, entries, socket, t.at), history := k.history + [Entry(t.at, Connected)])
    case StopOp => later.(e := e.(shuttingDown := true))
  }

  function NewWatch(outMsb: Byte, inMsb: Byte, socket: nat, now: int): Watch {
    Watch(NewEndpoint(outMsb, inMsb, socket, now), now, [Entry(now, Connected)])
  }

  ghost predicate Runs(box: SecretBox, period: nat, k: Watch, run: seq<Timed>)
    decreases |run|
  {
    run == [] || (Allowed(k, run[0]) && Runs(box, period, Step(box, period, k, run[0]), run[1..]))
  }

  ghost function After(box: SecretBox, period: nat, k: Watch, run: seq<Timed>): Watch
    requires Runs(box, period, k, run)
    decreases |run|
  {
    if run == [] then k else After(box, period, Step(box, period, k, run[0]), run[1..])
  }

  // ---- soundness ----

  /** A ping went out on the socket in use and nothing since then answered it. */
  ghost predicate Unanswered(history: seq<Entry>) {
    exists j :: && 0 <= j < |history| && history[j].what.Pinged?
                && NothingAfter(history, j)
  }

  /** Neither an echo nor a new socket after position `j`. */
  predicate NothingAfter(history: seq<Entry>, j: nat) {
    forall i :: j < i < |history| ==>
      !history[i].what.Connected? && history[i].what != Got(KEEP_ALIVE)
  }

  ghost predicate Tracks(k: Watch) {
    && WellFormed(k.e)
    && k.e.lastActivity <= k.now
    && (forall j :: 0 <= j < |k.history| ==> k.history[j].at <= k.e.lastActivity)
    && (k.e.waiting ==> Unanswered(k.history))
  }

  lemma StillUnanswered(history: seq<Entry>, x: Entry)
    requires Unanswered(history) && !x.what.Connected? && x.what != Got(KEEP_ALIVE)
    ensures Unanswered(history + [x])
  {
    var j :| 0 <= j < |history| && history[j].what.Pinged? && NothingAfter(history, j);
    assert NothingAfter(history + [x], j);
    assert (history + [x])[j].what.Pinged?;
  }

  lemma JustPinged(history: seq<Entry>, at: int)
    ensures Unanswered(history + [Entry(at, Pinged)])
  {
    assert (history + [Entry(at, Pinged)])[|history|].what.Pinged?;
    assert NothingAfter(history + [Entry(at, Pinged)], |history|);
  }

  /** What writing does to the two fields of the timer. */
  lemma WriteTimer(e: Endpoint, m: Msg, refused: bool, now: int)
    requires WellFormed(e)
    ensures var e' := Write(e, m, refused, now).0;
            && e'.lastActivity == (if e.live.None? || WriteRefused(e, m) then e.lastActivity else now)
            && (e'.waiting ==> e.waiting)
  {
    hide Trimmed, WellFormed, WriteRefused;
  }

  lemma TickTimer(e: Endpoint, period: nat, refused: bool, now: int)
    requires WellFormed(e)
    ensures var e' := Tick(e, Some(period), refused, now);
            && e'.lastActivity == (if TimerPings(e, period, now) then now else e.lastActivity)
            && (e'.waiting ==> e.waiting || TimerPings(e, period, now))
  {
    if TimerPings(e, period, now) {
      PingKeeps(e, now);
      var pinged := e.(waiting := true, lastActivity := now);
      WriteTimer(pinged, Msg(KEEP_ALIVE, []), refused, now);
    }
    hide Write, WellFormed;
  }

  lemma StepWellFormed(box: SecretBox, period: nat, k: Watch, t: Timed)
    requires Allowed(k, t)
    ensures WellFormed(Step(box, period, k, t).e)
  {
    match t.op {
      case WriteOp(m, refused) => WriteKeeps(k.e, m, refused, t.at);
      case TickOp(refused) => TickKeeps(k.e, Some(period), refused, t.at);
      case DeliverOp => DeliverKeeps(box, k.e, t.at);
      case KillOp => CloseKeeps(k.e);
      case _ =>
    }
    hide Write, Tick, CloseSocket, Deliver, Total;
  }

  lemma StepTracks(box: SecretBox, period: nat, k: Watch, t: Timed)
    requires Tracks(k) && Allowed(k, t)
    ensures Tracks(Step(box, period, k, t))
  {
    var k' := Step(box, period, k, t);
    StepWellFormed(box, period, k, t);
    match t.op {
      case WriteOp(m, refused) => WriteTimer(k.e, m, refused, t.at);
      case TickOp(refused) => TickTimer(k.e, period, refused, t.at);
      case _ =>
    }
    JustPinged(k.history, t.at);
    if k.e.waiting && k'.history != k.history && k'.e.waiting {
      StillUnanswered(k.history, k'.history[|k.history|]);
    }
    hide Unanswered, Write, Tick, Opened, WriteRefused;
  }

  lemma {:induction false} RunTracks(box: SecretBox, period: nat, k: Watch, run: seq<Timed>)
    requires Tracks(k) && Runs(box, period, k, run)
    ensures Tracks(After(box, period, k, run))
    decreases |run|
  {
    hide Tracks, Step, Allowed;
    if run != [] {
      StepTracks(box, period, k, run[0]);
      RunTracks(box, period, Step(box, period, k, run[0]), run[1..]);
    }
  }

  /** Whenever the timer closes a socket, in any run: a ping went out on this very socket, no echo
      and no other socket came after it, and for a full period nothing was sent or delivered. */
  lemma ClosedOnlyIfSilent(
      box: SecretBox, period: nat, outMsb: Byte, inMsb: Byte, socket: nat, start: int, run: seq<Timed>, now: int)
    requires Runs(box, period, NewWatch(outMsb, inMsb, socket, start), run)
    requires var k := After(box, period, NewWatch(outMsb, inMsb, socket, start), run);
             && k.now <= now && WellFormed(k.e)
             && k.e.live.Some? && Tick(k.e, Some(period), false, now).live.None?
    ensures var k := After(box, period, NewWatch(outMsb, inMsb, socket, start), run);
            && Unanswered(k.history)
            && (forall j :: 0 <= j < |k.history| ==> now - k.history[j].at >= period)
  {
    RunTracks(box, period, NewWatch(outMsb, inMsb, socket, start), run);
    var k := After(box, period, NewWatch(outMsb, inMsb, socket, start), run);
    hide Unanswered, Runs, After;
  }

  // ---- the bound ----

  datatype TickAt = TickAt(at: int, refused: bool)

  /** Each tick comes at most `gap` after the one before it. */
  predicate Steady(clock: int, ticks: seq<TickAt>, gap: nat)
    decreases |ticks|
  {
    ticks == [] || (clock <= ticks[0].at <= clock + gap && Steady(ticks[0].at, ticks[1..], gap))
  }

  ghost predicate TicksRun(e: Endpoint, period: nat, ticks: seq<TickAt>)
    decreases |ticks|
  {
    && WellFormed(e)
    && (ticks != [] ==> TicksRun(Tick(e, Some(period), ticks[0].refused, ticks[0].at), period, ticks[1..]))
  }

  ghost function TickAll(e: Endpoint, period: nat, ticks: seq<TickAt>): Endpoint
    requires TicksRun(e, period, ticks)
    decreases |ticks|
  {
    if ticks == [] then e
    else TickAll(Tick(e, Some(period), ticks[0].refused, ticks[0].at), period, ticks[1..])
  }

  lemma {:induction false} TicksAlwaysRun(e: Endpoint, period: nat, ticks: seq<TickAt>)
    requires WellFormed(e)
    ensures TicksRun(e, period, ticks)
    decreases |ticks|
  {
    hide WellFormed, Tick;
    if ticks != [] {
      TickKeeps(e, Some(period), ticks[0].refused, ticks[0].at);
      TicksAlwaysRun(Tick(e, Some(period), ticks[0].refused, ticks[0].at), period, ticks[1..]);
    }
  }

  lemma {:induction false} StaysClosed(e: Endpoint, period: nat, ticks: seq<TickAt>)
    requires TicksRun(e, period, ticks) && e.live.None?
    ensures TickAll(e, period, ticks).live.None?
    decreases |ticks|
  {
    hide WellFormed, Write, CloseSocket;
    if ticks != [] {
      StaysClosed(e, period, ticks[1..]);
    }
  }

  /** With a ping out, the first tick a period later closes the socket. */
  lemma {:induction false} PingedCloses(e: Endpoint, period: nat, ticks: seq<TickAt>)
    requires TicksRun(e, period, ticks) && ticks != []
    requires e.waiting && e.live.Some? && !e.shuttingDown
    requires ticks[|ticks| - 1].at >= e.lastActivity + period
    ensures TickAll(e, period, ticks).live.None?
    decreases |ticks|
  {
    hide WellFormed, Write;
    var e' := Tick(e, Some(period), ticks[0].refused, ticks[0].at);
    if e'.live.None? {
      StaysClosed(e', period, ticks[1..]);
    } else {
      PingedCloses(e', period, ticks[1..]);
    }
  }

  /** A ping leaves the socket closed or the timer waiting from now on. */
  lemma PingWaits(e: Endpoint, period: nat, refused: bool, now: int)
    requires WellFormed(e) && TimerPings(e, period, now)
    ensures var e' := Tick(e, Some(period), refused, now);
            e'.live.None? || (e'.waiting && e'.live.Some? && !e'.shuttingDown && e'.lastActivity == now)
  {
    PingKeeps(e, now);
    hide WellFormed, Trimmed;
  }

  lemma {:induction false} QuietCloses(e: Endpoint, period: nat, ticks: seq<TickAt>, clock: int, gap: nat, latest: int)
    requires TicksRun(e, period, ticks) && ticks != [] && Steady(clock, ticks, gap)
    requires e.live.Some? && !e.shuttingDown
    requires e.lastActivity + period + period + gap <= latest && clock + period + gap <= latest
    requires ticks[|ticks| - 1].at > latest
    ensures TickAll(e, period, ticks).live.None?
    decreases |ticks|
  {
    var e', rest := Tick(e, Some(period), ticks[0].refused, ticks[0].at), ticks[1..];
    if e.waiting {
      PingedCloses(e, period, ticks);
    } else if TimerPings(e, period, ticks[0].at) {
      PingWaits(e, period, ticks[0].refused, ticks[0].at);
      if e'.live.None? {
        StaysClosed(e', period, rest);
      } else {
        PingedCloses(e', period, rest);
      }
    } else {
      QuietCloses(e', period, rest, ticks[0].at, gap, latest);
    }
  }

  /** With ticks at most `gap` apart from `start` on, and nothing sent or delivered, any socket is
      closed at the latest by the first tick after `start` plus two periods and a gap: within
      two periods and two gaps, whether or not a ping was already out. */
  lemma SilentSocketClosed(e: Endpoint, period: nat, ticks: seq<TickAt>, start: int, gap: nat)
    requires WellFormed(e) && e.live.Some? && !e.shuttingDown && e.lastActivity <= start
    requires Steady(start, ticks, gap)
    requires ticks != [] && ticks[|ticks| - 1].at > start + 2 * period + gap
    ensures TicksRun(e, period, ticks) && TickAll(e, period, ticks).live.None?
  {
    TicksAlwaysRun(e, period, ticks);
    QuietCloses(e, period, ticks, start, gap, start + 2 * period + gap);
  }
}
