/** When a side that is down can ever come up again, over all runs and from every state: exactly when
    the exchange it is in can still end well, or each end can answer the other's header and the
    catch-up it needs is within the size a peer will read. */
module Stranding {
  import opened Bytes
  import opened Crypto
  import opened Endpoints
  import opened Sessions
  import opened Resumes
  import Framing

  // ---- what a step does, seen from one side ----

  /** The acting side afterwards. */
  ghost function Acting(box: SecretBox, w: World, a: Action): Side
    requires Shape(w) && SocketsExist(w) && Possible(box, w, a) && !a.Connect?
  {
    var i := a.who;
    var me := w.sides[i];
    match a
    case WriteMsg(_, m, refused, now) => me.(ep := Write(me.ep, m, refused, now).0)
    case KeepaliveTick(_, period, refused, now) => me.(ep := Tick(me.ep, period, refused, now))
    case Kill(_) => me.(ep := CloseSocket(me.ep))
    case ReportDown(_) => me.(ep := me.ep.(downPending := false))
    case Receive(_) =>
      me.(ep := me.ep.(inbox := me.ep.inbox + [Framing.ReadBack(NextItem(w, me.ep.live.value, i).bytes).value]))
    case DeliverNext(_, now) => me.(ep := Deliver(box, me.ep, now).0)
    case BeginRecover(_, c) => me.(mode := AwaitHeader(c))
    case AnswerHeader(_) => me.(mode := AwaitCatchup(me.mode.socket))
    case FinishRecover(_, now) =>
      Side(Revive(me.ep, NextItem(w, me.mode.socket, i).entries, me.mode.socket, now), Serving)
    case AbandonRecover(_) => me.(mode := Serving)
    case StopSession(_) => me.(ep := me.ep.(shuttingDown := true))
  }

  /** The socket whose incoming stream it takes an item from. */
  ghost function Pulled(w: World, a: Action): Option<nat>
    requires |w.sides| == 2 && !a.Connect? && a.who < 2
  {
    var me := w.sides[a.who];
    match a
    case Receive(_) => me.ep.live
    case AnswerHeader(_) => if me.mode.Serving? then None else Some(me.mode.socket)
    case FinishRecover(_, _) => if me.mode.Serving? then None else Some(me.mode.socket)
    case _ => None
  }

  /** A write puts a frame on the socket unless it is refused, buffered or kills the socket. */
  predicate Frames(before: Endpoint, e: Endpoint) {
    before.live.Some? && e.live == before.live && |e.accepted| == |before.accepted| + 1
  }

  /** The socket on whose outgoing stream it puts an item. */
  ghost function Pushed(box: SecretBox, w: World, a: Action): Option<nat>
    requires Shape(w) && SocketsExist(w) && Possible(box, w, a) && !a.Connect?
  {
    var me := w.sides[a.who];
    match a
    case WriteMsg(_, _, _, _) => if Frames(me.ep, Acting(box, w, a).ep) then me.ep.live else None
    case KeepaliveTick(_, _, _, _) => if Frames(me.ep, Acting(box, w, a).ep) then me.ep.live else None
    case BeginRecover(_, c) => Some(c)
    case AnswerHeader(_) => Some(me.mode.socket)
    case _ => None
  }

  /** The frame of the last message accepted. */
  function FrameOf(box: SecretBox, before: Endpoint, e: Endpoint): Item {
    if |before.accepted| < |e.accepted|
    then FrameItem(SealedAt(box, e.outMsb, |before.accepted|, e.accepted[|before.accepted|]))
    else NOTHING
  }

  const NOTHING := HeaderItem(0)

  ghost function ItemOf(box: SecretBox, w: World, a: Action): Item
    requires Shape(w) && SocketsExist(w) && Possible(box, w, a) && !a.Connect?
  {
    var before := w.sides[a.who].ep;
    match a
    case WriteMsg(_, _, _, _) => FrameOf(box, before, Acting(box, w, a).ep)
    case KeepaliveTick(_, _, _, _) => FrameOf(box, before, Acting(box, w, a).ep)
    case BeginRecover(_, _) => HeaderItem(SequenceHeader(before))
    case AnswerHeader(i) =>
      CatchupItem(Catchup(box, before, NextItem(w, w.sides[i].mode.socket, i).seqno).value)
    case _ => NOTHING
  }

  lemma ActingIs(box: SecretBox, w: World, a: Action)
    requires Shape(w) && SocketsExist(w) && Possible(box, w, a) && !a.Connect?
    ensures var w' := Apply(box, w, a); |w'.sides| == 2 && w'.sides[a.who] == Acting(box, w, a)
  {
    hide WellFormed, Write, Tick, Deliver, Catchup, SealedAt, Revive, CloseSocket, SequenceHeader, Framing.ReadBack;
  }

  lemma WritingMoves(box: SecretBox, w: World, a: Action, i: nat, o: nat)
    requires Shape(w) && SocketsExist(w) && Possible(box, w, a) && Ends(i, o)
    requires (a.WriteMsg? || a.KeepaliveTick?) && a.who == i
    requires WellFormed(Acting(box, w, a).ep)
    ensures Moved(w, Apply(box, w, a), i, o, Acting(box, w, a), Pulled(w, a), Pushed(box, w, a), ItemOf(box, w, a))
  {
    var me, item := Acting(box, w, a), ItemOf(box, w, a);
    MovedByWithSide(w, i, o, me, item);
    if Frames(w.sides[i].ep, me.ep) {
      MovedByPush(w, i, o, me, w.sides[i].ep.live.value, item);
    }
    hide WellFormed, Moved, Push, Pull, WithSide, Write, Tick, SealedAt;
  }

  lemma ApplyMoves(box: SecretBox, w: World, a: Action, i: nat, o: nat)
    requires Shape(w) && SocketsExist(w) && Possible(box, w, a) && !a.Connect? && a.who == i && Ends(i, o)
    requires WellFormed(Acting(box, w, a).ep)
    ensures Moved(w, Apply(box, w, a), i, o, Acting(box, w, a), Pulled(w, a), Pushed(box, w, a), ItemOf(box, w, a))
  {
    var me, item := Acting(box, w, a), ItemOf(box, w, a);
    match a {
      case WriteMsg(_, _, _, _) => WritingMoves(box, w, a, i, o);
      case KeepaliveTick(_, _, _, _) => WritingMoves(box, w, a, i, o);
      case Receive(_) => MovedByPull(w, i, o, me, w.sides[i].ep.live.value, item);
      case BeginRecover(_, c) => MovedByPush(w, i, o, me, c, item);
      case AnswerHeader(_) => MovedByBoth(w, i, o, me, w.sides[i].mode.socket, item);
      case FinishRecover(_, _) => MovedByPull(w, i, o, me, w.sides[i].mode.socket, item);
      case _ => MovedByWithSide(w, i, o, me, item);
    }
    hide WellFormed, Moved, Push, Pull, WithSide, Write, Tick, Deliver, Catchup, SealedAt, Revive, CloseSocket,
      SequenceHeader, Framing.ReadBack, Emit, FrameOf;
  }

  /** What every step of a safe session leaves. */
  ghost predicate Fine(e: Endpoint) {
    WellFormed(e) && !e.mismatch
  }

  // ---- being stranded ----

  /** How much an endpoint has received, delivered or not. */
  function Received(e: Endpoint): nat {
    |e.delivered| + |e.inbox|
  }

  /** The sender no longer has what a receiver of `r` packets lacks, or could only send it in a
      catch-up that no peer will read. */
  ghost predicate Hopeless(box: SecretBox, from: Endpoint, r: nat) {
    && r <= |from.accepted|
    && (|| Truncate32(r) < from.floor
        || !CatchupFits(Log(box, from.outMsb, from.accepted)[r..]))
  }

  /** The exchange of a side can end well with what is on the stream: it is answered, with a catch-up
      that is read, and the side can answer the header before it, if it has not. */
  ghost predicate Completes(box: SecretBox, me: Side, st: Stream) {
    && !me.mode.Serving? && |st.sent| >= 2
    && st.sent[1].CatchupItem? && CatchupFits(st.sent[1].entries)
    && (me.mode.AwaitHeader? ==> st.sent[0].HeaderItem? && Catchup(box, me.ep, st.sent[0].seqno).Some?)
  }

  ghost predicate CanFinish(box: SecretBox, w: World, i: nat)
    requires Shape(w) && i < 2
  {
    var me := w.sides[i];
    !me.mode.Serving? && me.mode.socket < |w.wires| && Completes(box, me, w.wires[me.mode.socket][i])
  }

  /** Side `d` is down, cannot finish an exchange it is in, and cannot get more from side `s` than it
      has received. */
  ghost predicate Stranded(box: SecretBox, w: World, d: nat, s: nat)
    requires Shape(w) && Ends(d, s)
  {
    var me, peer := w.sides[d], w.sides[s].ep;
    me.ep.live.None? && Hopeless(box, peer, Received(me.ep)) && !CanFinish(box, w, d)
  }

  lemma {:induction false} EncodedGrows(a: seq<ByteString>, b: seq<ByteString>)
    ensures EncodedLength(a + b) >= EncodedLength(a)
  {
    if a == [] {
      assert a + b == b;
    } else {
      EncodedGrows(a[1..], b);
      assert (a + b)[0] == a[0] && (a + b)[1..] == a[1..] + b;
    }
  }

  /** What the sender does next gives no hope. */
  lemma StaysHopeless(box: SecretBox, from: Endpoint, from': Endpoint, r: nat)
    requires Hopeless(box, from, r) && from'.outMsb == from.outMsb
    requires from.accepted <= from'.accepted && from.floor <= from'.floor
    ensures Hopeless(box, from', r)
  {
    var log, log' := Log(box, from.outMsb, from.accepted), Log(box, from.outMsb, from'.accepted);
    var tail := log'[|log|..];
    assert log' == log + tail && log'[r..] == log[r..] + tail;
    EncodedGrows(log[r..], tail);
    hide Log, SealedAt, EncodedLength;
  }

  /** A down endpoint that does not finish an exchange stays down with the same packets received. */
  lemma DownStays(box: SecretBox, w: World, a: Action)
    requires Shape(w) && SocketsExist(w) && Possible(box, w, a) && !a.Connect?
    requires w.sides[a.who].ep.live.None? && !a.FinishRecover? && !Acting(box, w, a).ep.mismatch
    ensures var e, e' := w.sides[a.who].ep, Acting(box, w, a).ep;
            e'.live.None? && Received(e') == Received(e)
  {
    hide WellFormed, Catchup, Trimmed, Buffered;
  }

  /** A sender only ever adds to its log and trims it. */
  lemma SenderGrows(box: SecretBox, w: World, a: Action)
    requires Shape(w) && SocketsExist(w) && Possible(box, w, a) && !a.Connect?
    ensures var e, e' := w.sides[a.who].ep, Acting(box, w, a).ep;
            e'.outMsb == e.outMsb && e.accepted <= e'.accepted && e.floor <= e'.floor
  {
    var e := w.sides[a.who].ep;
    if a.WriteMsg? {
      WriteGrows(e, a.m, a.refused, a.now);
    } else if a.KeepaliveTick? && e.live.Some? {
      PingKeeps(e, a.now);
      WriteGrows(e.(waiting := true, lastActivity := a.now), Msg(KEEP_ALIVE, []), a.refused, a.now);
    }
    hide WellFormed, Catchup, Write, Opened;
  }

  lemma WriteGrows(e: Endpoint, m: Msg, refused: bool, now: int)
    requires WellFormed(e)
    ensures var e' := Write(e, m, refused, now).0;
            e'.outMsb == e.outMsb && e.accepted <= e'.accepted && e.floor <= e'.floor
  {
    hide WellFormed, WriteRefused;
  }

  /** What the streams of an exchange look like to the side that runs it. */
  lemma OwnBooks(box: SecretBox, w: World, d: nat, s: nat)
    requires Inv(box, w) && Ends(d, s)
    ensures var me := w.sides[d];
            && |me.ep.delivered| <= |w.sides[s].ep.accepted|
            && Received(me.ep) <= |w.sides[s].ep.accepted|
            && (!me.mode.Serving? ==>
                  var c := me.mode.socket;
                  && 0 < c < |w.wires| && me.ep.inbox == [] && me.ep.live != Some(c)
                  && w.wires[c][d].taken == (if me.mode.AwaitHeader? then 0 else 1)
                  && |w.wires[c][s].sent| == (if me.mode.AwaitHeader? then 1 else 2)
                  && w.wires[c][s].sent[0] == HeaderItem(SequenceHeader(me.ep)))
            && (me.ep.live.Some? && me.ep.live.value > 0 ==>
                  && me.ep.live.value < |w.wires| && |w.wires[me.ep.live.value][s].sent| >= 2
                  && w.wires[me.ep.live.value][d].taken >= 2)
  {
    hide WellFormed, LivePart, ExchangePart, SequenceHeader, LogOf;
  }

  /** A socket on which a side has sent nothing carries no answer to it. */
  lemma NotAnswered(box: SecretBox, w: World, d: nat, s: nat, c: nat)
    requires Inv(box, w) && Ends(d, s) && 0 < c < |w.wires| && w.wires[c][s].sent == []
    ensures |w.wires[c][d].sent| < 2
  {
    hide WellFormed, Flow, SequenceHeader;
  }

  /** What an exchange asks of its steps, and where a step puts an item. */
  lemma ModeAfter(box: SecretBox, w: World, a: Action)
    requires Shape(w) && SocketsExist(w) && Possible(box, w, a) && !a.Connect?
    ensures a.who < 2
    ensures var me, me', o := w.sides[a.who], Acting(box, w, a), 1 - a.who;
            && (match a
                case BeginRecover(_, c) =>
                  && 0 < c < |w.wires| && w.wires[c][o].sent == [] && me.mode.Serving?
                  && me'.mode == AwaitHeader(c)
                case AnswerHeader(i) =>
                  && me.mode.AwaitHeader? && me'.mode == AwaitCatchup(me.mode.socket) && me'.ep == me.ep
                  && NextIs(w, me.mode.socket, i, (x: Item) => x.HeaderItem?)
                  && NextItem(w, me.mode.socket, i).seqno >= me.ep.floor
                  && Catchup(box, me.ep, NextItem(w, me.mode.socket, i).seqno).Some?
                case FinishRecover(i, _) =>
                  me.mode.AwaitCatchup? && NextIs(w, me.mode.socket, i, (x: Item) => true)
                case AbandonRecover(_) => me'.mode.Serving?
                case _ => me'.mode == me.mode && me.mode.Serving?)
            && (Pushed(box, w, a).Some? ==>
                  || (a.BeginRecover? && Pushed(box, w, a) == Some(a.socket))
                  || (a.AnswerHeader? && Pushed(box, w, a) == Some(me.mode.socket))
                  || Pushed(box, w, a) == me.ep.live)
  {
    hide WellFormed, Write, Tick, Deliver, Framing.ReadBack, CatchupFits, Log;
  }

  /** Whoever finishes could. */
  lemma FinishesIfPossible(box: SecretBox, w: World, i: nat, o: nat, now: int)
    requires Inv(box, w) && Ends(i, o) && Possible(box, w, FinishRecover(i, now))
    ensures CanFinish(box, w, i)
  {
    OwnBooks(box, w, i, o);
    hide Inv, WellFormed, CatchupFits, Catchup;
  }

  /** No other step of a side helps its exchange on. */
  lemma FinishBefore(box: SecretBox, w: World, a: Action, i: nat, o: nat)
    requires Inv(box, w) && SocketsExist(w) && Possible(box, w, a) && !a.Connect? && a.who == i && Ends(i, o)
    requires WellFormed(Acting(box, w, a).ep) && !a.FinishRecover?
    ensures var w' := Apply(box, w, a);
            && Shape(w')
            && (CanFinish(box, w', i) ==>
                  var c := w.sides[i].mode.socket;
                  && CanFinish(box, w, i) && w'.sides[i].mode.socket == c && w'.sides[i].ep == w.sides[i].ep
                  && c < |w'.wires| && w'.wires[c][i].sent == w.wires[c][i].sent)
  {
    hide WellFormed, Inv, Apply, Acting, Possible, Pushed, Pulled, ItemOf, Catchup, CatchupFits;
    ShapeOfInv(box, w);
    OwnBooks(box, w, i, o);
    ModeAfter(box, w, a);
    ApplyMoves(box, w, a, i, o);
    if a.BeginRecover? {
      NotAnswered(box, w, i, o, a.socket);
    }
  }

  lemma SelfStranded(box: SecretBox, w: World, a: Action, d: nat, s: nat)
    requires Inv(box, w) && SocketsExist(w) && Possible(box, w, a) && !a.Connect? && a.who == d && Ends(d, s)
    requires Stranded(box, w, d, s) && Fine(Acting(box, w, a).ep)
    ensures var w' := Apply(box, w, a); Shape(w') && Stranded(box, w', d, s)
  {
    hide WellFormed, Inv, Apply, Acting, Possible, Pushed, Pulled, ItemOf, Hopeless, CanFinish;
    ShapeOfInv(box, w);
    if a.FinishRecover? {
      FinishesIfPossible(box, w, d, s, a.now);
    }
    DownStays(box, w, a);
    FinishBefore(box, w, a, d, s);
    ApplyMoves(box, w, a, d, s);
  }

  lemma PeerAnswers(box: SecretBox, w: World, d: nat, s: nat, c: nat)
    requires Inv(box, w) && Ends(d, s) && Possible(box, w, AnswerHeader(s)) && Disciplined(w, AnswerHeader(s))
    requires Stranded(box, w, d, s) && !w.sides[d].mode.Serving? && w.sides[d].mode.socket == c
    requires w.sides[s].mode == AwaitHeader(c)
    ensures !CatchupFits(Catchup(box, w.sides[s].ep, NextItem(w, c, s).seqno).value)
    ensures |w.wires[c][d].sent| == 1
  {
    var n := NextItem(w, c, s).seqno;
    hide WellFormed, Flow, Log, CatchupFits, SequenceHeader, CanFinish;
    OwnBooks(box, w, d, s);
    OwnBooks(box, w, s, d);
    HeaderIsPeers(w, s, d, c);
    assert n == SequenceHeader(w.sides[d].ep);
    AnswerEntries(box, w, s, d, c, n);
    assert SequenceHeader(w.sides[d].ep) >= w.sides[s].ep.floor;
    hide Books;
  }

  /** What the peer may put on the stream of the exchange. */
  lemma PeerPuts(box: SecretBox, w: World, a: Action, d: nat, s: nat)
    requires Inv(box, w) && SocketsExist(w) && Enabled(box, w, a) && !a.Connect? && a.who == s && Ends(d, s)
    requires Stranded(box, w, d, s) && !w.sides[d].mode.Serving?
    requires Pushed(box, w, a) == Some(w.sides[d].mode.socket)
    ensures !Completes(box, w.sides[d], Appended(w.wires[w.sides[d].mode.socket][d], ItemOf(box, w, a)))
  {
    var c := w.sides[d].mode.socket;
    OwnBooks(box, w, d, s);
    OwnBooks(box, w, s, d);
    if a.AnswerHeader? {
      PeerAnswers(box, w, d, s, c);
    }
    hide WellFormed, Inv, Acting, CatchupFits, Catchup, Log, SequenceHeader, Hopeless, FrameOf, NextIs, Disciplined;
  }

  lemma PeerStranded(box: SecretBox, w: World, a: Action, d: nat, s: nat)
    requires Inv(box, w) && SocketsExist(w) && Enabled(box, w, a) && !a.Connect? && a.who == s && Ends(d, s)
    requires Stranded(box, w, d, s) && WellFormed(Acting(box, w, a).ep)
    ensures var w' := Apply(box, w, a); Shape(w') && Stranded(box, w', d, s)
  {
    var me := w.sides[d];
    SenderGrows(box, w, a);
    ApplyMoves(box, w, a, s, d);
    StaysHopeless(box, w.sides[s].ep, Acting(box, w, a).ep, Received(me.ep));
    if !me.mode.Serving? && Pushed(box, w, a) == Some(me.mode.socket) {
      PeerPuts(box, w, a, d, s);
    }
    hide WellFormed, Inv, Apply, Acting, Pushed, ItemOf, Hopeless, Completes, Enabled;
  }

  lemma ActingFine(box: SecretBox, w: World, a: Action)
    requires Correct(box) && Safe(box, w) && Enabled(box, w, a) && !a.Connect?
    ensures SocketsExist(w) && Fine(Acting(box, w, a).ep)
  {
    hide Inv, Sized, WellFormed, Acting;
    StepKeeps(box, w, a);
    hide Apply;
    ShapeOfInv(box, w);
    ActingIs(box, w, a);
    ShapeOfInv(box, Apply(box, w, a));
    NeverMismatched(box, Apply(box, w, a), a.who, 1 - a.who);
  }

  lemma StrandedStays(box: SecretBox, w: World, a: Action, d: nat, s: nat)
    requires Correct(box) && Safe(box, w) && Enabled(box, w, a) && SocketsExist(w) && Ends(d, s)
    requires Stranded(box, w, d, s)
    ensures var w' := Apply(box, w, a); Shape(w') && Stranded(box, w', d, s)
  {
    if a.Connect? {
      ConnectStep(box, w);
      JoinedShape(w, w.sides[0], w.sides[1], Stream([], 0), Stream([], 0));
      hide WellFormed, Inv, Sized, Apply, Hopeless, Completes;
    } else {
      ActingFine(box, w, a);
      if a.who == d {
        SelfStranded(box, w, a, d, s);
      } else {
        PeerStranded(box, w, a, d, s);
      }
      hide Inv, Sized, Stranded, Apply, Possible;
    }
  }

  // ---- being unable to answer ----

  /** How many unread frames from `k` on would be read one after the other. */
  function ReadableFrom(st: Stream, k: nat): nat
    decreases |st.sent| - k
  {
    if k < |st.sent| && st.sent[k].FrameItem? && Framing.ReadBack(st.sent[k].bytes).Some?
    then 1 + ReadableFrom(st, k + 1) else 0
  }

  /** How many packets a side can have received without a recover: what it has, and what it would read
      from the socket it uses. */
  ghost function Reach(w: World, s: nat): nat
    requires Shape(w) && SocketsExist(w) && s < 2
  {
    var e := w.sides[s].ep;
    Received(e) + (if e.live.Some? then var st := w.wires[e.live.value][s]; ReadableFrom(st, st.taken) else 0)
  }

  /** No header that a peer can send names a packet that is still backed up. */
  ghost predicate AllTooOld(floor: nat, lo: nat, hi: nat) {
    forall r: nat :: lo <= r <= hi ==> Truncate32(r) < floor
  }

  /** How many packets a side that can finish its exchange has then. */
  ghost function Caught(box: SecretBox, w: World, s: nat): nat
    requires Shape(w) && s < 2 && CanFinish(box, w, s)
  {
    Received(w.sides[s].ep) + |w.wires[w.sides[s].mode.socket][s].sent[1].entries|
  }

  /** And how many it can have by reading on. */
  ghost function CaughtReach(box: SecretBox, w: World, s: nat): nat
    requires Shape(w) && s < 2 && CanFinish(box, w, s)
  {
    Caught(box, w, s) + ReadableFrom(w.wires[w.sides[s].mode.socket][s], 2)
  }

  /** Side `d` is down, cannot finish an exchange it is in, and no longer has what side `s` lacks,
      however far that gets by finishing its own exchange and reading on. So it cannot answer a header
      of its peer, and the header that it has answered, if any, is not the peer's any more. */
  ghost predicate Mute(box: SecretBox, w: World, d: nat, s: nat)
    requires Shape(w) && SocketsExist(w) && Ends(d, s)
  {
    var me, peer := w.sides[d], w.sides[s];
    && me.ep.live.None? && !CanFinish(box, w, d)
    && AllTooOld(me.ep.floor, Received(peer.ep), Reach(w, s))
    && (CanFinish(box, w, s) ==> AllTooOld(me.ep.floor, Caught(box, w, s), CaughtReach(box, w, s)))
    && (me.mode.AwaitCatchup? ==> peer.mode != AwaitHeader(me.mode.socket))
  }

  /** While side `d` is down, nothing it does touches what its peer reads. */
  lemma ReachBeside(box: SecretBox, w: World, a: Action, d: nat, s: nat)
    requires Inv(box, w) && SocketsExist(w) && Possible(box, w, a) && !a.Connect? && a.who == d && Ends(d, s)
    requires w.sides[d].ep.live.None? && WellFormed(Acting(box, w, a).ep) && !a.FinishRecover?
    ensures var w' := Apply(box, w, a);
            && Shape(w') && SocketsExist(w') && w'.sides[s] == w.sides[s] && |w'.wires| == |w.wires|
            && (w.sides[s].ep.live.Some? ==>
                  w'.wires[w.sides[s].ep.live.value][s] == w.wires[w.sides[s].ep.live.value][s])
            && Reach(w', s) == Reach(w, s)
  {
    hide WellFormed, Inv, Apply, Acting, Possible, Pushed, Pulled, ItemOf, ReadableFrom, SequenceHeader, NextIs;
    ShapeOfInv(box, w);
    OwnBooks(box, w, d, s);
    OwnBooks(box, w, s, d);
    DownAgain(box, w, a);
    ModeAfter(box, w, a);
    ApplyMoves(box, w, a, d, s);
  }

  lemma DownAgain(box: SecretBox, w: World, a: Action)
    requires Shape(w) && SocketsExist(w) && Possible(box, w, a) && !a.Connect?
    requires w.sides[a.who].ep.live.None? && !a.FinishRecover?
    ensures Acting(box, w, a).ep.live.None?
  {
    hide WellFormed, Catchup, Trimmed, Buffered;
  }

  lemma TooOldNow(floor: nat, w: World, s: nat)
    requires Shape(w) && SocketsExist(w) && s < 2 && AllTooOld(floor, Received(w.sides[s].ep), Reach(w, s))
    ensures Truncate32(Received(w.sides[s].ep)) < floor
  {
    hide WellFormed, ReadableFrom, Truncate32;
  }

  /** A mute side cannot answer on the socket of its peer's exchange. */
  lemma MuteElsewhere(box: SecretBox, w: World, d: nat, s: nat)
    requires Inv(box, w) && SocketsExist(w) && Ends(d, s) && Mute(box, w, d, s)
    requires Possible(box, w, AnswerHeader(d))
    ensures w.sides[s].mode.Serving? || w.sides[s].mode.socket != w.sides[d].mode.socket
  {
    hide WellFormed, Inv, Possible, Reach, Truncate32, Catchup;
    ShapeOfInv(box, w);
    OwnBooks(box, w, d, s);
    OwnBooks(box, w, s, d);
    ModeAfter(box, w, AnswerHeader(d));
    TooOldNow(w.sides[d].ep.floor, w, s);
  }

  /** What a mute side does helps the exchange of its peer no more than its own. */
  lemma PeerFinishBefore(box: SecretBox, w: World, a: Action, d: nat, s: nat)
    requires Inv(box, w) && SocketsExist(w) && Possible(box, w, a) && !a.Connect? && a.who == d && Ends(d, s)
    requires Mute(box, w, d, s) && WellFormed(Acting(box, w, a).ep) && !a.FinishRecover?
    ensures var w' := Apply(box, w, a);
            && Shape(w')
            && (CanFinish(box, w', s) ==>
                  && CanFinish(box, w, s) && Caught(box, w', s) == Caught(box, w, s)
                  && CaughtReach(box, w', s) == CaughtReach(box, w, s))
  {
    if a.AnswerHeader? {
      MuteElsewhere(box, w, d, s);
    }
    hide WellFormed, Inv, Apply, Acting, Possible, Pushed, Pulled, ItemOf, Reach, ReadableFrom, CatchupFits, Catchup;
    hide AllTooOld;
    ShapeOfInv(box, w);
    OwnBooks(box, w, d, s);
    OwnBooks(box, w, s, d);
    ModeAfter(box, w, a);
    ApplyMoves(box, w, a, d, s);
  }

  lemma SelfMute(box: SecretBox, w: World, a: Action, d: nat, s: nat)
    requires Inv(box, w) && SocketsExist(w) && Possible(box, w, a) && !a.Connect? && a.who == d && Ends(d, s)
    requires Mute(box, w, d, s) && Fine(Acting(box, w, a).ep)
    ensures var w' := Apply(box, w, a); Shape(w') && SocketsExist(w') && Mute(box, w', d, s)
  {
    hide WellFormed, Inv, Apply, Acting, Possible, Pushed, Pulled, ItemOf, Reach, Truncate32, CanFinish, CaughtReach;
    hide Caught;
    ShapeOfInv(box, w);
    if a.FinishRecover? {
      FinishesIfPossible(box, w, d, s, a.now);
    }
    if a.AnswerHeader? {
      MuteElsewhere(box, w, d, s);
    }
    ModeAfter(box, w, a);
    DownAgain(box, w, a);
    SenderGrows(box, w, a);
    ReachBeside(box, w, a, d, s);
    FinishBefore(box, w, a, d, s);
    PeerFinishBefore(box, w, a, d, s);
    ApplyMoves(box, w, a, d, s);
  }

  /** Only receiving takes a frame from the socket in use. */
  lemma OwnStream(box: SecretBox, w: World, a: Action, s: nat, d: nat)
    requires Inv(box, w) && SocketsExist(w) && Possible(box, w, a) && !a.Connect? && a.who == s && Ends(d, s)
    requires Fine(Acting(box, w, a).ep) && !a.FinishRecover?
    ensures var w', e := Apply(box, w, a), w.sides[s].ep;
            && Shape(w') && w'.sides[s] == Acting(box, w, a) && w'.sides[d] == w.sides[d] && |w'.wires| == |w.wires|
            && (e.live.Some? ==>
                  var st := w.wires[e.live.value][s];
                  w'.wires[e.live.value][s] == if a.Receive? then Taken(st) else st)
  {
    OwnBooks(box, w, s, d);
    ApplyMoves(box, w, a, s, d);
    assert w.sides[s].ep.live.Some? ==> (Pulled(w, a) == w.sides[s].ep.live <==> a.Receive?);
    hide WellFormed, Inv, Apply, Acting, Possible, Pushed, Pulled, ItemOf, SequenceHeader;
  }

  lemma OneRead(st: Stream)
    requires st.taken < |st.sent| && st.sent[st.taken].FrameItem?
    requires Framing.ReadBack(st.sent[st.taken].bytes).Some?
    ensures ReadableFrom(st, st.taken) == 1 + ReadableFrom(Taken(st), Taken(st).taken)
  {
    SameReadable(st, Taken(st), st.taken + 1);
  }

  lemma ReceivesReadable(box: SecretBox, w: World, s: nat)
    requires Shape(w) && SocketsExist(w) && Possible(box, w, Receive(s))
    ensures s < 2 && w.sides[s].ep.live.Some?
    ensures var st := w.wires[w.sides[s].ep.live.value][s];
            && st.taken < |st.sent| && st.sent[st.taken].FrameItem?
            && Framing.ReadBack(st.sent[st.taken].bytes).Some?
  {
    hide WellFormed, Framing.ReadBack;
  }

  lemma ReachFrom(w: World, w': World, s: nat, receives: bool)
    requires Shape(w) && SocketsExist(w) && Shape(w') && SocketsExist(w') && s < 2 && |w'.wires| == |w.wires|
    requires var e, e' := w.sides[s].ep, w'.sides[s].ep;
             && Received(e') == Received(e) + (if receives then 1 else 0)
             && (e'.live.Some? ==> e'.live == e.live) && (receives ==> e'.live.Some?)
             && (e'.live.Some? ==>
                   var st := w.wires[e.live.value][s];
                   && w'.wires[e.live.value][s] == (if receives then Taken(st) else st)
                   && (receives ==>
                         && st.taken < |st.sent| && st.sent[st.taken].FrameItem?
                         && Framing.ReadBack(st.sent[st.taken].bytes).Some?))
    ensures Received(w.sides[s].ep) <= Received(w'.sides[s].ep) && Reach(w', s) <= Reach(w, s)
  {
    hide WellFormed, ReadableFrom, Received;
    if receives {
      OneRead(w.wires[w.sides[s].ep.live.value][s]);
    }
  }

  /** What a side has received only grows, and how far it can read on without a recover only
      shrinks. */
  lemma ReachShrinks(box: SecretBox, w: World, a: Action, s: nat, d: nat)
    requires Inv(box, w) && SocketsExist(w) && Possible(box, w, a) && !a.Connect? && a.who == s && Ends(d, s)
    requires Fine(Acting(box, w, a).ep) && !a.FinishRecover?
    ensures var w' := Apply(box, w, a);
            && Shape(w') && SocketsExist(w')
            && Received(w.sides[s].ep) <= Received(w'.sides[s].ep) && Reach(w', s) <= Reach(w, s)
  {
    hide WellFormed, Inv, Apply, Acting, Possible, Received, Reach, Framing.ReadBack;
    ShapeOfInv(box, w);
    if a.Receive? {
      ReceivesReadable(box, w, s);
    }
    KeepsReceived(box, w, a);
    OwnStream(box, w, a, s, d);
    ReachFrom(w, Apply(box, w, a), s, a.Receive?);
  }

  lemma {:induction false} SameReadable(st: Stream, st': Stream, k: nat)
    requires st'.sent == st.sent
    ensures ReadableFrom(st', k) == ReadableFrom(st, k)
    decreases |st.sent| - k
  {
    if k < |st.sent| {
      SameReadable(st, st', k + 1);
    }
  }

  /** A step that does not finish an exchange leaves the packets received, or adds the one it
      receives, and the socket, or lets go of it. */
  lemma KeepsReceived(box: SecretBox, w: World, a: Action)
    requires Shape(w) && SocketsExist(w) && Possible(box, w, a) && !a.Connect? && !a.FinishRecover?
    requires !Acting(box, w, a).ep.mismatch
    ensures var e, e' := w.sides[a.who].ep, Acting(box, w, a).ep;
            && Received(e') == Received(e) + (if a.Receive? then 1 else 0)
            && (e'.live == e.live || e'.live.None?) && (a.Receive? ==> e'.live == e.live && e.live.Some?)
  {
    hide WellFormed, Catchup, Trimmed, Buffered;
  }

  /** What the peer of a mute side puts on the stream of its exchange. */
  lemma PeerKeepsDeaf(box: SecretBox, w: World, a: Action, d: nat, s: nat)
    requires Inv(box, w) && SocketsExist(w) && Possible(box, w, a) && !a.Connect? && a.who == s && Ends(d, s)
    requires Mute(box, w, d, s) && Fine(Acting(box, w, a).ep)
    ensures var w', me := Apply(box, w, a), w.sides[d];
            && Shape(w') && w'.sides[d] == me && !CanFinish(box, w', d)
            && (me.mode.AwaitCatchup? ==> w'.sides[s].mode != AwaitHeader(me.mode.socket))
  {
    var me, peer := w.sides[d], w.sides[s];
    hide WellFormed, Inv, Apply, Acting, Possible, Pushed, Pulled, ItemOf, Reach, Truncate32, NextIs, CatchupFits;
    ShapeOfInv(box, w);
    OwnBooks(box, w, d, s);
    OwnBooks(box, w, s, d);
    ModeAfter(box, w, a);
    TooOldNow(me.ep.floor, w, s);
    ApplyMoves(box, w, a, s, d);
    if a.FinishRecover? {
      FinishedMode(box, w, s, a.now);
    }
  }

  lemma FinishedMode(box: SecretBox, w: World, i: nat, now: int)
    requires Shape(w) && SocketsExist(w) && Possible(box, w, FinishRecover(i, now))
    ensures var me, me' := w.sides[i], Acting(box, w, FinishRecover(i, now));
            && me.mode.AwaitCatchup? && me'.mode.Serving?
            && me'.ep == Revive(me.ep, NextItem(w, me.mode.socket, i).entries, me.mode.socket, now)
            && Pushed(box, w, FinishRecover(i, now)).None?
            && Pulled(w, FinishRecover(i, now)) == Some(me.mode.socket)
  {
    hide WellFormed, CatchupFits;
  }

  /** Finishing gets a side to where it could. */
  lemma FinishReaches(box: SecretBox, w: World, i: nat, o: nat, now: int)
    requires Inv(box, w) && SocketsExist(w) && Ends(i, o) && Possible(box, w, FinishRecover(i, now))
    requires WellFormed(Acting(box, w, FinishRecover(i, now)).ep)
    ensures CanFinish(box, w, i)
    ensures var w', c := Apply(box, w, FinishRecover(i, now)), w.sides[i].mode.socket;
            && Shape(w') && SocketsExist(w') && |w'.wires| == |w.wires| && w'.sides[o] == w.sides[o]
            && w'.sides[i].mode.Serving? && w'.sides[i].ep.live == Some(c)
            && Received(w'.sides[i].ep) == Caught(box, w, i) && Reach(w', i) == CaughtReach(box, w, i)
  {
    FinishesIfPossible(box, w, i, o, now);
    ShapeOfInv(box, w);
    OwnBooks(box, w, i, o);
    FinishedMode(box, w, i, now);
    ApplyMoves(box, w, FinishRecover(i, now), i, o);
    var c := w.sides[i].mode.socket;
    SameReadable(w.wires[c][i], Taken(w.wires[c][i]), 2);
    hide WellFormed, Inv, Apply, Acting, Possible, Pushed, Pulled, ItemOf, ReadableFrom, CatchupFits, Catchup;
  }

  /** A step of the peer gets it nowhere it could not get. */
  lemma PeerGetsOn(box: SecretBox, w: World, a: Action, d: nat, s: nat)
    requires Inv(box, w) && SocketsExist(w) && Possible(box, w, a) && !a.Connect? && a.who == s && Ends(d, s)
    requires Mute(box, w, d, s) && Fine(Acting(box, w, a).ep)
    ensures var w', floor := Apply(box, w, a), w.sides[d].ep.floor;
            && Shape(w') && SocketsExist(w')
            && AllTooOld(floor, Received(w'.sides[s].ep), Reach(w', s))
            && (CanFinish(box, w', s) ==> AllTooOld(floor, Caught(box, w', s), CaughtReach(box, w', s)))
  {
    if a.FinishRecover? {
      FinishReaches(box, w, s, d, a.now);
      hide WellFormed, Inv, Apply, Acting, Possible, Reach, CaughtReach, Caught, Completes, Truncate32;
    } else {
      hide WellFormed, Inv, Apply, Acting, Possible, Reach, Completes, Truncate32, ReadableFrom;
      ShapeOfInv(box, w);
      ReachShrinks(box, w, a, s, d);
      FinishBefore(box, w, a, s, d);
      var w' := Apply(box, w, a);
      if CanFinish(box, w', s) {
        var c := w.sides[s].mode.socket;
        SameReadable(w.wires[c][s], w'.wires[c][s], 2);
      }
    }
  }

  lemma PeerMute(box: SecretBox, w: World, a: Action, d: nat, s: nat)
    requires Inv(box, w) && SocketsExist(w) && Possible(box, w, a) && !a.Connect? && a.who == s && Ends(d, s)
    requires Mute(box, w, d, s) && Fine(Acting(box, w, a).ep)
    ensures var w' := Apply(box, w, a); Shape(w') && SocketsExist(w') && Mute(box, w', d, s)
  {
    hide WellFormed, Inv, Apply, Acting, Possible, Reach, Caught, CaughtReach, CanFinish, AllTooOld;
    ShapeOfInv(box, w);
    PeerKeepsDeaf(box, w, a, d, s);
    PeerGetsOn(box, w, a, d, s);
  }

  lemma MuteStays(box: SecretBox, w: World, a: Action, d: nat, s: nat)
    requires Correct(box) && Safe(box, w) && Enabled(box, w, a) && SocketsExist(w) && Ends(d, s)
    requires Mute(box, w, d, s)
    ensures var w' := Apply(box, w, a); Shape(w') && SocketsExist(w') && Mute(box, w', d, s)
  {
    if a.Connect? {
      ConnectStep(box, w);
      JoinedShape(w, w.sides[0], w.sides[1], Stream([], 0), Stream([], 0));
      hide WellFormed, Inv, Sized, Apply, ReadableFrom, Truncate32, Completes;
    } else {
      ActingFine(box, w, a);
      if a.who == d {
        SelfMute(box, w, a, d, s);
      } else {
        PeerMute(box, w, a, d, s);
      }
      hide Inv, Sized, Mute, Apply, Possible;
    }
  }

  // ---- being left alone ----

  /** Side `d` is down for good, or cannot finish an exchange it is in and its peer is gone. */
  ghost predicate Alone(box: SecretBox, w: World, d: nat, s: nat)
    requires Shape(w) && Ends(d, s)
  {
    var me, peer := w.sides[d], w.sides[s];
    me.ep.live.None? && (me.ep.shuttingDown || (peer.ep.shuttingDown && !CanFinish(box, w, d)))
  }

  lemma StoppedStays(box: SecretBox, w: World, a: Action)
    requires Shape(w) && SocketsExist(w) && Possible(box, w, a) && !a.Connect?
    ensures !w.sides[a.who].ep.shuttingDown
  {
    hide WellFormed, CatchupFits, Catchup;
  }

  lemma AloneStays(box: SecretBox, w: World, a: Action, d: nat, s: nat)
    requires Correct(box) && Safe(box, w) && Enabled(box, w, a) && SocketsExist(w) && Ends(d, s)
    requires Alone(box, w, d, s)
    ensures var w' := Apply(box, w, a); Shape(w') && Alone(box, w', d, s)
  {
    if a.Connect? {
      ConnectStep(box, w);
      JoinedShape(w, w.sides[0], w.sides[1], Stream([], 0), Stream([], 0));
      hide WellFormed, Inv, Sized, Apply, Completes;
    } else {
      ActingFine(box, w, a);
      ShapeOfInv(box, w);
      hide WellFormed, Inv, Sized, Apply, Acting, Possible, Pushed, Pulled, ItemOf, CanFinish;
      StoppedStays(box, w, a);
      if a.who == d {
        if a.FinishRecover? {
          FinishesIfPossible(box, w, d, s, a.now);
        }
        DownAgain(box, w, a);
        FinishBefore(box, w, a, d, s);
        ApplyMoves(box, w, a, d, s);
      } else {
        ApplyMoves(box, w, a, s, d);
      }
    }
  }

  // ---- the theorem ----

  /** There is no way back for side `d`. */
  ghost predicate NoWay(box: SecretBox, w: World, d: nat, s: nat)
    requires Shape(w) && SocketsExist(w) && Ends(d, s)
  {
    Stranded(box, w, d, s) || Mute(box, w, d, s) || Alone(box, w, d, s)
  }

  lemma NoWayStays(box: SecretBox, w: World, a: Action, d: nat, s: nat)
    requires Correct(box) && Safe(box, w) && Enabled(box, w, a) && SocketsExist(w) && Ends(d, s)
    requires NoWay(box, w, d, s)
    ensures var w' := Apply(box, w, a); Safe(box, w') && Shape(w') && SocketsExist(w') && NoWay(box, w', d, s)
  {
    hide Safe, Stranded, Mute, Alone, Apply, Possible, Disciplined;
    StepKeeps(box, w, a);
    SafeSockets(box, Apply(box, w, a));
    if Stranded(box, w, d, s) {
      StrandedStays(box, w, a, d, s);
    } else if Mute(box, w, d, s) {
      MuteStays(box, w, a, d, s);
    } else {
      AloneStays(box, w, a, d, s);
    }
  }

  lemma SafeSockets(box: SecretBox, w: World)
    requires Safe(box, w)
    ensures Shape(w) && SocketsExist(w)
  {
    InvSockets(box, w);
    ShapeOfInv(box, w);
    hide Inv, Sized;
  }

  /** Where there is no way back there never is one, in any run. */
  lemma {:induction false} DownForever(box: SecretBox, w: World, acts: seq<Action>, d: nat, s: nat)
    requires Correct(box) && Safe(box, w) && Shape(w) && SocketsExist(w) && Ends(d, s) && Runs(box, w, acts)
    requires NoWay(box, w, d, s)
    ensures |After(box, w, acts).sides| == 2 && After(box, w, acts).sides[d].ep.live.None?
    decreases |acts|
  {
    if acts != [] {
      NoWayStays(box, w, acts[0], d, s);
      hide Safe, NoWay, Apply, Possible, Disciplined, Shape, SocketsExist;
      DownForever(box, Apply(box, w, acts[0]), acts[1..], d, s);
    }
    hide Safe, Mute, CanFinish, Hopeless;
  }

  /** Side `d` comes up in some run. */
  ghost predicate CanComeUp(box: SecretBox, w: World, d: nat)
    requires d < 2
  {
    exists acts, w' :: Leads(box, w, acts, w') && |w'.sides| == 2 && w'.sides[d].ep.live.Some?
  }

  /** Both ends serve and back up fewer than 2^32 packets. */
  ghost predicate Attentive(w: World) {
    && |w.sides| == 2
    && var e0, e1 := w.sides[0].ep, w.sides[1].ep;
    && w.sides[0].mode.Serving? && w.sides[1].mode.Serving? && !e0.shuttingDown && !e1.shuttingDown
    && |e0.accepted| - e0.floor < 0x1_0000_0000 && |e1.accepted| - e1.floor < 0x1_0000_0000
  }

  /** Both ends back up fewer than 2^32 packets. */
  ghost predicate Bounded(w: World) {
    && |w.sides| == 2
    && var e0, e1 := w.sides[0].ep, w.sides[1].ep;
    && |e0.accepted| - e0.floor < 0x1_0000_0000 && |e1.accepted| - e1.floor < 0x1_0000_0000
  }

  /** Side `s` can have `r` packets, by reading on or by finishing its exchange first. */
  ghost predicate GetsTo(box: SecretBox, w: World, s: nat, r: nat)
    requires Shape(w) && SocketsExist(w) && s < 2
  {
    || Received(w.sides[s].ep) <= r <= Reach(w, s)
    || (CanFinish(box, w, s) && Caught(box, w, s) <= r <= CaughtReach(box, w, s))
  }

  ghost predicate AnswersAt(box: SecretBox, w: World, d: nat, s: nat, r: nat)
    requires Shape(w) && SocketsExist(w) && Ends(d, s)
  {
    GetsTo(box, w, s, r) && Catchup(box, w.sides[d].ep, Truncate32(r)).Some?
  }

  /** Side `d` still has what side `s` lacks at some point that side can get to, or has given it
      already and waits for the answer on the socket of its peer's exchange. */
  ghost predicate CanAnswer(box: SecretBox, w: World, d: nat, s: nat)
    requires Shape(w) && SocketsExist(w) && Ends(d, s)
  {
    || (w.sides[d].mode.AwaitCatchup? && w.sides[s].mode == AwaitHeader(w.sides[d].mode.socket))
    || exists r: nat :: AnswersAt(box, w, d, s, r)
  }

  /** Side `s` still has what side `d` lacks, in a catch-up that side `d` reads. */
  ghost predicate CanServe(box: SecretBox, w: World, d: nat, s: nat)
    requires |w.sides| == 2 && Ends(d, s)
  {
    var answer := Catchup(box, w.sides[s].ep, Truncate32(Received(w.sides[d].ep)));
    answer.Some? && CatchupFits(answer.value)
  }

  /** Side `d` can come back: its exchange can end well, or it and its peer can give each other what
      is missing. */
  ghost predicate HasWay(box: SecretBox, w: World, d: nat, s: nat)
    requires Shape(w) && SocketsExist(w) && Ends(d, s)
  {
    && !w.sides[d].ep.shuttingDown
    && (|| CanFinish(box, w, d)
        || (!w.sides[s].ep.shuttingDown && CanAnswer(box, w, d, s) && CanServe(box, w, d, s)))
  }

  /** A side never reads on beyond what its peer accepted. */
  lemma ReachBounded(box: SecretBox, w: World, d: nat, s: nat)
    requires Inv(box, w) && SocketsExist(w) && Ends(d, s)
    ensures Reach(w, s) <= |w.sides[d].ep.accepted|
  {
    var e := w.sides[s].ep;
    OwnBooks(box, w, s, d);
    if e.live.Some? {
      var st := w.wires[e.live.value][s];
      assert Flow(box, w, d, s);
      assert Received(e) + |st.sent| - st.taken <= |w.sides[d].ep.accepted| by {
        hide Books, WellFormed, ExchangePart, Log;
      }
      ReadableBounded(st, st.taken);
    }
    hide Inv, WellFormed, ReadableFrom;
  }

  lemma {:induction false} ReadableBounded(st: Stream, k: nat)
    requires k <= |st.sent|
    ensures k + ReadableFrom(st, k) <= |st.sent|
    decreases |st.sent| - k
  {
    if k < |st.sent| {
      ReadableBounded(st, k + 1);
    }
  }

  /** Nor beyond it after its exchange. */
  lemma CaughtBounded(box: SecretBox, w: World, d: nat, s: nat)
    requires Inv(box, w) && SocketsExist(w) && Ends(d, s) && CanFinish(box, w, s)
    ensures CaughtReach(box, w, s) <= |w.sides[d].ep.accepted|
  {
    var c := w.sides[s].mode.socket;
    var st := w.wires[c][s];
    OwnBooks(box, w, s, d);
    assert Flow(box, w, d, s);
    assert Caught(box, w, s) + |st.sent| - 2 <= |w.sides[d].ep.accepted| by {
      hide Books, WellFormed, LivePart, Log, CatchupFits, Catchup;
    }
    ReadableBounded(st, 2);
    hide Inv, WellFormed, ReadableFrom, CatchupFits, Catchup;
  }

  /** A header of an honest peer that is not answered names a packet that is no longer backed up. */
  lemma UnansweredIsOld(box: SecretBox, e: Endpoint, r: nat)
    requires r <= |e.accepted|
    ensures Catchup(box, e, Truncate32(r)).None? <==> Truncate32(r) < e.floor
  {
    hide Log;
  }

  /** An answer is exactly what is missing. */
  lemma AnswerIsMissing(box: SecretBox, e: Endpoint, r: nat)
    requires WellFormed(e) && |e.accepted| - e.floor < 0x1_0000_0000 && r <= |e.accepted|
    requires Catchup(box, e, Truncate32(r)).Some?
    ensures Catchup(box, e, Truncate32(r)).value == Log(box, e.outMsb, e.accepted)[r..]
  {
    TruncationExact(box, e, r);
    hide WellFormed, Log;
  }

  lemma AllAreOld(box: SecretBox, e: Endpoint, lo: nat, hi: nat)
    requires hi <= |e.accepted| && forall r: nat :: lo <= r <= hi ==> Catchup(box, e, Truncate32(r)).None?
    ensures AllTooOld(e.floor, lo, hi)
  {
    forall r: nat | lo <= r <= hi ensures Truncate32(r) < e.floor {
      UnansweredIsOld(box, e, r);
    }
    hide Catchup, Truncate32;
  }

  lemma NoneAnswered(box: SecretBox, w: World, d: nat, s: nat)
    requires Inv(box, w) && Shape(w) && SocketsExist(w) && Ends(d, s)
    requires forall r: nat :: !AnswersAt(box, w, d, s, r)
    ensures var floor := w.sides[d].ep.floor;
            && AllTooOld(floor, Received(w.sides[s].ep), Reach(w, s))
            && (CanFinish(box, w, s) ==> AllTooOld(floor, Caught(box, w, s), CaughtReach(box, w, s)))
  {
    var e := w.sides[d].ep;
    hide Inv, WellFormed, Catchup, Reach, CaughtReach, Caught, CanFinish, Truncate32, AllTooOld;
    ReachBounded(box, w, d, s);
    forall r: nat | Received(w.sides[s].ep) <= r <= Reach(w, s) ensures Catchup(box, e, Truncate32(r)).None? {
      assert !AnswersAt(box, w, d, s, r);
    }
    AllAreOld(box, e, Received(w.sides[s].ep), Reach(w, s));
    if CanFinish(box, w, s) {
      CaughtBounded(box, w, d, s);
      forall r: nat | Caught(box, w, s) <= r <= CaughtReach(box, w, s)
        ensures Catchup(box, e, Truncate32(r)).None?
      {
        assert !AnswersAt(box, w, d, s, r);
      }
      AllAreOld(box, e, Caught(box, w, s), CaughtReach(box, w, s));
    }
  }

  /** Which of the two ends is the obstacle. */
  lemma CannotComeUp(box: SecretBox, w: World, d: nat, s: nat)
    requires Inv(box, w) && Shape(w) && SocketsExist(w) && Ends(d, s) && Bounded(w) && w.sides[d].ep.live.None?
    requires !HasWay(box, w, d, s)
    ensures NoWay(box, w, d, s)
  {
    var me, peer, r := w.sides[d], w.sides[s], Received(w.sides[d].ep);
    hide Inv, WellFormed, Catchup, Log, CatchupFits, Reach, CaughtReach, Caught, CanFinish, Truncate32;
    OwnBooks(box, w, d, s);
    if me.ep.shuttingDown || peer.ep.shuttingDown {
      assert Alone(box, w, d, s);
    } else if !CanServe(box, w, d, s) {
      UnansweredIsOld(box, peer.ep, r);
      if Catchup(box, peer.ep, Truncate32(r)).Some? {
        AnswerIsMissing(box, peer.ep, r);
      }
      assert Stranded(box, w, d, s);
    } else {
      NoneAnswered(box, w, d, s);
      assert Mute(box, w, d, s);
    }
  }

  /** What an endpoint answers a header with is the same. */
  predicate SameLog(e: Endpoint, e': Endpoint) {
    e'.accepted == e.accepted && e'.floor == e.floor && e'.outMsb == e.outMsb
  }

  /** Only side `s` is different, and only in what it has received. */
  ghost predicate OnlyReceives(w: World, w': World, s: nat, d: nat)
    requires |w.sides| == 2 && Ends(d, s)
  {
    && |w'.sides| == 2 && |w'.wires| == |w.wires| && w'.sides[d] == w.sides[d]
    && w'.sides[s] == w.sides[s].(ep := w.sides[s].ep.(inbox := w'.sides[s].ep.inbox))
  }

  lemma ReceiveStep(box: SecretBox, w: World, s: nat, d: nat)
    requires Correct(box) && Safe(box, w) && Ends(d, s) && SocketsExist(w)
    requires w.sides[s].mode.Serving? && !w.sides[s].ep.shuttingDown && w.sides[s].ep.live.Some?
    requires var st := w.wires[w.sides[s].ep.live.value][s]; ReadableFrom(st, st.taken) > 0
    ensures Enabled(box, w, Receive(s))
    ensures var w', e := Apply(box, w, Receive(s)), w.sides[s].ep;
            && Safe(box, w') && SocketsExist(w') && OnlyReceives(w, w', s, d)
            && |w'.sides[s].ep.inbox| == |e.inbox| + 1
            && w'.wires[e.live.value][s] == Taken(w.wires[e.live.value][s])
  {
    ShapeOfInv(box, w);
    StepKeeps(box, w, Receive(s));
    InvSockets(box, Apply(box, w, Receive(s)));
    hide Inv, Sized, WellFormed;
  }

  /** A side reads on, `k` frames of those it can read. */
  lemma {:induction false} ReadsOn(box: SecretBox, w: World, s: nat, d: nat, k: nat)
    returns (acts: seq<Action>, w': World)
    requires Correct(box) && Safe(box, w) && Ends(d, s) && SocketsExist(w)
    requires w.sides[s].mode.Serving? && !w.sides[s].ep.shuttingDown && w.sides[s].ep.live.Some?
    requires var st := w.wires[w.sides[s].ep.live.value][s]; k <= ReadableFrom(st, st.taken)
    ensures Leads(box, w, acts, w') && Safe(box, w') && OnlyReceives(w, w', s, d)
    ensures Received(w'.sides[s].ep) == Received(w.sides[s].ep) + k
    decreases k
  {
    if k == 0 {
      acts, w' := [], w;
      assert Leads(box, w, [], w);
      hide Inv, Sized;
    } else {
      var st := w.wires[w.sides[s].ep.live.value][s];
      ReceiveStep(box, w, s, d);
      OneRead(st);
      assert Leads(box, w, [], w);
      var w1 := Apply(box, w, Receive(s));
      hide Inv, Sized, Apply, Enabled, Leads, ReadableFrom;
      LeadsOn(box, w, [], w, Receive(s));
      var more;
      more, w' := ReadsOn(box, w1, s, d, k - 1);
      LeadsThrough(box, w, [] + [Receive(s)], w1, more, w');
      acts := [] + [Receive(s)] + more;
    }
  }

  /** Side `s` gets to `r` packets, and both ends deliver what they have. */
  lemma SettlesAt(box: SecretBox, w: World, d: nat, s: nat, r: nat, now: int) returns (acts: seq<Action>, w': World)
    requires Correct(box) && Safe(box, w) && SocketsExist(w) && Ends(d, s) && Attentive(w)
    requires Received(w.sides[s].ep) <= r <= Reach(w, s)
    ensures Leads(box, w, acts, w') && Safe(box, w') && |w'.wires| == |w.wires| && AtRest(w')
    ensures |w'.sides[s].ep.delivered| == r && |w'.sides[d].ep.delivered| == Received(w.sides[d].ep)
    ensures SameLog(w.sides[0].ep, w'.sides[0].ep) && SameLog(w.sides[1].ep, w'.sides[1].ep)
  {
    var w1;
    if w.sides[s].ep.live.Some? {
      acts, w1 := ReadsOn(box, w, s, d, r - Received(w.sides[s].ep));
    } else {
      acts, w1 := [], w;
      assert Leads(box, w, [], w);
    }
    hide Inv, Sized, Leads, Reach;
    var more, w2 := DeliversAll(box, w1, s, d, now);
    LeadsThrough(box, w, acts, w1, more, w2);
    acts := acts + more;
    more, w' := DeliversAll(box, w2, d, s, now);
    LeadsThrough(box, w, acts, w2, more, w');
    acts := acts + more;
  }

  lemma SettledAnswers(box: SecretBox, w: World, w': World, d: nat, s: nat, r: nat)
    requires |w.sides| == 2 && |w'.sides| == 2 && Ends(d, s)
    requires Catchup(box, w.sides[d].ep, Truncate32(r)).Some? && CanServe(box, w, d, s)
    requires |w'.sides[s].ep.delivered| == r && |w'.sides[d].ep.delivered| == Received(w.sides[d].ep)
    requires SameLog(w.sides[0].ep, w'.sides[0].ep) && SameLog(w.sides[1].ep, w'.sides[1].ep)
    ensures Answerable(box, w') && Readable(box, w', d, s)
  {
    hide Log, CatchupFits, Truncate32;
  }

  /** From a state in which both serve. */
  lemma ComesUpServing(box: SecretBox, w: World, d: nat, s: nat, r: nat, now: int)
    returns (acts: seq<Action>, w': World)
    requires Correct(box) && Safe(box, w) && Shape(w) && SocketsExist(w) && |w.wires| > 0 && Ends(d, s) && Attentive(w)
    requires Received(w.sides[s].ep) <= r <= Reach(w, s)
    requires Catchup(box, w.sides[d].ep, Truncate32(r)).Some? && CanServe(box, w, d, s)
    ensures Leads(box, w, acts, w') && |w'.sides| == 2 && w'.sides[d].ep.live.Some?
  {
    hide Safe, Leads, Reach, CanServe, Catchup, Truncate32, Answerable, Readable;
    var w1;
    acts, w1 := SettlesAt(box, w, d, s, r, now);
    SettledAnswers(box, w, w1, d, s, r);
    SafeSockets(box, w1);
    hide Attentive, AtRest, Shape, SocketsExist;
    var more;
    more, w' := ComesUp(box, w1, d, s, now);
    LeadsThrough(box, w, acts, w1, more, w');
    acts := acts + more;
  }

  // ---- out of an exchange ----

  lemma OneStep(box: SecretBox, w: World, a: Action)
    requires Enabled(box, w, a) && SocketsExist(w)
    ensures Leads(box, w, [] + [a], Apply(box, w, a))
  {
    assert Leads(box, w, [], w);
    hide Leads, Enabled, Apply;
    LeadsOn(box, w, [], w, a);
  }

  /** A side gives its exchange up, if it is in one. */
  lemma Abandons(box: SecretBox, w: World, i: nat, o: nat) returns (acts: seq<Action>, w': World)
    requires Correct(box) && Safe(box, w) && Shape(w) && SocketsExist(w) && Ends(i, o) && !w.sides[i].ep.shuttingDown
    ensures Leads(box, w, acts, w') && Safe(box, w') && Shape(w') && SocketsExist(w')
    ensures w'.wires == w.wires && w'.sides[o] == w.sides[o] && w'.sides[i] == w.sides[i].(mode := Serving)
  {
    hide Safe;
    if w.sides[i].mode.Serving? {
      acts, w' := [], w;
    } else {
      var a := AbandonRecover(i);
      assert Enabled(box, w, a) by { hide WellFormed; }
      acts, w' := [] + [a], Apply(box, w, a);
      StepKeeps(box, w, a);
      SafeSockets(box, w');
      OneStep(box, w, a);
      hide WellFormed, Leads, Enabled;
    }
  }

  /** A side answers the header in its exchange. */
  lemma AnswerLeads(box: SecretBox, w: World, i: nat, o: nat)
    requires Correct(box) && Safe(box, w) && Shape(w) && SocketsExist(w) && Ends(i, o) && Bounded(w)
    requires !w.sides[i].ep.shuttingDown && w.sides[i].mode.AwaitHeader?
    requires var c := w.sides[i].mode.socket;
             && c < |w.wires| && w.wires[c][i].sent != [] && w.wires[c][i].sent[0].HeaderItem?
             && Catchup(box, w.sides[i].ep, w.wires[c][i].sent[0].seqno).Some?
    ensures Enabled(box, w, AnswerHeader(i))
    ensures var w', c := Apply(box, w, AnswerHeader(i)), w.sides[i].mode.socket;
            && Safe(box, w') && Shape(w') && SocketsExist(w') && |w'.wires| == |w.wires|
            && w'.sides[i] == w.sides[i].(mode := AwaitCatchup(c)) && w'.sides[o] == w.sides[o]
            && w'.wires[c][i] == Taken(w.wires[c][i])
            && w'.wires[c][o] ==
               Appended(w.wires[c][o], CatchupItem(Catchup(box, w.sides[i].ep, w.wires[c][i].sent[0].seqno).value))
  {
    var a := AnswerHeader(i);
    OwnBooks(box, w, i, o);
    assert Enabled(box, w, a) by { hide Inv, Sized, WellFormed; }
    StepKeeps(box, w, a);
    SafeSockets(box, Apply(box, w, a));
    ActingFine(box, w, a);
    ApplyMoves(box, w, a, i, o);
    hide Inv, Sized, WellFormed, Catchup, Enabled, Apply, Possible;
  }

  /** A side finishes the exchange it can finish. */
  lemma Finishes(box: SecretBox, w: World, i: nat, o: nat, now: int) returns (acts: seq<Action>, w': World)
    requires Correct(box) && Safe(box, w) && Shape(w) && SocketsExist(w) && Ends(i, o) && Bounded(w)
    requires CanFinish(box, w, i) && !w.sides[i].ep.shuttingDown
    ensures Leads(box, w, acts, w') && Safe(box, w') && Shape(w') && SocketsExist(w') && |w'.wires| == |w.wires|
    ensures w'.sides[o] == w.sides[o] && w'.sides[i].mode.Serving? && w'.sides[i].ep.live.Some?
    ensures !w'.sides[i].ep.shuttingDown && SameLog(w.sides[i].ep, w'.sides[i].ep)
    ensures Received(w'.sides[i].ep) == Caught(box, w, i) && Reach(w', i) == CaughtReach(box, w, i)
  {
    if w.sides[i].mode.AwaitCatchup? {
      FinishLeads(box, w, i, o, now);
      hide Safe, Enabled, Apply, Leads, Caught, CaughtReach, Reach, Shape;
      OneStep(box, w, FinishRecover(i, now));
      acts, w' := [] + [FinishRecover(i, now)], Apply(box, w, FinishRecover(i, now));
    } else {
      AnswerLeads(box, w, i, o);
      var w1, c := Apply(box, w, AnswerHeader(i)), w.sides[i].mode.socket;
      SameReadable(w.wires[c][i], w1.wires[c][i], 2);
      assert CanFinish(box, w1, i) && Caught(box, w1, i) == Caught(box, w, i)
             && CaughtReach(box, w1, i) == CaughtReach(box, w, i)
      by { hide Safe, WellFormed, ReadableFrom, CatchupFits, Catchup, Apply, Enabled; }
      hide Safe, Enabled, Apply, Leads, Caught, CaughtReach, Reach, CanFinish;
      FinishLeads(box, w1, i, o, now);
      OneStep(box, w, AnswerHeader(i));
      w' := Apply(box, w1, FinishRecover(i, now));
      LeadsOn(box, w, [] + [AnswerHeader(i)], w1, FinishRecover(i, now));
      acts := [] + [AnswerHeader(i)] + [FinishRecover(i, now)];
    }
  }

  lemma FinishLeads(box: SecretBox, w: World, i: nat, o: nat, now: int)
    requires Correct(box) && Safe(box, w) && Shape(w) && SocketsExist(w) && Ends(i, o)
    requires CanFinish(box, w, i) && w.sides[i].mode.AwaitCatchup? && !w.sides[i].ep.shuttingDown
    ensures Enabled(box, w, FinishRecover(i, now))
    ensures var w' := Apply(box, w, FinishRecover(i, now));
            && Safe(box, w') && Shape(w') && SocketsExist(w') && |w'.wires| == |w.wires|
            && w'.sides[o] == w.sides[o] && w'.sides[i].mode.Serving? && w'.sides[i].ep.live.Some?
            && !w'.sides[i].ep.shuttingDown && SameLog(w.sides[i].ep, w'.sides[i].ep)
            && Received(w'.sides[i].ep) == Caught(box, w, i) && Reach(w', i) == CaughtReach(box, w, i)
  {
    var a := FinishRecover(i, now);
    OwnBooks(box, w, i, o);
    assert Enabled(box, w, a) by { hide Inv, Sized, WellFormed, CatchupFits; }
    hide Inv, Sized, WellFormed, CatchupFits, Apply, Reach, CaughtReach, Caught;
    StepKeeps(box, w, a);
    ActingFine(box, w, a);
    FinishReaches(box, w, i, o, now);
    FinishedMode(box, w, i, now);
    ActingIs(box, w, a);
    hide Acting, Possible;
  }

  /** The peer answers the header of a side that has answered it. */
  lemma Helped(box: SecretBox, w: World, d: nat, s: nat, now: int) returns (acts: seq<Action>, w': World)
    requires Correct(box) && Safe(box, w) && Shape(w) && SocketsExist(w) && Ends(d, s) && Bounded(w)
    requires !w.sides[d].ep.shuttingDown && !w.sides[s].ep.shuttingDown && CanServe(box, w, d, s)
    requires w.sides[d].mode.AwaitCatchup? && w.sides[s].mode == AwaitHeader(w.sides[d].mode.socket)
    ensures Leads(box, w, acts, w') && |w'.sides| == 2 && w'.sides[d].ep.live.Some?
  {
    OwnBooks(box, w, d, s);
    OwnBooks(box, w, s, d);
    assert SequenceHeader(w.sides[d].ep) == Truncate32(Received(w.sides[d].ep));
    hide Safe, Apply, Leads, Enabled, WellFormed, CatchupFits, Catchup, SequenceHeader, Truncate32, Reach;
    AnswerLeads(box, w, s, d);
    var w1 := Apply(box, w, AnswerHeader(s));
    assert CanFinish(box, w1, d);
    OneStep(box, w, AnswerHeader(s));
    var more;
    more, w' := Finishes(box, w1, d, s, now);
    hide CanFinish, Shape, SocketsExist;
    LeadsThrough(box, w, [] + [AnswerHeader(s)], w1, more, w');
    acts := [] + [AnswerHeader(s)] + more;
  }

  /** Side `s` leaves its exchange, finished or given up, where it can still get to `r` packets. */
  lemma LeavesFor(box: SecretBox, w: World, d: nat, s: nat, r: nat, now: int) returns (acts: seq<Action>, w': World)
    requires Correct(box) && Safe(box, w) && Shape(w) && SocketsExist(w) && Ends(d, s) && Bounded(w)
    requires !w.sides[s].ep.shuttingDown && GetsTo(box, w, s, r)
    ensures Leads(box, w, acts, w') && Safe(box, w') && Shape(w') && SocketsExist(w') && |w'.wires| == |w.wires|
    ensures w'.sides[d] == w.sides[d] && w'.sides[s].mode.Serving? && !w'.sides[s].ep.shuttingDown
    ensures SameLog(w.sides[s].ep, w'.sides[s].ep) && Received(w'.sides[s].ep) <= r <= Reach(w', s)
  {
    if Received(w.sides[s].ep) <= r <= Reach(w, s) {
      acts, w' := Abandons(box, w, s, d);
      hide Safe, Leads, WellFormed, ReadableFrom;
    } else {
      hide Safe, Leads, Reach, CanFinish, Caught, CaughtReach;
      acts, w' := Finishes(box, w, s, d, now);
    }
  }

  lemma ComesUpFresh(box: SecretBox, w: World, d: nat, s: nat, r: nat, now: int) returns (acts: seq<Action>, w': World)
    requires Correct(box) && Safe(box, w) && Shape(w) && SocketsExist(w) && |w.wires| > 0 && Ends(d, s) && Bounded(w)
    requires !w.sides[d].ep.shuttingDown && !w.sides[s].ep.shuttingDown
    requires AnswersAt(box, w, d, s, r) && CanServe(box, w, d, s)
    ensures Leads(box, w, acts, w') && |w'.sides| == 2 && w'.sides[d].ep.live.Some?
  {
    hide Safe, Leads, Reach, GetsTo, Catchup, Truncate32, CatchupFits, WellFormed;
    var w1, w2, more;
    acts, w1 := LeavesFor(box, w, d, s, r, now);
    more, w2 := Abandons(box, w1, d, s);
    LeadsThrough(box, w, acts, w1, more, w2);
    acts := acts + more;
    ReachAbandoned(w1, w2, s);
    SameAnswers(box, w.sides[s].ep, w2.sides[s].ep, Truncate32(Received(w.sides[d].ep)));
    hide Shape, SocketsExist;
    more, w' := ComesUpServing(box, w2, d, s, r, now);
    LeadsThrough(box, w, acts, w2, more, w');
    acts := acts + more;
  }

  lemma ReachAbandoned(w: World, w': World, s: nat)
    requires Shape(w) && SocketsExist(w) && Shape(w') && SocketsExist(w') && s < 2
    requires w'.wires == w.wires && w'.sides[s].ep == w.sides[s].ep
    ensures Reach(w', s) == Reach(w, s)
  {
    hide WellFormed, ReadableFrom;
  }

  lemma SameAnswers(box: SecretBox, e: Endpoint, e': Endpoint, n: Int32)
    requires SameLog(e, e')
    ensures Catchup(box, e', n) == Catchup(box, e, n)
  {
    hide Log;
  }

  lemma ComesUpFrom(box: SecretBox, w: World, d: nat, s: nat, now: int) returns (acts: seq<Action>, w': World)
    requires Correct(box) && Safe(box, w) && Shape(w) && SocketsExist(w) && |w.wires| > 0 && Ends(d, s) && Bounded(w)
    requires HasWay(box, w, d, s)
    ensures Leads(box, w, acts, w') && |w'.sides| == 2 && w'.sides[d].ep.live.Some?
  {
    hide Safe, Leads, AnswersAt, CanServe, CanFinish, Bounded, SocketsExist;
    if CanFinish(box, w, d) {
      acts, w' := Finishes(box, w, d, s, now);
    } else if w.sides[d].mode.AwaitCatchup? && w.sides[s].mode == AwaitHeader(w.sides[d].mode.socket) {
      acts, w' := Helped(box, w, d, s, now);
    } else {
      var r: nat :| AnswersAt(box, w, d, s, r);
      acts, w' := ComesUpFresh(box, w, d, s, r, now);
    }
  }

  /** From every reachable state in which a side is down, whatever it and its peer are doing, have not
      delivered or not read: it can ever come up again, in any run whatsoever, exactly when it has not
      stopped and the exchange it is in can end well, or its peer has not stopped, it can answer a
      header that its peer can get to, and the peer can answer its header with a catch-up within the
      128 MiB that are read. */
  lemma ComesUpExactlyWhen(box: SecretBox, start: int, before: seq<Action>, d: nat, s: nat)
    requires Correct(box) && Runs(box, Start(start), before) && Ends(d, s)
    requires var w := After(box, Start(start), before); Bounded(w) && w.sides[d].ep.live.None?
    ensures var w := After(box, Start(start), before);
            Shape(w) && SocketsExist(w) && (CanComeUp(box, w, d) <==> HasWay(box, w, d, s))
  {
    var w := After(box, Start(start), before);
    StartInv(box, start);
    RunKeeps(box, Start(start), before);
    AlwaysSockets(box, Start(start), before);
    SafeSockets(box, w);
    hide Inv, Sized, NoWay, HasWay, Bounded, Runs, After;
    if HasWay(box, w, d, s) {
      var acts, w' := ComesUpFrom(box, w, d, s, start);
    } else {
      CannotComeUp(box, w, d, s);
      forall acts, w' | Leads(box, w, acts, w') ensures |w'.sides| == 2 && w'.sides[d].ep.live.None? {
        DownForever(box, w, acts, d, s);
      }
    }
  }

  /** In particular a peer that lacks only what fits the backup, or only what was accepted since the
      socket went down, is given an answer it reads. */
  lemma HonestAnswerRead(box: SecretBox, start: int, before: seq<Action>, d: nat, s: nat)
    requires Correct(box) && Runs(box, Start(start), before) && Ends(d, s)
    requires var w := After(box, Start(start), before);
             && |w.sides| == 2
             && var e, r := w.sides[s].ep, |w.sides[d].ep.delivered|;
             && r <= |e.accepted| && r < 0x8000_0000
             && (|| Total(e.accepted[r..]) <= MAX_BACKUP_BYTES
                 || (&& e.outage.Some? && e.outage.value <= r
                     && (r == e.outage.value < |e.accepted| ==> Charge(e.accepted[r]) <= MAX_BACKUP_BYTES)))
    ensures var w := After(box, Start(start), before);
            var answer := Catchup(box, w.sides[s].ep, SequenceHeader(w.sides[d].ep));
            answer.Some? && CatchupFits(answer.value)
  {
    ResumeNeverRefused(box, start, before, s, d);
    StartInv(box, start);
    RunKeeps(box, Start(start), before);
    var w := After(box, Start(start), before);
    ShapeOfInv(box, w);
    HonestCatchupFits(box, w.sides[s].ep, |w.sides[d].ep.delivered|);
    hide *;
  }

  // ---- a catch-up that no peer reads ----

  /** One frame was sent on the first socket and never received. */
  function Parted(box: SecretBox, m: Msg, e0: Endpoint, e1: Endpoint): World {
    World([Side(e0, Serving), Side(e1, Serving)],
          [[Stream([], 0), Stream([FrameItem(SealedAt(box, 0, 0, m))], 0)]])
  }

  lemma PartedShape(box: SecretBox, m: Msg, e0: Endpoint, e1: Endpoint)
    requires WellFormed(e0) && WellFormed(e1)
    requires (e0.live.Some? ==> e0.live == Some(0)) && (e1.live.Some? ==> e1.live == Some(0))
    ensures Shape(Parted(box, m, e0, e1)) && SocketsExist(Parted(box, m, e0, e1))
  {
    hide WellFormed, SealedAt;
  }

  lemma PartedKill(box: SecretBox, m: Msg, e0: Endpoint, e1: Endpoint)
    requires Shape(Parted(box, m, e0, e1)) && SocketsExist(Parted(box, m, e0, e1))
    ensures !e0.shuttingDown ==> Enabled(box, Parted(box, m, e0, e1), Kill(0))
    ensures !e0.shuttingDown ==> Apply(box, Parted(box, m, e0, e1), Kill(0)) == Parted(box, m, CloseSocket(e0), e1)
    ensures !e1.shuttingDown ==> Enabled(box, Parted(box, m, e0, e1), Kill(1))
    ensures !e1.shuttingDown ==> Apply(box, Parted(box, m, e0, e1), Kill(1)) == Parted(box, m, e0, CloseSocket(e1))
  {
    hide WellFormed, SealedAt, CloseSocket;
  }

  lemma PartedBuffers(box: SecretBox, m: Msg, e0: Endpoint, e1: Endpoint, more: Msg, now: int)
    requires Shape(Parted(box, m, e0, e1)) && SocketsExist(Parted(box, m, e0, e1))
    requires e0.live.None? && !e0.shuttingDown && !WriteRefused(e0, more)
    ensures Enabled(box, Parted(box, m, e0, e1), WriteMsg(0, more, false, now))
    ensures Apply(box, Parted(box, m, e0, e1), WriteMsg(0, more, false, now)) ==
            Parted(box, m, e0.(accepted := e0.accepted + [more]), e1)
  {
    hide WellFormed, SealedAt, WriteRefused;
  }

  /** The two ends after a packet was lost with the socket and another was buffered. */
  function Sender(first: Msg, second: Msg, now: int): Endpoint {
    NewEndpoint(0, 1, 0, now).(accepted := [first, second], live := None, outage := Some(1), downPending := true)
  }

  function Receiver(now: int): Endpoint {
    NewEndpoint(1, 0, 0, now).(live := None, outage := Some(0), downPending := true)
  }

  lemma SentPlain(first: Msg, now: int)
    requires Charge(first) <= MAX_BACKUP_BYTES
    ensures Sent(NewEndpoint(0, 1, 0, now), first, false, now) == NewEndpoint(0, 1, 0, now).(accepted := [first])
  {
    assert [] + [first] == [first] && [first][0..] == [first] && [first][1..] == [];
    assert Total([first]) == Charge(first);
  }

  lemma DownEnds(first: Msg, second: Msg, now: int)
    requires Charge(first) <= MAX_BACKUP_BYTES && |second.payload| <= DISCONNECT_BUFFER_BYTES
    ensures var e := NewEndpoint(0, 1, 0, now).(accepted := [first]);
            && WellFormed(e) && WellFormed(CloseSocket(e)) && !WriteRefused(CloseSocket(e), second)
            && CloseSocket(e).(accepted := [first] + [second]) == Sender(first, second, now)
            && WellFormed(Sender(first, second, now))
    ensures CloseSocket(NewEndpoint(1, 0, 0, now)) == Receiver(now) && WellFormed(Receiver(now))
    ensures WellFormed(NewEndpoint(1, 0, 0, now))
  {
    var e := NewEndpoint(0, 1, 0, now).(accepted := [first]);
    assert [first] + [second] == [first, second];
    assert [first][1..] == [] && Total([]) == 0;
    OfflineWriteKeeps(CloseSocket(e), second);
  }

  lemma ReachesParted(box: SecretBox, first: Msg, second: Msg, now: int) returns (acts: seq<Action>)
    requires Correct(box) && Charge(first) <= MAX_BACKUP_BYTES && |second.payload| <= DISCONNECT_BUFFER_BYTES
    ensures Leads(box, Start(now), acts, Parted(box, first, Sender(first, second, now), Receiver(now)))
  {
    var e0, e1 := NewEndpoint(0, 1, 0, now).(accepted := [first]), NewEndpoint(1, 0, 0, now);
    var f0, f1 := CloseSocket(e0), Receiver(now);
    SendingStarts(box, first, now);
    SentPlain(first, now);
    DownEnds(first, second, now);
    assert Leads(box, Start(now), [], Start(now));
    assert Apply(box, Start(now), WriteMsg(0, first, false, now)) == Parted(box, first, e0, e1);
    assert Enabled(box, Start(now), WriteMsg(0, first, false, now));
    hide Leads, Enabled, Apply, WellFormed, Parted, Sender, Receiver, StepsTo, Shape, WriteRefused;
    LeadsOn(box, Start(now), [], Start(now), WriteMsg(0, first, false, now));
    acts := [] + [WriteMsg(0, first, false, now)];
    PartedShape(box, first, e0, e1);
    PartedKill(box, first, e0, e1);
    LeadsOn(box, Start(now), acts, Parted(box, first, e0, e1), Kill(0));
    acts := acts + [Kill(0)];
    PartedShape(box, first, f0, e1);
    PartedKill(box, first, f0, e1);
    LeadsOn(box, Start(now), acts, Parted(box, first, f0, e1), Kill(1));
    acts := acts + [Kill(1)];
    PartedShape(box, first, f0, CloseSocket(e1));
    PartedBuffers(box, first, f0, CloseSocket(e1), second, now);
    LeadsOn(box, Start(now), acts, Parted(box, first, f0, CloseSocket(e1)), WriteMsg(0, second, false, now));
    acts := acts + [WriteMsg(0, second, false, now)];
  }

  /** The failing family is not empty, and the code meets it within its own limits: one packet that
      fits the backup is lost with its socket, one that the offline buffer takes follows, and
      together they are more than a peer reads in one catch-up. Both ends can answer, and yet the
      receiver never comes up again. */
  lemma UnreadableCatchup(box: SecretBox, first: Msg, second: Msg, now: int) returns (acts: seq<Action>, w: World)
    requires Correct(box) && Charge(first) <= MAX_BACKUP_BYTES && |second.payload| <= DISCONNECT_BUFFER_BYTES
    requires Charge(first) + Charge(second) > DEFAULT_MAX_PROTO_LENGTH
    ensures Leads(box, Start(now), acts, w) && AtRest(w) && Answerable(box, w)
    ensures !CanComeUp(box, w, 1)
  {
    w := Parted(box, first, Sender(first, second, now), Receiver(now));
    acts := ReachesParted(box, first, second, now);
    SenderAnswers(box, first, second, now);
    hide CanComeUp, Parted, Bounded, CanServe, AtRest, Answerable, Readable, CanAnswer;
    ComesUpExactlyWhen(box, now, acts, 1, 0);
  }

  lemma SenderAnswers(box: SecretBox, first: Msg, second: Msg, now: int)
    requires Correct(box) && Charge(first) + Charge(second) > DEFAULT_MAX_PROTO_LENGTH
    ensures var w := Parted(box, first, Sender(first, second, now), Receiver(now));
            && AtRest(w) && Answerable(box, w) && Bounded(w) && w.sides[1].mode.Serving? && !CanServe(box, w, 1, 0)
            && w.sides[0].ep.live.None? && w.sides[1].ep.live.None?
  {
    var ms := [first, second];
    EncodedBounds(box, 0, ms, 0);
    assert ms[0..] == ms && ms[1..] == [second] && [second][1..] == [] && Total([second]) == Charge(second);
    assert Total(ms) == Charge(first) + Charge(second);
    hide Log, SealedAt, EncodedLength, Charge;
  }
}
