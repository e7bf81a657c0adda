/** Two endpoints joined by sockets that may die at any moment. Each socket is a pair of streams
    that keep their whole history; losing in-flight data is a reader that never takes the rest.
    Every interleaving of writes, deliveries, socket deaths and recover attempts, including ones
    that succeed on one side only, is a run of this machine. */
module Sessions {
  import opened Bytes
  import opened Crypto
  import opened Endpoints
  import opened Packets
  import Framing

  datatype Item =
    | HeaderItem(seqno: Int32)
    | CatchupItem(entries: seq<ByteString>)
    | FrameItem(bytes: ByteString)

  datatype Stream = Stream(sent: seq<Item>, taken: nat)

  /** The recover exchange occupies its actor: it has written its header, or also its catch-up. */
  datatype Mode = Serving | AwaitHeader(socket: nat) | AwaitCatchup(socket: nat)

  datatype Side = Side(ep: Endpoint, mode: Mode)

  /** `wires[c][d]` is what socket `c` carries towards side `d`. */
  datatype World = World(sides: seq<Side>, wires: seq<seq<Stream>>)

  datatype Action =
    | Connect
    | WriteMsg(who: nat, m: Msg, refused: bool, now: int)
    | KeepaliveTick(who: nat, period: Option<int>, refused: bool, now: int)
    | Kill(who: nat)
    | ReportDown(who: nat)
    | Receive(who: nat)
    | DeliverNext(who: nat, now: int)
    | BeginRecover(who: nat, socket: nat)
    | AnswerHeader(who: nat)
    | FinishRecover(who: nat, now: int)
    | AbandonRecover(who: nat)
    | StopSession(who: nat)

  // ---- the machine ----

  ghost predicate Shape(w: World) {
    && |w.sides| == 2
    && (forall c :: 0 <= c < |w.wires| ==>
          && |w.wires[c]| == 2
          && w.wires[c][0].taken <= |w.wires[c][0].sent|
          && w.wires[c][1].taken <= |w.wires[c][1].sent|)
    && WellFormed(w.sides[0].ep) && WellFormed(w.sides[1].ep)
  }

  function WithSide(w: World, i: nat, s: Side): World
    requires i < |w.sides|
  {
    w.(sides := w.sides[i := s])
  }

  function WithStream(w: World, c: nat, d: nat, st: Stream): World
    requires c < |w.wires| && d < |w.wires[c]|
  {
    w.(wires := w.wires[c := w.wires[c][d := st]])
  }

  function Push(w: World, c: nat, d: nat, item: Item): World
    requires c < |w.wires| && d < |w.wires[c]|
  {
    var st := w.wires[c][d];
    WithStream(w, c, d, st.(sent := st.sent + [item]))
  }

  function Pull(w: World, c: nat, d: nat): World
    requires c < |w.wires| && d < |w.wires[c]|
  {
    var st := w.wires[c][d];
    WithStream(w, c, d, st.(taken := st.taken + 1))
  }

  ghost predicate NextIs(w: World, c: nat, d: nat, kind: Item -> bool)
    requires Shape(w) && d < 2
  {
    && c < |w.wires|
    && w.wires[c][d].taken < |w.wires[c][d].sent|
    && kind(w.wires[c][d].sent[w.wires[c][d].taken])
  }

  function NextItem(w: World, c: nat, d: nat): Item
    requires c < |w.wires| && d < |w.wires[c]| && w.wires[c][d].taken < |w.wires[c][d].sent|
  {
    w.wires[c][d].sent[w.wires[c][d].taken]
  }

  /** What the code itself demands of a step. */
  ghost predicate Possible(box: SecretBox, w: World, a: Action)
    requires Shape(w)
  {
    if a.Connect? then true
    else
      && a.who < 2
      && var me := w.sides[a.who];
      && !me.ep.shuttingDown
      && match a
         case AnswerHeader(i) =>
           && me.mode.AwaitHeader?
           && NextIs(w, me.mode.socket, i, (x: Item) => x.HeaderItem?)
           && Catchup(box, me.ep, NextItem(w, me.mode.socket, i).seqno).Some?
         case FinishRecover(i, _) =>
           && me.mode.AwaitCatchup?
           && NextIs(w, me.mode.socket, i, (x: Item) => x.CatchupItem? && CatchupFits(x.entries))
         case AbandonRecover(_) => !me.mode.Serving?
         case Receive(i) =>
           && me.mode.Serving? && me.ep.live.Some?
           && NextIs(w, me.ep.live.value, i,
                     (x: Item) => x.FrameItem? && Framing.ReadBack(x.bytes).Some?)
         case DeliverNext(_, _) => me.mode.Serving? && me.ep.inbox != []
         case ReportDown(_) => me.mode.Serving? && me.ep.downPending
         case BeginRecover(i, c) =>
           me.mode.Serving? && 0 < c < |w.wires| && w.wires[c][1 - i].sent == []
         case _ => me.mode.Serving?
  }

  /** The length prefix of the packet is true, or one the reader refuses. */
  predicate NotFragmented(m: Msg) {
    Charge(m) < 0x1_0000_0000 || Charge(m) % 0x1_0000_0000 > Framing.MAX_PACKET_LENGTH
  }

  /** What the protocol rests on beyond that: a recover starts with nothing left to deliver, no
      packet is written to a live socket whose length prefix makes the reader take a fragment of it,
      and fewer than 2^32 packets are ever backed up. */
  ghost predicate Disciplined(w: World, a: Action)
    requires Shape(w)
  {
    && (a.BeginRecover? && a.who < 2 ==> w.sides[a.who].ep.inbox == [])
    && (a.WriteMsg? && a.who < 2 && w.sides[a.who].ep.live.Some? ==> NotFragmented(a.m))
    && (a.AnswerHeader? && a.who < 2 ==>
          var e := w.sides[a.who].ep; |e.accepted| - e.floor < 0x1_0000_0000)
  }

  ghost predicate Enabled(box: SecretBox, w: World, a: Action) {
    Shape(w) && Possible(box, w, a) && Disciplined(w, a)
  }

  /** A writing endpoint that kept its socket has put the new packet on it. */
  function Emit(box: SecretBox, w: World, i: nat, e: Endpoint): World
    requires i < 2 && |w.sides| == 2
    requires w.sides[i].ep.live.Some? ==>
               w.sides[i].ep.live.value < |w.wires| && |w.wires[w.sides[i].ep.live.value]| == 2
  {
    var before := w.sides[i].ep;
    var w' := WithSide(w, i, w.sides[i].(ep := e));
    if before.live.Some? && e.live == before.live && |e.accepted| == |before.accepted| + 1 then
      var m := e.accepted[|before.accepted|];
      Push(w', before.live.value, 1 - i, FrameItem(SealedAt(box, e.outMsb, |before.accepted|, m)))
    else w'
  }

  ghost predicate SocketsExist(w: World)
    requires |w.sides| == 2
  {
    forall i :: 0 <= i < 2 ==>
      w.sides[i].ep.live.Some? ==> w.sides[i].ep.live.value < |w.wires|
  }

  ghost function Apply(box: SecretBox, w: World, a: Action): World
    requires Shape(w) && Possible(box, w, a) && SocketsExist(w)
  {
    match a
    case Connect => w.(wires := w.wires + [[Stream([], 0), Stream([], 0)]])
    case WriteMsg(i, m, refused, now) => Emit(box, w, i, Write(w.sides[i].ep, m, refused, now).0)
    case KeepaliveTick(i, period, refused, now) =>
      Emit(box, w, i, Tick(w.sides[i].ep, period, refused, now))
    case Kill(i) => WithSide(w, i, w.sides[i].(ep := CloseSocket(w.sides[i].ep)))
    case ReportDown(i) =>
      WithSide(w, i, w.sides[i].(ep := w.sides[i].ep.(downPending := false)))
    case Receive(i) =>
      var e := w.sides[i].ep;
      var bytes := Framing.ReadBack(NextItem(w, e.live.value, i).bytes).value;
      Pull(WithSide(w, i, w.sides[i].(ep := e.(inbox := e.inbox + [bytes]))), e.live.value, i)
    case DeliverNext(i, now) =>
      WithSide(w, i, w.sides[i].(ep := Deliver(box, w.sides[i].ep, now).0))
    case BeginRecover(i, c) =>
      Push(WithSide(w, i, w.sides[i].(mode := AwaitHeader(c))), c, 1 - i,
           HeaderItem(SequenceHeader(w.sides[i].ep)))
    case AnswerHeader(i) =>
      var c, e := w.sides[i].mode.socket, w.sides[i].ep;
      var entries := Catchup(box, e, NextItem(w, c, i).seqno).value;
      Push(Pull(WithSide(w, i, w.sides[i].(mode := AwaitCatchup(c))), c, i), c, 1 - i,
           CatchupItem(entries))
    case FinishRecover(i, now) =>
      var c, e := w.sides[i].mode.socket, w.sides[i].ep;
      var entries := NextItem(w, c, i).entries;
      Pull(WithSide(w, i, Side(Revive(e, entries, c, now), Serving)), c, i)
    case AbandonRecover(i) => WithSide(w, i, w.sides[i].(mode := Serving))
    case StopSession(i) =>
      WithSide(w, i, w.sides[i].(ep := w.sides[i].ep.(shuttingDown := true)))
  }

  /** Both ends of a fresh session use socket 0, with mirrored nonce directions. */
  function Start(now: int): World {
    World([Side(NewEndpoint(0, 1, 0, now), Serving), Side(NewEndpoint(1, 0, 0, now), Serving)],
          [[Stream([], 0), Stream([], 0)]])
  }

  // ---- the invariant ----

  /** `i` and `o` are the two ends. */
  predicate Ends(i: nat, o: nat) {
    (i == 0 && o == 1) || (i == 1 && o == 0)
  }

  /** From item `from` on, the stream carries the log from position `pos` on, and all of it when
      `exact`. */
  ghost predicate Frames(st: Stream, from: nat, log: seq<ByteString>, pos: nat, exact: bool) {
    && from <= |st.sent|
    && pos + |st.sent| - from <= |log|
    && (exact ==> pos + |st.sent| - from == |log|)
    && (forall j :: from <= j < |st.sent| ==> st.sent[j] == FrameItem(log[pos + j - from]))
  }

  /** The side will put everything it accepts from now on on socket `c`. */
  ghost predicate SendsOn(s: Side, c: nat) {
    s.ep.live == Some(c) || s.mode == AwaitCatchup(c)
  }

  /** What a recovering receiver that has `r` packets finds on the stream once the peer answered. */
  ghost predicate Answered(st: Stream, log: seq<ByteString>, r: nat, exact: bool) {
    |st.sent| >= 2 ==>
      && st.sent[1].CatchupItem?
      && var k := r + |st.sent[1].entries|;
      && k <= |log| && st.sent[1].entries == log[r..k]
      && Frames(st, 2, log, k, exact)
  }

  /** What `to` delivered and what waits in its inbox are consecutive stretches, from the start, of
      what its peer accepted. */
  ghost predicate Position(from: Endpoint, to: Endpoint, log: seq<ByteString>) {
    var r := |to.delivered|;
    var p := r + |to.inbox|;
    && to.inMsb == from.outMsb
    && !to.mismatch
    && p <= |log| == |from.accepted|
    && to.delivered == from.accepted[..r]
    && to.inbox == log[r..p]
  }

  /** The unread frames of the socket in use come next. */
  ghost predicate LivePart(w: World, s: nat, d: nat, log: seq<ByteString>)
    requires Shape(w) && Ends(s, d)
  {
    var e := w.sides[d].ep;
    e.live.Some? ==>
      var c := e.live.value;
      && c < |w.wires|
      && Frames(w.wires[c][d], w.wires[c][d].taken, log, |e.delivered| + |e.inbox|,
                SendsOn(w.sides[s], c))
  }

  /** A peer's answer on the socket of a running exchange continues what was delivered. */
  ghost predicate ExchangePart(w: World, s: nat, d: nat, log: seq<ByteString>)
    requires Shape(w) && Ends(s, d)
  {
    !w.sides[d].mode.Serving? ==>
      var c := w.sides[d].mode.socket;
      && c < |w.wires|
      && Answered(w.wires[c][d], log, |w.sides[d].ep.delivered|, SendsOn(w.sides[s], c))
  }

  ghost function LogOf(box: SecretBox, s: Side): seq<ByteString> {
    Log(box, s.ep.outMsb, s.ep.accepted)
  }

  /** The flow from side `s` to side `d`. */
  ghost predicate Flow(box: SecretBox, w: World, s: nat, d: nat)
    requires Shape(w) && Ends(s, d)
  {
    var log := LogOf(box, w.sides[s]);
    Position(w.sides[s].ep, w.sides[d].ep, log) && LivePart(w, s, d, log) && ExchangePart(w, s, d, log)
  }

  /** How far side `i` is in the exchange shows on the streams of its socket. */
  ghost predicate Books(w: World, i: nat, o: nat)
    requires Shape(w) && Ends(i, o)
  {
    var me := w.sides[i];
    && (me.ep.live.Some? ==>
          var c := me.ep.live.value;
          && c < |w.wires|
          && (c > 0 ==> |w.wires[c][o].sent| >= 2 && w.wires[c][i].taken >= 2))
    && (!me.mode.Serving? ==>
          var c := me.mode.socket;
          && 0 < c < |w.wires| && me.ep.live != Some(c) && me.ep.inbox == []
          && |w.wires[c][o].sent| == (if me.mode.AwaitHeader? then 1 else 2)
          && w.wires[c][o].sent[0] == HeaderItem(SequenceHeader(me.ep))
          && w.wires[c][i].taken == (if me.mode.AwaitHeader? then 0 else 1))
    && (forall c :: 0 < c < |w.wires| && (w.wires[c][i].taken > 0 || |w.wires[c][i].sent| >= 2) ==>
          w.wires[c][o].sent != [])
  }

  ghost predicate Inv(box: SecretBox, w: World) {
    Shape(w) && Flow(box, w, 0, 1) && Flow(box, w, 1, 0) && Books(w, 0, 1) && Books(w, 1, 0)
  }

  /** No packet that was ever accepted can be read as a fragment of itself. */
  ghost predicate Sized(e: Endpoint) {
    forall k :: 0 <= k < |e.accepted| ==> NotFragmented(e.accepted[k])
  }

  ghost predicate Safe(box: SecretBox, w: World) {
    Inv(box, w) && Sized(w.sides[0].ep) && Sized(w.sides[1].ep)
  }

  lemma StartInv(box: SecretBox, now: int)
    ensures Safe(box, Start(now))
  {
  }

  // ---- every step keeps it ----

  /** Side `i` changes to `me`, takes the next item off the incoming stream of socket `pulled`, and
      puts `item` on the outgoing stream of socket `pushed`. */
  ghost predicate Moved(w: World, w': World, i: nat, o: nat, me: Side, pulled: Option<nat>,
                        pushed: Option<nat>, item: Item)
    requires Shape(w) && Ends(i, o)
  {
    && Shape(w') && |w'.wires| == |w.wires|
    && w'.sides[i] == me && w'.sides[o] == w.sides[o]
    && (pulled.Some? ==> pulled.value < |w.wires|) && (pushed.Some? ==> pushed.value < |w.wires|)
    && (forall c :: 0 <= c < |w.wires| ==>
          w'.wires[c][i] == if pulled == Some(c) then Taken(w.wires[c][i]) else w.wires[c][i])
    && (forall c :: 0 <= c < |w.wires| ==>
          w'.wires[c][o] == if pushed == Some(c) then Appended(w.wires[c][o], item) else w.wires[c][o])
  }

  function Taken(st: Stream): Stream {
    st.(taken := st.taken + 1)
  }

  function Appended(st: Stream, item: Item): Stream {
    st.(sent := st.sent + [item])
  }

  /** A side that received and delivered nothing, and at most let go of a socket or an exchange. */
  ghost predicate Holds(before: Side, me: Side, pulled: Option<nat>) {
    && (pulled.Some? ==> pulled != before.ep.live)
    && me.ep.inMsb == before.ep.inMsb && me.ep.delivered == before.ep.delivered
    && me.ep.inbox == before.ep.inbox && me.ep.mismatch == before.ep.mismatch
    && (me.ep.live == before.ep.live || me.ep.live == None)
    && (me.mode.Serving? || (!before.mode.Serving? && me.mode.socket == before.mode.socket))
  }

  lemma SelfLive(w: World, w': World, i: nat, o: nat, me: Side, pulled: Option<nat>,
                 pushed: Option<nat>, item: Item, log: seq<ByteString>)
    requires Shape(w) && Ends(i, o) && LivePart(w, o, i, log)
    requires Moved(w, w', i, o, me, pulled, pushed, item) && Holds(w.sides[i], me, pulled)
    ensures LivePart(w', o, i, log)
  {
    hide WellFormed, Frames, SendsOn;
  }

  lemma SelfExchange(w: World, w': World, i: nat, o: nat, me: Side, pulled: Option<nat>,
                     pushed: Option<nat>, item: Item, log: seq<ByteString>)
    requires Shape(w) && Ends(i, o) && ExchangePart(w, o, i, log)
    requires Moved(w, w', i, o, me, pulled, pushed, item) && Holds(w.sides[i], me, pulled)
    ensures ExchangePart(w', o, i, log)
  {
    hide WellFormed, SendsOn;
  }

  /** The flow towards a side that received nothing. */
  lemma SelfFlow(box: SecretBox, w: World, w': World, i: nat, o: nat, me: Side,
                 pulled: Option<nat>, pushed: Option<nat>, item: Item)
    requires Shape(w) && Ends(i, o) && Flow(box, w, o, i)
    requires Moved(w, w', i, o, me, pulled, pushed, item) && Holds(w.sides[i], me, pulled)
    ensures Flow(box, w', o, i)
  {
    hide WellFormed, LogOf, LivePart, ExchangePart;
    SelfLive(w, w', i, o, me, pulled, pushed, item, LogOf(box, w.sides[o]));
    SelfExchange(w, w', i, o, me, pulled, pushed, item, LogOf(box, w.sides[o]));
  }

  lemma AnsweredWeaker(st: Stream, log: seq<ByteString>, r: nat, exact: bool, exact': bool)
    requires Answered(st, log, r, exact) && (exact' ==> exact)
    ensures Answered(st, log, r, exact')
  {
  }

  /** A side that keeps using only what it used. */
  ghost predicate Lessens(before: Side, me: Side) {
    && me.ep.outMsb == before.ep.outMsb && me.ep.accepted == before.ep.accepted
    && (me.ep.live.Some? ==> SendsOn(before, me.ep.live.value))
    && (me.mode.AwaitCatchup? ==> SendsOn(before, me.mode.socket))
  }

  lemma PeerLive(w: World, w': World, i: nat, o: nat, me: Side, pulled: Option<nat>, item: Item,
                 log: seq<ByteString>)
    requires Shape(w) && Ends(i, o) && LivePart(w, i, o, log)
    requires Moved(w, w', i, o, me, pulled, None, item) && Lessens(w.sides[i], me)
    ensures LivePart(w', i, o, log)
  {
    hide WellFormed, Frames;
    var to := w.sides[o].ep;
    if to.live.Some? {
      var c := to.live.value;
      FramesWeaker(w.wires[c][o], w.wires[c][o].taken, log, |to.delivered| + |to.inbox|,
                   SendsOn(w.sides[i], c), SendsOn(me, c));
    }
  }

  lemma PeerExchange(w: World, w': World, i: nat, o: nat, me: Side, pulled: Option<nat>, item: Item,
                     log: seq<ByteString>)
    requires Shape(w) && Ends(i, o) && ExchangePart(w, i, o, log)
    requires Moved(w, w', i, o, me, pulled, None, item) && Lessens(w.sides[i], me)
    ensures ExchangePart(w', i, o, log)
  {
    hide WellFormed, Answered;
    var to := w.sides[o];
    if !to.mode.Serving? {
      var c := to.mode.socket;
      AnsweredWeaker(w.wires[c][o], log, |to.ep.delivered|, SendsOn(w.sides[i], c), SendsOn(me, c));
    }
  }

  /** The flow away from a side that sent and accepted nothing. */
  lemma PeerFlow(box: SecretBox, w: World, w': World, i: nat, o: nat, me: Side, pulled: Option<nat>,
                 item: Item)
    requires Shape(w) && Ends(i, o) && Flow(box, w, i, o)
    requires Moved(w, w', i, o, me, pulled, None, item) && Lessens(w.sides[i], me)
    ensures Flow(box, w', i, o)
  {
    var log := LogOf(box, w.sides[i]);
    assert LogOf(box, me) == log;
    hide WellFormed, LogOf, LivePart, ExchangePart, SendsOn;
    PeerLive(w, w', i, o, me, pulled, item, log);
    PeerExchange(w, w', i, o, me, pulled, item, log);
  }

  lemma FramesWeaker(st: Stream, from: nat, log: seq<ByteString>, pos: nat, exact: bool, exact': bool)
    requires Frames(st, from, log, pos, exact) && (exact' ==> exact)
    ensures Frames(st, from, log, pos, exact')
  {
  }

  lemma SelfBooks(w: World, w': World, i: nat, o: nat, me: Side, pulled: Option<nat>,
                  pushed: Option<nat>, item: Item)
    requires Shape(w) && Ends(i, o) && Books(w, i, o) && Moved(w, w', i, o, me, pulled, pushed, item)
    requires pulled.Some? ==>
               me.mode.Serving? && (pulled.value > 0 ==> w.wires[pulled.value][o].sent != [])
    requires var before := w.sides[i];
             && (me.ep.live == before.ep.live || me.ep.live == None)
             && (me.mode.Serving? ||
                 (&& me.mode == before.mode && me.ep.inbox == before.ep.inbox
                  && me.ep.delivered == before.ep.delivered && pushed == None))
    ensures Books(w', i, o)
  {
    hide WellFormed;
  }

  lemma PeerBooks(w: World, w': World, i: nat, o: nat, me: Side, pulled: Option<nat>,
                  pushed: Option<nat>, item: Item)
    requires Shape(w) && Ends(i, o) && Books(w, o, i)
    requires Moved(w, w', i, o, me, pulled, pushed, item)
    requires pushed.Some? && pushed.value > 0 ==>
               w.wires[pushed.value][o].sent == [] || w.wires[pushed.value][i].sent != []
    ensures Books(w', o, i)
  {
    hide WellFormed;
  }

  lemma MovedShape(w: World, w': World, i: nat, o: nat, me: Side, pulled: Option<nat>,
                   pushed: Option<nat>, item: Item)
    requires Shape(w) && Ends(i, o) && Moved(w, w', i, o, me, pulled, pushed, item)
    ensures Shape(w')
  {
    hide WellFormed;
  }

  lemma MovedByWithSide(w: World, i: nat, o: nat, me: Side, item: Item)
    requires Shape(w) && Ends(i, o) && WellFormed(me.ep)
    ensures Moved(w, WithSide(w, i, me), i, o, me, None, None, item)
  {
    hide WellFormed;
  }

  lemma MovedByPush(w: World, i: nat, o: nat, me: Side, c: nat, item: Item)
    requires Shape(w) && Ends(i, o) && WellFormed(me.ep) && c < |w.wires|
    ensures Moved(w, Push(WithSide(w, i, me), c, o, item), i, o, me, None, Some(c), item)
  {
    hide WellFormed;
  }

  lemma MovedByPull(w: World, i: nat, o: nat, me: Side, c: nat, item: Item)
    requires Shape(w) && Ends(i, o) && WellFormed(me.ep) && c < |w.wires|
    requires w.wires[c][i].taken < |w.wires[c][i].sent|
    ensures Moved(w, Pull(WithSide(w, i, me), c, i), i, o, me, Some(c), None, item)
  {
    hide WellFormed;
  }

  lemma MovedByBoth(w: World, i: nat, o: nat, me: Side, c: nat, item: Item)
    requires Shape(w) && Ends(i, o) && WellFormed(me.ep) && c < |w.wires|
    requires w.wires[c][i].taken < |w.wires[c][i].sent|
    ensures Moved(w, Push(Pull(WithSide(w, i, me), c, i), c, o, item), i, o, me, Some(c), Some(c), item)
  {
    hide WellFormed;
  }

  // ---- writes and pings ----

  /** The bytes of the next message a side accepts. */
  function NextSealed(box: SecretBox, e: Endpoint, m: Msg): ByteString {
    SealedAt(box, e.outMsb, |e.accepted|, m)
  }

  lemma FramesGrow(st: Stream, from: nat, log: seq<ByteString>, pos: nat, x: ByteString)
    requires Frames(st, from, log, pos, false)
    ensures Frames(st, from, log + [x], pos, false)
    ensures Frames(st, from, log, pos, true) ==>
              Frames(Appended(st, FrameItem(x)), from, log + [x], pos, true)
  {
  }

  lemma AnsweredGrows(st: Stream, log: seq<ByteString>, r: nat, x: ByteString)
    requires r <= |log| && Answered(st, log, r, false)
    ensures Answered(st, log + [x], r, false)
    ensures |st.sent| >= 2 && Answered(st, log, r, true) ==>
              Answered(Appended(st, FrameItem(x)), log + [x], r, true)
  {
    if |st.sent| >= 2 {
      var k := r + |st.sent[1].entries|;
      FramesGrow(st, 2, log, k, x);
      assert (log + [x])[r..k] == log[r..k];
    }
  }

  lemma PositionGrows(from: Endpoint, from': Endpoint, to: Endpoint, log: seq<ByteString>, m: Msg, x: ByteString)
    requires Position(from, to, log)
    requires from'.outMsb == from.outMsb && from'.accepted == from.accepted + [m]
    ensures Position(from', to, log + [x])
    ensures |to.delivered| <= |log|
  {
    var r, p := |to.delivered|, |to.delivered| + |to.inbox|;
    assert (log + [x])[r..p] == log[r..p];
    assert (from.accepted + [m])[..r] == from.accepted[..r];
  }

  /** What a write or a keepalive ping may do to its endpoint. */
  ghost predicate WriterStep(e: Endpoint, e': Endpoint) {
    && e'.outMsb == e.outMsb && e'.inMsb == e.inMsb
    && e'.delivered == e.delivered && e'.inbox == e.inbox && e'.mismatch == e.mismatch
    && (e'.live == e.live || e'.live == None)
    && (|| e'.accepted == e.accepted
        || (|e'.accepted| == |e.accepted| + 1 && e'.accepted[..|e.accepted|] == e.accepted))
  }

  /** `i` accepted `m`, and put it on socket `pushed`, which then is the one it uses. */
  ghost predicate Accepts(box: SecretBox, w: World, w': World, i: nat, o: nat, e: Endpoint,
                          pushed: Option<nat>, m: Msg)
    requires Shape(w) && Ends(i, o)
  {
    var before := w.sides[i].ep;
    && w.sides[i].mode == Serving && WriterStep(before, e) && e.accepted == before.accepted + [m]
    && (e.live == None || (e.live == before.live == pushed))
    && (pushed == None || pushed == before.live)
    && Moved(w, w', i, o, Side(e, Serving), None, pushed, FrameItem(NextSealed(box, before, m)))
  }

  lemma LivePartGrows(box: SecretBox, w: World, w': World, i: nat, o: nat, e: Endpoint,
                      pushed: Option<nat>, m: Msg, log: seq<ByteString>)
    requires Shape(w) && Ends(i, o) && Accepts(box, w, w', i, o, e, pushed, m)
    requires LivePart(w, i, o, log)
    ensures LivePart(w', i, o, log + [NextSealed(box, w.sides[i].ep, m)])
  {
    hide WellFormed, NextSealed;
    var to := w.sides[o].ep;
    if to.live.Some? {
      var st := w.wires[to.live.value][o];
      FramesGrow(st, st.taken, log, |to.delivered| + |to.inbox|, NextSealed(box, w.sides[i].ep, m));
    }
  }

  lemma ExchangePartGrows(box: SecretBox, w: World, w': World, i: nat, o: nat, e: Endpoint,
                          pushed: Option<nat>, m: Msg, log: seq<ByteString>)
    requires Shape(w) && Ends(i, o) && Accepts(box, w, w', i, o, e, pushed, m)
    requires ExchangePart(w, i, o, log) && Books(w, i, o) && Books(w, o, i)
    requires |w.sides[o].ep.delivered| <= |log|
    ensures ExchangePart(w', i, o, log + [NextSealed(box, w.sides[i].ep, m)])
  {
    hide WellFormed, NextSealed;
    if !w.sides[o].mode.Serving? {
      AnsweredGrows(w.wires[w.sides[o].mode.socket][o], log, |w.sides[o].ep.delivered|,
                    NextSealed(box, w.sides[i].ep, m));
    }
  }

  lemma FlowGrows(box: SecretBox, w: World, w': World, i: nat, o: nat, e: Endpoint,
                  pushed: Option<nat>, m: Msg)
    requires Shape(w) && Ends(i, o) && Accepts(box, w, w', i, o, e, pushed, m)
    requires Flow(box, w, i, o) && Books(w, i, o) && Books(w, o, i)
    ensures Shape(w') && Flow(box, w', i, o)
  {
    var before := w.sides[i].ep;
    var log, x := LogOf(box, w.sides[i]), NextSealed(box, before, m);
    LogAppend(box, before.outMsb, before.accepted, m);
    assert LogOf(box, w'.sides[i]) == log + [x];
    hide WellFormed, LogOf, Log, SealedAt, NextSealed, LivePart, ExchangePart, Position;
    PositionGrows(before, e, w.sides[o].ep, log, m, x);
    LivePartGrows(box, w, w', i, o, e, pushed, m, log);
    ExchangePartGrows(box, w, w', i, o, e, pushed, m, log);
  }

  lemma AcceptKeeps(box: SecretBox, w: World, w': World, i: nat, o: nat, e: Endpoint,
                    pushed: Option<nat>, m: Msg)
    requires Inv(box, w) && Ends(i, o) && Accepts(box, w, w', i, o, e, pushed, m)
    ensures Inv(box, w')
  {
    hide WellFormed, Flow, NextSealed, Moved;
    var me, item := Side(e, Serving), FrameItem(NextSealed(box, w.sides[i].ep, m));
    FlowGrows(box, w, w', i, o, e, pushed, m);
    SelfFlow(box, w, w', i, o, me, None, pushed, item);
    SelfBooks(w, w', i, o, me, None, pushed, item);
    PeerBooks(w, w', i, o, me, None, pushed, item);
  }

  /** A side that moved nothing and only let go of a socket, of an exchange or of its session. */
  lemma QuietKeeps(box: SecretBox, w: World, i: nat, o: nat, me: Side)
    requires Inv(box, w) && Ends(i, o) && WellFormed(me.ep)
    requires WriterStep(w.sides[i].ep, me.ep) && me.ep.accepted == w.sides[i].ep.accepted
    requires me.mode == w.sides[i].mode || me.mode == Serving
    ensures Inv(box, WithSide(w, i, me))
  {
    hide WellFormed, Flow, Books, Moved, WithSide;
    var w', item := WithSide(w, i, me), HeaderItem(0);
    MovedByWithSide(w, i, o, me, item);
    MovedShape(w, w', i, o, me, None, None, item);
    SelfFlow(box, w, w', i, o, me, None, None, item);
    PeerFlow(box, w, w', i, o, me, None, item);
    SelfBooks(w, w', i, o, me, None, None, item);
    PeerBooks(w, w', i, o, me, None, None, item);
  }

  lemma EmitKeeps(box: SecretBox, w: World, i: nat, o: nat, e: Endpoint)
    requires Inv(box, w) && Ends(i, o) && w.sides[i].mode == Serving
    requires WellFormed(e) && WriterStep(w.sides[i].ep, e)
    ensures Inv(box, Emit(box, w, i, e))
  {
    hide WellFormed, SealedAt, Flow, Push, WithSide, Moved;
    var before, me, w' := w.sides[i].ep, Side(e, Serving), Emit(box, w, i, e);
    if e.accepted == before.accepted {
      QuietKeeps(box, w, i, o, me);
    } else {
      var m := e.accepted[|before.accepted|];
      assert e.accepted == before.accepted + [m];
      var item := FrameItem(NextSealed(box, before, m));
      if before.live.Some? && e.live == before.live {
        MovedByPush(w, i, o, me, before.live.value, item);
        AcceptKeeps(box, w, w', i, o, e, before.live, m);
      } else {
        MovedByWithSide(w, i, o, me, item);
        AcceptKeeps(box, w, w', i, o, e, None, m);
      }
    }
  }

  lemma WriteIsWriterStep(e: Endpoint, m: Msg, refused: bool, now: int)
    requires WellFormed(e)
    ensures WriterStep(e, Write(e, m, refused, now).0)
  {
    hide WellFormed;
    assert (e.accepted + [m])[..|e.accepted|] == e.accepted;
  }

  lemma TickIsWriterStep(e: Endpoint, period: Option<int>, refused: bool, now: int)
    requires WellFormed(e)
    ensures WriterStep(e, Tick(e, period, refused, now))
  {
    if e.live.Some? {
      PingKeeps(e, now);
      hide WellFormed, Write;
      WriteIsWriterStep(e.(waiting := true, lastActivity := now), Msg(KEEP_ALIVE, []), refused, now);
    }
  }

  // ---- receiving and delivering ----

  lemma ReceiveFlow(box: SecretBox, w: World, w': World, i: nat, o: nat, c: nat, bytes: ByteString, item: Item)
    requires Shape(w) && Ends(i, o) && Flow(box, w, o, i)
    requires w.sides[i].mode == Serving && w.sides[i].ep.live == Some(c) && c < |w.wires|
    requires w.wires[c][i].taken < |w.wires[c][i].sent| && NextItem(w, c, i) == FrameItem(bytes)
    requires var e := w.sides[i].ep;
             Moved(w, w', i, o, Side(e.(inbox := e.inbox + [bytes]), Serving), Some(c), None, item)
    ensures Flow(box, w', o, i)
  {
    hide WellFormed, LogOf;
    var e, log := w.sides[i].ep, LogOf(box, w.sides[o]);
    var r, p := |e.delivered|, |e.delivered| + |e.inbox|;
    assert bytes == log[p];
    assert log[r..p] + [log[p]] == log[r..p + 1];
  }

  lemma ReceiveKeeps(box: SecretBox, w: World, i: nat, o: nat, c: nat, bytes: ByteString, me: Side)
    requires Inv(box, w) && Ends(i, o) && c < |w.wires|
    requires w.sides[i].mode == Serving && w.sides[i].ep.live == Some(c)
    requires w.wires[c][i].taken < |w.wires[c][i].sent| && NextItem(w, c, i) == FrameItem(bytes)
    requires me == Side(w.sides[i].ep.(inbox := w.sides[i].ep.inbox + [bytes]), Serving)
    ensures Inv(box, Pull(WithSide(w, i, me), c, i))
  {
    LiveBooks(w, i, o);
    hide WellFormed, Flow, Books, Moved, Pull, WithSide;
    var w', item := Pull(WithSide(w, i, me), c, i), HeaderItem(0);
    InboxKeeps(w.sides[i].ep, me.ep.inbox);
    MovedByPull(w, i, o, me, c, item);
    MovedShape(w, w', i, o, me, Some(c), None, item);
    ReceiveFlow(box, w, w', i, o, c, bytes, item);
    PeerFlow(box, w, w', i, o, me, Some(c), item);
    SelfBooks(w, w', i, o, me, Some(c), None, item);
    PeerBooks(w, w', i, o, me, Some(c), None, item);
  }

  /** A socket in use that came from an exchange has carried both parts of it. */
  lemma LiveBooks(w: World, i: nat, o: nat)
    requires Shape(w) && Ends(i, o) && Books(w, i, o) && w.sides[i].ep.live.Some?
    ensures w.sides[i].ep.live.value < |w.wires|
    ensures w.sides[i].ep.live.value > 0 ==> w.wires[w.sides[i].ep.live.value][o].sent != []
  {
    hide WellFormed;
  }

  lemma InboxKeeps(e: Endpoint, inbox: seq<ByteString>)
    requires WellFormed(e)
    ensures WellFormed(e.(inbox := inbox))
  {
  }

  lemma DeliverPosition(box: SecretBox, from: Endpoint, e: Endpoint, now: int)
    requires Correct(box) && e.inbox != []
    requires Position(from, e, Log(box, from.outMsb, from.accepted))
    ensures var (e', log) := (Deliver(box, e, now).0, Log(box, from.outMsb, from.accepted));
            && Position(from, e', log)
            && |e'.delivered| + |e'.inbox| == |e.delivered| + |e.inbox|
            && Deliver(box, e, now).1 == Delivered(from.accepted[|e.delivered|])
  {
    var r := |e.delivered|;
    OpensInOrder(box, from.outMsb, from.accepted, r);
    hide Opened, Log, SealedAt;
    var log := Log(box, from.outMsb, from.accepted);
    assert e.inbox[0] == log[r];
    assert log[r..r + |e.inbox|][1..] == log[r + 1..r + |e.inbox|];
    assert from.accepted[..r] + [from.accepted[r]] == from.accepted[..r + 1];
  }

  lemma DeliverLive(w: World, w': World, i: nat, o: nat, e: Endpoint, item: Item, log: seq<ByteString>)
    requires Shape(w) && Ends(i, o) && LivePart(w, o, i, log)
    requires Moved(w, w', i, o, Side(e, Serving), None, None, item)
    requires e.live == w.sides[i].ep.live
    requires |e.delivered| + |e.inbox| == |w.sides[i].ep.delivered| + |w.sides[i].ep.inbox|
    ensures LivePart(w', o, i, log)
  {
    hide WellFormed, Frames, SendsOn;
  }

  lemma DeliverFlow(box: SecretBox, w: World, w': World, i: nat, o: nat, now: int, item: Item)
    requires Correct(box) && Shape(w) && Ends(i, o) && Flow(box, w, o, i)
    requires w.sides[i].mode == Serving && w.sides[i].ep.inbox != []
    requires Moved(w, w', i, o, Side(Deliver(box, w.sides[i].ep, now).0, Serving), None, None, item)
    ensures Flow(box, w', o, i)
  {
    var e := Deliver(box, w.sides[i].ep, now).0;
    DeliverPosition(box, w.sides[o].ep, w.sides[i].ep, now);
    assert e.live == w.sides[i].ep.live;
    hide WellFormed, Log, Deliver, Position, LivePart;
    DeliverLive(w, w', i, o, e, item, LogOf(box, w.sides[o]));
  }

  lemma DeliverStepKeeps(box: SecretBox, w: World, i: nat, o: nat, now: int, me: Side)
    requires Correct(box) && Inv(box, w) && Ends(i, o)
    requires w.sides[i].mode == Serving && w.sides[i].ep.inbox != []
    requires me == Side(Deliver(box, w.sides[i].ep, now).0, Serving)
    ensures Inv(box, WithSide(w, i, me))
  {
    hide WellFormed, Flow, Books, Moved, WithSide, Opened;
    var w', item := WithSide(w, i, me), HeaderItem(0);
    DeliverKeeps(box, w.sides[i].ep, now);
    MovedByWithSide(w, i, o, me, item);
    MovedShape(w, w', i, o, me, None, None, item);
    DeliverFlow(box, w, w', i, o, now, item);
    PeerFlow(box, w, w', i, o, me, None, item);
    SelfBooks(w, w', i, o, me, None, None, item);
    PeerBooks(w, w', i, o, me, None, None, item);
  }

  // ---- the recover exchange ----

  lemma BeginSelfFlow(box: SecretBox, w: World, w': World, i: nat, o: nat, c: nat, item: Item)
    requires Shape(w) && Ends(i, o) && Flow(box, w, o, i) && Books(w, i, o)
    requires 0 < c < |w.wires| && w.wires[c][o].sent == []
    requires Moved(w, w', i, o, w.sides[i].(mode := AwaitHeader(c)), None, Some(c), item)
    ensures Flow(box, w', o, i)
  {
    hide WellFormed, LogOf, Frames;
  }

  lemma BeginPeerLive(w: World, w': World, i: nat, o: nat, c: nat, item: Item, log: seq<ByteString>)
    requires Shape(w) && Ends(i, o) && LivePart(w, i, o, log) && Books(w, o, i)
    requires 0 < c < |w.wires| && w.wires[c][o].sent == [] && w.sides[i].mode == Serving
    requires Moved(w, w', i, o, w.sides[i].(mode := AwaitHeader(c)), None, Some(c), item)
    ensures LivePart(w', i, o, log)
  {
    hide WellFormed, Frames, SequenceHeader;
  }

  lemma BeginPeerExchange(w: World, w': World, i: nat, o: nat, c: nat, item: Item, log: seq<ByteString>)
    requires Shape(w) && Ends(i, o) && ExchangePart(w, i, o, log)
    requires 0 < c < |w.wires| && w.wires[c][o].sent == [] && w.sides[i].mode == Serving
    requires Moved(w, w', i, o, w.sides[i].(mode := AwaitHeader(c)), None, Some(c), item)
    ensures ExchangePart(w', i, o, log)
  {
    hide WellFormed, Frames;
  }

  lemma BeginPeerFlow(box: SecretBox, w: World, w': World, i: nat, o: nat, c: nat, item: Item)
    requires Shape(w) && Ends(i, o) && Flow(box, w, i, o) && Books(w, o, i)
    requires 0 < c < |w.wires| && w.wires[c][o].sent == [] && w.sides[i].mode == Serving
    requires Moved(w, w', i, o, w.sides[i].(mode := AwaitHeader(c)), None, Some(c), item)
    ensures Flow(box, w', i, o)
  {
    var log := LogOf(box, w.sides[i]);
    assert LogOf(box, w'.sides[i]) == log;
    hide WellFormed, LogOf, Books, LivePart, ExchangePart;
    BeginPeerLive(w, w', i, o, c, item, log);
    BeginPeerExchange(w, w', i, o, c, item, log);
  }

  lemma BeginBooks(w: World, w': World, i: nat, o: nat, c: nat)
    requires Shape(w) && Ends(i, o) && Books(w, i, o)
    requires 0 < c < |w.wires| && w.wires[c][o].sent == [] && w.sides[i].ep.inbox == []
    requires Moved(w, w', i, o, w.sides[i].(mode := AwaitHeader(c)), None, Some(c),
                   HeaderItem(SequenceHeader(w.sides[i].ep)))
    ensures Books(w', i, o)
  {
    hide WellFormed, SequenceHeader;
  }

  lemma BeginKeeps(box: SecretBox, w: World, i: nat, o: nat, c: nat, me: Side, item: Item)
    requires Inv(box, w) && Ends(i, o) && 0 < c < |w.wires| && w.wires[c][o].sent == []
    requires w.sides[i].mode == Serving && w.sides[i].ep.inbox == []
    requires me == w.sides[i].(mode := AwaitHeader(c))
    requires item == HeaderItem(SequenceHeader(w.sides[i].ep))
    ensures Inv(box, Push(WithSide(w, i, me), c, o, item))
  {
    var w' := Push(WithSide(w, i, me), c, o, item);
    hide WellFormed, Flow, Books, Moved, Push, WithSide, SequenceHeader;
    MovedByPush(w, i, o, me, c, item);
    MovedShape(w, w', i, o, me, None, Some(c), item);
    BeginSelfFlow(box, w, w', i, o, c, item);
    BeginPeerFlow(box, w, w', i, o, c, item);
    BeginBooks(w, w', i, o, c);
    PeerBooks(w, w', i, o, me, None, Some(c), item);
  }

  /** What the answer to an honest header contains: the log from where the peer stands. */
  lemma AnswerIsTail(box: SecretBox, from: Endpoint, to: Endpoint, n: Int32)
    requires WellFormed(from) && Position(from, to, Log(box, from.outMsb, from.accepted))
    requires n == SequenceHeader(to) && Catchup(box, from, n).Some?
    requires |from.accepted| - from.floor < 0x1_0000_0000
    ensures Catchup(box, from, n).value == Log(box, from.outMsb, from.accepted)[|to.delivered|..]
  {
    TruncationExact(box, from, |to.delivered|);
  }

  lemma AnswerPeerLive(w: World, w': World, i: nat, o: nat, c: nat, item: Item, log: seq<ByteString>)
    requires Shape(w) && Ends(i, o) && LivePart(w, i, o, log) && Books(w, i, o) && Books(w, o, i)
    requires w.sides[i].mode == AwaitHeader(c) && c < |w.wires|
    requires Moved(w, w', i, o, w.sides[i].(mode := AwaitCatchup(c)), Some(c), Some(c), item)
    ensures LivePart(w', i, o, log)
  {
    hide WellFormed, Frames, SequenceHeader;
  }

  lemma AnswerPeerExchange(w: World, w': World, i: nat, o: nat, c: nat, entries: seq<ByteString>,
                           log: seq<ByteString>)
    requires Shape(w) && Ends(i, o) && ExchangePart(w, i, o, log) && Books(w, i, o)
    requires w.sides[i].mode == AwaitHeader(c) && c < |w.wires|
    requires |w.sides[o].ep.delivered| <= |log|
    requires w.sides[o].mode.Serving? || w.sides[o].mode.socket != c ||
             entries == log[|w.sides[o].ep.delivered|..]
    requires Moved(w, w', i, o, w.sides[i].(mode := AwaitCatchup(c)), Some(c), Some(c), CatchupItem(entries))
    ensures ExchangePart(w', i, o, log)
  {
    hide WellFormed, SequenceHeader;
  }

  lemma AnswerPeerFlow(box: SecretBox, w: World, w': World, i: nat, o: nat, c: nat,
                       entries: seq<ByteString>)
    requires Shape(w) && Ends(i, o) && Flow(box, w, i, o) && Books(w, i, o) && Books(w, o, i)
    requires w.sides[i].mode == AwaitHeader(c) && c < |w.wires|
    requires |w.sides[o].ep.delivered| <= |w.sides[i].ep.accepted|
    requires w.sides[o].mode.Serving? || w.sides[o].mode.socket != c ||
             entries == LogOf(box, w.sides[i])[|w.sides[o].ep.delivered|..]
    requires Moved(w, w', i, o, w.sides[i].(mode := AwaitCatchup(c)), Some(c), Some(c), CatchupItem(entries))
    ensures Flow(box, w', i, o)
  {
    var log := LogOf(box, w.sides[i]);
    assert LogOf(box, w'.sides[i]) == log && |log| == |w.sides[i].ep.accepted|;
    hide WellFormed, LogOf, Books, LivePart, ExchangePart;
    AnswerPeerLive(w, w', i, o, c, CatchupItem(entries), log);
    AnswerPeerExchange(w, w', i, o, c, entries, log);
  }

  lemma AnswerBooks(w: World, w': World, i: nat, o: nat, c: nat, item: Item)
    requires Shape(w) && Ends(i, o) && Books(w, i, o)
    requires w.sides[i].mode == AwaitHeader(c) && c < |w.wires|
    requires Moved(w, w', i, o, w.sides[i].(mode := AwaitCatchup(c)), Some(c), Some(c), item)
    ensures Books(w', i, o)
  {
    hide WellFormed, SequenceHeader;
  }

  /** The header an honest peer's answer is computed from is the one this peer sent. */
  lemma HeaderIsPeers(w: World, i: nat, o: nat, c: nat)
    requires Shape(w) && Ends(i, o) && Books(w, i, o) && Books(w, o, i)
    requires w.sides[i].mode == AwaitHeader(c)
    ensures c < |w.wires| && w.wires[c][i].taken == 0 && w.sides[i].ep.live != Some(c)
    ensures !w.sides[o].mode.Serving? && w.sides[o].mode.socket == c ==>
              w.wires[c][i].sent != [] &&
              w.wires[c][i].sent[0] == HeaderItem(SequenceHeader(w.sides[o].ep))
  {
    hide WellFormed, SequenceHeader;
  }

  lemma AnswerEntries(box: SecretBox, w: World, i: nat, o: nat, c: nat, n: Int32)
    requires Inv(box, w) && Ends(i, o) && w.sides[i].mode == AwaitHeader(c) && c < |w.wires|
    requires w.wires[c][i].taken < |w.wires[c][i].sent| && NextItem(w, c, i) == HeaderItem(n)
    requires Catchup(box, w.sides[i].ep, n).Some?
    requires |w.sides[i].ep.accepted| - w.sides[i].ep.floor < 0x1_0000_0000
    ensures |w.sides[o].ep.delivered| <= |w.sides[i].ep.accepted|
    ensures w.sides[o].mode.Serving? || w.sides[o].mode.socket != c ||
            Catchup(box, w.sides[i].ep, n).value == LogOf(box, w.sides[i])[|w.sides[o].ep.delivered|..]
  {
    HeaderIsPeers(w, i, o, c);
    hide WellFormed, Books, SequenceHeader, Catchup, LivePart, ExchangePart, Log;
    if !w.sides[o].mode.Serving? && w.sides[o].mode.socket == c {
      AnswerIsTail(box, w.sides[i].ep, w.sides[o].ep, n);
    }
  }

  lemma AnswerKeeps(box: SecretBox, w: World, i: nat, o: nat, c: nat, n: Int32, me: Side, item: Item)
    requires Inv(box, w) && Ends(i, o) && w.sides[i].mode == AwaitHeader(c) && c < |w.wires|
    requires w.wires[c][i].taken < |w.wires[c][i].sent| && NextItem(w, c, i) == HeaderItem(n)
    requires Catchup(box, w.sides[i].ep, n).Some?
    requires |w.sides[i].ep.accepted| - w.sides[i].ep.floor < 0x1_0000_0000
    requires me == w.sides[i].(mode := AwaitCatchup(c))
    requires item == CatchupItem(Catchup(box, w.sides[i].ep, n).value)
    ensures Inv(box, Push(Pull(WithSide(w, i, me), c, i), c, o, item))
  {
    AnswerEntries(box, w, i, o, c, n);
    HeaderIsPeers(w, i, o, c);
    hide WellFormed, Flow, Books, Moved, Push, Pull, WithSide, SequenceHeader, Catchup, LogOf;
    var w' := Push(Pull(WithSide(w, i, me), c, i), c, o, item);
    MovedByBoth(w, i, o, me, c, item);
    MovedShape(w, w', i, o, me, Some(c), Some(c), item);
    SelfFlow(box, w, w', i, o, me, Some(c), Some(c), item);
    AnswerPeerFlow(box, w, w', i, o, c, item.entries);
    AnswerBooks(w, w', i, o, c, item);
    PeerBooks(w, w', i, o, me, Some(c), Some(c), item);
  }

  lemma FinishSelfFlow(box: SecretBox, w: World, w': World, i: nat, o: nat, c: nat,
                       entries: seq<ByteString>, now: int, item: Item)
    requires Shape(w) && Ends(i, o) && Flow(box, w, o, i) && Books(w, i, o)
    requires w.sides[i].mode == AwaitCatchup(c) && c < |w.wires|
    requires w.wires[c][i].taken < |w.wires[c][i].sent| && NextItem(w, c, i) == CatchupItem(entries)
    requires Moved(w, w', i, o, Side(Revive(w.sides[i].ep, entries, c, now), Serving), Some(c), None, item)
    ensures Flow(box, w', o, i)
  {
    hide WellFormed, LogOf, SequenceHeader;
    assert [] + entries == entries;
  }

  lemma FinishBooks(w: World, w': World, i: nat, o: nat, c: nat, entries: seq<ByteString>, now: int,
                    item: Item)
    requires Shape(w) && Ends(i, o) && Books(w, i, o)
    requires w.sides[i].mode == AwaitCatchup(c) && c < |w.wires|
    requires Moved(w, w', i, o, Side(Revive(w.sides[i].ep, entries, c, now), Serving), Some(c), None, item)
    ensures Books(w', i, o)
  {
    hide WellFormed, SequenceHeader;
  }

  lemma FinishKeeps(box: SecretBox, w: World, i: nat, o: nat, c: nat, entries: seq<ByteString>,
                    now: int, me: Side)
    requires Inv(box, w) && Ends(i, o) && w.sides[i].mode == AwaitCatchup(c) && c < |w.wires|
    requires w.wires[c][i].taken < |w.wires[c][i].sent| && NextItem(w, c, i) == CatchupItem(entries)
    requires me == Side(Revive(w.sides[i].ep, entries, c, now), Serving)
    ensures Inv(box, Pull(WithSide(w, i, me), c, i))
  {
    ReviveKeeps(w.sides[i].ep, entries, c, now);
    hide WellFormed, Flow, Books, Moved, Pull, WithSide;
    var w', item := Pull(WithSide(w, i, me), c, i), HeaderItem(0);
    MovedByPull(w, i, o, me, c, item);
    MovedShape(w, w', i, o, me, Some(c), None, item);
    FinishSelfFlow(box, w, w', i, o, c, entries, now, item);
    PeerFlow(box, w, w', i, o, me, Some(c), item);
    FinishBooks(w, w', i, o, c, entries, now, item);
    PeerBooks(w, w', i, o, me, Some(c), None, item);
  }

  lemma ReviveKeeps(e: Endpoint, entries: seq<ByteString>, c: nat, now: int)
    requires WellFormed(e)
    ensures WellFormed(Revive(e, entries, c, now))
  {
  }

  // ---- the theorem ----

  lemma ConnectFlow(box: SecretBox, w: World, w': World, i: nat, o: nat)
    requires Shape(w) && Ends(i, o) && Flow(box, w, i, o) && Shape(w')
    requires w' == w.(wires := w.wires + [[Stream([], 0), Stream([], 0)]])
    ensures Flow(box, w', i, o)
  {
    hide WellFormed, LogOf;
  }

  lemma ConnectBooks(w: World, w': World, i: nat, o: nat)
    requires Shape(w) && Ends(i, o) && Books(w, i, o) && Shape(w')
    requires w' == w.(wires := w.wires + [[Stream([], 0), Stream([], 0)]])
    ensures Books(w', i, o)
  {
    hide WellFormed, SequenceHeader;
  }

  lemma ConnectKeeps(box: SecretBox, w: World)
    requires Inv(box, w)
    ensures Inv(box, Apply(box, w, Connect))
  {
    var w' := Apply(box, w, Connect);
    hide WellFormed, Flow, Books;
    assert Shape(w');
    ConnectFlow(box, w, w', 0, 1);
    ConnectFlow(box, w, w', 1, 0);
    ConnectBooks(w, w', 0, 1);
    ConnectBooks(w, w', 1, 0);
  }

  lemma InvSockets(box: SecretBox, w: World)
    requires Inv(box, w)
    ensures SocketsExist(w)
  {
    hide WellFormed, Flow;
  }

  /** Steps inside an exchange. */
  lemma ExchangeStepKeeps(box: SecretBox, w: World, a: Action)
    requires Inv(box, w) && Enabled(box, w, a) && SocketsExist(w)
    requires a.BeginRecover? || a.AnswerHeader? || a.FinishRecover? || a.AbandonRecover?
    ensures Inv(box, Apply(box, w, a))
  {
    hide Inv, WellFormed, Catchup, SequenceHeader, Revive, Push, Pull, WithSide;
    var i: nat, o: nat := a.who, 1 - a.who;
    var me := w.sides[i];
    match a
    case BeginRecover(_, c) =>
      BeginKeeps(box, w, i, o, c, me.(mode := AwaitHeader(c)), HeaderItem(SequenceHeader(me.ep)));
    case AnswerHeader(_) =>
      var c := me.mode.socket;
      var n := NextItem(w, c, i).seqno;
      AnswerKeeps(box, w, i, o, c, n, me.(mode := AwaitCatchup(c)), CatchupItem(Catchup(box, me.ep, n).value));
    case FinishRecover(_, now) =>
      var c := me.mode.socket;
      var entries := NextItem(w, c, i).entries;
      FinishKeeps(box, w, i, o, c, entries, now, Side(Revive(me.ep, entries, c, now), Serving));
    case AbandonRecover(_) =>
      ShapeOfInv(box, w);
      QuietKeeps(box, w, i, o, me.(mode := Serving));
  }

  lemma ShapeOfInv(box: SecretBox, w: World)
    requires Inv(box, w)
    ensures Shape(w) && WellFormed(w.sides[0].ep) && WellFormed(w.sides[1].ep)
  {
    hide WellFormed, Flow, Books;
  }

  /** Steps outside an exchange. */
  lemma ServingStepKeeps(box: SecretBox, w: World, a: Action)
    requires Correct(box) && Safe(box, w) && Enabled(box, w, a) && SocketsExist(w)
    requires !(a.Connect? || a.BeginRecover? || a.AnswerHeader? || a.FinishRecover? || a.AbandonRecover?)
    ensures Inv(box, Apply(box, w, a))
  {
    ShapeOfInv(box, w);
    if a.Receive? {
      ArrivesWhole(box, w, a.who, 1 - a.who);
    }
    hide Inv, Sized, WellFormed, Write, Tick, Deliver, Emit, Pull, WithSide, Framing.ReadBack;
    var i: nat, o: nat := a.who, 1 - a.who;
    var e := w.sides[i].ep;
    match a
    case WriteMsg(_, m, refused, now) =>
      WriteKeeps(e, m, refused, now);
      WriteIsWriterStep(e, m, refused, now);
      EmitKeeps(box, w, i, o, Write(e, m, refused, now).0);
    case KeepaliveTick(_, period, refused, now) =>
      TickKeeps(e, period, refused, now);
      TickIsWriterStep(e, period, refused, now);
      EmitKeeps(box, w, i, o, Tick(e, period, refused, now));
    case Kill(_) =>
      CloseKeeps(e);
      QuietKeeps(box, w, i, o, w.sides[i].(ep := CloseSocket(e)));
    case ReportDown(_) =>
      ReportKeeps(e);
      QuietKeeps(box, w, i, o, w.sides[i].(ep := e.(downPending := false)));
    case Receive(_) =>
      var bytes := NextItem(w, e.live.value, i).bytes;
      ReceiveKeeps(box, w, i, o, e.live.value, bytes, Side(e.(inbox := e.inbox + [bytes]), Serving));
    case DeliverNext(_, now) =>
      DeliverStepKeeps(box, w, i, o, now, Side(Deliver(box, e, now).0, Serving));
    case StopSession(_) =>
      StopKeeps(e);
      QuietKeeps(box, w, i, o, w.sides[i].(ep := e.(shuttingDown := true)));
  }

  lemma ReportKeeps(e: Endpoint)
    requires WellFormed(e)
    ensures WellFormed(e.(downPending := false))
  {
  }

  lemma StopKeeps(e: Endpoint)
    requires WellFormed(e)
    ensures WellFormed(e.(shuttingDown := true))
  {
  }

  /** A frame that the reader does not refuse is the packet that was sealed. */
  lemma ArrivesWhole(box: SecretBox, w: World, i: nat, o: nat)
    requires Correct(box) && Safe(box, w) && Ends(i, o) && SocketsExist(w) && w.sides[i].ep.live.Some?
    requires var c := w.sides[i].ep.live.value;
             && w.wires[c][i].taken < |w.wires[c][i].sent| && NextItem(w, c, i).FrameItem?
             && Framing.ReadBack(NextItem(w, c, i).bytes).Some?
    ensures var bytes := NextItem(w, w.sides[i].ep.live.value, i).bytes;
            Framing.ReadBack(bytes) == Some(bytes)
  {
    var e, from := w.sides[i].ep, w.sides[o].ep;
    var p := |e.delivered| + |e.inbox|;
    var bytes := NextItem(w, e.live.value, i).bytes;
    hide WellFormed, Books, ExchangePart, Framing.ReadBack, SealedAt, Charge;
    assert Flow(box, w, o, i) && Sized(from);
    assert p < |from.accepted| && bytes == Log(box, from.outMsb, from.accepted)[p] by {
      hide Log, Sized;
    }
    hide Inv, Flow;
    SealedSize(box, from.outMsb, p, from.accepted[p]);
    assert NotFragmented(from.accepted[p]);
    Framing.ArrivesAsItself(bytes);
  }

  lemma WriteSized(e: Endpoint, m: Msg, refused: bool, now: int)
    requires WellFormed(e) && Sized(e) && (e.live.Some? ==> NotFragmented(m))
    ensures Sized(Write(e, m, refused, now).0)
  {
    assert e.live.None? ==> e.outage.Some? && e.outage.value <= |e.accepted|;
    hide WellFormed, Trimmed, Total;
  }

  lemma TickSized(e: Endpoint, period: Option<int>, refused: bool, now: int)
    requires WellFormed(e) && Sized(e)
    ensures Sized(Tick(e, period, refused, now))
  {
    if e.live.Some? {
      PingKeeps(e, now);
      WriteSized(e.(waiting := true, lastActivity := now), Msg(KEEP_ALIVE, []), refused, now);
    }
    hide Write, WellFormed;
  }

  /** What a step leaves in the log of side `i`. */
  lemma LogKept(box: SecretBox, w: World, a: Action, i: nat)
    requires Enabled(box, w, a) && SocketsExist(w) && i < 2
    requires !((a.WriteMsg? || a.KeepaliveTick?) && a.who == i)
    ensures var w' := Apply(box, w, a);
            |w'.sides| == 2 && w'.sides[i].ep.accepted == w.sides[i].ep.accepted
  {
    hide WellFormed, Write, Tick, Catchup, SealedAt, SequenceHeader, Disciplined, Opened;
  }

  lemma SizedKept(box: SecretBox, w: World, a: Action, i: nat)
    requires Enabled(box, w, a) && SocketsExist(w) && i < 2 && Sized(w.sides[i].ep)
    ensures var w' := Apply(box, w, a); |w'.sides| == 2 && Sized(w'.sides[i].ep)
  {
    var e := w.sides[i].ep;
    if a.WriteMsg? && a.who == i {
      WriteSized(e, a.m, a.refused, a.now);
      hide WellFormed, Write, Sized, SealedAt, Possible;
    } else if a.KeepaliveTick? && a.who == i {
      TickSized(e, a.period, a.refused, a.now);
      hide WellFormed, Tick, Sized, SealedAt, Possible;
    } else {
      LogKept(box, w, a, i);
      hide Enabled, Apply;
    }
  }

  /** Every step keeps the invariant. */
  lemma StepKeeps(box: SecretBox, w: World, a: Action)
    requires Correct(box) && Safe(box, w) && Enabled(box, w, a)
    ensures SocketsExist(w) && Safe(box, Apply(box, w, a))
  {
    InvSockets(box, w);
    SizedKept(box, w, a, 0);
    SizedKept(box, w, a, 1);
    hide Inv, Sized, Possible, Disciplined, Apply;
    if a.Connect? {
      ConnectKeeps(box, w);
    } else if a.BeginRecover? || a.AnswerHeader? || a.FinishRecover? || a.AbandonRecover? {
      ExchangeStepKeeps(box, w, a);
    } else {
      ServingStepKeeps(box, w, a);
    }
  }

  // ---- whole runs ----

  ghost predicate Runs(box: SecretBox, w: World, acts: seq<Action>)
    decreases |acts|
  {
    acts == [] ||
    (Enabled(box, w, acts[0]) && SocketsExist(w) && Runs(box, Apply(box, w, acts[0]), acts[1..]))
  }

  ghost function After(box: SecretBox, w: World, acts: seq<Action>): World
    requires Runs(box, w, acts)
    decreases |acts|
  {
    if acts == [] then w else After(box, Apply(box, w, acts[0]), acts[1..])
  }

  lemma {:induction false} RunKeeps(box: SecretBox, w: World, acts: seq<Action>)
    requires Correct(box) && Safe(box, w) && Runs(box, w, acts)
    ensures Safe(box, After(box, w, acts))
    decreases |acts|
  {
    hide Safe, Shape, Possible, Disciplined, Apply, SocketsExist;
    if acts != [] {
      StepKeeps(box, w, acts[0]);
      RunKeeps(box, Apply(box, w, acts[0]), acts[1..]);
    }
  }

  /** Exactly-once, in-order delivery across outages: in every reachable state, what either side
      delivered is a prefix of what the other accepted, with the same headers and payloads, and no
      session has died of a crypto mismatch. */
  lemma ExactlyOnceInOrder(box: SecretBox, now: int, acts: seq<Action>)
    requires Correct(box) && Runs(box, Start(now), acts)
    ensures var w := After(box, Start(now), acts);
            && |w.sides| == 2
            && w.sides[0].ep.delivered <= w.sides[1].ep.accepted
            && w.sides[1].ep.delivered <= w.sides[0].ep.accepted
            && !w.sides[0].ep.mismatch && !w.sides[1].ep.mismatch
  {
    StartInv(box, now);
    RunKeeps(box, Start(now), acts);
    hide After, Runs, LivePart, ExchangePart, Books, WellFormed, LogOf;
  }

  /** A receiver that uses the sender's socket and has drained it has everything. */
  lemma AllArrived(box: SecretBox, w: World, d: nat, s: nat)
    requires Inv(box, w) && Ends(s, d)
    requires w.sides[s].ep.live.Some? && w.sides[d].ep.live == w.sides[s].ep.live && w.sides[d].ep.inbox == []
    requires var c := w.sides[s].ep.live.value;
             c < |w.wires| && w.wires[c][d].taken == |w.wires[c][d].sent|
    ensures w.sides[d].ep.delivered == w.sides[s].ep.accepted
  {
    hide ExchangePart, Books, WellFormed;
    assert Flow(box, w, s, d);
    assert |w.sides[d].ep.delivered| == |w.sides[s].ep.accepted|;
  }

  /** And nothing is lost: once both sides use the same socket and the receiver has drained it,
      everything ever accepted, before and during every outage, has been delivered. */
  lemma NothingLost(box: SecretBox, now: int, acts: seq<Action>, d: nat, s: nat)
    requires Correct(box) && Runs(box, Start(now), acts) && Ends(s, d)
    requires var w := After(box, Start(now), acts);
             && |w.sides| == 2 && w.sides[s].ep.live.Some? && w.sides[d].ep.live == w.sides[s].ep.live
             && w.sides[d].ep.inbox == []
             && var c := w.sides[s].ep.live.value;
             && c < |w.wires| && |w.wires[c]| == 2 && w.wires[c][d].taken == |w.wires[c][d].sent|
    ensures var w := After(box, Start(now), acts);
            w.sides[d].ep.delivered == w.sides[s].ep.accepted
  {
    StartInv(box, now);
    RunKeeps(box, Start(now), acts);
    hide After, Runs, Inv, Sized;
    AllArrived(box, After(box, Start(now), acts), d, s);
  }

  /** In every reachable state a peer that lacks only what fits the backup, or only what was accepted
      since the socket went down, is never refused: its header gets exactly what it lacks. */
  lemma ResumeNeverRefused(box: SecretBox, now: int, acts: seq<Action>, i: nat, o: nat)
    requires Correct(box) && Runs(box, Start(now), acts) && Ends(i, o)
    requires var w := After(box, Start(now), acts);
             && |w.sides| == 2
             && var e, r := w.sides[i].ep, |w.sides[o].ep.delivered|;
             && r <= |e.accepted| && r < 0x8000_0000
             && (|| Total(e.accepted[r..]) <= MAX_BACKUP_BYTES
                 || (&& e.outage.Some? && e.outage.value <= r
                     && (r == e.outage.value < |e.accepted| ==> Charge(e.accepted[r]) <= MAX_BACKUP_BYTES)))
    ensures var w := After(box, Start(now), acts);
            var e, peer := w.sides[i].ep, w.sides[o].ep;
            Catchup(box, e, SequenceHeader(peer)) == Some(Log(box, e.outMsb, e.accepted)[|peer.delivered|..])
  {
    StartInv(box, now);
    RunKeeps(box, Start(now), acts);
    var w := After(box, Start(now), acts);
    hide After, Runs, Flow, Books, Catchup, Log, Total, WellFormed;
    HonestPeerServed(box, w.sides[i].ep, |w.sides[o].ep.delivered|);
  }

  // ---- nonces ----

  ghost predicate Directions(w: World) {
    |w.sides| == 2 && w.sides[0].ep.outMsb == 0 && w.sides[1].ep.outMsb == 1
  }

  lemma StepDirections(box: SecretBox, w: World, a: Action)
    requires Enabled(box, w, a) && SocketsExist(w) && Directions(w)
    ensures Directions(Apply(box, w, a))
  {
    if a.WriteMsg? {
      WriteIsWriterStep(w.sides[a.who].ep, a.m, a.refused, a.now);
    } else if a.KeepaliveTick? {
      TickIsWriterStep(w.sides[a.who].ep, a.period, a.refused, a.now);
    }
    hide WellFormed, Log, SealedAt, Catchup, Opened, Write, Tick, Disciplined, SequenceHeader, CloseSocket;
    if !a.Connect? && a.who == 0 {
      assert Apply(box, w, a).sides[1].ep == w.sides[1].ep;
    } else {
      assert Apply(box, w, a).sides[0].ep == w.sides[0].ep;
    }
  }

  lemma {:induction false} RunDirections(box: SecretBox, w: World, acts: seq<Action>)
    requires Runs(box, w, acts) && Directions(w)
    ensures Directions(After(box, w, acts))
    decreases |acts|
  {
    hide Shape, Possible, Disciplined, Apply, SocketsExist, Directions;
    if acts != [] {
      StepDirections(box, w, acts[0]);
      RunDirections(box, Apply(box, w, acts[0]), acts[1..]);
    }
  }

  /** Over a whole session, across all its sockets and catch-ups, no two packets are sealed with the
      same nonce, up to 256^23 packets each way. */
  lemma NoNonceReuse(box: SecretBox, now: int, acts: seq<Action>, i: nat, k: nat, i': nat, k': nat)
    requires Runs(box, Start(now), acts) && i < 2 && i' < 2 && (i, k) != (i', k')
    requires var w := After(box, Start(now), acts);
             && |w.sides| == 2
             && k < |w.sides[i].ep.accepted| <= Pow256(NONCE_BYTES - 1)
             && k' < |w.sides[i'].ep.accepted| <= Pow256(NONCE_BYTES - 1)
    ensures var w := After(box, Start(now), acts);
            NonceAfter(w.sides[i].ep.outMsb, k + 1) != NonceAfter(w.sides[i'].ep.outMsb, k' + 1)
  {
    RunDirections(box, Start(now), acts);
    hide After, Runs;
    var w := After(box, Start(now), acts);
    NoncesDistinct(w.sides[i].ep.outMsb, k + 1, w.sides[i'].ep.outMsb, k' + 1);
  }

  // ---- why a recover has to start with an empty inbox ----

  /** Catch-up from the counted position joins a non-empty inbox as a repetition: the result is a
      continuation of the peer's log exactly when the inbox was empty. */
  lemma EmptyInboxNeeded(box: SecretBox, from: Endpoint, to: Endpoint, c: nat, now: int)
    requires Position(from, to, Log(box, from.outMsb, from.accepted))
    ensures var log := Log(box, from.outMsb, from.accepted);
            Position(from, Revive(to, log[|to.delivered|..], c, now), log) <==> to.inbox == []
  {
    var log := Log(box, from.outMsb, from.accepted);
    var r := |to.delivered|;
    if to.inbox == [] {
      assert [] + log[r..] == log[r..|log|];
    }
  }

  /** The endpoint after delivering `n` packets. */
  function DeliverMany(box: SecretBox, e: Endpoint, n: nat, now: int): Endpoint
    requires n <= |e.inbox|
    decreases n
  {
    if n == 0 then e else DeliverMany(box, Deliver(box, e, now).0, n - 1, now)
  }

  lemma RepeatedRejected(box: SecretBox, msb: Byte, ms: seq<Msg>, r: nat, p: nat)
    requires r < |ms|
    requires box.open(NonceAfter(msb, p + 1), box.seal(NonceAfter(msb, r + 1), ms[r].payload)) == None
    ensures Opened(box, msb, p, Log(box, msb, ms)[r]) == Mismatch
  {
    ParseUndoesSerialize(Wire(true, ms[r].header, box.seal(NonceAfter(msb, r + 1), ms[r].payload)));
  }

  /** The repetition ends the session as soon as the cipher rejects the first repeated packet under
      the nonce that is due. */
  lemma {:induction false} RepetitionKills(box: SecretBox, from: Endpoint, e: Endpoint, r: nat, p: nat, now: int)
    requires Correct(box) && e.inMsb == from.outMsb
    requires r < p <= |from.accepted| && |e.delivered| <= p
    requires var log := Log(box, from.outMsb, from.accepted);
             e.inbox == log[|e.delivered|..p] + log[r..]
    requires box.open(NonceAfter(from.outMsb, p + 1),
                      box.seal(NonceAfter(from.outMsb, r + 1), from.accepted[r].payload)) == None
    ensures DeliverMany(box, e, p - |e.delivered| + 1, now).mismatch
    decreases p - |e.delivered|
  {
    var log, q := Log(box, from.outMsb, from.accepted), |e.delivered|;
    var e' := Deliver(box, e, now).0;
    if q == p {
      RepeatedRejected(box, from.outMsb, from.accepted, r, p);
      assert log[q..p] == [];
      hide Opened, Log, SealedAt;
      assert e.inbox[0] == log[r];
      assert DeliverMany(box, e', 0, now) == e';
    } else {
      OpensInOrder(box, from.outMsb, from.accepted, q);
      hide Log, SealedAt;
      assert e.inbox[0] == log[q];
      OpensNext(box, e, from.accepted[q], now);
      assert e.inbox[1..] == log[q + 1..p] + log[r..];
      hide Opened, Deliver, Correct;
      RepetitionKills(box, from, e', r, p, now);
    }
  }

  lemma OpensNext(box: SecretBox, e: Endpoint, m: Msg, now: int)
    requires e.inbox != [] && Opened(box, e.inMsb, |e.delivered|, e.inbox[0]) == Delivered(m)
    ensures var e' := Deliver(box, e, now).0;
            e'.inbox == e.inbox[1..] && |e'.delivered| == |e.delivered| + 1 && e'.inMsb == e.inMsb
  {
    hide Opened;
  }

  // ---- packets of 2^32 bytes and more ----

  /** What the reader is left with of a packet whose length was cut to 32 bits. */
  function Fragment(box: SecretBox, m: Msg): ByteString
    requires Correct(box)
  {
    SealedSize(box, 0, 0, m);
    SealedAt(box, 0, 0, m)[..Charge(m) % 0x1_0000_0000]
  }

  /** A world after its first message was written and, if `taken`, received as a fragment. */
  function Sending(box: SecretBox, m: Msg, now: int, e1: Endpoint, taken: nat): World {
    var e0 := Sent(NewEndpoint(0, 1, 0, now), m, false, now);
    World([Side(e0, Serving), Side(e1, Serving)],
          [[Stream([], 0), Stream([FrameItem(SealedAt(box, 0, 0, m))], taken)]])
  }

  /** A step the code can take, whether or not it keeps the discipline. */
  ghost predicate StepsTo(box: SecretBox, w: World, a: Action, w': World) {
    Shape(w) && SocketsExist(w) && Possible(box, w, a) && Apply(box, w, a) == w'
  }

  lemma SendingStarts(box: SecretBox, m: Msg, now: int)
    requires Correct(box)
    ensures var w := Sending(box, m, now, NewEndpoint(1, 0, 0, now), 0);
            StepsTo(box, Start(now), WriteMsg(0, m, false, now), w) && Shape(w) && SocketsExist(w)
  {
    var e := NewEndpoint(0, 1, 0, now);
    assert WellFormed(e) && WellFormed(NewEndpoint(1, 0, 0, now));
    LiveWriteKeeps(e, m, false, now);
    assert Write(e, m, false, now).0 == Sent(e, m, false, now);
    assert Sent(e, m, false, now).accepted == [m];
    hide WellFormed, Trimmed, SealedAt, Write;
    var w := Emit(box, Start(now), 0, Sent(e, m, false, now));
    var frame := FrameItem(SealedAt(box, 0, 0, m));
    assert [] + [frame] == [frame];
    assert w.sides == [Side(Sent(e, m, false, now), Serving), Side(NewEndpoint(1, 0, 0, now), Serving)];
    assert w.wires[0] == [Stream([], 0), Stream([frame], 0)];
  }

  lemma FragmentReceived(box: SecretBox, m: Msg, now: int)
    requires Correct(box) && Charge(m) % 0x1_0000_0000 <= Framing.MAX_PACKET_LENGTH
    requires Shape(Sending(box, m, now, NewEndpoint(1, 0, 0, now), 0))
    ensures var e1 := NewEndpoint(1, 0, 0, now);
            var w, w' := Sending(box, m, now, e1, 0), Sending(box, m, now, e1.(inbox := [Fragment(box, m)]), 1);
            StepsTo(box, w, Receive(1), w') && Shape(w') && SocketsExist(w')
  {
    var e1, bytes := NewEndpoint(1, 0, 0, now), SealedAt(box, 0, 0, m);
    SealedSize(box, 0, 0, m);
    var w, w' := Sending(box, m, now, e1, 0), Sending(box, m, now, e1.(inbox := [Fragment(box, m)]), 1);
    assert Framing.ReadBack(bytes) == Some(Fragment(box, m));
    assert WellFormed(e1.(inbox := [Fragment(box, m)]));
    hide WellFormed, Trimmed, SealedAt, Framing.ReadBack, Fragment, Charge;
    assert [] + [Fragment(box, m)] == [Fragment(box, m)];
    assert Apply(box, w, Receive(1)).sides == w'.sides;
    assert Apply(box, w, Receive(1)).wires[0] == w'.wires[0];
  }

  lemma FragmentDelivered(box: SecretBox, m: Msg, now: int, e1: Endpoint, e2: Endpoint)
    requires Correct(box) && e1 == NewEndpoint(1, 0, 0, now).(inbox := [Fragment(box, m)])
    requires Shape(Sending(box, m, now, e1, 1)) && e2 == Deliver(box, e1, now).0
    ensures StepsTo(box, Sending(box, m, now, e1, 1), DeliverNext(1, now), Sending(box, m, now, e2, 1))
    ensures e2.mismatch <==> Opened(box, 0, 0, Fragment(box, m)).Mismatch?
    ensures |Fragment(box, m)| < OVERHEAD ==> e2.mismatch
  {
    assert |Fragment(box, m)| < OVERHEAD ==> Opened(box, 0, 0, Fragment(box, m)).Mismatch?;
    hide WellFormed, Fragment, Opened, Charge, SealedAt, Trimmed;
    assert Apply(box, Sending(box, m, now, e1, 1), DeliverNext(1, now)).sides == Sending(box, m, now, e2, 1).sides;
  }

  /** The limit on live writes is exact: any packet outside it, written first, is read as a
      fragment, and unless the cipher opens that fragment the peer's session dies of a mismatch. */
  lemma OversizeWriteKills(box: SecretBox, m: Msg, now: int) returns (w1: World, w2: World, w3: World)
    requires Correct(box) && !NotFragmented(m)
    ensures StepsTo(box, Start(now), WriteMsg(0, m, false, now), w1)
    ensures StepsTo(box, w1, Receive(1), w2) && StepsTo(box, w2, DeliverNext(1, now), w3)
    ensures |w3.sides| == 2
    ensures w3.sides[1].ep.mismatch <==> Opened(box, 0, 0, Fragment(box, m)).Mismatch?
    ensures |Fragment(box, m)| < OVERHEAD ==> w3.sides[1].ep.mismatch
  {
    var e0 := NewEndpoint(1, 0, 0, now);
    var e1 := e0.(inbox := [Fragment(box, m)]);
    var e2 := Deliver(box, e1, now).0;
    w1, w2, w3 := Sending(box, m, now, e0, 0), Sending(box, m, now, e1, 1), Sending(box, m, now, e2, 1);
    SendingStarts(box, m, now);
    hide StepsTo, Shape, Fragment, Opened, Deliver, Charge, SealedAt, Sent, SocketsExist;
    FragmentReceived(box, m, now);
    FragmentDelivered(box, m, now, e1, e2);
  }
}
