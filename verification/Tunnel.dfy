/** Two engines, each with sources of its own and each answering the other's requests, joined by a
    first-in first-out link each way that may lose any frame. For every tunnel opened from engine A,
    what is queued for a local connection at either end is at all times a prefix of what was read
    from the connection at the other end, as long as nothing is sent after a loss. `Pairs` carries
    this over to the tunnels opened from engine B. */
module Tunnels {
  import opened Bytes
  import opened Forwarding
  import opened TunnelViews

  /** How far a request has come. */
  datatype Stage = Asked | Linked(socket: U32) | Refused

  /** A destination connection and the connection id it was opened for. */
  datatype Link = Link(conn: U32, h: Handle)

  /** What belongs to the tunnels opened from the other end: their ids and connections here. */
  datatype Aside = Aside(ids: set<U32>, handles: set<Handle>)

  datatype Net = Net(
    a: Engine,
    b: Engine,
    toB: seq<Frame>,
    toA: seq<Frame>,
    accepted: map<U32, Handle>,       // by connection id of engine A
    stages: map<U32, Stage>,          // by connection id of engine A
    links: map<U32, Link>,            // by socket id
    readers: set<U32>,                // connection ids whose connection is being read
    gotA: map<U32, ByteString>,       // read so far, by connection id
    gotB: map<U32, ByteString>,       // read so far, by socket id
    asideA: Aside,
    asideB: Aside,
    lossB: map<U32, Loss>,            // by socket id
    lossA: map<U32, Loss>)

  datatype Step =
    | AcceptA(source: nat, h: Handle)
    | ReadA(conn: U32, result: ReadResult)
    | ReadB(socket: U32, result: ReadResult)
    | RecvA(dial: Dial, takes: bool)
    | RecvB(dial: Dial, takes: bool)
    // tunnels opened from the other end
    | AcceptB(source: nat, h: Handle)
    | ReadAsideA(id: U32, result: ReadResult)
    | ReadAsideB(id: U32, result: ReadResult)
    // a frame given up at shutdown, or skipped by the session
    | LoseA(i: nat)
    | LoseB(i: nat)

  function Got(logs: map<U32, ByteString>, key: U32): ByteString {
    if key in logs then logs[key] else []
  }

  function Grown(logs: map<U32, ByteString>, key: U32, result: ReadResult): map<U32, ByteString> {
    if result.Bytes? then logs[key := Got(logs, key) + result.bytes] else logs
  }

  function BytesOf(result: ReadResult): ByteString {
    if result.Bytes? then result.bytes else []
  }

  function LossOf(losses: map<U32, Loss>, s: U32): Loss {
    if s in losses then losses[s] else Whole
  }

  /** Handles are new, no connection id is assigned and no socket id drawn a second time, and the ids
      an engine draws avoid the connection ids it assigns. */
  predicate Enabled(n: Net, step: Step) {
    match step
    case AcceptA(_, h) => CanAcceptA(n, h)
    case ReadA(conn, _) => conn in n.readers
    case ReadB(socket, _) => socket in n.links
    case RecvA(dial, _) => n.toA != [] && CanDialA(n, dial)
    case RecvB(dial, _) => n.toB != [] && CanDialB(n, dial)
    case AcceptB(_, h) => NewAtB(n, h) && n.b.nextConnId !in n.links
    case ReadAsideA(id, _) => id in n.asideA.ids
    case ReadAsideB(id, _) => id in n.asideB.ids
    case LoseA(i) => i < |n.toA|
    case LoseB(i) => i < |n.toB|
  }

  predicate NewAtA(n: Net, h: Handle) {
    h !in n.a.written && h !in n.asideA.handles && forall c :: c in n.accepted ==> n.accepted[c] != h
  }

  predicate NewAtB(n: Net, h: Handle) {
    h !in n.b.written && h !in n.asideB.handles && forall s :: s in n.links ==> n.links[s].h != h
  }

  predicate CanAcceptA(n: Net, h: Handle) {
    NewAtA(n, h) && n.a.nextConnId !in n.accepted && n.a.nextConnId !in n.asideA.ids
  }

  predicate CanDialA(n: Net, dial: Dial) {
    dial.Some? ==> NewAtA(n, dial.value.0) && dial.value.1 !in n.asideA.ids && dial.value.1 !in n.accepted
  }

  predicate CanDialB(n: Net, dial: Dial) {
    dial.Some? ==> NewAtB(n, dial.value.0) && dial.value.1 !in n.links && dial.value.1 !in n.asideB.ids
  }

  function AcceptingA(n: Net, source: nat, h: Handle): Net {
    var (a, frames) := OnAccepted(n.a, source, h);
    var n' := n.(a := a, toB := n.toB + frames);
    if frames == [] then n'
    else n'.(accepted := n.accepted[n.a.nextConnId := h], stages := n.stages[n.a.nextConnId := Asked])
  }

  function AcceptingB(n: Net, source: nat, h: Handle): Net {
    var (b, frames) := OnAccepted(n.b, source, h);
    n.(b := b, toA := n.toA + frames,
       asideB := Aside(n.asideB.ids + (if frames == [] then {} else {n.b.nextConnId}), n.asideB.handles + {h}))
  }

  function ReadingA(n: Net, conn: U32, result: ReadResult): Net {
    var (a, frames) := OnRead(n.a, conn, result);
    n.(a := a, toB := n.toB + frames, gotA := Grown(n.gotA, conn, result),
       lossB := if conn !in n.a.sourceConnIds then n.lossB
                else var s := n.a.sourceConnIds[conn];
                     n.lossB[s := AfterLoss(LossOf(n.lossB, s), true, BytesOf(result))])
  }

  function ReadingB(n: Net, socket: U32, result: ReadResult): Net {
    var (b, frames) := OnRead(n.b, socket, result);
    n.(b := b, toA := n.toA + frames, gotB := Grown(n.gotB, socket, result),
       lossA := n.lossA[socket := AfterLoss(LossOf(n.lossA, socket), socket in n.b.destinations, BytesOf(result))])
  }

  function ReceivingA(n: Net, dial: Dial, takes: bool): Net
    requires n.toA != []
  {
    var f := n.toA[0];
    var n' := n.(a := OnPeerFrame(n.a, f, true, dial, takes).0, toA := n.toA[1..],
                 toB := n.toB + OnPeerFrame(n.a, f, true, dial, takes).1);
    if f.Response? && f.clientfd.Some? && f.socketid.Some? && AsU32(f.clientfd.value) in n.a.pending
    then n'.(readers := n.readers + {AsU32(f.clientfd.value)})
    else if f.Request? && dial.Some? && WouldDial(n.a, f.destination)
    then n'.(asideA := Aside(n.asideA.ids + {dial.value.1}, n.asideA.handles + {dial.value.0}))
    else n'
  }

  function ReceivingB(n: Net, dial: Dial, takes: bool): Net
    requires n.toB != []
  {
    var f := n.toB[0];
    var n' := n.(b := OnPeerFrame(n.b, f, true, dial, takes).0, toB := n.toB[1..],
                 toA := n.toA + OnPeerFrame(n.b, f, true, dial, takes).1);
    if !f.Request? || f.fd.None? then n'
    else
      var c := AsU32(f.fd.value);
      if dial.None? || !WouldDial(n.b, f.destination) then n'.(stages := n.stages[c := Refused])
      else
        var (h, s) := dial.value;
        n'.(stages := n.stages[c := Linked(s)], links := n.links[s := Link(c, h)])
  }

  /** The losses after the frame at `i` is lost from a queue. */
  function Losing(losses: map<U32, Loss>, frames: seq<Frame>, i: nat, d: bool): map<U32, Loss>
    requires i < |frames|
  {
    var f := frames[i];
    if !f.Data? || f.socket.None? then losses
    else var s := AsU32(f.socket.value); losses[s := AfterLosing(LossOf(losses, s), frames, i, s, d)]
  }

  function Next(n: Net, step: Step): Net
    requires Enabled(n, step)
  {
    match step
    case AcceptA(source, h) => AcceptingA(n, source, h)
    case ReadA(conn, result) => ReadingA(n, conn, result)
    case ReadB(socket, result) => ReadingB(n, socket, result)
    case RecvA(dial, takes) => ReceivingA(n, dial, takes)
    case RecvB(dial, takes) => ReceivingB(n, dial, takes)
    case AcceptB(source, h) => AcceptingB(n, source, h)
    case ReadAsideA(id, result) =>
      n.(a := OnRead(n.a, id, result).0, toB := n.toB + OnRead(n.a, id, result).1)
    case ReadAsideB(id, result) =>
      n.(b := OnRead(n.b, id, result).0, toA := n.toA + OnRead(n.b, id, result).1)
    case LoseA(i) => n.(toA := Without(n.toA, i), lossA := Losing(n.lossA, n.toA, i, false))
    case LoseB(i) => n.(toB := Without(n.toB, i), lossB := Losing(n.lossB, n.toB, i, true))
  }

  function Start(sourcesA: seq<Option<Dest>>, sourcesB: seq<Option<Dest>>): Net {
    Net(NewEngine(sourcesA), NewEngine(sourcesB), [], [], map[], map[], map[], {}, map[], map[],
        Aside({}, {}), Aside({}, {}), map[], map[])
  }

  // ---- the invariant: what the tables and queues mean ----

  /** A frame on its way to engine B that belongs to a tunnel opened from A. */
  predicate FromA(stages: map<U32, Stage>, links: map<U32, Link>, f: Frame) {
    match f
    case Request(_, fd) => fd.Some? && AsU32(fd.value) in stages && stages[AsU32(fd.value)].Asked?
    case Data(socket, toDestination, _, _, _) =>
      toDestination == Some(true) ==> socket.Some? && AsU32(socket.value) in links
    case _ => true
  }

  predicate FromB(stages: map<U32, Stage>, links: map<U32, Link>, f: Frame) {
    match f
    case Response(fd, socketid, _) =>
      && fd.Some? && AsU32(fd.value) in stages
      && stages[AsU32(fd.value)] == (if socketid.None? then Refused else Linked(AsU32(socketid.value)))
    case Data(socket, toDestination, _, _, _) =>
      toDestination != Some(true) ==> socket.Some? && AsU32(socket.value) in links
    case _ => true
  }

  /** A frame of a tunnel opened from the other end. */
  predicate ForeignToB(f: Frame) {
    !f.Request? && !(f.Data? && f.toDestination == Some(true))
  }

  predicate ForeignToA(f: Frame) {
    !f.Response? && !(f.Data? && f.toDestination != Some(true))
  }

  predicate QueueToB(stages: map<U32, Stage>, links: map<U32, Link>, toB: seq<Frame>) {
    && (forall i :: 0 <= i < |toB| ==> FromA(stages, links, toB[i]))
    && (forall i, j :: 0 <= i < j < |toB| && toB[i].Request? && toB[j].Request? ==> toB[i].fd != toB[j].fd)
  }

  predicate QueueToA(stages: map<U32, Stage>, links: map<U32, Link>, toA: seq<Frame>) {
    forall i :: 0 <= i < |toA| ==> FromB(stages, links, toA[i])
  }

  /** Engine A keeps the tunnels opened from the two ends apart. */
  predicate ApartA(destinations: map<U32, Handle>, accepted: map<U32, Handle>, aside: Aside) {
    && (forall d :: d in destinations ==> d in aside.ids && destinations[d] in aside.handles)
    && (forall c :: c in accepted ==> c !in aside.ids && accepted[c] !in aside.handles)
  }

  predicate ApartB(pending: map<U32, Handle>, sockets: map<U32, Handle>, ids: map<U32, U32>,
                   links: map<U32, Link>, aside: Aside)
  {
    && (forall c :: c in pending ==> c in aside.ids && pending[c] in aside.handles)
    && (forall s :: s in sockets ==> sockets[s] in aside.handles)
    && (forall c :: c in ids ==> c in aside.ids)
    && (forall s :: s in links ==> s !in aside.ids && links[s].h !in aside.handles)
  }

  /** No two connection ids share a connection. */
  predicate Ids(accepted: map<U32, Handle>, stages: map<U32, Stage>) {
    && accepted.Keys == stages.Keys
    && (forall c, d :: c in accepted && d in accepted && accepted[c] == accepted[d] ==> c == d)
  }

  predicate Waiting(pending: map<U32, Handle>, accepted: map<U32, Handle>, stages: map<U32, Stage>) {
    && (forall c :: c in pending ==> c in accepted && pending[c] == accepted[c])
    && (forall c :: c in stages && stages[c].Asked? ==> c in pending)
  }

  predicate Reading(readers: set<U32>, pending: map<U32, Handle>, stages: map<U32, Stage>, gotA: map<U32, ByteString>) {
    && (forall c :: c in readers ==> c in stages && c !in pending)
    && (forall c :: c in gotA ==> c in readers)
  }

  predicate ConnIds(ids: map<U32, U32>, readers: set<U32>, stages: map<U32, Stage>) {
    forall c :: c in ids ==> c in readers && c in stages && stages[c] == Linked(ids[c])
  }

  predicate Sockets(sockets: map<U32, Handle>, links: map<U32, Link>, accepted: map<U32, Handle>) {
    forall s :: s in sockets ==>
      s in links && links[s].conn in accepted && sockets[s] == accepted[links[s].conn]
  }

  predicate Destinations(destinations: map<U32, Handle>, links: map<U32, Link>) {
    forall s :: s in destinations ==> s in links && destinations[s] == links[s].h
  }

  predicate Links(links: map<U32, Link>, stages: map<U32, Stage>, gotB: map<U32, ByteString>) {
    && (forall c :: c in stages && stages[c].Linked? ==>
          stages[c].socket in links && links[stages[c].socket].conn == c)
    && (forall s :: s in links ==> links[s].conn in stages && stages[links[s].conn] == Linked(s))
    && (forall s, t :: s in links && t in links && links[s].h == links[t].h ==> s == t)
    && (forall s :: s in gotB ==> s in links)
  }

  /** Nothing was queued for a connection whose request is unanswered. */
  predicate Unwritten(accepted: map<U32, Handle>, stages: map<U32, Stage>, written: map<Handle, ByteString>) {
    forall c :: c in accepted && c in stages && !stages[c].Linked? ==> accepted[c] !in written
  }

  predicate Shape(n: Net) {
    && ApartA(n.a.destinations, n.accepted, n.asideA)
    && ApartB(n.b.pending, n.b.sourceSockets, n.b.sourceConnIds, n.links, n.asideB)
    && Ids(n.accepted, n.stages)
    && Waiting(n.a.pending, n.accepted, n.stages)
    && Reading(n.readers, n.a.pending, n.stages, n.gotA)
    && ConnIds(n.a.sourceConnIds, n.readers, n.stages)
    && Sockets(n.a.sourceSockets, n.links, n.accepted)
    && Destinations(n.b.destinations, n.links)
    && Links(n.links, n.stages, n.gotB)
    && Lossless(n.links, n.lossA, n.lossB)
    && Unwritten(n.accepted, n.stages, n.a.written)
    && QueueToB(n.stages, n.links, n.toB)
    && QueueToA(n.stages, n.links, n.toA)
  }

  /** Nothing was lost before there was a link. */
  predicate Lossless(links: map<U32, Link>, lossA: map<U32, Loss>, lossB: map<U32, Loss>) {
    && (forall s :: s in lossA && s !in links ==> lossA[s].Whole?)
    && (forall s :: s in lossB && s !in links ==> lossB[s].Whole?)
  }

  // ---- the invariant: what one link has carried ----

  predicate HasLink(n: Net, s: U32) {
    s in n.links && n.links[s].conn in n.accepted
  }

  function ConnOf(n: Net, s: U32): U32
    requires HasLink(n, s)
  {
    n.links[s].conn
  }

  function ViewOf(n: Net, s: U32): View
    requires HasLink(n, s)
  {
    var c := n.links[s].conn;
    View(c in n.a.pending, c in n.a.sourceConnIds, s in n.a.sourceSockets, s in n.b.destinations,
         n.toA, n.toB, Got(n.gotA, c), Got(n.gotB, s),
         Log(n.a.written, n.accepted[c]), Log(n.b.written, n.links[s].h),
         LossOf(n.lossB, s), LossOf(n.lossA, s))
  }

  predicate Kept(n: Net, s: U32) {
    HasLink(n, s) && Good(ViewOf(n, s), s)
  }

  predicate Inv(n: Net) {
    Shape(n) && forall s :: s in n.links ==> Kept(n, s)
  }

  // ---- queues ----

  lemma QueueToBPut(stages: map<U32, Stage>, links: map<U32, Link>, toB: seq<Frame>, more: seq<Frame>)
    requires QueueToB(stages, links, toB)
    requires forall f :: f in more ==> !f.Request? && FromA(stages, links, f)
    ensures QueueToB(stages, links, toB + more)
  {
    hide FromA;
    forall i | |toB| <= i < |toB + more| ensures (toB + more)[i] in more {
      assert (toB + more)[i] == more[i - |toB|];
    }
  }

  lemma QueueToAPut(stages: map<U32, Stage>, links: map<U32, Link>, toA: seq<Frame>, more: seq<Frame>)
    requires QueueToA(stages, links, toA)
    requires forall f :: f in more ==> FromB(stages, links, f)
    ensures QueueToA(stages, links, toA + more)
  {
    hide FromB;
    forall i | |toA| <= i < |toA + more| ensures (toA + more)[i] in more {
      assert (toA + more)[i] == more[i - |toA|];
    }
  }

  lemma Tails(stages: map<U32, Stage>, links: map<U32, Link>, toA: seq<Frame>, toB: seq<Frame>)
    ensures toB != [] && QueueToB(stages, links, toB) ==> QueueToB(stages, links, toB[1..])
    ensures toA != [] && QueueToA(stages, links, toA) ==> QueueToA(stages, links, toA[1..])
  {
    hide FromA, FromB;
  }

  // ---- reading at the source ----

  lemma SocketsLess(sockets: map<U32, Handle>, links: map<U32, Link>, accepted: map<U32, Handle>, key: U32)
    requires Sockets(sockets, links, accepted)
    ensures Sockets(sockets - {key}, links, accepted)
  {
  }

  lemma ConnIdsLess(ids: map<U32, U32>, readers: set<U32>, stages: map<U32, Stage>, key: U32)
    requires ConnIds(ids, readers, stages)
    ensures ConnIds(ids - {key}, readers, stages)
  {
  }

  lemma ReadingMore(
      readers: set<U32>, pending: map<U32, Handle>, stages: map<U32, Stage>, gotA: map<U32, ByteString>,
      key: U32, result: ReadResult)
    requires Reading(readers, pending, stages, gotA) && key in readers
    ensures Reading(readers, pending, stages, Grown(gotA, key, result))
  {
  }

  lemma LosslessMore(links: map<U32, Link>, lossA: map<U32, Loss>, lossB: map<U32, Loss>, s: U32, x: Loss)
    requires Lossless(links, lossA, lossB) && (s in links || x.Whole?)
    ensures Lossless(links, lossA[s := x], lossB) && Lossless(links, lossA, lossB[s := x])
  {
  }

  /** A connection of a tunnel opened from A is none of the others. */
  lemma NotAsideA(n: Net, conn: U32)
    requires Shape(n) && conn in n.readers
    ensures conn in n.accepted && conn !in n.a.destinations
  {
    hide Waiting, ConnIds, Sockets, Destinations, Links, Lossless, Unwritten, QueueToB, QueueToA, ApartB;
  }

  /** The socket id of a connection is the one it was linked to. */
  lemma ReadASocket(n: Net, conn: U32)
    requires Shape(n)
    ensures conn in n.a.sourceConnIds ==>
              n.a.sourceConnIds[conn] in n.links && n.links[n.a.sourceConnIds[conn]].conn == conn
  {
    hide Ids, Waiting, Reading, Sockets, Destinations, Lossless, Unwritten, QueueToB, QueueToA, ApartA, ApartB;
  }

  /** What the source engine reads goes out under the socket id of its connection. */
  lemma ReadAFrames(n: Net, conn: U32, result: ReadResult)
    requires Shape(n) && conn in n.readers
    ensures forall f :: f in OnRead(n.a, conn, result).1 ==> f.Data? && FromA(n.stages, n.links, f)
  {
    hide Shape, Dropped;
    NotAsideA(n, conn);
    ReadASocket(n, conn);
  }

  lemma ReadAEffect(n: Net, conn: U32, result: ReadResult)
    requires conn in n.readers && conn !in n.a.destinations
    ensures var n', frames := ReadingA(n, conn, result), OnRead(n.a, conn, result).1;
            && n' == n.(a := n'.a, toB := n.toB + frames, gotA := Grown(n.gotA, conn, result), lossB := n'.lossB)
            && n'.a == n.a.(sourceSockets := n'.a.sourceSockets, sourceConnIds := n'.a.sourceConnIds,
                            places := n'.a.places)
            && (|| (n'.a.sourceSockets == n.a.sourceSockets && n'.a.sourceConnIds == n.a.sourceConnIds)
                || (&& conn in n.a.sourceConnIds
                    && n'.a.sourceSockets == n.a.sourceSockets - {n.a.sourceConnIds[conn]}
                    && n'.a.sourceConnIds == n.a.sourceConnIds - {conn}))
            && (conn !in n.a.sourceConnIds ==> n'.lossB == n.lossB)
            && (conn in n.a.sourceConnIds ==>
                  var s := n.a.sourceConnIds[conn];
                  n'.lossB == n.lossB[s := AfterLoss(LossOf(n.lossB, s), true, BytesOf(result))])
  {
    hide Dropped, DataFrame, ErrorFrame, ClosedFrame, Grown, LossOf, AfterLoss, BytesOf;
  }

  lemma ReadAShape(n: Net, conn: U32, result: ReadResult)
    requires Shape(n) && conn in n.readers
    ensures Shape(ReadingA(n, conn, result))
  {
    NotAsideA(n, conn);
    ReadAEffect(n, conn, result);
    ReadAFrames(n, conn, result);
    ReadASocket(n, conn);
    hide Ids, Waiting, Reading, ConnIds, Sockets, Destinations, Links, Lossless, Unwritten, QueueToB, QueueToA, ApartA,
      ApartB, FromA, ReadingA;
    QueueToBPut(n.stages, n.links, n.toB, OnRead(n.a, conn, result).1);
    ReadingMore(n.readers, n.a.pending, n.stages, n.gotA, conn, result);
    ConnIdsLess(n.a.sourceConnIds, n.readers, n.stages, conn);
    if conn in n.a.sourceConnIds {
      var s := n.a.sourceConnIds[conn];
      SocketsLess(n.a.sourceSockets, n.links, n.accepted, s);
      LosslessMore(n.links, n.lossA, n.lossB, s, AfterLoss(LossOf(n.lossB, s), true, BytesOf(result)));
    }
    hide Grown, OnRead, LossOf, AfterLoss, BytesOf;
  }

  /** What a read puts in flight for a socket. */
  lemma ReadFlies(e: Engine, conn: U32, result: ReadResult, s: U32, d: bool)
    ensures var mine := if conn in e.sourceConnIds then e.sourceConnIds[conn] == s && d
                        else conn in e.destinations && conn == s && !d;
            var frames := OnRead(e, conn, result).1;
            && DataOf(frames, s, d) == (if mine then BytesOf(result) else [])
            && (!mine ==> NoData(frames, s, d))
            && NoAnswer(frames, s)
  {
    var frames := OnRead(e, conn, result).1;
    if |frames| == 1 {
      assert DataOf(frames, s, d) == Payload(frames[0], s, d) + DataOf([], s, d);
    } else if |frames| == 2 {
      assert frames[1..] == [frames[1]];
      assert DataOf([frames[1]], s, d) == Payload(frames[1], s, d) + DataOf([], s, d);
    }
    hide Dropped;
  }

  /** What the tables say about a link's connection id. */
  lemma OwnConn(n: Net, s: U32)
    requires Shape(n) && s in n.links
    ensures var c := n.links[s].conn;
            && c in n.accepted && c in n.stages && n.stages[c] == Linked(s)
            && (c in n.a.sourceConnIds ==> n.a.sourceConnIds[c] == s)
            && (c in n.readers ==> c !in n.a.pending)
            && (c in n.a.pending ==> n.a.pending[c] == n.accepted[c])
            && (s in n.a.sourceSockets ==> n.a.sourceSockets[s] == n.accepted[c])
            && (s in n.b.destinations ==> n.b.destinations[s] == n.links[s].h)
            && s !in n.b.sourceConnIds
  {
    hide QueueToA, QueueToB, Unwritten, ApartA, Lossless;
  }

  lemma GrownGot(logs: map<U32, ByteString>, key: U32, result: ReadResult, k: U32)
    ensures Got(Grown(logs, key, result), key) == Got(logs, key) + BytesOf(result)
    ensures k != key ==> Got(Grown(logs, key, result), k) == Got(logs, k)
  {
    assert Got(logs, key) + [] == Got(logs, key);
  }

  lemma ReadAOwn(n: Net, conn: U32, result: ReadResult, s: U32)
    requires Shape(n) && conn in n.readers && HasLink(n, s) && conn == ConnOf(n, s)
    ensures HasLink(ReadingA(n, conn, result), s)
    ensures var v, v' := ViewOf(n, s), ViewOf(ReadingA(n, conn, result), s);
            && v' == v.(toB := v.toB + OnRead(n.a, conn, result).1, gotA := v.gotA + BytesOf(result),
                        sends := v'.sends, maps := v'.maps, lossB := AfterLoss(v.lossB, v.sends, BytesOf(result)))
            && (v'.sends ==> v.sends) && (v'.maps ==> v.maps) && !v.waiting
  {
    hide Shape, ReadingA, OnRead, FromA, Log, Got, Grown, BytesOf;
    OwnConn(n, s);
    NotAsideA(n, conn);
    ReadAEffect(n, conn, result);
    GrownGot(n.gotA, conn, result, conn);
  }

  /** Another connection's read leaves a link's entries alone. */
  lemma ReadABeside(n: Net, conn: U32, result: ReadResult, s: U32)
    requires Shape(n) && conn in n.readers && HasLink(n, s) && conn != ConnOf(n, s)
    ensures var n', c := ReadingA(n, conn, result), ConnOf(n, s);
            && (c in n'.a.sourceConnIds <==> c in n.a.sourceConnIds)
            && (s in n'.a.sourceSockets <==> s in n.a.sourceSockets)
            && LossOf(n'.lossB, s) == LossOf(n.lossB, s) && Got(n'.gotA, c) == Got(n.gotA, c)
  {
    hide Shape, AfterLoss, BytesOf, ReadingA, OnRead, Got, Grown;
    NotAsideA(n, conn);
    ReadASocket(n, conn);
    ReadAEffect(n, conn, result);
    GrownGot(n.gotA, conn, result, n.links[s].conn);
  }

  lemma ReadAOther(n: Net, conn: U32, result: ReadResult, s: U32)
    requires Shape(n) && conn in n.readers && HasLink(n, s) && conn != ConnOf(n, s)
    ensures HasLink(ReadingA(n, conn, result), s)
    ensures var v := ViewOf(n, s);
            ViewOf(ReadingA(n, conn, result), s) == v.(toB := v.toB + OnRead(n.a, conn, result).1)
  {
    NotAsideA(n, conn);
    ReadABeside(n, conn, result, s);
    var n' := ReadingA(n, conn, result);
    assert n'.a.pending == n.a.pending && n'.a.written == n.a.written && n'.b == n.b && n'.accepted == n.accepted
           && n'.links == n.links && n'.toA == n.toA && n'.lossA == n.lossA && n'.gotB == n.gotB
           && n'.toB == n.toB + OnRead(n.a, conn, result).1
    by {
      ReadAEffect(n, conn, result);
      hide Shape, ReadingA, OnRead;
    }
    hide Shape, ReadingA, OnRead, Log, Got, LossOf;
  }

  lemma ReadAKeeps(n: Net, conn: U32, result: ReadResult, s: U32)
    requires Shape(n) && conn in n.readers && Kept(n, s)
    ensures Kept(ReadingA(n, conn, result), s)
  {
    OwnConn(n, s);
    NotAsideA(n, conn);
    ReadASocket(n, conn);
    ReadFlies(n.a, conn, result, s, true);
    hide Shape, ReadingA, OnRead, Good, NoData, DataOf, NoAnswer;
    var frames := OnRead(n.a, conn, result).1;
    if conn == ConnOf(n, s) {
      ReadAOwn(n, conn, result, s);
      var v, v' := ViewOf(n, s), ViewOf(ReadingA(n, conn, result), s);
      GoodReadA(v, s, frames, BytesOf(result), v'.sends, v'.maps);
    } else {
      ReadAOther(n, conn, result, s);
      GoodBesideB(ViewOf(n, s), s, frames);
    }
  }

  // ---- reading at the destination ----

  lemma DestinationsLess(destinations: map<U32, Handle>, links: map<U32, Link>, key: U32)
    requires Destinations(destinations, links)
    ensures Destinations(destinations - {key}, links)
  {
  }

  lemma LinksRead(links: map<U32, Link>, stages: map<U32, Stage>, gotB: map<U32, ByteString>, s: U32,
                  result: ReadResult)
    requires Links(links, stages, gotB) && s in links
    ensures Links(links, stages, Grown(gotB, s, result))
  {
  }

  lemma ReadBEffect(n: Net, socket: U32, result: ReadResult)
    requires socket in n.links && socket !in n.b.sourceConnIds
    ensures var n', frames := ReadingB(n, socket, result), OnRead(n.b, socket, result).1;
            && n' == n.(b := n'.b, toA := n.toA + frames, gotB := Grown(n.gotB, socket, result), lossA := n'.lossA)
            && n'.b == n.b.(destinations := n'.b.destinations, places := n'.b.places)
            && (n'.b.destinations == n.b.destinations || n'.b.destinations == n.b.destinations - {socket})
            && (forall f :: f in frames ==> FromB(n.stages, n.links, f))
            && n'.lossA == n.lossA[socket := AfterLoss(LossOf(n.lossA, socket), socket in n.b.destinations,
                                                       BytesOf(result))]
  {
    hide Dropped, Grown, LossOf, AfterLoss, BytesOf;
  }

  lemma ReadBShape(n: Net, socket: U32, result: ReadResult)
    requires Shape(n) && socket in n.links
    ensures Shape(ReadingB(n, socket, result))
  {
    OwnConn(n, socket);
    ReadBEffect(n, socket, result);
    hide Ids, Waiting, Reading, ConnIds, Sockets, Destinations, Links, Lossless, Unwritten, QueueToB, QueueToA, ApartA,
      ApartB, FromB, ReadingB;
    QueueToAPut(n.stages, n.links, n.toA, OnRead(n.b, socket, result).1);
    LinksRead(n.links, n.stages, n.gotB, socket, result);
    DestinationsLess(n.b.destinations, n.links, socket);
    LosslessMore(n.links, n.lossA, n.lossB, socket,
                 AfterLoss(LossOf(n.lossA, socket), socket in n.b.destinations, BytesOf(result)));
    hide OnRead, Grown, LossOf, AfterLoss, BytesOf;
  }

  lemma ReadBView(n: Net, socket: U32, result: ReadResult, s: U32)
    requires Shape(n) && socket in n.links && HasLink(n, s)
    ensures HasLink(ReadingB(n, socket, result), s)
    ensures var v, v' := ViewOf(n, s), ViewOf(ReadingB(n, socket, result), s);
            && v' == v.(toA := v.toA + OnRead(n.b, socket, result).1, gotB := v'.gotB, up := v'.up, lossA := v'.lossA)
            && (v'.up ==> v.up)
            && (socket != s ==> v'.gotB == v.gotB && v'.up == v.up && v'.lossA == v.lossA)
            && (socket == s ==>
                  v'.gotB == v.gotB + BytesOf(result) && v'.lossA == AfterLoss(v.lossA, v.up, BytesOf(result)))
  {
    OwnConn(n, socket);
    ReadBEffect(n, socket, result);
    GrownGot(n.gotB, socket, result, s);
    hide Shape, ReadingB, OnRead, FromB, Log, Got, Grown, BytesOf;
  }

  lemma ReadBKeeps(n: Net, socket: U32, result: ReadResult, s: U32)
    requires Shape(n) && socket in n.links && Kept(n, s)
    ensures Kept(ReadingB(n, socket, result), s)
  {
    var v, v' := ViewOf(n, s), ViewOf(ReadingB(n, socket, result), s);
    OwnConn(n, socket);
    ReadFlies(n.b, socket, result, s, false);
    ReadBView(n, socket, result, s);
    hide Shape, ReadingB, OnRead, Good, NoData, DataOf, NoAnswer;
    var frames := OnRead(n.b, socket, result).1;
    if socket == s {
      GoodReadB(v, s, frames, BytesOf(result), v'.up);
    } else {
      GoodBesideA(v, s, frames);
    }
  }

  // ---- accepting ----

  lemma NewIds(accepted: map<U32, Handle>, stages: map<U32, Stage>, id: U32, h: Handle)
    requires Ids(accepted, stages) && id !in accepted
    requires forall c :: c in accepted ==> accepted[c] != h
    ensures id !in stages && Ids(accepted[id := h], stages[id := Asked])
  {
  }

  lemma NewWaiting(pending: map<U32, Handle>, accepted: map<U32, Handle>, stages: map<U32, Stage>, id: U32, h: Handle)
    requires Waiting(pending, accepted, stages)
    ensures Waiting(pending[id := h], accepted[id := h], stages[id := Asked])
  {
  }

  /** A request joins the queue for a connection id that had no stage yet. */
  lemma NewRequest(stages: map<U32, Stage>, links: map<U32, Link>, toB: seq<Frame>, toA: seq<Frame>, id: U32,
                   d: Option<Dest>)
    requires QueueToB(stages, links, toB) && QueueToA(stages, links, toA) && id !in stages
    ensures QueueToB(stages[id := Asked], links, toB + [Request(d, Some(AsI32(id)))])
    ensures QueueToA(stages[id := Asked], links, toA)
  {
    assert AsU32(AsI32(id)) == id;
  }

  lemma NewReading(readers: set<U32>, pending: map<U32, Handle>, stages: map<U32, Stage>,
                   gotA: map<U32, ByteString>, ids: map<U32, U32>, id: U32, h: Handle)
    requires Reading(readers, pending, stages, gotA) && ConnIds(ids, readers, stages) && id !in stages
    ensures Reading(readers, pending[id := h], stages[id := Asked], gotA)
    ensures ConnIds(ids, readers, stages[id := Asked])
  {
  }

  lemma NewUnlinked(links: map<U32, Link>, stages: map<U32, Stage>, gotB: map<U32, ByteString>,
                    accepted: map<U32, Handle>, sockets: map<U32, Handle>,
                    written: map<Handle, ByteString>, id: U32, h: Handle)
    requires Links(links, stages, gotB) && Unwritten(accepted, stages, written) && Sockets(sockets, links, accepted)
    requires id !in stages && h !in written && id !in accepted
    ensures Links(links, stages[id := Asked], gotB)
    ensures Unwritten(accepted[id := h], stages[id := Asked], written)
    ensures Sockets(sockets, links, accepted[id := h])
  {
  }

  lemma NewApart(n: Net, h: Handle)
    requires Shape(n) && NewAtA(n, h) && n.a.nextConnId !in n.asideA.ids
    ensures ApartA(n.a.destinations, n.accepted[n.a.nextConnId := h], n.asideA)
  {
    hide Ids, Waiting, Reading, ConnIds, Sockets, Destinations, Links, Lossless, Unwritten, QueueToB, QueueToA, ApartB;
  }

  lemma FreshId(n: Net)
    requires Shape(n) && n.a.nextConnId !in n.accepted
    ensures n.a.nextConnId !in n.a.pending
    ensures forall s :: s in n.links ==> n.links[s].conn != n.a.nextConnId
  {
    hide QueueToA, QueueToB, Unwritten, Reading, ConnIds, Sockets, Destinations, Lossless, ApartB;
  }

  /** An accepted connection sends its request, or is dropped at once. */
  lemma AcceptEffect(n: Net, source: nat, h: Handle)
    requires CanAcceptA(n, h)
    ensures var id, n', frames := n.a.nextConnId, AcceptingA(n, source, h), OnAccepted(n.a, source, h).1;
            && n' == n.(a := n'.a, toB := n.toB + frames, accepted := n'.accepted, stages := n'.stages)
            && n'.a == n.a.(nextConnId := n'.a.nextConnId, accepts := n'.a.accepts,
                            pending := n'.a.pending, places := n'.a.places)
            && (if frames == [] then
                  && n'.accepted == n.accepted && n'.stages == n.stages && n'.a.pending == n.a.pending
                else
                  && n'.accepted == n.accepted[id := h] && n'.stages == n.stages[id := Asked]
                  && n'.a.pending == n.a.pending[id := h]
                  && source < |n.a.sources| && frames == [Request(n.a.sources[source], Some(AsI32(id)))])
  {
    hide Dropped, AsI32, NewAtA;
    if source >= |n.a.sources| || n.a.sources[source].None? {
      assert OnAccepted(n.a, source, h).1 == [];
    } else {
      assert OnAccepted(n.a, source, h).1 == [Request(n.a.sources[source], Some(AsI32(n.a.nextConnId)))];
    }
  }

  lemma AcceptShape(n: Net, source: nat, h: Handle)
    requires Shape(n) && CanAcceptA(n, h)
    ensures Shape(AcceptingA(n, source, h))
  {
    hide Ids, Waiting, Reading, ConnIds, Sockets, Destinations, Links, Lossless, Unwritten, QueueToB, QueueToA, ApartA,
      ApartB, AcceptingA, OnAccepted;
    var id, n' := n.a.nextConnId, AcceptingA(n, source, h);
    FreshId(n);
    AcceptEffect(n, source, h);
    if OnAccepted(n.a, source, h).1 != [] {
      NewIds(n.accepted, n.stages, id, h);
      NewWaiting(n.a.pending, n.accepted, n.stages, id, h);
      NewReading(n.readers, n.a.pending, n.stages, n.gotA, n.a.sourceConnIds, id, h);
      NewUnlinked(n.links, n.stages, n.gotB, n.accepted, n.a.sourceSockets, n.a.written, id, h);
      NewApart(n, h);
      NewRequest(n.stages, n.links, n.toB, n.toA, id, n.a.sources[source]);
    } else {
      assert n.toB + [] == n.toB;
    }
  }

  lemma AcceptView(n: Net, source: nat, h: Handle, s: U32)
    requires Shape(n) && CanAcceptA(n, h) && HasLink(n, s)
    ensures HasLink(AcceptingA(n, source, h), s)
    ensures var v := ViewOf(n, s);
            ViewOf(AcceptingA(n, source, h), s) == v.(toB := v.toB + OnAccepted(n.a, source, h).1)
  {
    hide Shape, AcceptingA, OnAccepted, Log, Got, NewAtA;
    FreshId(n);
    AcceptEffect(n, source, h);
  }

  lemma AcceptSendsNoData(e: Engine, source: nat, h: Handle, s: U32)
    ensures NoData(OnAccepted(e, source, h).1, s, true)
  {
  }

  lemma AcceptKeeps(n: Net, source: nat, h: Handle, s: U32)
    requires Shape(n) && CanAcceptA(n, h) && Kept(n, s)
    ensures Kept(AcceptingA(n, source, h), s)
  {
    AcceptView(n, source, h, s);
    AcceptSendsNoData(n.a, source, h, s);
    hide Shape, AcceptingA, OnAccepted, NoData, Good;
    GoodBesideB(ViewOf(n, s), s, OnAccepted(n.a, source, h).1);
  }

  // ---- data for the destination ----

  lemma DataBEffect(n: Net, dial: Dial, takes: bool, s0: U32)
    requires n.toB != [] && n.toB[0].Data?
    requires n.toB[0].socket == Some(AsI32(s0)) && n.toB[0].toDestination == Some(true)
    ensures var n', f := ReceivingB(n, dial, takes), n.toB[0];
            && n' == n.(b := n'.b, toB := n.toB[1..])
            && n'.b == n.b.(destinations := n'.b.destinations, places := n'.b.places, written := n'.b.written)
            && (if s0 !in n.b.destinations then n'.b == n.b
                else if EndsIt(f, takes) then
                  n'.b.destinations == n.b.destinations - {s0} && n'.b.written == n.b.written
                else
                  var h := n.b.destinations[s0];
                  && n'.b.destinations == n.b.destinations
                  && n'.b.written ==
                     if f.buffer.Some? then n.b.written[h := Log(n.b.written, h) + f.buffer.value] else n.b.written)
  {
    assert AsU32(AsI32(s0)) == s0;
    assert n.toA + [] == n.toA;
    hide Log, AsI32;
  }

  lemma DataBShape(n: Net, dial: Dial, takes: bool, s0: U32)
    requires Shape(n) && n.toB != [] && n.toB[0].Data?
    requires n.toB[0].socket == Some(AsI32(s0)) && n.toB[0].toDestination == Some(true)
    ensures Shape(ReceivingB(n, dial, takes))
  {
    DataBEffect(n, dial, takes, s0);
    Tails(n.stages, n.links, n.toA, n.toB);
    DestinationsLess(n.b.destinations, n.links, s0);
    hide Ids, Waiting, Reading, ConnIds, Sockets, Destinations, Links, Lossless, Unwritten, QueueToB, QueueToA, ApartA,
      ApartB, ReceivingB, Log;
  }

  lemma DataBView(n: Net, dial: Dial, takes: bool, s0: U32, s: U32)
    requires Shape(n) && n.toB != [] && HasLink(n, s) && n.toB[0].Data?
    requires n.toB[0].socket == Some(AsI32(s0)) && n.toB[0].toDestination == Some(true)
    ensures HasLink(ReceivingB(n, dial, takes), s)
    ensures var v, v' := ViewOf(n, s), ViewOf(ReceivingB(n, dial, takes), s);
            && v' == v.(toB := v.toB[1..], up := v'.up, queuedB := v'.queuedB)
            && (v'.up ==> v.up && v'.queuedB == v.queuedB + Payload(n.toB[0], s, true))
            && (!v'.up ==> v'.queuedB == v.queuedB)
  {
    hide Shape, ReceivingB;
    OwnConn(n, s);
    OtherHandle(n, s0, s);
    DataBEffect(n, dial, takes, s0);
    assert Log(n.b.written, n.links[s].h) + [] == Log(n.b.written, n.links[s].h);
    assert IsData(n.toB[0], s, true) <==> s == s0;
    hide NewAtB, AsI32, Got;
  }

  /** Two links have different connections at both ends. */
  lemma OtherHandle(n: Net, s: U32, t: U32)
    requires Shape(n)
    ensures s in n.b.destinations && t in n.links && s != t ==> n.b.destinations[s] != n.links[t].h
    ensures s in n.a.sourceSockets && t in n.links && s != t ==>
              n.links[t].conn in n.accepted && n.a.sourceSockets[s] != n.accepted[n.links[t].conn]
  {
    hide QueueToA, QueueToB, Unwritten, Reading, ConnIds, Waiting, Lossless, ApartA, ApartB;
  }

  lemma DataBKeeps(n: Net, dial: Dial, takes: bool, s0: U32, s: U32)
    requires Shape(n) && n.toB != [] && Kept(n, s) && n.toB[0].Data?
    requires n.toB[0].socket == Some(AsI32(s0)) && n.toB[0].toDestination == Some(true)
    ensures Kept(ReceivingB(n, dial, takes), s)
  {
    DataBView(n, dial, takes, s0, s);
    var v, v' := ViewOf(n, s), ViewOf(ReceivingB(n, dial, takes), s);
    hide Shape, ReceivingB, Good, ViewOf, Payload;
    GoodTakeB(v, s, v'.up, v'.queuedB);
  }

  // ---- data for the source ----

  lemma DataAEffect(n: Net, dial: Dial, takes: bool, s0: U32)
    requires n.toA != [] && n.toA[0].Data?
    requires n.toA[0].socket == Some(AsI32(s0)) && n.toA[0].toDestination != Some(true)
    ensures var n', f := ReceivingA(n, dial, takes), n.toA[0];
            && n' == n.(a := n'.a, toA := n.toA[1..])
            && n'.a == n.a.(sourceSockets := n'.a.sourceSockets, places := n'.a.places, written := n'.a.written)
            && (if s0 !in n.a.sourceSockets then n'.a == n.a
                else if EndsIt(f, takes) then
                  n'.a.sourceSockets == n.a.sourceSockets - {s0} && n'.a.written == n.a.written
                else
                  var h := n.a.sourceSockets[s0];
                  && n'.a.sourceSockets == n.a.sourceSockets
                  && n'.a.written ==
                     if f.buffer.Some? then n.a.written[h := Log(n.a.written, h) + f.buffer.value] else n.a.written)
  {
    assert AsU32(AsI32(s0)) == s0;
    assert n.toB + [] == n.toB;
    hide NewAtA, Log, AsI32;
  }

  /** Only linked connections are written to. */
  lemma StillUnwritten(n: Net, s0: U32, x: ByteString)
    requires Shape(n) && s0 in n.a.sourceSockets
    ensures Unwritten(n.accepted, n.stages, n.a.written[n.a.sourceSockets[s0] := x])
  {
    hide Waiting, Reading, ConnIds, Destinations, QueueToB, QueueToA, Lossless, ApartA, ApartB;
  }

  lemma DataAShape(n: Net, dial: Dial, takes: bool, s0: U32)
    requires Shape(n) && n.toA != [] && n.toA[0].Data?
    requires n.toA[0].socket == Some(AsI32(s0)) && n.toA[0].toDestination != Some(true)
    ensures Shape(ReceivingA(n, dial, takes))
  {
    DataAEffect(n, dial, takes, s0);
    Tails(n.stages, n.links, n.toA, n.toB);
    SocketsLess(n.a.sourceSockets, n.links, n.accepted, s0);
    hide Ids, Waiting, Reading, ConnIds, Sockets, Destinations, Links, Lossless, Unwritten, QueueToB, QueueToA, ApartA,
      ApartB, ReceivingA, Log;
    if s0 in n.a.sourceSockets && n.toA[0].buffer.Some? {
      StillUnwritten(n, s0, Log(n.a.written, n.a.sourceSockets[s0]) + n.toA[0].buffer.value);
    }
  }

  lemma DataAView(n: Net, dial: Dial, takes: bool, s0: U32, s: U32)
    requires Shape(n) && n.toA != [] && HasLink(n, s) && n.toA[0].Data?
    requires n.toA[0].socket == Some(AsI32(s0)) && n.toA[0].toDestination != Some(true)
    ensures HasLink(ReceivingA(n, dial, takes), s)
    ensures var v, v' := ViewOf(n, s), ViewOf(ReceivingA(n, dial, takes), s);
            && v' == v.(toA := v.toA[1..], maps := v'.maps, queuedA := v'.queuedA)
            && (v'.maps ==> v.maps && v'.queuedA == v.queuedA + Payload(n.toA[0], s, false))
            && (!v'.maps ==> v'.queuedA == v.queuedA)
  {
    hide Shape, ReceivingA;
    OwnConn(n, s);
    OtherHandle(n, s0, s);
    DataAEffect(n, dial, takes, s0);
    var c := n.links[s].conn;
    assert Log(n.a.written, n.accepted[c]) + [] == Log(n.a.written, n.accepted[c]);
    assert IsData(n.toA[0], s, false) <==> s == s0;
    hide AsI32, Got;
  }

  lemma DataAKeeps(n: Net, dial: Dial, takes: bool, s0: U32, s: U32)
    requires Shape(n) && n.toA != [] && Kept(n, s) && n.toA[0].Data?
    requires n.toA[0].socket == Some(AsI32(s0)) && n.toA[0].toDestination != Some(true)
    ensures Kept(ReceivingA(n, dial, takes), s)
  {
    DataAView(n, dial, takes, s0, s);
    var v, v' := ViewOf(n, s), ViewOf(ReceivingA(n, dial, takes), s);
    hide Shape, ReceivingA, Good, ViewOf, Payload;
    GoodTakeA(v, s, v'.maps, v'.queuedA);
  }

  // ---- a response at the source ----

  /** The head of the queue answers connection id `c`; `socketid` is the link's, if there is one. */
  predicate AnswerFor(n: Net, c: U32, s0: Option<U32>) {
    && n.toA != [] && n.toA[0].Response? && n.toA[0].clientfd == Some(AsI32(c))
    && n.toA[0].socketid == (if s0.None? then None else Some(AsI32(s0.value)))
  }

  lemma AnswerEngine(e: Engine, f: Frame, c: U32, s0: Option<U32>)
    requires f.Response? && f.clientfd == Some(AsI32(c))
    requires f.socketid == if s0.None? then None else Some(AsI32(s0.value))
    ensures var e' := OnResponse(e, f);
            && e' == e.(pending := e.pending - {c}, sourceSockets := e'.sourceSockets,
                        sourceConnIds := e'.sourceConnIds, places := e'.places)
            && (if c in e.pending && s0.Some? then
                  && e'.sourceSockets == e.sourceSockets[s0.value := e.pending[c]]
                  && e'.sourceConnIds == e.sourceConnIds[c := s0.value]
                else e'.sourceSockets == e.sourceSockets && e'.sourceConnIds == e.sourceConnIds)
  {
    assert AsU32(AsI32(c)) == c && (s0.Some? ==> AsU32(AsI32(s0.value)) == s0.value);
    assert c !in e.pending ==> e.pending - {c} == e.pending;
    hide AsI32, Dropped;
  }

  lemma AnswerEffect(n: Net, dial: Dial, takes: bool, c: U32, s0: Option<U32>)
    requires AnswerFor(n, c, s0)
    ensures var n' := ReceivingA(n, dial, takes);
            && n' == n.(a := OnResponse(n.a, n.toA[0]), toA := n.toA[1..], readers := n'.readers)
            && n'.readers == if c in n.a.pending && s0.Some? then n.readers + {c} else n.readers
  {
    assert AsU32(AsI32(c)) == c && (s0.Some? ==> AsU32(AsI32(s0.value)) == s0.value);
    assert n.toB + [] == n.toB;
    assert OnPeerFrame(n.a, n.toA[0], true, dial, takes) == (OnResponse(n.a, n.toA[0]), []);
    hide AsI32, OnResponse, OnPeerFrame;
  }

  lemma AnswerStage(n: Net, c: U32, s0: Option<U32>)
    requires Shape(n) && AnswerFor(n, c, s0)
    ensures c in n.stages && n.stages[c] == (if s0.None? then Refused else Linked(s0.value))
    ensures s0.Some? ==> s0.value in n.links && n.links[s0.value].conn == c && c in n.accepted
  {
    assert AsU32(AsI32(c)) == c && (s0.Some? ==> AsU32(AsI32(s0.value)) == s0.value);
    assert FromB(n.stages, n.links, n.toA[0]);
    hide QueueToB, Unwritten, Reading, ConnIds, Sockets, Destinations, Waiting, Lossless, ApartA, ApartB;
  }

  lemma AnsweredTables(n: Net, c: U32)
    requires Shape(n) && c in n.stages && !n.stages[c].Asked?
    ensures Waiting(n.a.pending - {c}, n.accepted, n.stages)
    ensures Reading(n.readers, n.a.pending - {c}, n.stages, n.gotA)
    ensures Reading(n.readers + {c}, n.a.pending - {c}, n.stages, n.gotA)
    ensures n.stages[c].Linked? ==>
              ConnIds(n.a.sourceConnIds[c := n.stages[c].socket], n.readers + {c}, n.stages)
  {
    hide QueueToA, QueueToB, Unwritten, Destinations, Sockets, Links, Lossless, ApartA, ApartB, Ids;
  }

  lemma AnsweredSockets(n: Net, c: U32, s0: U32)
    requires Shape(n) && s0 in n.links && n.links[s0].conn == c && c in n.a.pending
    ensures Sockets(n.a.sourceSockets[s0 := n.a.pending[c]], n.links, n.accepted)
  {
    hide QueueToA, QueueToB, Unwritten, Destinations, Links, Lossless, ApartA, ApartB, Ids, Reading, ConnIds;
  }

  lemma AnswerShape(n: Net, dial: Dial, takes: bool, c: U32, s0: Option<U32>)
    requires Shape(n) && AnswerFor(n, c, s0)
    ensures Shape(ReceivingA(n, dial, takes))
  {
    AnswerEffect(n, dial, takes, c, s0);
    AnswerEngine(n.a, n.toA[0], c, s0);
    AnswerStage(n, c, s0);
    AnsweredTables(n, c);
    Tails(n.stages, n.links, n.toA, n.toB);
    if s0.Some? && c in n.a.pending {
      AnsweredSockets(n, c, s0.value);
    }
    hide Ids, Waiting, Reading, ConnIds, Sockets, Destinations, Links, Lossless, Unwritten, QueueToB, QueueToA, ApartA,
      ApartB, ReceivingA, AnswerFor;
  }

  lemma AnswerView(n: Net, dial: Dial, takes: bool, c: U32, s0: Option<U32>, s: U32)
    requires Shape(n) && AnswerFor(n, c, s0) && HasLink(n, s)
    ensures HasLink(ReceivingA(n, dial, takes), s)
    ensures var v, v' := ViewOf(n, s), ViewOf(ReceivingA(n, dial, takes), s);
            && (s0 != Some(s) ==> v' == v.(toA := v.toA[1..]))
            && (s0 == Some(s) && v.waiting ==>
                  v' == v.(toA := v.toA[1..], waiting := false, sends := true, maps := true))
  {
    hide Shape, ReceivingA;
    OwnConn(n, s);
    AnswerEffect(n, dial, takes, c, s0);
    AnswerEngine(n.a, n.toA[0], c, s0);
    AnswerStage(n, c, s0);
    hide Got, Log;
  }

  lemma AnswerKeeps(n: Net, dial: Dial, takes: bool, c: U32, s0: Option<U32>, s: U32)
    requires Shape(n) && AnswerFor(n, c, s0) && Kept(n, s)
    ensures Kept(ReceivingA(n, dial, takes), s)
  {
    assert AsU32(AsI32(s)) == s && (s0.Some? ==> AsU32(AsI32(s0.value)) == s0.value);
    assert n.toA[0].Response? && (Answers(n.toA[0], s) <==> s0 == Some(s));
    AnswerView(n, dial, takes, c, s0, s);
    var v := ViewOf(n, s);
    hide Shape, ReceivingA, Good, AnswerFor, AsI32, ViewOf, Answers;
    if s0 == Some(s) {
      GoodOpened(v, s);
    } else {
      GoodPassA(v, s);
    }
  }

  // ---- a request at the destination ----

  /** The head of the queue asks for connection id `c`. */
  predicate RequestFor(n: Net, c: U32) {
    n.toB != [] && n.toB[0].Request? && n.toB[0].fd == Some(AsI32(c))
  }

  /** What the request leads to: a link with this socket id and connection, or a refusal. */
  function Opened(n: Net, dial: Dial): Dial
    requires n.toB != [] && n.toB[0].Request?
  {
    if WouldDial(n.b, n.toB[0].destination) then dial else None
  }

  function Reply(c: U32, outcome: Dial): Frame {
    Response(Some(AsI32(c)), if outcome.None? then None else Some(AsI32(outcome.value.1)), outcome.None?)
  }

  lemma RequestEffect(n: Net, dial: Dial, takes: bool, c: U32)
    requires n.toB != [] && CanDialB(n, dial) && RequestFor(n, c)
    ensures var n', o := ReceivingB(n, dial, takes), Opened(n, dial);
            && n' == n.(b := n'.b, toB := n.toB[1..], toA := n.toA + [Reply(c, o)],
                        stages := n'.stages, links := n'.links)
            && n'.b == n.b.(destinations := n'.b.destinations, places := n'.b.places)
            && (if o.None? then
                  && n'.b.destinations == n.b.destinations && n'.links == n.links
                  && n'.stages == n.stages[c := Refused]
                else
                  && n'.b.destinations == n.b.destinations[o.value.1 := o.value.0]
                  && n'.links == n.links[o.value.1 := Link(c, o.value.0)]
                  && n'.stages == n.stages[c := Linked(o.value.1)])
  {
    assert AsU32(AsI32(c)) == c;
    hide NewAtB, AsI32, WouldDial;
  }

  lemma RequestStage(n: Net, c: U32)
    requires Shape(n) && RequestFor(n, c)
    ensures c in n.stages && n.stages[c].Asked? && c in n.accepted && c in n.a.pending
    ensures c !in n.gotA && n.accepted[c] !in n.a.written
    ensures forall s :: s in n.links ==> n.links[s].conn != c
  {
    assert AsU32(AsI32(c)) == c;
    assert FromA(n.stages, n.links, n.toB[0]);
    hide QueueToA, Destinations, Sockets, ConnIds, Lossless, ApartA, ApartB;
  }

  /** A connection id gets its answer. */
  lemma StageTables(n: Net, c: U32, x: Stage)
    requires Shape(n) && c in n.stages && n.stages[c].Asked? && !x.Asked?
    ensures Ids(n.accepted, n.stages[c := x])
    ensures Waiting(n.a.pending, n.accepted, n.stages[c := x])
    ensures Reading(n.readers, n.a.pending, n.stages[c := x], n.gotA)
    ensures ConnIds(n.a.sourceConnIds, n.readers, n.stages[c := x])
    ensures Unwritten(n.accepted, n.stages[c := x], n.a.written)
  {
    assert n.stages[c := x].Keys == n.stages.Keys;
    hide QueueToA, QueueToB, Destinations, Sockets, Links, Lossless, ApartA, ApartB;
  }

  lemma RefusedLinks(n: Net, c: U32)
    requires Shape(n) && c in n.stages && n.stages[c].Asked?
    ensures Links(n.links, n.stages[c := Refused], n.gotB)
  {
    hide QueueToA, QueueToB, Destinations, Sockets, Lossless, ApartA, ApartB, Unwritten, Ids, Waiting, Reading, ConnIds;
  }

  lemma NewLinkTables(n: Net, c: U32, s1: U32, h: Handle)
    requires Shape(n) && c in n.stages && n.stages[c].Asked? && s1 !in n.links && NewAtB(n, h)
    ensures Links(n.links[s1 := Link(c, h)], n.stages[c := Linked(s1)], n.gotB)
    ensures Sockets(n.a.sourceSockets, n.links[s1 := Link(c, h)], n.accepted)
    ensures Destinations(n.b.destinations[s1 := h], n.links[s1 := Link(c, h)])
  {
    hide QueueToA, QueueToB, Lossless, ApartA, ApartB, Unwritten, Ids, Waiting, Reading, ConnIds;
  }

  /** The new socket id and connection are none of the other tunnels'. */
  lemma NewLinkApart(n: Net, c: U32, s1: U32, h: Handle)
    requires Shape(n) && NewAtB(n, h) && s1 !in n.asideB.ids
    ensures ApartB(n.b.pending, n.b.sourceSockets, n.b.sourceConnIds, n.links[s1 := Link(c, h)], n.asideB)
    ensures Lossless(n.links[s1 := Link(c, h)], n.lossA, n.lossB)
  {
    hide Ids, Waiting, Reading, ConnIds, Sockets, Destinations, Links, Unwritten, QueueToB, QueueToA, ApartA;
  }

  lemma RequestQueueB(n: Net, c: U32, x: Stage, links: map<U32, Link>)
    requires Shape(n) && RequestFor(n, c) && forall s :: s in n.links ==> s in links
    ensures QueueToB(n.stages[c := x], links, n.toB[1..])
  {
    hide QueueToA, Lossless, ApartA, ApartB, Unwritten, Ids, Waiting, Reading, ConnIds, Links, Sockets, Destinations;
    forall i | 0 <= i < |n.toB[1..]| ensures FromA(n.stages[c := x], links, n.toB[1..][i]) {
      assert FromA(n.stages, n.links, n.toB[i + 1]);
      assert n.toB[i + 1].Request? ==> n.toB[i + 1].fd != n.toB[0].fd;
    }
    hide FromA;
  }

  lemma RequestQueueA(n: Net, c: U32, outcome: Dial, links: map<U32, Link>)
    requires Shape(n) && c in n.stages && n.stages[c].Asked? && forall s :: s in n.links ==> s in links
    ensures var x := if outcome.None? then Refused else Linked(outcome.value.1);
            QueueToA(n.stages[c := x], links, n.toA + [Reply(c, outcome)])
  {
    var x := if outcome.None? then Refused else Linked(outcome.value.1);
    hide QueueToB, Lossless, ApartA, ApartB, Unwritten, Ids, Waiting, Reading, ConnIds, Links, Sockets, Destinations;
    forall i | 0 <= i < |n.toA| ensures FromB(n.stages[c := x], links, n.toA[i]) {
      assert FromB(n.stages, n.links, n.toA[i]);
    }
    assert FromB(n.stages[c := x], links, Reply(c, outcome));
    hide FromB;
  }

  lemma RequestShape(n: Net, dial: Dial, takes: bool, c: U32)
    requires Shape(n) && n.toB != [] && CanDialB(n, dial) && RequestFor(n, c)
    ensures Shape(ReceivingB(n, dial, takes))
  {
    var o := Opened(n, dial);
    RequestEffect(n, dial, takes, c);
    RequestStage(n, c);
    hide Ids, Waiting, Reading, ConnIds, Sockets, Destinations, Links, Lossless, Unwritten, QueueToB, QueueToA, ApartA,
      ApartB, ReceivingB;
    hide RequestFor, NewAtB, Reply;
    var x := if o.None? then Refused else Linked(o.value.1);
    var links := if o.None? then n.links else n.links[o.value.1 := Link(c, o.value.0)];
    StageTables(n, c, x);
    RequestQueueB(n, c, x, links);
    RequestQueueA(n, c, o, links);
    if o.None? {
      RefusedLinks(n, c);
    } else {
      NewLinkTables(n, c, o.value.1, o.value.0);
      NewLinkApart(n, c, o.value.1, o.value.0);
    }
  }

  lemma RequestView(n: Net, dial: Dial, takes: bool, c: U32, s: U32)
    requires Shape(n) && n.toB != [] && CanDialB(n, dial) && RequestFor(n, c) && HasLink(n, s)
    ensures HasLink(ReceivingB(n, dial, takes), s)
    ensures var v := ViewOf(n, s);
            ViewOf(ReceivingB(n, dial, takes), s) ==
            v.(toB := v.toB[1..], toA := v.toA + [Reply(c, Opened(n, dial))])
  {
    hide Shape, ReceivingB, RequestFor;
    RequestEffect(n, dial, takes, c);
    hide NewAtB, Got, Log, Reply;
  }

  lemma RequestKeeps(n: Net, dial: Dial, takes: bool, c: U32, s: U32)
    requires Shape(n) && n.toB != [] && CanDialB(n, dial) && RequestFor(n, c) && Kept(n, s)
    ensures Kept(ReceivingB(n, dial, takes), s)
  {
    var v := ViewOf(n, s);
    RequestView(n, dial, takes, c, s);
    hide Shape, ReceivingB, Good, NewAtB, AsI32, WouldDial, Reply, ViewOf;
    GoodRequest(v, s, c, Opened(n, dial));
  }

  lemma GoodRequest(v: View, s: U32, c: U32, outcome: Dial)
    requires Good(v, s) && v.toB != [] && !v.toB[0].Data? && (outcome.Some? ==> outcome.value.1 != s)
    ensures Good(v.(toB := v.toB[1..], toA := v.toA + [Reply(c, outcome)]), s)
  {
    var reply := [Reply(c, outcome)];
    assert NoData(reply, s, false) && NoAnswer(reply, s);
    hide Good, AsI32, NoData, NoAnswer;
    GoodPassB(v, s);
    GoodBesideA(v.(toB := v.toB[1..]), s, reply);
  }

  /** Nothing is in either queue for a socket id that is not in use. */
  lemma NothingYet(n: Net, s: U32)
    requires Shape(n) && s !in n.links
    ensures NoData(n.toA, s, false) && NoData(n.toB, s, true) && NoAnswer(n.toA, s)
  {
    assert AsU32(AsI32(s)) == s;
    forall i | 0 <= i < |n.toA| ensures !IsData(n.toA[i], s, false) && !Answers(n.toA[i], s) {
      assert FromB(n.stages, n.links, n.toA[i]);
    }
    forall i | 0 <= i < |n.toB| ensures !IsData(n.toB[i], s, true) {
      assert FromA(n.stages, n.links, n.toB[i]);
    }
    hide Ids, Waiting, Reading, ConnIds, Sockets, Destinations, Lossless, Unwritten, ApartA, ApartB;
  }

  lemma GoodNew(toA: seq<Frame>, toB: seq<Frame>, reply: Frame, s: U32)
    requires NoData(toA, s, false) && NoAnswer(toA, s) && NoData(toB, s, true) && toB != [] && Answers(reply, s)
    ensures Good(View(true, false, false, true, toA + [reply], toB[1..], [], [], [], [], Whole, Whole), s)
  {
    AnswerArrives(toA, reply, s);
    TailOf(toB, s, true);
    NoDataIsEmpty(toB[1..], s, true);
    assert NoData(toA + [reply], s, false);
    NoDataIsEmpty(toA + [reply], s, false);
  }

  lemma NewLinkView(n: Net, dial: Dial, takes: bool, c: U32, s: U32)
    requires Shape(n) && n.toB != [] && CanDialB(n, dial) && RequestFor(n, c)
    requires Opened(n, dial).Some? && Opened(n, dial).value.1 == s
    ensures HasLink(ReceivingB(n, dial, takes), s)
    ensures ViewOf(ReceivingB(n, dial, takes), s) ==
            View(true, false, false, true, n.toA + [Reply(c, Opened(n, dial))], n.toB[1..],
                 [], [], [], [], Whole, Whole)
  {
    hide Shape, ReceivingB, RequestFor;
    RequestEffect(n, dial, takes, c);
    RequestStage(n, c);
    NotMapped(n, c, s);
    hide Reply, WouldDial;
  }

  lemma NotMapped(n: Net, c: U32, s: U32)
    requires Shape(n) && c in n.stages && n.stages[c].Asked? && s !in n.links
    ensures c !in n.a.sourceConnIds && s !in n.a.sourceSockets && s !in n.gotB
    ensures LossOf(n.lossA, s).Whole? && LossOf(n.lossB, s).Whole?
  {
    hide QueueToA, QueueToB, ApartA, ApartB, Unwritten, Ids, Waiting, Reading, Destinations;
  }

  lemma NewLinkKeeps(n: Net, dial: Dial, takes: bool, c: U32, s: U32)
    requires Shape(n) && n.toB != [] && CanDialB(n, dial) && RequestFor(n, c)
    requires Opened(n, dial).Some? && Opened(n, dial).value.1 == s
    ensures Kept(ReceivingB(n, dial, takes), s)
  {
    NewLinkView(n, dial, takes, c, s);
    NothingYet(n, s);
    hide Shape, ReceivingB, Good, NewAtB, NoData, NoAnswer, WouldDial;
    GoodNew(n.toA, n.toB, Reply(c, Opened(n, dial)), s);
  }

  // ---- the tunnels opened from the other end ----

  /** The connections outside `handles` were written to as before. */
  ghost predicate LogsBeside(written: map<Handle, ByteString>, written': map<Handle, ByteString>,
                             handles: set<Handle>)
  {
    forall h :: h !in handles ==> (h in written' <==> h in written) && Log(written', h) == Log(written, h)
  }

  /** A queue after a step of the other tunnels: its first frame may be gone, and `more` is added. */
  predicate TurnedA(toA: seq<Frame>, toA': seq<Frame>, more: seq<Frame>) {
    && (forall i :: 0 <= i < |more| ==> ForeignToA(more[i]))
    && (toA' == toA + more || (toA != [] && ForeignToA(toA[0]) && toA' == toA[1..] + more))
  }

  predicate TurnedB(toB: seq<Frame>, toB': seq<Frame>, more: seq<Frame>) {
    && (forall i :: 0 <= i < |more| ==> ForeignToB(more[i]))
    && (toB' == toB + more || (toB != [] && ForeignToB(toB[0]) && toB' == toB[1..] + more))
  }

  /** What a step of the other tunnels leaves alone. */
  ghost predicate Foreign(n: Net, n': Net, moreA: seq<Frame>, moreB: seq<Frame>) {
    && n' == n.(a := n'.a, b := n'.b, toA := n'.toA, toB := n'.toB, asideA := n'.asideA, asideB := n'.asideB)
    && n'.a == n.a.(destinations := n'.a.destinations, places := n'.a.places, written := n'.a.written)
    && n'.b.destinations == n.b.destinations
    && LogsBeside(n.a.written, n'.a.written, n.asideA.handles)
    && LogsBeside(n.b.written, n'.b.written, n.asideB.handles)
    && TurnedA(n.toA, n'.toA, moreA) && TurnedB(n.toB, n'.toB, moreB)
  }

  lemma TurnedQueueA(stages: map<U32, Stage>, links: map<U32, Link>, toA: seq<Frame>, toA': seq<Frame>,
                     more: seq<Frame>)
    requires QueueToA(stages, links, toA) && TurnedA(toA, toA', more)
    ensures QueueToA(stages, links, toA')
  {
    assert forall i :: 0 <= i < |more| ==> FromB(stages, links, more[i]);
    hide FromB, ForeignToA;
  }

  lemma TurnedQueueB(stages: map<U32, Stage>, links: map<U32, Link>, toB: seq<Frame>, toB': seq<Frame>,
                     more: seq<Frame>)
    requires QueueToB(stages, links, toB) && TurnedB(toB, toB', more)
    ensures QueueToB(stages, links, toB')
  {
    assert forall i :: 0 <= i < |more| ==> FromA(stages, links, more[i]) && !more[i].Request?;
    assert forall f :: f in more ==> FromA(stages, links, f) && !f.Request?;
    hide FromA, ForeignToB;
    Tails(stages, links, [], toB);
    QueueToBPut(stages, links, toB, more);
    if toB != [] {
      QueueToBPut(stages, links, toB[1..], more);
    }
  }

  lemma BesideUnwritten(n: Net, written: map<Handle, ByteString>)
    requires Shape(n) && LogsBeside(n.a.written, written, n.asideA.handles)
    ensures Unwritten(n.accepted, n.stages, written)
  {
    hide Ids, Waiting, Reading, ConnIds, Sockets, Destinations, Links, Lossless, QueueToB, QueueToA, ApartB;
    forall c | c in n.accepted && c in n.stages && !n.stages[c].Linked? ensures n.accepted[c] !in written {
      assert n.accepted[c] !in n.asideA.handles && n.accepted[c] !in n.a.written;
      assert Log(written, n.accepted[c]) == Log(n.a.written, n.accepted[c]);
    }
  }

  lemma ForeignShape(n: Net, n': Net, moreA: seq<Frame>, moreB: seq<Frame>)
    requires Shape(n) && Foreign(n, n', moreA, moreB)
    requires ApartA(n'.a.destinations, n.accepted, n'.asideA)
    requires ApartB(n'.b.pending, n'.b.sourceSockets, n'.b.sourceConnIds, n.links, n'.asideB)
    ensures Shape(n')
  {
    hide Ids, Waiting, Reading, ConnIds, Sockets, Destinations, Links, Lossless, Unwritten, QueueToB, QueueToA, ApartA,
      ApartB, LogsBeside, TurnedA, TurnedB;
    TurnedQueueA(n.stages, n.links, n.toA, n'.toA, moreA);
    TurnedQueueB(n.stages, n.links, n.toB, n'.toB, moreB);
    BesideUnwritten(n, n'.a.written);
  }

  /** The connections of the links are none of the other tunnels'. */
  lemma OwnHandles(n: Net, s: U32)
    requires Shape(n) && HasLink(n, s)
    ensures n.accepted[ConnOf(n, s)] !in n.asideA.handles && n.links[s].h !in n.asideB.handles
  {
    hide Ids, Waiting, Reading, ConnIds, Sockets, Destinations, Links, Lossless, Unwritten, QueueToB, QueueToA;
  }

  lemma ForeignView(n: Net, n': Net, moreA: seq<Frame>, moreB: seq<Frame>, s: U32)
    requires Shape(n) && Foreign(n, n', moreA, moreB) && HasLink(n, s)
    ensures HasLink(n', s) && ViewOf(n', s) == ViewOf(n, s).(toA := n'.toA, toB := n'.toB)
  {
    hide Shape, TurnedA, TurnedB, Log, Got;
    OwnHandles(n, s);
  }

  lemma GoodTurnedA(v: View, s: U32, toA: seq<Frame>, more: seq<Frame>)
    requires Good(v, s) && TurnedA(v.toA, toA, more)
    ensures Good(v.(toA := toA), s)
  {
    assert NoData(more, s, false) && NoAnswer(more, s);
    hide Good, NoData, NoAnswer;
    if toA == v.toA + more {
      GoodBesideA(v, s, more);
    } else {
      GoodPassA(v, s);
      GoodBesideA(v.(toA := v.toA[1..]), s, more);
    }
  }

  lemma GoodTurnedB(v: View, s: U32, toB: seq<Frame>, more: seq<Frame>)
    requires Good(v, s) && TurnedB(v.toB, toB, more)
    ensures Good(v.(toB := toB), s)
  {
    assert NoData(more, s, true);
    hide Good, NoData;
    if toB == v.toB + more {
      GoodBesideB(v, s, more);
    } else {
      GoodPassB(v, s);
      GoodBesideB(v.(toB := v.toB[1..]), s, more);
    }
  }

  lemma ForeignKeeps(n: Net, n': Net, moreA: seq<Frame>, moreB: seq<Frame>, s: U32)
    requires Shape(n) && Foreign(n, n', moreA, moreB) && Kept(n, s)
    ensures Kept(n', s)
  {
    var v := ViewOf(n, s);
    assert v.toA == n.toA && v.toB == n.toB;
    hide Shape, Good, TurnedA, TurnedB, ViewOf, LogsBeside;
    ForeignView(n, n', moreA, moreB, s);
    GoodTurnedA(v, s, n'.toA, moreA);
    GoodTurnedB(v.(toA := n'.toA), s, n'.toB, moreB);
  }

  lemma ForeignInv(n: Net, n': Net, moreA: seq<Frame>, moreB: seq<Frame>)
    requires Inv(n) && Foreign(n, n', moreA, moreB)
    requires ApartA(n'.a.destinations, n.accepted, n'.asideA)
    requires ApartB(n'.b.pending, n'.b.sourceSockets, n'.b.sourceConnIds, n.links, n'.asideB)
    ensures Inv(n')
  {
    assert n'.links == n.links;
    hide Shape, Kept, Foreign, ApartA, ApartB;
    ForeignShape(n, n', moreA, moreB);
    forall s | s in n'.links ensures Kept(n', s) {
      ForeignKeeps(n, n', moreA, moreB, s);
    }
  }

  /** A step of the other tunnels leaves this invariant. */
  ghost predicate StaysAside(n: Net, n': Net, moreA: seq<Frame>, moreB: seq<Frame>) {
    && Foreign(n, n', moreA, moreB)
    && ApartA(n'.a.destinations, n.accepted, n'.asideA)
    && ApartB(n'.b.pending, n'.b.sourceSockets, n'.b.sourceConnIds, n.links, n'.asideB)
  }

  lemma SidesApart(n: Net)
    requires Shape(n)
    ensures ApartA(n.a.destinations, n.accepted, n.asideA)
    ensures ApartB(n.b.pending, n.b.sourceSockets, n.b.sourceConnIds, n.links, n.asideB)
    ensures LogsBeside(n.a.written, n.a.written, n.asideA.handles)
    ensures LogsBeside(n.b.written, n.b.written, n.asideB.handles)
    ensures n.toA + [] == n.toA && n.toB + [] == n.toB
  {
    hide Ids, Waiting, Reading, ConnIds, Sockets, Destinations, Links, Lossless, Unwritten, QueueToB, QueueToA, ApartA,
      ApartB;
  }

  lemma AcceptApart(e: Engine, source: nat, h: Handle, links: map<U32, Link>, aside: Aside)
    requires ApartB(e.pending, e.sourceSockets, e.sourceConnIds, links, aside) && e.nextConnId !in links
    requires forall s :: s in links ==> links[s].h != h
    ensures var (e', frames) := OnAccepted(e, source, h);
            && e'.destinations == e.destinations && e'.written == e.written
            && (forall i :: 0 <= i < |frames| ==> ForeignToA(frames[i]))
            && ApartB(e'.pending, e'.sourceSockets, e'.sourceConnIds, links,
                      Aside(aside.ids + (if frames == [] then {} else {e.nextConnId}), aside.handles + {h}))
  {
    hide AsI32, Dropped;
  }

  lemma AsideAccept(n: Net, source: nat, h: Handle)
    requires Shape(n) && NewAtB(n, h) && n.b.nextConnId !in n.links
    ensures StaysAside(n, AcceptingB(n, source, h), OnAccepted(n.b, source, h).1, [])
  {
    hide Shape, OnAccepted, ApartA, ApartB, LogsBeside;
    SidesApart(n);
    AcceptApart(n.b, source, h, n.links, n.asideB);
  }

  /** The ids of the other tunnels are not in the tables of this one. */
  lemma OtherIds(n: Net, id: U32)
    requires Shape(n)
    ensures id in n.asideA.ids ==> id !in n.a.sourceConnIds
    ensures id in n.asideB.ids ==> id !in n.b.destinations
  {
    hide Waiting, Reading, Sockets, Links, Lossless, Unwritten, QueueToB, QueueToA;
  }

  lemma AsideReadA(n: Net, id: U32, result: ReadResult)
    requires Shape(n) && id in n.asideA.ids
    ensures StaysAside(n, Next(n, ReadAsideA(id, result)), [], OnRead(n.a, id, result).1)
  {
    hide Shape, AsI32, Dropped, LogsBeside;
    SidesApart(n);
    OtherIds(n, id);
  }

  lemma AsideReadB(n: Net, id: U32, result: ReadResult)
    requires Shape(n) && id in n.asideB.ids
    ensures StaysAside(n, Next(n, ReadAsideB(id, result)), OnRead(n.b, id, result).1, [])
  {
    hide Shape, AsI32, Dropped, LogsBeside;
    SidesApart(n);
    OtherIds(n, id);
  }

  lemma RequestApart(n: Net, f: Frame, dial: Dial)
    requires f.Request? && CanDialA(n, dial)
    requires ApartA(n.a.destinations, n.accepted, n.asideA)
    ensures var (e, frames) := OnRequest(n.a, f, true, dial);
            && e == n.a.(destinations := e.destinations, places := e.places)
            && (forall i :: 0 <= i < |frames| ==> ForeignToB(frames[i]))
            && ApartA(e.destinations, n.accepted,
                      if dial.Some? && WouldDial(n.a, f.destination)
                      then Aside(n.asideA.ids + {dial.value.1}, n.asideA.handles + {dial.value.0})
                      else n.asideA)
  {
    hide AsI32, WouldDial;
  }

  lemma RecvARequest(n: Net, dial: Dial, takes: bool)
    requires Shape(n) && n.toA != [] && CanDialA(n, dial) && n.toA[0].Request?
    ensures StaysAside(n, ReceivingA(n, dial, takes), [], OnRequest(n.a, n.toA[0], true, dial).1)
  {
    hide Shape, OnRequest, ApartA, ApartB, WouldDial, LogsBeside, CanDialA;
    SidesApart(n);
    RequestApart(n, n.toA[0], dial);
    assert n.toA[1..] + [] == n.toA[1..];
  }

  lemma DataApartA(e: Engine, f: Frame, takes: bool, accepted: map<U32, Handle>, aside: Aside)
    requires f.Data? && f.toDestination == Some(true)
    requires ApartA(e.destinations, accepted, aside)
    ensures var e' := OnData(e, f, takes);
            && e' == e.(destinations := e'.destinations, places := e'.places, written := e'.written)
            && ApartA(e'.destinations, accepted, aside)
            && LogsBeside(e.written, e'.written, aside.handles)
  {
  }

  lemma RecvAOther(n: Net, dial: Dial, takes: bool)
    requires Shape(n) && n.toA != []
    requires n.toA[0].Undecodable? || (n.toA[0].Data? && n.toA[0].toDestination == Some(true))
    ensures StaysAside(n, ReceivingA(n, dial, takes), [], [])
  {
    hide Shape, OnData, ApartA, ApartB, LogsBeside;
    SidesApart(n);
    if n.toA[0].Data? {
      DataApartA(n.a, n.toA[0], takes, n.accepted, n.asideA);
    }
    assert n.toA[1..] + [] == n.toA[1..];
  }

  lemma ResponseApart(e: Engine, f: Frame, links: map<U32, Link>, aside: Aside)
    requires f.Response? && ApartB(e.pending, e.sourceSockets, e.sourceConnIds, links, aside)
    ensures var e' := OnResponse(e, f);
            && ApartB(e'.pending, e'.sourceSockets, e'.sourceConnIds, links, aside)
            && e'.destinations == e.destinations && e'.written == e.written
  {
    hide AsU32, Dropped;
  }

  lemma DataApartB(e: Engine, f: Frame, takes: bool, links: map<U32, Link>, aside: Aside)
    requires f.Data? && f.toDestination != Some(true)
    requires ApartB(e.pending, e.sourceSockets, e.sourceConnIds, links, aside)
    ensures var e' := OnData(e, f, takes);
            && ApartB(e'.pending, e'.sourceSockets, e'.sourceConnIds, links, aside)
            && e'.destinations == e.destinations && LogsBeside(e.written, e'.written, aside.handles)
  {
  }

  lemma AsideRecvB(n: Net, dial: Dial, takes: bool)
    requires Shape(n) && n.toB != [] && ForeignToB(n.toB[0])
    ensures StaysAside(n, ReceivingB(n, dial, takes), [], [])
  {
    hide Shape, OnData, OnResponse, ApartA, ApartB, LogsBeside;
    SidesApart(n);
    if n.toB[0].Response? {
      ResponseApart(n.b, n.toB[0], n.links, n.asideB);
    } else if n.toB[0].Data? {
      DataApartB(n.b, n.toB[0], takes, n.links, n.asideB);
    }
    assert n.toB[1..] + [] == n.toB[1..];
  }

  // ---- a frame is lost ----

  lemma LostQueues(stages: map<U32, Stage>, links: map<U32, Link>, frames: seq<Frame>, i: nat)
    requires i < |frames|
    ensures QueueToB(stages, links, frames) ==> QueueToB(stages, links, Without(frames, i))
    ensures QueueToA(stages, links, frames) ==> QueueToA(stages, links, Without(frames, i))
  {
    hide FromA, FromB;
    var rest := Without(frames, i);
    assert forall j :: 0 <= j < |rest| ==> rest[j] == if j < i then frames[j] else frames[j + 1];
  }

  lemma LosingLossless(n: Net, i: nat)
    requires Shape(n)
    ensures i < |n.toA| ==> Lossless(n.links, Losing(n.lossA, n.toA, i, false), n.lossB)
    ensures i < |n.toB| ==> Lossless(n.links, n.lossA, Losing(n.lossB, n.toB, i, true))
  {
    hide Ids, Waiting, Reading, ConnIds, Sockets, Destinations, Links, Unwritten, ApartA, ApartB, NoBytes;
    if i < |n.toA| {
      assert FromB(n.stages, n.links, n.toA[i]);
    }
    if i < |n.toB| {
      assert FromA(n.stages, n.links, n.toB[i]);
    }
  }

  lemma LoseShape(n: Net, step: Step)
    requires Shape(n) && (step.LoseA? || step.LoseB?) && Enabled(n, step)
    ensures Shape(Next(n, step))
  {
    hide Ids, Waiting, Reading, ConnIds, Sockets, Destinations, Links, Lossless, Unwritten, QueueToB, QueueToA, ApartA,
      ApartB, Losing, Without;
    LosingLossless(n, step.i);
    if step.LoseA? {
      LostQueues(n.stages, n.links, n.toA, step.i);
    } else {
      LostQueues(n.stages, n.links, n.toB, step.i);
    }
  }

  /** What losing a frame does to the record of one link. */
  lemma LosingOf(losses: map<U32, Loss>, frames: seq<Frame>, i: nat, d: bool, s: U32)
    requires i < |frames|
    ensures LossOf(Losing(losses, frames, i, d), s) == AfterLosing(LossOf(losses, s), frames, i, s, d)
  {
    hide NoBytes;
    assert AsU32(AsI32(s)) == s;
    if frames[i].Data? && frames[i].socket.Some? {
      assert AsI32(AsU32(frames[i].socket.value)) == frames[i].socket.value;
    }
  }

  lemma LoseKeeps(n: Net, step: Step, s: U32)
    requires (step.LoseA? || step.LoseB?) && Enabled(n, step) && Kept(n, s)
    ensures Kept(Next(n, step), s)
  {
    hide Good, Losing, Without, Log, Got, AfterLosing;
    var v := ViewOf(n, s);
    if step.LoseA? {
      LosingOf(n.lossA, n.toA, step.i, false, s);
      GoodLoseA(v, s, step.i);
    } else {
      LosingOf(n.lossB, n.toB, step.i, true, s);
      GoodLoseB(v, s, step.i);
    }
  }

  // ---- every step, every run ----

  lemma RecvAKeeps(n: Net, dial: Dial, takes: bool)
    requires Inv(n) && n.toA != [] && CanDialA(n, dial)
    ensures Inv(ReceivingA(n, dial, takes))
  {
    var f, n' := n.toA[0], ReceivingA(n, dial, takes);
    assert FromB(n.stages, n.links, f);
    hide Shape, Kept, Foreign, ApartA, ApartB, CanDialA, OnRequest, ReceivingA;
    if f.Response? {
      var c, s0 := AsU32(f.clientfd.value), if f.socketid.None? then None else Some(AsU32(f.socketid.value));
      assert AnswerFor(n, c, s0);
      assert n'.links == n.links by { AnswerEffect(n, dial, takes, c, s0); }
      hide AnswerFor;
      AnswerShape(n, dial, takes, c, s0);
      forall s | s in n'.links ensures Kept(n', s) { AnswerKeeps(n, dial, takes, c, s0, s); }
    } else if f.Data? && f.toDestination != Some(true) {
      var s0 := AsU32(f.socket.value);
      assert n'.links == n.links by { DataAEffect(n, dial, takes, s0); }
      DataAShape(n, dial, takes, s0);
      forall s | s in n'.links ensures Kept(n', s) { DataAKeeps(n, dial, takes, s0, s); }
    } else if f.Request? {
      RecvARequest(n, dial, takes);
      ForeignInv(n, n', [], OnRequest(n.a, f, true, dial).1);
    } else {
      RecvAOther(n, dial, takes);
      ForeignInv(n, n', [], []);
    }
  }

  lemma RecvBKeeps(n: Net, dial: Dial, takes: bool)
    requires Inv(n) && n.toB != [] && CanDialB(n, dial)
    ensures Inv(ReceivingB(n, dial, takes))
  {
    var f, n' := n.toB[0], ReceivingB(n, dial, takes);
    assert FromA(n.stages, n.links, f);
    hide Shape, Kept, Foreign, ApartA, ApartB, CanDialB, ReceivingB;
    if f.Request? {
      RequestKept(n, dial, takes, AsU32(f.fd.value));
    } else if f.Data? && f.toDestination == Some(true) {
      var s0 := AsU32(f.socket.value);
      assert n'.links == n.links by { DataBEffect(n, dial, takes, s0); }
      DataBShape(n, dial, takes, s0);
      forall s | s in n'.links ensures Kept(n', s) { DataBKeeps(n, dial, takes, s0, s); }
    } else {
      AsideRecvB(n, dial, takes);
      ForeignInv(n, n', [], []);
    }
  }

  lemma RequestKept(n: Net, dial: Dial, takes: bool, c: U32)
    requires Inv(n) && n.toB != [] && CanDialB(n, dial) && RequestFor(n, c)
    ensures Inv(ReceivingB(n, dial, takes))
  {
    var n' := ReceivingB(n, dial, takes);
    RequestEffect(n, dial, takes, c);
    hide Shape, ReceivingB, Kept, RequestFor, Reply;
    RequestShape(n, dial, takes, c);
    forall s | s in n'.links ensures Kept(n', s) {
      if s in n.links {
        RequestKeeps(n, dial, takes, c, s);
      } else {
        NewLinkKeeps(n, dial, takes, c, s);
      }
    }
  }

  lemma LinksStay(n: Net, step: Step)
    requires Enabled(n, step) && (step.AcceptA? || step.ReadA? || step.ReadB? || step.LoseA? || step.LoseB?)
    ensures Next(n, step).links == n.links
  {
    hide OnRead, OnAccepted, Enabled, Losing, Without, Grown;
    match step {
      case AcceptA(source, h) => assert AcceptingA(n, source, h).links == n.links;
      case ReadA(conn, result) => assert ReadingA(n, conn, result).links == n.links;
      case ReadB(socket, result) => assert ReadingB(n, socket, result).links == n.links;
      case _ =>
    }
  }

  lemma LocalKeeps(n: Net, step: Step)
    requires Inv(n) && Enabled(n, step) && (step.AcceptA? || step.ReadA? || step.ReadB? || step.LoseA? || step.LoseB?)
    ensures Inv(Next(n, step))
  {
    LinksStay(n, step);
    hide Shape, Kept, CanAcceptA, AcceptingA, ReadingA, ReadingB, Losing, Without;
    LocalShape(n, step);
    hide Next, Enabled;
    forall s | s in n.links ensures Kept(Next(n, step), s) {
      LocalKept(n, step, s);
    }
  }

  lemma LocalKept(n: Net, step: Step, s: U32)
    requires Shape(n) && Enabled(n, step) && Kept(n, s)
    requires step.AcceptA? || step.ReadA? || step.ReadB? || step.LoseA? || step.LoseB?
    ensures Kept(Next(n, step), s)
  {
    hide Shape, Kept, CanAcceptA, AcceptingA, ReadingA, ReadingB, Losing, Without;
    match step {
      case AcceptA(source, h) => AcceptKeeps(n, source, h, s);
      case ReadA(conn, result) => ReadAKeeps(n, conn, result, s);
      case ReadB(socket, result) => ReadBKeeps(n, socket, result, s);
      case _ => LoseKeeps(n, step, s);
    }
  }

  lemma LocalShape(n: Net, step: Step)
    requires Shape(n) && Enabled(n, step)
    requires step.AcceptA? || step.ReadA? || step.ReadB? || step.LoseA? || step.LoseB?
    ensures Shape(Next(n, step))
  {
    hide Shape, CanAcceptA, AcceptingA, ReadingA, ReadingB, Losing, Without;
    match step {
      case AcceptA(source, h) => AcceptShape(n, source, h);
      case ReadA(conn, result) => ReadAShape(n, conn, result);
      case ReadB(socket, result) => ReadBShape(n, socket, result);
      case _ => LoseShape(n, step);
    }
  }

  lemma AsideKeeps(n: Net, step: Step)
    requires Inv(n) && Enabled(n, step) && (step.AcceptB? || step.ReadAsideA? || step.ReadAsideB?)
    ensures Inv(Next(n, step))
  {
    var n' := Next(n, step);
    hide Shape, Kept, Foreign, ApartA, ApartB, AcceptingB, OnRead, OnAccepted;
    match step {
      case AcceptB(source, h) =>
        AsideAccept(n, source, h);
        ForeignInv(n, n', OnAccepted(n.b, source, h).1, []);
      case ReadAsideA(id, result) =>
        AsideReadA(n, id, result);
        ForeignInv(n, n', [], OnRead(n.a, id, result).1);
      case ReadAsideB(id, result) =>
        AsideReadB(n, id, result);
        ForeignInv(n, n', OnRead(n.b, id, result).1, []);
    }
  }

  lemma StepKeeps(n: Net, step: Step)
    requires Inv(n) && Enabled(n, step)
    ensures Inv(Next(n, step))
  {
    hide Inv, CanDialA, CanDialB, ReceivingA, ReceivingB, CanAcceptA, NewAtB, AcceptingA, AcceptingB, ReadingA,
      ReadingB;
    match step {
      case RecvA(dial, takes) => RecvAKeeps(n, dial, takes);
      case RecvB(dial, takes) => RecvBKeeps(n, dial, takes);
      case AcceptB(_, _) => AsideKeeps(n, step);
      case ReadAsideA(_, _) => AsideKeeps(n, step);
      case ReadAsideB(_, _) => AsideKeeps(n, step);
      case _ => LocalKeeps(n, step);
    }
  }

  predicate Runs(n: Net, run: seq<Step>)
    decreases |run|
  {
    run == [] || (Enabled(n, run[0]) && Runs(Next(n, run[0]), run[1..]))
  }

  function After(n: Net, run: seq<Step>): Net
    requires Runs(n, run)
    decreases |run|
  {
    if run == [] then n else After(Next(n, run[0]), run[1..])
  }

  lemma {:induction false} RunKeeps(n: Net, run: seq<Step>)
    requires Inv(n) && Runs(n, run)
    ensures Inv(After(n, run))
    decreases |run|
  {
    hide Inv, Enabled, Next;
    if run != [] {
      StepKeeps(n, run[0]);
      RunKeeps(Next(n, run[0]), run[1..]);
    }
  }

  lemma StartInv(sourcesA: seq<Option<Dest>>, sourcesB: seq<Option<Dest>>)
    ensures Inv(Start(sourcesA, sourcesB))
  {
  }

  /** The bytes of one link, towards engine B and back. */
  predicate KeepsBytes(n: Net, s: U32)
    requires HasLink(n, s)
  {
    var link := n.links[s];
    && (!LossOf(n.lossB, s).Torn? ==> Log(n.b.written, link.h) <= Got(n.gotA, link.conn))
    && (!LossOf(n.lossA, s).Torn? ==> Log(n.a.written, n.accepted[link.conn]) <= Got(n.gotB, s))
    && (LossOf(n.lossB, s).Whole? && s in n.b.destinations && link.conn in n.a.sourceConnIds ==>
          Log(n.b.written, link.h) + DataOf(n.toB, s, true) == Got(n.gotA, link.conn))
    && (LossOf(n.lossA, s).Whole? && s in n.b.destinations && s in n.a.sourceSockets ==>
          Log(n.a.written, n.accepted[link.conn]) + DataOf(n.toA, s, false) == Got(n.gotB, s))
    && (link.conn in n.a.pending ==> AnswerFirst(n.toA, s) || NoAnswer(n.toA, s))
  }

  lemma KeptBytes(n: Net, s: U32)
    requires Kept(n, s)
    ensures KeepsBytes(n, s)
  {
    hide Log, Got, AnswerFirst, NoAnswer, NoData, DataOf;
  }

  /** Over every run of the two engines, whichever frames are lost and whatever tunnels are opened
      from the other end, for every link that was ever opened from A: what is queued for the
      destination connection is a prefix of what was read from the source connection it was opened
      for, and the other way round, unless bytes were sent behind a loss; while both ends are
      registered and nothing was lost, the difference is exactly what is in flight. Until the source
      has handled the response, the response comes before all data of its socket or was lost. */
  lemma TunnelsKeepTheirBytes(sourcesA: seq<Option<Dest>>, sourcesB: seq<Option<Dest>>, run: seq<Step>, s: U32)
    requires Runs(Start(sourcesA, sourcesB), run) && s in After(Start(sourcesA, sourcesB), run).links
    ensures var n := After(Start(sourcesA, sourcesB), run); HasLink(n, s) && KeepsBytes(n, s)
  {
    StartInv(sourcesA, sourcesB);
    RunKeeps(Start(sourcesA, sourcesB), run);
    hide Shape, Kept, Runs, After, KeepsBytes;
    KeptBytes(After(Start(sourcesA, sourcesB), run), s);
  }

  // ---- a stream is torn by what is sent after a loss ----

  lemma {:induction false} RunsThrough(n: Net, run: seq<Step>, more: seq<Step>)
    requires Runs(n, run) && Runs(After(n, run), more)
    ensures Runs(n, run + more) && After(n, run + more) == After(After(n, run), more)
    decreases |run|
  {
    hide Enabled, Next;
    if run == [] {
      assert run + more == more;
    } else {
      assert (run + more)[0] == run[0] && (run + more)[1..] == run[1..] + more;
      RunsThrough(Next(n, run[0]), run[1..], more);
    }
  }

  lemma RunsOn(n: Net, run: seq<Step>, step: Step)
    requires Runs(n, run) && Enabled(After(n, run), step)
    ensures Runs(n, run + [step]) && After(n, run + [step]) == Next(After(n, run), step)
  {
    hide Enabled, Next;
    var n' := After(n, run);
    assert [step][0] == step && [step][1..] == [] && Runs(Next(n', step), []);
    RunsThrough(n, run, [step]);
  }

  /** Link `s` is open at both ends and both queues are empty. */
  predicate OpenAt(n: Net, s: U32) {
    && HasLink(n, s) && n.toA == [] && n.toB == [] && ConnOf(n, s) in n.readers
    && s in n.b.destinations && n.b.destinations[s] == n.links[s].h
    && ConnOf(n, s) in n.a.sourceConnIds && n.a.sourceConnIds[ConnOf(n, s)] == s
  }

  lemma FirstRequest(d: Dest, h: Handle)
    ensures Enabled(Start([Some(d)], []), AcceptA(0, h))
    ensures var n := Next(Start([Some(d)], []), AcceptA(0, h));
            && n == Start([Some(d)], []).(a := n.a, toB := [Request(Some(d), Some(AsI32(1)))],
                                          accepted := map[1 := h], stages := map[1 := Asked])
            && n.a.pending == map[1 := h] && n.a.sourceSockets == map[] && n.a.sourceConnIds == map[]
  {
  }

  lemma FirstAnswer(n: Net, d: Dest, g: Handle, s: U32)
    requires n.toB == [Request(Some(d), Some(AsI32(1)))] && n.toA == [] && n.b == NewEngine([])
    requires n.links == map[] && n.asideB == Aside({}, {}) && d.port.Some? && 0 <= d.port.value <= 65535
    ensures Enabled(n, RecvB(Some((g, s)), true))
    ensures var n' := Next(n, RecvB(Some((g, s)), true));
            && n' == n.(b := n'.b, toB := [], toA := [Response(Some(AsI32(1)), Some(AsI32(s)), false)],
                        stages := n'.stages, links := map[s := Link(1, g)])
            && n'.b.destinations == map[s := g] && n'.b.written == map[]
  {
    assert n.b.destinations == map[] && AsU32(AsI32(1)) == 1;
    hide AsI32, AsU32;
  }

  lemma FirstOpened(n: Net, h: Handle, s: U32)
    requires n.toA == [Response(Some(AsI32(1)), Some(AsI32(s)), false)] && n.a.pending == map[1 := h]
    requires n.a.sourceConnIds == map[] && n.toB == []
    ensures Enabled(n, RecvA(None, true))
    ensures var n' := Next(n, RecvA(None, true));
            && n' == n.(a := n'.a, toA := [], readers := n.readers + {1})
            && n'.a.sourceConnIds == map[1 := s]
  {
    assert AsU32(AsI32(1)) == 1 && AsU32(AsI32(s)) == s;
    hide AsI32, AsU32, Dropped;
  }

  /** A connection is accepted, its request answered, and the response handled: a link is open. */
  lemma LinkOpens(d: Dest, h: Handle, g: Handle, s: U32) returns (run: seq<Step>)
    requires d.port.Some? && 0 <= d.port.value <= 65535
    ensures Runs(Start([Some(d)], []), run)
    ensures var n := After(Start([Some(d)], []), run);
            && OpenAt(n, s) && n.links[s] == Link(1, g)
            && Got(n.gotA, 1) == [] && Log(n.b.written, g) == [] && LossOf(n.lossB, s).Whole?
  {
    hide Enabled, Next, AsI32;
    var n0 := Start([Some(d)], []);
    FirstRequest(d, h);
    var n1 := Next(n0, AcceptA(0, h));
    FirstAnswer(n1, d, g, s);
    var n2 := Next(n1, RecvB(Some((g, s)), true));
    FirstOpened(n2, h, s);
    assert Runs(n0, []) && After(n0, []) == n0;
    RunsOn(n0, [], AcceptA(0, h));
    run := [] + [AcceptA(0, h)];
    RunsOn(n0, run, RecvB(Some((g, s)), true));
    run := run + [RecvB(Some((g, s)), true)];
    RunsOn(n0, run, RecvA(None, true));
    run := run + [RecvA(None, true)];
  }

  /** A read on an open link puts one data frame in flight and changes no table. */
  lemma OpenRead(n: Net, s: U32, x: ByteString)
    requires OpenAt(n, s) && x != []
    ensures Enabled(n, ReadA(ConnOf(n, s), Bytes(x)))
    ensures var c, n' := ConnOf(n, s), Next(n, ReadA(ConnOf(n, s), Bytes(x)));
            && n' == n.(toB := [DataFrame(s, true, x)], gotA := n'.gotA, lossB := n'.lossB)
            && Got(n'.gotA, c) == Got(n.gotA, c) + x
            && LossOf(n'.lossB, s) == AfterLoss(LossOf(n.lossB, s), true, x)
  {
    assert [] + [DataFrame(s, true, x)] == [DataFrame(s, true, x)];
    hide DataFrame;
  }

  /** That frame is lost. */
  lemma OpenLose(n: Net, s: U32, x: ByteString)
    requires n.toB == [DataFrame(s, true, x)]
    ensures Enabled(n, LoseB(0))
    ensures var n' := Next(n, LoseB(0));
            && n' == n.(toB := [], lossB := n'.lossB)
            && !LossOf(n'.lossB, s).Whole?
  {
    assert Without(n.toB, 0) == [];
    LosingOf(n.lossB, n.toB, 0, true, s);
    hide Losing;
  }

  /** The destination connection takes the bytes of a data frame. */
  lemma OpenTake(n: Net, s: U32, x: ByteString)
    requires n.toB == [DataFrame(s, true, x)] && s in n.b.destinations
    ensures Enabled(n, RecvB(None, true))
    ensures var h, n' := n.b.destinations[s], Next(n, RecvB(None, true));
            && n' == n.(b := n'.b, toB := [])
            && Log(n'.b.written, h) == Log(n.b.written, h) + x
  {
    DataBEffect(n, None, true, s);
    hide ReceivingB;
  }

  /** Wherever a link is open and its queues have drained, losing what is read first and delivering
      what is read next leaves the prefix law exactly when the later bytes happen to repeat what is
      missing. */
  lemma LossTearsStream(n: Net, s: U32, x: ByteString, y: ByteString) returns (run: seq<Step>)
    requires OpenAt(n, s) && x != [] && y != []
    requires Log(n.b.written, n.links[s].h) == Got(n.gotA, ConnOf(n, s))
    ensures var c := ConnOf(n, s);
            run == [ReadA(c, Bytes(x)), LoseB(0), ReadA(c, Bytes(y)), RecvB(None, true)]
    ensures Runs(n, run)
    ensures var n' := After(n, run);
            && HasLink(n', s) && n'.links == n.links && LossOf(n'.lossB, s).Torn?
            && Got(n'.gotA, ConnOf(n, s)) == Got(n.gotA, ConnOf(n, s)) + x + y
            && Log(n'.b.written, n.links[s].h) == Got(n.gotA, ConnOf(n, s)) + y
            && (Log(n'.b.written, n.links[s].h) <= Got(n'.gotA, ConnOf(n, s)) <==> y <= x + y)
  {
    var c, got := ConnOf(n, s), Got(n.gotA, ConnOf(n, s));
    OpenRead(n, s, x);
    hide Enabled, Next, Got, Log, LossOf, DataFrame;
    var n1 := Next(n, ReadA(c, Bytes(x)));
    OpenLose(n1, s, x);
    var n2 := Next(n1, LoseB(0));
    OpenRead(n2, s, y);
    var n3 := Next(n2, ReadA(c, Bytes(y)));
    OpenTake(n3, s, y);
    Hole(got, x, y);
    assert Runs(n, []) && After(n, []) == n;
    RunsOn(n, [], ReadA(c, Bytes(x)));
    run := [] + [ReadA(c, Bytes(x))];
    RunsOn(n, run, LoseB(0));
    run := run + [LoseB(0)];
    RunsOn(n, run, ReadA(c, Bytes(y)));
    run := run + [ReadA(c, Bytes(y))];
    RunsOn(n, run, RecvB(None, true));
    run := run + [RecvB(None, true)];
  }

  /** Every link in reach that is open, whole and drained is such a place. */
  lemma DrainedLinkCanTear(n: Net, s: U32)
    requires Inv(n) && OpenAt(n, s) && LossOf(n.lossB, s).Whole?
    ensures Log(n.b.written, n.links[s].h) == Got(n.gotA, ConnOf(n, s))
  {
    assert Kept(n, s);
    hide Shape, Log, Got, LossOf;
    assert Log(n.b.written, n.links[s].h) + [] == Log(n.b.written, n.links[s].h);
  }

  /** A run from the start after which what is queued is no prefix of what was read. */
  lemma TornStreamArises(d: Dest, h: Handle, g: Handle, s: U32, x: Byte, y: Byte) returns (run: seq<Step>)
    requires d.port.Some? && 0 <= d.port.value <= 65535 && x != y
    ensures Runs(Start([Some(d)], []), run)
    ensures var n := After(Start([Some(d)], []), run);
            && HasLink(n, s) && n.links[s] == Link(1, g)
            && Got(n.gotA, 1) == [x, y] && Log(n.b.written, g) == [y]
            && !(Log(n.b.written, g) <= Got(n.gotA, 1))
  {
    var opening := LinkOpens(d, h, g, s);
    var n0 := Start([Some(d)], []);
    hide Runs, After, Got, Log, Enabled, Next;
    var tearing := LossTearsStream(After(n0, opening), s, [x], [y]);
    RunsThrough(n0, opening, tearing);
    run := opening + tearing;
    assert [] + [x] + [y] == [x, y] && [] + [y] == [y];
    assert [x, y][0] == x && [y][0] == y;
  }

  lemma Hole(got: ByteString, x: ByteString, y: ByteString)
    ensures got + y <= got + x + y <==> y <= x + y
  {
    PrefixShift(got, y, x + y);
    assert got + (x + y) == got + x + y;
  }

  lemma PrefixShift(p: ByteString, a: ByteString, b: ByteString)
    ensures p + a <= p + b <==> a <= b
  {
    if p + a <= p + b {
      assert a == (p + a)[|p|..] && (p + a)[|p|..] == (p + b)[..|p| + |a|][|p|..];
      assert (p + b)[..|p| + |a|][|p|..] == b[..|a|];
    }
  }
}
