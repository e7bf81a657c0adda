/** The two engines of a session and the frames between them, seen from neither end. Whatever happens
    at one end could happen at the other, so what holds of the tunnels opened from one end holds of
    those opened from the other. */
module Pairs {
  import opened Bytes
  import opened Forwarding
  import opened TunnelViews
  import opened Tunnels

  /** One end: its engine and whether it answers requests with connections, the frames on their way to
      it, every id it assigned or drew and every connection it had, the ids of the connections it
      reads, and what it read from them. */
  datatype End = End(
    engine: Engine,
    answers: bool,
    queue: seq<Frame>,
    ids: set<U32>,
    handles: set<Handle>,
    readers: set<U32>,
    got: map<U32, ByteString>)

  datatype Pair = Pair(a: End, b: End)

  function Mirror(p: Pair): Pair {
    Pair(p.b, p.a)
  }

  datatype Act =
    | AcceptAt(atA: bool, source: nat, h: Handle)
    | ReadAt(atA: bool, id: U32, result: ReadResult)
    | RecvAt(atA: bool, dial: Dial, takes: bool)
    | LoseAt(atA: bool, i: nat)        // a frame on its way to that end

  function Turned(act: Act): Act {
    match act
    case AcceptAt(atA, source, h) => AcceptAt(!atA, source, h)
    case ReadAt(atA, id, result) => ReadAt(!atA, id, result)
    case RecvAt(atA, dial, takes) => RecvAt(!atA, dial, takes)
    case LoseAt(atA, i) => LoseAt(!atA, i)
  }

  // ---- the machine ----

  /** New connections have new handles, and an id is assigned or drawn once. */
  predicate Can(x: End, act: Act) {
    match act
    case AcceptAt(_, _, h) => h !in x.handles && x.engine.nextConnId !in x.ids
    case ReadAt(_, id, _) => id in x.readers
    case RecvAt(_, dial, _) =>
      x.queue != [] && (dial.Some? ==> dial.value.0 !in x.handles && dial.value.1 !in x.ids)
    case LoseAt(_, i) => i < |x.queue|
  }

  /** The connection id that a response maps, so that its connection is read from now on. */
  function Maps(e: Engine, f: Frame): set<U32> {
    if f.Response? && f.clientfd.Some? && f.socketid.Some? && AsU32(f.clientfd.value) in e.pending
    then {AsU32(f.clientfd.value)} else {}
  }

  /** A request is answered with a connection. */
  predicate Dials(e: Engine, f: Frame, dial: Dial) {
    f.Request? && dial.Some? && WouldDial(e, f.destination)
  }

  function Draws(e: Engine, f: Frame, dial: Dial): set<U32> {
    if Dials(e, f, dial) then {dial.value.1} else {}
  }

  function Opens(e: Engine, f: Frame, dial: Dial): set<Handle> {
    if Dials(e, f, dial) then {dial.value.0} else {}
  }

  /** An engine that does not answer requests dials nothing. */
  function Given(answers: bool, dial: Dial): Dial {
    if answers then dial else None
  }

  function Receiving(x: End, dial: Dial, takes: bool): End
    requires x.queue != []
  {
    var e, f, given := x.engine, x.queue[0], Given(x.answers, dial);
    x.(engine := OnPeerFrame(e, f, x.answers, dial, takes).0, queue := x.queue[1..],
       ids := x.ids + Draws(e, f, given), handles := x.handles + Opens(e, f, given),
       readers := x.readers + Maps(e, f) + Draws(e, f, given))
  }

  lemma NotAnswering(e: Engine, f: Frame, answers: bool, dial: Dial, takes: bool)
    ensures OnPeerFrame(e, f, answers, dial, takes) == OnPeerFrame(e, f, true, Given(answers, dial), takes)
  {
    hide OnResponse, OnData, WouldDial;
  }

  /** What an act makes of its end, and the frames it sends to the other. */
  function Acted(x: End, act: Act): (End, seq<Frame>)
    requires Can(x, act)
  {
    match act
    case AcceptAt(_, source, h) =>
      var (e, frames) := OnAccepted(x.engine, source, h);
      (x.(engine := e, handles := x.handles + {h},
          ids := x.ids + (if frames == [] then {} else {x.engine.nextConnId})), frames)
    case ReadAt(_, id, result) =>
      (x.(engine := OnRead(x.engine, id, result).0, got := Grown(x.got, id, result)),
       OnRead(x.engine, id, result).1)
    case RecvAt(_, dial, takes) =>
      (Receiving(x, dial, takes), OnPeerFrame(x.engine, x.queue[0], x.answers, dial, takes).1)
    case LoseAt(_, i) => (x.(queue := Without(x.queue, i)), [])
  }

  predicate Enabled(p: Pair, act: Act) {
    Can(if act.atA then p.a else p.b, act)
  }

  function Next(p: Pair, act: Act): Pair
    requires Enabled(p, act)
  {
    if act.atA then
      var (a, frames) := Acted(p.a, act);
      Pair(a, p.b.(queue := p.b.queue + frames))
    else
      var (b, frames) := Acted(p.b, act);
      Pair(p.a.(queue := p.a.queue + frames), b)
  }

  /** What an end is started with. */
  datatype Config = Config(sources: seq<Option<Dest>>, answers: bool)

  function NewEnd(config: Config): End {
    End(NewEngine(config.sources), config.answers, [], {}, {}, {}, map[])
  }

  function Start(a: Config, b: Config): Pair {
    Pair(NewEnd(a), NewEnd(b))
  }

  predicate Runs(p: Pair, acts: seq<Act>)
    decreases |acts|
  {
    acts == [] || (Enabled(p, acts[0]) && Runs(Next(p, acts[0]), acts[1..]))
  }

  function After(p: Pair, acts: seq<Act>): Pair
    requires Runs(p, acts)
    decreases |acts|
  {
    if acts == [] then p else After(Next(p, acts[0]), acts[1..])
  }

  // ---- the mirror ----

  function AllTurned(acts: seq<Act>): seq<Act> {
    if acts == [] then [] else [Turned(acts[0])] + AllTurned(acts[1..])
  }

  lemma TurnedStep(p: Pair, act: Act)
    requires Enabled(p, act)
    ensures Enabled(Mirror(p), Turned(act)) && Next(Mirror(p), Turned(act)) == Mirror(Next(p, act))
  {
    hide OnAccepted, OnRead, Receiving, OnPeerFrame, Without, Grown;
  }

  lemma {:induction false} TurnedRun(p: Pair, acts: seq<Act>)
    requires Runs(p, acts)
    ensures Runs(Mirror(p), AllTurned(acts)) && After(Mirror(p), AllTurned(acts)) == Mirror(After(p, acts))
    decreases |acts|
  {
    hide Enabled, Next, Mirror;
    if acts != [] {
      TurnedStep(p, acts[0]);
      TurnedRun(Next(p, acts[0]), acts[1..]);
      assert AllTurned(acts)[0] == Turned(acts[0]) && AllTurned(acts)[1..] == AllTurned(acts[1..]);
    }
  }

  // ---- the pair as seen from A ----

  /** Every connection the engine knows is one of `handles`. */
  predicate Known(e: Engine, handles: set<Handle>) {
    && (forall k :: k in e.pending ==> e.pending[k] in handles)
    && (forall k :: k in e.sourceSockets ==> e.sourceSockets[k] in handles)
    && (forall k :: k in e.destinations ==> e.destinations[k] in handles)
    && e.written.Keys <= handles
  }

  /** End A of the net: the ids and connections of both kinds of tunnels are the end's own. */
  predicate TracksA(x: End, accepted: map<U32, Handle>, readers: set<U32>, got: map<U32, ByteString>, aside: Aside) {
    && Known(x.engine, x.handles) && x.got.Keys <= x.ids
    && accepted.Keys + aside.ids <= x.ids && aside.handles <= x.handles
    && (forall c :: c in accepted ==> accepted[c] in x.handles)
    && x.readers <= readers + aside.ids
    && (forall c :: c in accepted ==> Got(got, c) == Got(x.got, c))
  }

  predicate TracksB(x: End, links: map<U32, Link>, got: map<U32, ByteString>, aside: Aside) {
    && Known(x.engine, x.handles) && x.got.Keys <= x.ids
    && links.Keys + aside.ids <= x.ids && aside.handles <= x.handles
    && (forall s :: s in links ==> links[s].h in x.handles)
    && x.readers <= links.Keys + aside.ids
    && (forall s :: s in links ==> Got(got, s) == Got(x.got, s))
  }

  /** The net records, besides what the pair has, which tunnel everything belongs to. */
  predicate Tracks(p: Pair, n: Net) {
    && n.a == p.a.engine && n.b == p.b.engine && n.toA == p.a.queue && n.toB == p.b.queue
    && TracksA(p.a, n.accepted, n.readers, n.gotA, n.asideA)
    && TracksB(p.b, n.links, n.gotB, n.asideB)
  }

  lemma KnownAccept(e: Engine, source: nat, h: Handle, handles: set<Handle>)
    requires Known(e, handles)
    ensures Known(OnAccepted(e, source, h).0, handles + {h})
  {
    hide Dropped, AsI32;
  }

  lemma KnownRead(e: Engine, id: U32, result: ReadResult, handles: set<Handle>)
    requires Known(e, handles)
    ensures Known(OnRead(e, id, result).0, handles)
  {
    hide Dropped, DataFrame, ClosedFrame, ErrorFrame;
  }

  lemma KnownResponse(e: Engine, f: Frame, handles: set<Handle>)
    requires Known(e, handles) && f.Response?
    ensures Known(OnResponse(e, f), handles)
  {
    hide Dropped, AsU32;
  }

  lemma KnownData(e: Engine, f: Frame, takes: bool, handles: set<Handle>)
    requires Known(e, handles) && f.Data?
    ensures Known(OnData(e, f, takes), handles)
  {
    hide Log, AsU32;
  }

  lemma KnownRequest(e: Engine, f: Frame, dial: Dial, handles: set<Handle>)
    requires Known(e, handles) && f.Request?
    ensures Known(OnRequest(e, f, true, dial).0, handles + Opens(e, f, dial))
  {
    hide WouldDial, AsI32;
  }

  lemma KnownReceiving(x: End, dial: Dial, takes: bool)
    requires Known(x.engine, x.handles) && x.queue != []
    ensures var x' := Receiving(x, dial, takes);
            Known(x'.engine, x'.handles)
  {
    hide Known, OnResponse, OnData, OnRequest, WouldDial, Given;
    var f := x.queue[0];
    NotAnswering(x.engine, f, x.answers, dial, takes);
    assert x.handles + {} == x.handles;
    match f {
      case Request(_, _) => KnownRequest(x.engine, f, Given(x.answers, dial), x.handles);
      case Response(_, _, _) => KnownResponse(x.engine, f, x.handles);
      case Data(_, _, _, _, _) => KnownData(x.engine, f, takes, x.handles);
      case Undecodable =>
    }
  }

  /** What of the net's own records a step needs. */
  lemma Records(n: Net)
    requires Inv(n)
    ensures n.accepted.Keys == n.stages.Keys
    ensures forall c :: c in n.gotA ==> c in n.readers
    ensures forall c :: c in n.readers ==> c in n.accepted
    ensures forall s :: s in n.gotB ==> s in n.links
    ensures forall c :: c in n.b.pending ==> c in n.asideB.ids
    ensures n.toB != [] && n.toB[0].Request? ==> n.toB[0].fd.Some?
  {
    assert n.toB != [] ==> FromA(n.stages, n.links, n.toB[0]);
    hide Kept, Waiting, ConnIds, Sockets, Destinations, Lossless, Unwritten, QueueToA, ApartA;
  }

  lemma AnyQueue(x: End, queue: seq<Frame>)
    ensures forall accepted, readers, got, aside ::
              TracksA(x.(queue := queue), accepted, readers, got, aside) == TracksA(x, accepted, readers, got, aside)
    ensures forall links, got, aside ::
              TracksB(x.(queue := queue), links, got, aside) == TracksB(x, links, got, aside)
  {
    hide Known, Got;
  }

  lemma AcceptTracksA(x: End, source: nat, h: Handle, accepted: map<U32, Handle>, readers: set<U32>,
                      got: map<U32, ByteString>, aside: Aside)
    requires TracksA(x, accepted, readers, got, aside) && Can(x, AcceptAt(true, source, h))
    requires got.Keys <= accepted.Keys
    ensures var (x', frames) := Acted(x, AcceptAt(true, source, h));
            var accepted' := if frames == [] then accepted else accepted[x.engine.nextConnId := h];
            TracksA(x', accepted', readers, got, aside)
  {
    KnownAccept(x.engine, source, h, x.handles);
    hide Known, OnAccepted;
  }

  lemma AcceptingAIs(n: Net, source: nat, h: Handle)
    ensures var n' := AcceptingA(n, source, h);
            var (e, frames) := OnAccepted(n.a, source, h);
            n' == n.(a := e, toB := n.toB + frames, stages := n'.stages,
                     accepted := if frames == [] then n.accepted else n.accepted[n.a.nextConnId := h])
  {
    hide OnAccepted;
  }

  lemma TrackAcceptA(p: Pair, n: Net, source: nat, h: Handle)
    requires Inv(n) && Tracks(p, n) && Enabled(p, AcceptAt(true, source, h))
    ensures Tunnels.Enabled(n, AcceptA(source, h))
    ensures Tracks(Next(p, AcceptAt(true, source, h)), Tunnels.Next(n, AcceptA(source, h)))
  {
    Records(n);
    hide Inv, TracksA, TracksB, OnAccepted, CanAcceptA, AcceptingA;
    AcceptingAIs(n, source, h);
    MayActA(p.a, n, AcceptAt(true, source, h));
    AcceptTracksA(p.a, source, h, n.accepted, n.readers, n.gotA, n.asideA);
    AnyQueue(p.b, p.b.queue + OnAccepted(n.a, source, h).1);
  }

  lemma AcceptTracksB(x: End, source: nat, h: Handle, links: map<U32, Link>, got: map<U32, ByteString>, aside: Aside)
    requires TracksB(x, links, got, aside) && Can(x, AcceptAt(false, source, h))
    ensures var (x', frames) := Acted(x, AcceptAt(false, source, h));
            TracksB(x', links, got,
                    Aside(aside.ids + (if frames == [] then {} else {x.engine.nextConnId}), aside.handles + {h}))
  {
    KnownAccept(x.engine, source, h, x.handles);
    hide Known, OnAccepted;
  }

  lemma TrackAcceptB(p: Pair, n: Net, source: nat, h: Handle)
    requires Tracks(p, n) && Enabled(p, AcceptAt(false, source, h))
    ensures Tunnels.Enabled(n, AcceptB(source, h))
    ensures Tracks(Next(p, AcceptAt(false, source, h)), Tunnels.Next(n, AcceptB(source, h)))
  {
    assert Tunnels.Enabled(n, AcceptB(source, h)) by { hide TracksA; }
    AcceptTracksB(p.b, source, h, n.links, n.gotB, n.asideB);
    AnyQueue(p.a, p.a.queue + OnAccepted(n.b, source, h).1);
    hide TracksA, TracksB, OnAccepted, Tunnels.Enabled;
  }

  /** The step of the net that an act is. */
  function StepFor(p: Pair, n: Net, act: Act): Step {
    match act
    case AcceptAt(atA, source, h) => if atA then AcceptA(source, h) else AcceptB(source, h)
    case ReadAt(atA, id, result) =>
      if atA then (if id in n.readers then ReadA(id, result) else ReadAsideA(id, result))
      else if id in n.links then ReadB(id, result) else ReadAsideB(id, result)
    case RecvAt(atA, dial, takes) =>
      if atA then RecvA(Given(p.a.answers, dial), takes) else RecvB(Given(p.b.answers, dial), takes)
    case LoseAt(atA, i) => if atA then LoseA(i) else LoseB(i)
  }

  lemma ReadTracksA(x: End, id: U32, result: ReadResult, accepted: map<U32, Handle>, readers: set<U32>,
                    got: map<U32, ByteString>, aside: Aside)
    requires TracksA(x, accepted, readers, got, aside) && Can(x, ReadAt(true, id, result))
    requires id in readers ==> id in accepted
    requires id !in readers ==> id !in accepted
    ensures var got' := if id in readers then Grown(got, id, result) else got;
            TracksA(Acted(x, ReadAt(true, id, result)).0, accepted, readers, got', aside)
  {
    KnownRead(x.engine, id, result, x.handles);
    hide Known, OnRead;
  }

  lemma ReadTracksB(x: End, id: U32, result: ReadResult, links: map<U32, Link>, got: map<U32, ByteString>, aside: Aside)
    requires TracksB(x, links, got, aside) && Can(x, ReadAt(false, id, result))
    ensures var got' := if id in links then Grown(got, id, result) else got;
            TracksB(Acted(x, ReadAt(false, id, result)).0, links, got', aside)
  {
    KnownRead(x.engine, id, result, x.handles);
    hide Known, OnRead;
  }

  lemma TrackReadA(p: Pair, n: Net, id: U32, result: ReadResult)
    requires Inv(n) && Tracks(p, n) && Enabled(p, ReadAt(true, id, result))
    ensures var step := StepFor(p, n, ReadAt(true, id, result));
            Tunnels.Enabled(n, step) && Tracks(Next(p, ReadAt(true, id, result)), Tunnels.Next(n, step))
  {
    assert id in n.readers || id in n.asideA.ids;
    hide Inv, TracksA, TracksB, OnRead, Grown, LossOf, AfterLoss, BytesOf;
    AsideApart(n, id);
    ReadTracksA(p.a, id, result, n.accepted, n.readers, n.gotA, n.asideA);
    AnyQueue(p.b, p.b.queue + OnRead(n.a, id, result).1);
  }

  lemma TrackReadB(p: Pair, n: Net, id: U32, result: ReadResult)
    requires Tracks(p, n) && Enabled(p, ReadAt(false, id, result))
    ensures var step := StepFor(p, n, ReadAt(false, id, result));
            Tunnels.Enabled(n, step) && Tracks(Next(p, ReadAt(false, id, result)), Tunnels.Next(n, step))
  {
    assert id in n.links || id in n.asideB.ids;
    ReadTracksB(p.b, id, result, n.links, n.gotB, n.asideB);
    AnyQueue(p.a, p.a.queue + OnRead(n.b, id, result).1);
    hide TracksA, TracksB, OnRead, Grown, LossOf, AfterLoss;
  }

  lemma AsideApart(n: Net, id: U32)
    requires Inv(n)
    ensures id in n.asideA.ids ==> id !in n.accepted
    ensures id in n.readers ==> id in n.accepted
  {
    hide Kept, Waiting, ConnIds, Sockets, Destinations, Links, Lossless, Unwritten, QueueToB, QueueToA, ApartB;
  }

  lemma ReceivingAIs(n: Net, dial: Dial, takes: bool)
    requires n.toA != []
    ensures var f := n.toA[0];
            var (e, frames) := OnPeerFrame(n.a, f, true, dial, takes);
            ReceivingA(n, dial, takes) ==
            n.(a := e, toA := n.toA[1..], toB := n.toB + frames, readers := n.readers + Maps(n.a, f),
               asideA := Aside(n.asideA.ids + Draws(n.a, f, dial), n.asideA.handles + Opens(n.a, f, dial)))
  {
    hide OnPeerFrame, WouldDial, AsU32;
    var f := n.toA[0];
    assert n.readers + {} == n.readers;
    assert n.asideA.ids + {} == n.asideA.ids && n.asideA.handles + {} == n.asideA.handles;
    if f.Response? {
      assert Draws(n.a, f, dial) == {} && Opens(n.a, f, dial) == {};
      hide Draws, Opens;
    } else {
      assert Maps(n.a, f) == {};
      hide Maps;
    }
  }

  lemma RecvTracksA(x: End, dial: Dial, takes: bool, accepted: map<U32, Handle>, readers: set<U32>,
                    got: map<U32, ByteString>, aside: Aside)
    requires TracksA(x, accepted, readers, got, aside) && Can(x, RecvAt(true, dial, takes))
    ensures var e, f, given := x.engine, x.queue[0], Given(x.answers, dial);
            TracksA(Receiving(x, dial, takes), accepted, readers + Maps(e, f), got,
                    Aside(aside.ids + Draws(e, f, given), aside.handles + Opens(e, f, given)))
  {
    KnownReceiving(x, dial, takes);
    hide Known, OnPeerFrame, Maps, Draws, Opens, Got, Given;
  }

  lemma MayActA(x: End, n: Net, act: Act)
    requires TracksA(x, n.accepted, n.readers, n.gotA, n.asideA) && n.a == x.engine && n.toA == x.queue
    requires Can(x, act)
    ensures act.AcceptAt? ==> CanAcceptA(n, act.h)
    ensures act.RecvAt? ==> n.toA != [] && CanDialA(n, act.dial)
  {
    hide Got;
  }

  lemma TrackRecvA(p: Pair, n: Net, dial: Dial, takes: bool)
    requires Tracks(p, n) && Enabled(p, RecvAt(true, dial, takes))
    ensures var step := RecvA(Given(p.a.answers, dial), takes);
            Tunnels.Enabled(n, step) && Tracks(Next(p, RecvAt(true, dial, takes)), Tunnels.Next(n, step))
  {
    var given := Given(p.a.answers, dial);
    MayActA(p.a, n, RecvAt(true, given, takes));
    hide TracksA, TracksB, OnPeerFrame, Maps, Draws, Opens, Known, CanDialA, Receiving, ReceivingA, Given;
    RecvTracksA(p.a, dial, takes, n.accepted, n.readers, n.gotA, n.asideA);
    ReceivingAIs(n, given, takes);
    ReceivingIs(p.a, dial, takes);
    AnyQueue(p.b, p.b.queue + OnPeerFrame(n.a, n.toA[0], true, given, takes).1);
  }

  lemma ReceivingIs(x: End, dial: Dial, takes: bool)
    requires x.queue != []
    ensures var x', given := Receiving(x, dial, takes), Given(x.answers, dial);
            && OnPeerFrame(x.engine, x.queue[0], x.answers, dial, takes) ==
               OnPeerFrame(x.engine, x.queue[0], true, given, takes)
            && x'.engine == OnPeerFrame(x.engine, x.queue[0], true, given, takes).0 && x'.queue == x.queue[1..]
            && x'.answers == x.answers
  {
    NotAnswering(x.engine, x.queue[0], x.answers, dial, takes);
    hide OnPeerFrame, Given;
  }

  /** The links after a request was handled at B. */
  function Linking(n: Net, f: Frame, dial: Dial): map<U32, Link> {
    if Dials(n.b, f, dial) && f.fd.Some? then n.links[dial.value.1 := Link(AsU32(f.fd.value), dial.value.0)]
    else n.links
  }

  lemma ReceivingBIs(n: Net, dial: Dial, takes: bool)
    requires n.toB != []
    ensures var f, n' := n.toB[0], ReceivingB(n, dial, takes);
            var (e, frames) := OnPeerFrame(n.b, f, true, dial, takes);
            n' == n.(b := e, toB := n.toB[1..], toA := n.toA + frames, stages := n'.stages,
                     links := Linking(n, f, dial))
  {
    hide OnPeerFrame, WouldDial, AsU32;
    var f := n.toB[0];
    if f.Request? && f.fd.Some? && dial.Some? && WouldDial(n.b, f.destination) {
      assert Dials(n.b, f, dial);
    }
  }

  lemma TracksOn(x: End, x': End, links: map<U32, Link>, got: map<U32, ByteString>, aside: Aside)
    requires TracksB(x, links, got, aside) && Known(x'.engine, x'.handles)
    requires x'.ids == x.ids && x'.handles == x.handles && x'.got == x.got && x'.readers <= x.readers + aside.ids
    ensures TracksB(x', links, got, aside)
  {
    hide Known, Got;
  }

  lemma TracksLinked(x: End, x': End, links: map<U32, Link>, got: map<U32, ByteString>, aside: Aside, s: U32, l: Link)
    requires TracksB(x, links, got, aside) && Known(x'.engine, x'.handles)
    requires x'.ids == x.ids + {s} && x'.handles == x.handles + {l.h} && x'.got == x.got
    requires x'.readers <= x.readers + aside.ids + {s} && s !in got && s !in x.got
    ensures TracksB(x', links[s := l], got, aside)
  {
    hide Known;
    assert links[s := l].Keys == links.Keys + {s};
  }

  lemma RecvTracksB(x: End, dial: Dial, takes: bool, n: Net)
    requires TracksB(x, n.links, n.gotB, n.asideB) && Can(x, RecvAt(false, dial, takes))
    requires n.b == x.engine && n.gotB.Keys <= n.links.Keys
    requires x.queue[0].Request? ==> x.queue[0].fd.Some?
    requires Maps(n.b, x.queue[0]) <= n.asideB.ids
    ensures TracksB(Receiving(x, dial, takes), Linking(n, x.queue[0], Given(x.answers, dial)), n.gotB, n.asideB)
  {
    assert n.links.Keys <= x.ids && x.got.Keys <= x.ids && Known(x.engine, x.handles);
    var f, x', given := x.queue[0], Receiving(x, dial, takes), Given(x.answers, dial);
    assert given.Some? ==> given.value.1 !in x.ids;
    hide Known, OnPeerFrame, Maps, TracksB, AsU32, WouldDial, Given;
    KnownReceiving(x, dial, takes);
    if Dials(n.b, f, given) {
      TracksLinked(x, x', n.links, n.gotB, n.asideB, given.value.1, Link(AsU32(f.fd.value), given.value.0));
    } else {
      TracksOn(x, x', n.links, n.gotB, n.asideB);
    }
  }

  lemma TrackRecvB(p: Pair, n: Net, dial: Dial, takes: bool)
    requires Inv(n) && Tracks(p, n) && Enabled(p, RecvAt(false, dial, takes))
    ensures var step := RecvB(Given(p.b.answers, dial), takes);
            Tunnels.Enabled(n, step) && Tracks(Next(p, RecvAt(false, dial, takes)), Tunnels.Next(n, step))
  {
    var given := Given(p.b.answers, dial);
    Records(n);
    hide Inv;
    assert Maps(n.b, n.toB[0]) <= n.asideB.ids by { hide TracksA, TracksB, AsU32; }
    assert Tunnels.Enabled(n, RecvB(given, takes)) by { hide TracksA; }
    hide TracksA, TracksB, OnPeerFrame, Maps, Draws, Opens, Known, CanDialB, Receiving, ReceivingB, Linking, Given;
    RecvTracksB(p.b, dial, takes, n);
    ReceivingBIs(n, given, takes);
    ReceivingIs(p.b, dial, takes);
    AnyQueue(p.a, p.a.queue + OnPeerFrame(n.b, n.toB[0], true, given, takes).1);
  }

  lemma TrackLose(p: Pair, n: Net, atA: bool, i: nat)
    requires Tracks(p, n) && Enabled(p, LoseAt(atA, i))
    ensures var step := StepFor(p, n, LoseAt(atA, i));
            Tunnels.Enabled(n, step) && Tracks(Next(p, LoseAt(atA, i)), Tunnels.Next(n, step))
  {
    if atA {
      AnyQueue(p.a, Without(p.a.queue, i));
      assert p.b.queue + [] == p.b.queue;
    } else {
      AnyQueue(p.b, Without(p.b.queue, i));
      assert p.a.queue + [] == p.a.queue;
    }
    hide TracksA, TracksB, Without, Losing;
  }

  /** Every act of the pair is a step of the net. */
  lemma TrackStep(p: Pair, n: Net, act: Act)
    requires Inv(n) && Tracks(p, n) && Enabled(p, act)
    ensures var step := StepFor(p, n, act);
            && Tunnels.Enabled(n, step) && Tracks(Next(p, act), Tunnels.Next(n, step))
            && Inv(Tunnels.Next(n, step))
  {
    hide Inv, Tracks, Next, Tunnels.Enabled, Tunnels.Next;
    match act {
      case AcceptAt(atA, source, h) => if atA { TrackAcceptA(p, n, source, h); } else { TrackAcceptB(p, n, source, h); }
      case ReadAt(atA, id, result) => if atA { TrackReadA(p, n, id, result); } else { TrackReadB(p, n, id, result); }
      case RecvAt(atA, dial, takes) => if atA { TrackRecvA(p, n, dial, takes); } else { TrackRecvB(p, n, dial, takes); }
      case LoseAt(atA, i) => TrackLose(p, n, atA, i);
    }
    StepKeeps(n, StepFor(p, n, act));
  }

  // ---- every run ----

  /** Nothing was lost on any stream. */
  predicate Intact(n: Net) {
    (forall s :: s in n.lossA ==> n.lossA[s].Whole?) && (forall s :: s in n.lossB ==> n.lossB[s].Whole?)
  }

  lemma LossesStay(n: Net, step: Step)
    requires Tunnels.Enabled(n, step) && !step.ReadA? && !step.ReadB? && !step.LoseA? && !step.LoseB?
    ensures Tunnels.Next(n, step).lossA == n.lossA && Tunnels.Next(n, step).lossB == n.lossB
  {
    hide OnAccepted, OnRead, OnPeerFrame, CanAcceptA, CanDialA, CanDialB, NewAtB;
    match step {
      case AcceptA(source, h) =>
        hide AcceptingA;
        AcceptingAIs(n, source, h);
      case RecvA(dial, takes) =>
        hide ReceivingA;
        ReceivingAIs(n, dial, takes);
      case RecvB(dial, takes) =>
        hide ReceivingB;
        ReceivingBIs(n, dial, takes);
      case _ => hide ReceivingA, ReceivingB, AcceptingA;
    }
  }

  lemma IntactStep(n: Net, step: Step)
    requires Intact(n) && Tunnels.Enabled(n, step) && !step.LoseA? && !step.LoseB?
    ensures Intact(Tunnels.Next(n, step))
  {
    if step.ReadA? {
      assert Intact(ReadingA(n, step.conn, step.result)) by { hide OnRead, Grown; }
    } else if step.ReadB? {
      assert Intact(ReadingB(n, step.socket, step.result)) by { hide OnRead, Grown; }
    } else {
      LossesStay(n, step);
      hide Tunnels.Enabled, Tunnels.Next;
    }
    hide ReadingA, ReadingB, Intact;
  }

  predicate NoneLost(acts: seq<Act>) {
    forall k :: 0 <= k < |acts| ==> !acts[k].LoseAt?
  }

  /** The act says which step it is; which kind of read it is depends on whose connection is read. */
  predicate Named(act: Act, step: Step, a: Config, b: Config) {
    match act
    case AcceptAt(atA, source, h) => step == if atA then AcceptA(source, h) else AcceptB(source, h)
    case ReadAt(atA, id, result) =>
      if atA then step == ReadA(id, result) || step == ReadAsideA(id, result)
      else step == ReadB(id, result) || step == ReadAsideB(id, result)
    case RecvAt(atA, dial, takes) =>
      step == if atA then RecvA(Given(a.answers, dial), takes) else RecvB(Given(b.answers, dial), takes)
    case LoseAt(atA, i) => step == if atA then LoseA(i) else LoseB(i)
  }

  /** One step for every act, the one it says. */
  predicate Follows(steps: seq<Step>, acts: seq<Act>, a: Config, b: Config) {
    |steps| == |acts| && forall k :: 0 <= k < |acts| ==> Named(acts[k], steps[k], a, b)
  }

  lemma AnswersStay(p: Pair, act: Act)
    requires Enabled(p, act)
    ensures var p' := Next(p, act); p'.a.answers == p.a.answers && p'.b.answers == p.b.answers
  {
    hide OnAccepted, OnRead, OnPeerFrame, Maps, Draws, Opens, Grown, Without, Given;
  }

  lemma {:induction false} TrackRun(p: Pair, n: Net, acts: seq<Act>, a: Config, b: Config) returns (steps: seq<Step>)
    requires Inv(n) && Tracks(p, n) && Runs(p, acts) && p.a.answers == a.answers && p.b.answers == b.answers
    ensures Follows(steps, acts, a, b) && Tunnels.Runs(n, steps)
    ensures var n' := Tunnels.After(n, steps);
            Inv(n') && Tracks(After(p, acts), n') && (Intact(n) && NoneLost(acts) ==> Intact(n'))
    decreases |acts|
  {
    hide Inv, Tracks, Enabled, Next, Tunnels.Enabled, Tunnels.Next, Intact;
    steps := [];
    if acts != [] {
      var step := StepFor(p, n, acts[0]);
      TrackStep(p, n, acts[0]);
      AnswersStay(p, acts[0]);
      assert Named(acts[0], step, a, b);
      if Intact(n) && NoneLost(acts) {
        IntactStep(n, step);
      }
      hide StepFor, Named;
      var rest := TrackRun(Next(p, acts[0]), Tunnels.Next(n, step), acts[1..], a, b);
      steps := [step] + rest;
      assert steps[0] == step && steps[1..] == rest;
      FollowsOn(acts, steps, a, b);
    }
  }

  lemma FollowsOn(acts: seq<Act>, steps: seq<Step>, a: Config, b: Config)
    requires acts != [] && steps != [] && Named(acts[0], steps[0], a, b) && Follows(steps[1..], acts[1..], a, b)
    ensures Follows(steps, acts, a, b)
  {
    hide Named;
    forall k | 0 <= k < |acts| ensures Named(acts[k], steps[k], a, b) {
      assert k > 0 ==> acts[k] == acts[1..][k - 1] && steps[k] == steps[1..][k - 1];
    }
  }

  /** The net knows the tunnel of every connection: of every source connection at A, by its connection
      id and by its socket id, and of every destination connection at B. And each keeps its bytes. */
  ghost predicate AllKeep(p: Pair, n: Net) {
    && (forall s :: s in p.b.engine.destinations ==> s in n.links && n.links[s].h == p.b.engine.destinations[s])
    && (forall c :: c in p.a.engine.sourceConnIds ==>
          var s := p.a.engine.sourceConnIds[c]; s in n.links && n.links[s].conn == c)
    && (forall s :: s in p.a.engine.sourceSockets ==>
          && s in n.links && n.links[s].conn in n.accepted
          && n.accepted[n.links[s].conn] == p.a.engine.sourceSockets[s])
    && (forall c :: c in p.a.engine.pending ==> c in n.accepted && n.accepted[c] == p.a.engine.pending[c])
    && (forall s :: s in n.links ==>
          && HasLink(n, s) && KeepsBytes(n, s)
          && Got(n.gotA, n.links[s].conn) == Got(p.a.got, n.links[s].conn) && Got(n.gotB, s) == Got(p.b.got, s))
  }

  lemma LinkKeeps(p: Pair, n: Net, s: U32)
    requires Inv(n) && Tracks(p, n) && s in n.links
    ensures HasLink(n, s) && KeepsBytes(n, s)
    ensures Got(n.gotA, n.links[s].conn) == Got(p.a.got, n.links[s].conn) && Got(n.gotB, s) == Got(p.b.got, s)
  {
    assert Kept(n, s);
    hide Shape, KeepsBytes, Got, Known, Good;
    KeptBytes(n, s);
  }

  lemma TablesLinked(n: Net)
    requires Inv(n)
    ensures forall s :: s in n.b.destinations ==> s in n.links && n.links[s].h == n.b.destinations[s]
    ensures forall c :: c in n.a.sourceConnIds ==>
              var s := n.a.sourceConnIds[c]; s in n.links && n.links[s].conn == c
    ensures forall s :: s in n.a.sourceSockets ==>
              && s in n.links && n.links[s].conn in n.accepted
              && n.accepted[n.links[s].conn] == n.a.sourceSockets[s]
    ensures forall c :: c in n.a.pending ==> c in n.accepted && n.accepted[c] == n.a.pending[c]
  {
    hide Kept, Ids, Reading, Lossless, Unwritten, QueueToB, QueueToA, ApartA, ApartB;
  }

  lemma InvKeeps(p: Pair, n: Net)
    requires Inv(n) && Tracks(p, n)
    ensures AllKeep(p, n)
  {
    hide Inv, HasLink, KeepsBytes, Got, TracksA, TracksB;
    TablesLinked(n);
    forall s | s in n.links
      ensures HasLink(n, s) && KeepsBytes(n, s)
      ensures Got(n.gotA, n.links[s].conn) == Got(p.a.got, n.links[s].conn) && Got(n.gotB, s) == Got(p.b.got, s)
    {
      LinkKeeps(p, n, s);
    }
  }

  lemma StartTracks(a: Config, b: Config)
    ensures var n := Tunnels.Start(a.sources, b.sources);
            Inv(n) && Intact(n) && Tracks(Start(a, b), n)
  {
    Tunnels.StartInv(a.sources, b.sources);
    hide Inv;
  }

  /** Over every run of the two engines, whichever frames are lost: the tunnels opened from either end
      keep their bytes, both ways. The steps are those the acts say, so that the acts fix which frame
      of which stream was lost and what was sent behind it. */
  lemma BothWaysKeepTheirBytes(a: Config, b: Config, acts: seq<Act>) returns (stepsA: seq<Step>, stepsB: seq<Step>)
    requires Runs(Start(a, b), acts)
    ensures Follows(stepsA, acts, a, b) && Tunnels.Runs(Tunnels.Start(a.sources, b.sources), stepsA)
    ensures Follows(stepsB, AllTurned(acts), b, a) && Tunnels.Runs(Tunnels.Start(b.sources, a.sources), stepsB)
    ensures var p := After(Start(a, b), acts);
            var fromA := Tunnels.After(Tunnels.Start(a.sources, b.sources), stepsA);
            var fromB := Tunnels.After(Tunnels.Start(b.sources, a.sources), stepsB);
            && Tracks(p, fromA) && AllKeep(p, fromA)
            && Tracks(Mirror(p), fromB) && AllKeep(Mirror(p), fromB)
            && (NoneLost(acts) ==> Intact(fromA) && Intact(fromB))
  {
    var p0 := Start(a, b);
    assert Mirror(p0) == Start(b, a);
    assert p0.a.answers == a.answers && p0.b.answers == b.answers;
    assert Mirror(p0).a.answers == b.answers && Mirror(p0).b.answers == a.answers;
    hide Inv, Tracks, Intact, Start, Mirror, AllKeep, Follows, Tunnels.Start;
    StartTracks(a, b);
    StartTracks(b, a);
    TurnedRun(p0, acts);
    TurnedLosses(acts);
    stepsA := TrackRun(p0, Tunnels.Start(a.sources, b.sources), acts, a, b);
    stepsB := TrackRun(Mirror(p0), Tunnels.Start(b.sources, a.sources), AllTurned(acts), b, a);
    InvKeeps(After(p0, acts), Tunnels.After(Tunnels.Start(a.sources, b.sources), stepsA));
    InvKeeps(Mirror(After(p0, acts)), Tunnels.After(Tunnels.Start(b.sources, a.sources), stepsB));
  }

  lemma {:induction false} TurnedLosses(acts: seq<Act>)
    ensures NoneLost(acts) ==> NoneLost(AllTurned(acts))
  {
    if acts != [] && NoneLost(acts) {
      assert NoneLost(acts[1..]);
      TurnedLosses(acts[1..]);
      assert !Turned(acts[0]).LoseAt?;
    }
  }

  /** An open tunnel carries everything: what is queued at one end and what is on its way are together
      what was read at the other, both ways. */
  ghost predicate Carries(p: Pair, c: U32)
    requires c in p.a.engine.sourceConnIds
  {
    var a, b, s := p.a.engine, p.b.engine, p.a.engine.sourceConnIds[c];
    s in b.destinations ==>
      && Log(b.written, b.destinations[s]) + DataOf(p.b.queue, s, true) == Got(p.a.got, c)
      && (s in a.sourceSockets ==>
            Log(a.written, a.sourceSockets[s]) + DataOf(p.a.queue, s, false) == Got(p.b.got, s))
  }

  lemma IntactCarries(p: Pair, n: Net, c: U32)
    requires Tracks(p, n) && AllKeep(p, n) && Intact(n) && c in p.a.engine.sourceConnIds
    ensures Carries(p, c)
  {
    var s := p.a.engine.sourceConnIds[c];
    assert s in n.links && n.links[s].conn == c && KeepsBytes(n, s);
    hide TracksA, TracksB, Log, Got, DataOf, AnswerFirst, NoAnswer;
  }

  /** Where no frame was lost, every open tunnel of either end carries everything, in the engines' own
      terms. */
  lemma OpenTunnelsCarry(a: Config, b: Config, acts: seq<Act>, c: U32)
    requires Runs(Start(a, b), acts) && NoneLost(acts)
    ensures var p := After(Start(a, b), acts);
            && (c in p.a.engine.sourceConnIds ==> Carries(p, c))
            && (c in p.b.engine.sourceConnIds ==> Carries(Mirror(p), c))
  {
    var stepsA, stepsB := BothWaysKeepTheirBytes(a, b, acts);
    var p := After(Start(a, b), acts);
    hide Runs, After, Start, Tracks, AllKeep, Intact, Carries, Tunnels.Runs, Tunnels.After, Tunnels.Start;
    if c in p.a.engine.sourceConnIds {
      IntactCarries(p, Tunnels.After(Tunnels.Start(a.sources, b.sources), stepsA), c);
    }
    if c in p.b.engine.sourceConnIds {
      IntactCarries(Mirror(p), Tunnels.After(Tunnels.Start(b.sources, a.sources), stepsB), c);
    }
  }
}
