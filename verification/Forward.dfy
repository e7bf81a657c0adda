/** The port-forward engine: the tables of its connections and the three handlers that update them.
    A connection is a handle; `places` and `written` record what became of it. */
module Forwarding {
  import opened Bytes

  type U32 = x: int | 0 <= x < 0x1_0000_0000
  type Handle = int

  const MAX_DESTINATION_CONNECTIONS: nat := 256

  /** Casts between `u32` and the `i32` of the wire. */
  function AsI32(u: U32): Int32 {
    if u < 0x8000_0000 then u else u - 0x1_0000_0000
  }

  function AsU32(i: Int32): (u: U32)
    ensures AsI32(u) == i
  {
    if i >= 0 then i else i + 0x1_0000_0000
  }

  datatype Dest = Dest(name: Option<string>, port: Option<Int32>)

  /** The decoded port-forward packets. */
  datatype Frame =
    | Request(destination: Option<Dest>, fd: Option<Int32>)
    | Response(clientfd: Option<Int32>, socketid: Option<Int32>, refused: bool)
    | Data(
        socket: Option<Int32>,
        toDestination: Option<bool>,
        closed: Option<bool>,
        failed: bool,
        buffer: Option<ByteString>)
    | Undecodable

  function DataFrame(socket: U32, toDestination: bool, bytes: ByteString): Frame {
    Data(Some(AsI32(socket)), Some(toDestination), None, false, Some(bytes))
  }

  function ClosedFrame(socket: U32, toDestination: bool): Frame {
    Data(Some(AsI32(socket)), Some(toDestination), Some(true), false, None)
  }

  function ErrorFrame(socket: U32, toDestination: bool): Frame {
    Data(Some(AsI32(socket)), Some(toDestination), None, true, None)
  }

  /** What a local connection's reader reports; empty bytes are the end of the stream. */
  datatype ReadResult = Bytes(bytes: ByteString) | ReadFailed

  /** What dialling the loopback port gave: a connection, and the socket id drawn for it. */
  type Dial = Option<(Handle, U32)>

  /** Where a connection is. */
  datatype Table = Pending | Source | Destination

  datatype Place = In(table: Table, key: U32) | Closed

  datatype Engine = Engine(
    sources: seq<Option<Dest>>,
    nextConnId: U32,
    pending: map<U32, Handle>,         // accepted, request sent, waiting for the response
    sourceSockets: map<U32, Handle>,   // by socket id
    sourceConnIds: map<U32, U32>,      // connection id to socket id
    destinations: map<U32, Handle>,    // by socket id, which is also the connection id
    accepts: nat,
    places: map<Handle, Place>,        // every connection ever accepted or opened
    written: map<Handle, ByteString>)

  function NewEngine(sources: seq<Option<Dest>>): Engine {
    Engine(sources, 1, map[], map[], map[], map[], 0, map[], map[])
  }

  /** The connection under `key`, if there is one, is closed. */
  function Dropped(places: map<Handle, Place>, table: map<U32, Handle>, key: U32): map<Handle, Place> {
    if key in table then places[table[key] := Closed] else places
  }

  /** Everything queued for a local connection so far. */
  function Log(logs: map<Handle, ByteString>, h: Handle): ByteString {
    if h in logs then logs[h] else []
  }

  // ---- the handlers ----

  function OnAccepted(e: Engine, source: nat, h: Handle): (Engine, seq<Frame>) {
    if source >= |e.sources| || e.sources[source].None? then (e.(places := e.places[h := Closed]), [])
    else
      var id := e.nextConnId;
      (e.(nextConnId := (id + 1) % 0x1_0000_0000,
          accepts := e.accepts + 1,
          pending := e.pending[id := h],
          places := Dropped(e.places, e.pending, id)[h := In(Pending, id)]),
       [Request(e.sources[source], Some(AsI32(id)))])
  }

  function OnRead(e: Engine, connId: U32, result: ReadResult): (Engine, seq<Frame>) {
    if connId in e.sourceConnIds then
      var s := e.sourceConnIds[connId];
      var gone := e.(sourceSockets := e.sourceSockets - {s},
                     sourceConnIds := e.sourceConnIds - {connId},
                     places := Dropped(e.places, e.sourceSockets, s));
      match result
      case Bytes(bytes) => if bytes != [] then (e, [DataFrame(s, true, bytes)]) else (gone, [ClosedFrame(s, true)])
      case ReadFailed => (gone, [ErrorFrame(s, true), ClosedFrame(s, true)])
    else if connId in e.destinations then
      var gone := e.(destinations := e.destinations - {connId},
                     places := Dropped(e.places, e.destinations, connId));
      match result
      case Bytes(bytes) =>
        if bytes != [] then (e, [DataFrame(connId, false, bytes)]) else (gone, [ClosedFrame(connId, false)])
      case ReadFailed => (gone, [ErrorFrame(connId, false), ClosedFrame(connId, false)])
    else (e, [])
  }

  /** Whether a request gets as far as dialling. */
  predicate WouldDial(e: Engine, destination: Option<Dest>) {
    && destination.Some? && destination.value.port.Some?
    && 0 <= destination.value.port.value <= 65535
    && |e.destinations| < MAX_DESTINATION_CONNECTIONS
  }

  function OnRequest(e: Engine, f: Frame, answer: bool, dial: Dial): (Engine, seq<Frame>)
    requires f.Request?
  {
    if !answer || !WouldDial(e, f.destination) || dial.None? then (e, [Response(f.fd, None, true)])
    else
      var (h, s) := dial.value;
      (e.(destinations := e.destinations[s := h], places := e.places[h := In(Destination, s)]),
       [Response(f.fd, Some(AsI32(s)), false)])
  }

  function OnResponse(e: Engine, f: Frame): Engine
    requires f.Response?
  {
    if f.clientfd.None? || AsU32(f.clientfd.value) !in e.pending then e
    else
      var id := AsU32(f.clientfd.value);
      var h, rest := e.pending[id], e.(pending := e.pending - {id});
      match f.socketid
      case None => rest.(places := e.places[h := Closed])
      case Some(socketid) =>
        var s := AsU32(socketid);
        rest.(sourceSockets := e.sourceSockets[s := h],
              sourceConnIds := e.sourceConnIds[id := s],
              places := Dropped(e.places, e.sourceSockets, s)[h := In(Source, s)])
  }

  /** `takes` says whether the connection's write queue took the bytes. */
  function OnData(e: Engine, f: Frame, takes: bool): Engine
    requires f.Data?
  {
    if f.socket.None? then e
    else
      var s, toDestination := AsU32(f.socket.value), f.toDestination == Some(true);
      var table := if toDestination then e.destinations else e.sourceSockets;
      if s !in table then e
      else
        var h := table[s];
        if f.closed == Some(true) || f.failed || (f.buffer.Some? && !takes) then
          (if toDestination then e.(destinations := e.destinations - {s})
           else e.(sourceSockets := e.sourceSockets - {s})).(places := e.places[h := Closed])
        else if f.buffer.Some? then e.(written := e.written[h := Log(e.written, h) + f.buffer.value])
        else e
  }

  function OnPeerFrame(e: Engine, f: Frame, answer: bool, dial: Dial, takes: bool): (Engine, seq<Frame>) {
    match f
    case Request(_, _) => OnRequest(e, f, answer, dial)
    case Response(_, _, _) => (OnResponse(e, f), [])
    case Data(_, _, _, _, _) => (OnData(e, f, takes), [])
    case Undecodable => (e, [])
  }

  /** `s` is the first of the ids drawn that no connection holds. */
  predicate FirstFree(drawn: seq<U32>, destinations: map<U32, Handle>, s: U32) {
    exists i :: && 0 <= i < |drawn| && drawn[i] == s && s !in destinations
                && forall j :: 0 <= j < i ==> drawn[j] in destinations
  }

  /** The connections in the three tables. */
  function Held(e: Engine): set<Handle> {
    e.sourceSockets.Values + e.destinations.Values + e.pending.Values
  }

  /** The connections in `handles` are closed, the others stay where they were. */
  function ClosedAll(places: map<Handle, Place>, handles: set<Handle>): map<Handle, Place> {
    map h | h in places.Keys + handles :: if h in handles then Closed else places[h]
  }

  /** The engine stops: it drops what its tables hold, and nothing else. */
  function Stopped(e: Engine): Engine {
    e.(pending := map[], sourceSockets := map[], destinations := map[], places := ClosedAll(e.places, Held(e)))
  }

  // ---- the state as the code keeps it ----

  class EngineState {
    var sources: seq<Option<Dest>>
    var nextConnId: U32
    var pending: map<U32, Handle>
    var sourceSockets: map<U32, Handle>
    var sourceConnIds: map<U32, U32>
    var destinations: map<U32, Handle>
    ghost var accepts: nat
    ghost var places: map<Handle, Place>
    ghost var written: map<Handle, ByteString>

    ghost function Model(): Engine
      reads this
    {
      Engine(sources, nextConnId, pending, sourceSockets, sourceConnIds, destinations,
             accepts, places, written)
    }

    constructor (sources: seq<Option<Dest>>)
      ensures Model() == NewEngine(sources)
    {
      this.sources, nextConnId := sources, 1;
      pending, sourceSockets, sourceConnIds, destinations := map[], map[], map[], map[];
      accepts, places, written := 0, map[], map[];
    }

    method HandleAccepted(source: nat, h: Handle) returns (frames: seq<Frame>)
      modifies this
      ensures Model() == OnAccepted(old(Model()), source, h).0
      ensures frames == OnAccepted(old(Model()), source, h).1
    {
      if source >= |sources| || sources[source].None? {
        places := places[h := Closed];
        return [];
      }
      var connId := nextConnId;
      nextConnId := (nextConnId + 1) % 0x1_0000_0000;
      accepts := accepts + 1;
      places := Dropped(places, pending, connId)[h := In(Pending, connId)];
      pending := pending[connId := h];
      frames := [Request(sources[source], Some(AsI32(connId)))];
    }

    method HandleRead(connId: U32, result: ReadResult) returns (frames: seq<Frame>)
      modifies this
      ensures Model() == OnRead(old(Model()), connId, result).0
      ensures frames == OnRead(old(Model()), connId, result).1
    {
      frames := [];
      if connId in sourceConnIds {
        var s := sourceConnIds[connId];
        if result.Bytes? && result.bytes != [] {
          return [DataFrame(s, true, result.bytes)];
        }
        if result.ReadFailed? {
          frames := [ErrorFrame(s, true)];
        }
        frames := frames + [ClosedFrame(s, true)];
        places := Dropped(places, sourceSockets, s);
        sourceSockets := sourceSockets - {s};
        sourceConnIds := sourceConnIds - {connId};
      } else if connId in destinations {
        if result.Bytes? && result.bytes != [] {
          return [DataFrame(connId, false, result.bytes)];
        }
        if result.ReadFailed? {
          frames := [ErrorFrame(connId, false)];
        }
        frames := frames + [ClosedFrame(connId, false)];
        places := places[destinations[connId] := Closed];
        destinations := destinations - {connId};
      }
    }

    /** `drawn` are the random socket ids tried so far; the first that no destination holds is taken.
        While there is none the loop is still drawing, nothing has changed, and there is no
        response. */
    method CreateDestination(f: Frame, dialled: Option<Handle>, drawn: seq<U32>)
      returns (response: Option<Frame>, ghost dial: Dial)
      requires f.Request?
      modifies this
      ensures response.None? <==>
                && dialled.Some? && WouldDial(old(Model()), f.destination)
                && forall i :: 0 <= i < |drawn| ==> drawn[i] in old(destinations)
      ensures response.None? ==> Model() == old(Model()) && dial.None?
      ensures response.Some? ==>
                && Model() == OnRequest(old(Model()), f, true, dial).0
                && [response.value] == OnRequest(old(Model()), f, true, dial).1
                && (dial.Some? <==> dialled.Some? && WouldDial(old(Model()), f.destination))
      ensures dial.Some? ==> dial.value.0 == dialled.value && FirstFree(drawn, old(destinations), dial.value.1)
    {
      dial := None;
      if !WouldDialNow(f.destination) || dialled.None? {
        return Some(Response(f.fd, None, true)), dial;
      }
      var i := 0;
      while i < |drawn| && drawn[i] in destinations
        invariant 0 <= i <= |drawn|
        invariant forall j :: 0 <= j < i ==> drawn[j] in destinations
      {
        i := i + 1;
      }
      if i == |drawn| {
        return None, dial;
      }
      dial := Some((dialled.value, drawn[i]));
      destinations := destinations[drawn[i] := dialled.value];
      places := places[dialled.value := In(Destination, drawn[i])];
      response := Some(Response(f.fd, Some(AsI32(drawn[i])), false));
    }

    predicate WouldDialNow(destination: Option<Dest>)
      reads this
      ensures WouldDialNow(destination) == WouldDial(Model(), destination)
    {
      if destination.None? || destination.value.port.None? then false
      else if !(0 <= destination.value.port.value <= 65535) then false
      else |destinations| < MAX_DESTINATION_CONNECTIONS
    }

    method HandleResponse(f: Frame)
      requires f.Response?
      modifies this
      ensures Model() == OnResponse(old(Model()), f)
    {
      if f.clientfd.None? {
        return;
      }
      var connId := AsU32(f.clientfd.value);
      if connId !in pending {
        return;
      }
      var h := pending[connId];
      pending := pending - {connId};
      if f.socketid.None? {
        places := places[h := Closed];
        return;
      }
      var s := AsU32(f.socketid.value);
      places := Dropped(places, sourceSockets, s)[h := In(Source, s)];
      sourceSockets := sourceSockets[s := h];
      sourceConnIds := sourceConnIds[connId := s];
    }

    /** The entry is taken out of its table and put back unless the connection is over. */
    method HandleData(f: Frame, takes: bool)
      requires f.Data?
      modifies this
      ensures Model() == OnData(old(Model()), f, takes)
    {
      if f.socket.None? {
        return;
      }
      var s := AsU32(f.socket.value);
      var over := f.closed == Some(true) || f.failed;
      var toDestination := f.toDestination == Some(true);
      var table := if toDestination then destinations else sourceSockets;
      if s in table {
        var h := table[s];
        var rest := table - {s};
        assert rest[s := h] == table;
        if over {
          places := places[h := Closed];
          table := rest;
        } else if f.buffer.Some? {
          if takes {
            written := written[h := Log(written, h) + f.buffer.value];
            table := rest[s := h];
          } else {
            places := places[h := Closed];
            table := rest;
          }
        } else {
          table := rest[s := h];
        }
        if toDestination {
          destinations := table;
        } else {
          sourceSockets := table;
        }
      }
    }

    /** `done` is false while the response to a request waits for a free socket id. */
    method HandlePeerFrame(f: Frame, answer: bool, dialled: Option<Handle>, drawn: seq<U32>, takes: bool)
      returns (frames: seq<Frame>, done: bool, ghost dial: Dial)
      modifies this
      ensures !done <==>
                && f.Request? && answer && dialled.Some? && WouldDial(old(Model()), f.destination)
                && forall i :: 0 <= i < |drawn| ==> drawn[i] in old(destinations)
      ensures !done ==> Model() == old(Model()) && frames == []
      ensures done ==>
                && Model() == OnPeerFrame(old(Model()), f, answer, dial, takes).0
                && frames == OnPeerFrame(old(Model()), f, answer, dial, takes).1
      ensures dial.Some? ==>
                dialled == Some(dial.value.0) && FirstFree(drawn, old(destinations), dial.value.1)
    {
      frames, done, dial := [], true, None;
      match f {
        case Request(_, _) =>
          if answer {
            var response;
            response, dial := CreateDestination(f, dialled, drawn);
            done := response.Some?;
            frames := if done then [response.value] else [];
          } else {
            frames := [Response(f.fd, None, true)];
          }
        case Response(_, _, _) => HandleResponse(f);
        case Data(_, _, _, _, _) => HandleData(f, takes);
        case Undecodable =>
      }
    }

    /** The connections of one table are ended one by one. */
    method Teardown(table: map<U32, Handle>)
      modifies this`places
      ensures places == ClosedAll(old(places), table.Values)
    {
      var rest := table;
      ghost var done: set<Handle> := {};
      while rest.Keys != {}
        invariant done + rest.Values == table.Values && places == ClosedAll(old(places), done)
        decreases |rest|
      {
        var k :| k in rest.Keys;
        CloseOne(old(places), done, rest, k);
        places := places[rest[k] := Closed];
        done := done + {rest[k]};
        rest := rest - {k};
      }
    }

    /** Every connection the engine holds is closed, and with that every connection it ever had, if
        none was lost from its tables. */
    method TeardownAll()
      modifies this
      ensures Model() == Stopped(old(Model()))
      ensures Conserved(old(Model())) ==> forall h :: h in places ==> places[h].Closed?
    {
      hide ClosedAll, Conserved, IsClosed;
      CloseMore(places, sourceSockets.Values, destinations.Values);
      CloseMore(places, sourceSockets.Values + destinations.Values, pending.Values);
      Teardown(sourceSockets);
      Teardown(destinations);
      Teardown(pending);
      pending, sourceSockets, destinations := map[], map[], map[];
      if Conserved(old(Model())) {
        StopClosesAll(old(Model()));
      }
    }
  }

  lemma CloseOne(places: map<Handle, Place>, done: set<Handle>, rest: map<U32, Handle>, k: U32)
    requires k in rest
    ensures ClosedAll(places, done)[rest[k] := Closed] == ClosedAll(places, done + {rest[k]})
    ensures (done + {rest[k]}) + (rest - {k}).Values == done + rest.Values
  {
    var less := rest - {k};
    forall h | h in rest.Values ensures h in less.Values || h == rest[k] {
      var j :| j in rest && rest[j] == h;
      assert j == k || less[j] == h;
    }
    assert rest[k] in rest.Values;
    forall h | h in less.Values ensures h in rest.Values {
      var j :| j in less && less[j] == h;
      assert rest[j] == h;
    }
  }

  lemma CloseMore(places: map<Handle, Place>, first: set<Handle>, more: set<Handle>)
    ensures ClosedAll(ClosedAll(places, first), more) == ClosedAll(places, first + more)
  {
  }

  // ---- conservation ----

  /** A table and the record of places say the same. */
  predicate Agrees(kind: Table, table: map<U32, Handle>, places: map<Handle, Place>) {
    && (forall k :: k in table ==> table[k] in places && places[table[k]] == In(kind, k))
    && (forall h :: h in places && places[h].In? && places[h].table == kind ==>
          places[h].key in table && table[places[h].key] == h)
  }

  /** Every connection ever accepted or opened is in exactly one table, under one key, or closed. */
  predicate Conserved(e: Engine) {
    && Agrees(Pending, e.pending, e.places)
    && Agrees(Source, e.sourceSockets, e.places)
    && Agrees(Destination, e.destinations, e.places)
    && |e.destinations| <= MAX_DESTINATION_CONNECTIONS
  }

  predicate Concerns(kind: Table, p: Place) {
    p.In? && p.table == kind
  }

  /** A connection that is not in a table can be moved without touching that table. */
  lemma Elsewhere(kind: Table, table: map<U32, Handle>, places: map<Handle, Place>, h: Handle, p: Place)
    requires Agrees(kind, table, places) && !Concerns(kind, p)
    requires h in places ==> !Concerns(kind, places[h])
    ensures Agrees(kind, table, places[h := p])
  {
  }

  /** A connection leaves its table. */
  lemma Leaves(kind: Table, table: map<U32, Handle>, places: map<Handle, Place>, key: U32, p: Place)
    requires Agrees(kind, table, places) && key in table && !Concerns(kind, p)
    ensures Agrees(kind, table - {key}, places[table[key] := p])
    ensures places[table[key]] == In(kind, key)
  {
    var places' := places[table[key] := p];
    forall k | k in table - {key} ensures places'[table[k]] == In(kind, k) {
      assert places[table[k]] == In(kind, k) && places[table[key]] == In(kind, key);
    }
  }

  /** A connection enters a table under a free key. */
  lemma Enters(kind: Table, table: map<U32, Handle>, places: map<Handle, Place>, key: U32, h: Handle)
    requires Agrees(kind, table, places) && key !in table
    requires h in places ==> !Concerns(kind, places[h])
    ensures Agrees(kind, table[key := h], places[h := In(kind, key)])
  {
  }

  lemma SizeAfter(table: map<U32, Handle>, key: U32, h: Handle)
    ensures |table - {key}| <= |table|
    ensures key !in table ==> |table[key := h]| == |table| + 1
  {
    assert (table - {key}).Keys == table.Keys - {key};
    assert table[key := h].Keys == table.Keys + {key};
  }

  /** Whatever is under `key` is closed, and the key is free. */
  lemma Frees(e: Engine, kind: Table, key: U32)
    requires Conserved(e)
    ensures kind.Pending? ==>
              Conserved(e.(pending := e.pending - {key}, places := Dropped(e.places, e.pending, key)))
    ensures kind.Source? ==>
              Conserved(e.(sourceSockets := e.sourceSockets - {key},
                           places := Dropped(e.places, e.sourceSockets, key)))
    ensures kind.Destination? ==>
              Conserved(e.(destinations := e.destinations - {key},
                           places := Dropped(e.places, e.destinations, key)))
  {
    hide Agrees;
    SizeAfter(e.destinations, key, 0);
    var table := match kind
      case Pending => e.pending
      case Source => e.sourceSockets
      case Destination => e.destinations;
    if key in table {
      Leaves(kind, table, e.places, key, Closed);
      var h := table[key];
      if !kind.Pending? { Elsewhere(Pending, e.pending, e.places, h, Closed); }
      if !kind.Source? { Elsewhere(Source, e.sourceSockets, e.places, h, Closed); }
      if !kind.Destination? { Elsewhere(Destination, e.destinations, e.places, h, Closed); }
    } else {
      assert table - {key} == table;
    }
  }

  lemma KnownStays(places: map<Handle, Place>, table: map<U32, Handle>, key: U32, h: Handle)
    requires key in table ==> table[key] in places
    ensures h in Dropped(places, table, key) <==> h in places
  {
  }

  /** An accepted connection waits under the next connection id; one that still waited there is
      closed. */
  lemma AwaitsConserves(e: Engine, id: U32, h: Handle)
    requires Conserved(e) && h !in e.places
    ensures Conserved(e.(pending := e.pending[id := h],
                         places := Dropped(e.places, e.pending, id)[h := In(Pending, id)]))
  {
    KnownStays(e.places, e.pending, id, h);
    hide Agrees, Dropped;
    Frees(e, Pending, id);
    var pending, places := e.pending - {id}, Dropped(e.places, e.pending, id);
    assert pending[id := h] == e.pending[id := h];
    Enters(Pending, pending, places, id, h);
    Elsewhere(Source, e.sourceSockets, places, h, In(Pending, id));
    Elsewhere(Destination, e.destinations, places, h, In(Pending, id));
  }

  lemma AcceptConserves(e: Engine, source: nat, h: Handle)
    requires Conserved(e) && h !in e.places
    ensures Conserved(OnAccepted(e, source, h).0)
  {
    hide Agrees, Dropped;
    AwaitsConserves(e, e.nextConnId, h);
    Elsewhere(Pending, e.pending, e.places, h, Closed);
    Elsewhere(Source, e.sourceSockets, e.places, h, Closed);
    Elsewhere(Destination, e.destinations, e.places, h, Closed);
  }

  lemma ReadConserves(e: Engine, connId: U32, result: ReadResult)
    requires Conserved(e)
    ensures Conserved(OnRead(e, connId, result).0)
  {
    hide Agrees, Dropped;
    if connId in e.sourceConnIds {
      Frees(e, Source, e.sourceConnIds[connId]);
    }
    Frees(e, Destination, connId);
  }

  lemma RequestConserves(e: Engine, f: Frame, answer: bool, dial: Dial)
    requires Conserved(e) && f.Request?
    requires dial.Some? ==> dial.value.0 !in e.places && dial.value.1 !in e.destinations
    ensures Conserved(OnRequest(e, f, answer, dial).0)
  {
    if dial.Some? {
      var (h, s) := dial.value;
      SizeAfter(e.destinations, s, h);
      Enters(Destination, e.destinations, e.places, s, h);
      Elsewhere(Pending, e.pending, e.places, h, In(Destination, s));
      Elsewhere(Source, e.sourceSockets, e.places, h, In(Destination, s));
    }
    hide Agrees;
  }

  /** A pending connection becomes a source connection; one that held the socket id is closed. */
  lemma MappedConserves(e: Engine, id: U32, s: U32)
    requires Conserved(e) && id in e.pending
    ensures var h := e.pending[id];
            Conserved(e.(pending := e.pending - {id}, sourceSockets := e.sourceSockets[s := h],
                         places := Dropped(e.places, e.sourceSockets, s)[h := In(Source, s)]))
  {
    var h := e.pending[id];
    Frees(e, Source, s);
    var sockets, places := e.sourceSockets - {s}, Dropped(e.places, e.sourceSockets, s);
    assert sockets[s := h] == e.sourceSockets[s := h];
    assert places[h] == In(Pending, id);
    Leaves(Pending, e.pending, places, id, In(Source, s));
    Enters(Source, sockets, places, s, h);
    Elsewhere(Destination, e.destinations, places, h, In(Source, s));
    hide Agrees, Dropped;
  }

  lemma ResponseConserves(e: Engine, f: Frame)
    requires Conserved(e) && f.Response?
    ensures Conserved(OnResponse(e, f))
  {
    hide Agrees;
    if f.clientfd.Some? && AsU32(f.clientfd.value) in e.pending {
      var id := AsU32(f.clientfd.value);
      Frees(e, Pending, id);
      if f.socketid.Some? {
        MappedConserves(e, id, AsU32(f.socketid.value));
      }
    }
  }

  lemma DataConserves(e: Engine, f: Frame, takes: bool)
    requires Conserved(e) && f.Data?
    ensures Conserved(OnData(e, f, takes))
  {
    hide Agrees;
    if f.socket.Some? {
      Frees(e, Destination, AsU32(f.socket.value));
      Frees(e, Source, AsU32(f.socket.value));
    }
  }

  /** Everything that can happen to a running engine. */
  datatype Happening =
    | SourcesAdded(more: seq<Option<Dest>>)
    | Accepted(source: nat, h: Handle)
    | Read(connId: U32, result: ReadResult)
    | PeerFrame(f: Frame, answer: bool, dial: Dial, takes: bool)

  /** New connections have new handles, and the id drawn for one is free. */
  predicate Fresh(e: Engine, x: Happening) {
    match x
    case Accepted(_, h) => h !in e.places
    case PeerFrame(_, _, dial, _) =>
      dial.Some? ==> dial.value.0 !in e.places && dial.value.1 !in e.destinations
    case _ => true
  }

  function Handled(e: Engine, x: Happening): Engine {
    match x
    case SourcesAdded(more) => e.(sources := e.sources + more)
    case Accepted(source, h) => OnAccepted(e, source, h).0
    case Read(connId, result) => OnRead(e, connId, result).0
    case PeerFrame(f, answer, dial, takes) => OnPeerFrame(e, f, answer, dial, takes).0
  }

  predicate Runs(e: Engine, run: seq<Happening>)
    decreases |run|
  {
    run == [] || (Fresh(e, run[0]) && Runs(Handled(e, run[0]), run[1..]))
  }

  function After(e: Engine, run: seq<Happening>): Engine
    decreases |run|
  {
    if run == [] then e else After(Handled(e, run[0]), run[1..])
  }

  /** A closed connection is in no table. */
  lemma ClosedIsNowhere(e: Engine, h: Handle, k: U32)
    requires Conserved(e) && h in e.places && e.places[h].Closed?
    ensures k in e.pending ==> e.pending[k] != h
    ensures k in e.sourceSockets ==> e.sourceSockets[k] != h
    ensures k in e.destinations ==> e.destinations[k] != h
  {
  }

  ghost predicate IsClosed(e: Engine, h: Handle) {
    h in e.places && e.places[h].Closed?
  }

  lemma ReadLeavesClosed(e: Engine, connId: U32, result: ReadResult, h: Handle)
    requires Conserved(e) && IsClosed(e, h)
    ensures IsClosed(OnRead(e, connId, result).0, h)
  {
    hide Conserved;
  }

  lemma ResponseLeavesClosed(e: Engine, f: Frame, h: Handle)
    requires Conserved(e) && f.Response? && IsClosed(e, h)
    ensures IsClosed(OnResponse(e, f), h)
  {
    if f.clientfd.Some? {
      ClosedIsNowhere(e, h, AsU32(f.clientfd.value));
    }
    hide Conserved;
  }

  lemma AcceptLeavesClosed(e: Engine, source: nat, g: Handle, h: Handle)
    requires Conserved(e) && g !in e.places && IsClosed(e, h)
    ensures IsClosed(OnAccepted(e, source, g).0, h)
  {
    ClosedIsNowhere(e, h, e.nextConnId);
    hide Conserved;
  }

  lemma DataLeavesClosed(e: Engine, f: Frame, takes: bool, h: Handle)
    requires Conserved(e) && f.Data? && IsClosed(e, h)
    ensures IsClosed(OnData(e, f, takes), h)
  {
    hide Conserved;
  }

  lemma ClosedStays(e: Engine, x: Happening, h: Handle)
    requires Conserved(e) && Fresh(e, x) && IsClosed(e, h)
    ensures IsClosed(Handled(e, x), h)
  {
    hide Conserved;
    match x {
      case SourcesAdded(_) =>
      case Accepted(source, g) => AcceptLeavesClosed(e, source, g, h);
      case Read(connId, result) => ReadLeavesClosed(e, connId, result, h);
      case PeerFrame(f, _, _, takes) =>
        match f {
          case Request(_, _) =>
          case Response(_, _, _) => ResponseLeavesClosed(e, f, h);
          case Data(_, _, _, _, _) => DataLeavesClosed(e, f, takes, h);
          case Undecodable =>
        }
    }
    hide OnAccepted, OnRead, OnResponse, OnData;
  }

  lemma HandledConserves(e: Engine, x: Happening)
    requires Conserved(e) && Fresh(e, x)
    ensures Conserved(Handled(e, x))
  {
    match x {
      case SourcesAdded(_) =>
      case Accepted(source, h) => AcceptConserves(e, source, h);
      case Read(connId, result) => ReadConserves(e, connId, result);
      case PeerFrame(f, answer, dial, takes) =>
        match f {
          case Request(_, _) => RequestConserves(e, f, answer, dial);
          case Response(_, _, _) => ResponseConserves(e, f);
          case Data(_, _, _, _, _) => DataConserves(e, f, takes);
          case Undecodable =>
        }
    }
  }

  lemma {:induction false} RunConserves(e: Engine, run: seq<Happening>)
    requires Conserved(e) && Runs(e, run)
    ensures Conserved(After(e, run))
    decreases |run|
  {
    hide Fresh, Handled, Conserved;
    if run != [] {
      HandledConserves(e, run[0]);
      RunConserves(Handled(e, run[0]), run[1..]);
    }
  }

  /** A connection is in at most one table and under one key, and one that is closed in none. */
  ghost predicate InOnePlace(e: Engine, h: Handle) {
    var pending, source, destination :=
      exists k :: k in e.pending && e.pending[k] == h,
      exists k :: k in e.sourceSockets && e.sourceSockets[k] == h,
      exists k :: k in e.destinations && e.destinations[k] == h;
    var closed := h in e.places && e.places[h].Closed?;
    && (pending ==> !source && !destination && !closed)
    && (source ==> !destination && !closed)
    && (destination ==> !closed)
    && (pending || source || destination || closed)
    && UnderOneKey(e.pending, h) && UnderOneKey(e.sourceSockets, h) && UnderOneKey(e.destinations, h)
  }

  predicate UnderOneKey(table: map<U32, Handle>, h: Handle) {
    forall k, l :: k in table && l in table && table[k] == h && table[l] == h ==> k == l
  }

  /** Over every run, whatever the peer sends: each connection that was ever accepted or opened is
      in exactly one table under one key or closed, no other connection is in a table, and at most
      256 destinations are open. */
  lemma ConnectionsConserved(sources: seq<Option<Dest>>, run: seq<Happening>)
    requires Runs(NewEngine(sources), run)
    ensures var e := After(NewEngine(sources), run);
            && (forall h :: h in e.places ==> InOnePlace(e, h))
            && (forall k :: k in e.pending ==> e.pending[k] in e.places)
            && (forall k :: k in e.sourceSockets ==> e.sourceSockets[k] in e.places)
            && (forall k :: k in e.destinations ==> e.destinations[k] in e.places)
            && |e.destinations| <= MAX_DESTINATION_CONNECTIONS
  {
    RunConserves(NewEngine(sources), run);
    var e := After(NewEngine(sources), run);
    hide After, Runs;
    forall h | h in e.places ensures InOnePlace(e, h) {
      OnePlace(e, h);
    }
  }

  lemma OnePlace(e: Engine, h: Handle)
    requires Conserved(e) && h in e.places
    ensures InOnePlace(e, h)
  {
  }

  /** A closed connection never comes back into a table, and stopping closes all the others. */
  lemma {:induction false} ClosedForGood(e: Engine, run: seq<Happening>, h: Handle)
    requires Conserved(e) && Runs(e, run) && IsClosed(e, h)
    ensures var e' := After(e, run);
            IsClosed(e', h) && forall g :: g in e'.places ==> IsClosed(Stopped(e'), g)
    decreases |run|
  {
    hide Fresh, Handled, Conserved, Stopped;
    if run == [] {
      StopClosesAll(e);
    } else {
      HandledConserves(e, run[0]);
      ClosedStays(e, run[0], h);
      ClosedForGood(Handled(e, run[0]), run[1..], h);
    }
  }

  /** Where every connection is in the table its place says, the tables hold all that is open. */
  lemma StopClosesAll(e: Engine)
    requires Conserved(e)
    ensures forall h :: h in e.places ==> IsClosed(Stopped(e), h)
    ensures forall h :: h in Stopped(e).places ==> Stopped(e).places[h].Closed?
    ensures Stopped(e).places.Keys == e.places.Keys
  {
    HeldAreKnown(e);
    hide Agrees;
  }

  lemma HeldAreKnown(e: Engine)
    requires Conserved(e)
    ensures Held(e) <= e.places.Keys && forall h :: h in e.places && e.places[h].In? ==> h in Held(e)
  {
    forall h | h in e.places && e.places[h].In? ensures h in Held(e) {
      match e.places[h].table {
        case Pending => assert e.pending[e.places[h].key] in e.pending.Values;
        case Source => assert e.sourceSockets[e.places[h].key] in e.sourceSockets.Values;
        case Destination => assert e.destinations[e.places[h].key] in e.destinations.Values;
      }
    }
  }

  /** Over every run, stopping the engine leaves no connection open that was ever accepted or
      opened, and touches no other. */
  lemma StopLeavesNothingOpen(sources: seq<Option<Dest>>, run: seq<Happening>)
    requires Runs(NewEngine(sources), run)
    ensures var e := After(NewEngine(sources), run);
            var stopped := Stopped(e);
            && stopped.places.Keys == e.places.Keys && (forall h :: h in e.places ==> IsClosed(stopped, h))
            && Held(stopped) == {}
  {
    RunConserves(NewEngine(sources), run);
    hide Runs, After;
    StopClosesAll(After(NewEngine(sources), run));
  }

  // ---- the connection ids of the source role ----

  /** While connection ids have not wrapped around: each id is used once, and every mapped socket id
      belongs to some connection id. Entries of closed connections may linger. */
  ghost predicate Mapped(e: Engine) {
    && e.nextConnId == (e.accepts + 1) % 0x1_0000_0000
    && (forall k :: k in e.pending ==> 1 <= k <= e.accepts && k !in e.sourceConnIds)
    && (forall k :: k in e.sourceConnIds ==> 1 <= k <= e.accepts)
    && (forall s :: s in e.sourceSockets ==> HasConnId(e.sourceConnIds, s))
  }

  ghost predicate HasConnId(ids: map<U32, U32>, s: U32) {
    exists c :: c in ids && ids[c] == s
  }

  lemma StillHasConnId(ids: map<U32, U32>, ids': map<U32, U32>, s: U32)
    requires HasConnId(ids, s) && forall c :: c in ids && ids[c] == s ==> c in ids' && ids'[c] == s
    ensures HasConnId(ids', s)
  {
  }

  lemma ResponseMapped(e: Engine, f: Frame)
    requires Mapped(e) && f.Response?
    ensures Mapped(OnResponse(e, f))
  {
    var e' := OnResponse(e, f);
    forall s | s in e'.sourceSockets ensures HasConnId(e'.sourceConnIds, s) {
      if s in e.sourceSockets && HasConnId(e.sourceConnIds, s) {
        StillHasConnId(e.sourceConnIds, e'.sourceConnIds, s);
      } else {
        assert e'.sourceConnIds[AsU32(f.clientfd.value)] == s;
      }
    }
  }

  lemma ReadMapped(e: Engine, connId: U32, result: ReadResult)
    requires Mapped(e)
    ensures Mapped(OnRead(e, connId, result).0)
  {
    var e' := OnRead(e, connId, result).0;
    forall s | s in e'.sourceSockets ensures HasConnId(e'.sourceConnIds, s) {
      StillHasConnId(e.sourceConnIds, e'.sourceConnIds, s);
    }
  }

  lemma AcceptMapped(e: Engine, source: nat, h: Handle)
    requires Mapped(e) && OnAccepted(e, source, h).0.accepts < 0x1_0000_0000
    ensures Mapped(OnAccepted(e, source, h).0)
  {
    hide HasConnId;
  }

  lemma DataMapped(e: Engine, f: Frame, takes: bool)
    requires Mapped(e) && f.Data?
    ensures Mapped(OnData(e, f, takes))
  {
    hide HasConnId;
  }

  lemma HandledMapped(e: Engine, x: Happening)
    requires Mapped(e) && Handled(e, x).accepts < 0x1_0000_0000
    ensures Mapped(Handled(e, x))
  {
    match x {
      case SourcesAdded(_) =>
      case Accepted(source, h) => AcceptMapped(e, source, h);
      case Read(connId, result) => ReadMapped(e, connId, result);
      case PeerFrame(f, _, _, takes) =>
        match f {
          case Request(_, _) =>
          case Response(_, _, _) => ResponseMapped(e, f);
          case Data(_, _, _, _, _) => DataMapped(e, f, takes);
          case Undecodable =>
        }
    }
    hide HasConnId, OnAccepted, OnRead, OnResponse, OnData;
  }

  lemma AcceptsOnce(e: Engine, x: Happening)
    ensures e.accepts <= Handled(e, x).accepts <= e.accepts + 1
  {
    hide Dropped, WouldDial, Log, AsU32, AsI32;
    match x {
      case PeerFrame(f, _, _, _) =>
        match f {
          case Request(_, _) => hide OnResponse, OnData;
          case Response(_, _, _) => hide OnRequest, OnData;
          case _ => hide OnRequest, OnResponse;
        }
      case _ => hide OnPeerFrame;
    }
  }

  lemma {:induction false} AcceptsGrow(e: Engine, run: seq<Happening>)
    ensures e.accepts <= After(e, run).accepts
    decreases |run|
  {
    hide Handled;
    if run != [] {
      AcceptsOnce(e, run[0]);
      AcceptsGrow(Handled(e, run[0]), run[1..]);
    }
  }

  /** Up to 2^32 - 1 accepted connections, every socket id of the source role is one that some
      connection id maps to. */
  lemma {:induction false} MappedBelowWrap(e: Engine, run: seq<Happening>)
    requires Mapped(e) && After(e, run).accepts < 0x1_0000_0000
    ensures Mapped(After(e, run))
    decreases |run|
  {
    hide Mapped, Handled;
    if run != [] {
      AcceptsGrow(Handled(e, run[0]), run[1..]);
      HandledMapped(e, run[0]);
      MappedBelowWrap(Handled(e, run[0]), run[1..]);
    }
  }

  /** The peer answers a waiting connection whose id is still mapped, so that no connection id is
      left for a socket id in use. */
  ghost predicate Orphans(e: Engine, x: Happening) {
    && x.PeerFrame? && x.f.Response? && x.f.clientfd.Some? && x.f.socketid.Some?
    && var id, s := AsU32(x.f.clientfd.value), AsU32(x.f.socketid.value);
    && id in e.pending && id in e.sourceConnIds
    && var lost := e.sourceConnIds[id];
    && lost != s && lost in e.sourceSockets
    && (forall c :: c in e.sourceConnIds && c != id ==> e.sourceConnIds[c] != lost)
  }

  ghost predicate KeysMapped(e: Engine) {
    forall s :: s in e.sourceSockets ==> HasConnId(e.sourceConnIds, s)
  }

  lemma ResponseKeys(e: Engine, x: Happening)
    requires x.PeerFrame? && x.f.Response? && KeysMapped(e)
    ensures KeysMapped(OnResponse(e, x.f)) <==> !Orphans(e, x)
  {
    var e', f := OnResponse(e, x.f), x.f;
    if f.clientfd.Some? && f.socketid.Some? && AsU32(f.clientfd.value) in e.pending {
      var id, s := AsU32(f.clientfd.value), AsU32(f.socketid.value);
      assert e'.sourceConnIds == e.sourceConnIds[id := s] && e'.sourceSockets == e.sourceSockets[s := e.pending[id]];
      assert e'.sourceConnIds[id] == s;
      hide OnResponse, Dropped;
      if Orphans(e, x) {
        var lost := e.sourceConnIds[id];
        assert lost in e'.sourceSockets && !HasConnId(e'.sourceConnIds, lost);
      } else {
        forall t | t in e'.sourceSockets ensures HasConnId(e'.sourceConnIds, t) {
          if t != s {
            KeyStays(e.sourceConnIds, id, s, t);
          }
        }
      }
    }
  }

  /** A key keeps a connection id unless the only one is taken from it. */
  lemma KeyStays(ids: map<U32, U32>, id: U32, s: U32, t: U32)
    requires HasConnId(ids, t) && t != s
    requires !(id in ids && ids[id] == t && forall c :: c in ids && c != id ==> ids[c] != t)
    ensures HasConnId(ids[id := s], t)
  {
    var c :| c in ids && ids[c] == t && c != id;
    assert ids[id := s][c] == t;
  }

  lemma ReadKeys(e: Engine, connId: U32, result: ReadResult)
    requires KeysMapped(e)
    ensures KeysMapped(OnRead(e, connId, result).0)
  {
    var e' := OnRead(e, connId, result).0;
    forall s | s in e'.sourceSockets ensures HasConnId(e'.sourceConnIds, s) {
      StillHasConnId(e.sourceConnIds, e'.sourceConnIds, s);
    }
    hide HasConnId;
  }

  /** Whatever happens, and however many connections were accepted before: every socket id in use
      stays mapped exactly unless the peer answers a connection id that is in use again. */
  lemma KeysMappedExactlyUnless(e: Engine, x: Happening)
    requires KeysMapped(e)
    ensures KeysMapped(Handled(e, x)) <==> !Orphans(e, x)
  {
    match x {
      case Read(connId, result) => ReadKeys(e, connId, result);
      case PeerFrame(f, _, _, _) =>
        if f.Response? {
          ResponseKeys(e, x);
        }
      case _ =>
    }
    hide HasConnId, OnResponse, OnRead;
  }

  /** No peer answers a connection id that is in use again. */
  ghost predicate NoneOrphaned(e: Engine, run: seq<Happening>)
    decreases |run|
  {
    run == [] || (!Orphans(e, run[0]) && NoneOrphaned(Handled(e, run[0]), run[1..]))
  }

  /** Over every run without such an answer, however long: every socket id of the source role is one
      that some connection id maps to. */
  lemma {:induction false} SourceSocketsMapped(e: Engine, run: seq<Happening>)
    requires KeysMapped(e) && NoneOrphaned(e, run)
    ensures KeysMapped(After(e, run))
    decreases |run|
  {
    hide KeysMapped, Orphans, Handled;
    if run != [] {
      KeysMappedExactlyUnless(e, run[0]);
      SourceSocketsMapped(Handled(e, run[0]), run[1..]);
    }
  }

  /** And below 2^32 accepted connections there is no such answer. */
  lemma {:induction false} NoneOrphanedBelowWrap(e: Engine, run: seq<Happening>)
    requires Mapped(e) && After(e, run).accepts < 0x1_0000_0000
    ensures NoneOrphaned(e, run)
    decreases |run|
  {
    if run != [] {
      assert !Orphans(e, run[0]) by { hide HasConnId; }
      hide Mapped, Handled, Orphans;
      AcceptsGrow(Handled(e, run[0]), run[1..]);
      HandledMapped(e, run[0]);
      NoneOrphanedBelowWrap(Handled(e, run[0]), run[1..]);
    }
  }

  // ---- when the two maps of the source role are inverse to each other ----

  /** Every mapped socket id is in use, no two connection ids share one, and every socket id in use
      is mapped. */
  ghost predicate Inverse(ids: map<U32, U32>, sockets: map<U32, Handle>) {
    && (forall c :: c in ids ==> ids[c] in sockets)
    && (forall c, d :: c in ids && d in ids && ids[c] == ids[d] ==> c == d)
    && (forall s :: s in sockets ==> HasConnId(ids, s))
  }

  /** A frame for a connection that ends it. */
  predicate EndsIt(f: Frame, takes: bool)
    requires f.Data?
  {
    f.closed == Some(true) || f.failed || (f.buffer.Some? && !takes)
  }

  /** The peer ends a source connection. */
  predicate EndsSource(e: Engine, f: Frame, takes: bool) {
    && f.Data? && f.socket.Some? && f.toDestination != Some(true)
    && AsU32(f.socket.value) in e.sourceSockets && EndsIt(f, takes)
  }

  /** The peer answers a waiting connection with a socket id that another connection has, or answers
      a connection id that, after a wrap-around, is still mapped. */
  predicate Collides(e: Engine, f: Frame) {
    && f.Response? && f.clientfd.Some? && f.socketid.Some? && AsU32(f.clientfd.value) in e.pending
    && var id, s := AsU32(f.clientfd.value), AsU32(f.socketid.value);
    && !(id in e.sourceConnIds && e.sourceConnIds[id] == s)
    && (s in e.sourceSockets || id in e.sourceConnIds)
  }

  predicate Breaks(e: Engine, x: Happening) {
    x.PeerFrame? && (EndsSource(e, x.f, x.takes) || Collides(e, x.f))
  }

  /** Ending a connection leaves its entry behind. */
  lemma SocketGone(ids: map<U32, U32>, sockets: map<U32, Handle>, s: U32)
    requires Inverse(ids, sockets) && s in sockets
    ensures !Inverse(ids, sockets - {s})
  {
    var c :| c in ids && ids[c] == s;
    assert ids[c] !in sockets - {s};
  }

  /** A local end of stream takes both entries out. */
  lemma BothGone(ids: map<U32, U32>, sockets: map<U32, Handle>, c: U32)
    requires Inverse(ids, sockets) && c in ids
    ensures Inverse(ids - {c}, sockets - {ids[c]})
  {
    var ids', sockets' := ids - {c}, sockets - {ids[c]};
    forall s | s in sockets' ensures HasConnId(ids', s) {
      var d :| d in ids && ids[d] == s;
      assert d in ids' && ids'[d] == s;
    }
  }

  /** A new pair of entries keeps the maps inverse exactly when it collides with no other. */
  lemma PairAdded(ids: map<U32, U32>, sockets: map<U32, Handle>, id: U32, s: U32, h: Handle)
    requires Inverse(ids, sockets)
    ensures Inverse(ids[id := s], sockets[s := h]) <==>
              (id in ids && ids[id] == s) || (s !in sockets && id !in ids)
  {
    var ids', sockets' := ids[id := s], sockets[s := h];
    assert ids'[id] == s;
    if s in sockets && !(id in ids && ids[id] == s) {
      var c :| c in ids && ids[c] == s;
      assert ids'[c] == s && c != id;
    } else if id in ids && ids[id] != s {
      var lost := ids[id];
      assert lost in sockets';
      assert !HasConnId(ids', lost);
    } else {
      forall t | t in sockets' ensures HasConnId(ids', t) {
        if t != s {
          var c :| c in ids && ids[c] == t;
          assert ids'[c] == t;
        }
      }
    }
  }

  lemma ResponseInverse(e: Engine, f: Frame)
    requires f.Response? && Inverse(e.sourceConnIds, e.sourceSockets)
    ensures var e' := OnResponse(e, f); Inverse(e'.sourceConnIds, e'.sourceSockets) <==> !Collides(e, f)
  {
    if f.clientfd.Some? && AsU32(f.clientfd.value) in e.pending && f.socketid.Some? {
      var id := AsU32(f.clientfd.value);
      PairAdded(e.sourceConnIds, e.sourceSockets, id, AsU32(f.socketid.value), e.pending[id]);
    }
    hide Inverse;
  }

  lemma DataInverse(e: Engine, f: Frame, takes: bool)
    requires f.Data? && Inverse(e.sourceConnIds, e.sourceSockets)
    ensures var e' := OnData(e, f, takes); Inverse(e'.sourceConnIds, e'.sourceSockets) <==> !EndsSource(e, f, takes)
  {
    if EndsSource(e, f, takes) {
      SocketGone(e.sourceConnIds, e.sourceSockets, AsU32(f.socket.value));
    }
    hide Inverse;
  }

  lemma ReadInverse(e: Engine, connId: U32, result: ReadResult)
    requires Inverse(e.sourceConnIds, e.sourceSockets)
    ensures var e' := OnRead(e, connId, result).0; Inverse(e'.sourceConnIds, e'.sourceSockets)
  {
    if connId in e.sourceConnIds {
      BothGone(e.sourceConnIds, e.sourceSockets, connId);
    }
    hide Inverse;
  }

  /** Whatever happens to an engine whose two maps are inverse to each other, they are so afterwards
      exactly unless the peer ended a source connection or its answer collided with another. */
  lemma InverseExactlyUnless(e: Engine, x: Happening)
    requires Inverse(e.sourceConnIds, e.sourceSockets)
    ensures var e' := Handled(e, x); Inverse(e'.sourceConnIds, e'.sourceSockets) <==> !Breaks(e, x)
  {
    match x {
      case SourcesAdded(_) =>
      case Accepted(_, _) =>
      case Read(connId, result) => ReadInverse(e, connId, result);
      case PeerFrame(f, _, _, takes) =>
        match f {
          case Request(_, _) =>
          case Response(_, _, _) => ResponseInverse(e, f);
          case Data(_, _, _, _, _) => DataInverse(e, f, takes);
          case Undecodable =>
        }
    }
    hide Inverse, OnRead, OnResponse, OnData;
  }

  /** No happening of the run breaks the maps. */
  predicate Peaceful(e: Engine, run: seq<Happening>)
    decreases |run|
  {
    run == [] || (!Breaks(e, run[0]) && Peaceful(Handled(e, run[0]), run[1..]))
  }

  lemma {:induction false} PeacefulRunsInverse(e: Engine, run: seq<Happening>)
    requires Inverse(e.sourceConnIds, e.sourceSockets) && Peaceful(e, run)
    ensures var e' := After(e, run); Inverse(e'.sourceConnIds, e'.sourceSockets)
    decreases |run|
  {
    hide Inverse, Breaks, Handled;
    if run != [] {
      InverseExactlyUnless(e, run[0]);
      PeacefulRunsInverse(Handled(e, run[0]), run[1..]);
    }
  }

  /** From a new engine: a connection is accepted, answered with any socket id, and closed by the
      peer. Its connection id stays mapped to a socket id that no connection has. */
  lemma StaleEntryArises(d: Dest, h: Handle, s: U32) returns (run: seq<Happening>)
    ensures Runs(NewEngine([Some(d)]), run) && |run| == 3
    ensures var e := After(NewEngine([Some(d)]), run);
            1 in e.sourceConnIds && e.sourceConnIds[1] == s && s !in e.sourceSockets
  {
    var x := Accepted(0, h);
    var y := PeerFrame(Response(Some(AsI32(1)), Some(AsI32(s)), false), false, None, true);
    var z := PeerFrame(ClosedFrame(s, false), false, None, true);
    var e0 := NewEngine([Some(d)]);
    var e1 := Handled(e0, x);
    var e2 := Handled(e1, y);
    var e3 := Handled(e2, z);
    assert AsU32(AsI32(1)) == 1 && AsU32(AsI32(s)) == s;
    assert e1.pending == map[1 := h];
    assert e2.sourceConnIds == map[1 := s] && e2.sourceSockets == map[s := h];
    assert e3.sourceConnIds == map[1 := s] && e3.sourceSockets == map[];
    run := [x] + ([y] + ([z] + []));
    hide OnResponse, OnData, OnAccepted;
    RunFrom(e2, z, []);
    RunFrom(e1, y, [z] + []);
    RunFrom(e0, x, [y] + ([z] + []));
  }

  lemma RunFrom(e: Engine, x: Happening, rest: seq<Happening>)
    requires Fresh(e, x) && Runs(Handled(e, x), rest)
    ensures Runs(e, [x] + rest) && After(e, [x] + rest) == After(Handled(e, x), rest)
  {
    hide Handled, Fresh;
    assert ([x] + rest)[0] == x && ([x] + rest)[1..] == rest;
  }

  /** A new engine has all of this. */
  lemma NewEngineHas(sources: seq<Option<Dest>>)
    ensures var e := NewEngine(sources);
            Conserved(e) && Mapped(e) && KeysMapped(e) && Inverse(e.sourceConnIds, e.sourceSockets)
  {
  }

  // ---- connection ids come round again ----

  function Answer(id: U32, s: U32): Happening {
    PeerFrame(Response(Some(AsI32(id)), Some(AsI32(s)), false), false, None, true)
  }

  /** `k` connections are accepted one after the other. */
  function Burst(h: Handle, k: nat): seq<Happening>
    decreases k
  {
    if k == 0 then [] else [Accepted(0, h)] + Burst(h + 1, k - 1)
  }

  /** Handles from `h` on are new, and there is a source to accept from. */
  predicate Room(e: Engine, h: Handle) {
    && |e.sources| > 0 && e.sources[0].Some?
    && (forall g :: g in e.places ==> g < h)
    && (forall id :: id in e.pending ==> e.pending[id] < h)
  }

  lemma AcceptStep(e: Engine, h: Handle)
    requires Room(e, h)
    ensures var e' := Handled(e, Accepted(0, h));
            && Fresh(e, Accepted(0, h)) && Room(e', h + 1) && e.nextConnId in e'.pending
            && e'.sourceSockets == e.sourceSockets && e'.sourceConnIds == e.sourceConnIds
            && e'.nextConnId == (e.nextConnId + 1) % 0x1_0000_0000
  {
  }

  lemma {:induction false} BurstRuns(e: Engine, h: Handle, k: nat)
    requires Room(e, h) && k > 0
    ensures Runs(e, Burst(h, k))
    ensures var e' := After(e, Burst(h, k));
            && e'.sourceSockets == e.sourceSockets && e'.sourceConnIds == e.sourceConnIds
            && (e.nextConnId + (k - 1)) % 0x1_0000_0000 in e'.pending
    decreases k
  {
    hide Handled, Fresh, Room;
    AcceptStep(e, h);
    if k == 1 {
      assert Burst(h, 1) == [Accepted(0, h)] + [];
      assert Runs(Handled(e, Accepted(0, h)), []);
      RunFrom(e, Accepted(0, h), []);
    } else {
      BurstRuns(Handled(e, Accepted(0, h)), h + 1, k - 1);
      RunFrom(e, Accepted(0, h), Burst(h + 1, k - 1));
    }
  }

  lemma {:induction false} RunThrough(e: Engine, run: seq<Happening>, more: seq<Happening>)
    requires Runs(e, run) && Runs(After(e, run), more)
    ensures Runs(e, run + more) && After(e, run + more) == After(After(e, run), more)
    decreases |run|
  {
    hide Handled, Fresh;
    if run == [] {
      assert run + more == more;
    } else {
      assert (run + more)[0] == run[0] && (run + more)[1..] == run[1..] + more;
      RunThrough(Handled(e, run[0]), run[1..], more);
    }
  }

  lemma OneMore(e: Engine, run: seq<Happening>, x: Happening)
    requires Runs(e, run) && Fresh(After(e, run), x)
    ensures Runs(e, run + [x]) && After(e, run + [x]) == Handled(After(e, run), x)
  {
    hide Handled, Fresh;
    var e' := After(e, run);
    assert [x] == [x] + [] && Runs(Handled(e', x), []);
    RunFrom(e', x, []);
    RunThrough(e, run, [x]);
  }

  lemma Answered(e: Engine, id: U32, s: U32)
    requires id in e.pending
    ensures Fresh(e, Answer(id, s))
    ensures var e' := Handled(e, Answer(id, s));
            && e'.sourceSockets == e.sourceSockets[s := e.pending[id]]
            && e'.sourceConnIds == e.sourceConnIds[id := s]
            && e'.sources == e.sources && e'.nextConnId == e.nextConnId && e'.pending == e.pending - {id}
            && (e.pending[id] in e.places && s !in e.sourceSockets ==> e'.places.Keys == e.places.Keys)
  {
    assert AsU32(AsI32(id)) == id && AsU32(AsI32(s)) == s;
    hide AsI32, AsU32;
  }

  lemma FirstMapped(d: Dest, s: U32) returns (run: seq<Happening>)
    ensures Runs(NewEngine([Some(d)]), run)
    ensures var e := After(NewEngine([Some(d)]), run);
            && Room(e, 1) && e.nextConnId == 2
            && e.sourceConnIds == map[1 := s] && e.sourceSockets == map[s := 0]
  {
    var e0 := NewEngine([Some(d)]);
    AcceptStep(e0, 0);
    var e1 := Handled(e0, Accepted(0, 0));
    assert e1.pending == map[1 := 0] && e1.places == map[0 := In(Pending, 1)];
    Answered(e1, 1, s);
    hide Handled, Fresh, Answer;
    assert Runs(e0, []) && After(e0, []) == e0;
    OneMore(e0, [], Accepted(0, 0));
    OneMore(e0, [] + [Accepted(0, 0)], Answer(1, s));
    run := [] + [Accepted(0, 0)] + [Answer(1, s)];
  }

  lemma Orphaned(e: Engine, s: U32, t: U32)
    requires s != t && 1 in e.pending && e.sourceConnIds == map[1 := s] && s in e.sourceSockets
    ensures !KeysMapped(Handled(e, Answer(1, t)))
  {
    Answered(e, 1, t);
    hide Handled, Answer;
    var e' := Handled(e, Answer(1, t));
    assert s in e'.sourceSockets && e'.sourceConnIds == map[1 := t] && !HasConnId(e'.sourceConnIds, s);
  }

  /** From a new engine: a connection is mapped and stays open while 2^32 more are accepted. The last
      of them has its connection id; once the peer answers that one too, a socket id in use is mapped
      by none. */
  lemma OrphanArises(d: Dest, s: U32, t: U32) returns (run: seq<Happening>)
    requires s != t
    ensures Runs(NewEngine([Some(d)]), run) && !KeysMapped(After(NewEngine([Some(d)]), run))
  {
    hide Handled, Fresh, Room, Answer, Burst, Runs, After, KeysMapped;
    var e0 := NewEngine([Some(d)]);
    run := FirstMapped(d, s);
    var e1, burst := After(e0, run), Burst(1, 0x1_0000_0000);
    BurstRuns(e1, 1, 0x1_0000_0000);
    RunThrough(e0, run, burst);
    run := run + burst;
    var e2 := After(e0, run);
    assert (2 + (0x1_0000_0000 - 1)) % 0x1_0000_0000 == 1;
    Answered(e2, 1, t);
    Orphaned(e2, s, t);
    OneMore(e0, run, Answer(1, t));
    run := run + [Answer(1, t)];
  }

  // ---- one id for two connections ----

  function Asks(d: Dest, g: Handle, s: U32): Happening {
    PeerFrame(Request(Some(d), None), true, Some((g, s)), true)
  }

  lemma Dialled(e: Engine, d: Dest, g: Handle, s: U32)
    requires WouldDial(e, Some(d)) && g !in e.places && s !in e.destinations
    ensures Fresh(e, Asks(d, g, s))
    ensures var e' := Handled(e, Asks(d, g, s));
            && e'.destinations == e.destinations[s := g] && e'.places == e.places[g := In(Destination, s)]
            && e'.sourceConnIds == e.sourceConnIds && e'.written == e.written
  {
  }

  /** What a destination connection reads goes out as its own exactly when no source connection has
      the same id. */
  lemma ReadRoutedExactlyWhen(e: Engine, id: U32, bytes: ByteString)
    requires id in e.destinations && bytes != []
    ensures OnRead(e, id, Bytes(bytes)).1 == [DataFrame(id, false, bytes)] <==> id !in e.sourceConnIds
    ensures id in e.sourceConnIds ==> OnRead(e, id, Bytes(bytes)).1 == [DataFrame(e.sourceConnIds[id], true, bytes)]
  {
    assert DataFrame(id, false, bytes).toDestination != Some(true);
    if id in e.sourceConnIds {
      assert [DataFrame(e.sourceConnIds[id], true, bytes)][0].toDestination == Some(true);
    }
  }

  /** From a new engine: a socket id is drawn that is also the connection id of a mapped connection. */
  lemma SharedIdArises(d: Dest, h: Handle, g: Handle, s: U32) returns (run: seq<Happening>)
    requires d.port.Some? && 0 <= d.port.value <= 65535 && h != g
    ensures Runs(NewEngine([Some(d)]), run)
    ensures var e := After(NewEngine([Some(d)]), run);
            1 in e.sourceConnIds && e.sourceConnIds[1] == s && 1 in e.destinations && e.destinations[1] == g
  {
    var e0 := NewEngine([Some(d)]);
    var e1 := Handled(e0, Accepted(0, h));
    assert e1.pending == map[1 := h] && e1.places == map[h := In(Pending, 1)] && e1.destinations == map[];
    Answered(e1, 1, s);
    var e2 := Handled(e1, Answer(1, s));
    assert e2.destinations == map[] && g !in e2.places;
    Dialled(e2, d, g, 1);
    assert Fresh(e0, Accepted(0, h));
    hide Handled, Fresh, Answer, Asks;
    assert Runs(e0, []) && After(e0, []) == e0;
    OneMore(e0, [], Accepted(0, h));
    OneMore(e0, [] + [Accepted(0, h)], Answer(1, s));
    OneMore(e0, [] + [Accepted(0, h)] + [Answer(1, s)], Asks(d, g, 1));
    run := [] + [Accepted(0, h)] + [Answer(1, s)] + [Asks(d, g, 1)];
  }

  /** From a new engine: a connection ends, its socket id is drawn again, and what was still on its way
      to the first is queued for the second. */
  lemma RedrawnIdMixes(d: Dest, g: Handle, g': Handle, s: U32, x: ByteString) returns (run: seq<Happening>)
    requires d.port.Some? && 0 <= d.port.value <= 65535 && g != g'
    ensures Runs(NewEngine([]), run)
    ensures Log(After(NewEngine([]), run).written, g') == x
  {
    var e0 := NewEngine([]);
    assert e0.destinations == map[];
    Dialled(e0, d, g, s);
    var e1 := Handled(e0, Asks(d, g, s));
    assert e1.destinations == map[s := g] && s !in e1.sourceConnIds;
    var ends := Read(s, Bytes([]));
    var e2 := Handled(e1, ends);
    assert e2.destinations == map[] && g' !in e2.places && e2.written == map[] && Fresh(e1, ends);
    Dialled(e2, d, g', s);
    var e3 := Handled(e2, Asks(d, g', s));
    var late := PeerFrame(DataFrame(s, true, x), false, None, true);
    assert AsU32(AsI32(s)) == s;
    assert e3.destinations == map[s := g'] && Log(e3.written, g') == [] && Fresh(e3, late);
    assert Log(Handled(e3, late).written, g') == [] + x && [] + x == x;
    hide Handled, Fresh, Asks, Log, DataFrame;
    assert Runs(e0, []) && After(e0, []) == e0;
    OneMore(e0, [], Asks(d, g, s));
    run := [] + [Asks(d, g, s)];
    OneMore(e0, run, ends);
    run := run + [ends];
    OneMore(e0, run, Asks(d, g', s));
    run := run + [Asks(d, g', s)];
    OneMore(e0, run, late);
    run := run + [late];
  }
}
