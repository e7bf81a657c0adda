/** The two engines on top of the session that joins them: frames wait to be written, are written to
    the session or refused, survive its outages, are delivered and wait to be handled. Seen from the
    engines this is the pair whose frames may be lost: a refused write is the loss of one frame, and
    no socket that dies loses any. */
module EndToEnd {
  import opened Bytes
  import opened Crypto
  import opened Endpoints
  import Sessions
  import opened Carriages
  import opened Forwarding
  import opened TunnelViews
  import Tunnels
  import opened Pairs

  /** How frames are put into messages; other messages are none of the engines' business. */
  datatype Codec = Codec(encode: Frame -> Msg, decode: Msg -> Option<Frame>)

  /** The frames among some messages. */
  function Frames(c: Codec, ms: seq<Msg>): seq<Frame> {
    if ms == [] then []
    else (if c.decode(ms[0]).Some? then [c.decode(ms[0]).value] else []) + Frames(c, ms[1..])
  }

  lemma {:induction false} FramesAppend(c: Codec, ms: seq<Msg>, more: seq<Msg>)
    ensures Frames(c, ms + more) == Frames(c, ms) + Frames(c, more)
  {
    if ms == [] {
      assert ms + more == more && [] + Frames(c, more) == Frames(c, more);
    } else {
      assert (ms + more)[0] == ms[0] && (ms + more)[1..] == ms[1..] + more;
      FramesAppend(c, ms[1..], more);
      var x := if c.decode(ms[0]).Some? then [c.decode(ms[0]).value] else [];
      assert x + (Frames(c, ms[1..]) + Frames(c, more)) == (x + Frames(c, ms[1..])) + Frames(c, more);
    }
  }

  // ---- the machine ----

  /** Engine A is on side 0 of the session. The queue of an end holds what was delivered to it and is
      not yet handled; `outA` and `outB` hold what the engines sent and is not yet written. */
  datatype Joint = Joint(w: Sessions.World, a: End, b: End, outA: seq<Frame>, outB: seq<Frame>)

  datatype Move =
    | EngineActs(act: Act)
    | GiveUp(atA: bool, i: nat)                          // at a shutdown
    | Submit(atA: bool, refused: bool, now: int)         // the first frame is written to the session
    | Session(action: Sessions.Action)

  function Side(atA: bool): nat {
    if atA then 0 else 1
  }

  function Out(j: Joint, atA: bool): seq<Frame> {
    if atA then j.outA else j.outB
  }

  function Writing(c: Codec, j: Joint, atA: bool, refused: bool, now: int): Sessions.Action
    requires Out(j, atA) != []
  {
    Sessions.WriteMsg(Side(atA), c.encode(Out(j, atA)[0]), refused, now)
  }

  ghost predicate Enabled(c: Codec, box: SecretBox, j: Joint, m: Move) {
    match m
    case EngineActs(act) => !act.LoseAt? && Can(if act.atA then j.a else j.b, act)
    case GiveUp(atA, i) => i < |Out(j, atA)|
    case Submit(atA, refused, now) =>
      && Out(j, atA) != [] && c.decode(c.encode(Out(j, atA)[0])) == Some(Out(j, atA)[0])
      && Sessions.Enabled(box, j.w, Writing(c, j, atA, refused, now)) && Sessions.SocketsExist(j.w)
    case Session(action) =>
      && Sessions.Enabled(box, j.w, action) && Sessions.SocketsExist(j.w)
      && (action.WriteMsg? ==> c.decode(action.m).None?)
  }

  /** What an endpoint delivered in a step is handed to its engine. */
  function Handed(c: Codec, x: End, before: Endpoint, e: Endpoint): End {
    if |before.delivered| <= |e.delivered|
    then x.(queue := x.queue + Frames(c, e.delivered[|before.delivered|..])) else x
  }

  ghost function Next(c: Codec, box: SecretBox, j: Joint, m: Move): Joint
    requires Enabled(c, box, j, m)
  {
    match m
    case EngineActs(act) =>
      var (x, frames) := Acted(if act.atA then j.a else j.b, act);
      if act.atA then j.(a := x, outA := j.outA + frames) else j.(b := x, outB := j.outB + frames)
    case GiveUp(atA, i) =>
      if atA then j.(outA := Without(j.outA, i)) else j.(outB := Without(j.outB, i))
    case Submit(atA, refused, now) =>
      var w := Sessions.Apply(box, j.w, Writing(c, j, atA, refused, now));
      if atA then j.(w := w, outA := j.outA[1..]) else j.(w := w, outB := j.outB[1..])
    case Session(action) =>
      var w := Sessions.Apply(box, j.w, action);
      StepAdds(box, j.w, action, 0);
      j.(w := w, a := Handed(c, j.a, j.w.sides[0].ep, w.sides[0].ep),
         b := Handed(c, j.b, j.w.sides[1].ep, w.sides[1].ep))
  }

  function Start(now: int, a: Config, b: Config): Joint {
    Joint(Sessions.Start(now), NewEnd(a), NewEnd(b), [], [])
  }

  ghost predicate Runs(c: Codec, box: SecretBox, j: Joint, moves: seq<Move>)
    decreases |moves|
  {
    moves == [] || (Enabled(c, box, j, moves[0]) && Runs(c, box, Next(c, box, j, moves[0]), moves[1..]))
  }

  ghost function After(c: Codec, box: SecretBox, j: Joint, moves: seq<Move>): Joint
    requires Runs(c, box, j, moves)
    decreases |moves|
  {
    if moves == [] then j else After(c, box, Next(c, box, j, moves[0]), moves[1..])
  }

  // ---- what the engines see ----

  ghost predicate Sound(box: SecretBox, j: Joint) {
    && Sessions.Safe(box, j.w) && |j.w.sides| == 2
    && Ordered(j.w, 0, 1) && Ordered(j.w, 1, 0)
  }

  lemma SafeSound(box: SecretBox, j: Joint)
    requires Sessions.Safe(box, j.w)
    ensures Sound(box, j)
  {
    SafeOrdered(box, j.w, 0, 1);
    SafeOrdered(box, j.w, 1, 0);
    hide Sessions.Safe;
  }

  /** The frames in transit from side `i` to side `o`. */
  ghost function Carried(c: Codec, w: Sessions.World, i: nat, o: nat): seq<Frame>
    requires Sessions.Ends(i, o) && |w.sides| == 2 && Ordered(w, i, o)
  {
    Frames(c, InTransit(w.sides[i].ep, w.sides[o].ep))
  }

  /** Everything on its way to an end: delivered, in transit, and still to be written. */
  ghost function Seen(c: Codec, j: Joint): Pair
    requires |j.w.sides| == 2 && Ordered(j.w, 0, 1) && Ordered(j.w, 1, 0)
  {
    Pair(j.a.(queue := j.a.queue + Carried(c, j.w, 1, 0) + j.outB),
         j.b.(queue := j.b.queue + Carried(c, j.w, 0, 1) + j.outA))
  }

  /** An end does the same whatever else is on its way to it. */
  lemma ActedMore(x: End, act: Act, rest: seq<Frame>)
    requires !act.LoseAt? && Can(x, act)
    ensures Can(x.(queue := x.queue + rest), act)
    ensures var (x', frames) := Acted(x, act);
            Acted(x.(queue := x.queue + rest), act) == (x'.(queue := x'.queue + rest), frames)
  {
    hide OnAccepted, OnRead, OnPeerFrame, Maps, Draws, Opens, Tunnels.Grown, Given;
    if act.RecvAt? {
      assert (x.queue + rest)[0] == x.queue[0] && (x.queue + rest)[1..] == x.queue[1..] + rest;
    }
  }

  lemma Regroup(x: seq<Frame>, y: seq<Frame>, z: seq<Frame>)
    ensures x + y + z == x + (y + z)
  {
  }

  lemma EngineASeen(c: Codec, box: SecretBox, j: Joint, act: Act)
    requires Sound(box, j) && Enabled(c, box, j, EngineActs(act)) && act.atA
    ensures var j' := Next(c, box, j, EngineActs(act));
            && Sound(box, j') && Pairs.Enabled(Seen(c, j), act) && Pairs.Next(Seen(c, j), act) == Seen(c, j')
  {
    hide Acted, Can, Carried, Sessions.Safe, Ordered;
    var toA, toB := Carried(c, j.w, 1, 0), Carried(c, j.w, 0, 1);
    ActedMore(j.a, act, toA + j.outB);
    var (x, frames) := Acted(j.a, act);
    Regroup(j.a.queue, toA, j.outB);
    Regroup(x.queue, toA, j.outB);
    Regroup(j.b.queue + toB, j.outA, frames);
  }

  lemma EngineBSeen(c: Codec, box: SecretBox, j: Joint, act: Act)
    requires Sound(box, j) && Enabled(c, box, j, EngineActs(act)) && !act.atA
    ensures var j' := Next(c, box, j, EngineActs(act));
            && Sound(box, j') && Pairs.Enabled(Seen(c, j), act) && Pairs.Next(Seen(c, j), act) == Seen(c, j')
  {
    hide Acted, Can, Carried, Sessions.Safe, Ordered;
    var toA, toB := Carried(c, j.w, 1, 0), Carried(c, j.w, 0, 1);
    ActedMore(j.b, act, toB + j.outA);
    var (x, frames) := Acted(j.b, act);
    Regroup(j.b.queue, toB, j.outA);
    Regroup(x.queue, toB, j.outA);
    Regroup(j.a.queue + toA, j.outB, frames);
  }

  lemma WithoutLate(x: seq<Frame>, y: seq<Frame>, z: seq<Frame>, i: nat)
    requires i < |z|
    ensures Without(x + y + z, |x| + |y| + i) == x + y + Without(z, i)
  {
  }

  /** The loss of the frame at `i` among those still to be written. */
  ghost function Lost(c: Codec, j: Joint, atA: bool, i: nat): Act
    requires |j.w.sides| == 2 && Ordered(j.w, 0, 1) && Ordered(j.w, 1, 0)
  {
    if atA then LoseAt(false, |j.b.queue| + |Carried(c, j.w, 0, 1)| + i)
    else LoseAt(true, |j.a.queue| + |Carried(c, j.w, 1, 0)| + i)
  }

  lemma LossSeen(c: Codec, box: SecretBox, j: Joint, atA: bool, i: nat)
    requires Sound(box, j) && Enabled(c, box, j, GiveUp(atA, i))
    ensures var j', act := Next(c, box, j, GiveUp(atA, i)), Lost(c, j, atA, i);
            && Sound(box, j') && Pairs.Enabled(Seen(c, j), act) && Pairs.Next(Seen(c, j), act) == Seen(c, j')
  {
    hide Carried, Sessions.Safe, Ordered, Without;
    var toA, toB := Carried(c, j.w, 1, 0), Carried(c, j.w, 0, 1);
    if atA {
      WithoutLate(j.b.queue, toB, j.outA, i);
      assert Seen(c, j).a.queue + [] == Seen(c, j).a.queue;
    } else {
      WithoutLate(j.a.queue, toA, j.outB, i);
      assert Seen(c, j).b.queue + [] == Seen(c, j).b.queue;
    }
  }

  // ---- the session carries them ----

  /** A step of the session other than a delivery leaves what it carries, but for what it adds. */
  lemma CarriedOn(c: Codec, box: SecretBox, w: Sessions.World, a: Sessions.Action, i: nat, o: nat)
    requires Correct(box) && Sessions.Safe(box, w) && Sessions.Enabled(box, w, a) && Sessions.Ends(i, o)
    ensures Sessions.SocketsExist(w)
    ensures var w' := Sessions.Apply(box, w, a);
            && |w.sides| == |w'.sides| == 2 && Ordered(w, i, o) && Ordered(w', i, o)
            && var before, e := w.sides[o].ep.delivered, w'.sides[o].ep.delivered;
            && |before| <= |e|
            && Frames(c, e[|before|..]) + Carried(c, w', i, o) == Carried(c, w, i, o) + Frames(c, Adds(w, a, i))
  {
    StepIsQueueStep(box, w, a, i, o);
    var w' := Sessions.Apply(box, w, a);
    hide Sessions.Safe, Sessions.Enabled, Sessions.Apply, Sessions.SocketsExist, Sessions.Shape;
    var q, q' := InTransit(w.sides[i].ep, w.sides[o].ep), InTransit(w'.sides[i].ep, w'.sides[o].ep);
    var before, e := w.sides[o].ep.delivered, w'.sides[o].ep.delivered;
    hide InTransit, Ordered;
    if a.DeliverNext? && a.who == o {
      assert e[|before|..] == [q[0]] && q == [q[0]] + q[1..];
      FramesAppend(c, [q[0]], q[1..]);
      assert Frames(c, Adds(w, a, i)) == [];
      assert Frames(c, q) + [] == Frames(c, q);
    } else {
      assert e[|before|..] == [];
      FramesAppend(c, q, Adds(w, a, i));
      assert [] + Frames(c, q') == Frames(c, q');
    }
  }

  lemma OneFrame(c: Codec, m: Msg)
    ensures Frames(c, [m]) == if c.decode(m).Some? then [c.decode(m).value] else []
  {
    assert [m][1..] == [];
  }

  lemma AddsNoFrames(c: Codec, w: Sessions.World, a: Sessions.Action, i: nat)
    requires Sessions.Shape(w) && i < 2 && c.decode(PING).None?
    requires a.WriteMsg? && a.who == i ==> c.decode(a.m).None?
    ensures Frames(c, Adds(w, a, i)) == []
  {
    OneFrame(c, PING);
    if a.WriteMsg? {
      OneFrame(c, a.m);
    }
    hide WellFormed, WriteRefused, Pings;
  }

  lemma SessionSeen(c: Codec, box: SecretBox, j: Joint, action: Sessions.Action)
    requires Correct(box) && Sound(box, j) && Enabled(c, box, j, Session(action)) && c.decode(PING).None?
    ensures var j' := Next(c, box, j, Session(action)); Sound(box, j') && Seen(c, j') == Seen(c, j)
  {
    Sessions.StepKeeps(box, j.w, action);
    var j' := Next(c, box, j, Session(action));
    SafeSound(box, j');
    CarriedOn(c, box, j.w, action, 0, 1);
    CarriedOn(c, box, j.w, action, 1, 0);
    AddsNoFrames(c, j.w, action, 0);
    AddsNoFrames(c, j.w, action, 1);
    hide Sessions.Safe, Sessions.Enabled, Sessions.Apply, Sessions.SocketsExist, Ordered, Carried, Frames, Adds;
    var toA, toB := Carried(c, j.w, 1, 0), Carried(c, j.w, 0, 1);
    assert toA + [] == toA && toB + [] == toB;
    Regroup(j.a.queue, Frames(c, j'.w.sides[0].ep.delivered[|j.w.sides[0].ep.delivered|..]), Carried(c, j'.w, 1, 0));
    Regroup(j.b.queue, Frames(c, j'.w.sides[1].ep.delivered[|j.w.sides[1].ep.delivered|..]), Carried(c, j'.w, 0, 1));
  }

  ghost predicate IsRefused(c: Codec, j: Joint, atA: bool)
    requires Sessions.Shape(j.w) && Out(j, atA) != []
  {
    WriteRefused(j.w.sides[Side(atA)].ep, c.encode(Out(j, atA)[0]))
  }

  /** A write, to either end, adds its frame to what it is written for, unless it is refused. */
  lemma WriteCarries(c: Codec, box: SecretBox, w: Sessions.World, a: Sessions.Action, i: nat, o: nat)
    requires Correct(box) && Sessions.Safe(box, w) && Sessions.Enabled(box, w, a) && Sessions.Ends(i, o)
    requires a.WriteMsg? && a.who < 2
    ensures var w' := Sessions.Apply(box, w, a);
            && |w.sides| == |w'.sides| == 2 && Ordered(w, i, o) && Ordered(w', i, o)
            && Carried(c, w', i, o) ==
               Carried(c, w, i, o) +
               (if a.who == i && !WriteRefused(w.sides[i].ep, a.m) then Frames(c, [a.m]) else [])
  {
    CarriedOn(c, box, w, a, i, o);
    StepDelivers(box, w, a, o);
    var w', d := Sessions.Apply(box, w, a), w.sides[o].ep.delivered;
    hide Sessions.Safe, Sessions.Enabled, Sessions.Apply, Sessions.SocketsExist, Ordered, Carried, WriteRefused;
    assert d[|d|..] == [] && [] + Carried(c, w', i, o) == Carried(c, w', i, o);
  }

  /** What a write of the first frame does to what is carried, each way. */
  lemma SubmitCarries(c: Codec, box: SecretBox, j: Joint, atA: bool, refused: bool, now: int)
    requires Correct(box) && Sound(box, j) && Enabled(c, box, j, Submit(atA, refused, now))
    ensures var j' := Next(c, box, j, Submit(atA, refused, now));
            && Sound(box, j') && Sessions.Shape(j.w)
            && var i, o := Side(atA), 1 - Side(atA);
            && Carried(c, j'.w, o, i) == Carried(c, j.w, o, i)
            && Carried(c, j'.w, i, o) ==
               Carried(c, j.w, i, o) + (if IsRefused(c, j, atA) then [] else [Out(j, atA)[0]])
  {
    var i, o, a := Side(atA), 1 - Side(atA), Writing(c, j, atA, refused, now);
    hide Sessions.Safe, Sessions.Possible, Sessions.Disciplined, Sessions.Apply, Sessions.SocketsExist, Ordered;
    hide Carried, WriteRefused, WellFormed, Frames;
    Sessions.StepKeeps(box, j.w, a);
    SafeSound(box, Next(c, box, j, Submit(atA, refused, now)));
    WriteCarries(c, box, j.w, a, i, o);
    WriteCarries(c, box, j.w, a, o, i);
    OneFrame(c, a.m);
    assert Carried(c, j.w, o, i) + [] == Carried(c, j.w, o, i);
  }

  lemma Moves(x: seq<Frame>, y: seq<Frame>, z: seq<Frame>)
    requires z != []
    ensures x + (y + [z[0]]) + z[1..] == x + y + z
    ensures Without(x + y + z, |x| + |y|) == x + y + z[1..]
  {
  }

  lemma SubmitSeen(c: Codec, box: SecretBox, j: Joint, atA: bool, refused: bool, now: int)
    requires Correct(box) && Sound(box, j) && Enabled(c, box, j, Submit(atA, refused, now)) && c.decode(PING).None?
    ensures var j', act := Next(c, box, j, Submit(atA, refused, now)), Lost(c, j, atA, 0);
            && Sound(box, j') && Sessions.Shape(j.w)
            && if IsRefused(c, j, atA)
               then Pairs.Enabled(Seen(c, j), act) && Pairs.Next(Seen(c, j), act) == Seen(c, j')
               else Seen(c, j') == Seen(c, j)
  {
    hide Sessions.Safe, Sessions.Possible, Sessions.Disciplined, Sessions.Apply, Sessions.SocketsExist, Ordered;
    hide Carried, IsRefused, Without, Sessions.Shape;
    SubmitCarries(c, box, j, atA, refused, now);
    if atA {
      Moves(j.b.queue, Carried(c, j.w, 0, 1), j.outA);
      assert Carried(c, j.w, 0, 1) + [] == Carried(c, j.w, 0, 1);
      assert Seen(c, j).a.queue + [] == Seen(c, j).a.queue;
    } else {
      Moves(j.a.queue, Carried(c, j.w, 1, 0), j.outB);
      assert Carried(c, j.w, 1, 0) + [] == Carried(c, j.w, 1, 0);
      assert Seen(c, j).b.queue + [] == Seen(c, j).b.queue;
    }
  }

  // ---- every run ----

  /** Neither given up nor refused. */
  ghost predicate Spares(c: Codec, box: SecretBox, j: Joint, m: Move)
    requires Enabled(c, box, j, m)
  {
    !m.GiveUp? && (m.Submit? ==> !IsRefused(c, j, m.atA))
  }

  /** What a move is to the engines: their own acts, and one loss for each frame that is given up or
      whose write is refused. */
  ghost function ActsOf(c: Codec, box: SecretBox, j: Joint, m: Move): seq<Act>
    requires Sound(box, j) && Enabled(c, box, j, m)
  {
    match m
    case EngineActs(act) => [act]
    case GiveUp(atA, i) => [Lost(c, j, atA, i)]
    case Submit(atA, _, _) => if IsRefused(c, j, atA) then [Lost(c, j, atA, 0)] else []
    case Session(_) => []
  }

  /** Every move of the whole is an act of the pair or none, and a loss exactly when a frame is given
      up or its write refused. */
  lemma MoveSeen(c: Codec, box: SecretBox, j: Joint, m: Move)
    requires Correct(box) && Sound(box, j) && Enabled(c, box, j, m) && c.decode(PING).None?
    ensures Sound(box, Next(c, box, j, m))
    ensures var acts := ActsOf(c, box, j, m);
            && Pairs.Runs(Seen(c, j), acts) && Pairs.After(Seen(c, j), acts) == Seen(c, Next(c, box, j, m))
            && (NoneLost(acts) <==> Spares(c, box, j, m))
  {
    hide Pairs.Enabled, Pairs.Next, Next, Seen, Can, IsRefused, Sessions.Enabled, Sessions.SocketsExist, Carried;
    hide Sessions.Safe, Ordered;
    match m {
      case EngineActs(act) => if act.atA { EngineASeen(c, box, j, act); } else { EngineBSeen(c, box, j, act); }
      case GiveUp(atA, i) => LossSeen(c, box, j, atA, i);
      case Submit(atA, refused, now) => SubmitSeen(c, box, j, atA, refused, now);
      case Session(action) => SessionSeen(c, box, j, action);
    }
  }

  ghost predicate AllSpared(c: Codec, box: SecretBox, j: Joint, moves: seq<Move>)
    requires Runs(c, box, j, moves)
    decreases |moves|
  {
    moves == [] || (Spares(c, box, j, moves[0]) && AllSpared(c, box, Next(c, box, j, moves[0]), moves[1..]))
  }

  /** What a run is to the engines. */
  ghost function AllActs(c: Codec, box: SecretBox, j: Joint, moves: seq<Move>): seq<Act>
    requires Correct(box) && Sound(box, j) && Runs(c, box, j, moves) && c.decode(PING).None?
    decreases |moves|
  {
    if moves == [] then []
    else
      MoveSeen(c, box, j, moves[0]);
      ActsOf(c, box, j, moves[0]) + AllActs(c, box, Next(c, box, j, moves[0]), moves[1..])
  }

  lemma {:induction false} ActsThrough(p: Pair, acts: seq<Act>, more: seq<Act>)
    requires Pairs.Runs(p, acts) && Pairs.Runs(Pairs.After(p, acts), more)
    ensures Pairs.Runs(p, acts + more) && Pairs.After(p, acts + more) == Pairs.After(Pairs.After(p, acts), more)
    decreases |acts|
  {
    hide Pairs.Enabled, Pairs.Next;
    if acts == [] {
      assert acts + more == more;
    } else {
      assert (acts + more)[0] == acts[0] && (acts + more)[1..] == acts[1..] + more;
      ActsThrough(Pairs.Next(p, acts[0]), acts[1..], more);
    }
  }

  /** Every run of the whole is a run of the pair, with a loss exactly for what is not spared. */
  lemma {:induction false} RunSeen(c: Codec, box: SecretBox, j: Joint, moves: seq<Move>)
    requires Correct(box) && Sound(box, j) && Runs(c, box, j, moves) && c.decode(PING).None?
    ensures Sound(box, After(c, box, j, moves))
    ensures var acts := AllActs(c, box, j, moves);
            && Pairs.Runs(Seen(c, j), acts) && Pairs.After(Seen(c, j), acts) == Seen(c, After(c, box, j, moves))
            && (NoneLost(acts) <==> AllSpared(c, box, j, moves))
    decreases |moves|
  {
    hide Pairs.Enabled, Pairs.Next, Pairs.Runs, Pairs.After, Enabled, Next, Seen, Spares, Sessions.Safe, Ordered;
    hide NoneLost, ActsOf;
    if moves == [] {
      NothingActed(Seen(c, j));
    } else {
      var j' := Next(c, box, j, moves[0]);
      MoveSeen(c, box, j, moves[0]);
      RunSeen(c, box, j', moves[1..]);
      var first, rest := ActsOf(c, box, j, moves[0]), AllActs(c, box, j', moves[1..]);
      ActsThrough(Seen(c, j), first, rest);
      BothLost(first, rest);
    }
  }

  lemma NothingActed(p: Pair)
    ensures Pairs.Runs(p, []) && Pairs.After(p, []) == p && NoneLost([])
  {
  }

  lemma BothLost(acts: seq<Act>, more: seq<Act>)
    ensures NoneLost(acts + more) <==> NoneLost(acts) && NoneLost(more)
  {
    if NoneLost(acts + more) {
      assert forall k :: 0 <= k < |acts| ==> (acts + more)[k] == acts[k];
      assert forall k :: 0 <= k < |more| ==> (acts + more)[|acts| + k] == more[k];
    }
  }

  /** Over every run of the two engines and the session between them, whatever sockets die and however
      they are brought back: the tunnels of both ends keep their bytes, both ways, unless bytes were
      sent behind a frame that was given up or whose write was refused; and where no frame was,
      nothing is lost at all. The moves fix the acts of the engines and the frames lost, and these the
      steps of the tunnels. */
  lemma TunnelsOverSession(c: Codec, box: SecretBox, now: int, a: Config, b: Config, moves: seq<Move>)
    returns (stepsA: seq<Tunnels.Step>, stepsB: seq<Tunnels.Step>)
    requires Correct(box) && c.decode(PING).None? && Runs(c, box, Start(now, a, b), moves)
    ensures Sound(box, Start(now, a, b)) && Sound(box, After(c, box, Start(now, a, b), moves))
    ensures var acts := AllActs(c, box, Start(now, a, b), moves);
            && Follows(stepsA, acts, a, b) && Tunnels.Runs(Tunnels.Start(a.sources, b.sources), stepsA)
            && Follows(stepsB, AllTurned(acts), b, a) && Tunnels.Runs(Tunnels.Start(b.sources, a.sources), stepsB)
    ensures var p := Seen(c, After(c, box, Start(now, a, b), moves));
            var fromA := Tunnels.After(Tunnels.Start(a.sources, b.sources), stepsA);
            var fromB := Tunnels.After(Tunnels.Start(b.sources, a.sources), stepsB);
            && Tracks(p, fromA) && AllKeep(p, fromA) && Tracks(Mirror(p), fromB) && AllKeep(Mirror(p), fromB)
            && (AllSpared(c, box, Start(now, a, b), moves) ==> Intact(fromA) && Intact(fromB))
  {
    var j0 := Start(now, a, b);
    Sessions.StartInv(box, now);
    SafeSound(box, j0);
    StartSeen(c, now, a, b);
    hide Runs, After, Start, Pairs.Runs, Pairs.After, Pairs.Start, Seen, Tracks, AllKeep, Intact, AllSpared;
    hide Sessions.Safe, Ordered, Mirror, Follows, AllActs, Tunnels.Start, Tunnels.Runs, Tunnels.After;
    RunSeen(c, box, j0, moves);
    stepsA, stepsB := BothWaysKeepTheirBytes(a, b, AllActs(c, box, j0, moves));
  }

  lemma StartSeen(c: Codec, now: int, a: Config, b: Config)
    ensures var j := Start(now, a, b);
            && |j.w.sides| == 2 && Ordered(j.w, 0, 1) && Ordered(j.w, 1, 0)
            && Seen(c, j) == Pairs.Start(a, b)
  {
  }

  /** Where no frame was given up and no write refused, every open tunnel of either end carries
      everything through all outages: what is queued at one end, delivered, in transit or still to be
      written is together what was read at the other. */
  lemma OpenTunnelsCarryOverSession(c: Codec, box: SecretBox, now: int, a: Config, b: Config, moves: seq<Move>, id: U32)
    requires Correct(box) && c.decode(PING).None? && Runs(c, box, Start(now, a, b), moves)
    requires AllSpared(c, box, Start(now, a, b), moves)
    ensures Sound(box, After(c, box, Start(now, a, b), moves))
    ensures var p := Seen(c, After(c, box, Start(now, a, b), moves));
            && (id in p.a.engine.sourceConnIds ==> Carries(p, id))
            && (id in p.b.engine.sourceConnIds ==> Carries(Mirror(p), id))
  {
    var j0 := Start(now, a, b);
    Sessions.StartInv(box, now);
    SafeSound(box, j0);
    StartSeen(c, now, a, b);
    hide Runs, After, Start, Pairs.Runs, Pairs.After, Pairs.Start, Seen, AllSpared, Sessions.Safe, Ordered, AllActs;
    hide Carries, NoneLost;
    RunSeen(c, box, j0, moves);
    OpenTunnelsCarry(a, b, AllActs(c, box, j0, moves), id);
  }
}
