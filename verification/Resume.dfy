/** Safety says what a recover never does. This is the other half: from every state the two-party
    machine can reach, two peers that can serve each other bring the stream back together. */
module Resumes {
  import opened Bytes
  import opened Crypto
  import opened Endpoints
  import opened Sessions

  ghost predicate Leads(box: SecretBox, w: World, acts: seq<Action>, w': World) {
    Runs(box, w, acts) && After(box, w, acts) == w'
  }

  lemma {:induction false} LeadsOn(box: SecretBox, w: World, acts: seq<Action>, w1: World, a: Action)
    requires Leads(box, w, acts, w1) && Enabled(box, w1, a) && SocketsExist(w1)
    ensures Leads(box, w, acts + [a], Apply(box, w1, a))
    decreases |acts|
  {
    hide Shape, Possible, Disciplined, Apply, SocketsExist;
    if acts == [] {
      assert acts + [a] == [a] && [a][0] == a && [a][1..] == [];
      assert Leads(box, Apply(box, w1, a), [], Apply(box, w1, a));
      assert Runs(box, w1, [a]);
    } else {
      LeadsOn(box, Apply(box, w, acts[0]), acts[1..], w1, a);
      assert (acts + [a])[0] == acts[0] && (acts + [a])[1..] == acts[1..] + [a];
    }
  }

  /** A world with one more socket, whose streams are `a` towards side 0 and `b` towards side 1. */
  function Joined(w: World, s0: Side, s1: Side, a: Stream, b: Stream): World {
    World([s0, s1], w.wires + [[a, b]])
  }

  /** Both ends serve, have delivered everything they received, and back up fewer than 2^32 packets. */
  ghost predicate AtRest(w: World) {
    && |w.sides| == 2
    && var e0, e1 := w.sides[0].ep, w.sides[1].ep;
    && w.sides[0].mode.Serving? && w.sides[1].mode.Serving?
    && !e0.shuttingDown && !e1.shuttingDown && e0.inbox == [] && e1.inbox == []
    && |e0.accepted| - e0.floor < 0x1_0000_0000 && |e1.accepted| - e1.floor < 0x1_0000_0000
  }

  /** Each end can answer the other's header. */
  ghost predicate Answerable(box: SecretBox, w: World)
    requires |w.sides| == 2
  {
    var e0, e1 := w.sides[0].ep, w.sides[1].ep;
    Catchup(box, e0, SequenceHeader(e1)).Some? && Catchup(box, e1, SequenceHeader(e0)).Some?
  }

  /** The answer that side `d` is given is one it will read. */
  ghost predicate Readable(box: SecretBox, w: World, d: nat, s: nat)
    requires |w.sides| == 2 && Ends(d, s) && Answerable(box, w)
  {
    CatchupFits(Catchup(box, w.sides[s].ep, SequenceHeader(w.sides[d].ep)).value)
  }

  /** Both ends are ready to recover, and can give each other what is missing. */
  ghost predicate Ready(box: SecretBox, w: World) {
    AtRest(w) && Answerable(box, w) && Readable(box, w, 0, 1) && Readable(box, w, 1, 0)
  }

  lemma JoinedShape(w: World, s0: Side, s1: Side, a: Stream, b: Stream)
    requires Shape(w) && SocketsExist(w) && WellFormed(s0.ep) && WellFormed(s1.ep)
    requires a.taken <= |a.sent| && b.taken <= |b.sent|
    requires s0.ep.live == w.sides[0].ep.live || s0.ep.live == Some(|w.wires|)
    requires s1.ep.live == w.sides[1].ep.live || s1.ep.live == Some(|w.wires|)
    ensures Shape(Joined(w, s0, s1, a, b)) && SocketsExist(Joined(w, s0, s1, a, b))
  {
    hide WellFormed;
  }

  lemma JoinedPut(w: World, s0: Side, s1: Side, a: Stream, b: Stream, s: Side, st: Stream)
    ensures WithSide(Joined(w, s0, s1, a, b), 0, s) == Joined(w, s, s1, a, b)
    ensures WithSide(Joined(w, s0, s1, a, b), 1, s) == Joined(w, s0, s, a, b)
    ensures WithStream(Joined(w, s0, s1, a, b), |w.wires|, 0, st) == Joined(w, s0, s1, st, b)
    ensures WithStream(Joined(w, s0, s1, a, b), |w.wires|, 1, st) == Joined(w, s0, s1, a, st)
  {
    var wires := w.wires + [[a, b]];
    assert wires[|w.wires| := [st, b]] == w.wires + [[st, b]];
    assert wires[|w.wires| := [a, st]] == w.wires + [[a, st]];
    assert [a, b][0 := st] == [st, b] && [a, b][1 := st] == [a, st];
    assert [s0, s1][0 := s] == [s, s1] && [s0, s1][1 := s] == [s0, s];
  }

  // ---- the seven steps of a resume ----

  lemma ConnectStep(box: SecretBox, w: World)
    requires Shape(w) && SocketsExist(w)
    ensures Enabled(box, w, Connect)
    ensures Apply(box, w, Connect) == Joined(w, w.sides[0], w.sides[1], Stream([], 0), Stream([], 0))
  {
    hide WellFormed;
    assert [w.sides[0], w.sides[1]] == w.sides;
  }

  lemma BeginStep0(box: SecretBox, w: World, s0: Side, s1: Side, a: Stream)
    requires Shape(Joined(w, s0, s1, a, Stream([], 0))) && SocketsExist(Joined(w, s0, s1, a, Stream([], 0)))
    requires s0.mode.Serving? && !s0.ep.shuttingDown && s0.ep.inbox == [] && |w.wires| > 0
    ensures var j, c := Joined(w, s0, s1, a, Stream([], 0)), |w.wires|;
            && Enabled(box, j, BeginRecover(0, c))
            && Apply(box, j, BeginRecover(0, c)) ==
               Joined(w, s0.(mode := AwaitHeader(c)), s1, a, Stream([HeaderItem(SequenceHeader(s0.ep))], 0))
  {
    var st := Stream([HeaderItem(SequenceHeader(s0.ep))], 0);
    JoinedPut(w, s0, s1, a, Stream([], 0), s0.(mode := AwaitHeader(|w.wires|)), st);
    JoinedPut(w, s0.(mode := AwaitHeader(|w.wires|)), s1, a, Stream([], 0), s0, st);
    hide WellFormed, SequenceHeader;
    assert [] + [HeaderItem(SequenceHeader(s0.ep))] == [HeaderItem(SequenceHeader(s0.ep))];
  }

  lemma BeginStep1(box: SecretBox, w: World, s0: Side, s1: Side, b: Stream)
    requires Shape(Joined(w, s0, s1, Stream([], 0), b)) && SocketsExist(Joined(w, s0, s1, Stream([], 0), b))
    requires s1.mode.Serving? && !s1.ep.shuttingDown && s1.ep.inbox == [] && |w.wires| > 0
    ensures var j, c := Joined(w, s0, s1, Stream([], 0), b), |w.wires|;
            && Enabled(box, j, BeginRecover(1, c))
            && Apply(box, j, BeginRecover(1, c)) ==
               Joined(w, s0, s1.(mode := AwaitHeader(c)), Stream([HeaderItem(SequenceHeader(s1.ep))], 0), b)
  {
    var st := Stream([HeaderItem(SequenceHeader(s1.ep))], 0);
    JoinedPut(w, s0, s1, Stream([], 0), b, s1.(mode := AwaitHeader(|w.wires|)), st);
    JoinedPut(w, s0, s1.(mode := AwaitHeader(|w.wires|)), Stream([], 0), b, s1, st);
    hide WellFormed, SequenceHeader;
    assert [] + [HeaderItem(SequenceHeader(s1.ep))] == [HeaderItem(SequenceHeader(s1.ep))];
  }

  lemma AnswerStep0(box: SecretBox, w: World, s0: Side, s1: Side, n: Int32, b: Stream)
    requires var a := Stream([HeaderItem(n)], 0);
             Shape(Joined(w, s0, s1, a, b)) && SocketsExist(Joined(w, s0, s1, a, b))
    requires s0.mode == AwaitHeader(|w.wires|) && !s0.ep.shuttingDown && Catchup(box, s0.ep, n).Some?
    requires |s0.ep.accepted| - s0.ep.floor < 0x1_0000_0000
    ensures var j := Joined(w, s0, s1, Stream([HeaderItem(n)], 0), b);
            && Enabled(box, j, AnswerHeader(0))
            && Apply(box, j, AnswerHeader(0)) ==
               Joined(w, s0.(mode := AwaitCatchup(|w.wires|)), s1, Stream([HeaderItem(n)], 1),
                      b.(sent := b.sent + [CatchupItem(Catchup(box, s0.ep, n).value)]))
  {
    var a, a', s0' := Stream([HeaderItem(n)], 0), Stream([HeaderItem(n)], 1), s0.(mode := AwaitCatchup(|w.wires|));
    var b' := b.(sent := b.sent + [CatchupItem(Catchup(box, s0.ep, n).value)]);
    JoinedPut(w, s0, s1, a, b, s0', a');
    JoinedPut(w, s0', s1, a, b, s0', a');
    JoinedPut(w, s0', s1, a', b, s0', b');
    hide WellFormed, Catchup;
  }

  /** Side 1 answers after side 0 has. */
  lemma AnswerLate1(box: SecretBox, w: World, s0: Side, s1: Side, a: Stream, n: Int32, theirs: seq<ByteString>)
    requires var b := Stream([HeaderItem(n), CatchupItem(theirs)], 0);
             Shape(Joined(w, s0, s1, a, b)) && SocketsExist(Joined(w, s0, s1, a, b))
    requires s1.mode == AwaitHeader(|w.wires|) && !s1.ep.shuttingDown && Catchup(box, s1.ep, n).Some?
    requires |s1.ep.accepted| - s1.ep.floor < 0x1_0000_0000
    ensures var j := Joined(w, s0, s1, a, Stream([HeaderItem(n), CatchupItem(theirs)], 0));
            && Enabled(box, j, AnswerHeader(1))
            && Apply(box, j, AnswerHeader(1)) ==
               Joined(w, s0, s1.(mode := AwaitCatchup(|w.wires|)),
                      a.(sent := a.sent + [CatchupItem(Catchup(box, s1.ep, n).value)]),
                      Stream([HeaderItem(n), CatchupItem(theirs)], 1))
  {
    var sent, s1' := [HeaderItem(n), CatchupItem(theirs)], s1.(mode := AwaitCatchup(|w.wires|));
    var b, b' := Stream(sent, 0), Stream(sent, 1);
    var a' := a.(sent := a.sent + [CatchupItem(Catchup(box, s1.ep, n).value)]);
    JoinedPut(w, s0, s1, a, b, s1', b');
    JoinedPut(w, s0, s1', a, b, s1', b');
    JoinedPut(w, s0, s1', a, b', s1', a');
    hide WellFormed, Catchup;
  }

  lemma FinishStep0(box: SecretBox, w: World, s0: Side, s1: Side, n: Int32, entries: seq<ByteString>, b: Stream,
                    now: int)
    requires var a := Stream([HeaderItem(n), CatchupItem(entries)], 1);
             Shape(Joined(w, s0, s1, a, b)) && SocketsExist(Joined(w, s0, s1, a, b))
    requires s0.mode == AwaitCatchup(|w.wires|) && !s0.ep.shuttingDown && CatchupFits(entries)
    ensures var j := Joined(w, s0, s1, Stream([HeaderItem(n), CatchupItem(entries)], 1), b);
            && Enabled(box, j, FinishRecover(0, now))
            && Apply(box, j, FinishRecover(0, now)) ==
               Joined(w, Side(Revive(s0.ep, entries, |w.wires|, now), Serving), s1,
                      Stream([HeaderItem(n), CatchupItem(entries)], 2), b)
  {
    var a, a' := Stream([HeaderItem(n), CatchupItem(entries)], 1), Stream([HeaderItem(n), CatchupItem(entries)], 2);
    var s0' := Side(Revive(s0.ep, entries, |w.wires|, now), Serving);
    JoinedPut(w, s0, s1, a, b, s0', a');
    JoinedPut(w, s0', s1, a, b, s0', a');
    hide WellFormed, Revive, CatchupFits;
  }

  lemma FinishStep1(box: SecretBox, w: World, s0: Side, s1: Side, a: Stream, n: Int32, entries: seq<ByteString>,
                    now: int)
    requires var b := Stream([HeaderItem(n), CatchupItem(entries)], 1);
             Shape(Joined(w, s0, s1, a, b)) && SocketsExist(Joined(w, s0, s1, a, b))
    requires s1.mode == AwaitCatchup(|w.wires|) && !s1.ep.shuttingDown && CatchupFits(entries)
    ensures var j := Joined(w, s0, s1, a, Stream([HeaderItem(n), CatchupItem(entries)], 1));
            && Enabled(box, j, FinishRecover(1, now))
            && Apply(box, j, FinishRecover(1, now)) ==
               Joined(w, s0, Side(Revive(s1.ep, entries, |w.wires|, now), Serving), a,
                      Stream([HeaderItem(n), CatchupItem(entries)], 2))
  {
    var b, b' := Stream([HeaderItem(n), CatchupItem(entries)], 1), Stream([HeaderItem(n), CatchupItem(entries)], 2);
    var s1' := Side(Revive(s1.ep, entries, |w.wires|, now), Serving);
    JoinedPut(w, s0, s1, a, b, s1', b');
    JoinedPut(w, s0, s1', a, b, s1', b');
    hide WellFormed, Revive, CatchupFits;
  }

  /** The exchange in one piece. */
  ghost function Resumed(box: SecretBox, w: World, now: int): World
    requires AtRest(w) && Answerable(box, w)
  {
    var e0, e1, c := w.sides[0].ep, w.sides[1].ep, |w.wires|;
    var n0, n1 := SequenceHeader(e0), SequenceHeader(e1);
    var c0, c1 := Catchup(box, e0, n1).value, Catchup(box, e1, n0).value;
    Joined(w, Side(Revive(e0, c1, c, now), Serving), Side(Revive(e1, c0, c, now), Serving),
           Stream([HeaderItem(n1), CatchupItem(c1)], 2), Stream([HeaderItem(n0), CatchupItem(c0)], 2))
  }

  /** Both headers are out and side 0 has answered. */
  ghost function Halfway(box: SecretBox, w: World): World
    requires AtRest(w) && Answerable(box, w)
  {
    var s0, s1, c := w.sides[0], w.sides[1], |w.wires|;
    var n0, n1 := SequenceHeader(s0.ep), SequenceHeader(s1.ep);
    Joined(w, s0.(mode := AwaitCatchup(c)), s1.(mode := AwaitHeader(c)), Stream([HeaderItem(n1)], 1),
           Stream([HeaderItem(n0), CatchupItem(Catchup(box, s0.ep, n1).value)], 0))
  }

  lemma ReachesHalfway(box: SecretBox, w: World) returns (acts: seq<Action>)
    requires Shape(w) && SocketsExist(w) && |w.wires| > 0 && AtRest(w) && Answerable(box, w)
    ensures Leads(box, w, acts, Halfway(box, w))
  {
    var s0, s1, c := w.sides[0], w.sides[1], |w.wires|;
    var n0, n1 := SequenceHeader(s0.ep), SequenceHeader(s1.ep);
    var none, h0, h1 := Stream([], 0), Stream([HeaderItem(n0)], 0), Stream([HeaderItem(n1)], 0);
    var t0, t1 := s0.(mode := AwaitHeader(c)), s1.(mode := AwaitHeader(c));
    assert Leads(box, w, [], w);
    hide Leads, Enabled, Apply, WellFormed, Catchup, SequenceHeader, SocketsExist, Joined;
    ConnectStep(box, w);
    LeadsOn(box, w, [], w, Connect);
    acts := [] + [Connect];
    JoinedShape(w, s0, s1, none, none);
    JoinedShape(w, t0, s1, none, h0);
    JoinedShape(w, t0, t1, h1, h0);
    hide Shape;
    BeginStep0(box, w, s0, s1, none);
    LeadsOn(box, w, acts, Joined(w, s0, s1, none, none), BeginRecover(0, c));
    acts := acts + [BeginRecover(0, c)];
    BeginStep1(box, w, t0, s1, h0);
    LeadsOn(box, w, acts, Joined(w, t0, s1, none, h0), BeginRecover(1, c));
    acts := acts + [BeginRecover(1, c)];
    AnswerStep0(box, w, t0, t1, n1, h0);
    LeadsOn(box, w, acts, Joined(w, t0, t1, h1, h0), AnswerHeader(0));
    acts := acts + [AnswerHeader(0)];
    var item := CatchupItem(Catchup(box, s0.ep, n1).value);
    assert [HeaderItem(n0)] + [item] == [HeaderItem(n0), item];
  }

  /** Both sides have answered and neither has read the other's answer. */
  ghost function BothAnswered(box: SecretBox, w: World): World
    requires AtRest(w) && Answerable(box, w)
  {
    var s0, s1, c := w.sides[0], w.sides[1], |w.wires|;
    var n0, n1 := SequenceHeader(s0.ep), SequenceHeader(s1.ep);
    var c0, c1 := Catchup(box, s0.ep, n1).value, Catchup(box, s1.ep, n0).value;
    Joined(w, s0.(mode := AwaitCatchup(c)), s1.(mode := AwaitCatchup(c)),
           Stream([HeaderItem(n1), CatchupItem(c1)], 1), Stream([HeaderItem(n0), CatchupItem(c0)], 1))
  }

  lemma ReachesBothAnswered(box: SecretBox, w: World) returns (acts: seq<Action>)
    requires Shape(w) && SocketsExist(w) && |w.wires| > 0 && AtRest(w) && Answerable(box, w)
    ensures Leads(box, w, acts, BothAnswered(box, w))
  {
    var s0, s1, c := w.sides[0], w.sides[1], |w.wires|;
    var n0, n1 := SequenceHeader(s0.ep), SequenceHeader(s1.ep);
    var c0, c1 := Catchup(box, s0.ep, n1).value, Catchup(box, s1.ep, n0).value;
    var t1, u0 := s1.(mode := AwaitHeader(c)), s0.(mode := AwaitCatchup(c));
    var a1, b1 := Stream([HeaderItem(n1)], 1), Stream([HeaderItem(n0), CatchupItem(c0)], 0);
    acts := ReachesHalfway(box, w);
    hide Leads, Enabled, Apply, WellFormed, Catchup, SequenceHeader, SocketsExist;
    JoinedShape(w, u0, t1, a1, b1);
    hide Shape, Joined;
    AnswerLate1(box, w, u0, t1, a1, n0, c0);
    LeadsOn(box, w, acts, Joined(w, u0, t1, a1, b1), AnswerHeader(1));
    acts := acts + [AnswerHeader(1)];
    assert [HeaderItem(n1)] + [CatchupItem(c1)] == [HeaderItem(n1), CatchupItem(c1)];
  }

  /** Side `d` can come up as soon as it can read its answer, whatever becomes of the other. */
  lemma ComesUp(box: SecretBox, w: World, d: nat, s: nat, now: int) returns (acts: seq<Action>, w': World)
    requires Shape(w) && SocketsExist(w) && |w.wires| > 0 && AtRest(w) && Answerable(box, w)
    requires Ends(d, s) && Readable(box, w, d, s)
    ensures Leads(box, w, acts, w') && |w'.sides| == 2 && w'.sides[d].ep.live == Some(|w.wires|)
  {
    var s0, s1, c := w.sides[0], w.sides[1], |w.wires|;
    var n0, n1 := SequenceHeader(s0.ep), SequenceHeader(s1.ep);
    var c0, c1 := Catchup(box, s0.ep, n1).value, Catchup(box, s1.ep, n0).value;
    var u0, u1 := s0.(mode := AwaitCatchup(c)), s1.(mode := AwaitCatchup(c));
    var a2, b2 := Stream([HeaderItem(n1), CatchupItem(c1)], 1), Stream([HeaderItem(n0), CatchupItem(c0)], 1);
    acts := ReachesBothAnswered(box, w);
    hide Leads, Enabled, Apply, WellFormed, Catchup, SequenceHeader, SocketsExist, CatchupFits;
    JoinedShape(w, u0, u1, a2, b2);
    hide Shape;
    if d == 0 {
      FinishStep0(box, w, u0, u1, n1, c1, b2, now);
    } else {
      FinishStep1(box, w, u0, u1, a2, n0, c0, now);
    }
    LeadsOn(box, w, acts, Joined(w, u0, u1, a2, b2), FinishRecover(d, now));
    w' := Apply(box, Joined(w, u0, u1, a2, b2), FinishRecover(d, now));
    acts := acts + [FinishRecover(d, now)];
  }

  lemma ReachesResumed(box: SecretBox, w: World, now: int) returns (acts: seq<Action>)
    requires Shape(w) && SocketsExist(w) && |w.wires| > 0 && Ready(box, w)
    ensures Leads(box, w, acts, Resumed(box, w, now))
  {
    var s0, s1, c := w.sides[0], w.sides[1], |w.wires|;
    var n0, n1 := SequenceHeader(s0.ep), SequenceHeader(s1.ep);
    var c0, c1 := Catchup(box, s0.ep, n1).value, Catchup(box, s1.ep, n0).value;
    var u0, u1 := s0.(mode := AwaitCatchup(c)), s1.(mode := AwaitCatchup(c));
    var v0 := Side(Revive(s0.ep, c1, c, now), Serving);
    var a2, b2 := Stream([HeaderItem(n1), CatchupItem(c1)], 1), Stream([HeaderItem(n0), CatchupItem(c0)], 1);
    var a3 := a2.(taken := 2);
    ReviveKeeps(s0.ep, c1, c, now);
    acts := ReachesBothAnswered(box, w);
    hide Leads, Enabled, Apply, WellFormed, Catchup, SequenceHeader, SocketsExist, CatchupFits;
    JoinedShape(w, u0, u1, a2, b2);
    JoinedShape(w, v0, u1, a3, b2);
    hide Shape, Joined;
    FinishStep0(box, w, u0, u1, n1, c1, b2, now);
    LeadsOn(box, w, acts, Joined(w, u0, u1, a2, b2), FinishRecover(0, now));
    acts := acts + [FinishRecover(0, now)];
    FinishStep1(box, w, v0, u1, a3, n0, c0, now);
    LeadsOn(box, w, acts, Joined(w, v0, u1, a3, b2), FinishRecover(1, now));
    acts := acts + [FinishRecover(1, now)];
  }

  // ---- and then everything is delivered ----

  lemma {:induction false} LeadsThrough(box: SecretBox, w: World, acts: seq<Action>, w1: World, more: seq<Action>,
                                        w2: World)
    requires Leads(box, w, acts, w1) && Leads(box, w1, more, w2)
    ensures Leads(box, w, acts + more, w2)
    decreases |acts|
  {
    hide Shape, Possible, Disciplined, Apply, SocketsExist;
    if acts == [] {
      assert acts + more == more;
    } else {
      LeadsThrough(box, Apply(box, w, acts[0]), acts[1..], w1, more, w2);
      assert (acts + more)[0] == acts[0] && (acts + more)[1..] == acts[1..] + more;
    }
  }

  /** Only side `i` is different, and only in what it has delivered. */
  ghost predicate OnlyDelivers(w: World, w': World, i: nat, o: nat)
    requires |w.sides| == 2 && Ends(i, o)
  {
    && |w'.sides| == 2 && w'.wires == w.wires && w'.sides[o] == w.sides[o]
    && var e, e' := w.sides[i].ep, w'.sides[i].ep;
    && w'.sides[i].mode == w.sides[i].mode
    && e'.live == e.live && e'.accepted == e.accepted && e'.shuttingDown == e.shuttingDown
    && e'.floor == e.floor && e'.outMsb == e.outMsb
    && |e'.delivered| + |e'.inbox| == |e.delivered| + |e.inbox|
  }

  lemma DeliverStep(box: SecretBox, w: World, i: nat, o: nat, now: int)
    requires Correct(box) && Safe(box, w) && Ends(i, o) && SocketsExist(w)
    requires w.sides[i].mode.Serving? && !w.sides[i].ep.shuttingDown && w.sides[i].ep.inbox != []
    ensures Enabled(box, w, DeliverNext(i, now))
    ensures var w' := Apply(box, w, DeliverNext(i, now));
            && Safe(box, w') && OnlyDelivers(w, w', i, o)
            && |w'.sides[i].ep.inbox| == |w.sides[i].ep.inbox| - 1
  {
    hide Flow, Books, WellFormed, Opened;
    StepKeeps(box, w, DeliverNext(i, now));
    hide Inv;
    NeverMismatched(box, Apply(box, w, DeliverNext(i, now)), i, o);
  }

  lemma NeverMismatched(box: SecretBox, w: World, i: nat, o: nat)
    requires Inv(box, w) && Ends(i, o)
    ensures |w.sides| == 2 && !w.sides[i].ep.mismatch
  {
    hide LivePart, ExchangePart, Books, WellFormed, LogOf;
  }

  lemma {:induction false} DeliversAll(box: SecretBox, w: World, i: nat, o: nat, now: int)
    returns (acts: seq<Action>, w': World)
    requires Correct(box) && Safe(box, w) && Ends(i, o)
    requires w.sides[i].mode.Serving? && !w.sides[i].ep.shuttingDown
    ensures Leads(box, w, acts, w') && Safe(box, w') && OnlyDelivers(w, w', i, o)
    ensures w'.sides[i].ep.inbox == []
    decreases |w.sides[i].ep.inbox|
  {
    InvSockets(box, w);
    if w.sides[i].ep.inbox == [] {
      acts, w' := [], w;
      hide Inv;
    } else {
      DeliverStep(box, w, i, o, now);
      var w1 := Apply(box, w, DeliverNext(i, now));
      assert Leads(box, w, [], w);
      hide Inv, Apply, Enabled, Leads;
      LeadsOn(box, w, [], w, DeliverNext(i, now));
      var more;
      more, w' := DeliversAll(box, w1, i, o, now);
      LeadsThrough(box, w, [] + [DeliverNext(i, now)], w1, more, w');
      acts := [] + [DeliverNext(i, now)] + more;
    }
  }

  lemma SocketsGrow(box: SecretBox, w: World, a: Action)
    requires Enabled(box, w, a) && SocketsExist(w)
    ensures |Apply(box, w, a).wires| >= |w.wires|
  {
    hide WellFormed, Catchup, Write, Tick, Deliver, Revive, SealedAt, SequenceHeader, CloseSocket, Disciplined;
  }

  lemma {:induction false} AlwaysSockets(box: SecretBox, w: World, acts: seq<Action>)
    requires Runs(box, w, acts)
    ensures |After(box, w, acts).wires| >= |w.wires|
    decreases |acts|
  {
    hide Shape, Possible, Disciplined, Apply, SocketsExist;
    if acts != [] {
      SocketsGrow(box, w, acts[0]);
      AlwaysSockets(box, Apply(box, w, acts[0]), acts[1..]);
    }
  }

  /** From every reachable state in which both ends serve with empty inboxes and can answer each
      other's headers with catch-ups that are read, a resume over a new socket is possible that leaves
      both on it with everything the other ever accepted delivered, in order. */
  lemma ResumeRestores(box: SecretBox, start: int, before: seq<Action>, now: int)
    returns (acts: seq<Action>, w': World)
    requires Correct(box) && Runs(box, Start(start), before)
    requires Ready(box, After(box, Start(start), before))
    ensures var w := After(box, Start(start), before);
            && Leads(box, w, acts, w')
            && |w'.sides| == 2
            && w'.sides[0].ep.delivered == w.sides[1].ep.accepted
            && w'.sides[1].ep.delivered == w.sides[0].ep.accepted
            && w'.sides[0].ep.live == Some(|w.wires|) && w'.sides[1].ep.live == Some(|w.wires|)
  {
    var w := After(box, Start(start), before);
    StartInv(box, start);
    RunKeeps(box, Start(start), before);
    AlwaysSockets(box, Start(start), before);
    InvSockets(box, w);
    acts, w' := ResumeFrom(box, w, now);
    hide Inv, Runs, After, Leads, Ready;
  }

  lemma ResumeFrom(box: SecretBox, w: World, now: int) returns (acts: seq<Action>, w': World)
    requires Correct(box) && Safe(box, w) && SocketsExist(w) && |w.wires| > 0 && Ready(box, w)
    ensures Leads(box, w, acts, w') && |w'.sides| == 2
    ensures w'.sides[0].ep.delivered == w.sides[1].ep.accepted
    ensures w'.sides[1].ep.delivered == w.sides[0].ep.accepted
    ensures w'.sides[0].ep.live == Some(|w.wires|) && w'.sides[1].ep.live == Some(|w.wires|)
  {
    var c, w1 := |w.wires|, Resumed(box, w, now);
    acts := ReachesResumed(box, w, now);
    assert Safe(box, w1) by { RunKeeps(box, w, acts); }
    assert w1.wires[c][0].taken == |w1.wires[c][0].sent| && w1.wires[c][1].taken == |w1.wires[c][1].sent|;
    hide Inv, Leads, Catchup, SequenceHeader;
    var more0, w2 := DeliversAll(box, w1, 0, 1, now);
    var more1;
    more1, w' := DeliversAll(box, w2, 1, 0, now);
    hide Resumed;
    LeadsThrough(box, w, acts, w1, more0, w2);
    LeadsThrough(box, w, acts + more0, w2, more1, w');
    acts := acts + more0 + more1;
    AllArrived(box, w', 0, 1);
    AllArrived(box, w', 1, 0);
  }
}
