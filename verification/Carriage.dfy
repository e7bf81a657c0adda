/** A session as the link under the tunnels: in each direction it is a first-in first-out queue that
    loses what the writer refused because too much was buffered offline, and nothing else. */
module Carriages {
  import opened Bytes
  import opened Crypto
  import opened Endpoints
  import opened Sessions

  const PING := Msg(KEEP_ALIVE, [])

  // ---- one step ----

  /** What side `i` accepted and side `o` has not delivered. */
  function InTransit(from: Endpoint, to: Endpoint): seq<Msg>
    requires |to.delivered| <= |from.accepted|
  {
    from.accepted[|to.delivered|..]
  }

  predicate Pings(e: Endpoint, period: Option<int>, now: int) {
    period.Some? && e.live.Some? && !e.shuttingDown && now - e.lastActivity >= period.value && !e.waiting
  }

  /** What a step adds to what side `i` accepted. */
  ghost function Adds(w: World, a: Action, i: nat): seq<Msg>
    requires Sessions.Shape(w) && i < 2
  {
    match a
    case WriteMsg(who, m, _, _) => if who == i && !WriteRefused(w.sides[i].ep, m) then [m] else []
    case KeepaliveTick(who, period, _, now) => if who == i && Pings(w.sides[i].ep, period, now) then [PING] else []
    case _ => []
  }

  lemma WriteAdds(e: Endpoint, m: Msg, refused: bool, now: int)
    requires WellFormed(e)
    ensures var e' := Write(e, m, refused, now).0;
            && e'.accepted == e.accepted + (if WriteRefused(e, m) then [] else [m])
            && e'.delivered == e.delivered
  {
    assert e.accepted + [] == e.accepted;
    hide WriteRefused, Trimmed;
  }

  lemma TickAdds(e: Endpoint, period: Option<int>, refused: bool, now: int)
    requires WellFormed(e)
    ensures var e' := Tick(e, period, refused, now);
            && e'.accepted == e.accepted + (if Pings(e, period, now) then [PING] else [])
            && e'.delivered == e.delivered
  {
    assert e.accepted + [] == e.accepted;
    if Pings(e, period, now) {
      PingKeeps(e, now);
      WriteAdds(e.(waiting := true, lastActivity := now), PING, refused, now);
      assert !WriteRefused(e.(waiting := true, lastActivity := now), PING);
    }
    hide Write, WriteRefused;
  }

  lemma StepAdds(box: SecretBox, w: World, a: Action, i: nat)
    requires Enabled(box, w, a) && SocketsExist(w) && i < 2
    ensures var w' := Apply(box, w, a);
            |w'.sides| == 2 && w'.sides[i].ep.accepted == w.sides[i].ep.accepted + Adds(w, a, i)
  {
    var e := w.sides[i].ep;
    assert e.accepted + [] == e.accepted;
    if a.WriteMsg? && a.who == i {
      WriteAdds(e, a.m, a.refused, a.now);
      hide WellFormed, Write, SealedAt, Possible, WriteRefused;
    } else if a.KeepaliveTick? && a.who == i {
      TickAdds(e, a.period, a.refused, a.now);
      hide WellFormed, Tick, SealedAt, Possible, Pings;
    } else {
      LogKept(box, w, a, i);
      hide Enabled, Apply, WriteRefused, Pings;
    }
  }

  /** Only a delivery at side `o` changes what it delivered. */
  lemma StepDelivers(box: SecretBox, w: World, a: Action, o: nat)
    requires Enabled(box, w, a) && SocketsExist(w) && o < 2 && !(a.DeliverNext? && a.who == o)
    ensures var w' := Apply(box, w, a);
            |w'.sides| == 2 && w'.sides[o].ep.delivered == w.sides[o].ep.delivered
  {
    if a.WriteMsg? && a.who == o {
      WriteAdds(w.sides[o].ep, a.m, a.refused, a.now);
    } else if a.KeepaliveTick? && a.who == o {
      TickAdds(w.sides[o].ep, a.period, a.refused, a.now);
    }
    hide WellFormed, Write, Tick, Catchup, SealedAt, SequenceHeader, Disciplined, Opened, Pings, WriteRefused;
  }

  ghost predicate Ordered(w: World, i: nat, o: nat)
    requires Ends(i, o) && |w.sides| == 2
  {
    w.sides[o].ep.delivered <= w.sides[i].ep.accepted && !w.sides[o].ep.mismatch
  }

  lemma SafeOrdered(box: SecretBox, w: World, i: nat, o: nat)
    requires Safe(box, w) && Ends(i, o)
    ensures Sessions.Shape(w) && |w.sides| == 2 && Ordered(w, i, o)
  {
    assert Flow(box, w, i, o);
    hide LivePart, ExchangePart, Books, WellFormed, LogOf, Sized;
  }

  /** A delivery at side `o` that is no mismatch adds one packet. */
  lemma DeliveryAdds(box: SecretBox, w: World, o: nat, now: int)
    requires Enabled(box, w, DeliverNext(o, now)) && SocketsExist(w)
    requires !Apply(box, w, DeliverNext(o, now)).sides[o].ep.mismatch
    ensures var d, d' := w.sides[o].ep.delivered, Apply(box, w, DeliverNext(o, now)).sides[o].ep.delivered;
            |d'| == |d| + 1 && d == d'[..|d|]
  {
    hide WellFormed, Opened, Disciplined;
  }

  lemma AddsNothing(w: World, a: Action, i: nat)
    requires Sessions.Shape(w) && i < 2 && a.DeliverNext?
    ensures Adds(w, a, i) == []
  {
  }

  lemma TakesFirst(accepted: seq<Msg>, delivered: seq<Msg>, delivered': seq<Msg>)
    requires delivered <= accepted && delivered' <= accepted && |delivered'| == |delivered| + 1
    ensures delivered' == delivered + [accepted[|delivered|]]
    ensures accepted[|delivered'|..] == accepted[|delivered|..][1..]
  {
  }

  /** Every step of a session is a step of a queue from side `i` to side `o`: a delivery takes the
      first packet out, a write or a ping that was not refused adds one at the end, and no other step
      touches it, whatever happens to sockets and exchanges. */
  lemma StepIsQueueStep(box: SecretBox, w: World, a: Action, i: nat, o: nat)
    requires Correct(box) && Safe(box, w) && Enabled(box, w, a) && Ends(i, o)
    ensures SocketsExist(w)
    ensures var w' := Apply(box, w, a);
            && |w.sides| == |w'.sides| == 2 && Ordered(w, i, o) && Ordered(w', i, o)
            && var q, q' := InTransit(w.sides[i].ep, w.sides[o].ep), InTransit(w'.sides[i].ep, w'.sides[o].ep);
            if a.DeliverNext? && a.who == o then
              && q != [] && q' == q[1..]
              && w'.sides[o].ep.delivered == w.sides[o].ep.delivered + [q[0]]
            else
              && q' == q + Adds(w, a, i)
              && w'.sides[o].ep.delivered == w.sides[o].ep.delivered
  {
    hide Safe, Sessions.Shape, Possible, Disciplined, SocketsExist, Apply, Adds;
    StepKeeps(box, w, a);
    SafeOrdered(box, w, i, o);
    var w' := Apply(box, w, a);
    SafeOrdered(box, w', i, o);
    StepAdds(box, w, a, i);
    var accepted, delivered := w.sides[i].ep.accepted, w.sides[o].ep.delivered;
    if a.DeliverNext? && a.who == o {
      DeliveryAdds(box, w, o, a.now);
      assert Adds(w, a, i) == [] by { AddsNothing(w, a, i); }
      TakesFirst(accepted, delivered, w'.sides[o].ep.delivered);
    } else {
      StepDelivers(box, w, a, o);
      assert (accepted + Adds(w, a, i))[|delivered|..] == accepted[|delivered|..] + Adds(w, a, i);
    }
  }

  // ---- whole runs ----

  /** Everything side `i` was asked to write. */
  function Asked(acts: seq<Action>, i: nat): seq<Msg> {
    if acts == [] then []
    else (if acts[0].WriteMsg? && acts[0].who == i then [acts[0].m] else []) + Asked(acts[1..], i)
  }

  /** What was written of it, and the pings in between. */
  ghost function Written(box: SecretBox, w: World, acts: seq<Action>, i: nat): seq<Msg>
    requires Sessions.Runs(box, w, acts) && i < 2
    decreases |acts|
  {
    if acts == [] then []
    else Adds(w, acts[0], i) + Written(box, Apply(box, w, acts[0]), acts[1..], i)
  }

  lemma {:induction false} AcceptedIsWritten(box: SecretBox, w: World, acts: seq<Action>, i: nat)
    requires Sessions.Runs(box, w, acts) && |w.sides| == 2 && i < 2
    ensures var w' := Sessions.After(box, w, acts);
            |w'.sides| == 2 && w'.sides[i].ep.accepted == w.sides[i].ep.accepted + Written(box, w, acts, i)
    decreases |acts|
  {
    hide Sessions.Shape, Possible, Disciplined, Apply, Adds, SocketsExist;
    if acts == [] {
      assert w.sides[i].ep.accepted + [] == w.sides[i].ep.accepted;
    } else {
      var w1 := Apply(box, w, acts[0]);
      StepAdds(box, w, acts[0], i);
      AcceptedIsWritten(box, w1, acts[1..], i);
      var x, y, z := w.sides[i].ep.accepted, Adds(w, acts[0], i), Written(box, w1, acts[1..], i);
      assert (x + y) + z == x + (y + z);
    }
  }

  /** Over every run, what side `o` delivered followed by what is in transit is what was written to
      side `i`. */
  lemma DeliveredThenInTransit(box: SecretBox, now: int, acts: seq<Action>, i: nat, o: nat)
    requires Correct(box) && Sessions.Runs(box, Sessions.Start(now), acts) && Ends(i, o)
    ensures var w := Sessions.After(box, Sessions.Start(now), acts);
            && |w.sides| == 2 && Ordered(w, i, o)
            && w.sides[o].ep.delivered + InTransit(w.sides[i].ep, w.sides[o].ep)
               == Written(box, Sessions.Start(now), acts, i)
  {
    var w0 := Sessions.Start(now);
    assert |w0.sides| == 2 && w0.sides[i].ep.accepted == [];
    hide Sessions.Runs, Sessions.After, Sessions.Start, Sessions.Shape, Written, Safe;
    Sessions.StartInv(box, now);
    Sessions.RunKeeps(box, w0, acts);
    AcceptedIsWritten(box, w0, acts, i);
    SafeOrdered(box, Sessions.After(box, w0, acts), i, o);
    assert [] + Written(box, w0, acts, i) == Written(box, w0, acts, i);
  }

  // ---- nothing is lost but refused writes ----

  function WithoutPings(ms: seq<Msg>): seq<Msg> {
    if ms == [] then []
    else (if ms[0].header == KEEP_ALIVE then [] else [ms[0]]) + WithoutPings(ms[1..])
  }

  lemma {:induction false} WithoutPingsAppend(ms: seq<Msg>, more: seq<Msg>)
    ensures WithoutPings(ms + more) == WithoutPings(ms) + WithoutPings(more)
  {
    if ms == [] {
      assert ms + more == more && [] + WithoutPings(more) == WithoutPings(more);
    } else {
      assert (ms + more)[0] == ms[0] && (ms + more)[1..] == ms[1..] + more;
      WithoutPingsAppend(ms[1..], more);
      var x := if ms[0].header == KEEP_ALIVE then [] else [ms[0]];
      assert x + (WithoutPings(ms[1..]) + WithoutPings(more)) == (x + WithoutPings(ms[1..])) + WithoutPings(more);
    }
  }

  /** No write of side `i` is refused. */
  ghost predicate NoneRefused(box: SecretBox, w: World, acts: seq<Action>, i: nat)
    requires Sessions.Runs(box, w, acts) && i < 2
    decreases |acts|
  {
    acts == [] ||
    (&& (acts[0].WriteMsg? && acts[0].who == i ==> !WriteRefused(w.sides[i].ep, acts[0].m))
     && NoneRefused(box, Apply(box, w, acts[0]), acts[1..], i))
  }

  /** Nothing asked of side `i` is itself a keepalive. */
  predicate NoPingAsked(acts: seq<Action>, i: nat) {
    forall k :: 0 <= k < |acts| ==>
      (acts[k].WriteMsg? && acts[k].who == i ==> acts[k].m.header != KEEP_ALIVE)
  }

  lemma AddsWithoutPings(w: World, a: Action, i: nat)
    requires Sessions.Shape(w) && i < 2
    requires a.WriteMsg? && a.who == i ==> a.m.header != KEEP_ALIVE
    ensures WithoutPings(Adds(w, a, i)) ==
            if a.WriteMsg? && a.who == i && !WriteRefused(w.sides[i].ep, a.m) then [a.m] else []
  {
    if a.WriteMsg? && a.who == i {
      assert WithoutPings([a.m]) == [a.m] + WithoutPings([]);
    } else if a.KeepaliveTick? {
      assert WithoutPings([PING]) == [] + WithoutPings([]);
    }
    hide WellFormed, WriteRefused, Pings;
  }

  /** Everything asked for was written exactly when no write was refused. */
  lemma {:induction false} AllWrittenExactlyWhen(box: SecretBox, w: World, acts: seq<Action>, i: nat)
    requires Sessions.Runs(box, w, acts) && i < 2 && NoPingAsked(acts, i)
    ensures var written := WithoutPings(Written(box, w, acts, i));
            && |written| <= |Asked(acts, i)|
            && (written == Asked(acts, i) <==> NoneRefused(box, w, acts, i))
            && (|written| == |Asked(acts, i)| ==> NoneRefused(box, w, acts, i))
    decreases |acts|
  {
    if acts != [] {
      var w1, a := Apply(box, w, acts[0]), acts[0];
      assert NoPingAsked(acts[1..], i);
      AddsWithoutPings(w, a, i);
      hide Sessions.Shape, Possible, Disciplined, Apply, Adds, SocketsExist, WriteRefused, NoPingAsked;
      AllWrittenExactlyWhen(box, w1, acts[1..], i);
      WithoutPingsAppend(Adds(w, a, i), Written(box, w1, acts[1..], i));
      var x, y := WithoutPings(Adds(w, a, i)), WithoutPings(Written(box, w1, acts[1..], i));
      var z := Asked(acts[1..], i);
      if a.WriteMsg? && a.who == i {
        assert ([a.m] + y)[1..] == y && ([a.m] + z)[1..] == z;
      } else {
        assert [] + y == y && [] + z == z;
      }
    }
  }

  /** As long as no write was refused, what side `o` delivered, the pings aside, is a prefix of
      everything side `i` was asked to write. */
  lemma LosslessUnlessRefused(box: SecretBox, now: int, acts: seq<Action>, i: nat, o: nat)
    requires Correct(box) && Sessions.Runs(box, Sessions.Start(now), acts) && Ends(i, o)
    requires NoPingAsked(acts, i) && NoneRefused(box, Sessions.Start(now), acts, i)
    ensures var w := Sessions.After(box, Sessions.Start(now), acts);
            |w.sides| == 2 && WithoutPings(w.sides[o].ep.delivered) <= Asked(acts, i)
  {
    var w0 := Sessions.Start(now);
    hide Sessions.Runs, Sessions.After, Sessions.Start, Written, NoneRefused;
    DeliveredThenInTransit(box, now, acts, i, o);
    AllWrittenExactlyWhen(box, w0, acts, i);
    var w := Sessions.After(box, w0, acts);
    WithoutPingsAppend(w.sides[o].ep.delivered, InTransit(w.sides[i].ep, w.sides[o].ep));
  }
}
