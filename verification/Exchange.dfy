/** The symmetric exchange as seen by the byte channels: both peers write their header frame, read
    the other's, write their catch-up frame and read the other's, over two channels that each hold
    a bounded number of bytes. */
module Exchanges {
  /** How many bytes a peer's two frames take. */
  datatype Frames = Frames(header: nat, catchup: nat) {
    function Whole(): nat { header + catchup }
  }

  datatype Peer = Peer(wrote: nat, read: nat)

  datatype Setup = Setup(a: Frames, b: Frames, capacity: nat)

  datatype State = State(a: Peer, b: Peer)

  datatype Phase = WriteHeader | ReadHeader | WriteCatchup | ReadCatchup | Finished

  /** The step the code is at: each call transfers one whole frame before the next begins. */
  function PhaseOf(mine: Frames, theirs: Frames, p: Peer): Phase {
    if p.wrote < mine.header then WriteHeader
    else if p.read < theirs.header then ReadHeader
    else if p.wrote < mine.Whole() then WriteCatchup
    else if p.read < theirs.Whole() then ReadCatchup
    else Finished
  }

  /** A peer moves `n` bytes into its channel, or out of the other's. */
  predicate CanWrite(mine: Frames, theirs: Frames, capacity: nat, p: Peer, q: Peer, n: nat) {
    && 0 < n && p.wrote + n - q.read <= capacity
    && (match PhaseOf(mine, theirs, p)
        case WriteHeader => p.wrote + n <= mine.header
        case WriteCatchup => p.wrote + n <= mine.Whole()
        case _ => false)
  }

  predicate CanRead(mine: Frames, theirs: Frames, p: Peer, q: Peer, n: nat) {
    && 0 < n && p.read + n <= q.wrote
    && (match PhaseOf(mine, theirs, p)
        case ReadHeader => p.read + n <= theirs.header
        case ReadCatchup => p.read + n <= theirs.Whole()
        case _ => false)
  }

  datatype Step = AWrites(n: nat) | AReads(n: nat) | BWrites(n: nat) | BReads(n: nat)

  predicate Enabled(x: Setup, s: State, step: Step) {
    match step
    case AWrites(n) => CanWrite(x.a, x.b, x.capacity, s.a, s.b, n)
    case AReads(n) => CanRead(x.a, x.b, s.a, s.b, n)
    case BWrites(n) => CanWrite(x.b, x.a, x.capacity, s.b, s.a, n)
    case BReads(n) => CanRead(x.b, x.a, s.b, s.a, n)
  }

  function Apply(s: State, step: Step): State {
    match step
    case AWrites(n) => s.(a := s.a.(wrote := s.a.wrote + n))
    case AReads(n) => s.(a := s.a.(read := s.a.read + n))
    case BWrites(n) => s.(b := s.b.(wrote := s.b.wrote + n))
    case BReads(n) => s.(b := s.b.(read := s.b.read + n))
  }

  const START := State(Peer(0, 0), Peer(0, 0))

  predicate Runs(x: Setup, s: State, run: seq<Step>)
    decreases |run|
  {
    run == [] || (Enabled(x, s, run[0]) && Runs(x, Apply(s, run[0]), run[1..]))
  }

  function After(s: State, run: seq<Step>): State
    decreases |run|
  {
    if run == [] then s else After(Apply(s, run[0]), run[1..])
  }

  predicate Done(x: Setup, s: State) {
    PhaseOf(x.a, x.b, s.a).Finished? && PhaseOf(x.b, x.a, s.b).Finished?
  }

  /** Both peers wait for each other and nothing but a time bound can end it. */
  ghost predicate Stuck(x: Setup, s: State) {
    !Done(x, s) && forall step :: !Enabled(x, s, step)
  }

  ghost predicate CanStick(x: Setup) {
    exists run :: Runs(x, START, run) && Stuck(x, After(START, run))
  }

  /** At least one header frame and at least one catch-up frame fits the channel. */
  predicate Fits(x: Setup) {
    && (x.a.header <= x.capacity || x.b.header <= x.capacity)
    && (x.a.catchup <= x.capacity || x.b.catchup <= x.capacity)
  }

  // ---- what every step keeps ----

  /** What one peer has moved, given its order of steps and the bytes there were to move. */
  predicate InOrder(mine: Frames, theirs: Frames, capacity: nat, p: Peer, q: Peer) {
    && p.wrote <= mine.Whole() && p.read <= theirs.Whole()
    && p.read <= q.wrote <= p.read + capacity
    && (p.read > 0 ==> p.wrote >= mine.header)
    && (p.wrote > mine.header ==> p.read >= theirs.header)
    && (p.read > theirs.header ==> p.wrote == mine.Whole())
  }

  predicate Inv(x: Setup, s: State) {
    InOrder(x.a, x.b, x.capacity, s.a, s.b) && InOrder(x.b, x.a, x.capacity, s.b, s.a)
  }

  /** Bytes still to be written and read. */
  function Remaining(x: Setup, s: State): int {
    2 * (x.a.Whole() + x.b.Whole()) - s.a.wrote - s.a.read - s.b.wrote - s.b.read
  }

  lemma WriteInOrder(mine: Frames, theirs: Frames, capacity: nat, p: Peer, q: Peer, n: nat)
    requires InOrder(mine, theirs, capacity, p, q) && InOrder(theirs, mine, capacity, q, p)
    requires CanWrite(mine, theirs, capacity, p, q, n)
    ensures var p' := p.(wrote := p.wrote + n);
            InOrder(mine, theirs, capacity, p', q) && InOrder(theirs, mine, capacity, q, p')
  {
  }

  lemma ReadInOrder(mine: Frames, theirs: Frames, capacity: nat, p: Peer, q: Peer, n: nat)
    requires InOrder(mine, theirs, capacity, p, q) && InOrder(theirs, mine, capacity, q, p)
    requires CanRead(mine, theirs, p, q, n)
    ensures var p' := p.(read := p.read + n);
            InOrder(mine, theirs, capacity, p', q) && InOrder(theirs, mine, capacity, q, p')
  {
  }

  lemma StepKeeps(x: Setup, s: State, step: Step)
    requires Inv(x, s) && Enabled(x, s, step)
    ensures Inv(x, Apply(s, step))
    ensures Remaining(x, Apply(s, step)) < Remaining(x, s)
  {
    match step {
      case AWrites(n) => WriteInOrder(x.a, x.b, x.capacity, s.a, s.b, n);
      case AReads(n) => ReadInOrder(x.a, x.b, x.capacity, s.a, s.b, n);
      case BWrites(n) => WriteInOrder(x.b, x.a, x.capacity, s.b, s.a, n);
      case BReads(n) => ReadInOrder(x.b, x.a, x.capacity, s.b, s.a, n);
    }
    hide InOrder, PhaseOf;
  }

  lemma {:induction false} RunKeeps(x: Setup, s: State, run: seq<Step>)
    requires Inv(x, s) && Runs(x, s, run)
    ensures Inv(x, After(s, run))
    ensures Remaining(x, After(s, run)) + |run| <= Remaining(x, s)
    decreases |run|
  {
    hide Inv, Enabled, Remaining, Apply;
    if run != [] {
      StepKeeps(x, s, run[0]);
      RunKeeps(x, Apply(s, run[0]), run[1..]);
    }
  }

  /** Why a peer cannot move a byte. */
  lemma Waits(mine: Frames, theirs: Frames, capacity: nat, p: Peer, q: Peer)
    requires InOrder(mine, theirs, capacity, p, q) && InOrder(theirs, mine, capacity, q, p)
    requires !CanWrite(mine, theirs, capacity, p, q, 1) && !CanRead(mine, theirs, p, q, 1)
    ensures match PhaseOf(mine, theirs, p)
            case WriteHeader => p.wrote == q.read + capacity && q.wrote <= theirs.header
            case ReadHeader => p.wrote == mine.header && q.wrote == p.read
            case WriteCatchup => p.wrote == q.read + capacity && p.read == theirs.header
            case ReadCatchup => p.wrote == mine.Whole() && q.wrote == p.read
            case Finished => p.wrote == mine.Whole() && p.read == theirs.Whole() == q.wrote
  {
  }

  /** While the exchange is unfinished some peer can move a byte. */
  lemma SomeoneMoves(x: Setup, s: State) returns (step: Step)
    requires x.capacity > 0 && Inv(x, s) && Fits(x) && !Done(x, s)
    ensures Enabled(x, s, step)
  {
    if Enabled(x, s, AWrites(1)) {
      step := AWrites(1);
    } else if Enabled(x, s, AReads(1)) {
      step := AReads(1);
    } else if Enabled(x, s, BWrites(1)) {
      step := BWrites(1);
    } else {
      step := BReads(1);
      if !Enabled(x, s, step) {
        Waits(x.a, x.b, x.capacity, s.a, s.b);
        Waits(x.b, x.a, x.capacity, s.b, s.a);
        hide CanWrite, CanRead;
        assert false;
      }
    }
  }

  // ---- and when nothing fits ----

  lemma {:induction false} RunsJoin(x: Setup, s: State, run: seq<Step>, step: Step)
    requires Runs(x, s, run) && Enabled(x, After(s, run), step)
    ensures Runs(x, s, run + [step])
    ensures After(s, run + [step]) == Apply(After(s, run), step)
    decreases |run|
  {
    if run == [] {
      assert run + [step] == [step] && [step][1..] == [];
    } else {
      RunsJoin(x, Apply(s, run[0]), run[1..], step);
      assert (run + [step])[1..] == run[1..] + [step];
    }
  }

  /** Neither peer has begun its catch-up. */
  predicate InHeaders(x: Setup, s: State) {
    && Inv(x, s)
    && s.a.wrote <= x.a.header && s.b.wrote <= x.b.header
  }

  /** If one header fits, the headers can be exchanged before any catch-up byte is written. */
  lemma {:induction false} HeadersExchanged(x: Setup, s: State) returns (run: seq<Step>)
    requires InHeaders(x, s) && x.capacity > 0
    requires x.a.header <= x.capacity || x.b.header <= x.capacity
    ensures Runs(x, s, run)
    ensures After(s, run) == State(Peer(x.a.header, x.b.header), Peer(x.b.header, x.a.header))
    decreases Remaining(x, s)
  {
    if s.a.wrote < x.a.header && s.a.wrote - s.b.read < x.capacity {
      run := HeadersExchanged(x, Apply(s, AWrites(1)));
      run := [AWrites(1)] + run;
    } else if s.a.wrote == x.a.header && s.a.read < s.b.wrote {
      run := HeadersExchanged(x, Apply(s, AReads(1)));
      run := [AReads(1)] + run;
    } else if s.b.wrote < x.b.header && s.b.wrote - s.a.read < x.capacity {
      run := HeadersExchanged(x, Apply(s, BWrites(1)));
      run := [BWrites(1)] + run;
    } else if s.b.wrote == x.b.header && s.b.read < s.a.wrote {
      run := HeadersExchanged(x, Apply(s, BReads(1)));
      run := [BReads(1)] + run;
    } else {
      run := [];
    }
  }

  /** Two peers past the same point, each with more to write than its channel takes. */
  lemma BothFill(x: Setup, run: seq<Step>) returns (stuck: seq<Step>)
    requires x.capacity > 0 && Runs(x, START, run)
    requires var s := After(START, run);
             && s.a.wrote == s.b.read && s.b.wrote == s.a.read
             && Enabled(x, s, AWrites(x.capacity))
             && Enabled(x, s, BWrites(x.capacity))
             && (|| (s == START && x.a.header > x.capacity && x.b.header > x.capacity)
                 || (&& s.a == Peer(x.a.header, x.b.header) && s.b == Peer(x.b.header, x.a.header)
                     && x.a.catchup > x.capacity && x.b.catchup > x.capacity))
    ensures Runs(x, START, stuck) && Stuck(x, After(START, stuck))
  {
    var s := After(START, run);
    RunsJoin(x, START, run, AWrites(x.capacity));
    assert Enabled(x, Apply(s, AWrites(x.capacity)), BWrites(x.capacity));
    RunsJoin(x, START, run + [AWrites(x.capacity)], BWrites(x.capacity));
    stuck := run + [AWrites(x.capacity)] + [BWrites(x.capacity)];
  }

  lemma Sticks(x: Setup)
    requires x.capacity > 0 && !Fits(x)
    ensures CanStick(x)
  {
    var run := [];
    if x.a.header <= x.capacity || x.b.header <= x.capacity {
      run := HeadersExchanged(x, START);
    }
    var stuck := BothFill(x, run);
  }

  /** The exchange of two peers can stick exactly when both header frames, or both catch-up frames,
      are larger than a channel holds. In particular two large catch-ups that are sent at once can
      wait for each other until the idle bound abandons both. */
  lemma SticksExactlyWhen(x: Setup)
    requires x.capacity > 0
    ensures CanStick(x) <==> !Fits(x)
  {
    if Fits(x) {
      forall run | Runs(x, START, run) ensures !Stuck(x, After(START, run)) {
        RunKeeps(x, START, run);
        if !Done(x, After(START, run)) {
          var step := SomeoneMoves(x, After(START, run));
        }
      }
    } else {
      Sticks(x);
    }
  }

  /** Otherwise every run is bounded, and one that cannot be continued has moved both frames of
      both peers completely. */
  lemma ExchangeCompletes(x: Setup, run: seq<Step>)
    requires x.capacity > 0 && Fits(x) && Runs(x, START, run)
    ensures |run| <= 2 * (x.a.Whole() + x.b.Whole())
    ensures (forall step :: !Enabled(x, After(START, run), step)) ==>
              After(START, run) == State(Peer(x.a.Whole(), x.b.Whole()), Peer(x.b.Whole(), x.a.Whole()))
  {
    RunKeeps(x, START, run);
    if !Done(x, After(START, run)) {
      var step := SomeoneMoves(x, After(START, run));
    }
    hide Enabled, Fits, Runs, After;
  }
}
