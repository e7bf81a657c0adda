/** The progress-bounded frame IO of the recover exchange: every chunk has to finish within the idle
    window and everything before the absolute deadline. Time is a field of the stream, and how long
    each chunk would take if it were left alone is an arbitrary script. */
module RecoverIo {
  import opened Bytes
  import opened Framing

  const RECOVER_IO_CHUNK: nat := 64 * 1024

  /** What one chunk's transfer does if nobody gives up on it: finish, fail, or never answer. The
      last two may have moved some of the bytes. */
  datatype Io = Ready(after: nat) | Broken(after: nat, moved: nat) | Silent(moved: nat)

  type Script = nat -> Io

  function Delay(io: Io): nat {
    if io.Silent? then 0 else io.after
  }

  /** The size of the next chunk when `n` bytes are left. */
  function ChunkSize(n: nat): nat {
    if n < RECOVER_IO_CHUNK then n else RECOVER_IO_CHUNK
  }

  /** How many chunks a buffer of `n` bytes takes. */
  function Chunks(n: nat): nat {
    if n == 0 then 0 else 1 + Chunks(n - ChunkSize(n))
  }

  /** A chunk is waited for until the earlier of the idle bound and the deadline; one that is ready
      at once succeeds even then. */
  predicate OnTime(io: Io, clock: int, idle: nat, deadline: int) {
    io.Ready? && (io.after == 0 || (io.after <= idle && clock + io.after <= deadline))
  }

  /** The time at which call `end` begins if `first` began at `clock`. */
  function ClockAt(script: Script, first: nat, clock: int, end: nat): int
    requires first <= end
    decreases end
  {
    if end == first then clock else ClockAt(script, first, clock, end - 1) + Delay(script(end - 1))
  }

  /** Call `c` finishes in time. */
  predicate CallOnTime(script: Script, first: nat, clock: int, idle: nat, deadline: int, c: nat)
    requires first <= c
  {
    OnTime(script(c), ClockAt(script, first, clock, c), idle, deadline)
  }

  /** Every call from `first` up to `end` finishes in time. */
  predicate AllOnTime(script: Script, first: nat, clock: int, idle: nat, deadline: int, end: nat) {
    forall c :: first <= c < end ==> CallOnTime(script, first, clock, idle, deadline, c)
  }

  class TimedStream {
    const script: Script
    var clock: int
    var calls: nat
    var pending: ByteString      // still to be read
    var written: ByteString

    constructor (script: Script, clock: int, pending: ByteString)
      ensures this.script == script && this.clock == clock && this.pending == pending
      ensures calls == 0 && written == []
    {
      this.script, this.clock, this.calls := script, clock, 0;
      this.pending, this.written := pending, [];
    }

    /** Waits for the call in progress, for at most `idle` and not beyond the deadline. */
    method Await(idle: nat, deadline: int) returns (done: bool)
      modifies this`clock, this`calls
      ensures calls == old(calls) + 1
      ensures done <==> OnTime(script(old(calls)), old(clock), idle, deadline)
      ensures done ==> clock == old(clock) + Delay(script(old(calls)))
      ensures old(clock) <= clock && (clock <= deadline || clock == old(clock))
    {
      var io := script(calls);
      var bound := if clock + idle < deadline then clock + idle else deadline;
      calls := calls + 1;
      if !io.Silent? && (io.after == 0 || clock + io.after <= bound) {
        clock := clock + io.after;
        done := io.Ready?;
      } else {
        clock := if clock < bound then bound else clock;
        done := false;
      }
    }

    method WriteAllIdle(buf: ByteString, idle: nat, deadline: int) returns (ok: bool)
      modifies this`clock, this`calls, this`written
      ensures ok <==> AllOnTime(script, old(calls), old(clock), idle, deadline, old(calls) + Chunks(|buf|))
      ensures ok ==> written == old(written) + buf
      ensures ok ==> calls == old(calls) + Chunks(|buf|)
      ensures ok ==> clock == ClockAt(script, old(calls), old(clock), old(calls) + Chunks(|buf|))
      ensures !ok ==> exists k :: 0 <= k <= |buf| && written == old(written) + buf[..k]
      ensures old(clock) <= clock && (clock <= deadline || clock == old(clock))
    {
      var off := 0;
      ghost var k := 0;
      while off < |buf|
        invariant 0 <= off <= |buf| && Chunks(|buf|) == k + Chunks(|buf| - off)
        invariant calls == old(calls) + k
        invariant AllOnTime(script, old(calls), old(clock), idle, deadline, calls)
        invariant clock == ClockAt(script, old(calls), old(clock), calls)
        invariant written == old(written) + buf[..off]
        invariant old(clock) <= clock && (clock <= deadline || clock == old(clock))
      {
        var end := off + ChunkSize(|buf| - off);
        var io := script(calls);
        var done := Await(idle, deadline);
        assert done <==> CallOnTime(script, old(calls), old(clock), idle, deadline, old(calls) + k);
        if !done {
          var moved := if io.Ready? then 0 else if io.moved <= end - off then io.moved else end - off;
          assert buf[..off] + buf[off..off + moved] == buf[..off + moved];
          written := written + buf[off..off + moved];
          return false;
        }
        assert buf[..off] + buf[off..end] == buf[..end];
        written := written + buf[off..end];
        off := end;
        k := k + 1;
      }
      assert buf[..off] == buf;
      ok := true;
    }

    /** A chunk that the stream ends in fails like a broken one. */
    method ReadExactIdle(n: nat, idle: nat, deadline: int) returns (got: Option<ByteString>)
      modifies this`clock, this`calls, this`pending
      ensures got.Some? <==>
                (&& AllOnTime(script, old(calls), old(clock), idle, deadline, old(calls) + Chunks(n))
                 && n <= |old(pending)|)
      ensures got.Some? ==> got.value == old(pending)[..n] && pending == old(pending)[n..]
      ensures got.Some? ==> calls == old(calls) + Chunks(n)
      ensures got.Some? ==> clock == ClockAt(script, old(calls), old(clock), old(calls) + Chunks(n))
      ensures old(clock) <= clock && (clock <= deadline || clock == old(clock))
    {
      var buf: ByteString := [];
      ghost var k := 0;
      while |buf| < n
        invariant |buf| <= n && |buf| <= |old(pending)| && Chunks(n) == k + Chunks(n - |buf|)
        invariant calls == old(calls) + k
        invariant AllOnTime(script, old(calls), old(clock), idle, deadline, calls)
        invariant clock == ClockAt(script, old(calls), old(clock), calls)
        invariant buf == old(pending)[..|buf|] && pending == old(pending)[|buf|..]
        invariant old(clock) <= clock && (clock <= deadline || clock == old(clock))
      {
        var size := ChunkSize(n - |buf|);
        var done := Await(idle, deadline);
        assert done <==> CallOnTime(script, old(calls), old(clock), idle, deadline, old(calls) + k);
        if !done || size > |pending| {
          return None;
        }
        assert old(pending)[..|buf|] + pending[..size] == old(pending)[..|buf| + size];
        assert pending[size..] == old(pending)[|buf| + size..];
        buf := buf + pending[..size];
        pending := pending[size..];
        k := k + 1;
      }
      got := Some(buf);
    }

    method WriteFrameIdle(body: ByteString, idle: nat, deadline: int) returns (ok: bool)
      modifies this`clock, this`calls, this`written
      ensures ok <==> AllOnTime(script, old(calls), old(clock), idle, deadline, old(calls) + 1 + Chunks(|body|))
      ensures ok ==> written == old(written) + ProtoFrame(body)
      ensures ok ==> clock == ClockAt(script, old(calls), old(clock), old(calls) + 1 + Chunks(|body|))
      ensures old(clock) <= clock && (clock <= deadline || clock == old(clock))
    {
      OneChunk(8);
      ok := WriteAllIdle(ToLittleEndian(|body|, 8), idle, deadline);
      OnTimeSplits(script, old(calls), old(clock), idle, deadline,
                   old(calls) + 1, old(calls) + 1 + Chunks(|body|));
      if ok {
        ok := WriteAllIdle(body, idle, deadline);
      }
      assert old(written) + ToLittleEndian(|body|, 8) + body == old(written) + ProtoFrame(body);
    }

    /** Exactly the frame that plain framed reading finds, or nothing. */
    method ReadFrameIdle(maxLen: nat, idle: nat, deadline: int) returns (frame: Option<ByteString>)
      modifies this`clock, this`calls, this`pending
      ensures var (found, rest) := TakeProtoFrame(old(pending), maxLen);
              && (frame.Some? <==>
                    && found.Ok?
                    && AllOnTime(script, old(calls), old(clock), idle, deadline,
                                 old(calls) + 1 + Chunks(|found.value|)))
              && (frame.Some? ==> found == Ok(frame.value) && pending == rest)
      ensures old(clock) <= clock && (clock <= deadline || clock == old(clock))
    {
      OneChunk(8);
      var head := ReadExactIdle(8, idle, deadline);
      if head.Some? {
        var len := SignedLittleEndian(head.value);
        if !(0 <= len <= maxLen) {
          return None;
        }
        OnTimeSplits(script, old(calls), old(clock), idle, deadline,
                     old(calls) + 1, old(calls) + 1 + Chunks(len));
        frame := ReadExactIdle(len, idle, deadline);
      } else {
        frame := None;
      }
    }
  }

  lemma OneChunk(n: nat)
    requires 0 < n <= RECOVER_IO_CHUNK
    ensures Chunks(n) == 1
  {
    assert Chunks(0) == 0;
  }

  lemma {:induction false} ClockSplits(script: Script, first: nat, clock: int, mid: nat, end: nat)
    requires first <= mid <= end
    ensures ClockAt(script, first, clock, end) ==
            ClockAt(script, mid, ClockAt(script, first, clock, mid), end)
    decreases end
  {
    if mid < end {
      ClockSplits(script, first, clock, mid, end - 1);
    }
  }

  /** Timing is judged the same whether a transfer is one call or two. */
  lemma OnTimeSplits(script: Script, first: nat, clock: int, idle: nat, deadline: int, mid: nat, end: nat)
    requires first <= mid <= end
    ensures AllOnTime(script, first, clock, idle, deadline, end) <==>
            (&& AllOnTime(script, first, clock, idle, deadline, mid)
             && AllOnTime(script, mid, ClockAt(script, first, clock, mid), idle, deadline, end))
    ensures ClockAt(script, first, clock, end) ==
            ClockAt(script, mid, ClockAt(script, first, clock, mid), end)
  {
    forall c | mid <= c <= end
      ensures ClockAt(script, first, clock, c) ==
              ClockAt(script, mid, ClockAt(script, first, clock, mid), c)
      ensures c < end ==>
                (CallOnTime(script, first, clock, idle, deadline, c) <==>
                 CallOnTime(script, mid, ClockAt(script, first, clock, mid), idle, deadline, c))
    {
      ClockSplits(script, first, clock, mid, c);
    }
    hide ClockAt, CallOnTime;
  }

  lemma {:induction false} ClockGrows(script: Script, first: nat, clock: int, mid: nat, end: nat)
    requires first <= mid <= end
    ensures ClockAt(script, first, clock, mid) <= ClockAt(script, first, clock, end)
    decreases end
  {
    if mid < end {
      ClockGrows(script, first, clock, mid, end - 1);
    }
  }

  /** A transfer that starts before the deadline succeeds exactly when every chunk finishes within
      the idle window and the last one before the deadline, however many chunks there are. */
  lemma SlowButSteadySucceeds(script: Script, first: nat, clock: int, idle: nat, deadline: int, end: nat)
    requires clock <= deadline && first <= end
    ensures AllOnTime(script, first, clock, idle, deadline, end) <==>
            (&& (forall c :: first <= c < end ==> script(c).Ready? && script(c).after <= idle)
             && ClockAt(script, first, clock, end) <= deadline)
  {
    if AllOnTime(script, first, clock, idle, deadline, end) {
      EndsBeforeDeadline(script, first, clock, idle, deadline, end);
      forall c | first <= c < end ensures script(c).Ready? && script(c).after <= idle {
        assert CallOnTime(script, first, clock, idle, deadline, c);
      }
    } else {
      var c :| first <= c < end && !CallOnTime(script, first, clock, idle, deadline, c);
      ClockGrows(script, first, clock, c + 1, end);
    }
  }

  lemma {:induction false} EndsBeforeDeadline(
      script: Script, first: nat, clock: int, idle: nat, deadline: int, end: nat)
    requires clock <= deadline && first <= end && AllOnTime(script, first, clock, idle, deadline, end)
    ensures ClockAt(script, first, clock, end) <= deadline
    decreases end
  {
    if first < end {
      EndsBeforeDeadline(script, first, clock, idle, deadline, end - 1);
      assert CallOnTime(script, first, clock, idle, deadline, end - 1);
    }
  }

  /** A chunk count is what dividing the length into chunks and rounding up gives. */
  lemma {:induction false} ChunksRoundUp(n: nat)
    ensures (Chunks(n) - 1) * RECOVER_IO_CHUNK < n <= Chunks(n) * RECOVER_IO_CHUNK || n == 0
  {
    if n > RECOVER_IO_CHUNK {
      ChunksRoundUp(n - RECOVER_IO_CHUNK);
    } else if n > 0 {
      OneChunk(n);
    }
  }

  lemma {:induction false} ClockBounded(script: Script, first: nat, clock: int, idle: nat, k: nat)
    requires forall c :: first <= c < first + k ==> script(c).Ready? && script(c).after <= idle
    ensures ClockAt(script, first, clock, first + k) <= clock + idle * k
    decreases k
  {
    if k > 0 {
      ClockBounded(script, first, clock, idle, k - 1);
      assert idle * k == idle * (k - 1) + idle;
    }
  }

  /** A buffer of any length whose chunks each finish within the idle window goes through if the time
      to the deadline is enough for its length, counted in chunks. */
  lemma SteadyRateSuffices(script: Script, first: nat, clock: int, idle: nat, deadline: int, n: nat)
    requires forall c :: first <= c < first + Chunks(n) ==> script(c).Ready? && script(c).after <= idle
    requires idle * (n + RECOVER_IO_CHUNK - 1) <= RECOVER_IO_CHUNK * (deadline - clock)
    ensures AllOnTime(script, first, clock, idle, deadline, first + Chunks(n))
  {
    var k := Chunks(n);
    ChunksRoundUp(n);
    ClockBounded(script, first, clock, idle, k);
    hide Chunks, ClockAt;
    assert k * RECOVER_IO_CHUNK <= n + RECOVER_IO_CHUNK - 1;
    Scaled(idle, k, n + RECOVER_IO_CHUNK - 1, deadline - clock);
    SlowButSteadySucceeds(script, first, clock, idle, deadline, first + k);
  }

  lemma Scaled(idle: nat, k: nat, n: nat, time: int)
    requires k * RECOVER_IO_CHUNK <= n && idle * n <= RECOVER_IO_CHUNK * time
    ensures 0 <= idle * k <= time
  {
    assert idle * (k * RECOVER_IO_CHUNK) <= idle * n;
    assert idle * (k * RECOVER_IO_CHUNK) == RECOVER_IO_CHUNK * (idle * k);
  }
}
