/** One tunnel seen by itself: what the two ends and the two queues between them hold for its socket
    id, and what keeps its bytes in order. */
module TunnelViews {
  import opened Bytes
  import opened Forwarding

  // ---- what a queue of frames holds for one socket id ----

  /** Data for the socket, towards the destination if `d` and else towards the source. */
  predicate IsData(f: Frame, s: U32, d: bool) {
    f.Data? && f.socket == Some(AsI32(s)) && (f.toDestination == Some(true)) == d
  }

  predicate HasBytes(f: Frame, s: U32, d: bool) {
    IsData(f, s, d) && f.buffer.Some?
  }

  predicate Answers(f: Frame, s: U32) {
    f.Response? && f.socketid == Some(AsI32(s))
  }

  function Payload(f: Frame, s: U32, d: bool): ByteString {
    if HasBytes(f, s, d) then f.buffer.value else []
  }

  function DataOf(frames: seq<Frame>, s: U32, d: bool): ByteString {
    if frames == [] then [] else Payload(frames[0], s, d) + DataOf(frames[1..], s, d)
  }

  lemma {:induction false} DataOfAppend(frames: seq<Frame>, more: seq<Frame>, s: U32, d: bool)
    ensures DataOf(frames + more, s, d) == DataOf(frames, s, d) + DataOf(more, s, d)
  {
    hide Payload;
    if frames == [] {
      assert frames + more == more && [] + DataOf(more, s, d) == DataOf(more, s, d);
    } else {
      DataOfAppend(frames[1..], more, s, d);
      assert (frames + more)[1..] == frames[1..] + more;
      var p, q, r := Payload(frames[0], s, d), DataOf(frames[1..], s, d), DataOf(more, s, d);
      assert p + (q + r) == (p + q) + r;
    }
  }

  /** Nothing in the queue is data for the socket. */
  predicate NoData(frames: seq<Frame>, s: U32, d: bool) {
    forall i :: 0 <= i < |frames| ==> !IsData(frames[i], s, d)
  }

  /** Nothing in the queue carries bytes for the socket. */
  predicate NoBytes(frames: seq<Frame>, s: U32, d: bool) {
    forall i :: 0 <= i < |frames| ==> !HasBytes(frames[i], s, d)
  }

  predicate NoAnswer(frames: seq<Frame>, s: U32) {
    forall i :: 0 <= i < |frames| ==> !Answers(frames[i], s)
  }

  lemma {:induction false} NoBytesIsEmpty(frames: seq<Frame>, s: U32, d: bool)
    requires NoBytes(frames, s, d)
    ensures DataOf(frames, s, d) == []
  {
    if frames != [] {
      NoBytesIsEmpty(frames[1..], s, d);
    }
  }

  lemma NoDataIsEmpty(frames: seq<Frame>, s: U32, d: bool)
    ensures NoData(frames, s, d) ==> DataOf(frames, s, d) == []
  {
    if NoData(frames, s, d) {
      NoBytesIsEmpty(frames, s, d);
    }
  }

  /** The one response for the socket comes before all of its data. */
  predicate AnswerFirst(frames: seq<Frame>, s: U32) {
    frames != [] &&
    if Answers(frames[0], s) then NoAnswer(frames[1..], s)
    else !IsData(frames[0], s, false) && AnswerFirst(frames[1..], s)
  }

  lemma {:induction false} AnswerFirstAppend(frames: seq<Frame>, more: seq<Frame>, s: U32)
    requires AnswerFirst(frames, s) && NoAnswer(more, s)
    ensures AnswerFirst(frames + more, s)
  {
    assert (frames + more)[0] == frames[0] && (frames + more)[1..] == frames[1..] + more;
    if Answers(frames[0], s) {
      NoAnswerMore(frames[1..], more, s);
    } else {
      AnswerFirstAppend(frames[1..], more, s);
    }
  }

  lemma {:induction false} AnswerArrives(frames: seq<Frame>, f: Frame, s: U32)
    requires NoAnswer(frames, s) && NoData(frames, s, false) && Answers(f, s)
    ensures AnswerFirst(frames + [f], s)
  {
    if frames != [] {
      AnswerArrives(frames[1..], f, s);
      assert (frames + [f])[1..] == frames[1..] + [f];
    }
  }

  lemma NoAnswerMore(frames: seq<Frame>, more: seq<Frame>, s: U32)
    requires NoAnswer(frames, s) && NoAnswer(more, s)
    ensures NoAnswer(frames + more, s)
  {
    hide Answers;
  }

  lemma NoDataMore(frames: seq<Frame>, more: seq<Frame>, s: U32, d: bool)
    requires NoData(frames, s, d) && NoData(more, s, d)
    ensures NoData(frames + more, s, d)
  {
    hide IsData;
  }

  lemma TailOf(frames: seq<Frame>, s: U32, d: bool)
    requires frames != []
    ensures DataOf(frames, s, d) == Payload(frames[0], s, d) + DataOf(frames[1..], s, d)
    ensures NoData(frames, s, d) ==> !IsData(frames[0], s, d) && NoData(frames[1..], s, d)
    ensures NoAnswer(frames, s) ==> !Answers(frames[0], s) && NoAnswer(frames[1..], s)
  {
    hide IsData, Answers, Payload;
  }

  /** The queue after the frame at `i` was lost. */
  function Without(frames: seq<Frame>, i: nat): seq<Frame>
    requires i < |frames|
  {
    frames[..i] + frames[i + 1..]
  }

  lemma AroundData(frames: seq<Frame>, i: nat, s: U32, d: bool)
    requires i < |frames|
    ensures DataOf(frames, s, d) ==
            DataOf(frames[..i], s, d) + (Payload(frames[i], s, d) + DataOf(frames[i + 1..], s, d))
    ensures DataOf(Without(frames, i), s, d) == DataOf(frames[..i], s, d) + DataOf(frames[i + 1..], s, d)
  {
    var a, b := frames[..i], frames[i..];
    DataOfAppend(a, b, s, d);
    DataOfAppend(a, frames[i + 1..], s, d);
    assert frames == a + b && b[0] == frames[i] && b[1..] == frames[i + 1..];
    hide Payload;
  }

  lemma LostData(frames: seq<Frame>, i: nat, s: U32, d: bool)
    requires i < |frames|
    ensures !HasBytes(frames[i], s, d) ==> DataOf(Without(frames, i), s, d) == DataOf(frames, s, d)
    ensures NoBytes(frames[i + 1..], s, d) ==> DataOf(Without(frames, i), s, d) <= DataOf(frames, s, d)
  {
    var x, y, z := DataOf(frames[..i], s, d), Payload(frames[i], s, d), DataOf(frames[i + 1..], s, d);
    AroundData(frames, i, s, d);
    if NoBytes(frames[i + 1..], s, d) {
      NoBytesIsEmpty(frames[i + 1..], s, d);
    }
    hide DataOf, NoBytes, Without;
    assert [] + z == z && x + [] == x && x <= x + (y + z);
  }

  lemma LostNone(frames: seq<Frame>, i: nat, s: U32, d: bool)
    requires i < |frames|
    ensures NoData(frames, s, d) ==> NoData(Without(frames, i), s, d)
    ensures NoAnswer(frames, s) ==> NoAnswer(Without(frames, i), s)
  {
    hide IsData, Answers;
  }

  lemma {:induction false} LostAnswer(frames: seq<Frame>, i: nat, s: U32)
    requires i < |frames| && AnswerFirst(frames, s)
    ensures Answers(frames[i], s) ==> NoAnswer(Without(frames, i), s)
    ensures !Answers(frames[i], s) ==> AnswerFirst(Without(frames, i), s)
  {
    var rest := frames[1..];
    if i == 0 {
      assert Without(frames, 0) == rest;
    } else {
      assert Without(frames, i)[0] == frames[0] && Without(frames, i)[1..] == Without(rest, i - 1);
      assert rest[i - 1] == frames[i];
      if Answers(frames[0], s) {
        LostNone(rest, i - 1, s, false);
      } else {
        LostAnswer(rest, i - 1, s);
        if Answers(frames[i], s) {
          assert forall j :: 0 < j < |Without(frames, i)| ==> Without(frames, i)[j] == Without(rest, i - 1)[j - 1];
        }
      }
    }
  }

  // ---- the bytes of one tunnel ----

  /** Everything the two ends and the queues hold for one link. */
  datatype View = View(
    waiting: bool,            // the response has not been handled
    sends: bool,              // reads at the source are passed on
    maps: bool,               // data for the source has a connection to go to
    up: bool,                 // the destination connection is registered
    toA: seq<Frame>,
    toB: seq<Frame>,
    gotA: ByteString,
    gotB: ByteString,
    queuedA: ByteString,
    queuedB: ByteString,
    lossB: Loss,
    lossA: Loss)

  /** What became of the data of one direction: all on its way, some lost at the end, or some lost
      with more behind it. */
  datatype Loss = Whole | Cut | Torn

  /** The response is on its way. */
  predicate Heard(v: View, s: U32) {
    v.waiting && AnswerFirst(v.toA, s)
  }

  /** Until the response is handled it heads its socket's data, if it was not lost, and nothing moves
      the other way. */
  predicate Opening(v: View, s: U32) {
    if v.waiting then (AnswerFirst(v.toA, s) || NoAnswer(v.toA, s)) && NoData(v.toB, s, true) && v.gotA == [] && !v.maps
    else NoAnswer(v.toA, s)
  }

  /** What is queued at one end is what was read at the other; together with what is in flight,
      while both ends are up and nothing was lost, all of it. */
  predicate Carried(queued: ByteString, flying: ByteString, got: ByteString, receiver: bool, sender: bool) {
    && queued <= got
    && (receiver ==> queued + flying <= got)
    && (receiver && sender ==> queued + flying == got)
  }

  predicate Towards(v: View, s: U32) {
    v.lossB.Torn? || Carried(v.queuedB, DataOf(v.toB, s, true), v.gotA, v.up, v.sends && v.lossB.Whole?)
  }

  predicate Back(v: View, s: U32) {
    v.lossA.Torn? || Carried(v.queuedA, DataOf(v.toA, s, false), v.gotB, Heard(v, s) || v.maps, v.up && v.lossA.Whole?)
  }

  predicate Good(v: View, s: U32) {
    Opening(v, s) && Towards(v, s) && Back(v, s)
  }

  /** More is read: it is in flight, or the sender no longer passes it on. */
  lemma CarriedRead(queued: ByteString, flying: ByteString, got: ByteString, x: ByteString,
                    receiver: bool, sender: bool)
    requires Carried(queued, flying, got, receiver, sender)
    ensures sender ==> Carried(queued, flying + x, got + x, receiver, true)
    ensures Carried(queued, flying, got + x, receiver, false)
  {
    assert queued + (flying + x) == (queued + flying) + x;
  }

  lemma CarriedWeakens(queued: ByteString, flying: ByteString, got: ByteString,
                       receiver: bool, sender: bool, receiver': bool, sender': bool)
    requires Carried(queued, flying, got, receiver, sender)
    requires (receiver' ==> receiver) && (sender' ==> sender)
    ensures Carried(queued, flying, got, receiver', sender')
  {
  }

  /** The first bytes in flight are queued, or the receiver is gone. */
  lemma CarriedTake(queued: ByteString, x: ByteString, flying: ByteString, got: ByteString,
                    receiver: bool, sender: bool)
    requires Carried(queued, x + flying, got, receiver, sender)
    ensures receiver ==> Carried(queued + x, flying, got, true, sender)
    ensures Carried(queued, flying, got, false, sender)
  {
    assert queued + (x + flying) == (queued + x) + flying;
  }

  /** The last bytes in flight are lost. */
  lemma CarriedCut(queued: ByteString, flying: ByteString, less: ByteString, got: ByteString, receiver: bool,
                   sender: bool)
    requires Carried(queued, flying, got, receiver, sender) && less <= flying
    ensures Carried(queued, less, got, receiver, false)
  {
    assert queued + less <= queued + flying;
  }

  /** Whether a read that sends `x` comes after a loss. */
  function AfterLoss(loss: Loss, sends: bool, x: ByteString): Loss {
    if sends && x != [] && !loss.Whole? then Torn else loss
  }

  /** The link's own source connection is read. */
  lemma GoodReadA(v: View, s: U32, frames: seq<Frame>, x: ByteString, sends: bool, maps: bool)
    requires Good(v, s) && !v.waiting && (sends ==> v.sends) && (maps ==> v.maps)
    requires DataOf(frames, s, true) == if v.sends then x else []
    ensures Good(v.(toB := v.toB + frames, gotA := v.gotA + x, sends := sends, maps := maps,
                    lossB := AfterLoss(v.lossB, v.sends, x)), s)
  {
    var flying, sender := DataOf(v.toB, s, true), v.sends && v.lossB.Whole?;
    DataOfAppend(v.toB, frames, s, true);
    assert flying + [] == flying && v.gotA + [] == v.gotA;
    if !v.lossB.Torn? {
      CarriedRead(v.queuedB, flying, v.gotA, x, v.up, sender);
      if sender {
        CarriedWeakens(v.queuedB, flying + x, v.gotA + x, v.up, true, v.up, sends);
      }
      CarriedWeakens(v.queuedB, flying, v.gotA, v.up, sender, v.up, false);
    }
    if !v.lossA.Torn? {
      var up := v.up && v.lossA.Whole?;
      CarriedWeakens(v.queuedA, DataOf(v.toA, s, false), v.gotB, Heard(v, s) || v.maps, up, Heard(v, s) || maps, up);
    }
    hide Carried, DataOf, NoAnswer, AnswerFirst;
  }

  /** Frames that are not data for the link join the queue to the destination. */
  lemma GoodBesideB(v: View, s: U32, frames: seq<Frame>)
    requires Good(v, s) && NoData(frames, s, true)
    ensures Good(v.(toB := v.toB + frames), s)
  {
    DataOfAppend(v.toB, frames, s, true);
    NoDataIsEmpty(frames, s, true);
    assert DataOf(v.toB, s, true) + [] == DataOf(v.toB, s, true);
    if v.waiting {
      NoDataMore(v.toB, frames, s, true);
    }
    hide Carried, DataOf, NoAnswer, AnswerFirst, NoData;
  }

  /** The link's own destination connection is read. */
  lemma GoodReadB(v: View, s: U32, frames: seq<Frame>, x: ByteString, up: bool)
    requires Good(v, s) && (up ==> v.up) && NoAnswer(frames, s)
    requires DataOf(frames, s, false) == if v.up then x else []
    ensures Good(v.(toA := v.toA + frames, gotB := v.gotB + x, up := up, lossA := AfterLoss(v.lossA, v.up, x)), s)
  {
    var flying, sender := DataOf(v.toA, s, false), v.up && v.lossA.Whole?;
    var receiver := Heard(v, s) || v.maps;
    AnswersStay(v, s, frames);
    DataOfAppend(v.toA, frames, s, false);
    assert flying + [] == flying && v.gotB + [] == v.gotB;
    if !v.lossA.Torn? {
      CarriedRead(v.queuedA, flying, v.gotB, x, receiver, sender);
      if sender {
        CarriedWeakens(v.queuedA, flying + x, v.gotB + x, receiver, true, receiver, up);
      }
      CarriedWeakens(v.queuedA, flying, v.gotB, receiver, sender, receiver, false);
    }
    if !v.lossB.Torn? {
      var sends := v.sends && v.lossB.Whole?;
      CarriedWeakens(v.queuedB, DataOf(v.toB, s, true), v.gotA, v.up, sends, up, sends);
    }
    hide Carried, DataOf, NoAnswer, AnswerFirst, NoData;
  }

  /** Frames without a response leave the place of the response alone. */
  lemma AnswersStay(v: View, s: U32, frames: seq<Frame>)
    requires Opening(v, s) && NoAnswer(frames, s)
    ensures var v' := v.(toA := v.toA + frames); Opening(v', s) && Heard(v', s) == Heard(v, s)
  {
    if AnswerFirst(v.toA, s) {
      AnswerFirstAppend(v.toA, frames, s);
    }
    if NoAnswer(v.toA, s) {
      NoAnswerMore(v.toA, frames, s);
      NotBoth(v.toA, s);
      NotBoth(v.toA + frames, s);
    }
    hide AnswerFirst, NoAnswer, NoData;
  }

  lemma {:induction false} NotBoth(frames: seq<Frame>, s: U32)
    ensures !(AnswerFirst(frames, s) && NoAnswer(frames, s))
  {
    if AnswerFirst(frames, s) && NoAnswer(frames, s) && !Answers(frames[0], s) {
      NotBoth(frames[1..], s);
    }
  }

  lemma GoodBesideA(v: View, s: U32, frames: seq<Frame>)
    requires Good(v, s) && NoData(frames, s, false) && NoAnswer(frames, s)
    ensures Good(v.(toA := v.toA + frames), s)
  {
    DataOfAppend(v.toA, frames, s, false);
    NoDataIsEmpty(frames, s, false);
    assert DataOf(v.toA, s, false) + [] == DataOf(v.toA, s, false);
    AnswersStay(v, s, frames);
    hide Carried, DataOf, NoAnswer, AnswerFirst, NoData;
  }

  /** The destination handles a frame: the link's data is queued, or the link goes down. */
  lemma GoodTakeB(v: View, s: U32, up: bool, queuedB: ByteString)
    requires Good(v, s) && v.toB != []
    requires up ==> v.up && queuedB == v.queuedB + Payload(v.toB[0], s, true)
    requires !up ==> queuedB == v.queuedB
    ensures Good(v.(toB := v.toB[1..], up := up, queuedB := queuedB), s)
  {
    TailOf(v.toB, s, true);
    if !v.lossB.Torn? {
      CarriedTake(v.queuedB, Payload(v.toB[0], s, true), DataOf(v.toB[1..], s, true), v.gotA,
                  v.up, v.sends && v.lossB.Whole?);
    }
    if !v.lossA.Torn? {
      var receiver := Heard(v, s) || v.maps;
      CarriedWeakens(v.queuedA, DataOf(v.toA, s, false), v.gotB, receiver, v.up && v.lossA.Whole?,
                     receiver, up && v.lossA.Whole?);
    }
    hide Carried, DataOf, NoData, NoAnswer, AnswerFirst, Payload;
  }

  /** The source handles a frame that is not the link's response. */
  lemma GoodTakeA(v: View, s: U32, maps: bool, queuedA: ByteString)
    requires Good(v, s) && v.toA != [] && !Answers(v.toA[0], s)
    requires maps ==> v.maps && queuedA == v.queuedA + Payload(v.toA[0], s, false)
    requires !maps ==> queuedA == v.queuedA
    ensures Good(v.(toA := v.toA[1..], maps := maps, queuedA := queuedA), s)
  {
    var v' := v.(toA := v.toA[1..], maps := maps, queuedA := queuedA);
    var x, flying := Payload(v.toA[0], s, false), DataOf(v.toA[1..], s, false);
    TailOf(v.toA, s, false);
    assert AnswerFirst(v.toA, s) ==> AnswerFirst(v.toA[1..], s) && x == [];
    NotBoth(v.toA[1..], s);
    assert Heard(v', s) ==> Heard(v, s) && x == [];
    assert v.queuedA + [] == v.queuedA && [] + flying == flying;
    if !v.lossA.Torn? {
      var sender := v.up && v.lossA.Whole?;
      CarriedTake(v.queuedA, x, flying, v.gotB, Heard(v, s) || v.maps, sender);
      CarriedWeakens(v.queuedA, x + flying, v.gotB, Heard(v, s) || v.maps, sender, Heard(v', s), sender);
    }
    hide Carried, DataOf, NoData, NoAnswer, AnswerFirst, Payload;
  }

  lemma GoodPassA(v: View, s: U32)
    requires Good(v, s) && v.toA != [] && !Answers(v.toA[0], s) && !IsData(v.toA[0], s, false)
    ensures Good(v.(toA := v.toA[1..]), s)
  {
    assert v.queuedA + Payload(v.toA[0], s, false) == v.queuedA;
    GoodTakeA(v, s, v.maps, v.queuedA);
    hide Good;
  }

  lemma GoodPassB(v: View, s: U32)
    requires Good(v, s) && v.toB != [] && !IsData(v.toB[0], s, true)
    ensures Good(v.(toB := v.toB[1..]), s)
  {
    assert v.queuedB + Payload(v.toB[0], s, true) == v.queuedB;
    GoodTakeB(v, s, v.up, v.queuedB);
    hide Good;
  }

  /** The source handles the link's response. */
  lemma GoodOpened(v: View, s: U32)
    requires Good(v, s) && v.toA != [] && Answers(v.toA[0], s)
    ensures v.waiting
    ensures Good(v.(toA := v.toA[1..], waiting := false, sends := true, maps := true), s)
  {
    TailOf(v.toA, s, false);
    NoDataIsEmpty(v.toB, s, true);
    assert AnswerFirst(v.toA, s) && v.waiting;
    assert Payload(v.toA[0], s, false) == [];
    assert [] + DataOf(v.toA[1..], s, false) == DataOf(v.toA[1..], s, false);
    assert v.queuedB + [] == v.queuedB;
    hide DataOf, NoData, NoAnswer, AnswerFirst;
  }

  // ---- losing a frame ----

  /** A frame with bytes that is lost cuts the stream; one that has more behind it tears it. */
  function AfterLosing(loss: Loss, frames: seq<Frame>, i: nat, s: U32, d: bool): Loss
    requires i < |frames|
  {
    if !HasBytes(frames[i], s, d) then loss
    else if loss.Torn? || !NoBytes(frames[i + 1..], s, d) then Torn
    else Cut
  }

  lemma GoodLoseB(v: View, s: U32, i: nat)
    requires Good(v, s) && i < |v.toB|
    ensures Good(v.(toB := Without(v.toB, i), lossB := AfterLosing(v.lossB, v.toB, i, s, true)), s)
  {
    LostData(v.toB, i, s, true);
    LostNone(v.toB, i, s, true);
    if !v.lossB.Torn? && NoBytes(v.toB[i + 1..], s, true) {
      CarriedCut(v.queuedB, DataOf(v.toB, s, true), DataOf(Without(v.toB, i), s, true), v.gotA,
                 v.up, v.sends && v.lossB.Whole?);
    }
    hide Carried, DataOf, NoData, NoAnswer, AnswerFirst, Without, NoBytes, HasBytes;
  }

  lemma GoodLoseA(v: View, s: U32, i: nat)
    requires Good(v, s) && i < |v.toA|
    ensures Good(v.(toA := Without(v.toA, i), lossA := AfterLosing(v.lossA, v.toA, i, s, false)), s)
  {
    var v' := v.(toA := Without(v.toA, i), lossA := AfterLosing(v.lossA, v.toA, i, s, false));
    var flying, less, sender := DataOf(v.toA, s, false), DataOf(v'.toA, s, false), v.up && v.lossA.Whole?;
    LostData(v.toA, i, s, false);
    LostNone(v.toA, i, s, false);
    if AnswerFirst(v.toA, s) {
      LostAnswer(v.toA, i, s);
    }
    NotBoth(v.toA, s);
    NotBoth(v'.toA, s);
    assert Opening(v', s) && (Heard(v', s) ==> Heard(v, s)) by { hide DataOf, NoBytes, HasBytes, Without; }
    if !v.lossA.Torn? {
      if NoBytes(v.toA[i + 1..], s, false) {
        CarriedCut(v.queuedA, flying, less, v.gotB, Heard(v, s) || v.maps, sender);
        CarriedWeakens(v.queuedA, less, v.gotB, Heard(v, s) || v.maps, false, Heard(v', s) || v.maps, false);
      }
      CarriedWeakens(v.queuedA, flying, v.gotB, Heard(v, s) || v.maps, sender, Heard(v', s) || v.maps, sender);
    }
    hide Carried, DataOf, NoData, NoAnswer, AnswerFirst, Without, NoBytes, HasBytes, Opening, Heard;
  }
}
