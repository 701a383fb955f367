// The byte stream of one operator connection: the loop that reads and answers,
// with the whole order of its reads and answers, and the incremental splitter
// its replies are read back with. A frame is a four-byte length and that many bytes.
module OperatorStream {
  import opened Common
  import opened Framing

  // ---- splitting ------------------------------------------------------------

  datatype Split = Split(bodies: seq<Bytes>, rest: Bytes)

  predicate Complete(buf: Bytes) {
    |buf| >= 4 && |buf| - 4 >= U32(buf)
  }

  // The frames a stream holds, and what is left of one that is not all there.
  function SplitFrames(buf: Bytes): (s: Split)
    ensures |s.rest| <= |buf|
  {
    if !Complete(buf) then Split([], buf)
    else
      var n := U32(buf);
      var s := SplitFrames(buf[4 + n..]);
      Split([buf[4..4 + n]] + s.bodies, s.rest)
  }

  // The bodies already split off, ahead of those the rest splits into.
  function Ahead(bodies: seq<Bytes>, s: Split): Split {
    Split(bodies + s.bodies, s.rest)
  }

  lemma OneAhead(bodies: seq<Bytes>, rest: Bytes)
    requires Complete(rest)
    ensures var n := U32(rest);
            Ahead(bodies, SplitFrames(rest)) == Ahead(bodies + [rest[4..4 + n]], SplitFrames(rest[4 + n..]))
  {
    var n := U32(rest);
    var body, s := rest[4..4 + n], SplitFrames(rest[4 + n..]);
    SplitStep(rest);
    hide SplitFrames, U32, Complete;
    OneMoreBody(bodies, body, s.bodies);
  }

  lemma SplitStep(buf: Bytes)
    requires Complete(buf)
    ensures var n := U32(buf); var s := SplitFrames(buf[4 + n..]);
            SplitFrames(buf) == Split([buf[4..4 + n]] + s.bodies, s.rest)
  {}

  lemma OneMoreBody(bodies: seq<Bytes>, body: Bytes, others: seq<Bytes>)
    ensures bodies + ([body] + others) == (bodies + [body]) + others
  {}

  lemma NoneAhead(bodies: seq<Bytes>, rest: Bytes)
    requires !Complete(rest)
    ensures Ahead(bodies, SplitFrames(rest)) == Split(bodies, rest)
  {}

  lemma AheadOfNothing(s: Split)
    ensures Ahead([], s) == s
  {}

  // Bodies whose length and the four bytes before it add up to a uint32.
  predicate Sliceable(bodies: seq<Bytes>) {
    forall i :: 0 <= i < |bodies| ==> |bodies[i]| < TWO32 - 4
  }

  // The sum of a uint32 and four is a uint32, and may wrap: then the slice it
  // bounds ends before it begins, and the program panics. It does so exactly on
  // a stream that holds such a frame whole.
  method Frames(buf: Bytes) returns (ok: bool, bodies: seq<Bytes>, rest: Bytes)
    ensures ok <==> Sliceable(SplitFrames(buf).bodies)
    ensures ok ==> Split(bodies, rest) == SplitFrames(buf)
  {
    bodies, rest := [], buf;
    AheadOfNothing(SplitFrames(buf));
    hide SplitFrames, U32;
    while |rest| >= 4
      invariant SplitFrames(buf) == Ahead(bodies, SplitFrames(rest)) && Sliceable(bodies)
      decreases |rest|
    {
      var n := U32(rest);
      if |rest| - 4 < n { break; }
      OneAhead(bodies, rest);
      var end := (4 + n) % TWO32;
      if end < 4 {
        TooLongAhead(bodies, rest[4..4 + n], SplitFrames(rest[4 + n..]));
        return false, bodies, rest;
      }
      bodies := bodies + [rest[4..end]];
      rest := rest[end..];
    }
    NoneAhead(bodies, rest);
    ok := true;
  }

  lemma TooLongAhead(bodies: seq<Bytes>, body: Bytes, s: Split)
    requires |body| >= TWO32 - 4
    ensures !Sliceable(Ahead(bodies + [body], s).bodies)
  {
    assert Ahead(bodies + [body], s).bodies[|bodies|] == body;
  }

  // No buffer under 2^32 bytes holds such a frame.
  lemma {:induction false} SmallIsSliceable(buf: Bytes)
    requires |buf| < TWO32
    ensures Sliceable(SplitFrames(buf).bodies)
  {
    if Complete(buf) {
      var n := U32(buf);
      SplitStep(buf);
      SmallIsSliceable(buf[4 + n..]);
      hide SplitFrames, U32;
      var s := SplitFrames(buf[4 + n..]);
      forall i | 0 <= i < |SplitFrames(buf).bodies|
        ensures |SplitFrames(buf).bodies[i]| < TWO32 - 4
      {
        if i > 0 { assert SplitFrames(buf).bodies[i] == s.bodies[i - 1]; }
      }
    }
  }

  // The bodies and the remainder make up the stream, and the remainder starts no
  // complete frame.
  lemma {:induction false} SplitSound(buf: Bytes)
    ensures var s := SplitFrames(buf); Short(s.bodies) && Framed(s.bodies) + s.rest == buf && !Complete(s.rest)
  {
    if Complete(buf) {
      var n := U32(buf);
      var body, tail := buf[4..4 + n], buf[4 + n..];
      var t := SplitFrames(tail);
      assert SplitFrames(buf) == Split([body] + t.bodies, t.rest);
      PeelBack(buf);
      hide SplitFrames, Complete, Framed, FrameOne, Short;
      SplitSound(tail);
      FramedCons(body, t.bodies);
      Associate(FrameOne(body), Framed(t.bodies), t.rest);
    }
  }

  lemma {:induction false} SplitComplete(bodies: seq<Bytes>, rest: Bytes)
    requires Short(bodies) && !Complete(rest)
    ensures SplitFrames(Framed(bodies) + rest) == Split(bodies, rest)
  {
    if bodies == [] {
      assert Framed(bodies) + rest == rest;
    } else {
      var tail := Framed(bodies[1..]) + rest;
      assert Framed(bodies) + rest == FrameOne(bodies[0]) + tail;
      Peel(bodies[0], tail, Framed(bodies) + rest);
      SplitComplete(bodies[1..], rest);
      assert bodies == [bodies[0]] + bodies[1..];
    }
  }

  // A stream splits as what its first part leaves over, and the rest of it, does.
  lemma {:induction false} SplitResumes(a: Bytes, b: Bytes)
    ensures var s, t := SplitFrames(a), SplitFrames(SplitFrames(a).rest + b);
            SplitFrames(a + b) == Split(s.bodies + t.bodies, t.rest)
  {
    hide SplitFrames, Framed, Complete, Short;
    var s, t := SplitFrames(a), SplitFrames(SplitFrames(a).rest + b);
    SplitSound(a);
    SplitSound(s.rest + b);
    FramedJoins(s.bodies, t.bodies);
    Associate(Framed(s.bodies), Framed(t.bodies), t.rest);
    Associate(Framed(s.bodies), s.rest, b);
    SplitComplete(s.bodies + t.bodies, t.rest);
  }

  function Concat(chunks: seq<Bytes>): Bytes {
    if chunks == [] then [] else Concat(chunks[..|chunks| - 1]) + chunks[|chunks| - 1]
  }

  // Reading a stream in any chunks finds the frames that reading it whole finds,
  // and panics at the first chunk that completes a frame no slice can bound. It
  // stops early once enough frames have come, where a number was asked for.
  method Observe(chunks: seq<Bytes>, untilFrames: nat)
    returns (ok: bool, frames: seq<Bytes>, trailing: Bytes, used: nat)
    ensures used <= |chunks|
    ensures ok <==> Sliceable(SplitFrames(Concat(chunks[..used])).bodies)
    ensures ok ==> Split(frames, trailing) == SplitFrames(Concat(chunks[..used]))
    ensures ok && used < |chunks| ==> 0 < untilFrames <= |frames|
    ensures used > 0 ==>
              var before := SplitFrames(Concat(chunks[..used - 1])).bodies;
              Sliceable(before) && (untilFrames > 0 ==> |before| < untilFrames)
  {
    hide SplitFrames;
    frames, trailing, used := [], [], 0;
    EmptyStream();
    assert chunks[..0] == [];
    while used < |chunks|
      invariant used <= |chunks|
      invariant Split(frames, trailing) == SplitFrames(Concat(chunks[..used])) && Sliceable(frames)
      invariant untilFrames > 0 ==> |frames| < untilFrames
      invariant used > 0 ==>
                  var before := SplitFrames(Concat(chunks[..used - 1])).bodies;
                  Sliceable(before) && (untilFrames > 0 ==> |before| < untilFrames)
    {
      var chunk := chunks[used];
      ConcatNext(chunks, used);
      SplitResumes(Concat(chunks[..used]), chunk);
      var sliced, bodies, rest := Frames(trailing + chunk);
      used := used + 1;
      ghost var more := SplitFrames(trailing + chunk).bodies;
      SliceableTogether(frames, more);
      if !sliced { return false, frames, trailing, used; }
      frames, trailing := frames + bodies, rest;
      if untilFrames > 0 && |frames| >= untilFrames { return true, frames, trailing, used; }
    }
    ok := true;
  }

  lemma EmptyStream()
    ensures SplitFrames([]) == Split([], [])
  {}

  lemma ConcatNext(chunks: seq<Bytes>, k: nat)
    requires k < |chunks|
    ensures Concat(chunks[..k + 1]) == Concat(chunks[..k]) + chunks[k]
  {
    assert chunks[..k + 1][..k] == chunks[..k];
  }

  lemma SliceableTogether(a: seq<Bytes>, b: seq<Bytes>)
    ensures Sliceable(a + b) <==> Sliceable(a) && Sliceable(b)
  {
    if Sliceable(a + b) {
      assert forall i :: 0 <= i < |a| ==> a[i] == (a + b)[i];
      assert forall i :: 0 <= i < |b| ==> b[i] == (a + b)[|a| + i];
    }
  }

  // ---- answering ------------------------------------------------------------

  // What a handler leaves to send: a response, an error code's frame, nothing,
  // or a response that does not encode.
  datatype Answer = Reply(body: Bytes) | Refusal(body: Bytes) | Silence | Unencodable

  datatype End = EndOfStream | TooLarge | Unanswered | Unencoded | Unsent

  // A read up to a position of the stream, or an answer handed to the socket.
  datatype Event = Consumed(upto: nat) | Answered(body: Bytes, sent: bool)

  function Answers(log: seq<Event>): seq<Bytes> {
    if log == [] then []
    else
      var e := log[|log| - 1];
      Answers(log[..|log| - 1]) + if e.Answered? then [e.body] else []
  }

  lemma AnswersAppend(log: seq<Event>, e: Event)
    ensures Answers(log + [e]) == Answers(log) + if e.Answered? then [e.body] else []
  {
    assert (log + [e])[..|log + [e]| - 1] == log;
  }

  // The answers of the first m requests.
  function Expected(dispatch: (nat, Bytes) -> Answer, bodies: seq<Bytes>, m: nat): (out: seq<Bytes>)
    requires m <= |bodies|
    requires forall j :: 0 <= j < m ==> dispatch(j, bodies[j]).Reply? || dispatch(j, bodies[j]).Refusal?
    ensures |out| == m
  {
    seq(m, j requires 0 <= j < m => dispatch(j, bodies[j]).body)
  }

  // Where the first j frames end.
  function EndOf(bodies: seq<Bytes>, j: nat): nat
    requires j <= |bodies| && Short(bodies)
  {
    |Framed(bodies[..j])|
  }

  // No byte past a request is read before that request's answer is handed over.
  ghost predicate OneInFlight(log: seq<Event>, bodies: seq<Bytes>)
    requires Short(bodies)
  {
    forall i, j :: 0 <= i < |log| && log[i].Consumed? && 0 < j <= |bodies| && log[i].upto > EndOf(bodies, j)
      ==> |Answers(log[..i])| >= j
  }

  // Where the stream has been read to when the answer after j others is handed
  // over: the end of request j, or for the answer to a frame too large to read,
  // the end of that frame's prefix.
  function AnsweredAt(bodies: seq<Bytes>, m: nat, j: nat): nat
    requires Short(bodies) && m <= |bodies|
  {
    if j < m then EndOf(bodies, j + 1) else EndOf(bodies, m) + 4
  }

  // Every answer directly follows the read that completes what it answers.
  ghost predicate ReadFirst(log: seq<Event>, bodies: seq<Bytes>, m: nat)
    requires Short(bodies) && m <= |bodies|
  {
    forall i :: 0 <= i < |log| && log[i].Answered? ==>
      i > 0 && log[i - 1] == Consumed(AnsweredAt(bodies, m, |Answers(log[..i])|))
  }

  // Reads only go forward, and none goes past this position.
  ghost predicate Rising(log: seq<Event>, bound: nat) {
    && (forall i, j :: 0 <= i < j < |log| && log[i].Consumed? && log[j].Consumed? ==> log[i].upto <= log[j].upto)
    && (forall i :: 0 <= i < |log| && log[i].Consumed? ==> log[i].upto <= bound)
  }

  ghost predicate Orderly(log: seq<Event>, bodies: seq<Bytes>, m: nat, bound: nat) {
    && Short(bodies) && m <= |bodies|
    && OneInFlight(log, bodies) && ReadFirst(log, bodies, m) && Rising(log, bound)
  }

  lemma EndOfNext(bodies: seq<Bytes>, j: nat)
    requires Short(bodies) && j < |bodies|
    ensures Framed(bodies[..j + 1]) == Framed(bodies[..j]) + FrameOne(bodies[j])
    ensures EndOf(bodies, j + 1) == EndOf(bodies, j) + 4 + |bodies[j]|
  {
    assert bodies[..j + 1] == bodies[..j] + [bodies[j]];
    FramedJoins(bodies[..j], [bodies[j]]);
    FramedCons(bodies[j], []);
    assert [bodies[j]] + [] == [bodies[j]];
  }

  lemma {:induction false} EndsRise(bodies: seq<Bytes>, i: nat, j: nat)
    requires Short(bodies) && i <= j <= |bodies|
    ensures EndOf(bodies, i) <= EndOf(bodies, j)
    decreases j - i
  {
    if i < j {
      EndOfNext(bodies, i);
      EndsRise(bodies, i + 1, j);
    }
  }

  // Where m frames have been read, the rest of the stream holds the others.
  ghost predicate ReadTo(input: Bytes, pos: nat, m: nat) {
    var s := SplitFrames(input);
    && Short(s.bodies) && m <= |s.bodies| && pos <= |input| && pos == EndOf(s.bodies, m)
    && Remain(s, SplitFrames(input[pos..]), m)
  }

  predicate Remain(s: Split, t: Split, m: nat) {
    && m + |t.bodies| == |s.bodies| && s.rest == t.rest
    && forall i :: 0 <= i < |t.bodies| ==> t.bodies[i] == s.bodies[m + i]
  }

  // One body more, and then what the other holds.
  predicate OneMore(t: Split, body: Bytes, u: Split) {
    t.bodies == [body] + u.bodies && t.rest == u.rest
  }

  lemma SplitAt(input: Bytes, pos: nat)
    requires pos <= |input| && Complete(input[pos..])
    ensures var n := U32(input[pos..]);
            pos + 4 + n <= |input|
            && OneMore(SplitFrames(input[pos..]), input[pos + 4..pos + 4 + n], SplitFrames(input[pos + 4 + n..]))
  {
    hide *;
    SplitStep(input[pos..]);
    CompleteFits(input[pos..]);
    Sliced(input, pos, U32(input[pos..]));
    Same(SplitFrames(input[pos..]), input[pos + 4..pos + 4 + U32(input[pos..])],
         SplitFrames(input[pos + 4 + U32(input[pos..])..]));
  }

  lemma CompleteFits(buf: Bytes)
    requires Complete(buf)
    ensures |buf| >= 4 + U32(buf)
  {}

  lemma Same(t: Split, body: Bytes, u: Split)
    requires t == Split([body] + u.bodies, u.rest)
    ensures OneMore(t, body, u)
  {}

  lemma ReadNext(input: Bytes, pos: nat, m: nat)
    requires ReadTo(input, pos, m) && Complete(input[pos..])
    ensures var n := U32(input[pos..]);
            && m < |SplitFrames(input).bodies| && SplitFrames(input).bodies[m] == input[pos + 4..pos + 4 + n]
            && ReadTo(input, pos + 4 + n, m + 1)
  {
    hide *;
    ReadParts(input, pos, m);
    SplitAt(input, pos);
    var n := U32(input[pos..]);
    var body := input[pos + 4..pos + 4 + n];
    ReadOver(input, pos, m, pos + 4 + n, body);
  }

  lemma ReadOver(input: Bytes, pos: nat, m: nat, next: nat, body: Bytes)
    requires pos <= next == pos + 4 + |body| <= |input|
    requires var s := SplitFrames(input); Short(s.bodies) && m <= |s.bodies| && pos == EndOf(s.bodies, m)
    requires Remain(SplitFrames(input), SplitFrames(input[pos..]), m)
    requires OneMore(SplitFrames(input[pos..]), body, SplitFrames(input[next..]))
    ensures m < |SplitFrames(input).bodies| && SplitFrames(input).bodies[m] == body && ReadTo(input, next, m + 1)
  {
    var s, t, u := SplitFrames(input), SplitFrames(input[pos..]), SplitFrames(input[next..]);
    hide SplitFrames, EndOf, Short, ReadTo;
    RemainNext(s, t, u, body, m);
    hide Remain, OneMore;
    EndsNext(s.bodies, m);
    PartsRead(input, next, m + 1);
  }

  lemma RemainNext(s: Split, t: Split, u: Split, body: Bytes, m: nat)
    requires Remain(s, t, m) && OneMore(t, body, u)
    ensures m < |s.bodies| && s.bodies[m] == body && Remain(s, u, m + 1)
  {
    assert t.bodies[0] == s.bodies[m + 0];
    forall i | 0 <= i < |u.bodies|
      ensures u.bodies[i] == s.bodies[m + 1 + i]
    {
      assert t.bodies[i + 1] == s.bodies[m + (i + 1)];
    }
  }

  lemma ReadParts(input: Bytes, pos: nat, m: nat)
    requires ReadTo(input, pos, m)
    ensures var s := SplitFrames(input);
            && Short(s.bodies) && m <= |s.bodies| && pos <= |input| && pos == EndOf(s.bodies, m)
            && Remain(s, SplitFrames(input[pos..]), m)
  {}

  lemma PartsRead(input: Bytes, pos: nat, m: nat)
    requires var s := SplitFrames(input);
             && Short(s.bodies) && m <= |s.bodies| && pos <= |input| && pos == EndOf(s.bodies, m)
             && Remain(s, SplitFrames(input[pos..]), m)
    ensures ReadTo(input, pos, m)
  {}

  lemma EndsNext(bodies: seq<Bytes>, j: nat)
    requires Short(bodies) && j < |bodies|
    ensures EndOf(bodies, j + 1) == EndOf(bodies, j) + 4 + |bodies[j]|
  {
    EndOfNext(bodies, j);
  }

  lemma Sliced(input: Bytes, pos: nat, n: nat)
    requires pos + 4 + n <= |input|
    ensures input[pos..][4..4 + n] == input[pos + 4..pos + 4 + n] && input[pos..][4 + n..] == input[pos + 4 + n..]
  {}

  lemma ReadLast(input: Bytes, pos: nat, m: nat)
    requires ReadTo(input, pos, m) && !Complete(input[pos..])
    ensures var s := SplitFrames(input); m == |s.bodies| && s.rest == input[pos..]
  {}

  lemma Ending(input: Bytes, pos: nat, m: nat)
    requires ReadTo(input, pos, m) && !Complete(input[pos..])
    ensures var s := SplitFrames(input);
            Short(s.bodies) && m == |s.bodies| && s.rest == input[pos..] && pos == EndOf(s.bodies, m) <= |input|
  {
    ReadLast(input, pos, m);
  }

  lemma Reading(input: Bytes, pos: nat, m: nat)
    requires ReadTo(input, pos, m) && Complete(input[pos..])
    ensures var s, n := SplitFrames(input), U32(input[pos..]);
            && Short(s.bodies) && m < |s.bodies| && pos == EndOf(s.bodies, m) <= |input|
            && s.bodies[m] == input[pos + 4..pos + 4 + n] && EndOf(s.bodies, m + 1) == pos + 4 + n
            && ReadTo(input, pos + 4 + n, m + 1)
  {
    ReadNext(input, pos, m);
  }

  // What may be read next: the rest of the one request not answered yet.
  lemma ConsumeKeeps(log: seq<Event>, bodies: seq<Bytes>, m: nat, bound: nat, upto: nat)
    requires Orderly(log, bodies, m, bound) && bound <= upto
    requires var k := |Answers(log)|; k == |bodies| || (k < |bodies| && upto <= EndOf(bodies, k + 1))
    ensures Answers(log + [Consumed(upto)]) == Answers(log) && Orderly(log + [Consumed(upto)], bodies, m, upto)
  {
    var out := log + [Consumed(upto)];
    AnswersAppend(log, Consumed(upto));
    hide Answers, EndOf, Short, AnsweredAt;
    var k := |Answers(log)|;
    assert forall i :: 0 <= i <= |log| ==> out[..i] == log[..i];
    assert log[..|log|] == log;
    forall i, j | 0 <= i < |out| && out[i].Consumed? && 0 < j <= |bodies| && out[i].upto > EndOf(bodies, j)
      ensures |Answers(out[..i])| >= j
    {
      if i == |log| && j > k { EndsRise(bodies, k + 1, j); }
    }
  }

  lemma AnswerKeeps(log: seq<Event>, bodies: seq<Bytes>, m: nat, bound: nat, body: Bytes, sent: bool)
    requires Orderly(log, bodies, m, bound)
    requires log != [] && log[|log| - 1] == Consumed(AnsweredAt(bodies, m, |Answers(log)|))
    ensures Answers(log + [Answered(body, sent)]) == Answers(log) + [body]
    ensures Orderly(log + [Answered(body, sent)], bodies, m, bound)
  {
    var out := log + [Answered(body, sent)];
    AnswersAppend(log, Answered(body, sent));
    hide Answers, EndOf, Short, AnsweredAt;
    assert forall i :: 0 <= i <= |log| ==> out[..i] == log[..i];
    assert log[..|log|] == log;
  }

  lemma ExpectedNext(dispatch: (nat, Bytes) -> Answer, bodies: seq<Bytes>, m: nat)
    requires m < |bodies|
    requires forall j :: 0 <= j <= m ==> dispatch(j, bodies[j]).Reply? || dispatch(j, bodies[j]).Refusal?
    ensures Expected(dispatch, bodies, m + 1) == Expected(dispatch, bodies, m) + [dispatch(m, bodies[m]).body]
  {}

  predicate Answerable(dispatch: (nat, Bytes) -> Answer, bodies: seq<Bytes>, m: nat)
    requires m <= |bodies|
  {
    forall j :: 0 <= j < m ==> dispatch(j, bodies[j]).Reply? || dispatch(j, bodies[j]).Refusal?
  }

  // The events of the first m requests: a prefix read, a body read, an answer.
  function Rounds(dispatch: (nat, Bytes) -> Answer, sendOk: nat -> bool, bodies: seq<Bytes>, m: nat): seq<Event>
    requires Short(bodies) && m <= |bodies| && Answerable(dispatch, bodies, m)
  {
    if m == 0 then []
    else
      Rounds(dispatch, sendOk, bodies, m - 1)
      + [Consumed(EndOf(bodies, m - 1) + 4), Consumed(EndOf(bodies, m)),
         Answered(dispatch(m - 1, bodies[m - 1]).body, sendOk(m - 1))]
  }

  // And those after them, by how the loop ends.
  function Closing(input: Bytes, sendOk: nat -> bool, tooLarge: Bytes, bodies: seq<Bytes>, m: nat, end: End): seq<Event>
    requires Short(bodies) && m <= |bodies|
  {
    var pos := EndOf(bodies, m);
    match end
    case EndOfStream =>
      if |input| < pos + 4 then [Consumed(|input|)] else [Consumed(pos + 4), Consumed(|input|)]
    case TooLarge => [Consumed(pos + 4), Answered(tooLarge, sendOk(m))]
    case Unsent => []
    case _ => [Consumed(pos + 4), Consumed(if m < |bodies| then EndOf(bodies, m + 1) else |input|)]
  }

  lemma AnsweredNext(bodies: seq<Bytes>, m: nat, k: nat)
    requires Short(bodies) && k < m <= |bodies|
    ensures AnsweredAt(bodies, m, k) == EndOf(bodies, k + 1)
  {
    hide EndOf, Short;
  }

  // One more request read and answered.
  lemma RoundKeeps(log: seq<Event>, bodies: seq<Bytes>, m: nat, k: nat, body: Bytes, sent: bool)
    requires k < m <= |bodies| && Short(bodies) && Orderly(log, bodies, m, EndOf(bodies, k)) && |Answers(log)| == k
    ensures var pos, next := EndOf(bodies, k), EndOf(bodies, k + 1);
            var out := log + [Consumed(pos + 4)] + [Consumed(next)] + [Answered(body, sent)];
            Orderly(out, bodies, m, next) && Answers(out) == Answers(log) + [body]
  {
    hide Orderly, Answers, EndOf, Short, AnsweredAt;
    EndsNext(bodies, k);
    AnsweredNext(bodies, m, k);
    var pos, next := EndOf(bodies, k), EndOf(bodies, k + 1);
    ConsumeKeeps(log, bodies, m, pos, pos + 4);
    ConsumeKeeps(log + [Consumed(pos + 4)], bodies, m, pos + 4, next);
    AnswerKeeps(log + [Consumed(pos + 4)] + [Consumed(next)], bodies, m, next, body, sent);
  }

  lemma {:induction false} RoundsOrderly(
    dispatch: (nat, Bytes) -> Answer, sendOk: nat -> bool, bodies: seq<Bytes>, k: nat, m: nat)
    requires Short(bodies) && k <= m <= |bodies| && Answerable(dispatch, bodies, k)
    ensures var log := Rounds(dispatch, sendOk, bodies, k);
            Orderly(log, bodies, m, EndOf(bodies, k)) && Answers(log) == Expected(dispatch, bodies, k)
    decreases k
  {
    if k == 0 {
    } else {
      hide Rounds, Orderly, Answers, EndOf, Short, Expected;
      RoundsOrderly(dispatch, sendOk, bodies, k - 1, m);
      ExpectedNext(dispatch, bodies, k - 1);
      RoundsUnfold(dispatch, sendOk, bodies, k);
      RoundKeeps(Rounds(dispatch, sendOk, bodies, k - 1), bodies, m, k - 1, dispatch(k - 1, bodies[k - 1]).body,
                 sendOk(k - 1));
    }
  }

  lemma RoundsUnfold(dispatch: (nat, Bytes) -> Answer, sendOk: nat -> bool, bodies: seq<Bytes>, k: nat)
    requires Short(bodies) && 0 < k <= |bodies| && Answerable(dispatch, bodies, k)
    ensures Rounds(dispatch, sendOk, bodies, k)
            == Rounds(dispatch, sendOk, bodies, k - 1)
               + [Consumed(EndOf(bodies, k - 1) + 4)] + [Consumed(EndOf(bodies, k))]
               + [Answered(dispatch(k - 1, bodies[k - 1]).body, sendOk(k - 1))]
  {}

  // Why the loop may end, having answered m requests.
  ghost predicate Rightly(input: Bytes, max: nat, dispatch: (nat, Bytes) -> Answer, sendOk: nat -> bool, m: nat,
                          end: End)
  {
    var s := SplitFrames(input);
    && Short(s.bodies) && m <= |s.bodies| && EndOf(s.bodies, m) <= |input|
    && match end
       case EndOfStream => m == |s.bodies| && (|s.rest| < 4 || U32(s.rest) <= max)
       case TooLarge => var left := input[EndOf(s.bodies, m)..]; |left| >= 4 && U32(left) > max
       case Unanswered => m < |s.bodies| && |s.bodies[m]| <= max && dispatch(m, s.bodies[m]).Silence?
       case Unencoded => m < |s.bodies| && |s.bodies[m]| <= max && dispatch(m, s.bodies[m]).Unencodable?
       case Unsent => m > 0 && dispatch(m - 1, s.bodies[m - 1]).Reply? && !sendOk(m - 1)
  }

  // Only a write that failed, of a response, ends the loop at once.
  predicate SentOn(dispatch: (nat, Bytes) -> Answer, sendOk: nat -> bool, bodies: seq<Bytes>, m: nat)
    requires m <= |bodies|
  {
    forall j :: 0 <= j < m ==> dispatch(j, bodies[j]).Refusal? || sendOk(j)
  }

  lemma ClosingTwo(log: seq<Event>, bodies: seq<Bytes>, m: nat, next: nat, bound: nat)
    requires Short(bodies) && m <= |bodies| && Orderly(log, bodies, m, EndOf(bodies, m)) && |Answers(log)| == m
    requires EndOf(bodies, m) + 4 <= next <= bound && (m < |bodies| ==> next <= EndOf(bodies, m + 1))
    ensures var out := log + [Consumed(EndOf(bodies, m) + 4), Consumed(next)];
            Orderly(out, bodies, m, bound) && Answers(out) == Answers(log)
  {
    hide Orderly, Answers, EndOf, Short;
    var pos := EndOf(bodies, m);
    ConsumeKeeps(log, bodies, m, pos, pos + 4);
    ConsumeKeeps(log + [Consumed(pos + 4)], bodies, m, pos + 4, next);
    var out := log + [Consumed(pos + 4)] + [Consumed(next)];
    assert out == log + [Consumed(pos + 4), Consumed(next)];
    Wider(out, bodies, m, next, bound);
  }

  lemma AnsweredLast(bodies: seq<Bytes>, m: nat)
    requires Short(bodies) && m <= |bodies|
    ensures AnsweredAt(bodies, m, m) == EndOf(bodies, m) + 4
  {
    hide EndOf, Short;
  }

  lemma ClosingTooLarge(log: seq<Event>, bodies: seq<Bytes>, m: nat, body: Bytes, sent: bool, bound: nat)
    requires Short(bodies) && m <= |bodies| && Orderly(log, bodies, m, EndOf(bodies, m)) && |Answers(log)| == m
    requires EndOf(bodies, m) + 4 <= bound
    ensures var out := log + [Consumed(EndOf(bodies, m) + 4), Answered(body, sent)];
            Orderly(out, bodies, m, bound) && Answers(out) == Answers(log) + [body]
  {
    hide Orderly, Answers, EndOf, Short, AnsweredAt;
    if m < |bodies| { EndsNext(bodies, m); }
    AnsweredLast(bodies, m);
    var pos := EndOf(bodies, m);
    ConsumeKeeps(log, bodies, m, pos, pos + 4);
    AnswerKeeps(log + [Consumed(pos + 4)], bodies, m, pos + 4, body, sent);
    var out := log + [Consumed(pos + 4)] + [Answered(body, sent)];
    assert out == log + [Consumed(pos + 4), Answered(body, sent)];
    Wider(out, bodies, m, pos + 4, bound);
  }

  // The whole log is orderly, however the loop ends.
  lemma LogOrderly(input: Bytes, max: nat, dispatch: (nat, Bytes) -> Answer, sendOk: nat -> bool, tooLarge: Bytes,
                   m: nat, end: End)
    requires Rightly(input, max, dispatch, sendOk, m, end)
    requires Answerable(dispatch, SplitFrames(input).bodies, m)
    ensures var bodies := SplitFrames(input).bodies;
            var log := Rounds(dispatch, sendOk, bodies, m) + Closing(input, sendOk, tooLarge, bodies, m, end);
            && Orderly(log, bodies, m, |input|)
            && Answers(log) == Expected(dispatch, bodies, m) + if end.TooLarge? then [tooLarge] else []
  {
    var bodies := SplitFrames(input).bodies;
    if m < |bodies| { EndWithin(input, m + 1); }
    RightlyFits(input, max, dispatch, sendOk, m, end);
    hide *;
    RoundsOrderly(dispatch, sendOk, bodies, m, m);
    var log := Rounds(dispatch, sendOk, bodies, m);
    ClosingOrderly(input, sendOk, tooLarge, bodies, m, end, log);
  }

  // What an end implies of where it comes.
  ghost predicate Fits(input: Bytes, bodies: seq<Bytes>, m: nat, end: End)
    requires Short(bodies) && m <= |bodies|
  {
    && EndOf(bodies, m) <= |input|
    && (m < |bodies| ==> EndOf(bodies, m) + 4 <= EndOf(bodies, m + 1) <= |input|)
    && (end.EndOfStream? ==> m == |bodies|)
    && (end.TooLarge? ==> EndOf(bodies, m) + 4 <= |input|)
    && (end.Unanswered? || end.Unencoded? ==> m < |bodies|)
  }

  lemma RightlyFits(input: Bytes, max: nat, dispatch: (nat, Bytes) -> Answer, sendOk: nat -> bool, m: nat, end: End)
    requires Rightly(input, max, dispatch, sendOk, m, end)
    ensures Fits(input, SplitFrames(input).bodies, m, end)
  {
    var bodies := SplitFrames(input).bodies;
    if m < |bodies| {
      EndsNext(bodies, m);
      EndWithin(input, m + 1);
    }
    hide SplitFrames, EndOf, Short, U32;
  }

  lemma ClosingOrderly(input: Bytes, sendOk: nat -> bool, tooLarge: Bytes, bodies: seq<Bytes>, m: nat, end: End,
                       log: seq<Event>)
    requires Short(bodies) && m <= |bodies| && Orderly(log, bodies, m, EndOf(bodies, m)) && |Answers(log)| == m
    requires Fits(input, bodies, m, end)
    ensures var out := log + Closing(input, sendOk, tooLarge, bodies, m, end);
            Orderly(out, bodies, m, |input|) && Answers(out) == Answers(log) + if end.TooLarge? then [tooLarge] else []
  {
    hide Orderly, Answers, EndOf, Short;
    var pos := EndOf(bodies, m);
    assert Answers(log) + [] == Answers(log);
    match end
    case Unsent =>
      assert log + [] == log;
      Wider(log, bodies, m, pos, |input|);
    case TooLarge => ClosingTooLarge(log, bodies, m, tooLarge, sendOk(m), |input|);
    case EndOfStream =>
      if |input| < pos + 4 {
        ConsumeKeeps(log, bodies, m, pos, |input|);
      } else {
        ClosingTwo(log, bodies, m, |input|, |input|);
      }
    case _ => ClosingTwo(log, bodies, m, EndOf(bodies, m + 1), |input|);
  }

  lemma Wider(log: seq<Event>, bodies: seq<Bytes>, m: nat, bound: nat, wider: nat)
    requires Orderly(log, bodies, m, bound) && bound <= wider
    ensures Orderly(log, bodies, m, wider)
  {
    hide OneInFlight, ReadFirst, Short;
  }

  lemma EndWithin(input: Bytes, m: nat)
    requires m <= |SplitFrames(input).bodies|
    ensures Short(SplitFrames(input).bodies) && EndOf(SplitFrames(input).bodies, m) <= |input|
  {
    var s := SplitFrames(input);
    SplitSound(input);
    EndsRise(s.bodies, m, |s.bodies|);
    assert s.bodies[..|s.bodies|] == s.bodies;
  }

  lemma EndedAtEnd(input: Bytes, max: nat, dispatch: (nat, Bytes) -> Answer, sendOk: nat -> bool, m: nat, pos: nat)
    requires ReadTo(input, pos, m) && !Complete(input[pos..])
    requires |input[pos..]| >= 4 ==> U32(input[pos..]) <= max
    ensures Rightly(input, max, dispatch, sendOk, m, EndOfStream)
  {
    ReadLast(input, pos, m);
  }

  lemma EndedTooLarge(input: Bytes, max: nat, dispatch: (nat, Bytes) -> Answer, sendOk: nat -> bool, m: nat, pos: nat)
    requires ReadTo(input, pos, m) && |input[pos..]| >= 4 && U32(input[pos..]) > max
    ensures Rightly(input, max, dispatch, sendOk, m, TooLarge)
  {
    hide SplitFrames, U32, EndOf, Short;
  }

  lemma EndedUnsaid(input: Bytes, max: nat, dispatch: (nat, Bytes) -> Answer, sendOk: nat -> bool, m: nat, pos: nat)
    requires ReadTo(input, pos, m) && m < |SplitFrames(input).bodies| && |SplitFrames(input).bodies[m]| <= max
    ensures var answer := dispatch(m, SplitFrames(input).bodies[m]);
            && (answer.Silence? ==> Rightly(input, max, dispatch, sendOk, m, Unanswered))
            && (answer.Unencodable? ==> Rightly(input, max, dispatch, sendOk, m, Unencoded))
  {
    hide SplitFrames, U32, EndOf, Short;
  }

  lemma EndedUnsent(input: Bytes, max: nat, dispatch: (nat, Bytes) -> Answer, sendOk: nat -> bool, m: nat, pos: nat)
    requires ReadTo(input, pos, m) && m > 0
    requires dispatch(m - 1, SplitFrames(input).bodies[m - 1]).Reply? && !sendOk(m - 1)
    ensures Rightly(input, max, dispatch, sendOk, m, Unsent)
  {
    hide SplitFrames, U32, EndOf, Short;
  }

  lemma Starting(input: Bytes)
    ensures var s := SplitFrames(input); ReadTo(input, 0, 0) && Short(s.bodies)
  {
    var s := SplitFrames(input);
    SplitSound(input);
    assert input[0..] == input && s.bodies[..0] == [];
  }

  lemma Incomplete(buf: Bytes)
    requires |buf| < 4
    ensures !Complete(buf)
  {}

  lemma CompleteIff(buf: Bytes)
    requires |buf| >= 4
    ensures Complete(buf) <==> |buf| - 4 >= U32(buf)
  {}

  lemma NoRounds(dispatch: (nat, Bytes) -> Answer, sendOk: nat -> bool, bodies: seq<Bytes>)
    requires Short(bodies)
    ensures Rounds(dispatch, sendOk, bodies, 0) == []
  {}

  lemma RoundDone(dispatch: (nat, Bytes) -> Answer, sendOk: nat -> bool, bodies: seq<Bytes>, m: nat, pos: nat,
                  next: nat)
    requires Short(bodies) && m < |bodies| && Answerable(dispatch, bodies, m)
    requires dispatch(m, bodies[m]).Reply? || dispatch(m, bodies[m]).Refusal?
    requires pos == EndOf(bodies, m) && next == EndOf(bodies, m + 1)
    ensures Answerable(dispatch, bodies, m + 1)
    ensures Rounds(dispatch, sendOk, bodies, m + 1)
            == Rounds(dispatch, sendOk, bodies, m)
               + [Consumed(pos + 4), Consumed(next), Answered(dispatch(m, bodies[m]).body, sendOk(m))]
  {
    hide EndOf, Short;
  }

  // The loop for one authorized connection: input is what the peer sends before
  // it stops, sendOk which of the writes succeed. An error frame's write is not
  // checked; a response's is. The log says everything the loop read and answered.
  method ServeAuthorized(input: Bytes, max: nat, dispatch: (nat, Bytes) -> Answer, sendOk: nat -> bool, tooLarge: Bytes)
    returns (log: seq<Event>, m: nat, end: End)
    ensures Rightly(input, max, dispatch, sendOk, m, end)
    ensures var bodies := SplitFrames(input).bodies;
            && (forall j :: 0 <= j < m ==> |bodies[j]| <= max)
            && Answerable(dispatch, bodies, m)
            && SentOn(dispatch, sendOk, bodies, if end.Unsent? then m - 1 else m)
            && log == Rounds(dispatch, sendOk, bodies, m) + Closing(input, sendOk, tooLarge, bodies, m, end)
    ensures var bodies := SplitFrames(input).bodies;
            && Orderly(log, bodies, m, |input|)
            && Answers(log) == Expected(dispatch, bodies, m) + if end.TooLarge? then [tooLarge] else []
  {
    hide SplitFrames, Framed, ReadTo, Orderly, Answers, Expected, EndOf, U32, Rightly, Short, Complete,
         Rounds;
    ghost var s := SplitFrames(input);
    Starting(input);
    NoRounds(dispatch, sendOk, s.bodies);
    log, m, end := [], 0, EndOfStream;
    var pos := 0;
    while true
      invariant ReadTo(input, pos, m) && m <= |s.bodies| && pos <= |input|
      invariant forall j :: 0 <= j < m ==> |s.bodies[j]| <= max
      invariant Answerable(dispatch, s.bodies, m) && SentOn(dispatch, sendOk, s.bodies, m)
      invariant log == Rounds(dispatch, sendOk, s.bodies, m)
      decreases |input| - pos
    {
      var left := input[pos..];
      if |left| < 4 {
        Incomplete(left);
        Ending(input, pos, m);
        EndedAtEnd(input, max, dispatch, sendOk, m, pos);
        log, end := log + [Consumed(|input|)], EndOfStream;
        break;
      }
      var n := U32(left);
      CompleteIff(left);
      if Complete(left) { Reading(input, pos, m); } else { Ending(input, pos, m); }
      if n > max {
        EndedTooLarge(input, max, dispatch, sendOk, m, pos);
        log, end := log + [Consumed(pos + 4), Answered(tooLarge, sendOk(m))], TooLarge;
        break;
      }
      if |left| - 4 < n {
        EndedAtEnd(input, max, dispatch, sendOk, m, pos);
        log, end := log + [Consumed(pos + 4), Consumed(|input|)], EndOfStream;
        break;
      }
      var answer := dispatch(m, input[pos + 4..pos + 4 + n]);
      if answer.Silence? || answer.Unencodable? {
        EndedUnsaid(input, max, dispatch, sendOk, m, pos);
        log := log + [Consumed(pos + 4), Consumed(pos + 4 + n)];
        end := if answer.Silence? then Unanswered else Unencoded;
        break;
      }
      RoundDone(dispatch, sendOk, s.bodies, m, pos, pos + 4 + n);
      log := log + [Consumed(pos + 4), Consumed(pos + 4 + n), Answered(answer.body, sendOk(m))];
      m, pos := m + 1, pos + 4 + n;
      if answer.Reply? && !sendOk(m - 1) {
        EndedUnsent(input, max, dispatch, sendOk, m, pos);
        end := Unsent;
        assert log + [] == log;
        break;
      }
    }
    LogOrderly(input, max, dispatch, sendOk, tooLarge, m, end);
  }
}
