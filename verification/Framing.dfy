// The v1 framing of internal/protocol: nine fields, each behind a uint32
// big-endian length, parsed under a running budget.
module Framing {
  import opened Common

  const FIELDS: nat := 9
  const PREFIX_BYTES: nat := 4
  const DEFAULT_MAX_ENVELOPE := 0x10_0000
  const TWO32: int := 0x1_0000_0000

  datatype Refusal =
    | UnknownVersion | MalformedEnvelope | SignatureInvalid | DecryptionFailed | PayloadTooLarge | UnknownClass

  function BE32(n: nat): (b: Bytes)
    requires n < TWO32
    ensures |b| == 4
  {
    var k := n / 0x100;
    var m := k / 0x100;
    [(m / 0x100) as byte, (m % 0x100) as byte, (k % 0x100) as byte, (n % 0x100) as byte]
  }

  function U32(b: Bytes): (n: nat)
    requires |b| >= 4
    ensures n < TWO32
  {
    ((b[0] as int * 0x100 + b[1] as int) * 0x100 + b[2] as int) * 0x100 + b[3] as int
  }

  lemma U32Inverts(n: nat, tail: Bytes)
    requires n < TWO32
    ensures U32(BE32(n) + tail) == n
  {
    var b := BE32(n) + tail;
    assert b[0] == BE32(n)[0] && b[1] == BE32(n)[1] && b[2] == BE32(n)[2] && b[3] == BE32(n)[3];
  }

  // What a framed field at the front of a buffer looks like to a parser.
  lemma Peel(f: Bytes, tail: Bytes, rest: Bytes)
    requires |f| < TWO32 && rest == FrameOne(f) + tail
    ensures |rest| == PREFIX_BYTES + |f| + |tail| && U32(rest) == |f|
    ensures rest[PREFIX_BYTES..PREFIX_BYTES + |f|] == f && rest[PREFIX_BYTES + |f|..] == tail
  {
    U32Inverts(|f|, f + tail);
    assert rest == BE32(|f|) + (f + tail);
  }

  lemma BE32Inverts(b: Bytes)
    requires |b| >= 4
    ensures BE32(U32(b)) == b[..4]
  {
    var m := b[0] as int * 0x100 + b[1] as int;
    var k := m * 0x100 + b[2] as int;
    assert m / 0x100 == b[0] as int && k / 0x100 == m && U32(b) / 0x100 == k;
  }

  // ---- framing --------------------------------------------------------------

  predicate Short(fs: seq<Bytes>) {
    forall i :: 0 <= i < |fs| ==> |fs[i]| < TWO32
  }

  function FrameOne(f: Bytes): Bytes
    requires |f| < TWO32
  {
    BE32(|f|) + f
  }

  function Framed(fs: seq<Bytes>): Bytes
    requires Short(fs)
  {
    if fs == [] then [] else FrameOne(fs[0]) + Framed(fs[1..])
  }

  // A buffer that holds a field whole is that field framed, and what follows it.
  lemma PeelBack(buf: Bytes)
    requires |buf| >= PREFIX_BYTES && |buf| - PREFIX_BYTES >= U32(buf)
    ensures var n := U32(buf); buf == FrameOne(buf[PREFIX_BYTES..PREFIX_BYTES + n]) + buf[PREFIX_BYTES + n..]
  {
    BE32Inverts(buf);
    var n := U32(buf);
    hide BE32, U32;
    assert |buf[PREFIX_BYTES..PREFIX_BYTES + n]| == n;
    assert buf == buf[..PREFIX_BYTES] + buf[PREFIX_BYTES..PREFIX_BYTES + n] + buf[PREFIX_BYTES + n..];
  }

  lemma FramedCons(f: Bytes, fs: seq<Bytes>)
    requires |f| < TWO32 && Short(fs)
    ensures Short([f] + fs) && Framed([f] + fs) == FrameOne(f) + Framed(fs)
  {
    assert ([f] + fs)[1..] == fs;
  }

  lemma Associate(a: Bytes, b: Bytes, c: Bytes)
    ensures (a + b) + c == a + (b + c)
  {}

  predicate Framable(fs: seq<Bytes>) {
    |fs| == FIELDS && Short(fs)
  }

  lemma {:induction false} FramedJoins(fs: seq<Bytes>, gs: seq<Bytes>)
    requires Short(fs) && Short(gs)
    ensures Short(fs + gs) && Framed(fs + gs) == Framed(fs) + Framed(gs)
  {
    if fs == [] {
      assert fs + gs == gs;
    } else {
      hide BE32, U32;
      FramedJoins(fs[1..], gs);
      assert (fs + gs)[1..] == fs[1..] + gs && (fs + gs)[0] == fs[0];
      Associate(FrameOne(fs[0]), Framed(fs[1..]), Framed(gs));
    }
  }

  method Frame(fields: seq<Bytes>) returns (out: Bytes, ok: bool)
    ensures ok <==> Framable(fields)
    ensures ok ==> out == Framed(fields)
  {
    out := [];
    if |fields| != FIELDS { return out, false; }
    var i := 0;
    while i < |fields|
      invariant 0 <= i <= |fields|
      invariant Short(fields[..i])
    {
      if |fields[i]| > 0xFFFF_FFFF { return out, false; }
      i := i + 1;
    }
    assert fields[..i] == fields;
    i := 0;
    while i < |fields|
      invariant 0 <= i <= |fields|
      invariant out == Framed(fields[..i])
    {
      FramedJoins(fields[..i], [fields[i]]);
      assert Framed([fields[i]]) == FrameOne(fields[i]);
      assert fields[..i + 1] == fields[..i] + [fields[i]];
      out := out + BE32(|fields[i]|);
      out := out + fields[i];
      i := i + 1;
    }
    assert fields[..i] == fields;
    ok := true;
  }

  // The framing with its last field cut off, found by counting the lengths of the
  // others: what is left frames those eight and nothing else.
  method SignedInput(fields: seq<Bytes>) returns (out: Bytes, ok: bool)
    ensures ok <==> Framable(fields)
    ensures ok ==> out == Framed(fields[..FIELDS - 1])
  {
    var framed;
    framed, ok := Frame(fields);
    if !ok { return [], false; }
    var n, i := 0, 0;
    while i < FIELDS - 1
      invariant 0 <= i <= FIELDS - 1
      invariant n == |Framed(fields[..i])|
    {
      FramedJoins(fields[..i], [fields[i]]);
      assert Framed([fields[i]]) == FrameOne(fields[i]);
      assert fields[..i + 1] == fields[..i] + [fields[i]];
      n := n + PREFIX_BYTES + |fields[i]|;
      i := i + 1;
    }
    FramedJoins(fields[..i], fields[i..]);
    assert fields == fields[..i] + fields[i..];
    out := framed[..n];
  }

  // ---- parsing --------------------------------------------------------------

  function Effective(max: int): int {
    if max <= 0 then DEFAULT_MAX_ENVELOPE else max
  }

  // Read k fields off the front of rest, and nothing after them.
  function Parse(rest: Bytes, k: nat, budget: int): Result<seq<Bytes>, Refusal>
    decreases k
  {
    if k == 0 then
      if rest != [] then Err(MalformedEnvelope) else Ok([])
    else if |rest| < PREFIX_BYTES then Err(MalformedEnvelope)
    else if budget < PREFIX_BYTES then Err(PayloadTooLarge)
    else
      var n := U32(rest);
      if n > budget - PREFIX_BYTES then Err(PayloadTooLarge)
      else if |rest| - PREFIX_BYTES < n then Err(MalformedEnvelope)
      else
        Behind([rest[PREFIX_BYTES..PREFIX_BYTES + n]],
               Parse(rest[PREFIX_BYTES + n..], k - 1, budget - PREFIX_BYTES - n))
  }

  // The fields already read, ahead of what the rest parses to.
  function Behind(read: seq<Bytes>, r: Result<seq<Bytes>, Refusal>): Result<seq<Bytes>, Refusal> {
    if r.Err? then r else Ok(read + r.value)
  }

  lemma BehindJoins(a: seq<Bytes>, b: seq<Bytes>, r: Result<seq<Bytes>, Refusal>)
    ensures Behind(a, Behind(b, r)) == Behind(a + b, r)
    ensures Behind([], r) == r && Behind(a, Ok([])) == Ok(a)
  {
    assert a + [] == a;
    if r.Ok? {
      assert a + (b + r.value) == (a + b) + r.value;
      assert [] + r.value == r.value;
    }
  }

  // One field of a parse, in the terms of a loop that has already passed its checks.
  lemma ParseOne(rest: Bytes, k: nat, budget: int, read: seq<Bytes>)
    requires k > 0
    ensures |rest| < PREFIX_BYTES ==> Parse(rest, k, budget) == Err(MalformedEnvelope)
    ensures |rest| >= PREFIX_BYTES && budget < PREFIX_BYTES ==> Parse(rest, k, budget) == Err(PayloadTooLarge)
    ensures |rest| >= PREFIX_BYTES && budget >= PREFIX_BYTES ==>
              var n, body := U32(rest), rest[PREFIX_BYTES..];
              && (n > budget - PREFIX_BYTES ==> Parse(rest, k, budget) == Err(PayloadTooLarge))
              && (n <= budget - PREFIX_BYTES && |body| < n ==> Parse(rest, k, budget) == Err(MalformedEnvelope))
              && (n <= budget - PREFIX_BYTES && n <= |body| ==>
                    Behind(read, Parse(rest, k, budget))
                        == Behind(read + [body[..n]], Parse(body[n..], k - 1, budget - PREFIX_BYTES - n)))
  {
    if |rest| >= PREFIX_BYTES && budget >= PREFIX_BYTES {
      var n, body := U32(rest), rest[PREFIX_BYTES..];
      if n <= budget - PREFIX_BYTES && n <= |body| {
        assert body[n..] == rest[PREFIX_BYTES + n..] && body[..n] == rest[PREFIX_BYTES..PREFIX_BYTES + n];
        BehindJoins(read, [body[..n]], Parse(body[n..], k - 1, budget - PREFIX_BYTES - n));
      }
    }
  }

  method Split(b: Bytes, maxEnvelope: int) returns (r: Result<seq<Bytes>, Refusal>)
    ensures r == Parse(b, FIELDS, Effective(maxEnvelope))
  {
    var budget := if maxEnvelope <= 0 then DEFAULT_MAX_ENVELOPE else maxEnvelope;
    var fields: seq<Bytes> := [];
    var rest := b;
    var i := 0;
    BehindJoins([], [], Parse(b, FIELDS, budget));
    hide Parse, U32;
    while i < FIELDS
      invariant 0 <= i <= FIELDS
      invariant Parse(b, FIELDS, Effective(maxEnvelope)) == Behind(fields, Parse(rest, FIELDS - i, budget))
    {
      ParseOne(rest, FIELDS - i, budget, fields);
      if |rest| < PREFIX_BYTES { return Err(MalformedEnvelope); }
      if budget < PREFIX_BYTES { return Err(PayloadTooLarge); }
      budget := budget - PREFIX_BYTES;
      var n := U32(rest);
      rest := rest[PREFIX_BYTES..];
      if n > budget { return Err(PayloadTooLarge); }
      if |rest| < n { return Err(MalformedEnvelope); }
      budget := budget - n;
      fields := fields + [rest[..n]];
      rest := rest[n..];
      i := i + 1;
    }
    ParseNone(rest, budget);
    BehindJoins(fields, [], Ok([]));
    if rest != [] { return Err(MalformedEnvelope); }
    r := Ok(fields);
  }

  lemma ParseNone(rest: Bytes, budget: int)
    ensures Parse(rest, 0, budget) == if rest != [] then Err(MalformedEnvelope) else Ok([])
  {}

  // What is accepted is a framing, within the budget, of what is returned.
  lemma {:induction false} ParseSound(rest: Bytes, k: nat, budget: int)
    requires Parse(rest, k, budget).Ok?
    ensures var fs := Parse(rest, k, budget).value;
            |fs| == k && Short(fs) && Framed(fs) == rest && (k > 0 ==> |rest| <= budget)
    decreases k
  {
    if k > 0 {
      var n := U32(rest);
      var f, tail := rest[PREFIX_BYTES..PREFIX_BYTES + n], rest[PREFIX_BYTES + n..];
      var fs := Parse(tail, k - 1, budget - PREFIX_BYTES - n).value;
      assert Parse(rest, k, budget).value == [f] + fs;
      PeelBack(rest);
      hide Parse, U32, Framed, FrameOne, Short;
      ParseSound(tail, k - 1, budget - PREFIX_BYTES - n);
      FramedCons(f, fs);
    }
  }

  // Every framing within the budget is accepted, and inverted.
  lemma {:induction false} ParseComplete(fs: seq<Bytes>, budget: int)
    requires Short(fs) && |Framed(fs)| <= budget
    ensures Parse(Framed(fs), |fs|, budget) == Ok(fs)
    decreases |fs|
  {
    hide U32, BE32;
    if fs != [] {
      var f := fs[0];
      Peel(f, Framed(fs[1..]), Framed(fs));
      hide FrameOne;
      ParseComplete(fs[1..], budget - PREFIX_BYTES - |f|);
      assert fs == [f] + fs[1..];
    }
  }

  // Split accepts exactly the framings of nine fields within the effective maximum.
  lemma SplitAcceptsIff(b: Bytes, max: int)
    ensures Parse(b, FIELDS, Effective(max)).Ok? <==>
            exists fs :: Framable(fs) && Framed(fs) == b && |b| <= Effective(max)
    ensures forall fs :: Framable(fs) && Framed(fs) == b && |b| <= Effective(max) ==>
                           Parse(b, FIELDS, Effective(max)) == Ok(fs)
  {
    if Parse(b, FIELDS, Effective(max)).Ok? {
      ParseSound(b, FIELDS, Effective(max));
    }
    forall fs | Framable(fs) && Framed(fs) == b && |b| <= Effective(max)
      ensures Parse(b, FIELDS, Effective(max)) == Ok(fs)
    {
      ParseComplete(fs, Effective(max));
    }
  }

  // Some fields parse, and the next has its prefix there and does not fit what
  // is left of the budget.
  predicate StopsOverBudget(rest: Bytes, k: nat, budget: int, fs: seq<Bytes>) {
    && |fs| < k && Short(fs)
    && Framed(fs) <= rest && |Framed(fs)| <= budget
    && var tail := rest[|Framed(fs)|..];
       |tail| >= PREFIX_BYTES && PREFIX_BYTES + U32(tail) > budget - |Framed(fs)|
  }

  lemma PrefixShift(a: Bytes, b: Bytes, c: Bytes)
    ensures a + b <= a + c <==> b <= c
    ensures b <= c ==> (a + c)[|a + b|..] == c[|b|..]
  {
    if a + b <= a + c {
      assert forall i :: 0 <= i < |b| ==> b[i] == (a + b)[|a| + i] == (a + c)[|a| + i] == c[i];
    }
    if b <= c {
      assert c == b + c[|b|..];
      Associate(a, b, c[|b|..]);
    }
  }

  // A field in front moves the stop one field and its bytes further on.
  lemma StopsOneLater(f: Bytes, gs: seq<Bytes>, tail: Bytes, k: nat, budget: int)
    requires |f| < TWO32 && Short(gs) && k > 0
    ensures StopsOverBudget(FrameOne(f) + tail, k, budget, [f] + gs)
            <==> StopsOverBudget(tail, k - 1, budget - PREFIX_BYTES - |f|, gs)
  {
    FramedCons(f, gs);
    PrefixShift(FrameOne(f), Framed(gs), tail);
    hide Short, Framed, U32, BE32;
    assert |FrameOne(f)| == PREFIX_BYTES + |f|;
    hide FrameOne;
  }

  lemma {:induction false} TooLargeHasField(rest: Bytes, k: nat, budget: int) returns (fs: seq<Bytes>)
    requires Parse(rest, k, budget) == Err(PayloadTooLarge) && 0 <= budget
    ensures StopsOverBudget(rest, k, budget, fs)
    decreases k
  {
    var n := U32(rest);
    if budget < PREFIX_BYTES || n > budget - PREFIX_BYTES {
      fs := [];
      assert rest[|Framed(fs)|..] == rest;
    } else {
      hide U32, StopsOverBudget;
      var f, tail := rest[PREFIX_BYTES..PREFIX_BYTES + n], rest[PREFIX_BYTES + n..];
      var gs := TooLargeHasField(tail, k - 1, budget - PREFIX_BYTES - n);
      PeelBack(rest);
      Stopped(tail, k - 1, budget - PREFIX_BYTES - n, gs);
      StopsOneLater(f, gs, tail, k, budget);
      fs := [f] + gs;
    }
  }

  lemma Stopped(rest: Bytes, k: nat, budget: int, fs: seq<Bytes>)
    requires StopsOverBudget(rest, k, budget, fs)
    ensures |fs| < k && Short(fs) && Framed(fs) <= rest && |Framed(fs)| <= budget
  {}

  lemma StoppedHere(rest: Bytes, k: nat, budget: int)
    requires StopsOverBudget(rest, k, budget, [])
    ensures Parse(rest, k, budget) == Err(PayloadTooLarge)
  {
    assert rest[|Framed([])|..] == rest;
  }

  lemma {:induction false} FieldMakesTooLarge(rest: Bytes, k: nat, budget: int, fs: seq<Bytes>)
    requires StopsOverBudget(rest, k, budget, fs)
    ensures Parse(rest, k, budget) == Err(PayloadTooLarge)
    decreases k
  {
    hide StopsOverBudget, U32, BE32;
    if fs == [] {
      StoppedHere(rest, k, budget);
    } else {
      Stopped(rest, k, budget, fs);
      var f, gs := fs[0], fs[1..];
      var tail := Framed(gs) + rest[|Framed(fs)|..];
      Associate(FrameOne(f), Framed(gs), rest[|Framed(fs)|..]);
      assert [f] + gs == fs && rest == FrameOne(f) + tail;
      StopsOneLater(f, gs, tail, k, budget);
      Peel(f, tail, rest);
      hide Framed, FrameOne, Short;
      FieldMakesTooLarge(tail, k - 1, budget - PREFIX_BYTES - |f|, gs);
    }
  }

  // The refusal is PayloadTooLarge exactly when the field that stops parsing has
  // its four prefix bytes and 4 plus its length exceeds what is left; every
  // other refusal is MalformedEnvelope.
  lemma SplitTooLargeIff(b: Bytes, max: int)
    ensures Parse(b, FIELDS, Effective(max)) == Err(PayloadTooLarge) <==>
            exists fs :: StopsOverBudget(b, FIELDS, Effective(max), fs)
    ensures Parse(b, FIELDS, Effective(max)).Err? ==>
              Parse(b, FIELDS, Effective(max)).error == PayloadTooLarge
              || Parse(b, FIELDS, Effective(max)).error == MalformedEnvelope
  {
    if Parse(b, FIELDS, Effective(max)) == Err(PayloadTooLarge) {
      var fs := TooLargeHasField(b, FIELDS, Effective(max));
    }
    forall fs | StopsOverBudget(b, FIELDS, Effective(max), fs)
      ensures Parse(b, FIELDS, Effective(max)) == Err(PayloadTooLarge)
    {
      FieldMakesTooLarge(b, FIELDS, Effective(max), fs);
    }
    OnlyTwoRefusals(b, FIELDS, Effective(max));
  }

  lemma OnlyTwoRefusals(rest: Bytes, k: nat, budget: int)
    ensures Parse(rest, k, budget).Err? ==>
              Parse(rest, k, budget).error == PayloadTooLarge || Parse(rest, k, budget).error == MalformedEnvelope
    decreases k
  {}

  // Nothing shorter and nothing longer than an accepted input is accepted, and
  // the refusal says no more than that it is malformed.
  lemma {:induction false} PrefixMalformed(rest: Bytes, k: nat, budget: int, i: nat)
    requires Parse(rest, k, budget).Ok? && i < |rest|
    ensures Parse(rest[..i], k, budget) == Err(MalformedEnvelope)
    decreases k
  {
    if k > 0 && i >= PREFIX_BYTES {
      var n := U32(rest);
      assert U32(rest[..i]) == n;
      hide U32;
      if i - PREFIX_BYTES >= n {
        PrefixMalformed(rest[PREFIX_BYTES + n..], k - 1, budget - PREFIX_BYTES - n, i - PREFIX_BYTES - n);
        assert rest[..i][PREFIX_BYTES + n..] == rest[PREFIX_BYTES + n..][..i - PREFIX_BYTES - n];
      }
    }
  }

  lemma SamePrefix(a: Bytes, b: Bytes)
    requires |a| >= 4
    ensures U32(a + b) == U32(a)
  {}

  lemma {:induction false} ExtensionMalformed(rest: Bytes, k: nat, budget: int, extra: Bytes)
    requires Parse(rest, k, budget).Ok? && extra != []
    ensures Parse(rest + extra, k, budget) == Err(MalformedEnvelope)
    decreases k
  {
    hide U32, BE32;
    if k > 0 {
      var n := U32(rest);
      var tail := rest[PREFIX_BYTES + n..];
      SamePrefix(rest, extra);
      assert (rest + extra)[PREFIX_BYTES + n..] == tail + extra;
      ExtensionMalformed(tail, k - 1, budget - PREFIX_BYTES - n, extra);
    }
  }

  // ---- the bytes themselves -------------------------------------------------

  // The number some bytes spell, the most significant byte first.
  function Spelled(b: Bytes): nat {
    if b == [] then 0 else Spelled(b[..|b| - 1]) * 256 + b[|b| - 1]
  }

  // What a reader finds who knows only the standard: before each field four bytes
  // that spell its length, and after the last nothing.
  ghost predicate Reads(b: Bytes, fs: seq<Bytes>) {
    if fs == [] then b == []
    else
      var n := |fs[0]|;
      |b| >= 4 + n && Spelled(b[..4]) == n && b[4..4 + n] == fs[0] && Reads(b[4 + n..], fs[1..])
  }

  lemma SpelledFour(b: Bytes)
    requires |b| == 4
    ensures Spelled(b) == U32(b) < 0x1_0000_0000
  {
    assert b[..3][..2] == b[..2] && b[..2][..1] == b[..1] && b[..1][..0] == [];
    assert Spelled(b[..1]) == b[0] as int;
    assert Spelled(b[..2]) == b[0] as int * 256 + b[1] as int;
    assert Spelled(b[..3]) == (b[0] as int * 256 + b[1] as int) * 256 + b[2] as int;
  }

  lemma SpelledEight(b: Bytes)
    requires |b| == 8
    ensures Spelled(b) == Spelled(b[..4]) * 0x1_0000_0000 + Spelled(b[4..])
  {
    SpelledJoins(b[..4], b[4..]);
    assert b == b[..4] + b[4..];
    SpelledFour(b[4..]);
    assert Power(4) == 0x1_0000_0000;
  }

  function Power(n: nat): nat {
    if n == 0 then 1 else 256 * Power(n - 1)
  }

  lemma {:induction false} SpelledJoins(a: Bytes, b: Bytes)
    ensures Spelled(a + b) == Spelled(a) * Power(|b|) + Spelled(b)
    decreases |b|
  {
    if b == [] {
      assert a + b == a;
    } else {
      var k := |b| - 1;
      SpelledJoins(a, b[..k]);
      assert (a + b)[..|a + b| - 1] == a + b[..k];
      ShiftSum(Spelled(a), Power(k), Spelled(b[..k]), b[k]);
    }
  }

  lemma ShiftSum(a: nat, p: nat, b: nat, c: nat)
    ensures (a * p + b) * 256 + c == a * (256 * p) + (b * 256 + c)
  {}

  // The framing is what such a reader reads, and the only thing it reads so.
  lemma {:induction false} ReadsIff(b: Bytes, fs: seq<Bytes>)
    ensures Reads(b, fs) <==> Short(fs) && b == Framed(fs)
    decreases |fs|
  {
    if fs == [] {
    } else {
      var f := fs[0];
      hide BE32, U32, Spelled;
      if Reads(b, fs) {
        SpelledFour(b[..4]);
        ReadsIff(b[4 + |f|..], fs[1..]);
        BE32Inverts(b[..4]);
        assert b[..4][..4] == b[..4];
        assert b == b[..4] + b[4..4 + |f|] + b[4 + |f|..];
        assert fs == [f] + fs[1..];
      }
      if Short(fs) && b == Framed(fs) {
        Peel(f, Framed(fs[1..]), b);
        SpelledFour(b[..4]);
        U32Front(b);
        ReadsIff(b[4 + |f|..], fs[1..]);
      }
    }
  }

  lemma U32Front(b: Bytes)
    requires |b| >= 4
    ensures U32(b[..4]) == U32(b)
  {}

  // So what is accepted is what reads as nine fields, up to the maximum asked for
  // or a mebibyte.
  lemma SplitReads(b: Bytes, max: int)
    ensures forall fs :: Parse(b, FIELDS, Effective(max)) == Ok(fs) <==>
                           |fs| == 9 && Reads(b, fs) && |b| <= if max <= 0 then 1_048_576 else max
  {
    SplitAcceptsIff(b, max);
    if Parse(b, FIELDS, Effective(max)).Ok? { ParseSound(b, FIELDS, Effective(max)); }
    forall fs
      ensures Reads(b, fs) <==> Short(fs) && b == Framed(fs)
    {
      ReadsIff(b, fs);
    }
    hide Parse, Framed, Reads, Short;
  }

  // Framing is injective: the prefixes fix every boundary.
  lemma FramedInjective(fs: seq<Bytes>, gs: seq<Bytes>)
    requires Short(fs) && Short(gs) && |fs| == |gs| && Framed(fs) == Framed(gs)
    ensures fs == gs
  {
    ParseComplete(fs, |Framed(fs)|);
    ParseComplete(gs, |Framed(gs)|);
  }
}
