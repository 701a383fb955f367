// The typed layer of the v1 envelope: what each of the nine fields encodes, the
// strict decoder, and the timestamp whose milliseconds may wrap on the way.
module Envelope {
  import opened Common
  import opened Framing
  import opened Identifiers

  // ---- time -----------------------------------------------------------------

  const TWO63: int := 0x8000_0000_0000_0000
  const TWO64: int := 0x1_0000_0000_0000_0000

  // Arithmetic on int64 wraps.
  function Wrap64(x: int): (w: int)
    ensures -TWO63 <= w < TWO63
  {
    (x + TWO63) % TWO64 - TWO63
  }

  function ToU64(x: int): (u: int)
    ensures 0 <= u < TWO64
  {
    x % TWO64
  }

  // Seconds since the epoch, with the nanoseconds that follow them.
  datatype Time = Time(sec: int, nsec: int)

  predicate Normal(t: Time) {
    0 <= t.nsec < 1_000_000_000
  }

  function TruncDiv(a: int, b: int): int
    requires b > 0
  {
    if a >= 0 then a / b else -((-a) / b)
  }

  function FromUnix(sec: int, nsec: int): Time {
    if nsec < 0 || nsec >= 1_000_000_000 then
      var n := TruncDiv(nsec, 1_000_000_000);
      var left := nsec - n * 1_000_000_000;
      if left < 0 then Time(sec + n - 1, left + 1_000_000_000) else Time(sec + n, left)
    else Time(sec, nsec)
  }

  function FromMilli(ms: int): Time {
    var sec := TruncDiv(ms, 1000);
    FromUnix(sec, (ms - sec * 1000) * 1_000_000)
  }

  // Both the product and the sum are int64, and the product may wrap.
  function UnixMilli(t: Time): int {
    Wrap64(Wrap64(t.sec * 1000) + t.nsec / 1_000_000)
  }

  function Milliseconds(t: Time): int {
    t.sec * 1000 + t.nsec / 1_000_000
  }

  function ToMillisecond(t: Time): Time {
    Time(t.sec, t.nsec / 1_000_000 * 1_000_000)
  }

  lemma WrapSum(a: int, b: int)
    ensures Wrap64(Wrap64(a) + b) == Wrap64(a + b)
  {
    var q := (a + TWO63) / TWO64;
    assert Wrap64(a) == a - q * TWO64;
    ModShift(a + b + TWO63, -q);
  }

  lemma ModShift(x: int, k: int)
    ensures (x + k * TWO64) % TWO64 == x % TWO64
  {
    var q, r := x / TWO64, x % TWO64;
    assert x + k * TWO64 == (q + k) * TWO64 + r;
  }

  lemma FromMilliFloors(ms: int)
    ensures FromMilli(ms) == Time(ms / 1000, ms % 1000 * 1_000_000)
  {
    if ms < 0 {
      var q, r := (-ms) / 1000, (-ms) % 1000;
      if r == 0 {
        assert ms == -q * 1000;
      } else {
        assert ms == (-q - 1) * 1000 + (1000 - r);
      }
    }
  }

  lemma MilliOf(t: Time)
    ensures UnixMilli(t) == Wrap64(Milliseconds(t))
  {
    WrapSum(t.sec * 1000, t.nsec / 1_000_000);
  }

  // The field round-trips for every one of its 2^64 values, wrapped or not.
  lemma TimestampRoundTrips(v: int)
    requires 0 <= v < TWO64
    ensures ToU64(UnixMilli(FromMilli(Wrap64(v)))) == v
  {
    var ms := Wrap64(v);
    FromMilliFloors(ms);
    MilliOf(FromMilli(ms));
    hide FromMilli, UnixMilli;
    assert ms % 1000 * 1_000_000 / 1_000_000 == ms % 1000;
    assert Milliseconds(FromMilli(ms)) == ms;
  }

  // A time survives, to the millisecond, exactly when its milliseconds are an int64.
  lemma TimeSurvivesIff(t: Time)
    requires Normal(t)
    ensures FromMilli(UnixMilli(t)) == ToMillisecond(t) <==> -TWO63 <= Milliseconds(t) < TWO63
  {
    MilliOf(t);
    var ms := UnixMilli(t);
    FromMilliFloors(ms);
    var m := t.nsec / 1_000_000;
    assert 0 <= m < 1000;
    assert ms == ms / 1000 * 1000 + ms % 1000;
    if -TWO63 <= Milliseconds(t) < TWO63 {
      assert ms == t.sec * 1000 + m;
      assert ms / 1000 == t.sec && ms % 1000 == m;
    }
  }

  // ---- text -----------------------------------------------------------------

  // A Go string: one byte a char.
  type Text = s: string | forall i :: 0 <= i < |s| ==> s[i] as int < 256

  function TextBytes(s: Text): (b: Bytes)
    ensures |b| == |s|
  {
    seq(|s|, i requires 0 <= i < |s| => s[i] as int as byte)
  }

  function BytesText(b: Bytes): (s: Text)
    ensures |s| == |b|
  {
    seq(|b|, i requires 0 <= i < |b| => b[i] as int as char)
  }

  lemma TextInverts(s: Text, b: Bytes)
    ensures BytesText(TextBytes(s)) == s && TextBytes(BytesText(b)) == b
  {}

  // ---- classes --------------------------------------------------------------

  const ENROLLMENT_REQUEST := "enrollment-request"
  const ENROLLMENT_REPLY := "enrollment-reply"
  const COMMAND := "command"
  const CANCELLATION := "cancellation"
  const RESULT := "result"
  const LIFECYCLE_EVENT := "lifecycle-event"
  const PRESENCE := "presence"

  // The seven classes, three of them encrypted, by their names on the wire.
  lemma ClassesAre(c: string)
    ensures Encrypted(c) <==> c in {"command", "cancellation", "result"}
    ensures Known(c) <==> c in {"enrollment-request", "enrollment-reply", "command", "cancellation", "result",
                                "lifecycle-event", "presence"}
  {}

  predicate Encrypted(c: string) {
    c == COMMAND || c == CANCELLATION || c == RESULT
  }

  predicate Known(c: string) {
    Encrypted(c) || c == ENROLLMENT_REQUEST || c == ENROLLMENT_REPLY || c == LIFECYCLE_EVENT || c == PRESENCE
  }

  // ---- envelopes ------------------------------------------------------------

  const VERSION: int := 1
  const TIMESTAMP_BYTES: nat := 8
  const NONCE_BYTES: nat := 16
  const SIGNATURE_BYTES: nat := 3373

  type uint32 = n: int | 0 <= n < TWO32

  datatype Envelope = Envelope(
    version: uint32,
    class_: Text,
    jobId: Text,
    correlationId: Text,
    sender: Text,
    timestamp: Time,
    nonce: Bytes,
    payload: Bytes,
    signature: Bytes)

  function BE64(n: int): (b: Bytes)
    requires 0 <= n < TWO64
    ensures |b| == 8
  {
    BE32(n / TWO32) + BE32(n % TWO32)
  }

  function U64(b: Bytes): (n: int)
    requires |b| == 8
    ensures 0 <= n < TWO64
  {
    U32(b[..4]) * TWO32 + U32(b[4..])
  }

  lemma U64Inverts(n: int, b: Bytes)
    requires 0 <= n < TWO64 && |b| == 8
    ensures U64(BE64(n)) == n && BE64(U64(b)) == b
  {
    var x := BE64(n);
    assert x[..4] == BE32(n / TWO32) + [] && x[4..] == BE32(n % TWO32) + [];
    U32Inverts(n / TWO32, []);
    U32Inverts(n % TWO32, []);
    BE32Inverts(b[..4]);
    BE32Inverts(b[4..]);
    hide U32, BE32;
    var hi, lo := U32(b[..4]), U32(b[4..]);
    assert U64(b) / TWO32 == hi && U64(b) % TWO32 == lo;
    assert b == b[..4] + b[4..];
  }

  function FieldValues(e: Envelope): (fs: seq<Bytes>)
    ensures |fs| == FIELDS
  {
    [BE32(e.version),
     TextBytes(e.class_),
     TextBytes(e.jobId),
     TextBytes(e.correlationId),
     TextBytes(e.sender),
     BE64(ToU64(UnixMilli(e.timestamp))),
     e.nonce,
     e.payload,
     e.signature]
  }

  function Encode(e: Envelope): Option<Bytes> {
    if Framable(FieldValues(e)) then Some(Framed(FieldValues(e))) else None
  }

  function SignedBytes(e: Envelope): Option<Bytes> {
    if Framable(FieldValues(e)) then Some(Framed(FieldValues(e)[..FIELDS - 1])) else None
  }

  function Decode(b: Bytes, max: int): Result<Envelope, Refusal> {
    var split := Parse(b, FIELDS, Effective(max));
    if split.Err? then Err(split.error)
    else
      assert |split.value| == FIELDS by { ParseSound(b, FIELDS, Effective(max)); }
      DecodeFields(split.value)
  }

  // The checks on the nine values, in the order that decides the refusal.
  function DecodeFields(fs: seq<Bytes>): Result<Envelope, Refusal>
    requires |fs| == FIELDS
  {
    if |fs[0]| != 4 then Err(MalformedEnvelope)
    else if U32(fs[0]) != VERSION then Err(UnknownVersion)
    else
      var class_ := BytesText(fs[1]);
      if !Known(class_) then Err(UnknownClass)
      else if |fs[5]| != TIMESTAMP_BYTES || |fs[6]| != NONCE_BYTES then Err(MalformedEnvelope)
      else if |fs[8]| != SIGNATURE_BYTES then Err(MalformedEnvelope)
      else if fs[2] != [] && !Identifier(BytesText(fs[2])) then Err(MalformedEnvelope)
      else if fs[3] != [] && !Identifier(BytesText(fs[3])) then Err(MalformedEnvelope)
      else
        var sender := BytesText(fs[4]);
        if !Identifier(sender) && !ReservedSender(sender) then Err(MalformedEnvelope)
        else if Encrypted(class_) && fs[3] != [] then Err(MalformedEnvelope)
        else Ok(Envelope(U32(fs[0]), class_, BytesText(fs[2]), BytesText(fs[3]), sender,
                         FromMilli(Wrap64(U64(fs[5]))), fs[6], fs[7], fs[8]))
  }

  // The v1 field sequence, as a statement about an envelope.
  predicate WellFormed(e: Envelope) {
    && e.version == 1 && Known(e.class_)
    && |e.nonce| == 16 && |e.signature| == 3373 && |e.payload| < TWO32
    && (e.jobId == "" || Identifier(e.jobId))
    && (e.correlationId == "" || Identifier(e.correlationId))
    && (Identifier(e.sender) || ReservedSender(e.sender))
    && (Encrypted(e.class_) ==> e.correlationId == "")
  }

  // The envelope as it comes back: its time is what the eight bytes can say.
  function Settled(e: Envelope): Envelope {
    e.(timestamp := FromMilli(UnixMilli(e.timestamp)))
  }

  // What the nine values of an accepted input decode to is what encodes to them.
  lemma FieldsInvert(fs: seq<Bytes>)
    requires |fs| == FIELDS && DecodeFields(fs).Ok?
    ensures FieldValues(DecodeFields(fs).value) == fs && WellFormed(DecodeFields(fs).value) == (|fs[7]| < TWO32)
  {
    var e := DecodeFields(fs).value;
    BE32Inverts(fs[0]);
    hide U32, BE32;
    assert fs[0][..4] == fs[0];
    TextInverts("", fs[1]);
    TextInverts("", fs[2]);
    TextInverts("", fs[3]);
    TextInverts("", fs[4]);
    U64Inverts(0, fs[5]);
    TimestampRoundTrips(U64(fs[5]));
    assert FieldValues(e)[5] == fs[5];
    hide U64, BE64, UnixMilli, FromMilli, Wrap64, ToU64;
    assert FieldValues(e) == fs;
  }

  // No two inputs decode to one envelope: an accepted input can be computed back
  // from what it decodes to, which is then well formed.
  lemma DecodeThenEncode(b: Bytes, max: int)
    requires Decode(b, max).Ok?
    ensures Encode(Decode(b, max).value) == Some(b) && WellFormed(Decode(b, max).value) && |b| <= Effective(max)
  {
    ParseSound(b, FIELDS, Effective(max));
    FieldsInvert(Parse(b, FIELDS, Effective(max)).value);
  }

  lemma TimeComesBack(t: Time)
    ensures Wrap64(U64(BE64(ToU64(UnixMilli(t))))) == UnixMilli(t)
  {
    hide U64, BE64, ToU64;
    var ms := UnixMilli(t);
    U64Inverts(ToU64(ms), BE64(ToU64(ms)));
    SignedAgain(ms);
  }

  lemma SignedAgain(x: int)
    requires -TWO63 <= x < TWO63
    ensures Wrap64(ToU64(x)) == x
  {
    if x < 0 { ModShift(x, 1); }
  }

  lemma ValuesDecode(e: Envelope)
    requires WellFormed(e)
    ensures DecodeFields(FieldValues(e)) == Ok(Settled(e))
  {
    var fs := FieldValues(e);
    U32Inverts(e.version, []);
    assert BE32(e.version) + [] == BE32(e.version);
    TextInverts(e.class_, []);
    TextInverts(e.jobId, []);
    TextInverts(e.correlationId, []);
    TextInverts(e.sender, []);
    TimeComesBack(e.timestamp);
    hide U32, BE32, U64, BE64, UnixMilli, FromMilli, Wrap64, ToU64;
    assert fs[2] == [] <==> e.jobId == "";
    assert fs[3] == [] <==> e.correlationId == "";
  }

  lemma WellFormedFrames(e: Envelope)
    requires WellFormed(e)
    ensures Framable(FieldValues(e)) && Encode(e).Some?
  {
    hide UnixMilli, ToU64, BE64;
  }

  // Every well-formed envelope within the bound comes back, its time to the millisecond.
  lemma EncodeThenDecode(e: Envelope, max: int)
    requires WellFormed(e)
    requires Encode(e).Some? && |Encode(e).value| <= Effective(max)
    ensures Decode(Encode(e).value, max) == Ok(Settled(e))
    ensures Normal(e.timestamp) && -TWO63 <= Milliseconds(e.timestamp) < TWO63 ==>
              Settled(e) == e.(timestamp := ToMillisecond(e.timestamp))
  {
    ParseComplete(FieldValues(e), Effective(max));
    ValuesDecode(e);
    if Normal(e.timestamp) { TimeSurvivesIff(e.timestamp); }
  }

  // The decoder accepts exactly the encodings of well-formed envelopes within
  // the effective maximum; so one envelope has one accepted encoding.
  lemma DecodeAcceptsIff(b: Bytes, max: int)
    ensures Decode(b, max).Ok? <==> exists e :: WellFormed(e) && Encode(e) == Some(b) && |b| <= Effective(max)
  {
    if Decode(b, max).Ok? { DecodeThenEncode(b, max); }
    forall e | WellFormed(e) && Encode(e) == Some(b) && |b| <= Effective(max)
      ensures Decode(b, max).Ok?
    {
      EncodeThenDecode(e, max);
    }
  }

  // ---- the bytes themselves -------------------------------------------------

  // A text's bytes are its characters.
  ghost predicate SpellsText(b: Bytes, t: string) {
    |b| == |t| && forall i :: 0 <= i < |b| ==> b[i] as int == t[i] as int
  }

  // What each of the nine fields of an envelope holds, in order: the version in
  // four bytes and the milliseconds since the epoch in eight, both most
  // significant first, the texts as they are and the rest unchanged.
  ghost predicate Spells(fs: seq<Bytes>, e: Envelope) {
    && |fs| == 9
    && |fs[0]| == 4 && Spelled(fs[0]) == e.version
    && SpellsText(fs[1], e.class_) && SpellsText(fs[2], e.jobId) && SpellsText(fs[3], e.correlationId)
    && SpellsText(fs[4], e.sender)
    && |fs[5]| == 8
    && Spelled(fs[5]) == (e.timestamp.sec * 1000 + e.timestamp.nsec / 1_000_000) % 0x1_0000_0000_0000_0000
    && fs[6] == e.nonce && fs[7] == e.payload && fs[8] == e.signature
  }

  lemma ValuesSpell(e: Envelope)
    ensures Spells(FieldValues(e), e)
  {
    SpelledFour(BE32(e.version));
    U32Inverts(e.version, []);
    assert BE32(e.version) + [] == BE32(e.version);
    hide BE32, U32;
    MilliSpelled(e.timestamp);
    hide BE64, UnixMilli, ToU64;
  }

  lemma MilliSpelled(t: Time)
    ensures Spelled(BE64(ToU64(UnixMilli(t)))) == Milliseconds(t) % TWO64
  {
    MilliOf(t);
    var n := ToU64(UnixMilli(t));
    WrappedMod(Milliseconds(t));
    hide UnixMilli, ToU64, Wrap64;
    SpelledEight(BE64(n));
    U64Inverts(n, BE64(n));
    SpelledFour(BE64(n)[..4]);
    SpelledFour(BE64(n)[4..]);
  }

  lemma WrappedMod(x: int)
    ensures ToU64(Wrap64(x)) == x % TWO64
  {
    var q := (x + TWO63) / TWO64;
    assert Wrap64(x) == x - q * TWO64;
    ModShift(x, -q);
  }

  lemma SpelledVersion(b: Bytes, n: nat)
    requires |b| == 4 && n < TWO32 && Spelled(b) == n
    ensures b == BE32(n)
  {
    SpelledFour(b);
    BE32Inverts(b);
    assert b[..4] == b;
  }

  lemma SpelledStamp(b: Bytes, n: nat)
    requires |b| == 8 && n < TWO64 && Spelled(b) == n
    ensures b == BE64(n)
  {
    hide Spelled;
    SpelledEight(b);
    SpelledFour(b[..4]);
    SpelledFour(b[4..]);
    SpelledVersion(b[..4], U32(b[..4]));
    SpelledVersion(b[4..], U32(b[4..]));
    hide U32, BE32;
    assert b == b[..4] + b[4..];
  }

  // One list of nine fields spells an envelope.
  lemma SpellsIff(fs: seq<Bytes>, e: Envelope)
    ensures Spells(fs, e) <==> fs == FieldValues(e)
  {
    ValuesSpell(e);
    if Spells(fs, e) {
      SpelledVersion(fs[0], e.version);
      MilliSpelled(e.timestamp);
      SpelledStamp(fs[5], Milliseconds(e.timestamp) % TWO64);
      SpelledStamp(BE64(ToU64(UnixMilli(e.timestamp))), Milliseconds(e.timestamp) % TWO64);
      hide BE32, BE64, UnixMilli, ToU64, Spelled;
      assert fs[1] == TextBytes(e.class_) && fs[2] == TextBytes(e.jobId);
      assert fs[3] == TextBytes(e.correlationId) && fs[4] == TextBytes(e.sender);
    }
  }

  // An envelope on the wire is the nine fields that spell it, as a reader of the
  // standard finds them; what is signed is the first eight of them so read.
  lemma WireLayout(e: Envelope, b: Bytes)
    ensures Encode(e) == Some(b) <==> exists fs :: Spells(fs, e) && Reads(b, fs)
    ensures SignedBytes(e) == Some(b) ==> exists fs :: Spells(fs, e) && Reads(b, fs[..8])
    ensures Encode(e).Some? <==>
              && |e.class_| < TWO32 && |e.jobId| < TWO32 && |e.correlationId| < TWO32 && |e.sender| < TWO32
              && |e.nonce| < TWO32 && |e.payload| < TWO32 && |e.signature| < TWO32
    ensures SignedBytes(e).Some? <==> Encode(e).Some?
  {
    var values := FieldValues(e);
    FramableIff(e);
    SpellsIff(values, e);
    ReadsIff(b, values);
    ReadsIff(b, values[..8]);
    forall fs | Spells(fs, e)
      ensures fs == values
    {
      SpellsIff(fs, e);
    }
    hide Spells, Reads, Framed, FieldValues;
  }

  lemma FramableIff(e: Envelope)
    ensures Framable(FieldValues(e)) <==>
              && |e.class_| < TWO32 && |e.jobId| < TWO32 && |e.correlationId| < TWO32 && |e.sender| < TWO32
              && |e.nonce| < TWO32 && |e.payload| < TWO32 && |e.signature| < TWO32
  {
    hide BE64, UnixMilli, ToU64;
    var fs := FieldValues(e);
    assert |fs[1]| == |e.class_| && |fs[2]| == |e.jobId| && |fs[3]| == |e.correlationId| && |fs[4]| == |e.sender|;
    assert fs[6] == e.nonce && fs[7] == e.payload && fs[8] == e.signature;
  }

  // The nine fields an input frames, within the effective maximum.
  predicate FieldsOf(b: Bytes, max: int, fs: seq<Bytes>) {
    Framable(fs) && Framed(fs) == b && |b| <= Effective(max)
  }

  lemma FieldsDecide(b: Bytes, max: int)
    ensures forall fs :: FieldsOf(b, max, fs) ==> Decode(b, max) == DecodeFields(fs)
    ensures Parse(b, FIELDS, Effective(max)).Ok? ==> FieldsOf(b, max, Parse(b, FIELDS, Effective(max)).value)
  {
    SplitAcceptsIff(b, max);
    hide Parse, Framed, DecodeFields;
    if Parse(b, FIELDS, Effective(max)).Ok? { ParseSound(b, FIELDS, Effective(max)); }
  }

  // Which refusal an input gets, whatever else is wrong with it: too large comes
  // before everything, a well-framed unknown version before its class and shape,
  // an unknown class of a known version before its shape, and any other refusal
  // is malformed. Decoding never speaks of signatures or keys.
  lemma RefusalsIff(b: Bytes, max: int)
    ensures Decode(b, max) == Err(PayloadTooLarge) <==> exists fs :: StopsOverBudget(b, FIELDS, Effective(max), fs)
    ensures Decode(b, max) == Err(UnknownVersion) <==>
            exists fs :: FieldsOf(b, max, fs) && |fs[0]| == 4 && U32(fs[0]) != VERSION
    ensures Decode(b, max) == Err(UnknownClass) <==>
            exists fs :: FieldsOf(b, max, fs) && |fs[0]| == 4 && U32(fs[0]) == VERSION && !Known(BytesText(fs[1]))
    ensures Decode(b, max).Err? ==> Decode(b, max).error != SignatureInvalid && Decode(b, max).error != DecryptionFailed
  {
    var r := Parse(b, FIELDS, Effective(max));
    FieldsDecide(b, max);
    SplitTooLargeIff(b, max);
    SplitAcceptsIff(b, max);
    if r.Ok? {
      var fs := r.value;
      assert FieldsOf(b, max, fs) && Decode(b, max) == DecodeFields(fs);
      FieldRefusals(fs);
    }
    forall fs | FieldsOf(b, max, fs)
      ensures r == Ok(fs)
    {}
    hide Parse, Framed, StopsOverBudget, DecodeFields, Known, U32, BytesText;
  }

  lemma FieldRefusals(fs: seq<Bytes>)
    requires |fs| == FIELDS
    ensures DecodeFields(fs) == Err(UnknownVersion) <==> |fs[0]| == 4 && U32(fs[0]) != VERSION
    ensures DecodeFields(fs) == Err(UnknownClass) <==> |fs[0]| == 4 && U32(fs[0]) == VERSION && !Known(BytesText(fs[1]))
    ensures DecodeFields(fs).Err? ==> DecodeFields(fs).error in {UnknownVersion, UnknownClass, MalformedEnvelope}
  {
    hide Known, Identifier, ReservedSender, U32;
  }
}
