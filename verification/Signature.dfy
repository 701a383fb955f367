// The hybrid signature over fields 1 to 8, and the wire and storage forms of the
// signing keys. The primitives are arguments: what is proved here assumes of
// them only what each lemma says it does.
module Signature {
  import opened Common
  import opened Framing
  import opened Envelope

  const ED_PUBLIC_BYTES: nat := 32
  const ML_PUBLIC_BYTES: nat := 1952
  const ED_SEED_BYTES: nat := 32
  const ML_SEED_BYTES: nat := 32
  const ED_SIGNATURE_BYTES: nat := 64
  const ML_SIGNATURE_BYTES: nat := 3309

  datatype SigningKey = SigningKey(ed: Bytes, ml: Bytes)
  datatype VerifyingKey = VerifyingKey(ed: Bytes, ml: Bytes)

  datatype Signers = Signers(
    edPublic: Bytes -> Bytes,
    edSign: (Bytes, Bytes) -> Bytes,
    edVerify: (Bytes, Bytes, Bytes) -> bool,
    mlPublic: Bytes -> Bytes,
    mlSign: (Bytes, Bytes, Bytes) -> Bytes,
    mlVerify: (Bytes, Bytes, Bytes) -> bool,
    mlSeedOk: Bytes -> bool,
    mlPublicOk: Bytes -> bool)

  // What correct primitives promise: a signature verifies under its own key, at
  // the standard's length.
  ghost predicate SignersCorrect(p: Signers) {
    && (forall k, input :: |p.edSign(k, input)| == ED_SIGNATURE_BYTES
                           && p.edVerify(p.edPublic(k), input, p.edSign(k, input)))
    && (forall k, input, coins :: |p.mlSign(k, input, coins)| == ML_SIGNATURE_BYTES
                                  && p.mlVerify(p.mlPublic(k), input, p.mlSign(k, input, coins)))
  }

  // Such primitives exist: a signature of zeros that any key accepts is correct,
  // though nobody would call it unforgeable.
  lemma CorrectSignersExist()
    ensures exists p :: SignersCorrect(p)
  {
    var ed: Bytes := seq(ED_SIGNATURE_BYTES, _ => 0);
    var ml: Bytes := seq(ML_SIGNATURE_BYTES, _ => 0);
    var p := Signers(k => k, (k, input) => ed, (k, input, sig) => true, k => k, (k, input, coins) => ml,
                     (k, input, sig) => true,
                     b => true, b => true);
    assert SignersCorrect(p);
  }

  function Verifying(p: Signers, k: SigningKey): VerifyingKey {
    VerifyingKey(p.edPublic(k.ed), p.mlPublic(k.ml))
  }

  function Sign(p: Signers, k: SigningKey, input: Bytes, coins: Bytes): Result<Bytes, Refusal> {
    var ed, ml := p.edSign(k.ed, input), p.mlSign(k.ml, input, coins);
    if |ed| != ED_SIGNATURE_BYTES || |ml| != ML_SIGNATURE_BYTES then Err(SignatureInvalid) else Ok(ed + ml)
  }

  // Both halves are required.
  predicate Verify(p: Signers, v: VerifyingKey, input: Bytes, signature: Bytes) {
    && |signature| == SIGNATURE_BYTES
    && p.edVerify(v.ed, input, signature[..ED_SIGNATURE_BYTES])
    && p.mlVerify(v.ml, input, signature[ED_SIGNATURE_BYTES..])
  }

  function SignEnvelope(p: Signers, k: SigningKey, e: Envelope, coins: Bytes): Result<Envelope, Refusal> {
    if !Known(e.class_) then Err(UnknownClass)
    else if SignedBytes(e).None? then Err(MalformedEnvelope)
    else
      match Sign(p, k, SignedBytes(e).value, coins)
      case Err(r) => Err(r)
      case Ok(sig) => Ok(e.(signature := sig))
  }

  function VerifyEnvelope(p: Signers, v: VerifyingKey, e: Envelope): Option<Refusal> {
    if !Known(e.class_) then Some(UnknownClass)
    else if SignedBytes(e).None? then Some(MalformedEnvelope)
    else if Verify(p, v, SignedBytes(e).value, e.signature) then None
    else Some(SignatureInvalid)
  }

  // ---- what the signature covers --------------------------------------------

  // Two envelopes alike in fields 1 to 8; a time is what its field says of it.
  predicate SameEight(e: Envelope, f: Envelope) {
    && e.version == f.version && e.class_ == f.class_ && e.jobId == f.jobId && e.correlationId == f.correlationId
    && e.sender == f.sender && UnixMilli(e.timestamp) == UnixMilli(f.timestamp)
    && e.nonce == f.nonce && e.payload == f.payload
  }

  lemma EightOf(e: Envelope, f: Envelope)
    ensures SameEight(e, f) <==> FieldValues(e)[..FIELDS - 1] == FieldValues(f)[..FIELDS - 1]
  {
    hide U32, BE32, BE64, U64, UnixMilli, ToU64, TextBytes, BytesText;
    var a, b := FieldValues(e), FieldValues(f);
    if a[..FIELDS - 1] == b[..FIELDS - 1] {
      assert forall i :: 0 <= i < FIELDS - 1 ==> a[i] == a[..FIELDS - 1][i] == b[..FIELDS - 1][i] == b[i];
      assert a[0] == b[0] && a[1] == b[1] && a[2] == b[2] && a[3] == b[3];
      assert a[4] == b[4] && a[5] == b[5] && a[6] == b[6] && a[7] == b[7];
      NumbersAgree(e, f);
      TextsAgree(e.class_, f.class_);
      TextsAgree(e.jobId, f.jobId);
      TextsAgree(e.correlationId, f.correlationId);
      TextsAgree(e.sender, f.sender);
    }
  }

  lemma TextsAgree(s: Text, t: Text)
    ensures TextBytes(s) == TextBytes(t) ==> s == t
  {
    TextInverts(s, []);
    TextInverts(t, []);
  }

  lemma NumbersAgree(e: Envelope, f: Envelope)
    ensures BE32(e.version) == BE32(f.version) ==> e.version == f.version
    ensures BE64(ToU64(UnixMilli(e.timestamp))) == BE64(ToU64(UnixMilli(f.timestamp)))
            ==> UnixMilli(e.timestamp) == UnixMilli(f.timestamp)
  {
    U32Inverts(e.version, []);
    U32Inverts(f.version, []);
    assert BE32(e.version) + [] == BE32(e.version) && BE32(f.version) + [] == BE32(f.version);
    TimeComesBack(e.timestamp);
    TimeComesBack(f.timestamp);
  }

  // The signed bytes are equal exactly when fields 1 to 8 are: nothing moves
  // across a field boundary, and field 9 is not among them.
  lemma SignedBytesIff(e: Envelope, f: Envelope)
    requires SignedBytes(e).Some? && SignedBytes(f).Some?
    ensures SignedBytes(e) == SignedBytes(f) <==> SameEight(e, f)
  {
    EightOf(e, f);
    hide FieldValues, SameEight;
    var a, b := FieldValues(e)[..FIELDS - 1], FieldValues(f)[..FIELDS - 1];
    if Framed(a) == Framed(b) { FramedInjective(a, b); }
  }

  // What is signed is a strict prefix of what is sent.
  lemma SignedBytesPrefix(e: Envelope)
    requires SignedBytes(e).Some?
    ensures Encode(e).Some? && SignedBytes(e).value < Encode(e).value
  {
    hide FieldValues;
    var fs := FieldValues(e);
    FramedJoins(fs[..FIELDS - 1], fs[FIELDS - 1..]);
    assert fs == fs[..FIELDS - 1] + fs[FIELDS - 1..];
    assert |Framed(fs[FIELDS - 1..])| >= 4;
  }

  // ---- signing and verifying ------------------------------------------------

  lemma SignThenVerify(p: Signers, k: SigningKey, e: Envelope, coins: Bytes)
    requires SignersCorrect(p) && Known(e.class_) && SignedBytes(e).Some?
    ensures SignEnvelope(p, k, e, coins).Ok?
    ensures var s := SignEnvelope(p, k, e, coins).value;
            && s == e.(signature := s.signature) && |s.signature| == SIGNATURE_BYTES
            && SignedBytes(s) == SignedBytes(e) && VerifyEnvelope(p, Verifying(p, k), s).None?
  {
    var input := SignedBytes(e).value;
    var ed, ml := p.edSign(k.ed, input), p.mlSign(k.ml, input, coins);
    assert |ed| == ED_SIGNATURE_BYTES && |ml| == ML_SIGNATURE_BYTES;
    assert (ed + ml)[..ED_SIGNATURE_BYTES] == ed && (ed + ml)[ED_SIGNATURE_BYTES..] == ml;
    var s := e.(signature := ed + ml);
    var a, b := FieldValues(e), FieldValues(s);
    assert forall i :: 0 <= i < FIELDS - 1 ==> a[i] == b[i];
    assert a[..FIELDS - 1] == b[..FIELDS - 1];
    assert Framable(b) by {
      assert forall i :: 0 <= i < FIELDS - 1 ==> |a[i]| < TWO32;
    }
  }

  // Field 9 is the two signatures of the same bytes, at fixed offsets, each under its
  // own half of the key; nothing else of the envelope changes.
  lemma SignatureLayout(p: Signers, k: SigningKey, e: Envelope, coins: Bytes, s: Envelope)
    ensures SignEnvelope(p, k, e, coins) == Ok(s) <==>
              && Known(e.class_) && SignedBytes(e).Some? && s == e.(signature := s.signature)
              && |s.signature| == 3373
              && s.signature[..64] == p.edSign(k.ed, SignedBytes(e).value)
              && s.signature[64..] == p.mlSign(k.ml, SignedBytes(e).value, coins)
  {
    hide FieldValues, Framed;
    if Known(e.class_) && SignedBytes(e).Some? {
      var ed, ml := p.edSign(k.ed, SignedBytes(e).value), p.mlSign(k.ml, SignedBytes(e).value, coins);
      if |ed| == 64 && |ml| == 3309 { assert (ed + ml)[..64] == ed && (ed + ml)[64..] == ml; }
      if |s.signature| == 3373 { assert s.signature == s.signature[..64] + s.signature[64..]; }
    }
  }

  // An envelope verifies exactly when both of its signatures do, of those bytes.
  lemma VerifiesIff(p: Signers, v: VerifyingKey, e: Envelope)
    ensures VerifyEnvelope(p, v, e).None? <==>
              && Known(e.class_) && SignedBytes(e).Some? && |e.signature| == 3373
              && p.edVerify(v.ed, SignedBytes(e).value, e.signature[..64])
              && p.mlVerify(v.ml, SignedBytes(e).value, e.signature[64..])
    ensures !Known(e.class_) ==> VerifyEnvelope(p, v, e) == Some(UnknownClass)
    ensures Known(e.class_) && SignedBytes(e).None? ==> VerifyEnvelope(p, v, e) == Some(MalformedEnvelope)
    ensures Known(e.class_) && SignedBytes(e).Some? && VerifyEnvelope(p, v, e).Some? ==>
              VerifyEnvelope(p, v, e) == Some(SignatureInvalid)
  {}

  // The key holder signed these envelopes, and of the signatures anyone ever
  // presents only the key holder's verify: the ideal a primitive may meet.
  ghost predicate Unforgeable(verify: (Bytes, Bytes, Bytes) -> bool, key: Bytes,
                              signed: set<Envelope>, presented: set<Bytes>) {
    forall input, sig :: sig in presented && verify(key, input, sig) ==> SignedIt(signed, input)
  }

  ghost predicate SignedIt(signed: set<Envelope>, input: Bytes) {
    exists f :: f in signed && SignedBytes(f) == Some(input)
  }

  function Filled(n: nat, b: byte): (r: Bytes)
    ensures |r| == n
  {
    seq(n, _ => b)
  }

  // A signer that tells one input from all others.
  function Telling(only: Bytes, n: nat, input: Bytes): (r: Bytes)
    requires n > 0
    ensures |r| == n && (r == Filled(n, 1) <==> input == only)
  {
    assert Filled(n, 0)[0] != Filled(n, 1)[0];
    if input == only then Filled(n, 1) else Filled(n, 0)
  }

  // Whatever envelope is signed under whatever key, there are primitives both
  // correct and unforgeable for it, and what they sign verifies.
  lemma IdealSigners(k: SigningKey, e: Envelope, coins: Bytes) returns (p: Signers, presented: set<Bytes>)
    requires Known(e.class_) && SignedBytes(e).Some?
    ensures SignersCorrect(p)
    ensures Unforgeable(p.edVerify, Verifying(p, k).ed, {e}, presented)
    ensures Unforgeable(p.mlVerify, Verifying(p, k).ml, {e}, presented)
    ensures SignEnvelope(p, k, e, coins).Ok?
    ensures var s := SignEnvelope(p, k, e, coins).value;
            && VerifyEnvelope(p, Verifying(p, k), s).None?
            && s.signature[..ED_SIGNATURE_BYTES] in presented && s.signature[ED_SIGNATURE_BYTES..] in presented
  {
    var only := SignedBytes(e).value;
    var ed := (input: Bytes) => Telling(only, ED_SIGNATURE_BYTES, input);
    var ml := (input: Bytes) => Telling(only, ML_SIGNATURE_BYTES, input);
    p := Signers(key => key, (key, input) => ed(input), (key, input, sig) => sig == ed(input),
                 key => key, (key, input, coins) => ml(input), (key, input, sig) => sig == ml(input),
                 b => true, b => true);
    presented := {ed(only), ml(only)};
    hide FieldValues, Framed, Filled;
    SignThenVerify(p, k, e, coins);
    var s := SignEnvelope(p, k, e, coins).value;
    assert s.signature == ed(only) + ml(only);
    assert SignedIt({e}, only);
  }

  // If either primitive is unforgeable, whatever bytes decode and verify agree
  // in all eight signed fields with an envelope the key holder signed.
  lemma Authentic(p: Signers, v: VerifyingKey, signed: set<Envelope>, presented: set<Bytes>, b: Bytes, max: int)
    requires Unforgeable(p.edVerify, v.ed, signed, presented) || Unforgeable(p.mlVerify, v.ml, signed, presented)
    requires Decode(b, max).Ok? && VerifyEnvelope(p, v, Decode(b, max).value).None?
    requires var sig := Decode(b, max).value.signature;
             |sig| == SIGNATURE_BYTES ==>
               sig[..ED_SIGNATURE_BYTES] in presented && sig[ED_SIGNATURE_BYTES..] in presented
    ensures exists f :: f in signed && SameEight(f, Decode(b, max).value)
  {
    var e := Decode(b, max).value;
    var input := SignedBytes(e).value;
    hide Decode;
    var f: Envelope;
    if Unforgeable(p.edVerify, v.ed, signed, presented) {
      assert p.edVerify(v.ed, input, e.signature[..ED_SIGNATURE_BYTES]);
      f :| f in signed && SignedBytes(f) == Some(input);
    } else {
      assert p.mlVerify(v.ml, input, e.signature[ED_SIGNATURE_BYTES..]);
      f :| f in signed && SignedBytes(f) == Some(input);
    }
    SignedBytesIff(f, e);
  }

  // ---- key forms ------------------------------------------------------------

  function MarshalSigningKey(k: SigningKey): Bytes {
    k.ed + k.ml
  }

  function ParseSigningKey(p: Signers, b: Bytes): Result<SigningKey, Refusal> {
    if |b| != ED_SEED_BYTES + ML_SEED_BYTES then Err(SignatureInvalid)
    else if !p.mlSeedOk(b[ED_SEED_BYTES..]) then Err(SignatureInvalid)
    else Ok(SigningKey(b[..ED_SEED_BYTES], b[ED_SEED_BYTES..]))
  }

  function VerifyingKeyBytes(v: VerifyingKey): Bytes {
    v.ed + v.ml
  }

  function ParseVerifyingKey(p: Signers, b: Bytes): Result<VerifyingKey, Refusal> {
    if |b| != ED_PUBLIC_BYTES + ML_PUBLIC_BYTES then Err(SignatureInvalid)
    else if !p.mlPublicOk(b[ED_PUBLIC_BYTES..]) then Err(SignatureInvalid)
    else Ok(VerifyingKey(b[..ED_PUBLIC_BYTES], b[ED_PUBLIC_BYTES..]))
  }

  // A parse yields exactly the key whose stored form it was given.
  lemma SigningKeyParsesIff(p: Signers, k: SigningKey, b: Bytes)
    ensures ParseSigningKey(p, b) == Ok(k) <==>
            b == k.ed + k.ml && |k.ed| == 32 && |k.ml| == 32 && p.mlSeedOk(k.ml)
    ensures MarshalSigningKey(k) == k.ed + k.ml
  {
    if |b| == ED_SEED_BYTES + ML_SEED_BYTES { assert b == b[..ED_SEED_BYTES] + b[ED_SEED_BYTES..]; }
    if |k.ed| == ED_SEED_BYTES {
      assert (k.ed + k.ml)[..ED_SEED_BYTES] == k.ed && (k.ed + k.ml)[ED_SEED_BYTES..] == k.ml;
    }
  }

  lemma VerifyingKeyParsesIff(p: Signers, v: VerifyingKey, b: Bytes)
    ensures ParseVerifyingKey(p, b) == Ok(v) <==>
            b == v.ed + v.ml && |v.ed| == 32 && |v.ml| == 1952 && p.mlPublicOk(v.ml)
    ensures VerifyingKeyBytes(v) == v.ed + v.ml
  {
    if |b| == ED_PUBLIC_BYTES + ML_PUBLIC_BYTES { assert b == b[..ED_PUBLIC_BYTES] + b[ED_PUBLIC_BYTES..]; }
    if |v.ed| == ED_PUBLIC_BYTES {
      assert (v.ed + v.ml)[..ED_PUBLIC_BYTES] == v.ed && (v.ed + v.ml)[ED_PUBLIC_BYTES..] == v.ml;
    }
  }
}
