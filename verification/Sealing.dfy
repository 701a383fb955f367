// The hybrid seal of field 8, and the whole path of an encrypted envelope:
// sealed, signed, encoded, decoded, verified and opened.
module Sealing {
  import opened Common
  import opened Framing
  import opened Identifiers
  import opened Envelope
  import opened Signature

  const X_BYTES: nat := 32
  const KEM_PUBLIC_BYTES: nat := 1184
  const KEM_CIPHERTEXT: nat := 1088
  const TAG_BYTES: nat := 16
  const SEAL_OVERHEAD: nat := 1136

  datatype DecryptionKey = DecryptionKey(x: Bytes, kem: Bytes)
  datatype RecipientKey = RecipientKey(x: Bytes, kem: Bytes)

  datatype Encapsulated = Encapsulated(secret: Bytes, ciphertext: Bytes)

  datatype Sealers = Sealers(
    xPublic: Bytes -> Bytes,
    xPublicOk: Bytes -> bool,
    xPrivateOk: Bytes -> bool,
    agree: (Bytes, Bytes) -> Option<Bytes>,
    kemPublic: Bytes -> Bytes,
    kemPublicOk: Bytes -> bool,
    kemPrivateOk: Bytes -> bool,
    encapsulate: (Bytes, Bytes) -> Encapsulated,
    decapsulate: (Bytes, Bytes) -> Option<Bytes>,
    kdf: Bytes -> Bytes,
    aeadSeal: (Bytes, Bytes) -> Bytes,
    aeadOpen: (Bytes, Bytes) -> Option<Bytes>)

  // What correct primitives promise: both sides agree on a secret, the KEM
  // decapsulates what it encapsulated, and the AEAD opens what it sealed.
  ghost predicate SealersCorrect(p: Sealers) {
    && (forall a, b :: p.agree(a, p.xPublic(b)) == p.agree(b, p.xPublic(a)))
    && (forall a :: |p.xPublic(a)| == X_BYTES && p.xPublicOk(p.xPublic(a)))
    && (forall k, coins :: var c := p.encapsulate(p.kemPublic(k), coins);
                           |c.ciphertext| == KEM_CIPHERTEXT && p.decapsulate(k, c.ciphertext) == Some(c.secret))
    && (forall key, text :: |p.aeadSeal(key, text)| == |text| + TAG_BYTES
                            && p.aeadOpen(key, p.aeadSeal(key, text)) == Some(text))
  }

  // Such primitives exist: an AEAD that appends a tag and removes it, over an
  // agreement on nothing, is correct.
  lemma CorrectSealersExist()
    ensures exists p :: SealersCorrect(p)
  {
    var x: Bytes := seq(X_BYTES, _ => 0);
    var ct: Bytes := seq(KEM_CIPHERTEXT, _ => 0);
    var tag: Bytes := seq(TAG_BYTES, _ => 0);
    var p := Sealers(k => x, b => true, b => true, (a, b) => Some([]), k => k, b => true, b => true,
                     (k, coins) => Encapsulated([], ct), (k, c) => Some([]), b => b,
                     (key, text) => text + tag,
                     (key, b) => if |b| < TAG_BYTES then None else Some(b[..|b| - TAG_BYTES]));
    forall key, text
      ensures |p.aeadSeal(key, text)| == |text| + TAG_BYTES && p.aeadOpen(key, p.aeadSeal(key, text)) == Some(text)
    {
      assert (text + tag)[..|text|] == text;
    }
    assert SealersCorrect(p);
  }

  function Recipient(p: Sealers, k: DecryptionKey): RecipientKey {
    RecipientKey(p.xPublic(k.x), p.kemPublic(k.kem))
  }

  // The transcript binds both secrets to what was sent.
  function Derive(p: Sealers, ss1: Bytes, ss2: Bytes, ephemeral: Bytes, ciphertext: Bytes): Bytes {
    p.kdf(ss1 + ss2 + ephemeral + ciphertext)
  }

  // The ephemeral private key and the encapsulation's coins are the randomness.
  function Seal(p: Sealers, r: RecipientKey, plaintext: Bytes, ephemeral: Bytes, coins: Bytes): Result<Bytes, Refusal> {
    var ss1 := p.agree(ephemeral, r.x);
    if ss1.None? then Err(DecryptionFailed)
    else
      var c := p.encapsulate(r.kem, coins);
      var key := Derive(p, ss1.value, c.secret, p.xPublic(ephemeral), c.ciphertext);
      Ok(p.xPublic(ephemeral) + c.ciphertext + p.aeadSeal(key, plaintext))
  }

  function Open(p: Sealers, k: DecryptionKey, field8: Bytes): Result<Bytes, Refusal> {
    if |field8| < SEAL_OVERHEAD then Err(DecryptionFailed)
    else
      var eph := field8[..X_BYTES];
      var ct := field8[X_BYTES..X_BYTES + KEM_CIPHERTEXT];
      var sealed := field8[X_BYTES + KEM_CIPHERTEXT..];
      if !p.xPublicOk(eph) then Err(DecryptionFailed)
      else
        var ss1, ss2 := p.agree(k.x, eph), p.decapsulate(k.kem, ct);
        if ss1.None? || ss2.None? then Err(DecryptionFailed)
        else
          var text := p.aeadOpen(Derive(p, ss1.value, ss2.value, eph, ct), sealed);
          if text.None? then Err(DecryptionFailed) else Ok(text.value)
  }

  function SealEnvelope(p: Sealers, r: RecipientKey, e: Envelope, ephemeral: Bytes, coins: Bytes)
    : Result<Envelope, Refusal>
  {
    if !Known(e.class_) then Err(UnknownClass)
    else if !Encrypted(e.class_) then Err(MalformedEnvelope)
    else if e.correlationId != "" then Err(MalformedEnvelope)
    else
      match Seal(p, r, e.payload, ephemeral, coins)
      case Err(x) => Err(x)
      case Ok(sealed) => Ok(e.(payload := sealed))
  }

  function OpenEnvelope(p: Sealers, k: DecryptionKey, e: Envelope): Result<Bytes, Refusal> {
    if !Known(e.class_) then Err(UnknownClass)
    else if !Encrypted(e.class_) then Err(MalformedEnvelope)
    else if e.correlationId != "" then Err(MalformedEnvelope)
    else Open(p, k, e.payload)
  }

  // The three parts sit at fixed offsets, so opening finds what sealing laid down.
  lemma SealThenOpen(p: Sealers, k: DecryptionKey, plaintext: Bytes, ephemeral: Bytes, coins: Bytes)
    requires SealersCorrect(p) && Seal(p, Recipient(p, k), plaintext, ephemeral, coins).Ok?
    ensures var field8 := Seal(p, Recipient(p, k), plaintext, ephemeral, coins).value;
            |field8| == |plaintext| + SEAL_OVERHEAD && Open(p, k, field8) == Ok(plaintext)
  {
    var ss1 := p.agree(ephemeral, p.xPublic(k.x)).value;
    assert p.agree(k.x, p.xPublic(ephemeral)) == Some(ss1);
    var c := p.encapsulate(p.kemPublic(k.kem), coins);
    assert |c.ciphertext| == KEM_CIPHERTEXT && p.decapsulate(k.kem, c.ciphertext) == Some(c.secret);
    var eph := p.xPublic(ephemeral);
    assert |eph| == X_BYTES && p.xPublicOk(eph);
    var key := Derive(p, ss1, c.secret, eph, c.ciphertext);
    var sealed := p.aeadSeal(key, plaintext);
    assert |sealed| == |plaintext| + TAG_BYTES && p.aeadOpen(key, sealed) == Some(plaintext);
    var field8 := eph + c.ciphertext + sealed;
    assert field8[..X_BYTES] == eph;
    assert field8[X_BYTES..X_BYTES + KEM_CIPHERTEXT] == c.ciphertext;
    assert field8[X_BYTES + KEM_CIPHERTEXT..] == sealed;
  }

  // Field 8 byte by byte: the ephemeral key, the ciphertext, and the plaintext under
  // a key derived from both secrets and both of the parts before it.
  lemma SealLayout(p: Sealers, r: RecipientKey, plaintext: Bytes, ephemeral: Bytes, coins: Bytes)
    requires |p.xPublic(ephemeral)| == 32 && |p.encapsulate(r.kem, coins).ciphertext| == 1088
    ensures Seal(p, r, plaintext, ephemeral, coins).Ok? <==> p.agree(ephemeral, r.x).Some?
    ensures Seal(p, r, plaintext, ephemeral, coins).Ok? ==>
              var f := Seal(p, r, plaintext, ephemeral, coins).value;
              var ss1, c := p.agree(ephemeral, r.x).value, p.encapsulate(r.kem, coins);
              && |f| >= 1120 && f[..32] == p.xPublic(ephemeral) && f[32..1120] == c.ciphertext
              && f[1120..] == p.aeadSeal(p.kdf(ss1 + c.secret + f[..32] + f[32..1120]), plaintext)
  {
    if p.agree(ephemeral, r.x).Some? {
      var f := Seal(p, r, plaintext, ephemeral, coins).value;
      assert f[..32] == p.xPublic(ephemeral);
      assert f[32..1120] == p.encapsulate(r.kem, coins).ciphertext;
    }
  }

  // Opening succeeds exactly when every part is sound, with that same key, and
  // has one refusal whatever is wrong.
  lemma OpenIff(p: Sealers, k: DecryptionKey, f: Bytes)
    ensures forall text :: Open(p, k, f) == Ok(text) <==>
                             && |f| >= 1136 && p.xPublicOk(f[..32])
                             && p.agree(k.x, f[..32]).Some? && p.decapsulate(k.kem, f[32..1120]).Some?
                             && var ss1, ss2 := p.agree(k.x, f[..32]).value, p.decapsulate(k.kem, f[32..1120]).value;
                             p.aeadOpen(p.kdf(ss1 + ss2 + f[..32] + f[32..1120]), f[1120..]) == Some(text)
    ensures Open(p, k, f).Err? ==> Open(p, k, f) == Err(DecryptionFailed)
  {}

  // Sealing an envelope replaces field 8 and nothing else, in the three encrypted
  // classes only, and opening one reads field 8 and nothing else.
  lemma EnvelopesSealIff(p: Sealers, r: RecipientKey, k: DecryptionKey, e: Envelope, ephemeral: Bytes, coins: Bytes,
                         out: Envelope)
    ensures SealEnvelope(p, r, e, ephemeral, coins) == Ok(out) <==>
              && e.class_ in {"command", "cancellation", "result"} && e.correlationId == ""
              && out == e.(payload := out.payload) && Seal(p, r, e.payload, ephemeral, coins) == Ok(out.payload)
    ensures OpenEnvelope(p, k, e).Ok? <==>
              && e.class_ in {"command", "cancellation", "result"} && e.correlationId == ""
              && Open(p, k, e.payload).Ok?
    ensures OpenEnvelope(p, k, e).Ok? ==> OpenEnvelope(p, k, e) == Open(p, k, e.payload)
  {
    ClassesAre(e.class_);
    hide Seal, Open;
  }

  // An AEAD that opens anything to the key it was given.
  function Revealing(p: Sealers): Sealers {
    p.(aeadOpen := (key: Bytes, sealed: Bytes) => Some(key))
  }

  // The key an opening uses depends on both secrets and on both public parts, and
  // on nothing else.
  lemma KeysAgreeIff(p: Sealers, k: DecryptionKey, k': DecryptionKey, f: Bytes, f': Bytes)
    requires forall a, b :: p.kdf(a) == p.kdf(b) ==> a == b
    requires Open(Revealing(p), k, f).Ok? && Open(Revealing(p), k', f').Ok?
    requires |p.agree(k.x, f[..32]).value| == |p.agree(k'.x, f'[..32]).value|
    requires |p.decapsulate(k.kem, f[32..1120]).value| == |p.decapsulate(k'.kem, f'[32..1120]).value|
    ensures Open(Revealing(p), k, f) == Open(Revealing(p), k', f') <==>
              && p.agree(k.x, f[..32]) == p.agree(k'.x, f'[..32])
              && p.decapsulate(k.kem, f[32..1120]) == p.decapsulate(k'.kem, f'[32..1120])
              && f[..1120] == f'[..1120]
  {
    var a, b := p.agree(k.x, f[..32]).value, p.decapsulate(k.kem, f[32..1120]).value;
    var a', b' := p.agree(k'.x, f'[..32]).value, p.decapsulate(k'.kem, f'[32..1120]).value;
    FourParts(a, b, f[..32], f[32..1120], a', b', f'[..32], f'[32..1120]);
    assert f[..1120] == f[..32] + f[32..1120] && f'[..1120] == f'[..32] + f'[32..1120];
    assert f[..1120][..32] == f[..32] && f[..1120][32..] == f[32..1120];
    assert f'[..1120][..32] == f'[..32] && f'[..1120][32..] == f'[32..1120];
  }

  lemma FourParts(a: Bytes, b: Bytes, c: Bytes, d: Bytes, a': Bytes, b': Bytes, c': Bytes, d': Bytes)
    requires |a| == |a'| && |b| == |b'| && |c| == |c'| && |d| == |d'|
    ensures a + b + c + d == a' + b' + c' + d' <==> a == a' && b == b' && c == c' && d == d'
  {
    if a + b + c + d == a' + b' + c' + d' {
      var s, s' := a + b + c + d, a' + b' + c' + d';
      assert a == s[..|a|] && a' == s'[..|a|];
      assert b == s[|a|..|a| + |b|] && b' == s'[|a|..|a| + |b|];
      assert c == s[|a| + |b|..|a| + |b| + |c|] && c' == s'[|a| + |b|..|a| + |b| + |c|];
      assert d == s[|a| + |b| + |c|..] && d' == s'[|a| + |b| + |c|..];
    }
  }

  // An envelope its sender has still to seal and sign.
  predicate Unsent(e: Envelope) {
    && e.version == VERSION && Encrypted(e.class_) && e.correlationId == ""
    && |e.nonce| == NONCE_BYTES
    && (e.jobId == "" || Identifier(e.jobId)) && (Identifier(e.sender) || ReservedSender(e.sender))
  }

  function Sent(ps: Sealers, pg: Signers, r: RecipientKey, k: SigningKey, e: Envelope,
                ephemeral: Bytes, coins: Bytes, signCoins: Bytes): Result<Bytes, Refusal>
  {
    match SealEnvelope(ps, r, e, ephemeral, coins)
    case Err(x) => Err(x)
    case Ok(sealed) =>
      match SignEnvelope(pg, k, sealed, signCoins)
      case Err(x) => Err(x)
      case Ok(signed) => if Encode(signed).None? then Err(MalformedEnvelope) else Ok(Encode(signed).value)
  }

  function ReceivedPayload(ps: Sealers, pg: Signers, v: VerifyingKey, k: DecryptionKey, b: Bytes, max: int)
    : Result<Bytes, Refusal>
  {
    match Decode(b, max)
    case Err(x) => Err(x)
    case Ok(e) =>
      if VerifyEnvelope(pg, v, e).Some? then Err(VerifyEnvelope(pg, v, e).value)
      else OpenEnvelope(ps, k, e)
  }

  // Every encrypted class, every payload that fits: what is received is what was
  // meant, whenever the agreement itself succeeds.
  lemma PayloadArrives(ps: Sealers, pg: Signers, d: DecryptionKey, k: SigningKey, e: Envelope,
                       ephemeral: Bytes, coins: Bytes, signCoins: Bytes, max: int)
    requires SealersCorrect(ps) && SignersCorrect(pg) && Unsent(e)
    requires ps.agree(ephemeral, ps.xPublic(d.x)).Some?
    requires |e.payload| + SEAL_OVERHEAD < TWO32 && |e.signature| < TWO32
    ensures Sent(ps, pg, Recipient(ps, d), k, e, ephemeral, coins, signCoins).Ok?
    ensures var b := Sent(ps, pg, Recipient(ps, d), k, e, ephemeral, coins, signCoins).value;
            if |b| <= Effective(max) then ReceivedPayload(ps, pg, Verifying(pg, k), d, b, max) == Ok(e.payload)
            else ReceivedPayload(ps, pg, Verifying(pg, k), d, b, max) == Err(PayloadTooLarge)
                 || ReceivedPayload(ps, pg, Verifying(pg, k), d, b, max) == Err(MalformedEnvelope)
  {
    SealThenOpen(ps, d, e.payload, ephemeral, coins);
    var sealed := SealEnvelope(ps, Recipient(ps, d), e, ephemeral, coins).value;
    UnsignedFrames(sealed);
    SignThenVerify(pg, k, sealed, signCoins);
    var signed := SignEnvelope(pg, k, sealed, signCoins).value;
    assert WellFormed(signed);
    WellFormedFrames(signed);
    var b := Encode(signed).value;
    if |b| <= Effective(max) {
      EncodeThenDecode(signed, max);
      VerifiesSettled(pg, Verifying(pg, k), signed);
      hide Verify, SignedBytes, Encode, Decode, Seal, Open, Sign;
      assert OpenEnvelope(ps, d, Settled(signed)) == Open(ps, d, sealed.payload);
    } else {
      SplitAcceptsIff(b, max);
      OnlyTwoRefusals(b, FIELDS, Effective(max));
      TooLongRefused(b, max);
    }
  }

  lemma TooLongRefused(b: Bytes, max: int)
    requires |b| > Effective(max)
    ensures Decode(b, max) == Err(PayloadTooLarge) || Decode(b, max) == Err(MalformedEnvelope)
  {
    SplitAcceptsIff(b, max);
    OnlyTwoRefusals(b, FIELDS, Effective(max));
    if Parse(b, FIELDS, Effective(max)).Ok? { ParseSound(b, FIELDS, Effective(max)); }
  }

  lemma UnsignedFrames(e: Envelope)
    requires Unsent(e.(payload := [])) && |e.payload| < TWO32 && |e.signature| < TWO32
    ensures SignedBytes(e).Some?
  {
    hide BE64, UnixMilli, ToU64;
  }

  // A receiver verifies over the envelope it decoded, whose time is settled.
  lemma VerifiesSettled(p: Signers, v: VerifyingKey, e: Envelope)
    requires SignedBytes(e).Some?
    ensures SignedBytes(Settled(e)) == SignedBytes(e) && VerifyEnvelope(p, v, Settled(e)) == VerifyEnvelope(p, v, e)
  {
    SettledMilli(e.timestamp);
    hide UnixMilli, FromMilli;
    assert FieldValues(Settled(e)) == FieldValues(e);
  }

  lemma SettledMilli(t: Time)
    ensures UnixMilli(FromMilli(UnixMilli(t))) == UnixMilli(t)
  {
    var ms := UnixMilli(t);
    FromMilliFloors(ms);
    MilliOf(FromMilli(ms));
    MilliOf(t);
    hide UnixMilli, FromMilli;
    assert ms % 1000 * 1_000_000 / 1_000_000 == ms % 1000;
  }

  // A cleartext correlation identifier is refused wherever an encrypted class is
  // handled: when sealed, when decoded and when opened.
  lemma CorrelationRefused(ps: Sealers, r: RecipientKey, k: DecryptionKey, e: Envelope, ephemeral: Bytes, coins: Bytes,
                           max: int)
    requires Encrypted(e.class_) && e.correlationId != ""
    ensures SealEnvelope(ps, r, e, ephemeral, coins) == Err(MalformedEnvelope)
    ensures OpenEnvelope(ps, k, e) == Err(MalformedEnvelope)
    ensures Encode(e).Some? ==> Decode(Encode(e).value, max).Err?
  {
    if Encode(e).Some? && Decode(Encode(e).value, max).Ok? {
      var b := Encode(e).value;
      ParseSound(b, FIELDS, Effective(max));
      FramedInjective(Parse(b, FIELDS, Effective(max)).value, FieldValues(e));
      TextInverts(e.class_, []);
      TextInverts(e.correlationId, []);
    }
  }

  // ---- key forms ------------------------------------------------------------

  function RecipientKeyBytes(r: RecipientKey): Bytes {
    r.x + r.kem
  }

  function ParseRecipientKey(p: Sealers, b: Bytes): Result<RecipientKey, Refusal> {
    if |b| != X_BYTES + KEM_PUBLIC_BYTES then Err(DecryptionFailed)
    else if !p.xPublicOk(b[..X_BYTES]) then Err(DecryptionFailed)
    else if !p.kemPublicOk(b[X_BYTES..]) then Err(DecryptionFailed)
    else Ok(RecipientKey(b[..X_BYTES], b[X_BYTES..]))
  }

  function MarshalDecryptionKey(k: DecryptionKey): Bytes {
    k.x + k.kem
  }

  function ParseDecryptionKey(p: Sealers, b: Bytes): Result<DecryptionKey, Refusal> {
    if |b| <= X_BYTES then Err(DecryptionFailed)
    else if !p.xPrivateOk(b[..X_BYTES]) then Err(DecryptionFailed)
    else if !p.kemPrivateOk(b[X_BYTES..]) then Err(DecryptionFailed)
    else Ok(DecryptionKey(b[..X_BYTES], b[X_BYTES..]))
  }

  lemma RecipientKeyParsesIff(p: Sealers, r: RecipientKey, b: Bytes)
    ensures ParseRecipientKey(p, b) == Ok(r) <==>
            && b == r.x + r.kem && |r.x| == 32 && |r.kem| == 1184
            && p.xPublicOk(r.x) && p.kemPublicOk(r.kem)
    ensures RecipientKeyBytes(r) == r.x + r.kem
  {
    if |b| == X_BYTES + KEM_PUBLIC_BYTES { assert b == b[..X_BYTES] + b[X_BYTES..]; }
    if |r.x| == X_BYTES { assert (r.x + r.kem)[..X_BYTES] == r.x && (r.x + r.kem)[X_BYTES..] == r.kem; }
  }

  lemma DecryptionKeyParsesIff(p: Sealers, k: DecryptionKey, b: Bytes)
    ensures ParseDecryptionKey(p, b) == Ok(k) <==>
            && b == k.x + k.kem && |k.x| == 32 && k.kem != []
            && p.xPrivateOk(k.x) && p.kemPrivateOk(k.kem)
    ensures MarshalDecryptionKey(k) == k.x + k.kem
  {
    if |b| > X_BYTES { assert b == b[..X_BYTES] + b[X_BYTES..]; }
    if |k.x| == X_BYTES { assert (k.x + k.kem)[..X_BYTES] == k.x && (k.x + k.kem)[X_BYTES..] == k.kem; }
  }
}
