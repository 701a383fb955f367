// What the service's checks let through, read off the row, the envelope and the
// clock alone: which refusal a request gets, which requests are recorded,
// answered or asked on, and which presence envelopes activate.
module Checks {
  import opened Common
  import opened StoreModel
  import opened Protocol

  // ---- requests -------------------------------------------------------------

  // A request of this agent, for this token, that decodes.
  ghost predicate Addressed(r: Row, token: TokenId, p: Packet) {
    p.RequestPacket? && p.sender == r.agent && p.token == token && p.body.Request?
  }

  // And the token is still good for it.
  ghost predicate Live(r: Row, token: TokenId, p: Packet, now: int) {
    && Addressed(r, token, p)
    && (r.state.Issued? || p.body.kind == ConfirmationKind)
    && now < r.expiresAt
  }

  // And it carries all three halves, under the signature of its own signing half.
  ghost predicate SelfSigned(r: Row, token: TokenId, p: Packet, now: int) {
    && Live(r, token, p, now)
    && p.body.nats.Some? && p.body.encryption.Some? && p.body.signing == Some(p.signer)
  }

  function Presented(p: Packet): Halves
    requires p.RequestPacket? && p.body.Request?
    requires p.body.nats.Some? && p.body.signing.Some? && p.body.encryption.Some?
  {
    Halves(p.body.nats.value, p.body.signing.value, p.body.encryption.value)
  }

  // And they are the halves recorded, if any are.
  ghost predicate Passes(r: Row, token: TokenId, p: Packet, now: int) {
    && SelfSigned(r, token, p, now)
    && (r.credential.Some? ==> r.credential.value.halves == Presented(p))
    && p.body.kind != OtherKind
  }

  // Why a request is refused. Each reason supposes the checks before its own.
  ghost predicate Refused(row: Option<Row>, token: TokenId, p: Packet, now: int, reason: string) {
    if row.None? then reason == "unknown token"
    else
      var r := row.value;
      || (reason == "malformed request" && !Addressed(r, token, p))
      || (reason == "token spent" && Addressed(r, token, p) && r.state.Spent? && p.body.kind != ConfirmationKind)
      || (reason == "token expired" && Addressed(r, token, p) && (r.state.Issued? || p.body.kind == ConfirmationKind)
          && now >= r.expiresAt)
      || (reason == "incomplete public halves" && Live(r, token, p, now)
          && (p.body.nats.None? || p.body.signing.None? || p.body.encryption.None?))
      || (reason == "request signature" && Live(r, token, p, now)
          && p.body.nats.Some? && p.body.signing.Some? && p.body.encryption.Some? && p.body.signing.value != p.signer)
      || (reason == "different public halves" && SelfSigned(r, token, p, now)
          && r.credential.Some? && r.credential.value.halves != Presented(p))
      || (reason == "malformed request" && SelfSigned(r, token, p, now) && p.body.kind == OtherKind
          && (r.credential.Some? ==> r.credential.value.halves == Presented(p)))
  }

  // Each decision, exactly when it is made.
  lemma DecidesIff(row: Option<Row>, token: TokenId, p: Packet, now: int)
    ensures forall reason :: Decide(row, token, p, now) == Refuse(reason) <==> Refused(row, token, p, now, reason)
    ensures !Decide(row, token, p, now).Refuse? <==> row.Some? && Passes(row.value, token, p, now)
    ensures row.Some? && Passes(row.value, token, p, now) ==>
              Decide(row, token, p, now) ==
              if p.body.kind == ConfirmationKind then Ask(Presented(p))
              else if row.value.credential.Some? then Repeat(Presented(p), row.value.credential.value.jwt)
              else Mint(Presented(p))
  {}

  // At most one reason holds.
  lemma OneReason(row: Option<Row>, token: TokenId, p: Packet, now: int, reason: string, other: string)
    requires Refused(row, token, p, now, reason) && Refused(row, token, p, now, other)
    ensures reason == other
  {
    DecidesIff(row, token, p, now);
  }

  // A token past its expiry gets a denial, whatever the request.
  lemma ExpiredIsRefused(r: Row, token: TokenId, p: Packet, now: int)
    requires now >= r.expiresAt
    ensures exists reason :: Refused(Some(r), token, p, now, reason)
    ensures !Passes(r, token, p, now)
  {
    if !Addressed(r, token, p) {
      assert Refused(Some(r), token, p, now, "malformed request");
    } else if r.state.Spent? && p.body.kind != ConfirmationKind {
      assert Refused(Some(r), token, p, now, "token spent");
    } else {
      assert Refused(Some(r), token, p, now, "token expired");
    }
  }

  // A handler that read a request stands where the row, the envelope and the
  // clock put it.
  lemma ReadRequestIff(s: State, id: HandlerId, now: int, serial: nat)
    requires Enabled(s, ReadRequest(id, now, serial))
    ensures var token, p := s.server.handlers[id].token, s.server.handlers[id].packet;
            var row := if token in s.db.enrollment then Some(s.db.enrollment[token]) else None;
            var s' := Next(s, ReadRequest(id, now, serial));
            && id in s'.server.handlers
            && var x := s'.server.handlers[id];
            && (forall reason :: x == Denying(token, reason) <==> Refused(row, token, p, now, reason))
            && (!x.Denying? <==> row.Some? && Passes(row.value, token, p, now))
            && (!x.Denying? ==>
                  var r := row.value;
                  x == if p.body.kind == ConfirmationKind then AtGate(token, Presented(p), r)
                       else if r.credential.Some? then
                         Answering(token, Presented(p), CredentialReply(r.agent, r.credential.value.jwt))
                       else Recording(token, Credential(Presented(p), Jwt(r.agent, p.body.nats.value, serial))))
  {
    hide HostNext, HostEnabled, GateNext, GateEnabled, Decide, Refused, Passes;
    var x := s.server.handlers[id];
    DecidesIff(Enrollment(s.db, x.token), x.token, x.packet, now);
    Selfsigned(Enrollment(s.db, x.token), x.token, x.packet, now);
  }

  lemma Selfsigned(row: Option<Row>, token: TokenId, p: Packet, now: int)
    ensures row.Some? && Passes(row.value, token, p, now) ==>
              && p.RequestPacket? && p.body.Request?
              && p.body.nats.Some? && p.body.signing.Some? && p.body.encryption.Some?
  {}

  // ---- presence -------------------------------------------------------------

  // An envelope of this agent, under the recorded signing half, whose time is
  // within two minutes of the clock's, for a row that is still to be activated.
  ghost predicate FreshProof(r: Row, agent: AgentId, p: Packet, now: int) {
    && r.state == Issued && r.credential.Some?
    && p.PresencePacket? && p.sender == agent && p.signer == r.credential.value.halves.signing
    && now - p.stamp <= 120_000 && p.stamp - now <= 120_000
  }

  lemma ProvesIff(r: Row, agent: AgentId, p: Packet, now: int)
    ensures Proves(r, agent, p, now) <==> FreshProof(r, agent, p, now)
  {}

  // A presence handler goes on to activate exactly on such a proof.
  lemma ReadPresenceIff(s: State, id: HandlerId, token: TokenId, now: int)
    requires Enabled(s, ReadPresence(id, token, now))
    ensures var agent, p := s.server.handlers[id].agent, s.server.handlers[id].packet;
            var s' := Next(s, ReadPresence(id, token, now));
            && s'.db == s.db
            && (id in s'.server.handlers <==>
                  token in s.db.enrollment && FreshProof(s.db.enrollment[token], agent, p, now))
            && (id in s'.server.handlers ==>
                  s'.server.handlers[id] == if s.server.hold then Proven(token, agent) else Activating(token, agent))
  {
    hide HostNext, HostEnabled, RequestNext, RequestEnabled;
    var x := s.server.handlers[id];
    if token in s.db.enrollment { ProvesIff(s.db.enrollment[token], x.agent, x.packet, now); }
    hide Proves, FreshProof;
  }
}
