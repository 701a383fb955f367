// The inductive invariant of the enrollment protocol. It links the enrollment
// row, the agents row and the two artifact files on the agent's host, through
// everything in flight between them: the wire, the handlers and the processes.
// Each link is a fact about one item that only grows truer as the state grows.
module ProtocolInvariant {
  import opened Common
  import opened StoreModel
  import opened Protocol

  // ---- facts ----------------------------------------------------------------

  // Some token assigned this agent, and this is the one credential recorded for it.
  ghost predicate RecordedJwt(db: Tables, token: TokenId, agent: AgentId, jwt: Jwt) {
    && token in db.enrollment && db.enrollment[token].agent == agent
    && db.enrollment[token].credential.Some? && db.enrollment[token].credential.value.jwt == jwt
  }

  // The host that generated this key set has both artifacts in place.
  predicate HostReady(s: State, key: nat, agent: AgentId) {
    && key in s.owner
    && var x := HostOf(s, s.owner[key]);
    && x.keyFile == Some(KeyFile(agent, key))
    && x.idFile.Some? && x.idFile.value.agent == agent && x.idFile.value.digest == KeyFile(agent, key)
    && !x.process.IdentityWritten?
  }

  // Halves that came for this agent with a valid signature by their own signing
  // key. If that key is a host's, the host already had its key artifact in place.
  predicate SignedHalves(s: State, agent: AgentId, h: Halves) {
    && !h.signing.ServiceKey?
    && (h.signing.HostKey? ==> h == HostHalves(h.signing.n) && KeysPersisted(s, h.signing.n, agent))
  }

  predicate KeysPersisted(s: State, key: nat, agent: AgentId) {
    key in s.owner && HostOf(s, s.owner[key]).keyFile == Some(KeyFile(agent, key))
  }

  // Why a token may be spent: the recorded keys are all held off the agent
  // hosts, or they are one host's, which has the recorded credential in place.
  predicate Evidence(s: State, agent: AgentId, c: Credential) {
    || (c.halves.nats.ForeignKey? && c.halves.signing.ForeignKey?)
    || (&& c.halves.signing.HostKey? && c.halves == HostHalves(c.halves.signing.n)
        && HostReady(s, c.halves.signing.n, agent)
        && HostOf(s, s.owner[c.halves.signing.n]).idFile.value.jwt == c.jwt)
  }

  ghost predicate RowOk(s: State, r: Row) {
    && (r.credential.Some? ==> SignedHalves(s, r.agent, r.credential.value.halves))
    && (r.state.Spent? ==> r.credential.Some? && Evidence(s, r.agent, r.credential.value))
  }

  ghost predicate BundleOk(s: State, b: Bundle) {
    b.token in s.db.enrollment && s.db.enrollment[b.token].agent == b.agent
  }

  ghost predicate FilesOk(s: State, h: HostId, x: Host) {
    && (x.keyFile.Some? ==> x.keyFile.value.key in s.owner && s.owner[x.keyFile.value.key] == h)
    && (x.idFile.None? ==> !x.ledger && !x.gap)
    && (x.idFile.Some? ==>
          && x.keyFile == Some(x.idFile.value.digest)
          && x.idFile.value.agent == x.idFile.value.digest.agent
          && x.idFile.value.jwt.nats == HostKey(x.idFile.value.digest.key)
          && exists t :: RecordedJwt(s.db, t, x.idFile.value.agent, x.idFile.value.jwt))
    && (x.idFile.Some? && !x.process.IdentityWritten? ==> (x.ledger <==> !x.gap))
  }

  ghost predicate ProcessOk(s: State, h: HostId, x: Host) {
    match x.process
    case Down => true
    case Starting(b) => BundleOk(s, b)
    case Generated(b, key) => BundleOk(s, b) && x.keyFile.None? && key in s.owner && s.owner[key] == h
    case Keyed(b, keys) => BundleOk(s, b) && x.keyFile == Some(keys) && keys.agent == b.agent
    case Requesting(b, keys) => BundleOk(s, b) && x.keyFile == Some(keys) && keys.agent == b.agent && x.idFile.None?
    case Replied(b, keys, jwt) =>
      && BundleOk(s, b) && x.keyFile == Some(keys) && keys.agent == b.agent && x.idFile.None?
      && RecordedJwt(s.db, b.token, b.agent, jwt) && jwt.nats == HostKey(keys.key)
    case IdentityWritten(b, keys) =>
      && BundleOk(s, b) && x.keyFile == Some(keys) && keys.agent == b.agent && x.idFile.Some?
      && !x.ledger && !x.gap
    case Confirming(b, keys) => BundleOk(s, b) && x.keyFile == Some(keys) && keys.agent == b.agent && x.idFile.Some?
    case Enrolled(agent, keys) => x.keyFile == Some(keys) && x.idFile.Some? && x.idFile.value.agent == agent
  }

  ghost predicate HostOk(s: State, h: HostId, x: Host) {
    FilesOk(s, h, x) && ProcessOk(s, h, x)
  }

  // What a reply the service signed says is so, for the halves it answers.
  ghost predicate ReplyOk(s: State, token: TokenId, reply: Reply) {
    match reply
    case Denied => true
    case CredentialReply(agent, jwt) => RecordedJwt(s.db, token, agent, jwt)
    case ConfirmationReply(agent, active, spent) =>
      active && spent && token in s.db.enrollment && s.db.enrollment[token].agent == agent
      && s.db.enrollment[token].state.Spent?
  }

  ghost predicate PacketOk(s: State, p: Packet) {
    match p
    case Junk => false
    case RequestPacket(sender, _, body, signer) =>
      && signer.HostKey? && KeysPersisted(s, signer.n, sender)
      && body.Request? && body.nats == body.signing == body.encryption == Some(signer)
    case ReplyPacket(token, reply, signer) => signer.ServiceKey? && ReplyOk(s, token, reply)
    case PresencePacket(sender, _, signer) => signer.HostKey? && HostReady(s, signer.n, sender)
  }

  ghost predicate PublishedOk(s: State, x: Published) {
    x.packet.PresencePacket? && x.packet.sender == x.agent && PacketOk(s, x.packet)
  }

  ghost predicate AnswerOk(s: State, token: TokenId, halves: Halves, reply: Reply) {
    && ReplyOk(s, token, reply)
    && !reply.Denied?
    && token in s.db.enrollment && s.db.enrollment[token].credential.Some?
    && s.db.enrollment[token].credential.value.halves == halves
  }

  ghost predicate HandlerOk(s: State, x: Handler) {
    match x
    case Received(_, p) => Deliverable(s, p)
    case Recording(token, c) =>
      && token in s.db.enrollment && s.db.enrollment[token].agent == c.jwt.agent
      && c.jwt.nats == c.halves.nats && SignedHalves(s, c.jwt.agent, c.halves)
    case LostRace(token, _) => token in s.db.enrollment && s.db.enrollment[token].credential.Some?
    case AtGate(token, halves, row) => SnapshotOk(s, token, halves, row)
    case InGate(token, halves, row) => SnapshotOk(s, token, halves, row)
    case Answering(token, halves, reply) => AnswerOk(s, token, halves, reply)
    case Denying(_, _) => true
    case AnsweringDenied(_, _) => true
    case Heard(agent, p) => PresenceDeliverable(s, agent, p)
    case Proven(token, agent) => ProvenOk(s, token, agent)
    case Activating(token, agent) => ProvenOk(s, token, agent)
    case Reached(_) => true
    case Holding(_) => true
  }

  ghost predicate SnapshotOk(s: State, token: TokenId, halves: Halves, row: Row) {
    && token in s.db.enrollment && RowForward(row, s.db.enrollment[token])
    && (row.state.Spent? ==> row.credential.Some? && row.credential.value.halves == halves)
  }

  ghost predicate ProvenOk(s: State, token: TokenId, agent: AgentId) {
    && token in s.db.enrollment && s.db.enrollment[token].agent == agent
    && s.db.enrollment[token].credential.Some? && Evidence(s, agent, s.db.enrollment[token].credential.value)
  }

  ghost predicate SuccessOk(s: State, x: Success) {
    && x.token in s.db.enrollment && s.db.enrollment[x.token].state.Spent?
    && s.db.enrollment[x.token].credential.Some?
    && s.db.enrollment[x.token].credential.value.halves == HostHalves(x.key)
    && x.key in s.owner && s.owner[x.key] == x.host
  }

  ghost predicate Core(s: State) {
    && Consistent(s.db)
    && (forall t :: t in s.db.enrollment ==> RowOk(s, s.db.enrollment[t]))
    && (forall b :: b in s.bundles ==> BundleOk(s, b))
    && (forall h :: HostOk(s, h, HostOf(s, h)))
    && (forall p :: p in s.wire ==> PacketOk(s, p))
    && (forall x :: x in s.published ==> PublishedOk(s, x))
    && (forall id :: id in s.server.handlers ==> HandlerOk(s, s.server.handlers[id]))
    && (forall x :: x in s.answered ==> AnswerOk(s, x.token, x.halves, x.reply))
    && (forall x :: x in s.successes ==> SuccessOk(s, x))
  }

  lemma CoreRow(s: State, t: TokenId)
    requires Core(s) && t in s.db.enrollment
    ensures Consistent(s.db) && RowOk(s, s.db.enrollment[t]) && RowConsistent(s.db, s.db.enrollment[t])
  {
    hide RowOk, RowConsistent, HostOk, PacketOk, PublishedOk, HandlerOk, AnswerOk, SuccessOk;
  }

  lemma CoreHost(s: State, h: HostId)
    requires Core(s)
    ensures HostOk(s, h, HostOf(s, h))
  {
    hide RowOk, HostOk, PacketOk, PublishedOk, HandlerOk, AnswerOk, SuccessOk, Consistent;
  }

  lemma CoreHandler(s: State, id: HandlerId)
    requires Core(s) && id in s.server.handlers
    ensures HandlerOk(s, s.server.handlers[id])
  {
    hide RowOk, HostOk, PacketOk, PublishedOk, HandlerOk, AnswerOk, SuccessOk, Consistent;
  }

  lemma CorePacket(s: State, p: Packet)
    requires Core(s) && p in s.wire
    ensures PacketOk(s, p)
  {
    hide RowOk, HostOk, PacketOk, PublishedOk, HandlerOk, AnswerOk, SuccessOk, Consistent;
  }

  // ---- growth ---------------------------------------------------------------

  // Nothing on a host's disk is ever replaced, and once the writing process has
  // moved past it an identity artifact is settled for good.
  predicate HostGrows(x: Host, y: Host) {
    && (x.keyFile.Some? ==> y.keyFile == x.keyFile)
    && (x.idFile.Some? ==> y.idFile == x.idFile)
    && (x.gap ==> y.gap)
    && (x.idFile.Some? && !x.process.IdentityWritten? ==> !y.process.IdentityWritten?)
  }

  ghost predicate Grows(s: State, s': State) {
    && Forward(s.db, s'.db)
    && s.bundles <= s'.bundles && s.wire <= s'.wire && s.published <= s'.published
    && s.answered <= s'.answered && s.successes <= s'.successes
    && (forall n :: n in s.owner ==> n in s'.owner && s'.owner[n] == s.owner[n])
    && (forall h :: HostGrows(HostOf(s, h), HostOf(s', h)))
  }

  lemma RecordedGrows(s: State, s': State, token: TokenId, agent: AgentId, jwt: Jwt)
    requires Grows(s, s') && RecordedJwt(s.db, token, agent, jwt)
    ensures RecordedJwt(s'.db, token, agent, jwt)
  {}

  lemma EvidenceGrows(s: State, s': State, agent: AgentId, c: Credential)
    requires Grows(s, s') && Evidence(s, agent, c)
    ensures Evidence(s', agent, c)
  {
    if c.halves.signing.HostKey? && HostReady(s, c.halves.signing.n, agent) {
      var h := s.owner[c.halves.signing.n];
      assert HostGrows(HostOf(s, h), HostOf(s', h));
    }
  }

  lemma SignedGrows(s: State, s': State, agent: AgentId, h: Halves)
    requires Grows(s, s') && SignedHalves(s, agent, h)
    ensures SignedHalves(s', agent, h)
  {
    if h.signing.HostKey? {
      var o := s.owner[h.signing.n];
      assert HostGrows(HostOf(s, o), HostOf(s', o));
    }
  }

  lemma RowGrows(s: State, s': State, r: Row)
    requires Grows(s, s') && RowOk(s, r)
    ensures RowOk(s', r)
  {
    if r.state.Spent? { EvidenceGrows(s, s', r.agent, r.credential.value); }
    if r.credential.Some? { SignedGrows(s, s', r.agent, r.credential.value.halves); }
  }

  lemma HostFactsGrow(s: State, s': State, h: HostId, x: Host)
    requires Grows(s, s') && HostOk(s, h, x)
    ensures HostOk(s', h, x)
  {
    if x.idFile.Some? {
      var t :| RecordedJwt(s.db, t, x.idFile.value.agent, x.idFile.value.jwt);
      RecordedGrows(s, s', t, x.idFile.value.agent, x.idFile.value.jwt);
    }
  }

  lemma PacketGrows(s: State, s': State, p: Packet)
    requires Grows(s, s') && PacketOk(s, p)
    ensures PacketOk(s', p)
  {
    if p.PresencePacket? || p.RequestPacket? {
      var h := s.owner[p.signer.n];
      assert HostGrows(HostOf(s, h), HostOf(s', h));
    }
  }

  lemma HandlerGrows(s: State, s': State, x: Handler)
    requires Grows(s, s') && HandlerOk(s, x)
    ensures HandlerOk(s', x)
  {
    match x
    case Recording(_, c) => SignedGrows(s, s', c.jwt.agent, c.halves);
    case Proven(token, agent) => EvidenceGrows(s, s', agent, s.db.enrollment[token].credential.value);
    case Activating(token, agent) => EvidenceGrows(s, s', agent, s.db.enrollment[token].credential.value);
    case AtGate(token, _, row) => assert RowForward(s.db.enrollment[token], s'.db.enrollment[token]);
    case InGate(token, _, row) => assert RowForward(s.db.enrollment[token], s'.db.enrollment[token]);
    case Heard(agent, p) =>
      if ForeignGrant(s.db, agent) {
        var t :| t in s.db.enrollment && s.db.enrollment[t].agent == agent
                 && s.db.enrollment[t].credential.Some? && s.db.enrollment[t].credential.value.jwt.nats.ForeignKey?;
        assert RowForward(s.db.enrollment[t], s'.db.enrollment[t]);
        assert t in s'.db.enrollment && s'.db.enrollment[t].agent == agent
               && s'.db.enrollment[t].credential == s.db.enrollment[t].credential;
        assert ForeignGrant(s'.db, agent);
      }
    case _ =>
  }

  lemma BundleGrows(s: State, s': State, b: Bundle)
    requires Grows(s, s') && BundleOk(s, b)
    ensures BundleOk(s', b)
  {
    assert RowForward(s.db.enrollment[b.token], s'.db.enrollment[b.token]);
  }

  lemma AnswerGrows(s: State, s': State, x: Answered)
    requires Grows(s, s') && AnswerOk(s, x.token, x.halves, x.reply)
    ensures AnswerOk(s', x.token, x.halves, x.reply)
  {
    assert RowForward(s.db.enrollment[x.token], s'.db.enrollment[x.token]);
  }

  lemma SuccessGrows(s: State, s': State, x: Success)
    requires Grows(s, s') && SuccessOk(s, x)
    ensures SuccessOk(s', x)
  {
    assert RowForward(s.db.enrollment[x.token], s'.db.enrollment[x.token]);
  }

  // Growth carries the whole invariant, so a step has only to show what it adds.
  lemma Carry(s: State, s': State)
    requires Core(s) && Grows(s, s') && Consistent(s'.db)
    requires forall t :: t in s'.db.enrollment ==>
                           (t in s.db.enrollment && s'.db.enrollment[t] == s.db.enrollment[t])
                           || RowOk(s', s'.db.enrollment[t])
    requires forall b :: b in s'.bundles ==> b in s.bundles || BundleOk(s', b)
    requires forall h :: HostOf(s', h) == HostOf(s, h) || HostOk(s', h, HostOf(s', h))
    requires forall p :: p in s'.wire ==> p in s.wire || PacketOk(s', p)
    requires forall x :: x in s'.published ==> x in s.published || PublishedOk(s', x)
    requires forall id :: id in s'.server.handlers ==>
                            (id in s.server.handlers && s'.server.handlers[id] == s.server.handlers[id])
                            || HandlerOk(s', s'.server.handlers[id])
    requires forall x :: x in s'.answered ==> x in s.answered || AnswerOk(s', x.token, x.halves, x.reply)
    requires forall x :: x in s'.successes ==> x in s.successes || SuccessOk(s', x)
    ensures Core(s')
  {
    hide RowOk, BundleOk, HostOk, PacketOk, HandlerOk, AnswerOk, SuccessOk, Consistent, Grows;
    forall b | b in s'.bundles
      ensures BundleOk(s', b)
    {
      if b in s.bundles { BundleGrows(s, s', b); }
    }
    forall x | x in s'.answered
      ensures AnswerOk(s', x.token, x.halves, x.reply)
    {
      if x in s.answered { AnswerGrows(s, s', x); }
    }
    forall x | x in s'.successes
      ensures SuccessOk(s', x)
    {
      if x in s.successes { SuccessGrows(s, s', x); }
    }
    forall t | t in s'.db.enrollment
      ensures RowOk(s', s'.db.enrollment[t])
    {
      if t in s.db.enrollment && s'.db.enrollment[t] == s.db.enrollment[t] { RowGrows(s, s', s.db.enrollment[t]); }
    }
    forall h
      ensures HostOk(s', h, HostOf(s', h))
    {
      if HostOf(s', h) == HostOf(s, h) { HostFactsGrow(s, s', h, HostOf(s, h)); }
    }
    forall p | p in s'.wire
      ensures PacketOk(s', p)
    {
      if p in s.wire { PacketGrows(s, s', p); }
    }
    forall x | x in s'.published
      ensures PublishedOk(s', x)
    {
      if x in s.published { PacketGrows(s, s', x.packet); }
    }
    forall id | id in s'.server.handlers
      ensures HandlerOk(s', s'.server.handlers[id])
    {
      if id in s.server.handlers && s'.server.handlers[id] == s.server.handlers[id] {
        HandlerGrows(s, s', s.server.handlers[id]);
      }
    }
  }
}
