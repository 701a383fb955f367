// Every step of the protocol keeps the invariant, and only grows the state.
module ProtocolSteps {
  import opened Common
  import opened StoreModel
  import opened Protocol
  import opened ProtocolInvariant

  // A step that changes only the server process, and one handler of it.
  predicate ServerOnly(s: State, s': State) {
    s' == s.(server := s'.server)
  }

  lemma ServerStep(s: State, s': State, id: HandlerId)
    requires Core(s) && ServerOnly(s, s')
    requires forall j :: j in s'.server.handlers && j != id ==>
                           j in s.server.handlers && s'.server.handlers[j] == s.server.handlers[j]
    requires id in s'.server.handlers ==> HandlerOk(s, s'.server.handlers[id])
    ensures Core(s') && Grows(s, s')
  {
    hide RowOk, BundleOk, HostOk, PacketOk, PublishedOk, HandlerOk, AnswerOk, SuccessOk, Consistent;
    ServerOnlyGrows(s, s');
    if id in s'.server.handlers { HandlerGrows(s, s', s'.server.handlers[id]); }
    Carry(s, s');
  }

  lemma ServerOnlyGrows(s: State, s': State)
    requires Core(s) && ServerOnly(s, s')
    ensures Grows(s, s')
  {
    hide RowOk, BundleOk, HostOk, PacketOk, PublishedOk, HandlerOk, AnswerOk, SuccessOk, RowConsistent;
  }

  // A step that changes only one host, and perhaps names a fresh key set.
  lemma HostStep(s: State, s': State, h: HostId)
    requires Core(s)
    requires s' == s.(hosts := s'.hosts, owner := s'.owner)
    requires forall j :: j != h ==> HostOf(s', j) == HostOf(s, j)
    requires forall n :: n in s.owner ==> n in s'.owner && s'.owner[n] == s.owner[n]
    requires HostGrows(HostOf(s, h), HostOf(s', h))
    requires HostOk(s', h, HostOf(s', h))
    ensures Core(s') && Grows(s, s')
  {
    Carry(s, s');
  }

  // A step that only puts envelopes on the wire.
  lemma WireStep(s: State, s': State)
    requires Core(s)
    requires s' == s.(wire := s'.wire, published := s'.published) && s.wire <= s'.wire && s.published <= s'.published
    requires forall p :: p in s'.wire && p !in s.wire ==> PacketOk(s', p)
    requires forall x :: x in s'.published && x !in s.published ==> PublishedOk(s', x)
    ensures Core(s') && Grows(s, s')
  {
    Carry(s, s');
  }

  // A step that changes the tables and one handler.
  lemma StoreStep(s: State, s': State, id: HandlerId)
    requires Core(s)
    requires s' == s.(db := s'.db, server := s'.server)
    requires Consistent(s'.db) && Forward(s.db, s'.db)
    requires forall t :: t in s'.db.enrollment ==>
                           (t in s.db.enrollment && s'.db.enrollment[t] == s.db.enrollment[t])
                           || RowOk(s', s'.db.enrollment[t])
    requires forall j :: j in s'.server.handlers && j != id ==>
                           j in s.server.handlers && s'.server.handlers[j] == s.server.handlers[j]
    requires id in s'.server.handlers ==> HandlerOk(s', s'.server.handlers[id])
    ensures Core(s') && Grows(s, s')
  {
    Carry(s, s');
  }

  predicate OfGate(step: Step) {
    step.EnterGate? || step.LeaveGate? || step.LockGate? || step.UnlockGate? || step.Abandon?
  }

  // ---- the issuer and the service -------------------------------------------

  lemma IssueStep(s: State, step: Step)
    requires Core(s) && step.Issue? && Enabled(s, step)
    ensures Core(Next(s, step)) && Grows(s, Next(s, step)) && OneStage(s.db, Next(s, step).db)
  {
    hide HostNext, HostEnabled, RequestNext, RequestEnabled;
    hide HostOk, PacketOk, PublishedOk, AnswerOk, SuccessOk, HandlerOk, RowConsistent, Unissued;
    var s' := Next(s, step);
    IssueKeeps(s.db, step.token, step.agent, step.name, step.bootstrapKey, step.issuedAt, step.expiresAt, step.uid);
    Carry(s, s');
  }

  // What the checks let through: the halves came with their own signature.
  lemma AcceptedIsSigned(s: State, token: TokenId, p: Packet, now: int)
    requires Core(s) && Deliverable(s, p)
    requires !Decide(Enrollment(s.db, token), token, p, now).Refuse?
    ensures p.RequestPacket? && Complete(p.body) && SignedHalves(s, p.sender, HalvesOf(p.body))
  {
    if p in s.wire { assert PacketOk(s, p); }
  }

  lemma DecidedIsOk(s: State, id: HandlerId, now: int, serial: nat)
    requires Core(s) && Enabled(s, ReadRequest(id, now, serial))
    ensures var s' := Next(s, ReadRequest(id, now, serial));
            HandlerOk(s, s'.server.handlers[id])
  {
    hide HostNext, HostEnabled, GateNext, GateEnabled;
    hide Core, Consistent, RowOk, Deliverable, SignedHalves;
    var x := s.server.handlers[id];
    CoreHandler(s, id);
    if !Decide(Enrollment(s.db, x.token), x.token, x.packet, now).Refuse? {
      AcceptedIsSigned(s, x.token, x.packet, now);
      CoreRow(s, x.token);
    }
  }

  lemma ReadRequestStep(s: State, id: HandlerId, now: int, serial: nat)
    requires Core(s) && Enabled(s, ReadRequest(id, now, serial))
    ensures Core(Next(s, ReadRequest(id, now, serial))) && Grows(s, Next(s, ReadRequest(id, now, serial)))
  {
    hide HostNext, HostEnabled, GateNext, GateEnabled;
    hide Core, Grows, HandlerOk, Decide, Deliverable;
    DecidedIsOk(s, id, now, serial);
    ServerStep(s, Next(s, ReadRequest(id, now, serial)), id);
  }

  // Recording one credential leaves every other row as it was.
  lemma RecordedRowOk(s: State, s': State, token: TokenId, c: Credential, now: int)
    requires Core(s) && token in s.db.enrollment && s.db.enrollment[token].agent == c.jwt.agent
    requires c.jwt.nats == c.halves.nats && SignedHalves(s, c.jwt.agent, c.halves)
    requires RecordCredential(s.db, token, c, c.jwt.agent, now) == Ok(s'.db) && s'.owner == s.owner
             && s'.hosts == s.hosts
    ensures Consistent(s'.db) && Forward(s.db, s'.db) && OneStage(s.db, s'.db)
    ensures forall t :: t in s'.db.enrollment && t != token ==>
                          t in s.db.enrollment && s'.db.enrollment[t] == s.db.enrollment[t]
    ensures RowOk(s', s'.db.enrollment[token])
    ensures s'.db.enrollment[token] == s.db.enrollment[token].(credential := Some(c))
  {
    hide Core, Consistent, OneStage, Forward;
    CoreRow(s, token);
    RecordKeeps(s.db, token, c, c.jwt.agent, now);
  }

  lemma WriteCredentialStep(s: State, id: HandlerId, now: int)
    requires Core(s) && Enabled(s, WriteCredential(id, now))
    ensures Core(Next(s, WriteCredential(id, now))) && Grows(s, Next(s, WriteCredential(id, now)))
    ensures OneStage(s.db, Next(s, WriteCredential(id, now)).db)
  {
    hide HostNext, HostEnabled, GateNext, GateEnabled;
    hide Core, Grows, RowOk, OneStage, Consistent;
    var s' := Next(s, WriteCredential(id, now));
    var x := s.server.handlers[id];
    CoreHandler(s, id);
    if RecordCredential(s.db, x.token, x.credential, x.credential.jwt.agent, now).Ok? {
      RecordedRowOk(s, s', x.token, x.credential, now);
      StoreStep(s, s', id);
    } else {
      CoreRow(s, x.token);
      SameRowsOneStage(s);
      ServerStep(s, s', id);
    }
  }

  lemma ReadAgainStep(s: State, id: HandlerId, fault: bool)
    requires Core(s) && Enabled(s, ReadAgain(id, fault))
    ensures Core(Next(s, ReadAgain(id, fault))) && Grows(s, Next(s, ReadAgain(id, fault)))
  {
    hide HostNext, HostEnabled, GateNext, GateEnabled;
    hide Core, Grows;
    ServerStep(s, Next(s, ReadAgain(id, fault)), id);
  }

  // A handler at the gate, inside it or past it knows what it knew before.
  lemma GateHandler(s: State, step: Step)
    requires Core(s) && Enabled(s, step) && OfGate(step)
    ensures var s' := Next(s, step);
            step.id in s'.server.handlers ==> HandlerOk(s, s'.server.handlers[step.id])
  {
    hide HostNext, HostEnabled, RequestNext, RequestEnabled;
    hide Core, Evidence;
    CoreHandler(s, step.id);
    var x := s.server.handlers[step.id];
    if step.LeaveGate? { assert RowForward(x.row, s.db.enrollment[x.token]); }
  }

  lemma GateStep(s: State, step: Step)
    requires Core(s) && Enabled(s, step) && OfGate(step)
    ensures Core(Next(s, step)) && Grows(s, Next(s, step)) && Next(s, step).db == s.db
  {
    hide HostNext, HostEnabled, RequestNext, RequestEnabled;
    hide Core, Grows, HandlerOk;
    GateHandler(s, step);
    ServerStep(s, Next(s, step), step.id);
  }

  lemma ReceiveStepServer(s: State, step: Step)
    requires Core(s) && Enabled(s, step) && (step.ReceiveRequest? || step.HearPresence? || step.RestartServer?)
    ensures Core(Next(s, step)) && Grows(s, Next(s, step))
  {
    hide Core, Grows;
    ServerStep(s, Next(s, step), if step.RestartServer? then 0 else step.id);
  }

  lemma PublishReplyStep(s: State, id: HandlerId)
    requires Core(s) && Enabled(s, PublishReply(id))
    ensures Core(Next(s, PublishReply(id))) && Grows(s, Next(s, PublishReply(id)))
  {
    hide HostNext, HostEnabled, GateNext, GateEnabled;
    hide RowOk, HostOk, PublishedOk, SuccessOk, Consistent;
    var s' := Next(s, PublishReply(id));
    assert HandlerOk(s, s.server.handlers[id]);
    Carry(s, s');
  }

  lemma WriteDenialStep(s: State, id: HandlerId, now: int)
    requires Core(s) && Enabled(s, WriteDenial(id, now))
    ensures Core(Next(s, WriteDenial(id, now))) && Grows(s, Next(s, WriteDenial(id, now)))
    ensures OneStage(s.db, Next(s, WriteDenial(id, now)).db)
  {
    hide HostNext, HostEnabled, GateNext, GateEnabled;
    hide HostOk, PacketOk, PublishedOk, AnswerOk, SuccessOk;
    var x := s.server.handlers[id];
    AppendKeeps(s.db, Audit(RequestDenied, x.token, x.reason, now));
    StoreStep(s, Next(s, WriteDenial(id, now)), id);
  }

  lemma PublishDenialStep(s: State, id: HandlerId)
    requires Core(s) && Enabled(s, PublishDenial(id))
    ensures Core(Next(s, PublishDenial(id))) && Grows(s, Next(s, PublishDenial(id)))
  {
    hide HostNext, HostEnabled, GateNext, GateEnabled;
    hide RowOk, HostOk, PublishedOk, AnswerOk, SuccessOk, HandlerOk, Consistent;
    Carry(s, Next(s, PublishDenial(id)));
  }

  // A presence envelope that passes the checks is evidence for its row: either it
  // came from the host that holds the recorded credential, or the recorded keys
  // were never a host's.
  lemma ProofIsEvidence(s: State, token: TokenId, agent: AgentId, p: Packet, now: int)
    requires Core(s) && token in s.db.enrollment && s.db.enrollment[token].agent == agent
    requires PresenceDeliverable(s, agent, p) && Proves(s.db.enrollment[token], agent, p, now)
    ensures Evidence(s, agent, s.db.enrollment[token].credential.value)
  {
    var c := s.db.enrollment[token].credential.value;
    assert RowOk(s, s.db.enrollment[token]);
    assert RowConsistent(s.db, s.db.enrollment[token]);
    if Published(agent, p) in s.published {
      assert PublishedOk(s, Published(agent, p));
      var h := s.owner[p.signer.n];
      var x := HostOf(s, h);
      assert HostOk(s, h, x);
      var t :| RecordedJwt(s.db, t, agent, x.idFile.value.jwt);
      assert t == token;
    } else {
      var t :| t in s.db.enrollment && s.db.enrollment[t].agent == agent
               && s.db.enrollment[t].credential.Some? && s.db.enrollment[t].credential.value.jwt.nats.ForeignKey?;
      assert t == token;
    }
  }

  lemma ProvenHandler(s: State, id: HandlerId, token: TokenId, now: int)
    requires Core(s) && Enabled(s, ReadPresence(id, token, now))
    ensures var s' := Next(s, ReadPresence(id, token, now));
            id in s'.server.handlers ==> HandlerOk(s, s'.server.handlers[id])
  {
    hide HostNext, HostEnabled, RequestNext, RequestEnabled, Core, Evidence, PresenceDeliverable;
    var x := s.server.handlers[id];
    CoreHandler(s, id);
    if token in s.db.enrollment && Proves(s.db.enrollment[token], x.agent, x.packet, now) {
      ProofIsEvidence(s, token, x.agent, x.packet, now);
    }
  }

  lemma ReadPresenceStep(s: State, id: HandlerId, token: TokenId, now: int)
    requires Core(s) && Enabled(s, ReadPresence(id, token, now))
    ensures Core(Next(s, ReadPresence(id, token, now))) && Grows(s, Next(s, ReadPresence(id, token, now)))
  {
    hide HostNext, HostEnabled, RequestNext, RequestEnabled, Core, Grows, HandlerOk, Proves;
    ProvenHandler(s, id, token, now);
    ServerStep(s, Next(s, ReadPresence(id, token, now)), id);
  }

  // Spending one token leaves every other row as it was.
  lemma ActivatedRowOk(s: State, s': State, token: TokenId, agent: AgentId, now: int)
    requires Core(s) && ProvenOk(s, token, agent)
    requires Activate(s.db, token, agent, now) == Ok(s'.db) && s'.owner == s.owner && s'.hosts == s.hosts
    ensures Consistent(s'.db) && Forward(s.db, s'.db) && OneStage(s.db, s'.db)
    ensures forall t :: t in s'.db.enrollment && t != token ==>
                          t in s.db.enrollment && s'.db.enrollment[t] == s.db.enrollment[t]
    ensures RowOk(s', s'.db.enrollment[token])
  {
    hide Core, Consistent, OneStage, Forward;
    CoreRow(s, token);
    ActivateKeeps(s.db, token, agent, now);
  }

  lemma WriteActivationStep(s: State, id: HandlerId, now: int)
    requires Core(s) && Enabled(s, WriteActivation(id, now))
    ensures Core(Next(s, WriteActivation(id, now))) && Grows(s, Next(s, WriteActivation(id, now)))
    ensures OneStage(s.db, Next(s, WriteActivation(id, now)).db)
  {
    hide HostNext, HostEnabled, RequestNext, RequestEnabled;
    hide Core, Grows, RowOk, OneStage, Forward, Consistent, Evidence;
    var s' := Next(s, WriteActivation(id, now));
    var x := s.server.handlers[id];
    CoreHandler(s, id);
    if Activate(s.db, x.token, x.agent, now).Ok? {
      ActivatedRowOk(s, s', x.token, x.agent, now);
      StoreStep(s, s', id);
    } else {
      SameRowsOneStage(s);
      ServerStep(s, s', id);
    }
  }

  lemma WriteReachedStep(s: State, id: HandlerId, now: int)
    requires Core(s) && Enabled(s, WriteReached(id, now))
    ensures Core(Next(s, WriteReached(id, now))) && Grows(s, Next(s, WriteReached(id, now)))
    ensures OneStage(s.db, Next(s, WriteReached(id, now)).db)
  {
    hide HostNext, HostEnabled, RequestNext, RequestEnabled;
    AppendKeeps(s.db, Audit(HoldReached, s.server.handlers[id].agent, "reached", now));
    StoreStep(s, Next(s, WriteReached(id, now)), id);
  }

  // ---- the host -------------------------------------------------------------

  // The files as they were, under another process.
  lemma SameFiles(s: State, s': State, h: HostId, x: Host)
    requires HostOk(s, h, HostOf(s, h)) && s'.db == s.db
    requires forall n :: n in s.owner ==> n in s'.owner && s'.owner[n] == s.owner[n]
    requires x.keyFile == HostOf(s, h).keyFile
             || (HostOf(s, h).keyFile.None? && x.keyFile.Some? && x.keyFile.value.key in s.owner
                 && s.owner[x.keyFile.value.key] == h)
    requires x.idFile == HostOf(s, h).idFile && x.ledger == HostOf(s, h).ledger && x.gap == HostOf(s, h).gap
    requires !HostOf(s, h).process.IdentityWritten? && !x.process.IdentityWritten?
    ensures FilesOk(s', h, x)
  {}

  lemma StartStep(s: State, step: Step)
    requires Core(s) && Enabled(s, step) && (step.StartEnroll? || step.StartServe?)
    ensures Core(Next(s, step)) && Grows(s, Next(s, step))
  {
    hide RequestNext, RequestEnabled, GateNext, GateEnabled;
    hide RowOk, PacketOk, PublishedOk, HandlerOk, AnswerOk, SuccessOk, Consistent;
    var s' := Next(s, step);
    assert HostOk(s, step.h, HostOf(s, step.h));
    SameFiles(s, s', step.h, HostOf(s', step.h));
    HostStep(s, s', step.h);
  }

  lemma ReadKeysStep(s: State, h: HostId, newKey: nat)
    requires Core(s) && Enabled(s, ReadKeys(h, newKey))
    ensures Core(Next(s, ReadKeys(h, newKey))) && Grows(s, Next(s, ReadKeys(h, newKey)))
  {
    hide RequestNext, RequestEnabled, GateNext, GateEnabled;
    hide RowOk, PacketOk, PublishedOk, HandlerOk, AnswerOk, SuccessOk, Consistent;
    var s' := Next(s, ReadKeys(h, newKey));
    assert HostOk(s, h, HostOf(s, h));
    SameFiles(s, s', h, HostOf(s', h));
    HostStep(s, s', h);
  }

  lemma WriteKeysStep(s: State, h: HostId)
    requires Core(s) && Enabled(s, WriteKeys(h))
    ensures Core(Next(s, WriteKeys(h))) && Grows(s, Next(s, WriteKeys(h)))
  {
    hide RequestNext, RequestEnabled, GateNext, GateEnabled;
    hide RowOk, PacketOk, PublishedOk, HandlerOk, AnswerOk, SuccessOk, Consistent;
    var s' := Next(s, WriteKeys(h));
    assert HostOk(s, h, HostOf(s, h));
    SameFiles(s, s', h, HostOf(s', h));
    HostStep(s, s', h);
  }

  lemma ReadIdentityStep(s: State, h: HostId)
    requires Core(s) && Enabled(s, ReadIdentity(h))
    ensures Core(Next(s, ReadIdentity(h))) && Grows(s, Next(s, ReadIdentity(h)))
  {
    hide RequestNext, RequestEnabled, GateNext, GateEnabled;
    hide RowOk, PacketOk, PublishedOk, HandlerOk, AnswerOk, SuccessOk, Consistent;
    var s' := Next(s, ReadIdentity(h));
    assert HostOk(s, h, HostOf(s, h));
    SameFiles(s, s', h, HostOf(s', h));
    HostStep(s, s', h);
  }

  lemma LedgerStep(s: State, step: Step)
    requires Core(s) && Enabled(s, step)
    requires step.OpenLedger? || step.Stop?
    ensures Core(Next(s, step)) && Grows(s, Next(s, step))
  {
    hide RequestNext, RequestEnabled, GateNext, GateEnabled;
    hide RowOk, PacketOk, PublishedOk, HandlerOk, AnswerOk, SuccessOk, Consistent;
    var s' := Next(s, step);
    assert HostOk(s, step.h, HostOf(s, step.h));
    HostKeepsJwt(s, s', step.h);
    HostStep(s, s', step.h);
  }

  // The witness of the recorded credential, carried across a change of process.
  lemma HostKeepsJwt(s: State, s': State, h: HostId)
    requires HostOk(s, h, HostOf(s, h)) && s'.db == s.db && HostOf(s', h).idFile == HostOf(s, h).idFile
    ensures HostOf(s', h).idFile.Some? ==>
              exists t :: RecordedJwt(s'.db, t, HostOf(s', h).idFile.value.agent, HostOf(s', h).idFile.value.jwt)
  {}

  lemma WriteIdentityStep(s: State, h: HostId)
    requires Core(s) && Enabled(s, WriteIdentity(h))
    ensures Core(Next(s, WriteIdentity(h))) && Grows(s, Next(s, WriteIdentity(h)))
  {
    hide RequestNext, RequestEnabled, GateNext, GateEnabled;
    var s' := Next(s, WriteIdentity(h));
    var x := HostOf(s, h);
    assert HostOk(s, h, x);
    assert RecordedJwt(s'.db, x.process.bundle.token, x.process.bundle.agent, x.process.jwt);
    HostStep(s, s', h);
  }

  lemma SendRequestStep(s: State, step: Step)
    requires Core(s) && Enabled(s, step) && (step.SendRequest? || step.SendConfirmation?)
    ensures Core(Next(s, step)) && Grows(s, Next(s, step))
  {
    hide RequestNext, RequestEnabled, GateNext, GateEnabled;
    hide RowOk, AnswerOk, HandlerOk, SuccessOk, PublishedOk, Consistent;
    assert HostOk(s, step.h, HostOf(s, step.h));
    WireStep(s, Next(s, step));
  }

  lemma SendPresenceStep(s: State, h: HostId, stamp: int)
    requires Core(s) && Enabled(s, SendPresence(h, stamp))
    ensures Core(Next(s, SendPresence(h, stamp))) && Grows(s, Next(s, SendPresence(h, stamp)))
  {
    hide RequestNext, RequestEnabled, GateNext, GateEnabled;
    hide RowOk, AnswerOk, HandlerOk, SuccessOk, Consistent;
    assert HostOk(s, h, HostOf(s, h));
    WireStep(s, Next(s, SendPresence(h, stamp)));
  }

  // A confirmation that reaches a host waiting for it is about that host's keys.
  lemma ConfirmationIsMine(s: State, h: HostId, p: Packet)
    requires Core(s) && HostOf(s, h).process.Confirming? && p in s.wire
    requires Attended(HostOf(s, h).process.bundle, p) && p.reply.ConfirmationReply?
    ensures SuccessOk(s, Success(h, p.token, HostOf(s, h).process.keys.key))
  {
    var x := HostOf(s, h);
    assert HostOk(s, h, x);
    assert PacketOk(s, p);
    var r := s.db.enrollment[p.token];
    assert RowOk(s, r);
    assert RowConsistent(s.db, r);
    var t :| RecordedJwt(s.db, t, x.idFile.value.agent, x.idFile.value.jwt);
    assert t == p.token;
  }

  lemma SuccessStep(s: State, h: HostId, p: Packet)
    requires Core(s) && Enabled(s, Receive(h, p)) && HostOf(s, h).process.Confirming?
    requires Attended(HostOf(s, h).process.bundle, p)
    requires p.reply.ConfirmationReply? && p.reply.active && p.reply.spent
    ensures Core(Next(s, Receive(h, p))) && Grows(s, Next(s, Receive(h, p)))
  {
    hide RequestNext, RequestEnabled, GateNext, GateEnabled;
    hide RowOk, PacketOk, PublishedOk, HandlerOk, AnswerOk, Consistent;
    var s' := Next(s, Receive(h, p));
    ConfirmationIsMine(s, h, p);
    assert HostOk(s, h, HostOf(s, h));
    SameFiles(s, s', h, HostOf(s', h));
    Carry(s, s');
  }

  // The reply tells the host what is recorded, and its files stay as they are.
  lemma RepliedOk(s: State, h: HostId, p: Packet)
    requires Core(s) && Enabled(s, Receive(h, p)) && Attended(HostOf(s, h).process.bundle, p)
    ensures var s' := Next(s, Receive(h, p)); HostOk(s', h, HostOf(s', h))
  {
    hide RequestNext, RequestEnabled, GateNext, GateEnabled, Core, Consistent;
    var s' := Next(s, Receive(h, p));
    CoreHost(s, h);
    CorePacket(s, p);
    SameFiles(s, s', h, HostOf(s', h));
    hide FilesOk;
  }

  lemma ReceiveStep(s: State, h: HostId, p: Packet)
    requires Core(s) && Enabled(s, Receive(h, p))
    ensures Core(Next(s, Receive(h, p))) && Grows(s, Next(s, Receive(h, p)))
  {
    hide RequestNext, RequestEnabled, GateNext, GateEnabled, Core, Grows, HostOk;
    var s' := Next(s, Receive(h, p));
    var x := HostOf(s, h);
    if !Attended(x.process.bundle, p) {
      WireStep(s, s');
    } else if x.process.Confirming? && p.reply.ConfirmationReply? && p.reply.active && p.reply.spent {
      SuccessStep(s, h, p);
    } else {
      RepliedOk(s, h, p);
      HostStep(s, s', h);
    }
  }

  // ---- any step, any run ----------------------------------------------------

  lemma SameRowsOneStage(s: State)
    requires Core(s)
    ensures OneStage(s.db, s.db)
  {
    hide RowOk, HostOk, PacketOk, PublishedOk, HandlerOk, AnswerOk, SuccessOk;
    assert forall t :: t in s.db.enrollment ==> RowConsistent(s.db, s.db.enrollment[t]);
  }

  lemma HostStepsLeaveServer(s: State, step: Step)
    requires Enabled(s, step) && OfHost(step)
    ensures Next(s, step).server == s.server && Next(s, step).db == s.db && Next(s, step).denials == s.denials
    ensures Next(s, step).answered == s.answered
  {}

  // Only hosts and published answers put anything on the wire.
  lemma OtherwiseSilent(s: State, step: Step)
    requires Enabled(s, step) && !OfHost(step) && !step.PublishReply? && !step.PublishDenial?
    ensures Next(s, step).wire == s.wire
  {
    hide HostNext, HostEnabled;
  }

  lemma HostStepKeeps(s: State, step: Step)
    requires Core(s) && Enabled(s, step) && OfHost(step)
    ensures Core(Next(s, step)) && Grows(s, Next(s, step)) && Next(s, step).db == s.db
  {
    hide Core, Grows, OneStage;
    match step
    case SendRequest(_) => SendRequestStep(s, step);
    case SendConfirmation(_) => SendRequestStep(s, step);
    case SendPresence(h, stamp) => SendPresenceStep(s, h, stamp);
    case Receive(h, p) => ReceiveStep(s, h, p);
    case WriteIdentity(h) => WriteIdentityStep(s, h);
    case OpenLedger(_) => LedgerStep(s, step);
    case Stop(_) => LedgerStep(s, step);
    case ReadKeys(h, newKey) => ReadKeysStep(s, h, newKey);
    case WriteKeys(h) => WriteKeysStep(s, h);
    case ReadIdentity(h) => ReadIdentityStep(s, h);
    case _ => StartStep(s, step);
  }

  lemma ServerStepKeeps(s: State, step: Step)
    requires Core(s) && Enabled(s, step) && !OfHost(step) && !OfGate(step)
    ensures Core(Next(s, step)) && Grows(s, Next(s, step)) && OneStage(s.db, Next(s, step).db)
  {
    hide Core, Grows, OneStage;
    SameRowsOneStage(s);
    match step
    case Issue(_, _, _, _, _, _, _) => IssueStep(s, step);
    case ReadRequest(id, now, serial) => ReadRequestStep(s, id, now, serial);
    case WriteCredential(id, now) => WriteCredentialStep(s, id, now);
    case ReadAgain(id, fault) => ReadAgainStep(s, id, fault);
    case PublishReply(id) => PublishReplyStep(s, id);
    case WriteDenial(id, now) => WriteDenialStep(s, id, now);
    case PublishDenial(id) => PublishDenialStep(s, id);
    case ReadPresence(id, token, now) => ReadPresenceStep(s, id, token, now);
    case WriteActivation(id, now) => WriteActivationStep(s, id, now);
    case WriteReached(id, now) => WriteReachedStep(s, id, now);
    case _ => ReceiveStepServer(s, step);
  }

  lemma StepKeeps(s: State, step: Step)
    requires Core(s) && Enabled(s, step)
    ensures Core(Next(s, step)) && Grows(s, Next(s, step)) && OneStage(s.db, Next(s, step).db)
  {
    hide Core, Grows, OneStage;
    SameRowsOneStage(s);
    if OfHost(step) {
      HostStepKeeps(s, step);
    } else if OfGate(step) {
      GateStep(s, step);
    } else {
      ServerStepKeeps(s, step);
    }
  }

  lemma GrowsTransitive(a: State, b: State, c: State)
    requires Grows(a, b) && Grows(b, c)
    ensures Grows(a, c)
  {
    forall h
      ensures HostGrows(HostOf(a, h), HostOf(c, h))
    {
      assert HostGrows(HostOf(a, h), HostOf(b, h)) && HostGrows(HostOf(b, h), HostOf(c, h));
    }
    forall t | t in a.db.enrollment
      ensures t in c.db.enrollment && RowForward(a.db.enrollment[t], c.db.enrollment[t])
    {
      assert RowForward(a.db.enrollment[t], b.db.enrollment[t]) && RowForward(b.db.enrollment[t], c.db.enrollment[t]);
    }
  }

  lemma {:induction false} RunKeeps(s: State, steps: seq<Step>)
    requires Core(s) && Runs(s, steps)
    ensures Core(After(s, steps)) && Grows(s, After(s, steps))
    decreases |steps|
  {
    if steps != [] {
      StepKeeps(s, steps[0]);
      RunKeeps(Next(s, steps[0]), steps[1..]);
      GrowsTransitive(s, Next(s, steps[0]), After(s, steps));
    }
  }

  lemma InitCore()
    ensures Core(INIT)
  {}

  lemma ReachableCore(s: State)
    requires Reachable(s)
    ensures Core(s)
  {
    var steps :| Runs(INIT, steps) && After(INIT, steps) == s;
    InitCore();
    RunKeeps(INIT, steps);
  }
}
