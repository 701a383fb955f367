// Recovery: from every reachable state in which a token is unexpired and its
// recorded halves are absent or this host's, some continuation of the protocol
// ends with this host's Enroll returning nil.
module Recovery {
  import opened Common
  import opened StoreModel
  import opened Protocol
  import opened ProtocolInvariant
  import opened ProtocolSteps
  import opened ProtocolGate

  // The steps recovery may take: this host's own, and the service handling what
  // reaches it, with every clock reading the same. No server restart, no failing
  // handler and no other host is among them.
  predicate Helpful(step: Step, h: HostId, now: int) {
    match step
    case Issue(_, _, _, _, _, _, _) => false
    case RestartServer(_) => false
    case Abandon(_) => false
    case ReadRequest(_, t, _) => t == now
    case WriteCredential(_, t) => t == now
    case ReadAgain(_, fault) => !fault
    case WriteDenial(_, _) => false
    case PublishDenial(_) => false
    case ReadPresence(_, _, t) => t == now
    case WriteActivation(_, t) => t == now
    case WriteReached(_, t) => t == now
    case SendPresence(j, t) => j == h && t == now
    case _ => OfHost(step) ==> step.h == h
  }

  ghost predicate Leads(s: State, s': State, h: HostId, now: int) {
    exists steps ::
      && Runs(s, steps) && After(s, steps) == s'
      && forall i :: 0 <= i < |steps| ==> Helpful(steps[i], h, now)
  }

  lemma Here(s: State, h: HostId, now: int)
    ensures Leads(s, s, h, now)
  {
    var none: seq<Step> := [];
    assert Runs(s, none) && After(s, none) == s;
  }

  lemma Then(s: State, s': State, step: Step, h: HostId, now: int)
    requires Leads(s, s', h, now) && Enabled(s', step) && Helpful(step, h, now)
    ensures Leads(s, Next(s', step), h, now)
  {
    hide Enabled, Next, Helpful;
    var steps :| Runs(s, steps) && After(s, steps) == s' && forall i :: 0 <= i < |steps| ==> Helpful(steps[i], h, now);
    var one := [step];
    assert one[1..] == [];
    assert Runs(Next(s', step), one[1..]);
    assert Runs(s', one) && After(s', one) == Next(s', step);
    RunsCompose(s, steps, one);
    assert Runs(s, steps + one);
  }

  lemma Onward(a: State, b: State, c: State, h: HostId, now: int)
    requires Leads(a, b, h, now) && Leads(b, c, h, now)
    ensures Leads(a, c, h, now)
  {
    hide Enabled, Next, Helpful;
    var p :| Runs(a, p) && After(a, p) == b && forall i :: 0 <= i < |p| ==> Helpful(p[i], h, now);
    var q :| Runs(b, q) && After(b, q) == c && forall i :: 0 <= i < |q| ==> Helpful(q[i], h, now);
    RunsCompose(a, p, q);
    assert Runs(a, p + q);
  }

  // Everything the earlier modules prove of a state, carried along a continuation.
  ghost predicate Sound(s: State) {
    Core(s) && Gated(s)
  }

  lemma LeadsKeeps(s: State, s': State, h: HostId, now: int)
    requires Sound(s) && Leads(s, s', h, now)
    ensures Sound(s') && Grows(s, s')
  {
    hide Core, Gated, Enabled, Next, Helpful;
    var steps :| Runs(s, steps) && After(s, steps) == s' && forall i :: 0 <= i < |steps| ==> Helpful(steps[i], h, now);
    RunKeeps(s, steps);
    GatedRun(s, steps);
  }

  // ---- fresh names ----------------------------------------------------------

  lemma Above(used: set<nat>) returns (n: nat)
    ensures forall m :: m in used ==> m < n
    decreases |used|
  {
    if used == {} {
      n := 0;
    } else {
      var m :| m in used;
      var below := Above(used - {m});
      assert forall k :: k in used ==> k == m || k in used - {m};
      n := if below > m then below else m + 1;
    }
  }

  lemma Unused(used: set<nat>) returns (n: nat)
    ensures n !in used
  {
    n := Above(used);
  }

  // ---- one exchange with the service ----------------------------------------

  // The service will answer this request: nothing stands between it and a reply.
  ghost predicate Answerable(s: State, b: Bundle, key: nat, now: int) {
    && b.token in s.db.enrollment
    && var r := s.db.enrollment[b.token];
    && r.agent == b.agent && now < r.expiresAt
    && (r.credential.Some? ==> r.credential.value.halves == HostHalves(key))
  }

  lemma RequestSent(s: State, h: HostId, kind: Kind, now: int) returns (s': State)
    requires (kind.CredentialKind? && HostOf(s, h).process.Requesting?)
             || (kind.ConfirmationKind? && HostOf(s, h).process.Confirming?)
    ensures Leads(s, s', h, now)
    ensures var x := HostOf(s, h).process; s' == s.(wire := s.wire + {RequestBy(x.bundle, x.keys.key, kind)})
  {
    var send := if kind.CredentialKind? then SendRequest(h) else SendConfirmation(h);
    Here(s, h, now);
    hide Leads;
    Then(s, s, send, h, now);
    s' := Next(s, send);
  }

  // A request a host sends reaches a handler of its own.
  lemma RequestReceived(s: State, h: HostId, kind: Kind, id: HandlerId, now: int) returns (s': State)
    requires (kind.CredentialKind? && HostOf(s, h).process.Requesting?)
             || (kind.ConfirmationKind? && HostOf(s, h).process.Confirming?)
    requires id !in s.server.handlers
    ensures Leads(s, s', h, now) && s'.hosts == s.hosts && s'.db == s.db
    ensures var x := HostOf(s, h).process;
            var received := Received(x.bundle.token, RequestBy(x.bundle, x.keys.key, kind));
            s'.server == s.server.(handlers := s.server.handlers[id := received])
  {
    hide Leads;
    var b := HostOf(s, h).process.bundle;
    var p := RequestBy(b, HostOf(s, h).process.keys.key, kind);
    var s1 := RequestSent(s, h, kind, now);
    Then(s, s1, ReceiveRequest(id, b.token, p), h, now);
    s' := Next(s1, ReceiveRequest(id, b.token, p));
  }

  // A request the service will answer is read, and the handler stands where the
  // checks leave it.
  lemma RequestRead(s: State, h: HostId, kind: Kind, now: int, id: HandlerId) returns (s': State)
    requires (kind.CredentialKind? && HostOf(s, h).process.Requesting?)
             || (kind.ConfirmationKind? && HostOf(s, h).process.Confirming?)
    requires Answerable(s, HostOf(s, h).process.bundle, HostOf(s, h).process.keys.key, now)
    requires kind.CredentialKind? ==> s.db.enrollment[HostOf(s, h).process.bundle.token].state.Issued?
    requires id !in s.server.handlers
    ensures Leads(s, s', h, now) && s'.hosts == s.hosts && s'.db == s.db
    ensures s'.server == s.server.(handlers := s'.server.handlers) && id in s'.server.handlers
    ensures var b, key, x := HostOf(s, h).process.bundle, HostOf(s, h).process.keys.key, s'.server.handlers[id];
            var r := s.db.enrollment[b.token];
            if kind.ConfirmationKind? then x == AtGate(b.token, HostHalves(key), r)
            else if r.credential.Some? then
              x == Answering(b.token, HostHalves(key), CredentialReply(b.agent, r.credential.value.jwt))
            else x == Recording(b.token, Credential(HostHalves(key), Jwt(b.agent, HostKey(key), 0)))
  {
    hide Leads;
    var s1 := RequestReceived(s, h, kind, id, now);
    Then(s, s1, ReadRequest(id, now, 0), h, now);
    s' := Next(s1, ReadRequest(id, now, 0));
  }

  // A reply decided is published, and may reach the host it is for.
  lemma ReplyPublished(s: State, h: HostId, id: HandlerId, now: int) returns (s': State)
    requires id in s.server.handlers && s.server.handlers[id].Answering?
    requires HostOf(s, h).process.Requesting? || HostOf(s, h).process.Confirming?
    ensures Leads(s, s', h, now) && s'.db == s.db && s'.hosts == s.hosts
    ensures Enabled(s', Receive(h, ReplyPacket(s.server.handlers[id].token, s.server.handlers[id].reply, ServiceKey)))
  {
    Here(s, h, now);
    Then(s, s, PublishReply(id), h, now);
    s' := Next(s, PublishReply(id));
  }

  // S1: a waiting host is answered with the recorded credential, which the first
  // such request records.
  lemma CredentialOffered(s: State, h: HostId, now: int) returns (s': State, jwt: Jwt)
    requires HostOf(s, h).process.Requesting?
    requires Answerable(s, HostOf(s, h).process.bundle, HostOf(s, h).process.keys.key, now)
    requires s.db.enrollment[HostOf(s, h).process.bundle.token].state.Issued?
    requires var x := HostOf(s, h).process;
             var c := s.db.enrollment[x.bundle.token].credential;
             (c.Some? ==> c.value.jwt.nats == HostKey(x.keys.key) && c.value.jwt.agent == x.bundle.agent)
    ensures Leads(s, s', h, now) && s'.hosts == s.hosts
    ensures var x := HostOf(s, h).process;
            && jwt.nats == HostKey(x.keys.key) && jwt.agent == x.bundle.agent
            && Enabled(s', Receive(h, ReplyPacket(x.bundle.token, CredentialReply(x.bundle.agent, jwt), ServiceKey)))
            && x.bundle.token in s'.db.enrollment && s'.db.enrollment[x.bundle.token].credential.Some?
            && s'.db.enrollment[x.bundle.token].credential.value.halves == HostHalves(x.keys.key)
  {
    var b, keys := HostOf(s, h).process.bundle, HostOf(s, h).process.keys;
    var id := Unused(s.server.handlers.Keys);
    var s1 := RequestRead(s, h, CredentialKind, now, id);
    var s2;
    s2, jwt := CredentialAnswered(s1, id, b, keys.key, h, now);
    hide Next, Enabled, Answerable, Leads;
    Onward(s, s1, s2, h, now);
    s' := ReplyPublished(s2, h, id, now);
    Onward(s, s2, s', h, now);
  }

  // S1 and S2: the host writes its artifact and its ledger, and goes on to confirm.
  lemma Credentialed(s: State, h: HostId, now: int) returns (s': State)
    requires HostOf(s, h).process.Requesting?
    requires Answerable(s, HostOf(s, h).process.bundle, HostOf(s, h).process.keys.key, now)
    requires s.db.enrollment[HostOf(s, h).process.bundle.token].state.Issued?
    requires var x := HostOf(s, h).process;
             var c := s.db.enrollment[x.bundle.token].credential;
             (c.Some? ==> c.value.jwt.nats == HostKey(x.keys.key) && c.value.jwt.agent == x.bundle.agent)
    ensures Leads(s, s', h, now)
            && HostOf(s', h).process == Confirming(HostOf(s, h).process.bundle, HostOf(s, h).process.keys)
    ensures var x := HostOf(s, h).process;
            && x.bundle.token in s'.db.enrollment && s'.db.enrollment[x.bundle.token].credential.Some?
            && s'.db.enrollment[x.bundle.token].credential.value.halves == HostHalves(x.keys.key)
  {
    var s1, jwt := CredentialOffered(s, h, now);
    hide Answerable, Leads;
    s' := CredentialKept(s1, h, jwt, now);
    Onward(s, s1, s', h, now);
  }

  lemma CredentialAnswered(s: State, id: HandlerId, b: Bundle, key: nat, h: HostId, now: int)
    returns (s': State, jwt: Jwt)
    requires id in s.server.handlers && b.token in s.db.enrollment && s.db.enrollment[b.token].state.Issued?
    requires var r := s.db.enrollment[b.token];
             if r.credential.Some? then
               var reply := CredentialReply(b.agent, r.credential.value.jwt);
               && s.server.handlers[id] == Answering(b.token, HostHalves(key), reply)
               && r.credential.value.jwt.nats == HostKey(key) && r.credential.value.jwt.agent == b.agent
               && r.credential.value.halves == HostHalves(key)
             else
               var c := Credential(HostHalves(key), Jwt(b.agent, HostKey(key), 0));
               s.server.handlers[id] == Recording(b.token, c)
    ensures Leads(s, s', h, now) && s'.hosts == s.hosts && jwt.nats == HostKey(key) && jwt.agent == b.agent
    ensures id in s'.server.handlers
            && s'.server.handlers[id] == Answering(b.token, HostHalves(key), CredentialReply(b.agent, jwt))
    ensures b.token in s'.db.enrollment && s'.db.enrollment[b.token].credential.Some?
    ensures s'.db.enrollment[b.token].credential.value.halves == HostHalves(key)
  {
    Here(s, h, now);
    hide Leads;
    if s.server.handlers[id].Recording? {
      Then(s, s, WriteCredential(id, now), h, now);
      s', jwt := Next(s, WriteCredential(id, now)), Jwt(b.agent, HostKey(key), 0);
    } else {
      s', jwt := s, s.db.enrollment[b.token].credential.value.jwt;
    }
  }

  lemma ReplyTaken(s: State, h: HostId, jwt: Jwt, now: int) returns (s': State)
    requires HostOf(s, h).process.Requesting?
    requires var x := HostOf(s, h).process;
             && jwt.nats == HostKey(x.keys.key) && jwt.agent == x.bundle.agent
             && Enabled(s, Receive(h, ReplyPacket(x.bundle.token, CredentialReply(x.bundle.agent, jwt), ServiceKey)))
    ensures Leads(s, s', h, now) && s'.db == s.db
    ensures var x := HostOf(s, h); HostOf(s', h) == x.(process := Replied(x.process.bundle, x.process.keys, jwt))
  {
    var b, keys := HostOf(s, h).process.bundle, HostOf(s, h).process.keys;
    var p := ReplyPacket(b.token, CredentialReply(b.agent, jwt), ServiceKey);
    Here(s, h, now);
    hide Leads;
    Then(s, s, Receive(h, p), h, now);
    s' := Next(s, Receive(h, p));
  }

  // The reply arrives, and the host writes its identity artifact.
  lemma IdentityPut(s: State, h: HostId, jwt: Jwt, now: int) returns (s': State)
    requires HostOf(s, h).process.Requesting?
    requires var x := HostOf(s, h).process;
             && jwt.nats == HostKey(x.keys.key) && jwt.agent == x.bundle.agent
             && Enabled(s, Receive(h, ReplyPacket(x.bundle.token, CredentialReply(x.bundle.agent, jwt), ServiceKey)))
    ensures Leads(s, s', h, now)
            && HostOf(s', h).process == IdentityWritten(HostOf(s, h).process.bundle, HostOf(s, h).process.keys)
    ensures s'.db == s.db && HostOf(s', h).ledger == HostOf(s, h).ledger
  {
    hide Leads, Deliverable;
    var s1 := ReplyTaken(s, h, jwt, now);
    Then(s, s1, WriteIdentity(h), h, now);
    s' := Next(s1, WriteIdentity(h));
  }

  lemma CredentialKept(s: State, h: HostId, jwt: Jwt, now: int) returns (s': State)
    requires HostOf(s, h).process.Requesting?
    requires var x := HostOf(s, h).process;
             && jwt.nats == HostKey(x.keys.key) && jwt.agent == x.bundle.agent
             && Enabled(s, Receive(h, ReplyPacket(x.bundle.token, CredentialReply(x.bundle.agent, jwt), ServiceKey)))
    ensures Leads(s, s', h, now)
            && HostOf(s', h).process == Confirming(HostOf(s, h).process.bundle, HostOf(s, h).process.keys)
    ensures s'.db == s.db
  {
    hide Leads;
    var s1 := IdentityPut(s, h, jwt, now);
    Then(s, s1, OpenLedger(h), h, now);
    s' := Next(s1, OpenLedger(h));
  }

  // ---- the gate is let go ---------------------------------------------------

  // Whoever has the gate can record its hold and let go.
  lemma HolderLeaves(s: State, w: HandlerId, h: HostId, now: int) returns (s': State)
    requires s.server.writer == Some(w) && w in s.server.handlers
    requires s.server.handlers[w].Reached? || s.server.handlers[w].Holding?
    ensures Leads(s, s', h, now) && s'.hosts == s.hosts && s'.server.hold == s.server.hold && s'.server.writer.None?
    ensures s'.db.enrollment == s.db.enrollment
  {
    Here(s, h, now);
    hide Leads;
    var s1 := s;
    if s.server.handlers[w].Reached? {
      Then(s, s, WriteReached(w, now), h, now);
      s1 := Next(s, WriteReached(w, now));
    }
    assert s1.server.handlers[w].Holding? && s1.server.writer == Some(w);
    Then(s, s1, UnlockGate(w), h, now);
    s' := Next(s1, UnlockGate(w));
  }

  lemma WriterLeaves(s: State, h: HostId, now: int) returns (s': State)
    requires Sound(s)
    ensures Leads(s, s', h, now) && s'.hosts == s.hosts && s'.server.hold == s.server.hold && s'.server.writer.None?
  {
    Here(s, h, now);
    hide Leads, Core;
    if s.server.writer.None? { return s; }
    var w := s.server.writer.value;
    if !s.server.handlers[w].Activating? {
      s' := HolderLeaves(s, w, h, now);
    } else {
      Then(s, s, WriteActivation(w, now), h, now);
      var s1 := Next(s, WriteActivation(w, now));
      if s1.server.writer.None? { return s1; }
      s' := HolderLeaves(s1, w, h, now);
      Onward(s, s1, s', h, now);
    }
  }

  lemma ReadersLeave(s: State, h: HostId, now: int) returns (s': State)
    requires Sound(s) && s.server.writer.None?
    ensures Leads(s, s', h, now) && s'.hosts == s.hosts && s'.server.hold == s.server.hold && s'.server.writer.None?
            && s'.server.readers == {}
    decreases |s.server.readers|
  {
    Here(s, h, now);
    hide Leads, Core;
    if s.server.readers == {} { return s; }
    var id :| id in s.server.readers;
    Then(s, s, LeaveGate(id), h, now);
    var s1 := Next(s, LeaveGate(id));
    assert s1.server.readers == s.server.readers - {id} && s1.server.writer.None? && s1.hosts == s.hosts
           && s1.server.hold == s.server.hold;
    LeadsKeeps(s, s1, h, now);
    s' := ReadersLeave(s1, h, now);
    Onward(s, s1, s', h, now);
  }

  // ---- S0: from wherever the host stopped ------------------------------------

  lemma Begun(s: State, h: HostId, b: Bundle, now: int) returns (s': State)
    requires b in s.bundles
    ensures Leads(s, s', h, now) && s'.db == s.db && s'.server == s.server
    ensures HostOf(s', h).keyFile == HostOf(s, h).keyFile && HostOf(s', h).process == Starting(b)
  {
    Here(s, h, now);
    hide Leads;
    var s1 := s;
    if !HostOf(s, h).process.Down? {
      Then(s, s, Stop(h), h, now);
      s1 := Next(s, Stop(h));
    }
    Then(s, s1, StartEnroll(h, b), h, now);
    s' := Next(s1, StartEnroll(h, b));
  }

  lemma KeysReady(s: State, h: HostId, b: Bundle, now: int) returns (s': State)
    requires HostOf(s, h).process == Starting(b)
    requires HostOf(s, h).keyFile.Some? ==> HostOf(s, h).keyFile.value.agent == b.agent
    ensures Leads(s, s', h, now) && s'.db == s.db && s'.server == s.server
    ensures HostOf(s', h).process.Keyed? && HostOf(s', h).process.bundle == b
  {
    Here(s, h, now);
    hide Leads;
    var newKey := Unused(s.owner.Keys);
    Then(s, s, ReadKeys(h, newKey), h, now);
    s' := Next(s, ReadKeys(h, newKey));
    if HostOf(s', h).process.Generated? {
      Then(s, s', WriteKeys(h), h, now);
      s' := Next(s', WriteKeys(h));
    }
  }

  // A restart finds what the last run left on disk.
  lemma Restarted(s: State, h: HostId, b: Bundle, now: int) returns (s': State)
    requires Sound(s) && b in s.bundles
    requires HostOf(s, h).keyFile.Some? ==> HostOf(s, h).keyFile.value.agent == b.agent
    ensures Leads(s, s', h, now) && s'.db == s.db && s'.server == s.server
    ensures var x := HostOf(s', h);
            && (x.process.Requesting? || x.process.Confirming?) && x.process.bundle == b
  {
    hide Leads, Sound;
    var s1 := Begun(s, h, b, now);
    var s2 := KeysReady(s1, h, b, now);
    Onward(s, s1, s2, h, now);
    IdentityRead(s, s2, h, b, now);
    Then(s, s2, ReadIdentity(h), h, now);
    s' := Next(s2, ReadIdentity(h));
  }

  // An identity artifact on disk is bound to the key artifact beside it.
  lemma IdentityRead(s: State, s': State, h: HostId, b: Bundle, now: int)
    requires Sound(s) && Leads(s, s', h, now)
    requires HostOf(s', h).process.Keyed? && HostOf(s', h).process.bundle == b
    ensures var x := HostOf(s', h);
            x.idFile.Some? ==> x.idFile.value.digest == x.process.keys && x.idFile.value.agent == b.agent
  {
    hide Core, Gated, Grows, Leads;
    LeadsKeeps(s, s', h, now);
    CoreHost(s', h);
  }

  // ---- S3 and S4: the proof and the activation -------------------------------

  // The proof is published, and reaches a handler of its own.
  lemma ProofSent(s: State, h: HostId, now: int, id: HandlerId) returns (s': State)
    requires HostOf(s, h).process.Confirming? && id !in s.server.handlers
    ensures Leads(s, s', h, now) && s'.db == s.db && s'.hosts == s.hosts
    ensures var a := HostOf(s, h).process.bundle.agent;
            var heard := Heard(a, PresencePacket(a, now, HostKey(HostOf(s, h).process.keys.key)));
            s'.server == s.server.(handlers := s.server.handlers[id := heard])
  {
    var b, key := HostOf(s, h).process.bundle, HostOf(s, h).process.keys.key;
    var p := PresencePacket(b.agent, now, HostKey(key));
    Here(s, h, now);
    hide Leads, RequestNext, RequestEnabled;
    Then(s, s, SendPresence(h, now), h, now);
    var s1 := Next(s, SendPresence(h, now));
    assert s1 == s.(wire := s.wire + {p}, published := s.published + {Published(b.agent, p)});
    Then(s, s1, HearPresence(id, b.agent, p), h, now);
    s' := Next(s1, HearPresence(id, b.agent, p));
  }

  lemma ProofHeard(s: State, h: HostId, now: int, id: HandlerId) returns (s': State)
    requires HostOf(s, h).process.Confirming? && id !in s.server.handlers
    requires var b := HostOf(s, h).process.bundle;
             && b.token in s.db.enrollment && s.db.enrollment[b.token].agent == b.agent
             && s.db.enrollment[b.token].state.Issued? && s.db.enrollment[b.token].credential.Some?
             && s.db.enrollment[b.token].credential.value.halves.signing == HostKey(HostOf(s, h).process.keys.key)
    ensures Leads(s, s', h, now) && s'.db == s.db && s'.hosts == s.hosts
    ensures s'.server == s.server.(handlers := s'.server.handlers) && id in s'.server.handlers
    ensures var b := HostOf(s, h).process.bundle;
            s'.server.handlers[id] == if s.server.hold then Proven(b.token, b.agent) else Activating(b.token, b.agent)
  {
    hide Leads, HostNext, HostEnabled, RequestNext, RequestEnabled;
    var b := HostOf(s, h).process.bundle;
    var s1 := ProofSent(s, h, now, id);
    Then(s, s1, ReadPresence(id, b.token, now), h, now);
    s' := Next(s1, ReadPresence(id, b.token, now));
  }

  // A proven row is activated through an open gate, which is left open.
  lemma ProvenActivated(s: State, id: HandlerId, h: HostId, now: int) returns (s': State)
    requires id in s.server.handlers && s.server.writer.None? && s.server.readers == {}
    requires s.server.handlers[id].Proven? || (s.server.handlers[id].Activating? && !s.server.hold)
    requires s.server.handlers[id].Proven? ==> s.server.hold
    requires Activate(s.db, s.server.handlers[id].token, s.server.handlers[id].agent, now).Ok?
    ensures Leads(s, s', h, now) && s'.hosts == s.hosts && s'.server.writer.None?
    ensures var x := s.server.handlers[id];
            s'.db.enrollment == Activate(s.db, x.token, x.agent, now).value.enrollment
  {
    Here(s, h, now);
    hide Leads;
    var s1 := s;
    if s.server.handlers[id].Proven? {
      Then(s, s, LockGate(id), h, now);
      s1 := Next(s, LockGate(id));
    }
    Then(s, s1, WriteActivation(id, now), h, now);
    s' := Next(s1, WriteActivation(id, now));
    if s.server.hold {
      var s2 := HolderLeaves(s', id, h, now);
      Onward(s, s', s2, h, now);
      s' := s2;
    }
  }

  // ---- S6: the confirmation ---------------------------------------------------

  lemma Confirmed(s: State, h: HostId, now: int) returns (s': State)
    requires HostOf(s, h).process.Confirming? && s.server.writer.None?
    requires Answerable(s, HostOf(s, h).process.bundle, HostOf(s, h).process.keys.key, now)
    requires s.db.enrollment[HostOf(s, h).process.bundle.token].state.Spent?
    ensures Leads(s, s', h, now)
    ensures Success(h, HostOf(s, h).process.bundle.token, HostOf(s, h).process.keys.key) in s'.successes
  {
    var b, key := HostOf(s, h).process.bundle, HostOf(s, h).process.keys.key;
    var id := Unused(s.server.handlers.Keys);
    var s1 := RequestRead(s, h, ConfirmationKind, now, id);
    assert s1.server.handlers[id].row.agent == b.agent;
    hide Leads, Answerable, Next, Enabled;
    var s2 := ThroughGate(s1, id, h, now);
    Onward(s, s1, s2, h, now);
    var s3 := ReplyPublished(s2, h, id, now);
    Onward(s, s2, s3, h, now);
    s' := SuccessTaken(s3, h, now);
    Onward(s, s3, s', h, now);
  }

  lemma SuccessTaken(s: State, h: HostId, now: int) returns (s': State)
    requires HostOf(s, h).process.Confirming?
    requires var b := HostOf(s, h).process.bundle;
             Enabled(s, Receive(h, ReplyPacket(b.token, ConfirmationReply(b.agent, true, true), ServiceKey)))
    ensures Leads(s, s', h, now)
    ensures Success(h, HostOf(s, h).process.bundle.token, HostOf(s, h).process.keys.key) in s'.successes
  {
    var b := HostOf(s, h).process.bundle;
    var p := ReplyPacket(b.token, ConfirmationReply(b.agent, true, true), ServiceKey);
    Here(s, h, now);
    hide Leads, RequestNext, RequestEnabled, GateNext, GateEnabled;
    Then(s, s, Receive(h, p), h, now);
    s' := Next(s, Receive(h, p));
  }

  lemma ThroughGate(s: State, id: HandlerId, h: HostId, now: int) returns (s': State)
    requires id in s.server.handlers && s.server.handlers[id].AtGate? && s.server.handlers[id].row.state.Spent?
    requires s.server.writer.None?
    ensures Leads(s, s', h, now) && s'.hosts == s.hosts && s'.db == s.db && id in s'.server.handlers
    ensures var x := s.server.handlers[id];
            s'.server.handlers[id] == Answering(x.token, x.halves, ConfirmationReply(x.row.agent, true, true))
  {
    Here(s, h, now);
    hide Leads;
    Then(s, s, EnterGate(id), h, now);
    var s1 := Next(s, EnterGate(id));
    Then(s, s1, LeaveGate(id), h, now);
    s' := Next(s1, LeaveGate(id));
  }

  // ---- the whole continuation --------------------------------------------------

  predicate HostsOwn(s: State, h: HostId, c: Halves) {
    c.signing.HostKey? && c == HostHalves(c.signing.n) && c.signing.n in s.owner && s.owner[c.signing.n] == h
  }

  // Whether this host may still complete the enrollment of this bundle: nothing
  // is recorded and its key artifact is absent or for this agent, or what is
  // recorded is its own.
  predicate MayComplete(s: State, h: HostId, b: Bundle)
    requires b.token in s.db.enrollment
  {
    var c := s.db.enrollment[b.token].credential;
    if c.None? then HostOf(s, h).keyFile.None? || HostOf(s, h).keyFile.value.agent == b.agent
    else HostsOwn(s, h, c.value.halves)
  }

  lemma MayCompleteKeys(s: State, h: HostId, b: Bundle)
    requires Sound(s) && b in s.bundles && b.token in s.db.enrollment && MayComplete(s, h, b)
    ensures s.db.enrollment[b.token].agent == b.agent
    ensures HostOf(s, h).keyFile.Some? ==> HostOf(s, h).keyFile.value.agent == b.agent
    ensures s.db.enrollment[b.token].credential.Some? ==>
              HostOf(s, h).keyFile == Some(KeyFile(b.agent, s.db.enrollment[b.token].credential.value.halves.signing.n))
  {
    hide HostOk, PacketOk, PublishedOk, HandlerOk, AnswerOk, SuccessOk, Consistent, Gated;
    assert BundleOk(s, b);
    assert RowOk(s, s.db.enrollment[b.token]);
  }

  // A restarted host still asking has no artifact, so the token is not spent and
  // what is recorded, if anything, is for the keys it restarted with.
  lemma AskingIsAnswerable(s: State, h: HostId, now: int)
    requires Sound(s) && HostOf(s, h).process.Requesting?
    requires var b := HostOf(s, h).process.bundle;
             b in s.bundles && b.token in s.db.enrollment && now < s.db.enrollment[b.token].expiresAt
             && MayComplete(s, h, b)
    ensures var x := HostOf(s, h).process;
            && Answerable(s, x.bundle, x.keys.key, now) && s.db.enrollment[x.bundle.token].state.Issued?
            && var c := s.db.enrollment[x.bundle.token].credential;
               (c.Some? ==> c.value.jwt.nats == HostKey(x.keys.key) && c.value.jwt.agent == x.bundle.agent)
  {
    var b := HostOf(s, h).process.bundle;
    MayCompleteKeys(s, h, b);
    hide PacketOk, PublishedOk, HandlerOk, AnswerOk, SuccessOk, Gated;
    assert HostOk(s, h, HostOf(s, h));
    assert RowOk(s, s.db.enrollment[b.token]);
    assert RowConsistent(s.db, s.db.enrollment[b.token]);
  }

  // A host that is confirming holds the recorded credential.
  lemma ConfirmingIsRecorded(s: State, h: HostId)
    requires Sound(s) && HostOf(s, h).process.Confirming?
    requires var b := HostOf(s, h).process.bundle; b in s.bundles && b.token in s.db.enrollment && MayComplete(s, h, b)
    ensures var x := HostOf(s, h).process;
            && s.db.enrollment[x.bundle.token].agent == x.bundle.agent
            && s.db.enrollment[x.bundle.token].credential.Some?
            && s.db.enrollment[x.bundle.token].credential.value.halves == HostHalves(x.keys.key)
  {
    var x := HostOf(s, h);
    var b := x.process.bundle;
    MayCompleteKeys(s, h, b);
    hide PacketOk, PublishedOk, HandlerOk, AnswerOk, SuccessOk, Gated, RowOk;
    assert HostOk(s, h, x);
    var t :| RecordedJwt(s.db, t, x.idFile.value.agent, x.idFile.value.jwt);
    assert t == b.token;
  }

  // From a restarted host to one that confirms what is recorded.
  lemma Bound(s: State, h: HostId, now: int) returns (s': State)
    requires Sound(s) && (HostOf(s, h).process.Requesting? || HostOf(s, h).process.Confirming?)
    requires var b := HostOf(s, h).process.bundle;
             b in s.bundles && b.token in s.db.enrollment && now < s.db.enrollment[b.token].expiresAt
             && MayComplete(s, h, b)
    ensures Leads(s, s', h, now) && HostOf(s', h).process.Confirming?
            && HostOf(s', h).process.bundle == HostOf(s, h).process.bundle
    ensures var x := HostOf(s', h).process;
            && x.bundle.token in s'.db.enrollment && s'.db.enrollment[x.bundle.token].agent == x.bundle.agent
            && s'.db.enrollment[x.bundle.token].credential.Some?
            && s'.db.enrollment[x.bundle.token].credential.value.halves == HostHalves(x.keys.key)
  {
    Here(s, h, now);
    if HostOf(s, h).process.Requesting? {
      AskingIsAnswerable(s, h, now);
      hide Sound, Answerable;
      s' := Credentialed(s, h, now);
      LeadsKeeps(s, s', h, now);
    } else {
      ConfirmingIsRecorded(s, h);
      s' := s;
    }
  }

  // From a bound host to a spent token behind an open gate.
  lemma SpentAndOpen(s: State, h: HostId, now: int) returns (s': State)
    requires Sound(s) && HostOf(s, h).process.Confirming?
    requires var x := HostOf(s, h).process;
             && x.bundle.token in s.db.enrollment && s.db.enrollment[x.bundle.token].agent == x.bundle.agent
             && s.db.enrollment[x.bundle.token].credential.Some?
             && s.db.enrollment[x.bundle.token].credential.value.halves == HostHalves(x.keys.key)
    ensures Leads(s, s', h, now) && s'.hosts == s.hosts && s'.server.writer.None?
    ensures var b := HostOf(s, h).process.bundle;
            b.token in s'.db.enrollment && s'.db.enrollment[b.token].state.Spent?
            && RowForward(s.db.enrollment[b.token], s'.db.enrollment[b.token])
  {
    hide Sound, Grows, Leads, Activate, RowForward;
    var b := HostOf(s, h).process.bundle;
    s' := Opened(s, h, now);
    RecordedStill(s, s', b.token, now);
    if s'.db.enrollment[b.token].state.Issued? {
      var s2 := s';
      var id := Unused(s2.server.handlers.Keys);
      var s3 := ProofHeard(s2, h, now, id);
      Onward(s, s2, s3, h, now);
      s' := ProvenActivated(s3, id, h, now);
      Onward(s, s3, s', h, now);
      ActivatedForward(s.db.enrollment[b.token], s2.db, b.token, b.agent, now);
    }
  }

  lemma Opened(s: State, h: HostId, now: int) returns (s': State)
    requires Sound(s)
    ensures Leads(s, s', h, now) && s'.hosts == s.hosts && s'.server.writer.None? && s'.server.readers == {}
    ensures Sound(s') && Grows(s, s')
  {
    hide Sound, Grows, Leads;
    var s1 := WriterLeaves(s, h, now);
    LeadsKeeps(s, s1, h, now);
    s' := ReadersLeave(s1, h, now);
    Onward(s, s1, s', h, now);
    LeadsKeeps(s, s', h, now);
  }

  // What is recorded stays recorded, and if it is not spent yet it can be.
  lemma RecordedStill(s: State, s': State, t: TokenId, now: int)
    requires Sound(s') && Grows(s, s') && t in s.db.enrollment && s.db.enrollment[t].credential.Some?
    ensures t in s'.db.enrollment && RowForward(s.db.enrollment[t], s'.db.enrollment[t])
    ensures s'.db.enrollment[t].agent == s.db.enrollment[t].agent
    ensures s'.db.enrollment[t].credential == s.db.enrollment[t].credential
    ensures s'.db.enrollment[t].state.Issued? ==> Activate(s'.db, t, s.db.enrollment[t].agent, now).Ok?
  {
    hide Core, Gated;
    assert RowForward(s.db.enrollment[t], s'.db.enrollment[t]);
    CoreRow(s', t);
  }

  lemma ActivatedForward(r: Row, db: Tables, t: TokenId, agent: AgentId, now: int)
    requires t in db.enrollment && RowForward(r, db.enrollment[t]) && Activate(db, t, agent, now).Ok?
    ensures var e := Activate(db, t, agent, now).value.enrollment;
            t in e && e[t].state.Spent? && RowForward(r, e[t])
  {}

  // Recovery. From every reachable state with the token unexpired, whatever was
  // lost, killed or left half done, a host that may still complete the
  // enrollment does so in some continuation, and one that may not never does.
  lemma RecoversIff(s: State, h: HostId, b: Bundle, now: int)
    requires Reachable(s) && b in s.bundles
    requires b.token in s.db.enrollment && now < s.db.enrollment[b.token].expiresAt
    ensures MayComplete(s, h, b) <==>
            exists steps, key ::
              && Runs(s, steps) && Success(h, b.token, key) in After(s, steps).successes
              && forall i :: 0 <= i < |steps| ==> Helpful(steps[i], h, now)
    ensures !MayComplete(s, h, b) ==>
              forall steps, key :: Runs(s, steps) ==> Success(h, b.token, key) !in After(s, steps).successes
  {
    ReachableSound(s);
    if MayComplete(s, h, b) {
      var s', key := Recovers(s, h, b, now);
      var steps :| && Runs(s, steps) && After(s, steps) == s'
                   && forall i :: 0 <= i < |steps| ==> Helpful(steps[i], h, now);
      assert Success(h, b.token, key) in After(s, steps).successes;
    }
    forall steps, key | Runs(s, steps) && Success(h, b.token, key) in After(s, steps).successes
      ensures MayComplete(s, h, b)
    {
      OnlyItsOwn(s, h, b, steps, key);
    }
  }

  lemma ReachableSound(s: State)
    requires Reachable(s)
    ensures Sound(s)
  {
    var steps :| Runs(INIT, steps) && After(INIT, steps) == s;
    InitCore();
    RunKeeps(INIT, steps);
    GatedRun(INIT, steps);
  }

  lemma Recovers(s: State, h: HostId, b: Bundle, now: int) returns (s': State, key: nat)
    requires Sound(s) && b in s.bundles
    requires b.token in s.db.enrollment && now < s.db.enrollment[b.token].expiresAt && MayComplete(s, h, b)
    ensures Leads(s, s', h, now) && Success(h, b.token, key) in s'.successes
  {
    hide Sound, Grows, Leads, MayComplete, Answerable, RowForward;
    MayCompleteKeys(s, h, b);
    var s1 := Restarted(s, h, b, now);
    LeadsKeeps(s, s1, h, now);
    StillMayComplete(s, s1, h, b);
    var s2 := Bound(s1, h, now);
    LeadsKeeps(s1, s2, h, now);
    Onward(s, s1, s2, h, now);
    var s3 := SpentAndOpen(s2, h, now);
    Onward(s, s2, s3, h, now);
    key := HostOf(s2, h).process.keys.key;
    StillAnswerable(s1, s2, s3, b, key, now);
    s' := Confirmed(s3, h, now);
    Onward(s, s3, s', h, now);
  }

  lemma StillMayComplete(s: State, s': State, h: HostId, b: Bundle)
    requires Sound(s) && Sound(s') && Grows(s, s') && s'.db == s.db && b in s.bundles
    requires b.token in s.db.enrollment && MayComplete(s, h, b)
    requires (HostOf(s', h).process.Requesting? || HostOf(s', h).process.Confirming?)
             && HostOf(s', h).process.bundle == b
    ensures MayComplete(s', h, b) && b in s'.bundles
  {
    hide Core, Gated;
    CoreHost(s', h);
  }

  lemma StillAnswerable(s1: State, s2: State, s3: State, b: Bundle, key: nat, now: int)
    requires Grows(s1, s2) && b.token in s1.db.enrollment && now < s1.db.enrollment[b.token].expiresAt
    requires b.token in s2.db.enrollment && s2.db.enrollment[b.token].agent == b.agent
    requires s2.db.enrollment[b.token].credential.Some?
             && s2.db.enrollment[b.token].credential.value.halves == HostHalves(key)
    requires b.token in s3.db.enrollment && RowForward(s2.db.enrollment[b.token], s3.db.enrollment[b.token])
    ensures Answerable(s3, b, key, now)
  {
    assert RowForward(s1.db.enrollment[b.token], s2.db.enrollment[b.token]);
  }

  // A success is always with the recorded keys, persisted on the host that succeeds.
  lemma OnlyItsOwn(s: State, h: HostId, b: Bundle, steps: seq<Step>, key: nat)
    requires Sound(s) && b in s.bundles && b.token in s.db.enrollment
    requires Runs(s, steps) && Success(h, b.token, key) in After(s, steps).successes
    ensures MayComplete(s, h, b)
  {
    var s' := After(s, steps);
    RunKeeps(s, steps);
    hide HostOk, PacketOk, PublishedOk, HandlerOk, AnswerOk, Consistent, Gated;
    assert SuccessOk(s', Success(h, b.token, key));
    assert RowOk(s', s'.db.enrollment[b.token]);
    assert BundleOk(s, b);
    assert RowForward(s.db.enrollment[b.token], s'.db.enrollment[b.token]);
    assert RowOk(s, s.db.enrollment[b.token]);
    assert HostGrows(HostOf(s, h), HostOf(s', h));
  }
}
