// The enrollment service's handlers over the store they share. A handler makes
// one store call at a time, and every other handler, the issuer and the agents
// may act between any two of them; each call is a step of the protocol's
// machine.
module Service {
  import opened Common
  import opened StoreModel
  import opened Protocol
  import opened Checks
  import opened ProtocolInvariant
  import opened ProtocolSteps
  import opened ProtocolGate
  import opened ProtocolSafety
  import opened Machine
  import opened Store

  datatype Outcome = Answer(reply: Reply) | Denial(reason: string) | Nothing

  // What the environment decides: the clock, the serial a mint would get, and
  // which database, minting and publishing calls fail.
  datatype Chance = Chance(now: int, serial: nat, read: bool, mint: bool, write: Fault, again: bool, deny: bool,
                           publish: bool)

  // What a mint for this request would record.
  function Minted(rec: Row, h: Halves, c: Chance): StoreModel.Credential {
    StoreModel.Credential(h, Jwt(rec.agent, h.nats, c.serial))
  }

  function Confirmation(rec: Row): Reply {
    ConfirmationReply(rec.agent, true, true)
  }

  predicate Recorded(s: State, id: HandlerId, token: TokenId) {
    id in s.server.handlers && s.server.handlers[id].AnsweringDenied? && s.server.handlers[id].token == token
  }

  predicate Has(s: State, id: HandlerId, x: Handler) {
    id in s.server.handlers && s.server.handlers[id] == x
  }

  lemma RecordingFits(s: State, id: HandlerId)
    requires Reachable(s) && id in s.server.handlers && s.server.handlers[id].Recording?
    ensures var x := s.server.handlers[id];
            && Consistent(s.db) && x.token in s.db.enrollment
            && s.db.enrollment[x.token].agent == x.credential.jwt.agent
            && x.credential.jwt.nats == x.credential.halves.nats
  {
    ReachableCore(s);
    hide Core;
    CoreHandler(s, id);
  }

  lemma LostRaceFits(s: State, id: HandlerId)
    requires Reachable(s) && id in s.server.handlers && s.server.handlers[id].LostRace?
    ensures var token := s.server.handlers[id].token;
            token in s.db.enrollment && s.db.enrollment[token].credential.Some?
  {
    ReachableCore(s);
    hide Core;
    CoreHandler(s, id);
  }

  lemma ActivatingFits(s: State, id: HandlerId)
    requires Reachable(s) && id in s.server.handlers && s.server.handlers[id].Activating?
    ensures var x := s.server.handlers[id];
            && Consistent(s.db) && x.token in s.db.enrollment
            && var r := s.db.enrollment[x.token];
            r.agent == x.agent && r.credential.Some? && (r.state.Issued? || x.agent in s.db.agents)
  {
    ReachableCore(s);
    hide Core;
    CoreHandler(s, id);
    CoreRow(s, s.server.handlers[id].token);
  }

  lemma OneRowEach(db: Tables)
    requires Consistent(db)
    ensures UniqueAgents(db.enrollment)
  {}

  // What a published reply says is what the store holds.
  ghost predicate Truthful(db: Tables, token: TokenId, reply: Reply) {
    match reply
    case Denied => exists i :: 0 <= i < |db.audit| && db.audit[i].action.RequestDenied? && db.audit[i].subject == token
    case CredentialReply(agent, jwt) => RecordedJwt(db, token, agent, jwt)
    case ConfirmationReply(agent, active, spent) =>
      && active && spent && agent in db.agents
      && token in db.enrollment && db.enrollment[token].agent == agent && db.enrollment[token].state.Spent?
  }

  lemma WireIsTruthful(s: State, token: TokenId, reply: Reply)
    requires Reachable(s) && ReplyPacket(token, reply, ServiceKey) in s.wire
    ensures Truthful(s.db, token, reply)
  {
    if reply.Denied? {
      DenialOnWireIsRecorded(s, token);
    } else {
      ReachableCore(s);
      assert PacketOk(s, ReplyPacket(token, reply, ServiceKey));
      if reply.ConfirmationReply? { SpentIffActive(s, token); }
    }
  }

  // What a passing request comes to when it found nothing recorded, in the tables
  // it leaves. Someone's credential is recorded by then, and the answer is that
  // one if it is for these halves; a denial means it is not, or that reading it
  // back failed; and silence, that minting or the write did.
  ghost predicate FirstHandled(db: Tables, token: TokenId, agent: AgentId, h: Halves, c: Chance, out: Outcome) {
    match out
    case Answer(reply) =>
      && reply.CredentialReply? && reply.agent == agent && token in db.enrollment
      && db.enrollment[token].credential == Some(StoreModel.Credential(h, reply.jwt))
    case Denial(reason) =>
      && reason == "different public halves" && token in db.enrollment
      && db.enrollment[token].credential.Some? && (db.enrollment[token].credential.value.halves != h || c.again)
    case Nothing => c.mint || c.write != 0
  }

  // What a request comes to, from the row first read to the tables it leaves.
  ghost predicate Handled(row: Option<Row>, token: TokenId, p: Packet, c: Chance, db: Tables, out: Outcome) {
    if c.read then out == Nothing
    else if row.None? || !Passes(row.value, token, p, c.now) then
      out.Denial? && Refused(row, token, p, c.now, out.reason)
    else
      var r, h := row.value, Presented(p);
      if p.body.kind == ConfirmationKind then
        out == if r.state.Spent? then Answer(ConfirmationReply(r.agent, true, true)) else Nothing
      else if r.credential.Some? then out == Answer(CredentialReply(r.agent, r.credential.value.jwt))
      else FirstHandled(db, token, r.agent, h, c, out)
  }

  // And what is published of it.
  function Sending(out: Outcome, c: Chance): Option<Reply> {
    if c.publish then None
    else
      match out
      case Nothing => None
      case Denial(_) => if c.deny then None else Some(Denied)
      case Answer(reply) => Some(reply)
  }

  // The same, by the decision made.
  ghost predicate AsDecided(row: Option<Row>, token: TokenId, p: Packet, c: Chance, db: Tables, out: Outcome) {
    if c.read then out == Nothing
    else
      match Decide(row, token, p, c.now)
      case Refuse(reason) => out == Denial(reason)
      case Repeat(_, jwt) => out == Answer(CredentialReply(row.value.agent, jwt))
      case Mint(h) => FirstHandled(db, token, row.value.agent, h, c, out)
      case Ask(_) => out == if row.value.state.Spent? then Answer(Confirmation(row.value)) else Nothing
  }

  lemma HandledAs(row: Option<Row>, token: TokenId, p: Packet, c: Chance)
    ensures forall db, out :: Handled(row, token, p, c, db, out) <==> AsDecided(row, token, p, c, db, out)
  {
    DecidesIff(row, token, p, c.now);
    hide Decide, Refused, Passes, FirstHandled;
    Selfsigned(row, token, p, c.now);
  }

  lemma ExpiredHandled(r: Row, token: TokenId, p: Packet, c: Chance)
    ensures !c.read && c.now >= r.expiresAt ==>
              forall db, out :: Handled(Some(r), token, p, c, db, out) ==> out.Denial?
  {
    if c.now >= r.expiresAt { ExpiredIsRefused(r, token, p, c.now); }
  }

  lemma SilentHandled(db: Tables, token: TokenId, agent: AgentId, h: Halves, c: Chance)
    ensures c.mint || c.write != 0 ==> FirstHandled(db, token, agent, h, c, Nothing)
  {}

  lemma WrittenHandled(db: Tables, token: TokenId, rec: Row, h: Halves, c: Chance)
    requires token in db.enrollment && db.enrollment[token].credential == Some(Minted(rec, h, c))
    ensures FirstHandled(db, token, rec.agent, h, c, Answer(CredentialReply(rec.agent, Minted(rec, h, c).jwt)))
  {}

  lemma RacedHandled(rec: Row, db: Tables, db': Tables, token: TokenId, h: Halves, c: Chance, out: Outcome)
    requires token in db.enrollment && RowForward(rec, db.enrollment[token]) && Forward(db, db')
    requires token in db'.enrollment && db'.enrollment[token].credential.Some?
    requires var won := db'.enrollment[token].credential.value;
             out == if c.again || won.halves != h then Denial("different public halves")
                    else Answer(CredentialReply(db'.enrollment[token].agent, won.jwt))
    ensures FirstHandled(db', token, rec.agent, h, c, out)
  {
    assert RowForward(db.enrollment[token], db'.enrollment[token]);
  }

  // The credential's write, where the row allows it and where it does not.
  lemma CredentialWrite(s: State, id: HandlerId, now: int)
    requires Enabled(s, WriteCredential(id, now))
    ensures var s', x := Next(s, WriteCredential(id, now)), s.server.handlers[id];
            var c := x.credential;
            match StoreModel.RecordCredential(s.db, x.token, c, c.jwt.agent, now)
            case Ok(db) =>
              s'.db == db && Has(s', id, Answering(x.token, c.halves, CredentialReply(c.jwt.agent, c.jwt)))
            case Err(_) => s'.db == s.db && Has(s', id, LostRace(x.token, c.halves))
  {
    hide HostNext, HostEnabled, GateNext, GateEnabled, StoreModel.RecordCredential;
  }

  lemma ActivationWrite(s: State, id: HandlerId, now: int)
    requires Enabled(s, WriteActivation(id, now))
    requires StoreModel.Activate(s.db, s.server.handlers[id].token, s.server.handlers[id].agent, now).Ok?
    ensures var s', x := Next(s, WriteActivation(id, now)), s.server.handlers[id];
            && s'.db == StoreModel.Activate(s.db, x.token, x.agent, now).value && s'.server.hold == s.server.hold
            && (s.server.hold ==> Has(s', id, Reached(x.agent)) && s'.server.writer == s.server.writer)
            && (!s.server.hold ==> id !in s'.server.handlers)
  {
    hide HostNext, HostEnabled, RequestNext, RequestEnabled, StoreModel.Activate;
  }

  lemma HandledStill(row: Option<Row>, token: TokenId, p: Packet, c: Chance, db: Tables, db': Tables, out: Outcome)
    requires Handled(row, token, p, c, db, out) && Forward(db, db')
    ensures Handled(row, token, p, c, db', out)
  {
    hide Passes, Refused;
    if token in db.enrollment { assert RowForward(db.enrollment[token], db'.enrollment[token]); }
  }

  class Service {
    const m: Machine
    const store: Store

    constructor (m: Machine, store: Store)
      ensures this.m == m && this.store == store
    {
      this.m, this.store := m, store;
    }

    ghost predicate Linked()
      reads this, m, store
    {
      m.Valid() && store.View() == m.s.db && Consistent(m.s.db)
    }

    lemma LinkedReachable()
      requires Linked()
      ensures Reachable(m.s)
    {
      AlwaysReachable(m);
    }

    // ---- single steps -------------------------------------------------------

    // Everyone else, while this handler is between two calls. The body is one
    // possibility; OthersKeepHandler shows that whatever steps others take meet
    // the contract.
    method Others(id: HandlerId)
      requires Linked()
      modifies m`s, m`steps, store
      ensures Linked() && SameHandler(old(m.s), m.s, id) && Forward(old(m.s.db), m.s.db)
      ensures old(m.s.db).agents.Keys <= m.s.db.agents.Keys
    {
      ForwardSame(m.s.db);
    }

    method Drop(id: HandlerId)
      requires Linked() && Enabled(m.s, Abandon(id))
      modifies m`s, m`steps
      ensures Linked() && id !in m.s.server.handlers && m.s.db == old(m.s.db) && m.s.server.hold == old(m.s.server.hold)
    {
      m.Do(Abandon(id));
    }

    method Read(id: HandlerId, token: TokenId, p: Packet, c: Chance)
      requires Linked() && Has(m.s, id, Received(token, p))
      modifies m`s, m`steps
      ensures Linked() && m.s.db == old(m.s.db)
      ensures var row := StoreModel.Enrollment(m.s.db, token);
              match Decide(row, token, p, c.now)
              case Refuse(reason) => Has(m.s, id, Denying(token, reason))
              case Mint(h) => row.Some? && Has(m.s, id, Recording(token, Minted(row.value, h, c)))
              case Repeat(h, jwt) =>
                row.Some? && Has(m.s, id, Answering(token, h, CredentialReply(row.value.agent, jwt)))
              case Ask(h) => row.Some? && Has(m.s, id, AtGate(token, h, row.value))
    {
      m.Do(ReadRequest(id, c.now, c.serial));
    }

    // S1's write: recorded here, or recorded first by someone else, or not at all.
    method Record(id: HandlerId, token: TokenId, c: StoreModel.Credential, now: int, fault: Fault)
      returns (w: Result<(), StoreError>)
      requires Linked() && Has(m.s, id, Recording(token, c))
      modifies m`s, m`steps, store
      ensures Linked() && Forward(old(m.s.db), m.s.db)
      ensures w.Ok? ==>
                && Has(m.s, id, Answering(token, c.halves, CredentialReply(c.jwt.agent, c.jwt)))
                && token in m.s.db.enrollment && m.s.db.enrollment[token].credential == Some(c)
                && Audit(CredentialIssued, c.jwt.agent, "issued", now) in m.s.db.audit
      ensures w.Err? && w.error != AlreadyRecorded ==> fault != 0
      ensures w == Err(AlreadyRecorded) ==> Has(m.s, id, LostRace(token, c.halves)) && m.s.db == old(m.s.db)
      ensures w.Err? && w.error != AlreadyRecorded ==> id !in m.s.server.handlers && m.s.db == old(m.s.db)
    {
      hide Runs, After, Forward, OneStage, OnlyRow, OneRecord, Next, Consistent, StoreModel.RecordCredential;
      LinkedReachable();
      RecordingFits(m.s, id);
      ForwardSame(m.s.db);
      w := store.RecordCredential(token, c, c.jwt.agent, now, fault);
      if w.Ok? || w.error == AlreadyRecorded {
        CredentialWrite(m.s, id, now);
        if w.Ok? {
          RecordMoves(m.s.db, token, c, c.jwt.agent, now);
          RecordLogged(m.s.db, token, c, now);
        } else {
          NotRecorded(m.s.db, token, c, now);
        }
        m.Do(WriteCredential(id, now));
      } else {
        Drop(id);
      }
    }

    // A read that fails gives no row, as a token without one does.
    method ReadAfterRace(id: HandlerId, token: TokenId, h: Halves, fault: bool) returns (again: Option<Row>)
      requires Linked() && Has(m.s, id, LostRace(token, h))
      modifies m`s, m`steps
      ensures Linked() && again == if fault then None else StoreModel.Enrollment(m.s.db, token)
      ensures if again.Some? && again.value.credential.Some? && again.value.credential.value.halves == h
              then var reply := CredentialReply(again.value.agent, again.value.credential.value.jwt);
                   Has(m.s, id, Answering(token, h, reply))
              else Has(m.s, id, Denying(token, "different public halves"))
    {
      again := None;
      if !fault { again := store.Enrollment(token); }
      m.Do(ReadAgain(id, fault));
    }

    // ---- S1 and S6 ----------------------------------------------------------

    // The race to record is lost: equal halves get the winner's credential, and
    // others, or a failing read, a denial.
    method Raced(id: HandlerId, token: TokenId, h: Halves, fault: bool) returns (out: Outcome)
      requires Linked() && Has(m.s, id, LostRace(token, h))
      modifies m`s, m`steps, store
      ensures Linked() && Stands(id, token, out) && Forward(old(m.s.db), m.s.db)
      ensures var rows := m.s.db.enrollment;
              && token in rows && rows[token].credential.Some?
              && var won := rows[token].credential.value;
              out == if fault || won.halves != h then Denial("different public halves")
                     else Answer(CredentialReply(rows[token].agent, won.jwt))
    {
      hide Next, Enabled, Runs, After, Consistent, Linked;
      LinkedReachable();
      LostRaceFits(m.s, id);
      Others(id);
      assert RowForward(old(m.s.db).enrollment[token], m.s.db.enrollment[token]);
      var again := ReadAfterRace(id, token, h, fault);
      if again.None? || again.value.credential.None? || again.value.credential.value.halves != h {
        return Denial("different public halves");
      }
      out := Answer(CredentialReply(again.value.agent, again.value.credential.value.jwt));
    }

    // The row the checks passed on may be stale by now: whichever handler wrote
    // first, the credential left standing is the one that is in the store.
    method Credential(id: HandlerId, token: TokenId, rec: Row, h: Halves, c: Chance) returns (out: Outcome)
      requires Linked() && token in m.s.db.enrollment && RowForward(rec, m.s.db.enrollment[token])
      requires if rec.credential.Some?
               then Has(m.s, id, Answering(token, h, CredentialReply(rec.agent, rec.credential.value.jwt)))
               else Has(m.s, id, Recording(token, Minted(rec, h, c)))
      modifies m`s, m`steps, store
      ensures Linked() && Stands(id, token, out) && Forward(old(m.s.db), m.s.db)
      ensures if rec.credential.Some? then out == Answer(CredentialReply(rec.agent, rec.credential.value.jwt))
              else FirstHandled(m.s.db, token, rec.agent, h, c, out)
    {
      hide Next, Enabled, Runs, After, Consistent, Linked, Forward, RowForward, FirstHandled;
      SilentHandled(m.s.db, token, rec.agent, h, c);
      ForwardSame(m.s.db);
      if rec.credential.Some? { return Answer(CredentialReply(rec.agent, rec.credential.value.jwt)); }
      if c.mint {
        Abandonable(m.s, id);
        Drop(id);
        return Nothing;
      }
      ghost var d0 := m.s.db;
      Others(id);
      ghost var d1 := m.s.db;
      var w := Record(id, token, Minted(rec, h, c), c.now, c.write);
      ghost var d2 := m.s.db;
      ForwardOnward(d0, d1, d2);
      if w == Err(AlreadyRecorded) {
        out := Raced(id, token, h, c.again);
        ForwardOnward(d0, d2, m.s.db);
        RacedHandled(rec, d0, m.s.db, token, h, c, out);
        return;
      }
      if w.Err? {
        SilentHandled(d2, token, rec.agent, h, c);
        return Nothing;
      }
      WrittenHandled(d2, token, rec, h, c);
      out := Answer(CredentialReply(rec.agent, Minted(rec, h, c).jwt));
    }

    // Where the handler stands with an outcome still to be sent.
    ghost predicate Stands(id: HandlerId, token: TokenId, out: Outcome)
      reads m
    {
      match out
      case Answer(reply) => exists h :: Has(m.s, id, Answering(token, h, reply))
      case Denial(reason) => Has(m.s, id, Denying(token, reason))
      case Nothing => id !in m.s.server.handlers
    }

    // ---- waiting for the gate -----------------------------------------------

    // Another handler's step, which this one does not notice.
    method OtherStep(step: Step, id: HandlerId)
      requires Linked() && Enabled(m.s, step) && !OfHandler(step, id) && !step.RestartServer?
      requires Next(m.s, step).db == m.s.db
      modifies m`s, m`steps
      ensures Linked() && m.s == Next(old(m.s), step) && SameHandler(old(m.s), m.s, id) && m.s.db == old(m.s.db)
    {
      OthersLeaveHandler(m.s, step, id);
      m.Do(step);
    }

    method WriterReaches(w: HandlerId, agent: AgentId, id: HandlerId)
      requires Linked() && Has(m.s, w, Reached(agent)) && w != id && m.s.server.writer == Some(w)
      modifies m`s, m`steps, store
      ensures Linked() && Has(m.s, w, Holding(agent)) && m.s.server.writer == Some(w)
      ensures SameHandler(old(m.s), m.s, id) && Forward(old(m.s.db), m.s.db) && m.s.db.agents == old(m.s.db).agents
    {
      AppendKeeps(m.s.db, Audit(HoldReached, agent, "reached", 0));
      OthersLeaveHandler(m.s, WriteReached(w, 0), id);
      var _ := store.AppendAuditRecord(Audit(HoldReached, agent, "reached", 0), 0);
      m.Do(WriteReached(w, 0));
    }

    // Blocking until no one holds the gate for writing. What the writer does
    // before it lets go is one possibility; a caller knows only the contract.
    method AwaitWriter(id: HandlerId)
      requires Linked() && id in m.s.server.handlers
               && (m.s.server.handlers[id].AtGate? || m.s.server.handlers[id].Proven?)
      modifies m`s, m`steps, store
      ensures Linked() && SameHandler(old(m.s), m.s, id) && Forward(old(m.s.db), m.s.db) && m.s.server.writer.None?
      ensures old(m.s.db).agents.Keys <= m.s.db.agents.Keys
    {
      hide Runs, After, Consistent, SameHandler, HostNext, HostEnabled, RequestNext, RequestEnabled;
      ForwardSame(m.s.db);
      if m.s.server.writer.None? {
        SameAtOnce(m.s, id);
        return;
      }
      AlwaysReachable(m);
      ReachableLocked(m.s);
      var w := m.s.server.writer.value;
      if m.s.server.handlers[w].Activating? {
        OtherStep(Abandon(w), id);
      } else if m.s.server.handlers[w].Holding? {
        OtherStep(UnlockGate(w), id);
      } else {
        WriterReaches(w, m.s.server.handlers[w].agent, id);
        label Held:
        OtherStep(UnlockGate(w), id);
        SameOnward(old(m.s), old@Held(m.s), m.s, id);
      }
    }

    // Blocking until no one holds the gate at all.
    method AwaitGate(id: HandlerId)
      requires Linked() && id in m.s.server.handlers && m.s.server.handlers[id].Proven?
      modifies m`s, m`steps, store
      ensures Linked() && SameHandler(old(m.s), m.s, id) && Forward(old(m.s.db), m.s.db)
      ensures m.s.server.writer.None? && m.s.server.readers == {}
      ensures old(m.s.db).agents.Keys <= m.s.db.agents.Keys
    {
      AwaitWriter(id);
      while m.s.server.readers != {}
        invariant Linked() && SameHandler(old(m.s), m.s, id) && Forward(old(m.s.db), m.s.db)
        invariant m.s.server.writer.None? && id in m.s.server.handlers && m.s.server.handlers[id].Proven?
        invariant old(m.s.db).agents.Keys <= m.s.db.agents.Keys
        decreases m.s.server.readers
      {
        hide Runs, After, Consistent, Forward;
        AlwaysReachable(m);
        ReachableLocked(m.s);
        var r :| r in m.s.server.readers;
        OtherStep(Abandon(r), id);
      }
    }

    // No confirmation passes while the gate is held.
    method Confirm(id: HandlerId, token: TokenId, rec: Row, h: Halves) returns (out: Outcome)
      requires Linked() && Has(m.s, id, AtGate(token, h, rec))
      modifies m`s, m`steps, store
      ensures Linked() && Stands(id, token, out) && Forward(old(m.s.db), m.s.db)
      ensures out == if rec.state.Spent? then Answer(ConfirmationReply(rec.agent, true, true)) else Nothing
    {
      hide Runs, After, Consistent, Forward;
      AwaitWriter(id);
      ghost var d1 := m.s.db;
      m.Do(EnterGate(id));
      Others(id);
      m.Do(LeaveGate(id));
      ForwardOnward(old(m.s.db), d1, m.s.db);
      if !rec.state.Spent? { return Nothing; }
      assert Has(m.s, id, Answering(token, h, ConfirmationReply(rec.agent, true, true)));
      out := Answer(ConfirmationReply(rec.agent, true, true));
    }

    // ---- S1 to S6 of one request --------------------------------------------

    // One request, decided on the row read first: refused for the first check it
    // fails, or handed on to the credential or the confirmation.
    method Handle(id: HandlerId, token: TokenId, p: Packet, c: Chance) returns (out: Outcome)
      requires Linked() && Has(m.s, id, Received(token, p))
      modifies m`s, m`steps, store
      ensures Linked() && Stands(id, token, out) && Forward(old(m.s.db), m.s.db)
      ensures var rows := old(m.s.db.enrollment);
              var row := if token in rows then Some(rows[token]) else None;
              Handled(row, token, p, c, m.s.db, out)
      ensures !c.read && token in old(m.s.db.enrollment) && c.now >= old(m.s.db.enrollment)[token].expiresAt ==>
                out.Denial?
    {
      hide Next, Enabled, Linked, Runs, After, Consistent, Forward, Handled, FirstHandled, RowForward;
      ghost var found := StoreModel.Enrollment(m.s.db, token);
      HandledAs(found, token, p, c);
      ForwardSame(m.s.db);
      if found.Some? {
        RowSame(found.value);
        ExpiredHandled(found.value, token, p, c);
      }
      if c.read {
        Abandonable(m.s, id);
        Drop(id);
        return Nothing;
      }
      var row := store.Enrollment(token);
      Read(id, token, p, c);
      if row.None? { return Denial("unknown token"); }
      var rec := row.value;
      if !p.RequestPacket? || p.sender != rec.agent || p.token != token { return Denial("malformed request"); }
      if p.body.BadBody? { return Denial("malformed request"); }
      if rec.state.Spent? && p.body.kind != ConfirmationKind { return Denial("token spent"); }
      if c.now >= rec.expiresAt { return Denial("token expired"); }
      if !Complete(p.body) { return Denial("incomplete public halves"); }
      var h := HalvesOf(p.body);
      if p.signer != h.signing { return Denial("request signature"); }
      if rec.credential.Some? && h != rec.credential.value.halves { return Denial("different public halves"); }
      match p.body.kind
      case CredentialKind => out := Credential(id, token, rec, h, c);
      case ConfirmationKind => out := Confirm(id, token, rec, h);
      case OtherKind => return Denial("malformed request");
    }

    method Deny(id: HandlerId, token: TokenId, reason: string, now: int, fault: bool) returns (ok: bool)
      requires Linked() && Has(m.s, id, Denying(token, reason))
      modifies m`s, m`steps, store
      ensures Linked()
      ensures ok <==> !fault
      ensures Forward(old(m.s.db), m.s.db) && m.s.db.enrollment == old(m.s.db).enrollment
      ensures if ok then Recorded(m.s, id, token) && Audit(RequestDenied, token, reason, now) in m.s.db.audit
              else id !in m.s.server.handlers
    {
      ForwardSame(m.s.db);
      AppendKeeps(m.s.db, Audit(RequestDenied, token, reason, now));
      ok := store.AppendAuditRecord(Audit(RequestDenied, token, reason, now), if fault then 1 else 0);
      if ok {
        m.Do(WriteDenial(id, now));
        assert m.s.db.audit[|m.s.db.audit| - 1] == Audit(RequestDenied, token, reason, now);
      } else {
        Drop(id);
      }
    }

    method Publish(id: HandlerId, token: TokenId, reply: Reply)
      requires Linked() && id in m.s.server.handlers
      requires var x := m.s.server.handlers[id];
               (x.Answering? && x.token == token && x.reply == reply)
               || (x.AnsweringDenied? && x.token == token && reply == Denied)
      modifies m`s, m`steps
      ensures Linked() && id !in m.s.server.handlers
      ensures ReplyPacket(token, reply, ServiceKey) in m.s.wire && m.s.db == old(m.s.db)
    {
      m.Do(if m.s.server.handlers[id].Answering? then PublishReply(id) else PublishDenial(id));
    }

    // What is published, from the row first read, what fails and the tables at the
    // end; a denial has its record, for its own reason, even when publishing fails.
    method Respond(id: HandlerId, token: TokenId, p: Packet, c: Chance) returns (sent: Option<Reply>)
      requires Linked() && Has(m.s, id, Received(token, p))
      modifies m`s, m`steps, store
      ensures Linked() && id !in m.s.server.handlers
      ensures sent.Some? ==> ReplyPacket(token, sent.value, ServiceKey) in m.s.wire
      ensures sent.Some? ==> Truthful(store.View(), token, sent.value)
      ensures var rows := old(m.s.db.enrollment);
              var row := if token in rows then Some(rows[token]) else None;
              exists out ::
                && Handled(row, token, p, c, m.s.db, out) && sent == Sending(out, c)
                && (out.Denial? && !c.deny ==> Audit(RequestDenied, token, out.reason, c.now) in m.s.db.audit)
    {
      hide Next, Runs, After, Consistent, Forward, Truthful, Handled;
      ghost var rows := m.s.db.enrollment;
      ghost var row := if token in rows then Some(rows[token]) else None;
      var out := Handle(id, token, p, c);
      ghost var d1 := m.s.db;
      ForwardSame(d1);
      sent := None;
      match out {
        case Nothing => return;
        case Denial(reason) =>
          Others(id);
          ghost var d2 := m.s.db;
          var ok := Deny(id, token, reason, c.now, c.deny);
          ForwardOnward(d1, d2, m.s.db);
          HandledStill(row, token, p, c, d1, m.s.db, out);
          if !ok { return; }
          sent := Some(Denied);
        case Answer(reply) =>
          sent := Some(reply);
      }
      ghost var d3 := m.s.db;
      Others(id);
      LoggedStill(d3, m.s.db);
      ForwardOnward(d1, d3, m.s.db);
      HandledStill(row, token, p, c, d1, m.s.db, out);
      if c.publish {
        Abandonable(m.s, id);
        Drop(id);
        assert Handled(row, token, p, c, m.s.db, out) && Sending(out, c) == None;
        return None;
      }
      Publish(id, token, sent.value);
      AlwaysReachable(m);
      WireIsTruthful(m.s, token, sent.value);
      assert Handled(row, token, p, c, m.s.db, out) && sent == Sending(out, c);
    }

    // ---- S4 -----------------------------------------------------------------

    // Until the record is written nothing else happens here: the gate stays held
    // however many attempts fail, and exactly one record is written.
    method ReachedAfterActivation(id: HandlerId, agent: AgentId, now: int, failures: nat)
      requires Linked() && Has(m.s, id, Reached(agent)) && m.s.server.writer == Some(id)
      modifies m`s, m`steps, store
      ensures Linked() && Has(m.s, id, Holding(agent)) && m.s.server.writer == Some(id)
      ensures Audit(HoldReached, agent, "reached", now) in m.s.db.audit && Forward(old(m.s.db), m.s.db)
    {
      ForwardSame(m.s.db);
      var attempt := 0;
      while true
        invariant attempt <= failures
        invariant Linked() && Has(m.s, id, Reached(agent)) && m.s.server.writer == Some(id)
        invariant Forward(old(m.s.db), m.s.db)
        decreases failures - attempt
      {
        hide Runs, After, Consistent, Forward;
        ghost var d1 := m.s.db;
        AppendKeeps(d1, Audit(HoldReached, agent, "reached", now));
        var fault := if attempt < failures then 1 else 0;
        var ok := store.AppendAuditRecord(Audit(HoldReached, agent, "reached", now), fault);
        if ok {
          m.Do(WriteReached(id, now));
          assert m.s.db.audit[|m.s.db.audit| - 1] == Audit(HoldReached, agent, "reached", now);
          ForwardOnward(old(m.s.db), d1, m.s.db);
          return;
        }
        attempt := attempt + 1;
        Others(id);
        ForwardOnward(old(m.s.db), d1, m.s.db);
      }
    }

    method Prove(id: HandlerId, token: TokenId, agent: AgentId, p: Packet, now: int) returns (proven: bool)
      requires Linked() && Has(m.s, id, Heard(agent, p)) && token in m.s.db.enrollment
               && m.s.db.enrollment[token].agent == agent
      modifies m`s, m`steps
      ensures Linked() && m.s.server.hold == old(m.s.server.hold) && m.s.db == old(m.s.db)
      ensures proven <==> FreshProof(old(m.s.db.enrollment)[token], agent, p, now)
      ensures if proven then Has(m.s, id, if m.s.server.hold then Proven(token, agent) else Activating(token, agent))
              else id !in m.s.server.handlers
    {
      ProvesIff(m.s.db.enrollment[token], agent, p, now);
      proven := Proves(m.s.db.enrollment[token], agent, p, now);
      m.Do(ReadPresence(id, token, now));
    }

    method Lock(id: HandlerId, token: TokenId, agent: AgentId)
      requires Linked() && Has(m.s, id, Proven(token, agent)) && m.s.server.writer.None? && m.s.server.readers == {}
      modifies m`s, m`steps
      ensures Linked() && m.s.server.hold == old(m.s.server.hold) && m.s.db == old(m.s.db)
      ensures Has(m.s, id, Activating(token, agent)) && m.s.server.writer == Some(id)
    {
      m.Do(LockGate(id));
    }

    method ActivateRow(id: HandlerId, token: TokenId, agent: AgentId, now: int, fault: Fault) returns (ok: bool)
      requires Linked() && Has(m.s, id, Activating(token, agent))
      modifies m`s, m`steps, store
      ensures Linked() && m.s.server.hold == old(m.s.server.hold)
      ensures Forward(old(m.s.db), m.s.db)
      ensures ok ==> m.s.server.hold ==> m.s.server.writer == old(m.s.server.writer)
      ensures ok ==> ActivatedAt(m.s.db, agent, now)
      ensures if ok && m.s.server.hold then Has(m.s, id, Reached(agent)) else id !in m.s.server.handlers
      ensures fault == 0 ==> agent in m.s.db.agents
    {
      hide Runs, After, Forward, OneStage, OnlyRow, OneRecord, Next, Consistent, StoreModel.Activate, ActivatedAt;
      LinkedReachable();
      ActivatingFits(m.s, id);
      ForwardSame(m.s.db);
      var w := store.Activate(token, agent, now, fault);
      ok := w.Ok?;
      if ok {
        ActivateMoves(m.s.db, token, agent, now);
        ActivateLogged(m.s.db, token, agent, now);
        ActivationWrite(m.s, id, now);
        m.Do(WriteActivation(id, now));
      } else {
        Drop(id);
      }
    }

    method Unlock(id: HandlerId, agent: AgentId)
      requires Linked() && Has(m.s, id, Holding(agent))
      modifies m`s, m`steps
      ensures Linked() && id !in m.s.server.handlers && m.s.db == old(m.s.db)
    {
      m.Do(UnlockGate(id));
    }

    // A fresh proof of a token's row leaves the agent active, by this handler's
    // write or another's, unless a database call fails; any other envelope changes
    // nothing. With the hold on, the gate is this handler's from before its write
    // until after the record that the hold was reached.
    method OnPresence(id: HandlerId, agent: AgentId, p: Packet, c: Chance, failures: nat) returns (activated: bool)
      requires Linked() && Has(m.s, id, Heard(agent, p))
      modifies m`s, m`steps, store
      ensures Linked() && id !in m.s.server.handlers && Forward(old(m.s.db), m.s.db)
      ensures p.PresencePacket? && (c.now - p.stamp > 120_000 || c.now - p.stamp < -120_000) ==>
                !activated && m.s.db == old(m.s.db)
      ensures !Provable(old(m.s.db), agent, p, c.now) || c.read ==> !activated && m.s.db == old(m.s.db)
      ensures Provable(old(m.s.db), agent, p, c.now) && !c.read && c.write == 0 ==> agent in m.s.db.agents
      ensures activated ==> ActivatedAt(m.s.db, agent, c.now)
      ensures activated && m.s.server.hold ==> Audit(HoldReached, agent, "reached", c.now) in m.s.db.audit
    {
      hide Next, Runs, After, Consistent, Forward, HoldRecorded, Proves, ActivatedAt;
      OneRowEach(m.s.db);
      ForwardSame(m.s.db);
      var found := store.EnrollmentByAgent(agent);
      if found.None? || c.read {
        Abandonable(m.s, id);
        Drop(id);
        return false;
      }
      var token := found.value.0;
      var proven := Prove(id, token, agent, p, c.now);
      if !proven { return false; }
      Others(id);
      if m.s.server.hold {
        ghost var d1 := m.s.db;
        AwaitGate(id);
        ForwardOnward(old(m.s.db), d1, m.s.db);
        Lock(id, token, agent);
        ghost var d2 := m.s.db;
        Others(id);
        ForwardOnward(old(m.s.db), d2, m.s.db);
      }
      ghost var d3 := m.s.db;
      activated := ActivateRow(id, token, agent, c.now, c.write);
      ForwardOnward(old(m.s.db), d3, m.s.db);
      if activated && m.s.server.hold {
        ghost var d4 := m.s.db;
        Others(id);
        ghost var d5 := m.s.db;
        ReachedAfterActivation(id, agent, c.now, failures);
        Unlock(id, agent);
        ForwardOnward(d4, d5, m.s.db);
        ForwardOnward(old(m.s.db), d4, m.s.db);
        ActivatedStill(d4, m.s.db, agent, c.now);
      }
    }
  }

  lemma NotRecorded(db: Tables, token: TokenId, c: StoreModel.Credential, now: int)
    requires token in db.enrollment && (db.enrollment[token].state.Spent? || db.enrollment[token].credential.Some?)
    ensures StoreModel.RecordCredential(db, token, c, c.jwt.agent, now).Err?
  {}

  lemma RecordLogged(db: Tables, token: TokenId, c: StoreModel.Credential, now: int)
    requires StoreModel.RecordCredential(db, token, c, c.jwt.agent, now).Ok?
    ensures var db' := StoreModel.RecordCredential(db, token, c, c.jwt.agent, now).value;
            && Audit(CredentialIssued, c.jwt.agent, "issued", now) in db'.audit
            && token in db'.enrollment && db'.enrollment[token].credential == Some(c)
  {}

  lemma ActivateLogged(db: Tables, token: TokenId, agent: AgentId, now: int)
    requires StoreModel.Activate(db, token, agent, now).Ok? && db.enrollment[token].agent == agent
    ensures var db' := StoreModel.Activate(db, token, agent, now).value;
            ActivatedAt(db', agent, now) && agent in db'.agents
  {
    var db' := StoreModel.Activate(db, token, agent, now).value;
    assert db'.audit[|db.audit|] == Audit(IdentityActivated, agent, "active", now);
  }

  // The agent is active since then, and the log says so.
  ghost predicate ActivatedAt(db: Tables, agent: AgentId, at: int) {
    && agent in db.agents && db.agents[agent].createdAt == at
    && Audit(IdentityActivated, agent, "active", at) in db.audit
  }

  lemma ActivatedStill(db: Tables, db': Tables, agent: AgentId, at: int)
    requires ActivatedAt(db, agent, at) && Forward(db, db')
    ensures ActivatedAt(db', agent, at)
  {
    LoggedStill(db, db');
  }

  lemma LoggedStill(db: Tables, db': Tables)
    requires Forward(db, db')
    ensures forall a :: a in db.audit ==> a in db'.audit
  {
    forall a | a in db.audit
      ensures a in db'.audit
    {
      var i :| 0 <= i < |db.audit| && db.audit[i] == a;
      assert db'.audit[i] == a;
    }
  }

  lemma RowSame(r: Row)
    ensures RowForward(r, r)
  {}

  lemma ForwardSame(db: Tables)
    ensures Forward(db, db)
  {
    assert forall t :: t in db.enrollment ==> RowForward(db.enrollment[t], db.enrollment[t]);
  }

  lemma SameAtOnce(s: State, id: HandlerId)
    ensures SameHandler(s, s, id)
  {}

  lemma SameOnward(a: State, b: State, c: State, id: HandlerId)
    requires SameHandler(a, b, id) && SameHandler(b, c, id)
    ensures SameHandler(a, c, id)
  {}

  // Some token was assigned this agent, and the envelope is its fresh proof.
  ghost predicate Provable(db: Tables, agent: AgentId, p: Packet, now: int) {
    exists t :: t in db.enrollment && db.enrollment[t].agent == agent && FreshProof(db.enrollment[t], agent, p, now)
  }

  lemma Abandonable(s: State, id: HandlerId)
    requires id in s.server.handlers && !s.server.handlers[id].Reached? && !s.server.handlers[id].Holding?
    ensures Enabled(s, Abandon(id))
  {}
}
