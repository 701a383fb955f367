// The durable state machine of internal/store: the enrollment, agents and audit
// tables as values, and each store method as one atomic transition on them.
module StoreModel {
  import opened Common

  type TokenId = string
  type AgentId = string

  // Public halves are symbolic. A HostKey is generated on an agent host, a
  // ForeignKey by anyone else, and ServiceKey is the service's signing key.
  datatype Key = HostKey(n: nat) | ForeignKey(n: nat) | ServiceKey

  datatype Halves = Halves(nats: Key, signing: Key, encryption: Key)

  // A minted permanent credential names one agent and one NATS key. Two mints
  // for the same request differ, in their serial.
  datatype Jwt = Jwt(agent: AgentId, nats: Key, serial: nat)

  datatype Credential = Credential(halves: Halves, jwt: Jwt)

  datatype TokenState = Issued | Spent

  datatype Row = Row(
    agent: AgentId,
    name: string,
    bootstrapKey: nat,
    state: TokenState,
    issuedAt: int,
    expiresAt: int,
    issuedBy: nat,
    credential: Option<Credential>,
    spentAt: Option<int>)

  datatype AgentRow = AgentRow(halves: Halves, name: string, createdAt: int)

  datatype Action = TokenIssued | CredentialIssued | IdentityActivated | RequestDenied | HoldReached

  // subject is the audit row's target, or for a denial its correlation identifier.
  datatype Audit = Audit(action: Action, subject: string, result: string, at: int)

  datatype Tables = Tables(
    enrollment: map<TokenId, Row>,
    agents: map<AgentId, AgentRow>,
    audit: seq<Audit>)

  datatype StoreError = DuplicateEnrollment | NoEnrollment | AlreadyRecorded | NotActivatable | WriteFailed

  const EMPTY: Tables := Tables(map[], map[], [])

  // ---- transitions ----------------------------------------------------------

  predicate HasAgent(e: map<TokenId, Row>, a: AgentId) {
    exists t :: t in e && e[t].agent == a
  }

  predicate HasBootstrapKey(e: map<TokenId, Row>, k: nat) {
    exists t :: t in e && e[t].bootstrapKey == k
  }

  function IssueEnrollment(db: Tables, token: TokenId, agent: AgentId, name: string, bootstrapKey: nat,
                           issuedAt: int, expiresAt: int, uid: nat): Result<Tables, StoreError>
  {
    if token in db.enrollment || HasAgent(db.enrollment, agent) then Err(DuplicateEnrollment)
    else if HasBootstrapKey(db.enrollment, bootstrapKey) then Err(WriteFailed)
    else
      var row := Row(agent, name, bootstrapKey, Issued, issuedAt, expiresAt, uid, None, None);
      Ok(db.(
           enrollment := db.enrollment[token := row],
           audit := db.audit + [Audit(TokenIssued, agent, "issued", issuedAt)]))
  }

  function Enrollment(db: Tables, token: TokenId): Option<Row> {
    if token in db.enrollment then Some(db.enrollment[token]) else None
  }

  function RecordCredential(db: Tables, token: TokenId, c: Credential, target: AgentId, at: int)
    : Result<Tables, StoreError>
  {
    if token !in db.enrollment || db.enrollment[token].state != Issued || db.enrollment[token].credential.Some? then
      Err(AlreadyRecorded)
    else
      Ok(db.(
           enrollment := db.enrollment[token := db.enrollment[token].(credential := Some(c))],
           audit := db.audit + [Audit(CredentialIssued, target, "issued", at)]))
  }

  function Activate(db: Tables, token: TokenId, target: AgentId, at: int): Result<Tables, StoreError> {
    if token !in db.enrollment then Err(NoEnrollment)
    else
      var r := db.enrollment[token];
      if r.state != Issued || r.credential.None? then Err(NotActivatable)
      else if r.agent in db.agents then Err(WriteFailed)
      else
        Ok(Tables(
             db.enrollment[token := r.(state := Spent, spentAt := Some(at))],
             db.agents[r.agent := AgentRow(r.credential.value.halves, r.name, at)],
             db.audit + [Audit(IdentityActivated, target, "active", at)]))
  }

  function AppendAudit(db: Tables, a: Audit): Tables {
    db.(audit := db.audit + [a])
  }

  // ---- what every transition keeps ------------------------------------------

  function Count(log: seq<Audit>, action: Action, subject: string): nat {
    if log == [] then 0
    else Count(log[..|log| - 1], action, subject) +
         if log[|log| - 1].action == action && log[|log| - 1].subject == subject then 1 else 0
  }

  lemma CountAppend(log: seq<Audit>, a: Audit, action: Action, subject: string)
    ensures Count(log + [a], action, subject) ==
            Count(log, action, subject) + if a.action == action && a.subject == subject then 1 else 0
  {
    assert (log + [a])[..|log + [a]| - 1] == log;
  }

  predicate UniqueAgents(e: map<TokenId, Row>) {
    forall t, u :: t in e && u in e && e[t].agent == e[u].agent ==> t == u
  }

  // A row, the agents table and the audit log tell one story about an agent.
  ghost predicate RowConsistent(db: Tables, r: Row) {
    && (r.state.Spent? ==> r.credential.Some?)
    && (r.state.Spent? <==> r.spentAt.Some?)
    && (r.state.Spent? <==> r.agent in db.agents)
    && (r.state.Spent? ==>
          && db.agents[r.agent].halves == r.credential.value.halves
          && db.agents[r.agent].name == r.name && r.spentAt == Some(db.agents[r.agent].createdAt))
    && (r.credential.Some? ==> r.credential.value.jwt.agent == r.agent
                               && r.credential.value.jwt.nats == r.credential.value.halves.nats)
    && Count(db.audit, TokenIssued, r.agent) == 1
    && Count(db.audit, CredentialIssued, r.agent) == (if r.credential.Some? then 1 else 0)
    && Count(db.audit, IdentityActivated, r.agent) == (if r.state.Spent? then 1 else 0)
  }

  ghost predicate Unissued(db: Tables, a: AgentId) {
    && a !in db.agents
    && Count(db.audit, TokenIssued, a) == 0
    && Count(db.audit, CredentialIssued, a) == 0
    && Count(db.audit, IdentityActivated, a) == 0
  }

  ghost predicate Consistent(db: Tables) {
    && UniqueAgents(db.enrollment)
    && (forall t :: t in db.enrollment ==> RowConsistent(db, db.enrollment[t]))
    && (forall a: AgentId :: !HasAgent(db.enrollment, a) ==> Unissued(db, a))
  }

  // A row only moves forward: what S0 recorded never changes, a recorded
  // credential never changes, and a spent row stays exactly as it is.
  predicate RowForward(before: Row, after: Row) {
    && before.agent == after.agent && before.name == after.name && before.bootstrapKey == after.bootstrapKey
    && before.issuedAt == after.issuedAt && before.expiresAt == after.expiresAt && before.issuedBy == after.issuedBy
    && (before.credential.Some? ==> after.credential == before.credential)
    && (before.state.Spent? ==> after == before)
  }

  ghost predicate Forward(db: Tables, db': Tables) {
    && (forall t :: t in db.enrollment ==> t in db'.enrollment && RowForward(db.enrollment[t], db'.enrollment[t]))
    && (forall a :: a in db.agents ==> a in db'.agents && db'.agents[a] == db.agents[a])
    && db.audit <= db'.audit
  }

  lemma ForwardOnward(a: Tables, b: Tables, c: Tables)
    requires Forward(a, b) && Forward(b, c)
    ensures Forward(a, c)
  {
    forall t | t in a.enrollment
      ensures t in c.enrollment && RowForward(a.enrollment[t], c.enrollment[t])
    {
      assert RowForward(a.enrollment[t], b.enrollment[t]) && RowForward(b.enrollment[t], c.enrollment[t]);
    }
  }

  // One transition moves a row by at most one stage: it is born issued with
  // nothing recorded, and is spent only from a row with a credential.
  ghost predicate OneStage(db: Tables, db': Tables) {
    && (forall t :: t in db'.enrollment && t !in db.enrollment
          ==> db'.enrollment[t].state == Issued && db'.enrollment[t].credential.None?)
    && (forall t :: t in db.enrollment && t in db'.enrollment && db'.enrollment[t].state.Spent?
          ==> db.enrollment[t].credential.Some?)
  }

  // No row comes or goes, and every other row stays as it is.
  ghost predicate OnlyRow(db: Tables, db': Tables, token: TokenId) {
    && db'.enrollment.Keys == db.enrollment.Keys && token in db.enrollment
    && (forall t :: t in db.enrollment && t != token ==> db'.enrollment[t] == db.enrollment[t])
  }

  // The log gained one record, of this action about this subject at this time.
  ghost predicate OneRecord(db: Tables, db': Tables, action: Action, subject: string, at: int) {
    && |db'.audit| == |db.audit| + 1 && db.audit <= db'.audit
    && db'.audit[|db.audit|].action == action && db'.audit[|db.audit|].subject == subject
    && db'.audit[|db.audit|].at == at
  }

  // What is recorded about another agent, or about none, leaves a row in order.
  lemma RowStays(db: Tables, db': Tables, a: Audit, r: Row)
    requires RowConsistent(db, r) && db'.audit == db.audit + [a]
    requires a.subject != r.agent || a.action.RequestDenied? || a.action.HoldReached?
    requires r.agent in db.agents <==> r.agent in db'.agents
    requires r.agent in db.agents ==> db'.agents[r.agent] == db.agents[r.agent]
    ensures RowConsistent(db', r)
  {
    CountAll(db.audit, a, r.agent);
  }

  lemma RecordedRow(db: Tables, db': Tables, r: Row, c: Credential, at: int)
    requires RowConsistent(db, r) && r.state.Issued? && r.credential.None?
    requires c.jwt.agent == r.agent && c.jwt.nats == c.halves.nats
    requires db'.agents == db.agents && db'.audit == db.audit + [Audit(CredentialIssued, r.agent, "issued", at)]
    ensures RowConsistent(db', r.(credential := Some(c)))
  {
    CountAll(db.audit, Audit(CredentialIssued, r.agent, "issued", at), r.agent);
  }

  lemma SpentRow(db: Tables, db': Tables, r: Row, at: int)
    requires RowConsistent(db, r) && r.state.Issued? && r.credential.Some?
    requires db'.agents == db.agents[r.agent := AgentRow(r.credential.value.halves, r.name, at)]
    requires db'.audit == db.audit + [Audit(IdentityActivated, r.agent, "active", at)]
    ensures RowConsistent(db', r.(state := Spent, spentAt := Some(at)))
  {
    CountAll(db.audit, Audit(IdentityActivated, r.agent, "active", at), r.agent);
  }

  lemma NewRow(db: Tables, db': Tables, r: Row)
    requires Unissued(db, r.agent) && r.state.Issued? && r.credential.None? && r.spentAt.None?
    requires db'.agents == db.agents && db'.audit == db.audit + [Audit(TokenIssued, r.agent, "issued", r.issuedAt)]
    ensures RowConsistent(db', r)
  {
    CountAll(db.audit, Audit(TokenIssued, r.agent, "issued", r.issuedAt), r.agent);
  }

  // One new row, as issued, and the record of it; nothing else changes.
  lemma IssueMoves(db: Tables, token: TokenId, agent: AgentId, name: string, bootstrapKey: nat,
                   issuedAt: int, expiresAt: int, uid: nat)
    requires Consistent(db)
    requires IssueEnrollment(db, token, agent, name, bootstrapKey, issuedAt, expiresAt, uid).Ok?
    ensures var db' := IssueEnrollment(db, token, agent, name, bootstrapKey, issuedAt, expiresAt, uid).value;
            && Forward(db, db') && OneStage(db, db')
            && db'.enrollment.Keys == db.enrollment.Keys + {token} && token !in db.enrollment
            && db'.agents == db.agents && OneRecord(db, db', TokenIssued, agent, issuedAt)
            && var r := db'.enrollment[token];
            && r.agent == agent && r.name == name && r.bootstrapKey == bootstrapKey && r.issuedBy == uid
            && r.issuedAt == issuedAt && r.expiresAt == expiresAt
            && r.state.Issued? && r.credential.None? && r.spentAt.None?
  {
    hide Unissued, UniqueAgents, HasAgent, HasBootstrapKey, Count;
  }

  lemma IssueKeeps(db: Tables, token: TokenId, agent: AgentId, name: string, bootstrapKey: nat,
                   issuedAt: int, expiresAt: int, uid: nat)
    requires Consistent(db)
    requires IssueEnrollment(db, token, agent, name, bootstrapKey, issuedAt, expiresAt, uid).Ok?
    ensures var db' := IssueEnrollment(db, token, agent, name, bootstrapKey, issuedAt, expiresAt, uid).value;
            Consistent(db') && Forward(db, db') && OneStage(db, db')
  {
    IssueMoves(db, token, agent, name, bootstrapKey, issuedAt, expiresAt, uid);
    hide RowConsistent, Unissued, HasBootstrapKey, Forward, OneStage, OnlyRow, OneRecord;
    var db' := IssueEnrollment(db, token, agent, name, bootstrapKey, issuedAt, expiresAt, uid).value;
    var e, e' := db.enrollment, db'.enrollment;
    assert Unissued(db, agent);
    forall t | t in e'
      ensures RowConsistent(db', e'[t])
    {
      if t == token { NewRow(db, db', e'[token]); } else { RowStays(db, db', db'.audit[|db.audit|], e[t]); }
    }
    forall a: AgentId | !HasAgent(e', a)
      ensures Unissued(db', a)
    {
      assert e'[token].agent == agent;
      LessHasAgent(e, e', a);
      UnissuedStays(db, db', db'.audit[|db.audit|], a);
    }
  }

  lemma LessHasAgent(e: map<TokenId, Row>, e': map<TokenId, Row>, a: AgentId)
    requires forall t :: t in e ==> t in e' && e'[t] == e[t]
    ensures HasAgent(e, a) ==> HasAgent(e', a)
  {
    if HasAgent(e, a) {
      var t :| t in e && e[t].agent == a;
      assert e'[t].agent == a;
    }
  }

  lemma UnissuedStays(db: Tables, db': Tables, a: Audit, agent: AgentId)
    requires Unissued(db, agent) && db'.audit == db.audit + [a]
    requires agent in db'.agents ==> agent in db.agents
    requires a.subject != agent || a.action.RequestDenied? || a.action.HoldReached?
    ensures Unissued(db', agent)
  {
    CountAll(db.audit, a, agent);
  }

  lemma CountAll(log: seq<Audit>, a: Audit, subject: string)
    ensures forall action :: Count(log + [a], action, subject) ==
                             Count(log, action, subject) + if a.action == action && a.subject == subject then 1 else 0
  {
    forall action
      ensures Count(log + [a], action, subject) ==
              Count(log, action, subject) + if a.action == action && a.subject == subject then 1 else 0
    {
      CountAppend(log, a, action, subject);
    }
  }

  // The one row gains its credential, and the log the record of it.
  lemma RecordMoves(db: Tables, token: TokenId, c: Credential, target: AgentId, at: int)
    requires Consistent(db) && RecordCredential(db, token, c, target, at).Ok?
    ensures var db' := RecordCredential(db, token, c, target, at).value;
            && Forward(db, db') && OneStage(db, db')
            && OnlyRow(db, db', token) && db'.agents == db.agents && OneRecord(db, db', CredentialIssued, target, at)
            && db.enrollment[token].state.Issued? && db.enrollment[token].credential.None?
            && db'.enrollment[token].state.Issued? && db'.enrollment[token].credential == Some(c)
  {
    hide Unissued, UniqueAgents, HasAgent, Count;
  }

  lemma RecordKeeps(db: Tables, token: TokenId, c: Credential, target: AgentId, at: int)
    requires Consistent(db) && RecordCredential(db, token, c, target, at).Ok?
    requires target == db.enrollment[token].agent == c.jwt.agent && c.jwt.nats == c.halves.nats
    ensures var db' := RecordCredential(db, token, c, target, at).value;
            Consistent(db') && Forward(db, db') && OneStage(db, db')
  {
    var db' := RecordCredential(db, token, c, target, at).value;
    RecordMoves(db, token, c, target, at);
    hide RowConsistent, Unissued, HasAgent, UniqueAgents, OneStage, Forward, OnlyRow, OneRecord;
    RowChangeKeeps(db, db', token);
    OthersUnissued(db, db', db'.audit[|db.audit|]);
    forall t | t in db'.enrollment
      ensures RowConsistent(db', db'.enrollment[t])
    {
      assert RowConsistent(db, db.enrollment[t]);
      if t == token {
        RecordedRow(db, db', db.enrollment[t], c, at);
      } else {
        RowStays(db, db', db'.audit[|db.audit|], db.enrollment[t]);
      }
    }
  }

  lemma RowChangeKeeps(db: Tables, db': Tables, token: TokenId)
    requires token in db.enrollment && db'.enrollment.Keys == db.enrollment.Keys
    requires forall t :: t in db.enrollment ==> db'.enrollment[t].agent == db.enrollment[t].agent
    ensures UniqueAgents(db.enrollment) ==> UniqueAgents(db'.enrollment)
    ensures forall a: AgentId :: HasAgent(db.enrollment, a) <==> HasAgent(db'.enrollment, a)
  {
    forall a: AgentId
      ensures HasAgent(db.enrollment, a) <==> HasAgent(db'.enrollment, a)
    {
      if HasAgent(db.enrollment, a) {
        var t :| t in db.enrollment && db.enrollment[t].agent == a;
        assert t in db'.enrollment && db'.enrollment[t].agent == a;
      }
      if HasAgent(db'.enrollment, a) {
        var t :| t in db'.enrollment && db'.enrollment[t].agent == a;
        assert t in db.enrollment && db.enrollment[t].agent == a;
      }
    }
  }

  // The row is spent as its agent appears, at one time, and the log records it.
  lemma ActivateMoves(db: Tables, token: TokenId, target: AgentId, at: int)
    requires Consistent(db) && Activate(db, token, target, at).Ok?
    requires target == db.enrollment[token].agent
    ensures var db' := Activate(db, token, target, at).value;
            && Forward(db, db') && OneStage(db, db')
            && OnlyRow(db, db', token) && OneRecord(db, db', IdentityActivated, target, at)
            && db'.agents.Keys == db.agents.Keys + {target} && target !in db.agents
            && db.enrollment[token].state.Issued?
            && db'.enrollment[token].state.Spent? && db'.enrollment[token].spentAt == Some(at)
  {
    hide Unissued, UniqueAgents, HasAgent, Count;
  }

  lemma ActivateKeeps(db: Tables, token: TokenId, target: AgentId, at: int)
    requires Consistent(db) && Activate(db, token, target, at).Ok?
    requires target == db.enrollment[token].agent
    ensures var db' := Activate(db, token, target, at).value;
            Consistent(db') && Forward(db, db') && OneStage(db, db')
  {
    var db' := Activate(db, token, target, at).value;
    ActivateMoves(db, token, target, at);
    hide RowConsistent, Unissued, HasAgent, UniqueAgents, OneStage, Forward, OnlyRow, OneRecord;
    RowChangeKeeps(db, db', token);
    OthersUnissued(db, db', db'.audit[|db.audit|]);
    forall t | t in db'.enrollment
      ensures RowConsistent(db', db'.enrollment[t])
    {
      assert RowConsistent(db, db.enrollment[t]);
      if t == token {
        SpentRow(db, db', db.enrollment[t], at);
      } else {
        RowStays(db, db', db'.audit[|db.audit|], db.enrollment[t]);
      }
    }
  }

  // A record about an agent that has a row leaves every agent without one unissued.
  lemma OthersUnissued(db: Tables, db': Tables, a: Audit)
    requires Consistent(db) && HasAgent(db.enrollment, a.subject)
    requires forall b: AgentId :: HasAgent(db.enrollment, b) <==> HasAgent(db'.enrollment, b)
    requires db'.audit == db.audit + [a]
    requires forall b :: b in db'.agents ==> b in db.agents || b == a.subject
    ensures forall b: AgentId :: !HasAgent(db'.enrollment, b) ==> Unissued(db', b)
  {
    forall b: AgentId | !HasAgent(db'.enrollment, b)
      ensures Unissued(db', b)
    {
      assert Unissued(db, b);
      UnissuedStays(db, db', a, b);
    }
  }

  // A record of a denial or of a reached hold says nothing about any row.
  lemma AppendKeeps(db: Tables, a: Audit)
    requires Consistent(db) && (a.action.RequestDenied? || a.action.HoldReached?)
    ensures Consistent(AppendAudit(db, a)) && Forward(db, AppendAudit(db, a)) && OneStage(db, AppendAudit(db, a))
  {
    var db' := AppendAudit(db, a);
    forall t | t in db'.enrollment
      ensures RowConsistent(db', db'.enrollment[t])
    {
      RowStays(db, db', a, db.enrollment[t]);
    }
    forall b: AgentId | !HasAgent(db'.enrollment, b)
      ensures Unissued(db', b)
    {
      UnissuedStays(db, db', a, b);
    }
  }
}
