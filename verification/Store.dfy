// The enrollment store as the object the service holds: three tables its methods
// rewrite. A transaction works on copies and commits them together; any call to
// the database may fail, and then nothing of the transaction remains.
module Store {
  import opened Common
  import opened StoreModel

  // Which call of a transaction fails, counting from one; none does when it is zero.
  type Fault = nat

  class Store {
    var enrollment: map<TokenId, Row>
    var agents: map<AgentId, AgentRow>
    var audit: seq<Audit>

    ghost function View(): Tables
      reads this
    {
      Tables(enrollment, agents, audit)
    }

    constructor ()
      ensures View() == EMPTY && Consistent(View())
    {
      enrollment, agents, audit := map[], map[], [];
    }

    method IssueEnrollment(token: TokenId, agent: AgentId, name: string, bootstrapKey: nat,
                           issuedAt: int, expiresAt: int, uid: nat, fault: Fault) returns (r: Result<(), StoreError>)
      modifies this
      ensures old(Consistent(View())) ==> Consistent(View())
      ensures r.Ok? ==>
                var issued := StoreModel.IssueEnrollment(old(View()), token, agent, name, bootstrapKey,
                                                         issuedAt, expiresAt, uid);
                issued == Ok(View())
      ensures r.Err? ==> View() == old(View())
      ensures r.Ok? <==>
                && !(1 <= fault <= 5)
                && !old(token in enrollment || HasAgent(enrollment, agent) || HasBootstrapKey(enrollment, bootstrapKey))
      ensures r == Err(DuplicateEnrollment) <==>
                !(1 <= fault <= 2) && old(token in enrollment || HasAgent(enrollment, agent))
    {
      if fault == 1 { return Err(WriteFailed); } // begin
      if fault == 2 { return Err(WriteFailed); } // count
      if token in enrollment || HasAgent(enrollment, agent) { return Err(DuplicateEnrollment); }
      if fault == 3 || HasBootstrapKey(enrollment, bootstrapKey) { return Err(WriteFailed); }
      var rows := enrollment[token := Row(agent, name, bootstrapKey, Issued, issuedAt, expiresAt, uid, None, None)];
      if fault == 4 { return Err(WriteFailed); }
      var log := audit + [Audit(TokenIssued, agent, "issued", issuedAt)];
      if fault == 5 { return Err(WriteFailed); } // commit
      if Consistent(View()) { IssueKeeps(View(), token, agent, name, bootstrapKey, issuedAt, expiresAt, uid); }
      enrollment, audit := rows, log;
      r := Ok(());
    }

    method Enrollment(token: TokenId) returns (r: Option<Row>)
      ensures r == StoreModel.Enrollment(View(), token)
    {
      r := if token in enrollment then Some(enrollment[token]) else None;
    }

    // The agent column is unique, so there is at most one row to find.
    method EnrollmentByAgent(agent: AgentId) returns (r: Option<(TokenId, Row)>)
      requires UniqueAgents(enrollment)
      ensures r.None? <==> !HasAgent(enrollment, agent)
      ensures r.Some? ==> r.value.0 in enrollment && enrollment[r.value.0] == r.value.1 && r.value.1.agent == agent
      ensures r.Some? ==> forall t :: t in enrollment && enrollment[t].agent == agent ==> t == r.value.0
    {
      if HasAgent(enrollment, agent) {
        var t :| t in enrollment && enrollment[t].agent == agent;
        return Some((t, enrollment[t]));
      }
      r := None;
    }

    method RecordCredential(token: TokenId, c: Credential, target: AgentId, at: int, fault: Fault)
      returns (r: Result<(), StoreError>)
      modifies this
      ensures old(Consistent(View()) && (token in enrollment ==> target == enrollment[token].agent == c.jwt.agent))
              ==> c.jwt.nats == c.halves.nats ==> Consistent(View())
      ensures r.Ok? ==> StoreModel.RecordCredential(old(View()), token, c, target, at) == Ok(View())
      ensures r.Err? ==> View() == old(View())
      ensures r.Ok? <==>
                && !(1 <= fault <= 5)
                && old(token in enrollment && enrollment[token].state.Issued? && enrollment[token].credential.None?)
      ensures r == Err(AlreadyRecorded) <==>
                && !(1 <= fault <= 3)
                && !old(token in enrollment && enrollment[token].state.Issued? && enrollment[token].credential.None?)
    {
      if 1 <= fault <= 3 { return Err(WriteFailed); } // begin, update, count
      if token !in enrollment || enrollment[token].state != Issued || enrollment[token].credential.Some? {
        return Err(AlreadyRecorded);
      }
      var rows := enrollment[token := enrollment[token].(credential := Some(c))];
      if fault == 4 { return Err(WriteFailed); }
      var log := audit + [Audit(CredentialIssued, target, "issued", at)];
      if fault == 5 { return Err(WriteFailed); } // commit
      if Consistent(View()) && target == enrollment[token].agent == c.jwt.agent && c.jwt.nats == c.halves.nats {
        RecordKeeps(View(), token, c, target, at);
      }
      enrollment, audit := rows, log;
      r := Ok(());
    }

    method Activate(token: TokenId, target: AgentId, at: int, fault: Fault) returns (r: Result<(), StoreError>)
      modifies this
      ensures old(Consistent(View()) && (token in enrollment ==> target == enrollment[token].agent)) ==>
                Consistent(View())
      ensures r.Ok? ==> StoreModel.Activate(old(View()), token, target, at) == Ok(View())
      ensures r.Err? ==> View() == old(View())
      ensures r.Ok? <==>
                && !(1 <= fault <= 6)
                && old(token in enrollment && enrollment[token].state.Issued? && enrollment[token].credential.Some?
                       && enrollment[token].agent !in agents)
      ensures r == Err(NoEnrollment) <==> !(1 <= fault <= 2) && token !in old(enrollment)
      ensures r == Err(NotActivatable) <==>
                && !(1 <= fault <= 2)
                && old(token in enrollment && (enrollment[token].state.Spent? || enrollment[token].credential.None?))
    {
      if 1 <= fault <= 2 { return Err(WriteFailed); } // begin, select
      if token !in enrollment { return Err(NoEnrollment); }
      var row := enrollment[token];
      if row.state != Issued || row.credential.None? { return Err(NotActivatable); }
      if fault == 3 || row.agent in agents { return Err(WriteFailed); }
      var active := agents[row.agent := AgentRow(row.credential.value.halves, row.name, at)];
      if fault == 4 { return Err(WriteFailed); }
      var rows := enrollment[token := row.(state := Spent, spentAt := Some(at))];
      if fault == 5 { return Err(WriteFailed); }
      var log := audit + [Audit(IdentityActivated, target, "active", at)];
      if fault == 6 { return Err(WriteFailed); } // commit
      if Consistent(View()) && target == row.agent { ActivateKeeps(View(), token, target, at); }
      enrollment, agents, audit := rows, active, log;
      r := Ok(());
    }

    method AppendAuditRecord(a: Audit, fault: Fault) returns (ok: bool)
      modifies this
      ensures old(Consistent(View())) && (a.action.RequestDenied? || a.action.HoldReached?) ==> Consistent(View())
      ensures ok <==> fault != 1
      ensures View() == if ok then AppendAudit(old(View()), a) else old(View())
    {
      if fault == 1 { return false; }
      if Consistent(View()) && (a.action.RequestDenied? || a.action.HoldReached?) { AppendKeeps(View(), a); }
      audit := audit + [a];
      ok := true;
    }
  }
}
