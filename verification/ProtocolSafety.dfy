// What holds in every reachable state of the enrollment protocol, under any
// interleaving, loss, duplication, reordering, kill and restart, with any number
// of hosts holding the same bundle.
module ProtocolSafety {
  import opened Common
  import opened StoreModel
  import opened Protocol
  import opened ProtocolInvariant
  import opened ProtocolSteps

  // A token is spent exactly when its agent is active, with the recorded halves,
  // under the name it was issued for and since the moment the token was spent,
  // and no other token assigned that agent. When a host holds the recorded
  // signing key, both of that host's artifacts are in place, the identity
  // artifact carries the recorded credential and is bound to those keys.
  lemma SpentIffActive(s: State, t: TokenId)
    requires Reachable(s) && t in s.db.enrollment
    ensures var r := s.db.enrollment[t];
            && (r.state.Spent? <==> r.agent in s.db.agents)
            && (r.state.Spent? ==> r.credential.Some? && r.spentAt.Some?
                                   && s.db.agents[r.agent] ==
                                      AgentRow(r.credential.value.halves, r.name, r.spentAt.value))
            && (forall u :: u in s.db.enrollment && s.db.enrollment[u].agent == r.agent ==> u == t)
    ensures var r := s.db.enrollment[t];
            r.state.Spent? && r.credential.value.halves.signing.HostKey? ==>
              var key := r.credential.value.halves.signing.n;
              && key in s.owner
              && r.credential.value.halves == HostHalves(key)
              && HostOf(s, s.owner[key]).keyFile == Some(KeyFile(r.agent, key))
              && HostOf(s, s.owner[key]).idFile
                  == Some(IdentityFile(r.agent, r.credential.value.jwt, KeyFile(r.agent, key)))
  {
    ReachableCore(s);
    hide HostOk, PacketOk, PublishedOk, HandlerOk, AnswerOk, SuccessOk;
    assert RowOk(s, s.db.enrollment[t]);
    assert RowConsistent(s.db, s.db.enrollment[t]);
  }

  // Enroll returns nil only once the store holds the token spent and the agent
  // active with the returning host's three halves.
  lemma SuccessMeansActive(s: State, x: Success)
    requires Reachable(s) && x in s.successes
    ensures x.token in s.db.enrollment
    ensures var r := s.db.enrollment[x.token];
            && r.state.Spent? && r.agent in s.db.agents
            && s.db.agents[r.agent].halves == HostHalves(x.key)
            && x.key in s.owner && s.owner[x.key] == x.host
  {
    ReachableCore(s);
    hide HostOk, PacketOk, PublishedOk, HandlerOk, AnswerOk, RowOk;
    assert SuccessOk(s, x);
    assert RowConsistent(s.db, s.db.enrollment[x.token]);
  }

  // Over a whole run, one key set per token, and so one host, ever succeeds.
  lemma OneKeySetPerToken(s: State, x: Success, y: Success)
    requires Reachable(s) && x in s.successes && y in s.successes && x.token == y.token
    ensures x == y
  {
    ReachableCore(s);
    hide HostOk, PacketOk, PublishedOk, HandlerOk, AnswerOk, RowOk, Consistent;
    assert SuccessOk(s, x) && SuccessOk(s, y);
    assert HostHalves(x.key).nats == HostHalves(y.key).nats;
  }

  // Every reply to a token carries the one recorded credential, and answers a
  // request whose halves are the recorded ones.
  lemma RepliesCarryTheRecord(s: State, x: Answered)
    requires Reachable(s) && x in s.answered
    ensures x.token in s.db.enrollment && s.db.enrollment[x.token].credential.Some?
    ensures var r := s.db.enrollment[x.token];
            && r.credential.value.halves == x.halves
            && !x.reply.Denied? && x.reply.agent == r.agent
            && (x.reply.CredentialReply? ==> x.reply.jwt == r.credential.value.jwt)
            && (x.reply.ConfirmationReply? ==> r.state.Spent? && x.reply.active && x.reply.spent)
  {
    ReachableCore(s);
    hide HostOk, PacketOk, PublishedOk, HandlerOk, SuccessOk, RowOk, Consistent;
    assert AnswerOk(s, x.token, x.halves, x.reply);
  }

  // What is recorded stays recorded, in every continuation of every run: a row
  // only moves forward, an active agent never changes, the audit log only grows,
  // and nothing on a host's disk is replaced.
  lemma RecordedNeverChanges(s: State, steps: seq<Step>)
    requires Reachable(s) && Runs(s, steps)
    ensures Forward(s.db, After(s, steps).db)
    ensures forall h :: HostGrows(HostOf(s, h), HostOf(After(s, steps), h))
    ensures s.answered <= After(s, steps).answered && s.successes <= After(s, steps).successes
  {
    ReachableCore(s);
    hide Core;
    RunKeeps(s, steps);
  }

  // No step skips a stage: a row appears issued with nothing recorded, and only
  // a row that already carries a credential becomes spent.
  lemma NeverSkips(s: State, step: Step)
    requires Reachable(s) && Enabled(s, step)
    ensures Forward(s.db, Next(s, step).db) && OneStage(s.db, Next(s, step).db)
  {
    ReachableCore(s);
    hide Core;
    StepKeeps(s, step);
  }

  // The audit log agrees with the rows exactly, in both directions.
  lemma AuditAgrees(s: State, a: AgentId)
    requires Reachable(s)
    ensures var issued := exists t :: t in s.db.enrollment && s.db.enrollment[t].agent == a;
            var recorded := exists t :: t in s.db.enrollment && s.db.enrollment[t].agent == a
                                        && s.db.enrollment[t].credential.Some?;
            var spent := exists t :: t in s.db.enrollment && s.db.enrollment[t].agent == a
                                     && s.db.enrollment[t].state.Spent?;
            && Count(s.db.audit, TokenIssued, a) == (if issued then 1 else 0)
            && Count(s.db.audit, CredentialIssued, a) == (if recorded then 1 else 0)
            && Count(s.db.audit, IdentityActivated, a) == (if spent then 1 else 0)
  {
    ReachableCore(s);
    hide RowOk, HostOk, PacketOk, PublishedOk, HandlerOk, AnswerOk, SuccessOk;
    if HasAgent(s.db.enrollment, a) {
      var t :| t in s.db.enrollment && s.db.enrollment[t].agent == a;
      assert RowConsistent(s.db, s.db.enrollment[t]);
    } else {
      assert Unissued(s.db, a);
    }
  }

  // ---- denials --------------------------------------------------------------

  predicate DenialRecord(log: seq<Audit>, i: nat) {
    i < |log| && log[i].action.RequestDenied?
  }

  // Each denial answered, and each about to be, has a committed record no other has.
  ghost predicate DenialsRecorded(s: State) {
    && (forall i :: i in s.denials ==> DenialRecord(s.db.audit, i))
    && (forall id :: id in s.server.handlers && s.server.handlers[id].AnsweringDenied? ==>
          var x := s.server.handlers[id];
          DenialRecord(s.db.audit, x.record) && s.db.audit[x.record].subject == x.token && x.record !in s.denials)
    && (forall i, j :: i in s.server.handlers && j in s.server.handlers && i != j
          && s.server.handlers[i].AnsweringDenied? && s.server.handlers[j].AnsweringDenied?
          ==> s.server.handlers[i].record != s.server.handlers[j].record)
    && (forall t :: ReplyPacket(t, Denied, ServiceKey) in s.wire ==> HasDenial(s, t))
  }

  ghost predicate HasDenial(s: State, t: TokenId) {
    exists i :: i in s.denials && DenialRecord(s.db.audit, i) && s.db.audit[i].subject == t
  }

  // The wire gains a denial only when one is published.
  lemma OtherStepsSendNoDenial(s: State, step: Step)
    requires Core(s) && Enabled(s, step) && !step.PublishDenial?
    ensures forall t :: ReplyPacket(t, Denied, ServiceKey) in Next(s, step).wire ==>
                          ReplyPacket(t, Denied, ServiceKey) in s.wire
  {
    hide Core;
    if OfHost(step) {
      HostsSendNoDenial(s, step);
    } else if step.PublishReply? {
      CoreHandler(s, step.id);
      RepliesSendNoDenial(s, step.id);
    } else {
      OtherwiseSilent(s, step);
    }
  }

  lemma HostsSendNoDenial(s: State, step: Step)
    requires Enabled(s, step) && OfHost(step)
    ensures forall t, r, k :: ReplyPacket(t, r, k) in Next(s, step).wire ==> ReplyPacket(t, r, k) in s.wire
  {
    hide RequestNext, RequestEnabled, GateNext, GateEnabled;
  }

  lemma RepliesSendNoDenial(s: State, id: HandlerId)
    requires Enabled(s, PublishReply(id)) && HandlerOk(s, s.server.handlers[id])
    ensures forall t :: ReplyPacket(t, Denied, ServiceKey) in Next(s, PublishReply(id)).wire ==>
                          ReplyPacket(t, Denied, ServiceKey) in s.wire
  {
    hide HostNext, HostEnabled, GateNext, GateEnabled, ReplyOk;
  }

  lemma OtherStepsAnswerNoDenial(s: State, step: Step)
    requires Enabled(s, step) && !step.WriteDenial? && !step.PublishDenial?
    ensures var s' := Next(s, step);
            && s'.denials == s.denials
            && forall id :: id in s'.server.handlers && s'.server.handlers[id].AnsweringDenied?
                 ==> id in s.server.handlers && s'.server.handlers[id] == s.server.handlers[id]
  {
    if OfHost(step) {
      HostStepsLeaveServer(s, step);
    } else if OfRequest(step) {
      RequestsAnswerNoDenial(s, step);
    } else {
      hide HostNext, HostEnabled, RequestNext, RequestEnabled;
    }
  }

  lemma RequestsAnswerNoDenial(s: State, step: Step)
    requires Enabled(s, step) && OfRequest(step) && !step.WriteDenial? && !step.PublishDenial?
    ensures var s' := Next(s, step);
            && s'.denials == s.denials
            && forall id :: id in s'.server.handlers && s'.server.handlers[id].AnsweringDenied?
                 ==> id in s.server.handlers && s'.server.handlers[id] == s.server.handlers[id]
  {
    hide HostNext, HostEnabled, GateNext, GateEnabled, Decide;
  }

  // Committed records stay where they are, so what they record stays recorded.
  lemma DenialsKept(s: State, s': State)
    requires DenialsRecorded(s) && s.db.audit <= s'.db.audit && s'.denials == s.denials
    requires forall id :: id in s'.server.handlers && s'.server.handlers[id].AnsweringDenied? ==>
                            id in s.server.handlers && s'.server.handlers[id] == s.server.handlers[id]
    requires forall t :: ReplyPacket(t, Denied, ServiceKey) in s'.wire ==> ReplyPacket(t, Denied, ServiceKey) in s.wire
    ensures DenialsRecorded(s')
  {
    forall t | ReplyPacket(t, Denied, ServiceKey) in s'.wire
      ensures HasDenial(s', t)
    {
      HasDenialStill(s, s', t);
    }
    hide HasDenial;
  }

  lemma HasDenialStill(s: State, s': State, t: TokenId)
    requires HasDenial(s, t) && s.db.audit <= s'.db.audit && s.denials <= s'.denials
    ensures HasDenial(s', t)
  {
    var i :| i in s.denials && DenialRecord(s.db.audit, i) && s.db.audit[i].subject == t;
    assert i in s'.denials && DenialRecord(s'.db.audit, i) && s'.db.audit[i].subject == t;
  }

  lemma DenialWritten(s: State, id: HandlerId, now: int)
    requires DenialsRecorded(s) && Enabled(s, WriteDenial(id, now))
    ensures DenialsRecorded(Next(s, WriteDenial(id, now)))
  {
    hide HostNext, HostEnabled, GateNext, GateEnabled, HasDenial;
    var s' := Next(s, WriteDenial(id, now));
    forall t | ReplyPacket(t, Denied, ServiceKey) in s'.wire
      ensures HasDenial(s', t)
    {
      HasDenialStill(s, s', t);
    }
  }

  lemma DenialPublished(s: State, id: HandlerId)
    requires DenialsRecorded(s) && Enabled(s, PublishDenial(id))
    ensures DenialsRecorded(Next(s, PublishDenial(id)))
  {
    hide HostNext, HostEnabled, GateNext, GateEnabled;
    var s' := Next(s, PublishDenial(id));
    var x := s.server.handlers[id];
    assert x.record in s'.denials && DenialRecord(s'.db.audit, x.record);
    hide HasDenial;
    forall t | ReplyPacket(t, Denied, ServiceKey) in s'.wire
      ensures HasDenial(s', t)
    {
      if t != x.token { HasDenialStill(s, s', t); }
    }
  }

  lemma DenialsStep(s: State, step: Step)
    requires Core(s) && DenialsRecorded(s) && Enabled(s, step)
    ensures DenialsRecorded(Next(s, step))
  {
    if step.WriteDenial? {
      DenialWritten(s, step.id, step.now);
    } else if step.PublishDenial? {
      DenialPublished(s, step.id);
    } else {
      hide Core, DenialsRecorded, Enabled, Next, OneStage, HostGrows;
      StepKeeps(s, step);
      OtherStepsAnswerNoDenial(s, step);
      OtherStepsSendNoDenial(s, step);
      DenialsKept(s, Next(s, step));
    }
  }

  lemma {:induction false} DenialsRun(s: State, steps: seq<Step>)
    requires Core(s) && DenialsRecorded(s) && Runs(s, steps)
    ensures DenialsRecorded(After(s, steps))
    decreases |steps|
  {
    if steps != [] {
      StepKeeps(s, steps[0]);
      DenialsStep(s, steps[0]);
      DenialsRun(Next(s, steps[0]), steps[1..]);
    }
  }

  lemma ReachableDenials(s: State)
    requires Reachable(s)
    ensures DenialsRecorded(s)
  {
    var steps :| Runs(INIT, steps) && After(INIT, steps) == s;
    InitCore();
    DenialsRun(INIT, steps);
  }

  // Every denial on the wire has its own committed record, of that token.
  lemma DenialOnWireIsRecorded(s: State, t: TokenId)
    requires Reachable(s) && ReplyPacket(t, Denied, ServiceKey) in s.wire
    ensures exists i :: i in s.denials && DenialRecord(s.db.audit, i) && s.db.audit[i].subject == t
  {
    ReachableDenials(s);
    assert HasDenial(s, t);
  }

  // Answering a denial: its record is already committed, no earlier denial used
  // that record, and neither writing the record nor answering changes a row.
  lemma DenialFollowsItsRecord(s: State, id: HandlerId, now: int)
    requires Reachable(s) && id in s.server.handlers
    ensures Enabled(s, PublishDenial(id)) ==>
              var x := s.server.handlers[id];
              && DenialRecord(s.db.audit, x.record) && s.db.audit[x.record].subject == x.token
              && x.record !in s.denials && Next(s, PublishDenial(id)).denials == s.denials + {x.record}
              && Next(s, PublishDenial(id)).db == s.db
    ensures Enabled(s, WriteDenial(id, now)) ==>
              && Next(s, WriteDenial(id, now)).db.enrollment == s.db.enrollment
              && Next(s, WriteDenial(id, now)).db.agents == s.db.agents
              && DenialRecord(Next(s, WriteDenial(id, now)).db.audit, |s.db.audit|)
  {
    ReachableDenials(s);
    hide Reachable, HostNext, HostEnabled, GateNext, GateEnabled, HasDenial;
  }
}
