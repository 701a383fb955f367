// The gate between S4 and S6. With the after-activation hold on, no confirmation
// of an agent this server process activated leaves it before the record that the
// hold was reached is committed.
module ProtocolGate {
  import opened Common
  import opened StoreModel
  import opened Protocol
  import opened ProtocolInvariant
  import opened ProtocolSteps

  ghost predicate HoldRecorded(log: seq<Audit>, a: AgentId) {
    exists i :: 0 <= i < |log| && log[i].action.HoldReached? && log[i].subject == a
  }

  // Who holds the gate: at most one writer, which is past its proof and has not
  // let go, or readers.
  predicate Locked(v: Server) {
    && (v.writer.Some? ==>
          && v.readers == {}
          && v.writer.value in v.handlers
          && var x := v.handlers[v.writer.value];
             x.Activating? || x.Reached? || x.Holding?)
    && (forall id :: id in v.handlers && (v.handlers[id].Reached? || v.handlers[id].Holding?) ==> v.writer == Some(id))
    && (forall id :: id in v.handlers && v.handlers[id].Activating? && v.hold ==> v.writer == Some(id))
    && (forall id :: id in v.handlers && v.handlers[id].InGate? ==> id in v.readers)
    && (forall id :: id in v.readers ==> id in v.handlers && v.handlers[id].InGate?)
  }

  // The hold of an agent this process activated is on record, or the handler
  // that activated it still keeps the gate to itself.
  ghost predicate HeldOrRecorded(s: State, a: AgentId) {
    || HoldRecorded(s.db.audit, a)
    || (&& s.server.writer.Some? && s.server.writer.value in s.server.handlers
        && s.server.handlers[s.server.writer.value] == Reached(a))
  }

  predicate Confirms(r: Reply, a: AgentId) {
    r.ConfirmationReply? && r.agent == a
  }

  // Any confirmation of the agent, answered or on the wire, has the record behind it.
  ghost predicate Covered(s: State, a: AgentId) {
    && (forall id :: id in s.server.handlers && s.server.handlers[id].Answering?
                     && Confirms(s.server.handlers[id].reply, a)
          ==> HoldRecorded(s.db.audit, a))
    && (forall p :: p in s.wire && p.ReplyPacket? && Confirms(p.reply, a) ==> HoldRecorded(s.db.audit, a))
  }

  ghost predicate Gated(s: State) {
    && Locked(s.server)
    && (s.server.hold ==> forall a :: a in s.server.activatedHere ==> HeldOrRecorded(s, a) && Covered(s, a))
  }

  lemma LockedGateStep(s: State, step: Step)
    requires Locked(s.server) && Enabled(s, step) && OfGate(step)
    ensures Locked(Next(s, step).server)
  {
    hide HostNext, HostEnabled, RequestNext, RequestEnabled;
  }

  lemma LockedRequestStep(s: State, step: Step)
    requires Locked(s.server) && Enabled(s, step) && OfRequest(step)
    ensures Locked(Next(s, step).server)
  {
    assert s.server.writer != Some(step.id) && step.id !in s.server.readers;
    RequestHandlersKeepOut(s, step);
    hide Next;
    KeepsOut(s.server, Next(s, step).server, step.id);
  }

  // A handler that neither holds the gate nor comes to hold it.
  predicate Outside(v: Server, v': Server, id: HandlerId) {
    && v'.hold == v.hold && v'.writer == v.writer && v'.readers == v.readers
    && (forall j :: j in v'.handlers && j != id ==> j in v.handlers && v'.handlers[j] == v.handlers[j])
    && (forall j :: j in v.handlers && j != id ==> j in v'.handlers)
    && (id in v'.handlers ==> var x := v'.handlers[id]; !x.Activating? && !x.Reached? && !x.Holding? && !x.InGate?)
  }

  lemma RequestHandlersKeepOut(s: State, step: Step)
    requires Enabled(s, step) && OfRequest(step) && s.server.writer != Some(step.id) && step.id !in s.server.readers
    ensures Outside(s.server, Next(s, step).server, step.id)
  {
    if step.PublishReply? || step.PublishDenial? { EndersKeepOut(s, step); } else { TurnersKeepOut(s, step); }
  }

  lemma TurnersKeepOut(s: State, step: Step)
    requires Enabled(s, step) && OfRequest(step) && !step.PublishReply? && !step.PublishDenial?
    requires s.server.writer != Some(step.id) && step.id !in s.server.readers
    ensures Outside(s.server, Next(s, step).server, step.id)
  {
    if step.ReceiveRequest? || step.ReadRequest? { FirstTurns(s, step); } else { LaterTurns(s, step); }
  }

  // The handler stands somewhere new, away from the gate, and nothing else of
  // the server changed.
  predicate TurnsAway(v: Server, v': Server, id: HandlerId) {
    && id in v'.handlers && v' == v.(handlers := v.handlers[id := v'.handlers[id]])
    && var x := v'.handlers[id];
    && !x.Activating? && !x.Reached? && !x.Holding? && !x.InGate?
    && (x.Answering? ==> x.reply.CredentialReply?)
  }

  lemma FirstTurns(s: State, step: Step)
    requires Enabled(s, step) && (step.ReceiveRequest? || step.ReadRequest?)
    ensures TurnsAway(s.server, Next(s, step).server, step.id)
  {
    hide HostNext, HostEnabled, GateNext, GateEnabled, Decide;
  }

  lemma LaterTurns(s: State, step: Step)
    requires Enabled(s, step) && (step.WriteCredential? || step.ReadAgain? || step.WriteDenial?)
    ensures TurnsAway(s.server, Next(s, step).server, step.id)
  {
    hide HostNext, HostEnabled, GateNext, GateEnabled, RecordCredential;
  }

  lemma EndersKeepOut(s: State, step: Step)
    requires Enabled(s, step) && (step.PublishReply? || step.PublishDenial?) && s.server.writer != Some(step.id)
             && step.id !in s.server.readers
    ensures Outside(s.server, Next(s, step).server, step.id)
  {
    hide HostNext, HostEnabled, GateNext, GateEnabled;
    assert s.server.readers - {step.id} == s.server.readers;
  }

  lemma KeepsOut(v: Server, v': Server, id: HandlerId)
    requires Locked(v) && Outside(v, v', id) && v.writer != Some(id) && id !in v.readers
    ensures Locked(v')
  {}

  lemma LockedPresenceStep(s: State, step: Step)
    requires Locked(s.server) && Enabled(s, step) && !OfGate(step) && !OfHost(step) && !OfRequest(step)
    ensures Locked(Next(s, step).server)
  {
    if step.WriteActivation? || step.WriteReached? { LockedHolderStep(s, step); } else { LockedHearingStep(s, step); }
  }

  lemma LockedHolderStep(s: State, step: Step)
    requires Locked(s.server) && Enabled(s, step) && (step.WriteActivation? || step.WriteReached?)
    ensures Locked(Next(s, step).server)
  {
    hide HostNext, HostEnabled, RequestNext, RequestEnabled, Activate;
  }

  lemma LockedHearingStep(s: State, step: Step)
    requires Locked(s.server) && Enabled(s, step)
    requires step.Issue? || step.RestartServer? || step.HearPresence? || step.ReadPresence?
    ensures Locked(Next(s, step).server)
  {
    hide HostNext, HostEnabled, RequestNext, RequestEnabled, IssueEnrollment, Proves;
  }

  lemma LockedStep(s: State, step: Step)
    requires Locked(s.server) && Enabled(s, step)
    ensures Locked(Next(s, step).server)
  {
    hide Locked;
    if OfHost(step) {
      HostStepsLeaveServer(s, step);
    } else if OfGate(step) {
      LockedGateStep(s, step);
    } else if OfRequest(step) {
      LockedRequestStep(s, step);
    } else {
      LockedPresenceStep(s, step);
    }
  }

  lemma RecordedGrowsWithLog(log: seq<Audit>, log': seq<Audit>, a: AgentId)
    requires log <= log' && HoldRecorded(log, a)
    ensures HoldRecorded(log', a)
  {
    var i :| 0 <= i < |log| && log[i].action.HoldReached? && log[i].subject == a;
    assert log'[i] == log[i];
  }

  // A confirmation is on the wire or in a handler only for a spent token, so an
  // agent being activated now has none.
  lemma NoneBeforeActivation(s: State, id: HandlerId, now: int)
    requires Core(s) && Enabled(s, WriteActivation(id, now))
    requires Activate(s.db, s.server.handlers[id].token, s.server.handlers[id].agent, now).Ok?
    ensures var a := s.server.handlers[id].agent;
            && (forall j :: j in s.server.handlers && s.server.handlers[j].Answering? ==>
                              !Confirms(s.server.handlers[j].reply, a))
            && (forall p :: p in s.wire && p.ReplyPacket? ==> !Confirms(p.reply, a))
  {
    hide HostNext, HostEnabled, RequestNext, RequestEnabled;
    hide Core;
    var a := s.server.handlers[id].agent;
    CoreHandler(s, id);
    CoreRow(s, s.server.handlers[id].token);
    hide RowOk, RowConsistent, Unissued, SignedHalves, Evidence;
    forall j | j in s.server.handlers && s.server.handlers[j].Answering?
      ensures !Confirms(s.server.handlers[j].reply, a)
    {
      CoreHandler(s, j);
    }
    forall p | p in s.wire && p.ReplyPacket?
      ensures !Confirms(p.reply, a)
    {
      CorePacket(s, p);
    }
  }

  // What a step may add to the confirmations in flight: only a reader of the
  // gate makes one, and it finds the gate without a writer.
  ghost predicate AddsOnly(s: State, s': State, step: Step)
    requires Enabled(s, step)
  {
    && (forall id :: id in s'.server.handlers && s'.server.handlers[id].Answering?
                     && s'.server.handlers[id].reply.ConfirmationReply?
          ==> || (id in s.server.handlers && s'.server.handlers[id] == s.server.handlers[id])
              || (step.LeaveGate? && id == step.id
                  && s.server.handlers[id].row.agent == s'.server.handlers[id].reply.agent))
    && (forall p :: p in s'.wire && p.ReplyPacket? && p !in s.wire
          ==> (step.PublishReply? && p.reply == s.server.handlers[step.id].reply) || p.reply.Denied?)
  }

  lemma HostsConfirmNothing(s: State, step: Step)
    requires Enabled(s, step) && OfHost(step)
    ensures AddsOnly(s, Next(s, step), step)
  {
    HostStepsLeaveServer(s, step);
  }

  lemma RequestsConfirmNothing(s: State, step: Step)
    requires Enabled(s, step) && OfRequest(step)
    ensures AddsOnly(s, Next(s, step), step)
  {
    hide Next, HostEnabled, GateEnabled;
    if step.PublishReply? || step.PublishDenial? {
      AnswersConfirmNothing(s, step);
    } else {
      if step.ReceiveRequest? || step.ReadRequest? { FirstTurns(s, step); } else { LaterTurns(s, step); }
      OtherwiseSilent(s, step);
    }
  }

  lemma AnswersConfirmNothing(s: State, step: Step)
    requires Enabled(s, step) && (step.PublishReply? || step.PublishDenial?)
    ensures AddsOnly(s, Next(s, step), step)
  {
    hide HostNext, HostEnabled, GateNext, GateEnabled;
  }

  lemma GateConfirms(s: State, step: Step)
    requires Enabled(s, step) && OfGate(step)
    ensures AddsOnly(s, Next(s, step), step)
  {
    hide HostNext, HostEnabled, RequestNext, RequestEnabled;
  }

  lemma NewConfirmation(s: State, step: Step)
    requires Enabled(s, step)
    ensures AddsOnly(s, Next(s, step), step)
  {
    if OfHost(step) {
      HostsConfirmNothing(s, step);
    } else if OfGate(step) {
      GateConfirms(s, step);
    } else if OfRequest(step) {
      RequestsConfirmNothing(s, step);
    }
  }

  // An agent is activated here by this process's own activation write, and by nothing else.
  predicate ActivatedNow(s: State, step: Step, a: AgentId)
    requires Enabled(s, step)
  {
    && step.WriteActivation? && a == s.server.handlers[step.id].agent
    && Activate(s.db, s.server.handlers[step.id].token, a, step.now).Ok?
  }

  lemma RequestsActivateNothing(s: State, step: Step)
    requires Enabled(s, step) && OfRequest(step)
    ensures Next(s, step).server.activatedHere == s.server.activatedHere
    ensures Next(s, step).server.hold == s.server.hold
    ensures Next(s, step).server.writer == s.server.writer || Next(s, step).server.writer.None?
    ensures forall id :: id in s.server.handlers && id != step.id ==>
                           id in Next(s, step).server.handlers
                           && Next(s, step).server.handlers[id] == s.server.handlers[id]
    ensures s.server.writer != Some(step.id) ==> Next(s, step).server.writer == s.server.writer
  {
    hide HostNext, HostEnabled, GateNext, GateEnabled, Decide, RecordCredential;
  }

  lemma NewlyActivated(s: State, step: Step)
    requires Enabled(s, step) && Next(s, step).server.hold
    ensures forall a :: a in Next(s, step).server.activatedHere ==>
                          s.server.hold && (a in s.server.activatedHere || ActivatedNow(s, step, a))
    ensures forall a :: ActivatedNow(s, step, a) && s.server.hold ==>
                          Next(s, step).server.handlers[step.id] == Reached(a)
    ensures Next(s, step).server.writer == s.server.writer || OfGate(step) || step.RestartServer?
            || Next(s, step).server.writer.None?
  {
    if OfHost(step) {
      HostStepsLeaveServer(s, step);
    } else if OfRequest(step) {
      RequestsActivateNothing(s, step);
    } else {
      hide HostNext, HostEnabled, RequestNext, RequestEnabled, IssueEnrollment, Proves;
    }
  }

  // The writer of the gate waiting for its record is moved by no step but its own.
  lemma WriterUntouched(s: State, step: Step, w: HandlerId)
    requires Locked(s.server) && Enabled(s, step) && !step.RestartServer? && !step.WriteReached?
    requires s.server.writer == Some(w) && s.server.handlers[w].Reached?
    ensures Next(s, step).server.writer == Some(w)
    ensures w in Next(s, step).server.handlers && Next(s, step).server.handlers[w] == s.server.handlers[w]
  {
    if OfHost(step) {
      HostStepsLeaveServer(s, step);
    } else if OfRequest(step) {
      RequestsActivateNothing(s, step);
      hide Next;
    } else {
      hide HostNext, HostEnabled, RequestNext, RequestEnabled, IssueEnrollment, Proves, Activate;
      assert step.Issue? || step.id != w;
      if OfGate(step) { assert s.server.readers == {}; }
    }
  }

  // The record of a hold only ever goes missing between the activation and the write.
  lemma StillHeld(s: State, step: Step, a: AgentId)
    requires Locked(s.server) && Enabled(s, step) && !step.RestartServer? && !HoldRecorded(s.db.audit, a)
    requires HeldOrRecorded(s, a) && s.db.audit <= Next(s, step).db.audit
    ensures HeldOrRecorded(Next(s, step), a)
  {
    if step.WriteReached? {
      assert step.id == s.server.writer.value;
      assert Next(s, step).db.audit[|s.db.audit|].subject == a;
    } else {
      WriterUntouched(s, step, s.server.writer.value);
      hide Next;
    }
  }

  lemma HeldStep(s: State, step: Step, a: AgentId)
    requires Gated(s) && Enabled(s, step) && Next(s, step).server.hold
    requires s.db.audit <= Next(s, step).db.audit
    requires a in Next(s, step).server.activatedHere
    ensures HeldOrRecorded(Next(s, step), a)
  {
    NewlyActivated(s, step);
    if ActivatedNow(s, step, a) {
      LockedStep(s, step);
    } else if HoldRecorded(s.db.audit, a) {
      RecordedGrowsWithLog(s.db.audit, Next(s, step).db.audit, a);
    } else {
      assert a in s.server.activatedHere;
      StillHeld(s, step, a);
    }
  }

  lemma ConfirmationsOf(s: State, step: Step, a: AgentId)
    requires Core(s) && Gated(s) && Enabled(s, step) && s.server.hold
    requires s.db.audit <= Next(s, step).db.audit
    requires a in s.server.activatedHere || ActivatedNow(s, step, a)
    ensures Covered(Next(s, step), a)
  {
    hide Core, Next, Activate;
    var s' := Next(s, step);
    NewConfirmation(s, step);
    if a !in s.server.activatedHere { NoneBeforeActivation(s, step.id, step.now); }
    if HoldRecorded(s.db.audit, a) {
      RecordedGrowsWithLog(s.db.audit, s'.db.audit, a);
    }
  }

  lemma GatedStep(s: State, step: Step)
    requires Core(s) && Gated(s) && Enabled(s, step)
    ensures Gated(Next(s, step))
  {
    hide Core, Next, Locked, HeldOrRecorded, Covered, ActivatedNow, OneStage, HostGrows;
    var s' := Next(s, step);
    LockedStep(s, step);
    if s'.server.hold {
      NewlyActivated(s, step);
      StepKeeps(s, step);
      forall a | a in s'.server.activatedHere
        ensures HeldOrRecorded(s', a) && Covered(s', a)
      {
        HeldStep(s, step, a);
        ConfirmationsOf(s, step, a);
      }
    }
  }

  lemma {:induction false} GatedRun(s: State, steps: seq<Step>)
    requires Core(s) && Gated(s) && Runs(s, steps)
    ensures Gated(After(s, steps))
    decreases |steps|
  {
    hide Core, Gated;
    if steps != [] {
      StepKeeps(s, steps[0]);
      GatedStep(s, steps[0]);
      GatedRun(Next(s, steps[0]), steps[1..]);
    }
  }

  // In every reachable state the gate has one writer or readers, each where only
  // a holder stands.
  lemma ReachableLocked(s: State)
    requires Reachable(s)
    ensures Locked(s.server)
  {
    var steps :| Runs(INIT, steps) && After(INIT, steps) == s;
    InitCore();
    GatedRun(INIT, steps);
  }

  // The gate's order, in every reachable state of a process whose hold is on: a
  // confirmation answered or published for an agent this process activated
  // follows the committed record of that activation's hold.
  lemma ConfirmedAfterHoldRecorded(s: State, a: AgentId)
    requires Reachable(s) && s.server.hold && a in s.server.activatedHere
    ensures (exists p :: p in s.wire && p.ReplyPacket? && Confirms(p.reply, a))
            || (exists id :: id in s.server.handlers && s.server.handlers[id].Answering?
                             && Confirms(s.server.handlers[id].reply, a))
            ==> HoldRecorded(s.db.audit, a)
    ensures !HoldRecorded(s.db.audit, a) ==>
              && s.server.writer.Some? && s.server.writer.value in s.server.handlers
              && s.server.handlers[s.server.writer.value] == Reached(a)
  {
    var steps :| Runs(INIT, steps) && After(INIT, steps) == s;
    InitCore();
    GatedRun(INIT, steps);
  }
}
