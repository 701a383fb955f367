// The agent's ledger and S4. The ledger is opened right after the identity
// artifact is written, but only then: a restart that finds the artifact goes on
// without opening it. So the ledger exists before its token is spent exactly
// when no process stopped in between.
module LedgerOrder {
  import opened Common
  import opened StoreModel
  import opened Protocol
  import opened ProtocolInvariant
  import opened ProtocolSteps
  import opened Recovery

  predicate SpentByHost(s: State, t: TokenId, h: HostId) {
    && t in s.db.enrollment && s.db.enrollment[t].state.Spent? && s.db.enrollment[t].credential.Some?
    && HostsOwn(s, h, s.db.enrollment[t].credential.value.halves)
  }

  // When a host's token is spent, its ledger exists if and only if no process of
  // that host ever stopped between writing the identity artifact and the ledger.
  lemma LedgerBeforeSpentIff(s: State, t: TokenId, h: HostId)
    requires Reachable(s) && SpentByHost(s, t, h)
    ensures HostOf(s, h).ledger <==> !HostOf(s, h).gap
  {
    ReachableCore(s);
    hide PacketOk, PublishedOk, HandlerOk, AnswerOk, SuccessOk, Consistent;
    assert RowOk(s, s.db.enrollment[t]);
    assert HostOk(s, h, HostOf(s, h));
  }

  lemma ReachableOn(s: State, s': State, h: HostId, now: int)
    requires Reachable(s) && Leads(s, s', h, now)
    ensures Reachable(s')
  {
    hide Enabled, Next, Helpful;
    var p :| Runs(INIT, p) && After(INIT, p) == s;
    var q :| Runs(s, q) && After(s, q) == s' && forall i :: 0 <= i < |q| ==> Helpful(q[i], h, now);
    RunsCompose(INIT, p, q);
  }

  lemma ReachableNext(s: State, step: Step)
    requires Reachable(s) && Enabled(s, step)
    ensures Reachable(Next(s, step))
  {
    hide Enabled, Next;
    var p :| Runs(INIT, p) && After(INIT, p) == s;
    var one := [step];
    assert one[1..] == [];
    assert Runs(Next(s, step), one[1..]);
    assert Runs(s, one) && After(s, one) == Next(s, step);
    RunsCompose(INIT, p, one);
  }

  const HOST: HostId := 0
  const BUNDLE: Bundle := Bundle("token", "agent")

  // The first token, and a host that has asked for its credential.
  lemma AskedFirst() returns (s: State)
    ensures Reachable(s) && BUNDLE in s.bundles && BUNDLE.token in s.db.enrollment
    ensures s.db.enrollment[BUNDLE.token] == Row(BUNDLE.agent, "host", 0, Issued, 0, 100, 0, None, None)
    ensures HostOf(s, HOST).process.Requesting? && HostOf(s, HOST).process.bundle == BUNDLE
    ensures s.server == INIT.server
  {
    var start := Issue(BUNDLE.token, BUNDLE.agent, "host", 0, 0, 100, 0);
    var none: seq<Step> := [];
    assert Runs(INIT, none) && After(INIT, none) == INIT;
    assert Enabled(INIT, start);
    ReachableNext(INIT, start);
    var s1 := Next(INIT, start);
    assert s1 == INIT.(db := s1.db, bundles := {BUNDLE});
    assert s1.db.enrollment[BUNDLE.token] == Row(BUNDLE.agent, "host", 0, Issued, 0, 100, 0, None, None);
    ReachableSound(s1);
    assert HostOf(s1, HOST) == BLANK;
    hide Core, Enabled, Next;
    s := Restarted(s1, HOST, BUNDLE, 0);
    ReachableOn(s1, s, HOST, 0);
    LeadsKeeps(s1, s, HOST, 0);
    StillAsking(s);
  }

  // With nothing recorded there is no identity artifact to confirm with.
  lemma StillAsking(s: State)
    requires Reachable(s) && BUNDLE.token in s.db.enrollment && s.db.enrollment[BUNDLE.token].credential.None?
    requires s.db.enrollment[BUNDLE.token].agent == BUNDLE.agent
    requires HostOf(s, HOST).process.Requesting? || HostOf(s, HOST).process.Confirming?
    requires HostOf(s, HOST).process.bundle == BUNDLE
    ensures HostOf(s, HOST).process.Requesting?
  {
    ReachableCore(s);
    hide RowOk, PacketOk, PublishedOk, HandlerOk, AnswerOk, SuccessOk;
    var x := HostOf(s, HOST);
    assert HostOk(s, HOST, x);
    IdentityIsRecorded(s, HOST);
  }

  // An identity artifact carries the credential of every token of its agent.
  lemma IdentityIsRecorded(s: State, h: HostId)
    requires Core(s)
    ensures var x := HostOf(s, h);
            x.idFile.Some? ==> forall u :: u in s.db.enrollment && s.db.enrollment[u].agent == x.idFile.value.agent
                                           ==> s.db.enrollment[u].credential.Some?
  {
    hide RowOk, PacketOk, PublishedOk, HandlerOk, AnswerOk, SuccessOk;
    var x := HostOf(s, h);
    assert HostOk(s, h, x);
    if x.idFile.Some? {
      var t :| RecordedJwt(s.db, t, x.idFile.value.agent, x.idFile.value.jwt);
    }
  }

  // The identity artifact is written, and the ledger is not there yet.
  lemma WrittenFirst(s: State, keys: KeyFile) returns (s': State)
    requires BUNDLE.token in s.db.enrollment
    requires s.db.enrollment[BUNDLE.token] == Row(BUNDLE.agent, "host", 0, Issued, 0, 100, 0, None, None)
    requires HostOf(s, HOST).process == Requesting(BUNDLE, keys) && !HostOf(s, HOST).ledger
    ensures Leads(s, s', HOST, 0) && HostOf(s', HOST).process == IdentityWritten(BUNDLE, keys)
            && !HostOf(s', HOST).ledger
    ensures BUNDLE.token in s'.db.enrollment && s'.db.enrollment[BUNDLE.token].credential.Some?
    ensures s'.db.enrollment[BUNDLE.token].credential.value.halves == HostHalves(keys.key)
  {
    var s1, jwt := CredentialOffered(s, HOST, 0);
    hide Leads, Enabled, Answerable;
    s' := IdentityPut(s1, HOST, jwt, 0);
    Onward(s, s1, s', HOST, 0);
  }

  // A host stopped right after the identity artifact is in place.
  lemma StoppedInTheGap(s: State) returns (s': State)
    requires Reachable(s) && BUNDLE in s.bundles && BUNDLE.token in s.db.enrollment
    requires s.db.enrollment[BUNDLE.token] == Row(BUNDLE.agent, "host", 0, Issued, 0, 100, 0, None, None)
    requires HostOf(s, HOST).process.Requesting? && HostOf(s, HOST).process.bundle == BUNDLE
    requires s.server == INIT.server && !HostOf(s, HOST).ledger
    ensures Reachable(s') && HostOf(s', HOST).gap && BUNDLE in s'.bundles
    ensures BUNDLE.token in s'.db.enrollment && s'.db.enrollment[BUNDLE.token].expiresAt == 100
    ensures MayComplete(s', HOST, BUNDLE)
  {
    var keys := HostOf(s, HOST).process.keys;
    var s4 := WrittenFirst(s, keys);
    hide Leads, Reachable, MayComplete;
    s' := StoppedOnce(s, s4);
    GapIsReached(s, s4, s', keys);
  }

  lemma StoppedOnce(s: State, s4: State) returns (s': State)
    requires Leads(s, s4, HOST, 0) && HostOf(s4, HOST).process.IdentityWritten? && !HostOf(s4, HOST).ledger
    ensures Leads(s, s', HOST, 0) && s'.db == s4.db && s'.owner == s4.owner && HostOf(s', HOST).gap
  {
    hide Leads;
    Then(s, s4, Stop(HOST), HOST, 0);
    s' := Next(s4, Stop(HOST));
  }

  lemma GapIsReached(s: State, s4: State, s': State, keys: KeyFile)
    requires Reachable(s) && Leads(s, s4, HOST, 0) && Leads(s, s', HOST, 0)
    requires BUNDLE in s.bundles && BUNDLE.token in s.db.enrollment && s.db.enrollment[BUNDLE.token].expiresAt == 100
    requires s'.db == s4.db && s'.owner == s4.owner
    requires HostOf(s4, HOST).process == IdentityWritten(BUNDLE, keys)
    requires BUNDLE.token in s4.db.enrollment && s4.db.enrollment[BUNDLE.token].credential.Some?
             && s4.db.enrollment[BUNDLE.token].credential.value.halves == HostHalves(keys.key)
    ensures Reachable(s') && BUNDLE in s'.bundles
    ensures BUNDLE.token in s'.db.enrollment && s'.db.enrollment[BUNDLE.token].expiresAt == 100
    ensures MayComplete(s', HOST, BUNDLE)
  {
    hide Core, Reachable, Leads, HostGrows;
    ReachableSound(s);
    LeadsKeeps(s, s4, HOST, 0);
    LeadsKeeps(s, s', HOST, 0);
    ReachableOn(s, s', HOST, 0);
    CoreHost(s4, HOST);
    assert RowForward(s.db.enrollment[BUNDLE.token], s'.db.enrollment[BUNDLE.token]);
  }

  // The order the ledger is meant to keep fails in a run with one badly placed
  // kill: the agent becomes active, and its host returns success, with no ledger.
  lemma SpentWithoutLedger() returns (s: State)
    ensures Reachable(s) && SpentByHost(s, BUNDLE.token, HOST) && !HostOf(s, HOST).ledger
    ensures exists key :: Success(HOST, BUNDLE.token, key) in s.successes
  {
    var s1 := AskedFirst();
    NoLedgerYet(s1);
    var s2 := StoppedInTheGap(s1);
    ReachableSound(s2);
    var s3, key := Recovers(s2, HOST, BUNDLE, 0);
    s := s3;
    ReachableOn(s2, s, HOST, 0);
    LeadsKeeps(s2, s, HOST, 0);
    hide HostOk, PacketOk, PublishedOk, HandlerOk, AnswerOk, RowOk, Consistent, Leads;
    assert SuccessOk(s, Success(HOST, BUNDLE.token, key));
    assert HostGrows(HostOf(s2, HOST), HostOf(s, HOST));
    LedgerBeforeSpentIff(s, BUNDLE.token, HOST);
  }

  lemma NoLedgerYet(s: State)
    requires Reachable(s) && HostOf(s, HOST).process.Requesting?
    ensures !HostOf(s, HOST).ledger
  {
    ReachableCore(s);
    assert HostOk(s, HOST, HostOf(s, HOST));
  }
}
