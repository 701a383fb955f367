// One enrollment run on an agent host: the retry loops of Enroll over the two
// artifact files. Every send, receive and file write is a step of the protocol's
// machine, with anything at all in between, so what holds of every run of the
// machine holds when Enroll returns.
module Agent {
  import opened Common
  import opened StoreModel
  import opened Protocol
  import opened ProtocolInvariant
  import opened ProtocolSteps
  import opened ProtocolSafety
  import opened Machine

  datatype AgentError = Refused | ArtifactUnusable | LocalFault | OtherIdentity

  // A write of an artifact may fail before the file is in place or after.
  datatype WriteFault = NoFault | BeforeRename | AfterRename

  datatype Faults = Faults(keys: WriteFault, bootstrap: bool, identity: WriteFault, ledger: bool, permanent: bool)

  // What a reply does to a process that waits for one.
  function ProcessAfter(x: Process, reply: Reply): Process
    requires x.Requesting? || x.Confirming?
  {
    match reply
    case Denied => Down
    case CredentialReply(_, jwt) =>
      if x.Confirming? then x
      else if jwt.nats == HostKey(x.keys.key) && jwt.agent == x.bundle.agent then Replied(x.bundle, x.keys, jwt)
      else Down
    case ConfirmationReply(_, active, spent) => if x.Confirming? && active && spent then Down else x
  }

  // What a run does and what befalls it, in order: its steps, and the ends of its waits.
  datatype Deed = Did(step: Step) | TimedOut | Expired

  ghost function Acts(deeds: seq<Deed>): seq<Step> {
    if deeds == [] then []
    else
      var last := deeds[|deeds| - 1];
      Acts(deeds[..|deeds| - 1]) + if last.Did? then [last.step] else []
  }

  lemma ActsNext(deeds: seq<Deed>, d: Deed)
    ensures Acts(deeds + [d]) == Acts(deeds) + if d.Did? then [d.step] else []
  {
    assert (deeds + [d])[..|deeds|] == deeds;
  }

  function DeedOf(h: HostId, a: Arrival): Deed {
    match a
    case Message(p) => Did(Receive(h, p))
    case TimerFired => TimedOut
    case DeadlinePassed => Expired
  }

  // ---- what a wait comes to -------------------------------------------------

  // The service's reply to this bundle: signed with its key, for this token, and
  // a denial or about this agent.
  ghost predicate Heeded(b: Bundle, p: Packet) {
    && p.ReplyPacket? && p.signer == ServiceKey && p.token == b.token
    && (p.reply == Denied || (!p.reply.Denied? && p.reply.agent == b.agent))
  }

  ghost predicate Unheeded(h: HostId, b: Bundle, d: Deed) {
    d.Did? && d.step.Receive? && d.step.h == h && !Heeded(b, d.step.packet)
  }

  // The deeds of one wait: whatever else arrived, and then a heeded reply, the
  // timer, or the deadline and the end of the run.
  ghost predicate Waited(h: HostId, b: Bundle, es: seq<Deed>, r: Result<Option<Reply>, AgentError>) {
    match r
    case Ok(None) => es != [] && es[|es| - 1] == TimedOut && AllUnheeded(h, b, es, |es| - 1)
    case Ok(Some(reply)) =>
      && es != [] && AllUnheeded(h, b, es, |es| - 1) && !reply.Denied? && reply.agent == b.agent
      && es[|es| - 1] == Did(Receive(h, ReplyPacket(b.token, reply, ServiceKey)))
    case Err(e) =>
      e == Refused
      && ((es != [] && AllUnheeded(h, b, es, |es| - 1)
           && es[|es| - 1] == Did(Receive(h, ReplyPacket(b.token, Denied, ServiceKey))))
          || (|es| >= 2 && AllUnheeded(h, b, es, |es| - 2)
              && es[|es| - 2] == Expired && es[|es| - 1] == Did(Stop(h))))
  }

  ghost predicate AllUnheeded(h: HostId, b: Bundle, es: seq<Deed>, n: nat)
    requires n <= |es|
  {
    forall i :: 0 <= i < n ==> Unheeded(h, b, es[i])
  }

  lemma AttendedIff(b: Bundle, p: Packet)
    ensures Attended(b, p) <==> Heeded(b, p)
  {}

  // ---- what may follow what -------------------------------------------------

  ghost predicate Arrives(h: HostId, d: Deed) {
    d == TimedOut || d == Expired || (d.Did? && d.step.Receive? && d.step.h == h)
  }

  // S1 and S2: ask, wait, ask again when the timer fires or the reply is no
  // credential; on a credential for these keys write it, and then the ledger.
  ghost predicate AskNext(h: HostId, b: Bundle, key: nat, d: Deed, e: Deed) {
    match d
    case TimedOut => e == Did(SendRequest(h))
    case Expired => e == Did(Stop(h))
    case Did(step) =>
      match step
      case SendRequest(_) => Arrives(h, e)
      case Receive(_, p) =>
        if !Heeded(b, p) then Arrives(h, e)
        else
          (match p.reply
           case Denied => false
           case ConfirmationReply(_, _, _) => e == Did(SendRequest(h))
           case CredentialReply(_, jwt) =>
             jwt.agent == b.agent && jwt.nats == HostKey(key) && (e == Did(WriteIdentity(h)) || e == Did(Stop(h))))
      case WriteIdentity(_) => e == Did(OpenLedger(h)) || e == Did(Stop(h))
      case _ => false
  }

  // S3 to S6: prove, ask, wait, and so again until the confirmation or the end.
  ghost predicate ConfirmNext(h: HostId, b: Bundle, stamp: int, d: Deed, e: Deed) {
    match d
    case TimedOut => e == Did(SendPresence(h, stamp))
    case Expired => e == Did(Stop(h))
    case Did(step) =>
      match step
      case SendPresence(_, _) => e == Did(SendConfirmation(h))
      case SendConfirmation(_) => Arrives(h, e)
      case Receive(_, p) =>
        if !Heeded(b, p) then Arrives(h, e)
        else
          (match p.reply
           case Denied => false
           case CredentialReply(_, _) => e == Did(SendPresence(h, stamp))
           case ConfirmationReply(_, active, spent) => !(active && spent) && e == Did(SendPresence(h, stamp)))
      case _ => false
  }

  ghost predicate Asking(h: HostId, b: Bundle, key: nat, es: seq<Deed>) {
    && es != [] && es[0] == Did(SendRequest(h))
    && forall i :: 0 < i < |es| ==> AskNext(h, b, key, es[i - 1], es[i])
  }

  ghost predicate Proving(h: HostId, b: Bundle, stamp: int, es: seq<Deed>) {
    && es != [] && es[0] == Did(SendPresence(h, stamp))
    && forall i :: 0 < i < |es| ==> ConfirmNext(h, b, stamp, es[i - 1], es[i])
  }

  // Where a round may begin: at the start, or after a wait that calls for one.
  ghost predicate MayAsk(h: HostId, b: Bundle, key: nat, es: seq<Deed>) {
    es == [] || (Asking(h, b, key, es) && AskNext(h, b, key, es[|es| - 1], Did(SendRequest(h))))
  }

  ghost predicate MayProve(h: HostId, b: Bundle, stamp: int, es: seq<Deed>) {
    es == [] || (Proving(h, b, stamp, es) && ConfirmNext(h, b, stamp, es[|es| - 1], Did(SendPresence(h, stamp))))
  }

  lemma AskOne(h: HostId, b: Bundle, key: nat, es: seq<Deed>, d: Deed)
    requires Asking(h, b, key, es) && AskNext(h, b, key, es[|es| - 1], d)
    ensures Asking(h, b, key, es + [d])
  {
    hide AskNext;
  }

  lemma AskBegin(h: HostId, b: Bundle, key: nat, es: seq<Deed>)
    requires MayAsk(h, b, key, es)
    ensures Asking(h, b, key, es + [Did(SendRequest(h))])
  {
    if es != [] { AskOne(h, b, key, es, Did(SendRequest(h))); }
  }

  ghost predicate Kept(h: HostId, ks: seq<Deed>) {
    || ks == [Did(Stop(h))] || ks == [Did(WriteIdentity(h)), Did(Stop(h))]
    || ks == [Did(WriteIdentity(h)), Did(OpenLedger(h))]
  }

  lemma AskKept(h: HostId, b: Bundle, key: nat, es: seq<Deed>, ks: seq<Deed>)
    requires Asking(h, b, key, es) && Kept(h, ks)
    requires AskNext(h, b, key, es[|es| - 1], Did(WriteIdentity(h)))
    requires AskNext(h, b, key, es[|es| - 1], Did(Stop(h)))
    ensures Asking(h, b, key, es + ks)
  {
    AskOne(h, b, key, es, ks[0]);
    if |ks| == 2 {
      AskOne(h, b, key, es + [ks[0]], ks[1]);
      assert es + [ks[0]] + [ks[1]] == es + ks;
    } else {
      assert es + [ks[0]] == es + ks;
    }
  }

  // One more wait keeps the order, and what it came to says what may follow.
  lemma AskWait(h: HostId, b: Bundle, key: nat, es: seq<Deed>, ws: seq<Deed>, r: Result<Option<Reply>, AgentError>)
    requires Asking(h, b, key, es) && es[|es| - 1] == Did(SendRequest(h)) && Waited(h, b, ws, r)
    ensures ws != [] && Asking(h, b, key, es + ws)
    ensures r.Ok? && (r.value.None? || !r.value.value.CredentialReply?) ==> MayAsk(h, b, key, es + ws)
    ensures r.Ok? && r.value.Some? && r.value.value.CredentialReply?
            && r.value.value.jwt.nats == HostKey(key) && r.value.value.jwt.agent == b.agent ==>
              && AskNext(h, b, key, ws[|ws| - 1], Did(WriteIdentity(h)))
              && AskNext(h, b, key, ws[|ws| - 1], Did(Stop(h)))
    ensures r.Ok? && r.value.Some? ==> !r.value.value.Denied? && r.value.value.agent == b.agent
    ensures r.Err? ==> r.error == Refused
  {
    forall i | 0 < i < |es + ws|
      ensures AskNext(h, b, key, (es + ws)[i - 1], (es + ws)[i])
    {
      if i > |es| { assert (es + ws)[i - 1] == ws[i - 1 - |es|]; }
    }
  }

  lemma ProveOne(h: HostId, b: Bundle, stamp: int, es: seq<Deed>, d: Deed)
    requires Proving(h, b, stamp, es) && ConfirmNext(h, b, stamp, es[|es| - 1], d)
    ensures Proving(h, b, stamp, es + [d])
  {
    hide ConfirmNext;
  }

  lemma ProveBegin(h: HostId, b: Bundle, stamp: int, es: seq<Deed>)
    requires MayProve(h, b, stamp, es)
    ensures Proving(h, b, stamp, es + [Did(SendPresence(h, stamp)), Did(SendConfirmation(h))])
  {
    var one := es + [Did(SendPresence(h, stamp))];
    if es != [] { ProveOne(h, b, stamp, es, Did(SendPresence(h, stamp))); }
    ProveOne(h, b, stamp, one, Did(SendConfirmation(h)));
    assert one + [Did(SendConfirmation(h))] == es + [Did(SendPresence(h, stamp)), Did(SendConfirmation(h))];
  }

  lemma ProveWait(h: HostId, b: Bundle, stamp: int, es: seq<Deed>, ws: seq<Deed>,
                  r: Result<Option<Reply>, AgentError>)
    requires Proving(h, b, stamp, es) && es[|es| - 1] == Did(SendConfirmation(h)) && Waited(h, b, ws, r)
    ensures ws != [] && Proving(h, b, stamp, es + ws)
    ensures r.Ok? && (r.value.None? || !Confirmed(r.value.value)) ==> MayProve(h, b, stamp, es + ws)
    ensures r.Ok? && r.value.Some? ==> !r.value.value.Denied?
    ensures r.Ok? && r.value.Some? && Confirmed(r.value.value) <==>
              ws[|ws| - 1] == Did(Receive(h, ReplyPacket(b.token, ConfirmationReply(b.agent, true, true), ServiceKey)))
    ensures r.Err? ==> r.error == Refused
  {
    forall i | 0 < i < |es + ws|
      ensures ConfirmNext(h, b, stamp, (es + ws)[i - 1], (es + ws)[i])
    {
      if i > |es| { assert (es + ws)[i - 1] == ws[i - 1 - |es|]; }
    }
  }

  predicate Confirmed(reply: Reply) {
    reply.ConfirmationReply? && reply.active && reply.spent
  }

  function ProofOf(agent: AgentId, stamp: int, key: nat): Published {
    Published(agent, PresencePacket(agent, stamp, HostKey(key)))
  }

  // A request for this bundle with the three halves of these keys.
  function Asks(b: Bundle, kind: Kind, key: nat): Packet {
    var own := Some(HostKey(key));
    RequestPacket(b.agent, b.token, Protocol.Request(own, own, own, kind), HostKey(key))
  }

  lemma StepGrows(s: State, step: Step)
    requires Reachable(s) && Enabled(s, step)
    ensures Grows(s, Next(s, step))
  {
    hide Next, Enabled, Core;
    ReachableCore(s);
    StepKeeps(s, step);
  }

  // What a message taken off the channel does to the host that waits for it.
  lemma ReceiveMeans(s: State, h: HostId, p: Packet)
    requires Enabled(s, Receive(h, p))
    ensures var x, s' := HostOf(s, h), Next(s, Receive(h, p));
            var b := x.process.bundle;
            && HostOf(s', h) == x.(process := if Heeded(b, p) then ProcessAfter(x.process, p.reply) else x.process)
            && (Heeded(b, p) ==> p in s'.wire)
            && (Heeded(b, p) && x.process.Confirming? && Confirmed(p.reply) ==>
                  Success(h, b.token, x.process.keys.key) in s'.successes)
  {
    hide RequestNext, RequestEnabled, GateNext, GateEnabled;
    AttendedIff(HostOf(s, h).process.bundle, p);
    hide Heeded;
  }

  // Why a run ends without success: the deadline or a denial, a credential for
  // other keys than these, or a write or a connection that failed.
  ghost predicate Because(e: AgentError, s: State, budget: nat, b: Bundle, key: nat, fault: bool) {
    match e
    case Refused => budget == 0 || ReplyPacket(b.token, Denied, ServiceKey) in s.wire
    case OtherIdentity =>
      exists jwt :: ReplyPacket(b.token, CredentialReply(b.agent, jwt), ServiceKey) in s.wire
                    && (jwt.nats != HostKey(key) || jwt.agent != b.agent)
    case LocalFault => fault
    case ArtifactUnusable => false
  }

  lemma BecauseNotMine(s: State, budget: nat, b: Bundle, jwt: Jwt, key: nat, fault: bool)
    requires ReplyPacket(b.token, CredentialReply(b.agent, jwt), ServiceKey) in s.wire
    requires jwt.nats != HostKey(key) || jwt.agent != b.agent
    ensures Because(OtherIdentity, s, budget, b, key, fault)
  {}

  lemma BecauseEnded(s: State, budget: nat, b: Bundle, key: nat, fault: bool)
    ensures budget == 0 || ReplyPacket(b.token, Denied, ServiceKey) in s.wire ==>
              Because(Refused, s, budget, b, key, fault)
    ensures fault ==> Because(LocalFault, s, budget, b, key, fault)
  {}

  predicate Any(faults: Faults) {
    || faults.keys != NoFault || faults.bootstrap || faults.identity != NoFault || faults.ledger || faults.permanent
  }

  lemma BecauseOfAny(e: AgentError, s: State, budget: nat, b: Bundle, key: nat, faults: Faults)
    ensures Because(e, s, budget, b, key, faults.identity != NoFault || faults.ledger) ==>
              Because(e, s, budget, b, key, Any(faults))
    ensures Because(LocalFault, s, budget, b, key, Any(faults)) <==> Any(faults)
    ensures Because(Refused, s, budget, b, key, Any(faults)) <==>
              budget == 0 || ReplyPacket(b.token, Denied, ServiceKey) in s.wire
  {}

  lemma Tail(d0: seq<Deed>, es: seq<Deed>, ws: seq<Deed>)
    ensures d0 + es + ws == d0 + (es + ws) && d0 <= d0 + (es + ws) && (d0 + (es + ws))[|d0|..] == es + ws
  {}

  class Agent {
    const m: Machine
    const h: HostId
    const bundle: Bundle
    var keyFile: Option<KeyFile>
    var idFile: Option<IdentityFile>
    var ledger: bool
    ghost const before: seq<Step>
    ghost var deeds: seq<Deed>
    ghost var seen: set<Packet>
    ghost var shown: set<Published>

    constructor (m: Machine, h: HostId, bundle: Bundle)
      requires HostOf(m.s, h) == BLANK
      ensures this.m == m && this.h == h && this.bundle == bundle && deeds == []
      ensures m.Valid() ==> Linked(Down)
    {
      this.m, this.h, this.bundle := m, h, bundle;
      keyFile, idFile, ledger := None, None, false;
      before, deeds, seen, shown := Mine(m.steps, h), [], {}, {};
    }

    lemma LinkedKnown(p: Process)
      requires Linked(p)
      ensures m.Valid() && seen <= m.s.wire && shown <= m.s.published
    {}

    // The host's steps in the machine's run are the ones done here, and what was
    // sent or received here stays sent.
    ghost predicate InStep()
      reads this, m
    {
      && m.Valid() && Mine(m.steps, h) == before + Acts(deeds)
      && seen <= m.s.wire && shown <= m.s.published
    }

    // And the machine's host has these files, and its process is here.
    ghost predicate Linked(p: Process)
      reads this, m
    {
      InStep()
      && var x := HostOf(m.s, h);
         x.keyFile == keyFile && x.idFile == idFile && x.ledger == ledger && x.process == p
    }

    // ---- single steps -------------------------------------------------------

    method Act(step: Step)
      requires InStep() && OfHost(step) && step.h == h && Enabled(m.s, step)
      modifies m`s, m`steps, this`deeds
      ensures InStep() && m.s == Next(old(m.s), step) && deeds == old(deeds) + [Did(step)]
    {
      hide Next, Enabled, Runs, After, HostGrows;
      MineNext(m.steps, step, h);
      ActsNext(deeds, Did(step));
      AlwaysReachable(m);
      StepGrows(m.s, step);
      m.Do(step);
      deeds := deeds + [Did(step)];
    }

    method Others(ghost p: Process)
      requires Linked(p)
      modifies m`s, m`steps
      ensures Linked(p)
    {
      hide Runs, After, HostGrows;
      m.OthersThanHost(h);
    }

    method Quit(ghost p: Process)
      requires Linked(p) && !p.Down?
      modifies m`s, m`steps, this`deeds
      ensures Linked(Down) && deeds == old(deeds) + [Did(Stop(h))]
    {
      Act(Stop(h));
    }

    method Request(kind: Kind, ghost p: Process)
      requires Linked(p)
      requires if kind == CredentialKind then p.Requesting? else kind == ConfirmationKind && p.Confirming?
      modifies m`s, m`steps, this`deeds, this`seen
      ensures Linked(p) && seen == old(seen) + {Asks(p.bundle, kind, p.keys.key)}
      ensures deeds == old(deeds) + [Did(if kind == CredentialKind then SendRequest(h) else SendConfirmation(h))]
    {
      Act(if kind == CredentialKind then SendRequest(h) else SendConfirmation(h));
      seen := seen + {Asks(p.bundle, kind, p.keys.key)};
    }

    method Presence(stamp: int, ghost p: Process)
      requires Linked(p) && p.Confirming?
      modifies m`s, m`steps, this`deeds, this`shown
      ensures Linked(p) && shown == old(shown) + {ProofOf(p.bundle.agent, stamp, p.keys.key)}
      ensures deeds == old(deeds) + [Did(SendPresence(h, stamp))]
    {
      Act(SendPresence(h, stamp));
      shown := shown + {ProofOf(p.bundle.agent, stamp, p.keys.key)};
    }

    // One receive on the reply channel, whatever ends it.
    method Hear(ghost x: Process) returns (a: Arrival)
      requires Linked(x) && (x.Requesting? || x.Confirming?) && x.bundle == bundle
      modifies m`s, m`steps, m`budget, this`deeds, this`seen
      ensures a.DeadlinePassed? <==> old(m.budget) == 0
      ensures m.budget == if a.DeadlinePassed? then 0 else old(m.budget) - 1
      ensures deeds == old(deeds) + [DeedOf(h, a)] && old(seen) <= seen
      ensures !a.Message? ==> Linked(x)
      ensures a.Message? ==>
                && Linked(if Heeded(bundle, a.packet) then ProcessAfter(x, a.packet.reply) else x)
                && (Heeded(bundle, a.packet) ==> a.packet in seen)
                && (Heeded(bundle, a.packet) && x.Confirming? && Confirmed(a.packet.reply) ==>
                      Success(h, bundle.token, x.keys.key) in m.s.successes)
    {
      hide Runs, After, Next, Enabled, HostGrows, Forward, Heeded, ProcessAfter, Mine, Acts;
      a := m.Arrive(h);
      ActsNext(deeds, DeedOf(h, a));
      if a.Message? {
        ReceiveMeans(old(m.s), h, a.packet);
        if Heeded(bundle, a.packet) { seen := seen + {a.packet}; }
      }
      deeds := deeds + [DeedOf(h, a)];
    }

    method SaveIdentity(keys: KeyFile, jwt: Jwt)
      requires Linked(Replied(bundle, keys, jwt))
      modifies this`idFile, m`s, m`steps, this`deeds
      ensures Linked(IdentityWritten(bundle, keys)) && idFile == Some(IdentityFile(bundle.agent, jwt, keys))
      ensures deeds == old(deeds) + [Did(WriteIdentity(h))]
    {
      Act(WriteIdentity(h));
      idFile := Some(IdentityFile(bundle.agent, jwt, keys));
    }

    method MakeLedger(keys: KeyFile)
      requires Linked(IdentityWritten(bundle, keys))
      modifies this`ledger, m`s, m`steps, this`deeds
      ensures Linked(Confirming(bundle, keys)) && ledger
      ensures deeds == old(deeds) + [Did(OpenLedger(h))]
    {
      Act(OpenLedger(h));
      ledger := true;
    }

    method LookForKeys(newKey: nat)
      requires Linked(Starting(bundle)) && newKey !in m.s.owner
      modifies m`s, m`steps, this`deeds
      ensures Linked(if keyFile.None? then Generated(bundle, newKey)
                     else if keyFile.value.agent == bundle.agent then Keyed(bundle, keyFile.value)
                     else Down)
      ensures deeds == old(deeds) + [Did(ReadKeys(h, newKey))]
    {
      Act(ReadKeys(h, newKey));
    }

    method SaveKeys(newKey: nat)
      requires Linked(Generated(bundle, newKey))
      modifies this`keyFile, m`s, m`steps, this`deeds
      ensures keyFile == Some(KeyFile(bundle.agent, newKey)) && Linked(Keyed(bundle, keyFile.value))
      ensures deeds == old(deeds) + [Did(WriteKeys(h))]
    {
      Act(WriteKeys(h));
      keyFile := Some(KeyFile(bundle.agent, newKey));
    }

    method FindIdentity(keys: KeyFile)
      requires Linked(Keyed(bundle, keys))
      modifies m`s, m`steps, this`deeds
      ensures Linked(if idFile.None? then Requesting(bundle, keys)
                     else if idFile.value.digest == keys && idFile.value.agent == bundle.agent
                     then Confirming(bundle, keys)
                     else Down)
      ensures deeds == old(deeds) + [Did(ReadIdentity(h))]
    {
      Act(ReadIdentity(h));
    }

    method Begin()
      requires Linked(Down) && bundle in m.s.bundles
      modifies m`s, m`steps, this`deeds
      ensures Linked(Starting(bundle)) && m.s.owner == old(m.s.owner)
      ensures deeds == old(deeds) + [Did(StartEnroll(h, bundle))]
    {
      Act(StartEnroll(h, bundle));
    }

    // ---- the run ------------------------------------------------------------

    // A run starts from the artifact on disk or from one it puts there: nothing is
    // sent with keys that a restart would not find again.
    method Keys(newKey: nat, fault: WriteFault) returns (r: Result<KeyFile, AgentError>)
      requires Linked(Starting(bundle)) && newKey !in m.s.owner
      modifies this`keyFile, m`s, m`steps, this`deeds
      ensures r.Ok? ==> Linked(Keyed(bundle, r.value)) && keyFile == Some(r.value) && r.value.agent == bundle.agent
      ensures r.Err? ==> Linked(Down)
      ensures old(keyFile).Some? ==> keyFile == old(keyFile)
      ensures old(keyFile).None? && r.Ok? ==> r.value.key == newKey
      ensures r.Ok? <==> if old(keyFile).Some? then old(keyFile).value.agent == bundle.agent else fault.NoFault?
      ensures r.Err? ==> r.error == if old(keyFile).Some? then ArtifactUnusable else LocalFault
    {
      hide Next, Enabled, Linked, InStep;
      var found := keyFile;
      LookForKeys(newKey);
      if found.Some? { return if found.value.agent == bundle.agent then Ok(found.value) else Err(ArtifactUnusable); }
      Others(Generated(bundle, newKey));
      if fault == BeforeRename {
        Quit(Generated(bundle, newKey));
        return Err(LocalFault);
      }
      SaveKeys(newKey);
      if fault == AfterRename {
        Quit(Keyed(bundle, keyFile.value));
        return Err(LocalFault);
      }
      r := Ok(keyFile.value);
    }

    // What the wait comes to. Other messages move the process nowhere, and the
    // budget bounds how many there can be.
    method Await(ghost x: Process) returns (r: Result<Option<Reply>, AgentError>, ghost ws: seq<Deed>)
      requires Linked(x) && (x.Requesting? || x.Confirming?) && x.bundle == bundle
      modifies m, this`deeds, this`seen
      ensures m.budget <= old(m.budget) && (r.Ok? ==> m.budget < old(m.budget))
      ensures deeds == old(deeds) + ws && Waited(h, bundle, ws, r) && old(seen) <= seen
      ensures r.Err? ==> Linked(Down) && (m.budget == 0 || ReplyPacket(bundle.token, Denied, ServiceKey) in seen)
      ensures r == Ok(None) ==> Linked(x)
      ensures r.Ok? && r.value.Some? ==>
                var reply := r.value.value;
                && Linked(ProcessAfter(x, reply)) && ReplyPacket(bundle.token, reply, ServiceKey) in seen
                && (x.Confirming? && Confirmed(reply) ==> Success(h, bundle.token, x.keys.key) in m.s.successes)
    {
      hide Next, Enabled, Attended, Linked, InStep;
      ws := [];
      while true
        invariant Linked(x) && m.budget <= old(m.budget) && old(seen) <= seen
        invariant deeds == old(deeds) + ws && AllUnheeded(h, bundle, ws, |ws|)
        decreases m.budget
      {
        Others(x);
        var a := Hear(x);
        ws := ws + [DeedOf(h, a)];
        match a
        case DeadlinePassed =>
          Quit(x);
          ws := ws + [Did(Stop(h))];
          return Err(Refused), ws;
        case TimerFired =>
          return Ok(None), ws;
        case Message(p) =>
          AttendedIff(bundle, p);
          if !Attended(bundle, p) { continue; }
          if p.reply.Denied? { return Err(Refused), ws; }
          return Ok(Some(p.reply)), ws;
      }
    }

    // S2: the identity artifact, and then the ledger.
    method Keep(keys: KeyFile, jwt: Jwt, fault: WriteFault, ledgerFault: bool)
      returns (r: Result<IdentityFile, AgentError>, ghost ks: seq<Deed>)
      requires Linked(Replied(bundle, keys, jwt)) && idFile.None?
      modifies this`idFile, this`ledger, m`s, m`steps, this`deeds
      ensures r.Ok? ==> Linked(Confirming(bundle, keys)) && ledger && idFile == Some(r.value)
                        && r.value == IdentityFile(bundle.agent, jwt, keys)
      ensures r.Err? ==> Linked(Down) && r.error == LocalFault && (fault != NoFault || ledgerFault)
      ensures r.Err? ==> ledger == old(ledger)
      ensures r.Err? && idFile.Some? ==> fault == AfterRename || ledgerFault
      ensures deeds == old(deeds) + ks && Kept(h, ks) && seen <= m.s.wire
    {
      hide Next, Enabled, Linked, InStep;
      Others(Replied(bundle, keys, jwt));
      if fault == BeforeRename {
        Quit(Replied(bundle, keys, jwt));
        LinkedKnown(Down);
        return Err(LocalFault), [Did(Stop(h))];
      }
      SaveIdentity(keys, jwt);
      Others(IdentityWritten(bundle, keys));
      if fault == AfterRename || ledgerFault {
        Quit(IdentityWritten(bundle, keys));
        LinkedKnown(Down);
        return Err(LocalFault), [Did(WriteIdentity(h)), Did(Stop(h))];
      }
      MakeLedger(keys);
      LinkedKnown(Confirming(bundle, keys));
      return Ok(idFile.value), [Did(WriteIdentity(h)), Did(OpenLedger(h))];
    }

    // Rounds of one request and one wait, until a reply carries a credential for
    // this agent's own key. Success leaves the artifact and the ledger in place.
    method Credential(keys: KeyFile, fault: WriteFault, ledgerFault: bool) returns (r: Result<IdentityFile, AgentError>)
      requires Linked(Requesting(bundle, keys)) && keyFile == Some(keys) && idFile.None?
      modifies this`idFile, this`ledger, m, this`deeds, this`seen
      ensures r.Ok? ==> Linked(Confirming(bundle, keys)) && idFile == Some(r.value) && ledger
                        && r.value.agent == bundle.agent && r.value.digest == keys
                        && r.value.jwt.nats == HostKey(keys.key)
                        && r.value.jwt.agent == bundle.agent
      ensures r.Err? ==> Linked(Down)
      ensures r.Err? ==>
                r.error != ArtifactUnusable
                && Because(r.error, m.s, m.budget, bundle, keys.key, fault != NoFault || ledgerFault)
      ensures idFile.Some? && !ledger ==> r == Err(LocalFault) && (fault == AfterRename || ledgerFault)
      ensures idFile.None? ==> ledger == old(ledger)
      ensures RequestPacket(bundle.agent, bundle.token,
                            Protocol.Request(Some(HostKey(keys.key)), Some(HostKey(keys.key)), Some(HostKey(keys.key)),
                                             CredentialKind),
                            HostKey(keys.key)) in m.s.wire
      ensures old(deeds) <= deeds && Asking(h, bundle, keys.key, deeds[|old(deeds)|..])
    {
      hide Next, Enabled, Linked, InStep, Asking, Waited, AskNext, Because;
      ghost var es: seq<Deed> := [];
      while true
        invariant Linked(Requesting(bundle, keys)) && idFile.None? && ledger == old(ledger)
        invariant deeds == old(deeds) + es && MayAsk(h, bundle, keys.key, es)
        decreases m.budget
      {
        Request(CredentialKind, Requesting(bundle, keys));
        AskBegin(h, bundle, keys.key, es);
        Tail(old(deeds), es, [Did(SendRequest(h))]);
        es := es + [Did(SendRequest(h))];
        var reply, ws := Await(Requesting(bundle, keys));
        AskWait(h, bundle, keys.key, es, ws, reply);
        Tail(old(deeds), es, ws);
        es := es + ws;
        if reply.Err? {
          LinkedKnown(Down);
          BecauseEnded(m.s, m.budget, bundle, keys.key, fault != NoFault || ledgerFault);
          return Err(reply.error);
        }
        if reply.value.None? || !reply.value.value.CredentialReply? { continue; }
        var jwt := reply.value.value.jwt;
        if jwt.nats != HostKey(keys.key) || jwt.agent != bundle.agent {
          LinkedKnown(Down);
          assert reply.value.value == CredentialReply(bundle.agent, jwt);
          BecauseNotMine(m.s, m.budget, bundle, jwt, keys.key, fault != NoFault || ledgerFault);
          return Err(OtherIdentity);
        }
        ghost var ks;
        r, ks := Keep(keys, jwt, fault, ledgerFault);
        BecauseEnded(m.s, m.budget, bundle, keys.key, fault != NoFault || ledgerFault);
        AskKept(h, bundle, keys.key, es, ks);
        Tail(old(deeds), es, ks);
        return;
      }
    }

    // The identity artifact an earlier run left, or the one S1 and S2 obtain.
    method Identity(keys: KeyFile, faults: Faults) returns (r: Result<IdentityFile, AgentError>)
      requires Linked(Keyed(bundle, keys)) && keyFile == Some(keys)
      modifies this`idFile, this`ledger, m, this`deeds, this`seen
      ensures r.Ok? ==> Linked(Confirming(bundle, keys)) && idFile == Some(r.value)
      ensures r.Ok? ==> r.value.agent == bundle.agent && r.value.digest == keys
      ensures r.Err? ==> Linked(Down)
      ensures if old(idFile).Some? then idFile == old(idFile) && ledger == old(ledger) else r.Ok? ==> ledger
      ensures old(idFile).Some? ==>
                && (r.Ok? <==> old(idFile).value.digest == keys && old(idFile).value.agent == bundle.agent)
                && (r.Err? ==> r.error == ArtifactUnusable)
      ensures old(idFile).None? && r.Err? ==>
                r.error != ArtifactUnusable
                && Because(r.error, m.s, m.budget, bundle, keys.key, faults.identity != NoFault || faults.ledger)
    {
      hide Next, Enabled, Linked, InStep, Because;
      FindIdentity(keys);
      if idFile.None? {
        r := Credential(keys, faults.identity, faults.ledger);
        return;
      }
      if idFile.value.digest != keys || idFile.value.agent != bundle.agent { return Err(ArtifactUnusable); }
      r := Ok(idFile.value);
    }

    // The proof comes first, and again with each round's request, until the
    // confirmation, a denial or the deadline ends it.
    method Confirm(keys: KeyFile, stamp: int) returns (r: Result<(), AgentError>)
      requires Linked(Confirming(bundle, keys))
      modifies m, this`deeds, this`seen, this`shown
      ensures Linked(Down)
      ensures r.Ok? ==> Success(h, bundle.token, keys.key) in m.s.successes
      ensures r.Err? ==>
                r.error == Refused && (m.budget == 0 || ReplyPacket(bundle.token, Denied, ServiceKey) in m.s.wire)
      ensures Published(bundle.agent, PresencePacket(bundle.agent, stamp, HostKey(keys.key))) in m.s.published
      ensures RequestPacket(bundle.agent, bundle.token,
                            Protocol.Request(Some(HostKey(keys.key)), Some(HostKey(keys.key)), Some(HostKey(keys.key)),
                                             ConfirmationKind),
                            HostKey(keys.key)) in m.s.wire
      ensures var n := |old(deeds)|;
              && |deeds| > n + 1 && deeds[..n] == old(deeds) && deeds[n] == Did(SendPresence(h, stamp))
              && Proving(h, bundle, stamp, deeds[n + 1..])
              && (r.Ok? <==> deeds[|deeds| - 1] ==
                               Did(Receive(h, ReplyPacket(bundle.token, ConfirmationReply(bundle.agent, true, true),
                                                          ServiceKey))))
    {
      hide Next, Enabled, Linked, InStep, Proving, Waited, ConfirmNext;
      Presence(stamp, Confirming(bundle, keys));
      ghost var d1 := deeds;
      ghost var es: seq<Deed> := [];
      while true
        invariant Linked(Confirming(bundle, keys)) && ProofOf(bundle.agent, stamp, keys.key) in shown
        invariant deeds == d1 + es && MayProve(h, bundle, stamp, es)
        decreases m.budget
      {
        Others(Confirming(bundle, keys));
        Presence(stamp, Confirming(bundle, keys));
        ProveBegin(h, bundle, stamp, es);
        es := es + [Did(SendPresence(h, stamp)), Did(SendConfirmation(h))];
        Request(ConfirmationKind, Confirming(bundle, keys));
        var reply, ws := Await(Confirming(bundle, keys));
        ProveWait(h, bundle, stamp, es, ws, reply);
        es := es + ws;
        assert deeds[|d1|..] == es && deeds[|deeds| - 1] == ws[|ws| - 1];
        if reply.Err? || (reply.value.Some? && Confirmed(reply.value.value)) { LinkedKnown(Down); }
        if reply.Err? { return Err(reply.error); }
        if reply.value.Some? && Confirmed(reply.value.value) { return Ok(()); }
      }
    }

    // One whole run. What a nil return means is read off the store and the disk,
    // whatever anyone else did meanwhile; an error leaves what an earlier run put
    // on disk as it was, and has its cause.
    method Enroll(newKey: nat, stamp: int, faults: Faults) returns (r: Result<(), AgentError>)
      requires Linked(Down) && bundle in m.s.bundles && newKey !in m.s.owner
      modifies this, m
      ensures Linked(Down)
      ensures old(keyFile).Some? ==> keyFile == old(keyFile)
      ensures old(idFile).Some? ==> idFile == old(idFile) && ledger == old(ledger)
      ensures r.Ok? ==>
                && keyFile.Some? && keyFile.value.agent == bundle.agent
                && idFile.Some? && idFile.value.agent == bundle.agent && idFile.value.digest == keyFile.value
                && (old(idFile).None? ==> ledger)
      ensures r.Ok? ==>
                && bundle.token in m.s.db.enrollment && m.s.db.enrollment[bundle.token].state.Spent?
                && var agent := m.s.db.enrollment[bundle.token].agent;
                   agent in m.s.db.agents && m.s.db.agents[agent].halves == HostHalves(keyFile.value.key)
      ensures r == Err(ArtifactUnusable) <==>
                || (old(keyFile).Some? && old(keyFile).value.agent != bundle.agent)
                || (!faults.bootstrap && keyFile.Some? && old(idFile).Some?
                    && (old(keyFile).Some? || faults.keys.NoFault?)
                    && !(old(idFile).value.digest == keyFile.value && old(idFile).value.agent == bundle.agent))
      ensures r.Err? && !r.error.ArtifactUnusable? ==>
                Because(r.error, m.s, m.budget, bundle, if keyFile.Some? then keyFile.value.key else newKey,
                        Any(faults))
    {
      hide Next, Enabled, Linked, InStep, Because;
      Begin();
      var keys := Keys(newKey, faults.keys);
      if keys.Err? {
        BecauseOfAny(keys.error, m.s, m.budget, bundle, if keyFile.Some? then keyFile.value.key else newKey, faults);
        return Err(keys.error);
      }
      Others(Keyed(bundle, keys.value));
      if faults.bootstrap {
        Quit(Keyed(bundle, keys.value));
        BecauseOfAny(LocalFault, m.s, m.budget, bundle, keys.value.key, faults);
        return Err(LocalFault);
      }
      var identity := Identity(keys.value, faults);
      if identity.Err? {
        BecauseOfAny(identity.error, m.s, m.budget, bundle, keys.value.key, faults);
        return Err(identity.error);
      }
      Others(Confirming(bundle, keys.value));
      if faults.permanent {
        Quit(Confirming(bundle, keys.value));
        BecauseOfAny(LocalFault, m.s, m.budget, bundle, keys.value.key, faults);
        return Err(LocalFault);
      }
      r := Confirm(keys.value, stamp);
      LinkedKnown(Down);
      BecauseOfAny(Refused, m.s, m.budget, bundle, keys.value.key, faults);
      if r.Ok? {
        AlwaysReachable(m);
        SuccessMeansActive(m.s, Success(h, bundle.token, keys.value.key));
      }
    }
  }
}
