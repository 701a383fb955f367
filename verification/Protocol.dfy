// The one-use enrollment protocol as a step machine. The parties are the issuer
// and the enrollment service over one store, any number of agent hosts, and a
// broker that may lose, duplicate and reorder what is published on it. A step
// ends wherever another party may act: at a store call, at the confirmation
// gate, at a file write, at a send and at a receive. Every choice the
// environment makes is an argument of the step.
module Protocol {
  import opened Common
  import opened StoreModel

  type HostId = nat
  type HandlerId = nat

  // ---- what travels ---------------------------------------------------------

  datatype Kind = CredentialKind | ConfirmationKind | OtherKind

  datatype RequestBody =
    | BadBody
    | Request(nats: Option<Key>, signing: Option<Key>, encryption: Option<Key>, kind: Kind)

  datatype Reply =
    | Denied
    | CredentialReply(agent: AgentId, jwt: Jwt)
    | ConfirmationReply(agent: AgentId, active: bool, spent: bool)

  // An envelope with the key its signature verifies under. Junk is anything that
  // does not decode, or is of a class no one here handles.
  datatype Packet =
    | Junk
    | RequestPacket(sender: AgentId, token: TokenId, body: RequestBody, signer: Key)
    | ReplyPacket(token: TokenId, reply: Reply, signer: Key)
    | PresencePacket(sender: AgentId, stamp: int, signer: Key)

  datatype Published = Published(agent: AgentId, packet: Packet)

  // ---- the service ----------------------------------------------------------

  const STALENESS := 120_000

  datatype Decision =
    | Refuse(reason: string)
    | Mint(halves: Halves)
    | Repeat(halves: Halves, jwt: Jwt)
    | Ask(halves: Halves)

  predicate Complete(b: RequestBody) {
    b.Request? && b.nats.Some? && b.signing.Some? && b.encryption.Some?
  }

  function HalvesOf(b: RequestBody): Halves
    requires Complete(b)
  {
    Halves(b.nats.value, b.signing.value, b.encryption.value)
  }

  // The checks one request passes, in the order the service makes them.
  function Decide(row: Option<Row>, token: TokenId, p: Packet, now: int): Decision {
    if row.None? then Refuse("unknown token")
    else
      var r := row.value;
      if !p.RequestPacket? || p.sender != r.agent || p.token != token then Refuse("malformed request")
      else if p.body.BadBody? then Refuse("malformed request")
      else if r.state.Spent? && p.body.kind != ConfirmationKind then Refuse("token spent")
      else if now >= r.expiresAt then Refuse("token expired")
      else if !Complete(p.body) then Refuse("incomplete public halves")
      else
        var h := HalvesOf(p.body);
        if p.signer != h.signing then Refuse("request signature")
        else if r.credential.Some? && h != r.credential.value.halves then Refuse("different public halves")
        else
          match p.body.kind
          case CredentialKind => if r.credential.Some? then Repeat(h, r.credential.value.jwt) else Mint(h)
          case ConfirmationKind => Ask(h)
          case OtherKind => Refuse("malformed request")
  }

  // Whether a presence envelope is the proof that activates this row.
  predicate Proves(r: Row, agent: AgentId, p: Packet, now: int) {
    && r.state.Issued? && r.credential.Some?
    && p.PresencePacket? && p.sender == agent
    && p.signer == r.credential.value.halves.signing
    && -STALENESS <= now - p.stamp <= STALENESS
  }

  datatype Handler =
    | Received(token: TokenId, packet: Packet)
    | Recording(token: TokenId, credential: Credential)
    | LostRace(token: TokenId, halves: Halves)
    | AtGate(token: TokenId, halves: Halves, row: Row)
    | InGate(token: TokenId, halves: Halves, row: Row)
    | Answering(token: TokenId, halves: Halves, reply: Reply)
    | Denying(token: TokenId, reason: string)
    | AnsweringDenied(token: TokenId, record: nat)
    | Heard(agent: AgentId, packet: Packet)
    | Proven(token: TokenId, agent: AgentId)
    | Activating(token: TokenId, agent: AgentId)
    | Reached(agent: AgentId)
    | Holding(agent: AgentId)

  // One server process: whether it holds after activation, its gate (an RWMutex:
  // one writer or any number of readers), the handlers in flight, and the agents
  // this process activated.
  datatype Server = Server(
    hold: bool,
    writer: Option<HandlerId>,
    readers: set<HandlerId>,
    handlers: map<HandlerId, Handler>,
    activatedHere: set<AgentId>)

  // ---- an agent host --------------------------------------------------------

  datatype Bundle = Bundle(token: TokenId, agent: AgentId)

  // The key artifact; its digest is injective, so the artifact stands for it.
  datatype KeyFile = KeyFile(agent: AgentId, key: nat)

  datatype IdentityFile = IdentityFile(agent: AgentId, jwt: Jwt, digest: KeyFile)

  datatype Process =
    | Down
    | Starting(bundle: Bundle)
    | Generated(bundle: Bundle, key: nat)
    | Keyed(bundle: Bundle, keys: KeyFile)
    | Requesting(bundle: Bundle, keys: KeyFile)
    | Replied(bundle: Bundle, keys: KeyFile, jwt: Jwt)
    | IdentityWritten(bundle: Bundle, keys: KeyFile)
    | Confirming(bundle: Bundle, keys: KeyFile)
    | Enrolled(agent: AgentId, keys: KeyFile)

  // gap is history, not state of the program: a process of this host stopped
  // after writing the identity artifact and before the ledger existed.
  datatype Host = Host(
    keyFile: Option<KeyFile>,
    idFile: Option<IdentityFile>,
    ledger: bool,
    process: Process,
    gap: bool)

  const BLANK: Host := Host(None, None, false, Down, false)

  // ---- the whole system -----------------------------------------------------

  datatype Answered = Answered(token: TokenId, halves: Halves, reply: Reply)

  datatype Success = Success(host: HostId, token: TokenId, key: nat)

  // owner maps each generated key set to its host. wire is every envelope that
  // was ever signed by a host key or by the service; published is what a holder
  // of an agent's permanent credential put on that agent's presence subject.
  // bundles are the bundles S0 returned. answered, successes and denials are
  // history: the replies published, the Enroll calls that returned nil, and the
  // audit positions of the denials answered.
  datatype State = State(
    db: Tables,
    server: Server,
    bundles: set<Bundle>,
    hosts: map<HostId, Host>,
    owner: map<nat, HostId>,
    wire: set<Packet>,
    published: set<Published>,
    answered: set<Answered>,
    successes: set<Success>,
    denials: set<nat>)

  const INIT: State := State(EMPTY, Server(false, None, {}, map[], {}), {}, map[], map[], {}, {}, {}, {}, {})

  function HostOf(s: State, h: HostId): Host {
    if h in s.hosts then s.hosts[h] else BLANK
  }

  function HostHalves(key: nat): Halves {
    Halves(HostKey(key), HostKey(key), HostKey(key))
  }

  // What may arrive on a request or reply subject: anything already on the wire,
  // or anything signed by a key no host and no service holds.
  predicate Deliverable(s: State, p: Packet) {
    p.Junk? || p.signer.ForeignKey? || p in s.wire
  }

  // The broker lets only a holder of an agent's permanent credential publish on
  // its presence subject. Outside the hosts, that is whoever has the private
  // half of the NATS key the recorded credential names.
  predicate ForeignGrant(db: Tables, agent: AgentId) {
    exists t :: t in db.enrollment && db.enrollment[t].agent == agent
                && db.enrollment[t].credential.Some? && db.enrollment[t].credential.value.jwt.nats.ForeignKey?
  }

  predicate PresenceDeliverable(s: State, agent: AgentId, p: Packet) {
    || Published(agent, p) in s.published
    || (ForeignGrant(s.db, agent) && Deliverable(s, p))
  }

  datatype Step =
    // S0
    | Issue(token: TokenId, agent: AgentId, name: string, bootstrapKey: nat, issuedAt: int, expiresAt: int, uid: nat)
    // the server process
    | RestartServer(hold: bool)
    | ReceiveRequest(id: HandlerId, token: TokenId, packet: Packet)
    | ReadRequest(id: HandlerId, now: int, serial: nat)
    | WriteCredential(id: HandlerId, now: int)
    | ReadAgain(id: HandlerId, fault: bool)
    | EnterGate(id: HandlerId)
    | LeaveGate(id: HandlerId)
    | PublishReply(id: HandlerId)
    | WriteDenial(id: HandlerId, now: int)
    | PublishDenial(id: HandlerId)
    | HearPresence(id: HandlerId, agent: AgentId, packet: Packet)
    | ReadPresence(id: HandlerId, token: TokenId, now: int)
    | LockGate(id: HandlerId)
    | WriteActivation(id: HandlerId, now: int)
    | WriteReached(id: HandlerId, now: int)
    | UnlockGate(id: HandlerId)
    // a handler that stops at a store or broker failure
    | Abandon(id: HandlerId)
    // an agent host
    | StartEnroll(h: HostId, bundle: Bundle)
    | ReadKeys(h: HostId, newKey: nat)
    | WriteKeys(h: HostId)
    | ReadIdentity(h: HostId)
    | SendRequest(h: HostId)
    | Receive(h: HostId, packet: Packet)
    | WriteIdentity(h: HostId)
    | OpenLedger(h: HostId)
    | SendPresence(h: HostId, stamp: int)
    | SendConfirmation(h: HostId)
    | Stop(h: HostId)
    | StartServe(h: HostId)

  // ---- server steps ---------------------------------------------------------

  function Put(s: State, id: HandlerId, x: Handler): State {
    s.(server := s.server.(handlers := s.server.handlers[id := x]))
  }

  // A handler that returns leaves the gate with it.
  function End(s: State, id: HandlerId): State {
    s.(server := s.server.(
         handlers := s.server.handlers - {id},
         readers := s.server.readers - {id},
         writer := if s.server.writer == Some(id) then None else s.server.writer))
  }

  function ReadRequestNext(s: State, id: HandlerId, now: int, serial: nat): State
    requires id in s.server.handlers && s.server.handlers[id].Received?
  {
    var x := s.server.handlers[id];
    var row := Enrollment(s.db, x.token);
    match Decide(row, x.token, x.packet, now)
    case Refuse(reason) => Put(s, id, Denying(x.token, reason))
    case Mint(h) => Put(s, id, Recording(x.token, Credential(h, Jwt(row.value.agent, h.nats, serial))))
    case Repeat(h, jwt) => Put(s, id, Answering(x.token, h, CredentialReply(row.value.agent, jwt)))
    case Ask(h) => Put(s, id, AtGate(x.token, h, row.value))
  }

  function WriteCredentialNext(s: State, id: HandlerId, now: int): State
    requires id in s.server.handlers && s.server.handlers[id].Recording?
  {
    var x := s.server.handlers[id];
    match RecordCredential(s.db, x.token, x.credential, x.credential.jwt.agent, now)
    case Ok(db) =>
      var reply := CredentialReply(x.credential.jwt.agent, x.credential.jwt);
      Put(s, id, Answering(x.token, x.credential.halves, reply)).(db := db)
    case Err(_) => Put(s, id, LostRace(x.token, x.credential.halves))
  }

  // The loser of the race to record is answered by whether its halves are those
  // the winner recorded. A read that fails is answered as halves that differ are.
  function ReadAgainNext(s: State, id: HandlerId, fault: bool): State
    requires id in s.server.handlers && s.server.handlers[id].LostRace?
  {
    var x := s.server.handlers[id];
    var row := Enrollment(s.db, x.token);
    if !fault && row.Some? && row.value.credential.Some? && row.value.credential.value.halves == x.halves then
      Put(s, id, Answering(x.token, x.halves, CredentialReply(row.value.agent, row.value.credential.value.jwt)))
    else
      Put(s, id, Denying(x.token, "different public halves"))
  }

  function LeaveGateNext(s: State, id: HandlerId): State
    requires id in s.server.handlers && s.server.handlers[id].InGate?
  {
    var x := s.server.handlers[id];
    if x.row.state.Spent? then
      var s1 := Put(s, id, Answering(x.token, x.halves, ConfirmationReply(x.row.agent, true, true)));
      s1.(server := s1.server.(readers := s1.server.readers - {id}))
    else End(s, id)
  }

  function PublishReplyNext(s: State, id: HandlerId): State
    requires id in s.server.handlers && s.server.handlers[id].Answering?
  {
    var x := s.server.handlers[id];
    End(s, id).(
      wire := s.wire + {ReplyPacket(x.token, x.reply, ServiceKey)},
      answered := s.answered + {Answered(x.token, x.halves, x.reply)})
  }

  function WriteDenialNext(s: State, id: HandlerId, now: int): State
    requires id in s.server.handlers && s.server.handlers[id].Denying?
  {
    var x := s.server.handlers[id];
    var record := Audit(RequestDenied, x.token, x.reason, now);
    Put(s, id, AnsweringDenied(x.token, |s.db.audit|)).(db := AppendAudit(s.db, record))
  }

  function PublishDenialNext(s: State, id: HandlerId): State
    requires id in s.server.handlers && s.server.handlers[id].AnsweringDenied?
  {
    var x := s.server.handlers[id];
    End(s, id).(wire := s.wire + {ReplyPacket(x.token, Denied, ServiceKey)}, denials := s.denials + {x.record})
  }

  function ReadPresenceNext(s: State, id: HandlerId, token: TokenId, now: int): State
    requires id in s.server.handlers && s.server.handlers[id].Heard?
  {
    var x := s.server.handlers[id];
    if token in s.db.enrollment && Proves(s.db.enrollment[token], x.agent, x.packet, now) then
      Put(s, id, if s.server.hold then Proven(token, x.agent) else Activating(token, x.agent))
    else End(s, id)
  }

  function WriteActivationNext(s: State, id: HandlerId, now: int): State
    requires id in s.server.handlers && s.server.handlers[id].Activating?
  {
    var x := s.server.handlers[id];
    match Activate(s.db, x.token, x.agent, now)
    case Err(_) => End(s, id)
    case Ok(db) =>
      var s1 := if s.server.hold then Put(s, id, Reached(x.agent)) else End(s, id);
      s1.(db := db, server := s1.server.(activatedHere := s1.server.activatedHere + {x.agent}))
  }

  // ---- host steps -----------------------------------------------------------

  function Set(s: State, h: HostId, x: Host): State {
    s.(hosts := s.hosts[h := x])
  }

  function ReadKeysNext(s: State, h: HostId, newKey: nat): State
    requires HostOf(s, h).process.Starting?
  {
    var x := HostOf(s, h);
    var b := x.process.bundle;
    if x.keyFile.None? then Set(s, h, x.(process := Generated(b, newKey))).(owner := s.owner[newKey := h])
    else if x.keyFile.value.agent == b.agent then Set(s, h, x.(process := Keyed(b, x.keyFile.value)))
    else Set(s, h, x.(process := Down))
  }

  function ReadIdentityNext(s: State, h: HostId): State
    requires HostOf(s, h).process.Keyed?
  {
    var x := HostOf(s, h);
    var b, keys := x.process.bundle, x.process.keys;
    if x.idFile.None? then Set(s, h, x.(process := Requesting(b, keys)))
    else if x.idFile.value.digest == keys && x.idFile.value.agent == b.agent then
      Set(s, h, x.(process := Confirming(b, keys)))
    else Set(s, h, x.(process := Down))
  }

  // A reply the agent attends to: the service's, for this token, and either a
  // denial or about this agent.
  predicate Attended(b: Bundle, p: Packet) {
    && p.ReplyPacket? && p.token == b.token && p.signer == ServiceKey
    && (p.reply.Denied? || p.reply.agent == b.agent)
  }

  function ReceiveNext(s: State, h: HostId, p: Packet): State
    requires HostOf(s, h).process.Requesting? || HostOf(s, h).process.Confirming?
  {
    var x := HostOf(s, h);
    var b, keys := x.process.bundle, x.process.keys;
    if !Attended(b, p) then s
    else if p.reply.Denied? then Set(s, h, x.(process := Down))
    else if x.process.Requesting? && p.reply.CredentialReply? then
      if p.reply.jwt.nats == HostKey(keys.key) && p.reply.jwt.agent == b.agent
      then Set(s, h, x.(process := Replied(b, keys, p.reply.jwt)))
      else Set(s, h, x.(process := Down))
    else if x.process.Confirming? && p.reply.ConfirmationReply? && p.reply.active && p.reply.spent then
      Set(s, h, x.(process := Down)).(successes := s.successes + {Success(h, b.token, keys.key)})
    else s
  }

  function StopNext(s: State, h: HostId): State {
    var x := HostOf(s, h);
    Set(s, h, x.(process := Down, gap := x.gap || (x.process.IdentityWritten? && !x.ledger)))
  }

  function Prove(s: State, h: HostId, agent: AgentId, key: nat, stamp: int): State {
    var p := PresencePacket(agent, stamp, HostKey(key));
    s.(wire := s.wire + {p}, published := s.published + {Published(agent, p)})
  }

  function RequestBy(b: Bundle, key: nat, kind: Kind): Packet {
    RequestPacket(b.agent, b.token,
                  Request(Some(HostKey(key)), Some(HostKey(key)), Some(HostKey(key)), kind), HostKey(key))
  }

  // ---- one step -------------------------------------------------------------

  predicate At(s: State, id: HandlerId) {
    id in s.server.handlers
  }

  // An agent host's steps.
  predicate OfHost(step: Step) {
    || step.StartEnroll? || step.ReadKeys? || step.WriteKeys? || step.ReadIdentity? || step.StartServe?
    || step.OpenLedger? || step.Stop? || step.SendRequest? || step.SendConfirmation? || step.SendPresence?
    || step.Receive? || step.WriteIdentity?
  }

  // The steps of a handler of a request, away from the gate.
  predicate OfRequest(step: Step) {
    || step.ReceiveRequest? || step.ReadRequest? || step.WriteCredential? || step.ReadAgain?
    || step.PublishReply? || step.WriteDenial? || step.PublishDenial?
  }

  predicate HostEnabled(s: State, step: Step)
    requires OfHost(step)
  {
    match step
    case StartEnroll(h, b) => HostOf(s, h).process.Down? && b in s.bundles
    case ReadKeys(h, newKey) => HostOf(s, h).process.Starting? && newKey !in s.owner
    case WriteKeys(h) => HostOf(s, h).process.Generated?
    case ReadIdentity(h) => HostOf(s, h).process.Keyed?
    case SendRequest(h) => HostOf(s, h).process.Requesting?
    case Receive(h, p) => (HostOf(s, h).process.Requesting? || HostOf(s, h).process.Confirming?) && Deliverable(s, p)
    case WriteIdentity(h) => HostOf(s, h).process.Replied?
    case OpenLedger(h) => HostOf(s, h).process.IdentityWritten?
    case SendPresence(h, _) => HostOf(s, h).process.Confirming? || HostOf(s, h).process.Enrolled?
    case SendConfirmation(h) => HostOf(s, h).process.Confirming?
    case Stop(h) => !HostOf(s, h).process.Down?
    case StartServe(h) => HostOf(s, h).process.Down? && Restorable(HostOf(s, h))
  }

  predicate RequestEnabled(s: State, step: Step)
    requires OfRequest(step)
  {
    match step
    case ReceiveRequest(id, _, p) => id !in s.server.handlers && Deliverable(s, p)
    case ReadRequest(id, _, _) => At(s, id) && s.server.handlers[id].Received?
    case WriteCredential(id, _) => At(s, id) && s.server.handlers[id].Recording?
    case ReadAgain(id, _) => At(s, id) && s.server.handlers[id].LostRace?
    case PublishReply(id) => At(s, id) && s.server.handlers[id].Answering?
    case WriteDenial(id, _) => At(s, id) && s.server.handlers[id].Denying?
    case PublishDenial(id) => At(s, id) && s.server.handlers[id].AnsweringDenied?
  }

  // The issuer, a restart, and the steps at the gate and of a presence handler.
  predicate GateEnabled(s: State, step: Step)
    requires !OfHost(step) && !OfRequest(step)
  {
    match step
    case Issue(token, agent, name, bk, ia, ea, uid) => IssueEnrollment(s.db, token, agent, name, bk, ia, ea, uid).Ok?
    case RestartServer(_) => true
    case EnterGate(id) => At(s, id) && s.server.handlers[id].AtGate? && s.server.writer.None?
    case LeaveGate(id) => At(s, id) && s.server.handlers[id].InGate?
    case HearPresence(id, agent, p) => id !in s.server.handlers && PresenceDeliverable(s, agent, p)
    case ReadPresence(id, token, _) =>
      && At(s, id) && s.server.handlers[id].Heard?
      && (if token in s.db.enrollment then s.db.enrollment[token].agent == s.server.handlers[id].agent
          else !HasAgent(s.db.enrollment, s.server.handlers[id].agent))
    case LockGate(id) => At(s, id) && s.server.handlers[id].Proven? && s.server.writer.None? && s.server.readers == {}
    case WriteActivation(id, _) => At(s, id) && s.server.handlers[id].Activating?
    case WriteReached(id, _) => At(s, id) && s.server.handlers[id].Reached?
    case UnlockGate(id) => At(s, id) && s.server.handlers[id].Holding?
    // The reached record is retried until it is written; nothing abandons it.
    case Abandon(id) => At(s, id) && !s.server.handlers[id].Reached? && !s.server.handlers[id].Holding?
  }

  predicate Enabled(s: State, step: Step) {
    if OfHost(step) then HostEnabled(s, step)
    else if OfRequest(step) then RequestEnabled(s, step)
    else GateEnabled(s, step)
  }

  // What LoadEnrolled accepts: an identity artifact, and the key artifact it was written for.
  predicate Restorable(x: Host) {
    && x.idFile.Some? && x.keyFile.Some?
    && x.keyFile.value.agent == x.idFile.value.agent && x.idFile.value.digest == x.keyFile.value
  }

  function HostNext(s: State, step: Step): (r: State)
    requires OfHost(step) && HostEnabled(s, step)
    ensures r.server == s.server && r.db == s.db && r.bundles == s.bundles
    ensures r.answered == s.answered && r.denials == s.denials
  {
    match step
    case StartEnroll(h, b) => Set(s, h, HostOf(s, h).(process := Starting(b)))
    case ReadKeys(h, newKey) => ReadKeysNext(s, h, newKey)
    case WriteKeys(h) =>
      var x := HostOf(s, h);
      var keys := KeyFile(x.process.bundle.agent, x.process.key);
      Set(s, h, x.(keyFile := Some(keys), process := Keyed(x.process.bundle, keys)))
    case ReadIdentity(h) => ReadIdentityNext(s, h)
    case SendRequest(h) =>
      var x := HostOf(s, h).process;
      s.(wire := s.wire + {RequestBy(x.bundle, x.keys.key, CredentialKind)})
    case Receive(h, p) => ReceiveNext(s, h, p)
    case WriteIdentity(h) =>
      var x := HostOf(s, h);
      var b := x.process.bundle;
      Set(s, h, x.(idFile := Some(IdentityFile(b.agent, x.process.jwt, x.process.keys)),
                   process := IdentityWritten(b, x.process.keys)))
    case OpenLedger(h) =>
      var x := HostOf(s, h);
      Set(s, h, x.(ledger := true, process := Confirming(x.process.bundle, x.process.keys)))
    case SendPresence(h, stamp) =>
      var x := HostOf(s, h).process;
      Prove(s, h, if x.Enrolled? then x.agent else x.bundle.agent, x.keys.key, stamp)
    case SendConfirmation(h) =>
      var x := HostOf(s, h).process;
      s.(wire := s.wire + {RequestBy(x.bundle, x.keys.key, ConfirmationKind)})
    case Stop(h) => StopNext(s, h)
    case StartServe(h) =>
      var x := HostOf(s, h);
      Set(s, h, x.(process := Enrolled(x.idFile.value.agent, x.keyFile.value)))
  }

  function RequestNext(s: State, step: Step): (r: State)
    requires OfRequest(step) && RequestEnabled(s, step)
    ensures r.hosts == s.hosts && r.owner == s.owner && r.bundles == s.bundles && r.published == s.published
    ensures r.successes == s.successes
  {
    match step
    case ReceiveRequest(id, token, p) => Put(s, id, Received(token, p))
    case ReadRequest(id, now, serial) => ReadRequestNext(s, id, now, serial)
    case WriteCredential(id, now) => WriteCredentialNext(s, id, now)
    case ReadAgain(id, fault) => ReadAgainNext(s, id, fault)
    case PublishReply(id) => PublishReplyNext(s, id)
    case WriteDenial(id, now) => WriteDenialNext(s, id, now)
    case PublishDenial(id) => PublishDenialNext(s, id)
  }

  function GateNext(s: State, step: Step): (r: State)
    requires !OfHost(step) && !OfRequest(step) && GateEnabled(s, step)
    ensures r.hosts == s.hosts && r.owner == s.owner && r.wire == s.wire && r.published == s.published
    ensures r.successes == s.successes && r.answered == s.answered && r.denials == s.denials
  {
    match step
    case Issue(token, agent, name, bk, ia, ea, uid) =>
      s.(db := IssueEnrollment(s.db, token, agent, name, bk, ia, ea, uid).value,
         bundles := s.bundles + {Bundle(token, agent)})
    case RestartServer(hold) => s.(server := Server(hold, None, {}, map[], {}))
    case EnterGate(id) =>
      var x := s.server.handlers[id];
      var s1 := Put(s, id, InGate(x.token, x.halves, x.row));
      s1.(server := s1.server.(readers := s1.server.readers + {id}))
    case LeaveGate(id) => LeaveGateNext(s, id)
    case HearPresence(id, agent, p) => Put(s, id, Heard(agent, p))
    case ReadPresence(id, token, now) => ReadPresenceNext(s, id, token, now)
    case LockGate(id) =>
      var x := s.server.handlers[id];
      var s1 := Put(s, id, Activating(x.token, x.agent));
      s1.(server := s1.server.(writer := Some(id)))
    case WriteActivation(id, now) => WriteActivationNext(s, id, now)
    case WriteReached(id, now) =>
      var x := s.server.handlers[id];
      Put(s, id, Holding(x.agent)).(db := AppendAudit(s.db, Audit(HoldReached, x.agent, "reached", now)))
    case UnlockGate(id) => End(s, id)
    case Abandon(id) => End(s, id)
  }

  function Next(s: State, step: Step): State
    requires Enabled(s, step)
  {
    if OfHost(step) then HostNext(s, step)
    else if OfRequest(step) then RequestNext(s, step)
    else GateNext(s, step)
  }

  // ---- runs -----------------------------------------------------------------

  predicate Runs(s: State, steps: seq<Step>)
    decreases |steps|
  {
    steps == [] || (Enabled(s, steps[0]) && Runs(Next(s, steps[0]), steps[1..]))
  }

  function After(s: State, steps: seq<Step>): State
    requires Runs(s, steps)
    decreases |steps|
  {
    if steps == [] then s else After(Next(s, steps[0]), steps[1..])
  }

  ghost predicate Reachable(s: State) {
    exists steps :: Runs(INIT, steps) && After(INIT, steps) == s
  }

  lemma {:induction false} RunsCompose(s: State, a: seq<Step>, b: seq<Step>)
    requires Runs(s, a) && Runs(After(s, a), b)
    ensures Runs(s, a + b) && After(s, a + b) == After(After(s, a), b)
    decreases |a|
  {
    hide Enabled, Next;
    if a == [] {
      assert a + b == b;
    } else {
      RunsCompose(Next(s, a[0]), a[1..], b);
      assert (a + b)[0] == a[0] && (a + b)[1..] == a[1..] + b;
    }
  }
}
