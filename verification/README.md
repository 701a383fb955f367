# Keystone: a verified model of enrollment, envelopes, grants and the operator socket

This project models the parts of Keystone whose correctness rests on more than
one function, and proves what those parts promise. `dafny verify dfyconfig.toml`
checks all of it.

**The one-use enrollment protocol.** An issuer, an enrollment service, a SQL
store, a lossy broker and any number of agent hosts move as one step machine
(`Protocol`). A step ends at every store call, at the confirmation gate, at every
file write, send and receive. Envelopes may be lost, duplicated, reordered and
replayed, anyone may send envelopes signed with keys of their own, handlers run
concurrently, the server and the hosts stop and restart anywhere, and several
hosts may hold one bundle. The inductive invariant (`ProtocolInvariant`,
`ProtocolSteps`) links the enrollment row, the agents row and the host's two
artifact files. From it follow the safety results (`ProtocolSafety`), the order
at the gate (`ProtocolGate`), recovery from every reachable state (`Recovery`)
and the exact condition for the ledger (`LedgerOrder`). `Checks` says what the
service lets through, off the row, the envelope and the clock. The tables and their
transactions are in `StoreModel`. The same code in its own imperative form is in
`Store`, `Service` and `Agent`: classes whose methods make one store call, one
file write or one send at a time as a step of the machine (`Machine`), with
anything at all in between, so that the results about runs hold at each return.

**The v1 envelope.** `Framing` is the nine length-prefixed fields under a running
budget, `Envelope` the typed fields, the strict decoder and the 64-bit timestamp,
`Signature` and `Sealing` the two hybrids and their key layouts, `Identifiers` the
identifier grammar, and `Issuing` the one instant at which a token and its
credential end.

**The broker's permission table.** `Subjects` splits and matches subjects as
strings of dot-separated tokens; `Grants` proves that each subject has one owner
in each direction.

**The operator socket.** `OperatorSlots` is the slot accounting as a step machine
over every interleaving, `OperatorStream` the request loop and the incremental
splitter its replies are read with.

**Durability.** `AtomicWrite` is the artifact write on a filesystem with a
volatile and a durable layer; `Migrations` is the schema history with rows,
failures and kills.

The model rests on these readings of the system:

- The cryptographic primitives are arguments, and each lemma states what it needs
  of them. In the protocol, signatures are symbolic: an envelope carries the key
  it verifies under, and only that key's holder makes it.
- The digest of a key artifact identifies it, so the artifact stands for its
  digest; JSON and base64 are injective encodings.
- One enrollment process at a time works on one host's artifact paths. An error
  exit of the agent, the deadline and a kill are all the step `Stop`.
- The broker delivers only what a grant permits on the presence subject; on the
  request and reply subjects the model lets anyone's envelopes arrive.

Where the code and its contract disagree, the model follows the code.
`LEDGER-1` (test/contract/enrollment/contract_surface.go:37) asks that the ledger
exist before activation can happen. The code does not ensure it: a run killed
between writing the identity artifact and opening the ledger restarts past the
only call that opens it. `LedgerOrder.SpentWithoutLedger` is such a run, from the
initial state, and `LedgerOrder.LedgerBeforeSpentIff` says that this is the only
way it can happen.

## Model

| member | source | states |
|---|---|---|
| ProtocolSafety.SpentIffActive | internal/store/store.go:318-345 | In every reachable state a token is spent exactly when its agent is active, the agent has the recorded halves, the name the token was issued for and the time it was spent, no other token has that agent, and the host that owns the recorded signing key has its key artifact and an identity artifact carrying the recorded credential and bound to those keys |
| ProtocolSafety.SuccessMeansActive | internal/enrollment/agent.go:336-361 | Whenever Enroll has returned nil, the store holds that token spent and its agent active with the returning host's three halves |
| ProtocolSafety.OneKeySetPerToken | internal/enrollment/service.go:219-221 | Over a whole run at most one key set, and so one host, ever succeeds with a token |
| ProtocolSafety.RepliesCarryTheRecord | internal/enrollment/service.go:240-267 | Every credential reply carries the one recorded JWT and answers a request with the recorded halves; every confirmation is of a spent token; under any interleaving, including two handlers that both minted |
| ProtocolSafety.RecordedNeverChanges | internal/store/store.go:288-310 | In every continuation of every run a row only moves forward, recorded halves and JWT stay, active agents stay, the log only grows and no artifact is replaced |
| ProtocolSafety.NeverSkips | internal/store/migrations.go:86-104 | Every step moves a row by at most one stage: it appears issued with nothing recorded and is spent only from a recorded credential |
| ProtocolSafety.AuditAgrees | internal/store/store.go:191-215 | In every reachable state the log holds one issuance record per assigned agent, one credential record exactly if a JWT is recorded and one activation record exactly if the token is spent, and none for any other agent |
| ProtocolSafety.DenialOnWireIsRecorded | internal/enrollment/service.go:174-184 | Every denial that was ever sent has a committed denial record of its token |
| ProtocolSafety.DenialFollowsItsRecord | internal/enrollment/service.go:269-274 | When a denial is answered its own record is already committed and served no earlier denial, and neither recording nor answering it changes a row |
| ProtocolSteps.StepKeeps | internal/enrollment/service.go:189-236 | Every step of every party keeps the invariant linking rows, agents, artifacts, wire, handlers and processes, and only grows the state |
| ProtocolSteps.ProofIsEvidence | internal/enrollment/service.go:297-317 | An envelope that passes the presence checks shows that the recorded keys are off the hosts, or that their host already has both artifacts in place |
| ProtocolSteps.AcceptedIsSigned | internal/enrollment/service.go:202-221 | Whatever request passes the checks was signed with the very signing half it presents, and a host's half implies that host's key artifact is in place |
| Checks.DecidesIff | internal/enrollment/service.go:189-236 | What the ordered checks come to, read off the row, the request and the clock: which refusal holds when, and that a request is recorded, repeated or asked on exactly if it is this agent's and token's, the token is unexpired and unspent or only confirmed, all three halves are there under their own signature, and they are the recorded ones if any are |
| Checks.ReadRequestIff | internal/enrollment/service.go:189-236 | The same of the protocol's step: where a handler stands after it read a request |
| Checks.OneReason | internal/enrollment/service.go:189-236 | No request has two reasons to be refused |
| Checks.ExpiredIsRefused | internal/enrollment/service.go:209-211 | Past its expiry a token's every request is refused, whatever else it is |
| Checks.ReadPresenceIff | internal/enrollment/service.go:297-318 | A presence handler goes on to activate exactly on an envelope of that agent, under the recorded signing half, within 120,000 milliseconds of the clock, for a row issued with a credential |
| ProtocolGate.ConfirmedAfterHoldRecorded | internal/enrollment/service.go:319-353 | With the hold on, no confirmation of an agent this process activated is in a handler's answer or on the wire before the record that the hold was reached is committed, in every interleaving and however often writing it fails |
| ProtocolGate.GatedStep | internal/enrollment/service.go:225-233 | Every step keeps the gate exclusive and the hold recorded before any confirmation |
| Recovery.RecoversIff | internal/enrollment/agent.go:102-144 | From every reachable state with the token unexpired, a finite continuation of this host's own steps and the service's ends with Enroll returning nil if and only if the recorded halves are absent or this host's and its key artifact is not another agent's; otherwise no continuation at all does. What is recorded does not change on the way, by RecordedNeverChanges and AuditAgrees |
| Recovery.OnlyItsOwn | internal/enrollment/agent.go:159-169 | A host succeeds only with recorded halves that are its own persisted keys |
| LedgerOrder.LedgerBeforeSpentIff | internal/enrollment/agent.go:293-305 | When a host's token is spent its ledger exists if and only if none of its processes ever stopped between writing the identity artifact and opening the ledger |
| LedgerOrder.SpentWithoutLedger | internal/enrollment/agent.go:124-142 | A concrete run from the initial state ends with the token spent, Enroll returned nil and no ledger |
| StoreModel.IssueKeeps | internal/store/store.go:191-215 | Issuing a token keeps the tables consistent with each other and with the log |
| StoreModel.IssueMoves | internal/store/store.go:191-215 | It adds one row, with the identity, name, key and times it was given and nothing recorded, and one record |
| StoreModel.RecordKeeps | internal/store/store.go:288-310 | Recording a credential keeps the tables consistent with each other and with the log |
| StoreModel.RecordMoves | internal/store/store.go:288-310 | Only an issued row with nothing recorded gains a credential, only that row changes, and one record says so |
| StoreModel.ActivateKeeps | internal/store/store.go:318-345 | Activating keeps the tables consistent: the agent appears with the recorded halves, the row's name and the time the token is spent |
| StoreModel.ActivateMoves | internal/store/store.go:318-345 | Only an issued row with a credential is spent, at the time given, as its agent appears, and one record says so |
| Store.Store.IssueEnrollment | internal/store/store.go:191-215 | The method makes exactly the issuing transition or, on a duplicate, a reused bootstrap key or any failing call, changes nothing, and says which duplicates it found |
| Store.Store.EnrollmentByAgent | internal/store/store.go:268-270 | The row found is the only one of that agent, and none is found exactly when there is none |
| Store.Store.RecordCredential | internal/store/store.go:288-310 | The transition happens exactly when the row is issued with nothing recorded and no call fails; otherwise nothing changes |
| Store.Store.Activate | internal/store/store.go:318-345 | Three writes land together or not at all, exactly when the row is issued with a credential, its agent is not active yet and no call fails; which error says which |
| Store.Store.AppendAuditRecord | internal/store/store.go:164-170 | One record is appended or nothing changes |
| Machine.OthersLeaveHost | internal/enrollment/agent.go:105-144 | No step of anyone else changes a host's files or process, which is what the agent's code relies on between its own steps |
| Machine.OthersLeaveHandler | internal/enrollment/service.go:189-236 | No step of anyone else moves a handler or its hold on the gate while the server process lives |
| Machine.OthersKeepHandler | internal/enrollment/service.go:189-236 | Any number of steps of anyone else leave a handler where it stands and the tables consistent and only further on: what every wait between two calls of the service relies on |
| Machine.OthersKeepHost | internal/enrollment/agent.go:105-144 | Any number of steps of anyone else leave a host's files, its process and its own steps as they are, and nothing sent or recorded goes away: what every wait of the agent relies on |
| Agent.Agent.Keys | internal/enrollment/agent.go:159-169 | An existing key artifact is kept and used, or refused as unusable if it is another agent's; otherwise the new one is in place before anything is sent, unless a write failed |
| Agent.Agent.Await | internal/enrollment/agent.go:224-251 | Every packet but the service's reply for this token and agent is passed over; the wait ends with the first such reply, the timer, a denial, or the deadline, and each result says which it was |
| Agent.Agent.Credential | internal/enrollment/agent.go:256-308 | Each round is one request with this run's three halves and one wait, again after the timer or a reply that is no credential; it returns an identity only with the artifact written for its own keys and agent and the ledger open, and each error has its cause: the deadline or a denial, a credential for other keys, or a failed write |
| Agent.Agent.Confirm | internal/enrollment/agent.go:336-361 | The proof is published first and again before each round's request, and a round follows every timer and every reply that is no confirmation; it returns nil exactly on an active-and-spent confirmation, which is then in the machine's history, and refuses only at the deadline or on a denial |
| Agent.Agent.Enroll | internal/enrollment/agent.go:105-144 | Every return leaves earlier artifacts as they were; a nil return means both artifacts are in place and bound, the token is spent and the agent active with this host's halves, whatever everyone else did meanwhile; an unusable artifact is reported exactly when there is one, and every other error has its cause |
| Service.Service.Handle | internal/enrollment/service.go:189-236 | What a request comes to, from the row that was read to the tables it leaves: a refusal for the reason that holds, the confirmation exactly if the row was spent, the recorded credential again, or, if none was recorded, the one recorded by now when it is for these halves and a denial when it is for others or cannot be read back; silence only before activation or when a call fails; an expired token always gets a denial |
| Service.Service.Credential | internal/enrollment/service.go:240-267 | A recorded JWT is answered again as it is; otherwise the answer is the credential recorded by the end, this handler's or a concurrent one's, and a denial means that one is for other halves or could not be read back; silence means that minting or the write failed |
| Service.Service.Confirm | internal/enrollment/service.go:225-233 | A confirmation request waits until no one holds the gate for writing, and is then answered exactly if the row it was checked against was spent |
| Service.Service.Respond | internal/enrollment/service.go:174-184 | What is sent is what the request comes to, unless recording the denial or publishing fails; a denial's record has its token, its own reason and its time; whatever is sent is on the wire and true of the store at that moment |
| Service.Service.ReachedAfterActivation | internal/enrollment/service.go:343-354 | However many attempts fail, it returns with the record of that agent and time committed and the gate still its own |
| Service.Service.OnPresence | internal/enrollment/service.go:297-337 | A fresh envelope of the agent under the recorded signing half, for a row issued with a credential, waits for the gate and leaves the agent active unless a call fails; one more than 120,000 milliseconds from the clock either way, or any other, changes nothing; an activation has the clock's time in the agent's row and the log, and with the hold on is followed by the hold's record |
| Service.WireIsTruthful | internal/enrollment/service.go:276-293 | Every reply the service ever signed is true of the store |
| Framing.Frame | internal/protocol/framing.go:30-49 | The loop frames exactly nine fields of representable length and refuses anything else |
| Framing.SignedInput | internal/protocol/framing.go:57-71 | The signed slice is the framing of the first eight fields |
| Framing.Split | internal/protocol/framing.go:91-124 | The loop with its running budget computes the recursive parse |
| Framing.SplitAcceptsIff | internal/protocol/framing.go:91-124 | Input is accepted if and only if it is the framing of nine fields within the effective maximum, and then those fields are returned |
| Framing.SplitTooLargeIff | internal/protocol/framing.go:104-112 | The refusal is PayloadTooLarge if and only if the first field that fails has its four prefix bytes present and four plus its length exceeds the budget left; every other refusal is MalformedEnvelope |
| Framing.PrefixMalformed | internal/protocol/framing.go:98-116 | Every strict prefix of an accepted input is MalformedEnvelope |
| Framing.ExtensionMalformed | internal/protocol/framing.go:118-123 | Every strict extension of an accepted input is MalformedEnvelope |
| Framing.FramedInjective | internal/protocol/framing.go:30-49 | Two lists of equally many fields with the same framing are the same |
| Framing.ReadsIff | internal/protocol/framing.go:30-49 | The framing of some fields is what reads, byte by byte, as four bytes spelling each length most significant first and then the field, and nothing else reads so |
| Framing.SplitReads | internal/protocol/framing.go:91-124 | What is accepted is what so reads as nine fields within the maximum, or a mebibyte when none is given |
| Envelope.DecodeThenEncode | internal/protocol/fuzz_test.go:59-68 | Whatever decodes encodes again to the same bytes |
| Envelope.EncodeThenDecode | internal/protocol/envelope.go:90-151 | Every well-formed envelope that fits comes back with its time settled to what eight bytes say |
| Envelope.DecodeAcceptsIff | internal/protocol/envelope.go:90-151 | The decoder accepts exactly the encodings of well-formed envelopes within the effective maximum |
| Envelope.RefusalsIff | internal/protocol/envelope.go:86-110 | Which refusal an input gets, whatever else is wrong with it: too large before everything, an unknown version before class and shape, an unknown class before shape, and otherwise malformed |
| Envelope.TimestampRoundTrips | internal/protocol/envelope.go:60-76 | The timestamp field round-trips for all 2^64 values, wrapped product included |
| Envelope.TimeSurvivesIff | internal/protocol/envelope.go:60-76 | A time comes back, to the millisecond, if and only if its milliseconds are an int64 |
| Envelope.WireLayout | internal/protocol/envelope.go:60-82 | An envelope on the wire is its version in four bytes, class, job, correlation, sender, milliseconds in eight bytes, nonce, payload and signature, in this order and so read; what is signed is the first eight |
| Envelope.ClassesAre | internal/protocol/class.go:9-43 | The seven classes and the three encrypted ones, by name |
| Identifiers.ValidIdentifier | internal/protocol/identifier.go:12-25 | The byte loop accepts exactly one to sixty-four lower-case letters, digits and hyphens |
| Identifiers.ReservedAre | internal/protocol/identifier.go:26-52 | The five reserved senders, by name |
| Signature.SignedBytesIff | internal/protocol/framing.go:57-71 | Two envelopes have the same signed bytes if and only if they agree in fields 1 to 8, whatever field 9 is |
| Signature.SignedBytesPrefix | internal/protocol/envelope.go:79-82 | The signed bytes are a strict prefix of the encoded envelope |
| Signature.SignThenVerify | internal/protocol/signature.go:88-117 | Given correct primitives a signed envelope verifies under its signer's key and differs from the unsigned one in field 9 alone |
| Signature.SignatureLayout | internal/protocol/signature.go:15-106 | Signing yields exactly the envelope whose field 9 is the 64-byte and the 3309-byte signature of the same bytes, each under its half of the key, and otherwise unchanged |
| Signature.VerifiesIff | internal/protocol/signature.go:40-117 | An envelope verifies exactly when both signatures of those bytes do, and each refusal has its cause |
| Signature.Authentic | internal/protocol/signature.go:40-51 | If either primitive is unforgeable, any bytes that decode and verify agree in all eight signed fields with an envelope the key holder signed |
| Signature.SigningKeyParsesIff | internal/protocol/keys.go:66-87 | A parse yields a key exactly from that key's stored form, at its fixed offset |
| Signature.VerifyingKeyParsesIff | internal/protocol/keys.go:89-111 | The same for verifying keys |
| Signature.CorrectSignersExist | internal/protocol/signature.go:15-27 | The correctness assumed of the signing primitives can be met |
| Signature.IdealSigners | internal/protocol/signature.go:40-51 | For any key and any envelope there are primitives that are correct and unforgeable together and an envelope signed with them that verifies, so the authenticity theorem is about something |
| Sealing.SealThenOpen | internal/protocol/encryption.go:110-186 | Given correct primitives, opening a seal at its fixed offsets returns the plaintext |
| Sealing.SealLayout | internal/protocol/encryption.go:98-135 | Field 8 is the ephemeral key, the ciphertext and the plaintext under a key derived from the agreed secret, the encapsulated secret, the ephemeral key and the ciphertext in this order |
| Sealing.OpenIff | internal/protocol/encryption.go:145-186 | Opening succeeds exactly when field 8 is long enough, the key parses, both secrets come out and the AEAD opens under that same key; there is one refusal |
| Sealing.KeysAgreeIff | internal/protocol/encryption.go:92-105 | Under an injective derivation two openings use the same key if and only if both secrets, the ephemeral key and the ciphertext agree |
| Sealing.EnvelopesSealIff | internal/protocol/encryption.go:188-236 | Sealing and opening envelopes works for the three encrypted classes with an empty field 4 and touches field 8 alone |
| Sealing.PayloadArrives | internal/protocol/encryption.go:202-236 | Sealed, signed, encoded, decoded, verified and opened, every payload of every encrypted class that fits comes back, and one that does not fit is refused |
| Sealing.CorrelationRefused | internal/protocol/envelope.go:136-138 | A non-empty field 4 of an encrypted class is refused when sealing, decoding and opening |
| Sealing.RecipientKeyParsesIff | internal/protocol/encryption.go:67-90 | A parse yields a recipient key exactly from its stored form |
| Sealing.DecryptionKeyParsesIff | internal/protocol/encryption.go:247-266 | The same for decryption keys |
| Sealing.CorrectSealersExist | internal/protocol/encryption.go:110-186 | The correctness assumed of the sealing primitives can be met |
| Issuing.OneExpiry | internal/enrollment/issue.go:123-127 | The record's expiry and the credential's are one instant, never after the lifetime asked for and less than a second before it |
| Issuing.TokenTTLIff | internal/enrollment/issue.go:72-82 | Zero asks for fifteen minutes, one to fifty-nine minutes are taken as they are, anything else is refused |
| Subjects.JoinThenSplit | internal/natsauth/subjects.go:38-60 | A dot-free identifier stays one token wherever it is put in a subject |
| Subjects.SplitThenJoin | internal/enrollment/service.go:151-157 | Splitting loses nothing and leaves no dot in a token |
| Subjects.MatchIff | internal/natsauth/subjects.go:38-97 | What the recursive wildcard matching means position by position |
| Grants.PermissionMeansGrants | internal/natsauth/generate.go:387-392 | A direction permits exactly its grants, and nothing when it has none; without the explicit deny an empty list would permit everything |
| Grants.OwnersExactly | internal/natsauth/grants.go:14-69 | Every service, agent and bootstrap identity may publish, and may subscribe to, exactly the subjects whose own tokens name it |
| Grants.Separation | internal/natsauth/grants.go:14-69 | In any fleet a subject has at most one principal allowed to publish it and at most one allowed to subscribe to it |
| Grants.InboxSharedIff | internal/natsauth/generate.go:266-274 | An agent identifier would share a subscription with a service if and only if it were one of the two reserved names with an inbox |
| Grants.TokenOfIff | internal/enrollment/service.go:151-157 | The token read from a subject is t if and only if the subject is t's request subject |
| Grants.RequestNamesItsPublisher | internal/enrollment/service.go:148-157 | What arrives on a request subject came from the identity minted for the token it names, which may publish nowhere else |
| Grants.PresenceNamesItsPublisher | internal/enrollment/service.go:297-303 | What the presence consumer hears on a subject came from the agent that subject names |
| OperatorSlots.SlotsAreHolders | internal/operator/server.go:196-246 | In every interleaving each semaphore's length is the number of handlers holding it, within its limit |
| OperatorSlots.NothingBlocks | internal/operator/server.go:248-255 | Every release finds its own token, and no worker waits to deliver a result, abandoned or not |
| OperatorSlots.ReadsAreAuthorized | internal/operator/server.go:230-246 | A request byte is read only after the peer was found a member and took an authorized slot, and before it released it |
| OperatorSlots.DenialsAreRecorded | internal/operator/server.go:219-228 | A denial frame follows its committed record, and no byte of that connection is ever read |
| OperatorSlots.WaitingComesTo | internal/operator/server.go:215-246 | Once its lookup is done a handler's own steps read from a member while fewer than the limit are served, freeing its early slot, tell one over the limit so, and deny anyone else on the record |
| OperatorSlots.GivesBack | internal/operator/server.go:198-204 | From every reachable state each handler can end by its own steps, and has then given back exactly what it held |
| OperatorSlots.SlotsAllComeBack | internal/operator/server.go:138-143 | From every reachable state all handlers can end, and both semaphores are then empty |
| OperatorStream.ServeAuthorized | internal/operator/server.go:281-311 | The log of reads and answers is exactly a prefix read, a body read and an answer for each of the first m frames, and then what the way the loop ends says; so every answer directly follows the read that completes its request, positions only rise and no byte past a request is read before its answer; the answers are those of dispatch in order, and each end has its exact reason |
| OperatorStream.Frames | test/contract/operator/sockprobe/sockprobe.go:69-79 | The loop, uint32 sum included, splits any buffer as the recursive definition does, unless the buffer holds whole a frame whose length and four wrap around, and exactly then it panics |
| OperatorStream.SmallIsSliceable | test/contract/operator/sockprobe/sockprobe.go:69-79 | No buffer under 2^32 bytes holds a frame that makes the loop panic |
| OperatorStream.Observe | test/contract/operator/sockprobe/sockprobe.go:119-148 | Reading in any chunks finds the frames and remainder of reading the same bytes whole, panics exactly where reading them whole does, and stops early only once, and as soon as, enough frames have come |
| OperatorStream.SplitResumes | test/contract/operator/sockprobe/sockprobe.go:136-138 | A stream splits as its first part, then the remainder with the rest |
| OperatorStream.SplitSound | test/contract/operator/sockprobe/sockprobe.go:60-79 | The bodies framed, and the remainder, are the stream, and the remainder holds no complete frame |
| OperatorStream.SplitComplete | internal/operator/server.go:327-336 | What was written as frames is read back as those bodies |
| AtomicWrite.FileSystem.WriteAtomic | internal/enrollment/artifact.go:178-210 | The disks the write passes through are one system call apart, from the disk it found to the one it leaves, none left out; on every one of them, failures and half-done writes included, the target is visibly and after a power loss the old whole or the new whole at mode 0600 and no other file changed; success is exactly every checked call succeeding, after which only the new contents can be found |
| AtomicWrite.DurableForever | internal/enrollment/artifact.go:204-209 | Once written, the contents outlast any number of later power losses and writes of other files |
| Migrations.StatementsRun | internal/store/migrations.go:13-107 | From the schema of the version before, each migration runs, leaves the schema written out for its version, index included, and keeps every agent, job, result and audit row |
| Migrations.Store.Migrate | internal/store/migrations.go:109-144 | From any prefix, with any injected failure, fault or kill, the versions applied are again a prefix with exactly that schema; it completes if and only if nothing interrupts it, and then every version is applied |
| Migrations.AlwaysAPrefix | internal/store/migrations.go:109-144 | After any history of openings, failures, kills and writes a store is at exactly one version |

## Left out

- Cryptographic primitives: Ed25519, ML-DSA, X25519, ML-KEM, HKDF, AES-GCM, SHA-256, nkeys and JWT encoding, with their fixed contexts and nonces, are arguments or symbols, not algorithms.
- JSON, base64 and the content of a bundle: opaque injective encodings; an undecodable body is one malformed request.
- The NATS client, TLS, certificates, connection errors by kind and reconnection: a connection succeeds or the run stops.
- SQL text and SQLite: tables are maps, a transaction is one step, constraints are the branches that refuse.
- The jobs and results tables, audit retention and the contents of the ledger: single statements, or no more than "the ledger exists".
- Two enrollment processes on one host's artifact paths at once, and serving while enrolling: the agent takes no lock, and the model has one process per host.
- Unconditional liveness: the broker may lose every message, so recovery states what some continuation reaches.
- Clocks finer than a millisecond: the protocol's times are whole milliseconds, where a presence envelope's age is taken in nanoseconds.
- No activation after expiry: the presence handler does not check the token's expiry, so this does not hold of the code.
- Agent.Agent.Enroll: a kill inside the method is the machine's Stop step and is covered by the results about runs, not by the method's own postcondition.
- Service.Service.OnPresence: the sleep of the hold is not modelled, and a wait for the gate ends because whoever holds it lets go of it.
- Grants.Separation: streams, consumers' server-side configuration and the system account are not part of the table.
- AtomicWrite.FileSystem.WriteAtomic: one directory; a rename and an unlink may each reach the disk or not, independently, which is weaker than most filesystems.
- Comparing a credentials file with the service it is configured for, account limits and revocation: checks and claims settled by one branch.
- Socket preparation, peer credentials and group lookup: the membership result is any of its three outcomes.
- OperatorSlots.NothingBlocks: a queue of lookups filled by abandoned requests makes a handler wait for room or its timeout, which is a step that may be delayed, not one that fails.
- Configuration, commands, flags, headers, test vectors, fault journals and the repository's linters: file and text handling.
