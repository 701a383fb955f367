// The slot accounting of the operator socket as a step machine. A handler moves
// by one step wherever another goroutine may run: at a channel operation, a
// store write, a socket read or write. Accepts, timeouts, denials, refusals at
// the limit, abandoned lookups and closes interleave in every order.
module OperatorSlots {
  type ConnId = nat
  type WorkerId = nat

  datatype Membership = Authorized | NotAuthorized | LookupFailed

  datatype Phase =
    | Started
    | Queueing
    | Waiting
    | Refused
    | Recorded
    | Allowed
    | Limited
    | Acquired
    | Serving
    | FreeingAuthorized
    | FreeingUnauthorized
    | Closing

  predicate HoldsUnauthorized(p: Phase) {
    p.Started? || p.Queueing? || p.Waiting? || p.Refused? || p.Recorded? || p.Allowed? || p.Limited? || p.Acquired?
    || p.FreeingUnauthorized?
  }

  predicate HoldsAuthorized(p: Phase) {
    p.Acquired? || p.Serving? || p.FreeingAuthorized?
  }

  // What happened, in order.
  datatype Event =
    | Member(c: ConnId)
    | DenialRecorded(c: ConnId)
    | DenialWritten(c: ConnId)
    | Admitted(c: ConnId)
    | LimitWritten(c: ConnId)
    | RequestRead(c: ConnId)
    | Released(c: ConnId)

  // unauthorized and authorized are the lengths of the two semaphore channels,
  // lookups the queue, looking what each worker is at, and done the result
  // channels that hold a result. used are the connections ever accepted.
  datatype State = State(
    maxUnauthorized: nat,
    maxAuthorized: nat,
    listening: bool,
    unauthorized: nat,
    authorized: nat,
    lookups: seq<ConnId>,
    looking: map<WorkerId, ConnId>,
    done: map<ConnId, Membership>,
    conns: map<ConnId, Phase>,
    used: set<ConnId>,
    log: seq<Event>)

  function Init(maxUnauthorized: nat, maxAuthorized: nat): State {
    State(maxUnauthorized, maxAuthorized, true, 0, 0, [], map[], map[], map[], {}, [])
  }

  datatype Step =
    | Accept(c: ConnId)
    | CloseListener
    | Credentials(c: ConnId, ok: bool)
    | Enqueue(c: ConnId)
    | TimeOut(c: ConnId)
    | TakeLookup(w: WorkerId)
    | FinishLookup(w: WorkerId, result: Membership)
    | TakeResult(c: ConnId)
    | RecordDenial(c: ConnId, ok: bool)
    | WriteDenial(c: ConnId, sent: bool)
    | Acquire(c: ConnId)
    | WriteLimit(c: ConnId, sent: bool)
    | FreeEarly(c: ConnId)
    | Read(c: ConnId)
    | Finish(c: ConnId)
    | FreeAuthorized(c: ConnId)
    | FreeUnauthorized(c: ConnId)
    | CloseConn(c: ConnId)

  predicate At(s: State, c: ConnId, p: Phase) {
    c in s.conns && s.conns[c] == p
  }

  // A channel receive waits for an element, and a send for room.
  predicate Enabled(s: State, step: Step) {
    match step
    case Accept(c) => s.listening && c !in s.used
    case CloseListener => true
    case Credentials(c, _) => At(s, c, Started)
    case Enqueue(c) => At(s, c, Queueing) && |s.lookups| < s.maxUnauthorized
    case TimeOut(c) => At(s, c, Queueing) || At(s, c, Waiting)
    case TakeLookup(w) => w < s.maxUnauthorized && w !in s.looking && s.lookups != []
    case FinishLookup(w, _) => w in s.looking && s.looking[w] !in s.done
    case TakeResult(c) => At(s, c, Waiting) && c in s.done
    case RecordDenial(c, _) => At(s, c, Refused)
    case WriteDenial(c, _) => At(s, c, Recorded)
    case Acquire(c) => At(s, c, Allowed)
    case WriteLimit(c, _) => At(s, c, Limited)
    case FreeEarly(c) => At(s, c, Acquired) && s.unauthorized > 0
    case Read(c) => At(s, c, Serving)
    case Finish(c) => At(s, c, Serving)
    case FreeAuthorized(c) => At(s, c, FreeingAuthorized) && s.authorized > 0
    case FreeUnauthorized(c) => At(s, c, FreeingUnauthorized) && s.unauthorized > 0
    case CloseConn(c) => At(s, c, Closing)
  }

  function Move(s: State, c: ConnId, p: Phase): State {
    s.(conns := s.conns[c := p])
  }

  function Log(s: State, e: Event): State {
    s.(log := s.log + [e])
  }

  function Next(s: State, step: Step): State
    requires Enabled(s, step)
  {
    match step
    case Accept(c) =>
      // Beyond the limit the connection is closed at once.
      if s.unauthorized < s.maxUnauthorized
      then Move(s, c, Started).(unauthorized := s.unauthorized + 1, used := s.used + {c})
      else s.(used := s.used + {c})
    case CloseListener => s.(listening := false)
    case Credentials(c, ok) => Move(s, c, if ok then Queueing else FreeingUnauthorized)
    case Enqueue(c) => Move(s, c, Waiting).(lookups := s.lookups + [c])
    case TimeOut(c) => Move(s, c, FreeingUnauthorized)
    case TakeLookup(w) => s.(lookups := s.lookups[1..], looking := s.looking[w := s.lookups[0]])
    case FinishLookup(w, result) =>
      var c := s.looking[w];
      var s1 := s.(looking := s.looking - {w}, done := s.done[c := result]);
      if result.Authorized? then Log(s1, Member(c)) else s1
    case TakeResult(c) => Move(s, c, if s.done[c].Authorized? then Allowed else Refused).(done := s.done - {c})
    case RecordDenial(c, ok) =>
      if ok then Log(Move(s, c, Recorded), DenialRecorded(c)) else Move(s, c, FreeingUnauthorized)
    case WriteDenial(c, sent) =>
      var s1 := Move(s, c, FreeingUnauthorized);
      if sent then Log(s1, DenialWritten(c)) else s1
    case Acquire(c) =>
      if s.authorized < s.maxAuthorized
      then Log(Move(s, c, Acquired), Admitted(c)).(authorized := s.authorized + 1)
      else Move(s, c, Limited)
    case WriteLimit(c, sent) =>
      var s1 := Move(s, c, FreeingUnauthorized);
      if sent then Log(s1, LimitWritten(c)) else s1
    case FreeEarly(c) => Move(s, c, Serving).(unauthorized := s.unauthorized - 1)
    case Read(c) => Log(s, RequestRead(c))
    case Finish(c) => Move(s, c, FreeingAuthorized)
    case FreeAuthorized(c) => Log(Move(s, c, Closing), Released(c)).(authorized := s.authorized - 1)
    case FreeUnauthorized(c) => Move(s, c, Closing).(unauthorized := s.unauthorized - 1)
    case CloseConn(c) => s.(conns := s.conns - {c})
  }

  // ---- the invariant --------------------------------------------------------

  function UnauthorizedHolders(conns: map<ConnId, Phase>): set<ConnId> {
    set c | c in conns && HoldsUnauthorized(conns[c])
  }

  function AuthorizedHolders(conns: map<ConnId, Phase>): set<ConnId> {
    set c | c in conns && HoldsAuthorized(conns[c])
  }

  // Each semaphore holds exactly one token for each handler that took one.
  ghost predicate Counted(s: State) {
    && s.unauthorized == |UnauthorizedHolders(s.conns)| <= s.maxUnauthorized
    && s.authorized == |AuthorizedHolders(s.conns)| <= s.maxAuthorized
    && s.conns.Keys <= s.used
  }

  // A connection's one lookup is nowhere yet, queued, with one worker, or done.
  ghost predicate OneLookup(s: State) {
    && |s.lookups| <= s.maxUnauthorized
    && (forall i, j :: 0 <= i < j < |s.lookups| ==> s.lookups[i] != s.lookups[j])
    && (forall w :: w in s.looking ==> s.looking[w] !in s.lookups && s.looking[w] !in s.done && s.looking[w] in s.used)
    && (forall v, w :: v in s.looking && w in s.looking && v != w ==> s.looking[v] != s.looking[w])
    && (forall c :: c in s.lookups ==> c !in s.done && c in s.used)
    && s.done.Keys <= s.used
    && (forall c :: c in s.conns && !MayAwait(s.conns[c]) ==> NoLookup(s, c))
  }

  // A handler waits for its lookup, or has given up on it.
  predicate MayAwait(p: Phase) {
    p.Waiting? || p.FreeingUnauthorized? || p.Closing?
  }

  ghost predicate NoLookup(s: State, c: ConnId) {
    c !in s.lookups && c !in s.done && forall w :: w in s.looking ==> s.looking[w] != c
  }

  // What must have happened before an event, and what must not have.
  ghost predicate Justified(log: seq<Event>, e: Event) {
    match e
    case DenialWritten(c) => DenialRecorded(c) in log
    case DenialRecorded(c) => Member(c) !in log && DenialRecorded(c) !in log
    case Admitted(c) => Member(c) in log && Admitted(c) !in log
    case LimitWritten(c) => Member(c) in log && Admitted(c) !in log
    case RequestRead(c) => Admitted(c) in log && Released(c) !in log
    case Released(c) => Admitted(c) in log && Released(c) !in log
    case Member(c) => Member(c) !in log && DenialRecorded(c) !in log
  }

  ghost predicate Ordered(log: seq<Event>) {
    forall k :: 0 <= k < |log| ==> Justified(log[..k], log[k])
  }

  // What a handler's phase says of the log.
  ghost predicate Tracked(log: seq<Event>, c: ConnId, p: Phase) {
    && (p.Started? || p.Queueing? || p.Refused? || p.Recorded? ==> Member(c) !in log)
    && (p.Started? || p.Queueing? || p.Waiting? || p.Refused? ==> DenialRecorded(c) !in log)
    && (p.Allowed? || p.Limited? ==> Member(c) in log)
    && (HoldsUnauthorized(p) && !p.Acquired? && !p.FreeingUnauthorized? ==> Admitted(c) !in log && Released(c) !in log)
    && (HoldsAuthorized(p) ==> Admitted(c) in log && Released(c) !in log)
    && (p.Recorded? ==> DenialRecorded(c) in log)
  }

  ghost predicate Unanswered(log: seq<Event>, c: ConnId) {
    Member(c) !in log && DenialRecorded(c) !in log
  }

  ghost predicate Logged(s: State) {
    && Ordered(s.log)
    && (forall c :: c in s.conns ==> Tracked(s.log, c, s.conns[c]))
    && (forall e :: e in s.log ==> e.c in s.used)
    && (forall c :: c in s.done ==> (s.done[c].Authorized? <==> Member(c) in s.log))
    && (forall c :: c in s.done ==> DenialRecorded(c) !in s.log)
    && (forall c :: c in s.lookups ==> Unanswered(s.log, c))
    && (forall w :: w in s.looking ==> Unanswered(s.log, s.looking[w]))
  }

  ghost predicate Inv(s: State) {
    Counted(s) && OneLookup(s) && Logged(s)
  }

  // ---- counting -------------------------------------------------------------

  lemma HoldersMove(conns: map<ConnId, Phase>, c: ConnId, p: Phase)
    ensures var u, u' := UnauthorizedHolders(conns), UnauthorizedHolders(conns[c := p]);
            |u'| == |u| + (if HoldsUnauthorized(p) then 1 else 0)
                    - (if c in conns && HoldsUnauthorized(conns[c]) then 1 else 0)
    ensures var a, a' := AuthorizedHolders(conns), AuthorizedHolders(conns[c := p]);
            |a'| == |a| + (if HoldsAuthorized(p) then 1 else 0)
                    - (if c in conns && HoldsAuthorized(conns[c]) then 1 else 0)
  {
    hide HoldsUnauthorized, HoldsAuthorized;
    var u, u' := UnauthorizedHolders(conns), UnauthorizedHolders(conns[c := p]);
    assert u' - {c} == u - {c} && (c in u' <==> HoldsUnauthorized(p))
           && (c in u <==> c in conns && HoldsUnauthorized(conns[c]));
    OneMoved(u, u', c);
    var a, a' := AuthorizedHolders(conns), AuthorizedHolders(conns[c := p]);
    assert a' - {c} == a - {c} && (c in a' <==> HoldsAuthorized(p))
           && (c in a <==> c in conns && HoldsAuthorized(conns[c]));
    OneMoved(a, a', c);
  }

  lemma OneMoved(x: set<ConnId>, y: set<ConnId>, c: ConnId)
    requires x - {c} == y - {c}
    ensures |y| == |x| + (if c in y then 1 else 0) - (if c in x then 1 else 0)
  {
    if c !in x { assert x - {c} == x; }
    if c !in y { assert y - {c} == y; }
  }

  lemma HoldersDrop(conns: map<ConnId, Phase>, c: ConnId)
    requires c in conns && !HoldsUnauthorized(conns[c]) && !HoldsAuthorized(conns[c])
    ensures UnauthorizedHolders(conns - {c}) == UnauthorizedHolders(conns)
    ensures AuthorizedHolders(conns - {c}) == AuthorizedHolders(conns)
  {}

  // A handler moved, and the semaphores with it.
  lemma CountedMove(s: State, s': State, c: ConnId, p: Phase)
    requires Counted(s) && s'.conns == s.conns[c := p] && s.used <= s'.used && c in s'.used
    requires s'.maxUnauthorized == s.maxUnauthorized && s'.maxAuthorized == s.maxAuthorized
    requires s'.unauthorized == s.unauthorized + (if HoldsUnauthorized(p) then 1 else 0)
                                - (if c in s.conns && HoldsUnauthorized(s.conns[c]) then 1 else 0)
    requires s'.authorized == s.authorized + (if HoldsAuthorized(p) then 1 else 0)
                              - (if c in s.conns && HoldsAuthorized(s.conns[c]) then 1 else 0)
    requires s'.unauthorized <= s'.maxUnauthorized && s'.authorized <= s'.maxAuthorized
    ensures Counted(s')
  {
    HoldersMove(s.conns, c, p);
  }

  predicate Moves(step: Step) {
    !(step.CloseListener? || step.TakeLookup? || step.FinishLookup? || step.Read? || step.CloseConn?)
  }

  predicate Early(step: Step) {
    step.Accept? || step.Credentials? || step.TimeOut? || step.RecordDenial? || step.WriteDenial?
  }

  function Mover(step: Step): ConnId
    requires Moves(step)
  {
    step.c
  }

  lemma CountedAccept(s: State, c: ConnId)
    requires Counted(s) && Enabled(s, Accept(c))
    ensures Counted(Next(s, Accept(c)))
  {
    if s.unauthorized < s.maxUnauthorized { CountedMove(s, Next(s, Accept(c)), c, Started); }
  }

  lemma CountedEarly(s: State, step: Step)
    requires Counted(s) && Enabled(s, step) && Early(step) && !step.Accept?
    ensures Counted(Next(s, step))
  {
    UsedOf(s, step);
    var s', c := Next(s, step), Mover(step);
    hide Counted;
    CountedMove(s, s', c, s'.conns[c]);
  }

  lemma CountedTurning(s: State, step: Step)
    requires Counted(s) && Enabled(s, step) && (step.Enqueue? || step.TakeResult? || step.Acquire? || step.WriteLimit?)
    ensures Counted(Next(s, step))
  {
    UsedOf(s, step);
    var s', c := Next(s, step), Mover(step);
    hide Counted;
    CountedMove(s, s', c, s'.conns[c]);
  }

  lemma CountedLate(s: State, step: Step)
    requires Counted(s) && Enabled(s, step)
             && (step.FreeEarly? || step.Finish? || step.FreeAuthorized? || step.FreeUnauthorized?)
    ensures Counted(Next(s, step))
  {
    UsedOf(s, step);
    var s', c := Next(s, step), Mover(step);
    hide Counted;
    CountedMove(s, s', c, s'.conns[c]);
  }

  lemma UsedOf(s: State, step: Step)
    requires Counted(s) && Enabled(s, step) && Moves(step)
    ensures s.unauthorized <= s.maxUnauthorized && s.authorized <= s.maxAuthorized
    ensures !step.Accept? ==> Mover(step) in s.used
  {}

  lemma CountedStill(s: State, step: Step)
    requires Counted(s) && Enabled(s, step) && !Moves(step)
    ensures Counted(Next(s, step))
  {
    if step.CloseConn? { HoldersDrop(s.conns, step.c); }
    hide UnauthorizedHolders, AuthorizedHolders;
  }

  lemma CountedNext(s: State, step: Step)
    requires Counted(s) && Enabled(s, step)
    ensures Counted(Next(s, step))
  {
    hide Counted, Next, Enabled;
    if step.Accept? {
      CountedAccept(s, step.c);
    } else if Early(step) {
      CountedEarly(s, step);
    } else if step.Enqueue? || step.TakeResult? || step.Acquire? || step.WriteLimit? {
      CountedTurning(s, step);
    } else if Moves(step) {
      CountedLate(s, step);
    } else {
      CountedStill(s, step);
    }
  }

  // A step that leaves the lookups alone, and starts no handler anew.
  lemma OneLookupFrame(s: State, s': State)
    requires OneLookup(s) && s'.lookups == s.lookups && s'.looking == s.looking && s'.done == s.done
    requires s.used <= s'.used && s'.maxUnauthorized == s.maxUnauthorized
    requires forall c :: c in s'.conns && !MayAwait(s'.conns[c])
               ==> c !in s.used || (c in s.conns && !MayAwait(s.conns[c]))
    ensures OneLookup(s')
  {
    forall c | c in s'.conns && !MayAwait(s'.conns[c])
      ensures NoLookup(s', c)
    {
      if c in s.used { assert NoLookup(s, c); }
    }
  }

  predicate LooksUp(step: Step) {
    step.Enqueue? || step.TakeLookup? || step.FinishLookup? || step.TakeResult?
  }

  // The handlers a move leaves alone, and the lookups nearly every move does.
  lemma OthersStay(s: State, step: Step)
    requires Counted(s) && Enabled(s, step) && Moves(step) && !LooksUp(step)
    ensures Quiet(s, Next(s, step), Mover(step), step.Accept?)
  {
    if Early(step) { EarlyStays(s, step); } else { LateStays(s, step); }
  }

  ghost predicate Quiet(s: State, s': State, c: ConnId, begins: bool) {
    && (forall b :: b in s'.conns && b != c ==> b in s.conns && s'.conns[b] == s.conns[b])
    && s'.lookups == s.lookups && s'.looking == s.looking && s'.done == s.done && s.used <= s'.used
    && s'.maxUnauthorized == s.maxUnauthorized
    && (if begins then c !in s.used && c in s'.used else c in s.conns)
    && (c in s'.conns && !MayAwait(s'.conns[c]) ==> c !in s.used || (c in s.conns && !MayAwait(s.conns[c])))
  }

  lemma EarlyStays(s: State, step: Step)
    requires Counted(s) && Enabled(s, step) && Early(step)
    ensures Quiet(s, Next(s, step), Mover(step), step.Accept?)
  {
    hide UnauthorizedHolders, AuthorizedHolders;
  }

  lemma LateStays(s: State, step: Step)
    requires Counted(s) && Enabled(s, step) && Moves(step) && !LooksUp(step) && !Early(step)
    ensures Quiet(s, Next(s, step), Mover(step), step.Accept?)
  {
    hide UnauthorizedHolders, AuthorizedHolders;
  }

  lemma OneLookupEnqueue(s: State, c: ConnId)
    requires Counted(s) && OneLookup(s) && Enabled(s, Enqueue(c))
    ensures OneLookup(Next(s, Enqueue(c)))
  {
    assert NoLookup(s, c);
  }

  lemma OneLookupTake(s: State, w: WorkerId)
    requires OneLookup(s) && Enabled(s, TakeLookup(w))
    ensures OneLookup(Next(s, TakeLookup(w)))
  {
    var s' := Next(s, TakeLookup(w));
    assert forall c :: c in s'.lookups ==> c in s.lookups;
    assert forall i :: 0 <= i < |s'.lookups| ==> s'.lookups[i] == s.lookups[i + 1];
    forall c | c in s'.conns && !MayAwait(s'.conns[c])
      ensures NoLookup(s', c)
    {
      assert NoLookup(s, c) && s.lookups[0] != c;
    }
  }

  lemma OneLookupFinish(s: State, w: WorkerId, result: Membership)
    requires OneLookup(s) && Enabled(s, FinishLookup(w, result))
    ensures OneLookup(Next(s, FinishLookup(w, result)))
  {
    var s' := Next(s, FinishLookup(w, result));
    forall c | c in s'.conns && !MayAwait(s'.conns[c])
      ensures NoLookup(s', c)
    {
      assert NoLookup(s, c);
    }
  }

  lemma OneLookupNext(s: State, step: Step)
    requires Counted(s) && OneLookup(s) && Enabled(s, step)
    ensures OneLookup(Next(s, step))
  {
    hide Next, Counted, OneLookup;
    match step
    case Enqueue(c) => OneLookupEnqueue(s, c);
    case TakeLookup(w) => OneLookupTake(s, w);
    case FinishLookup(w, result) => OneLookupFinish(s, w, result);
    case TakeResult(c) => OneLookupResult(s, c);
    case _ => if Moves(step) { OneLookupMoves(s, step); } else { OneLookupStill(s, step); }
  }

  lemma OneLookupMoves(s: State, step: Step)
    requires Counted(s) && OneLookup(s) && Enabled(s, step) && Moves(step) && !LooksUp(step)
    ensures OneLookup(Next(s, step))
  {
    OthersStay(s, step);
    hide Next, Enabled, Counted, OneLookup, Moves, LooksUp;
    OneLookupFrame(s, Next(s, step));
  }

  lemma OneLookupStill(s: State, step: Step)
    requires OneLookup(s) && Enabled(s, step) && (step.CloseListener? || step.Read? || step.CloseConn?)
    ensures OneLookup(Next(s, step))
  {
    hide OneLookup;
    OneLookupFrame(s, Next(s, step));
  }

  lemma OneLookupResult(s: State, c: ConnId)
    requires OneLookup(s) && Enabled(s, TakeResult(c))
    ensures OneLookup(Next(s, TakeResult(c)))
  {}

  // ---- the log --------------------------------------------------------------

  lemma OrderedAppend(log: seq<Event>, e: Event)
    requires Ordered(log) && Justified(log, e)
    ensures Ordered(log + [e])
  {
    var out := log + [e];
    forall k | 0 <= k < |out|
      ensures Justified(out[..k], out[k])
    {
      if k < |log| { assert out[..k] == log[..k]; } else { assert out[..k] == log; }
    }
  }

  // Nothing new happened, or something did to one connection, and that
  // connection's new phase fits.
  lemma LoggedMove(s: State, s': State, c: ConnId)
    requires Logged(s) && s.used <= s'.used && c in s'.used
    requires s'.log == s.log || (|s'.log| == |s.log| + 1 && s'.log[..|s.log|] == s.log
                                 && s'.log[|s.log|].c == c && !s'.log[|s.log|].Member?
                                 && Justified(s.log, s'.log[|s.log|])
                                 && (s'.log[|s.log|].DenialRecorded? ==> NoLookup(s, c)))
    requires forall b :: b in s'.conns && b != c ==> b in s.conns && s'.conns[b] == s.conns[b]
    requires c in s'.conns ==> Tracked(s'.log, c, s'.conns[c])
    requires s'.lookups == s.lookups && s'.looking == s.looking
    requires forall b :: b in s'.done ==> b in s.done && s'.done[b] == s.done[b]
    ensures Logged(s')
  {
    if s'.log != s.log {
      var e := s'.log[|s.log|];
      assert s'.log == s.log + [e];
      OrderedAppend(s.log, e);
      hide Ordered;
      StillUnanswered(s, s', e);
    }
    forall b | b in s'.conns && b != c
      ensures Tracked(s'.log, b, s'.conns[b])
    {
      assert Tracked(s.log, b, s.conns[b]);
    }
  }

  lemma StillUnanswered(s: State, s': State, e: Event)
    requires Logged(s) && s'.log == s.log + [e] && !e.Member? && (e.DenialRecorded? ==> NoLookup(s, e.c))
    ensures forall b :: b in s.lookups ==> Unanswered(s'.log, b)
    ensures forall w :: w in s.looking ==> Unanswered(s'.log, s.looking[w])
    ensures forall b :: b in s.done ==> DenialRecorded(b) !in s'.log && (s.done[b].Authorized? <==> Member(b) in s'.log)
  {
    hide Ordered, Tracked;
  }

  // Entering, and leaving without having been let in.
  lemma TrackedQuiet(s: State, step: Step)
    requires Inv(s) && Enabled(s, step)
    requires step.Accept? || step.Credentials? || step.Enqueue? || step.TimeOut? || step.TakeResult? || step.FreeEarly?
             || step.Finish? || step.FreeUnauthorized?
    ensures var s', c := Next(s, step), Mover(step);
            s'.log == s.log && (c in s'.conns ==> Tracked(s'.log, c, s'.conns[c]))
  {
    hide Inv, Counted;
    var c := Mover(step);
    if step.Accept? {
      NeverHeardOf(s, c);
    } else {
      TrackedOf(s, c);
      if c in s.done { DoneOf(s, c); }
    }
  }

  lemma NoneAsked(s: State, c: ConnId)
    requires Inv(s) && c in s.conns && !MayAwait(s.conns[c])
    ensures NoLookup(s, c)
  {
    hide Counted, Logged, NoLookup;
  }

  lemma DoneOf(s: State, c: ConnId)
    requires Inv(s) && c in s.done
    ensures (s.done[c].Authorized? <==> Member(c) in s.log) && DenialRecorded(c) !in s.log
  {
    hide Counted, OneLookup, Ordered, Tracked;
  }

  lemma TrackedOf(s: State, c: ConnId)
    requires Inv(s) && c in s.conns
    ensures Tracked(s.log, c, s.conns[c])
  {
    hide Counted, OneLookup, Ordered, Tracked;
  }

  lemma NeverHeardOf(s: State, c: ConnId)
    requires Inv(s) && c !in s.used
    ensures c !in s.conns && forall e :: e in s.log ==> e.c != c
  {
    hide Counted, OneLookup, Ordered, Tracked;
    KnownConns(s);
  }

  lemma KnownConns(s: State)
    requires Counted(s)
    ensures s.conns.Keys <= s.used
  {}

  // The step wrote at most one event, of its own connection, and rightly.
  ghost predicate Spoke(s: State, s': State, c: ConnId) {
    && c in s'.conns && Tracked(s'.log, c, s'.conns[c])
    && (s'.log == s.log || (|s'.log| == |s.log| + 1 && s'.log[..|s.log|] == s.log
                            && s'.log[|s.log|].c == c && !s'.log[|s.log|].Member? && Justified(s.log, s'.log[|s.log|])
                            && (s'.log[|s.log|].DenialRecorded? ==> NoLookup(s, c))))
  }

  lemma TrackedRecord(s: State, c: ConnId, ok: bool)
    requires Inv(s) && Enabled(s, RecordDenial(c, ok))
    ensures Spoke(s, Next(s, RecordDenial(c, ok)), c)
  {
    hide Inv, NoLookup;
    TrackedOf(s, c);
    NoneAsked(s, c);
  }

  lemma TrackedDenial(s: State, c: ConnId, sent: bool)
    requires Inv(s) && Enabled(s, WriteDenial(c, sent))
    ensures Spoke(s, Next(s, WriteDenial(c, sent)), c)
  {
    hide Inv, NoLookup;
    TrackedOf(s, c);
  }

  lemma TrackedAdmission(s: State, c: ConnId)
    requires Inv(s) && Enabled(s, Acquire(c))
    ensures Spoke(s, Next(s, Acquire(c)), c)
  {
    hide Inv;
    TrackedOf(s, c);
  }

  lemma TrackedLeaving(s: State, step: Step)
    requires Inv(s) && Enabled(s, step) && (step.WriteLimit? || step.FreeAuthorized?)
    ensures Spoke(s, Next(s, step), Mover(step))
  {
    hide Inv;
    TrackedOf(s, step.c);
  }

  lemma LoggedMoves(s: State, step: Step)
    requires Inv(s) && Enabled(s, step) && Moves(step) && !LooksUp(step)
    ensures Logged(Next(s, step))
  {
    var s', c := Next(s, step), Mover(step);
    OthersStay(s, step);
    KnownConns(s);
    if step.RecordDenial? {
      TrackedRecord(s, step.c, step.ok);
    } else if step.WriteDenial? {
      TrackedDenial(s, step.c, step.sent);
    } else if step.Acquire? {
      TrackedAdmission(s, step.c);
    } else if step.WriteLimit? || step.FreeAuthorized? {
      TrackedLeaving(s, step);
    } else {
      TrackedQuiet(s, step);
    }
    hide Next, Enabled, Counted, OneLookup, Logged, Tracked, Justified, Moves, LooksUp;
    assert c in s'.used;
    LoggedMove(s, s', c);
  }

  lemma LoggedLookup(s: State, step: Step)
    requires Inv(s) && Enabled(s, step) && (step.Enqueue? || step.TakeResult?)
    ensures Logged(Next(s, step))
  {
    hide Counted, OneLookup, Ordered, Tracked;
    TrackedQuiet(s, step);
    var s', c := Next(s, step), Mover(step);
    forall b | b in s'.conns
      ensures Tracked(s'.log, b, s'.conns[b])
    {
      if b != c { assert Tracked(s.log, b, s.conns[b]); }
    }
    if step.Enqueue? { AsksUnanswered(s, c); }
  }

  lemma AsksUnanswered(s: State, c: ConnId)
    requires Inv(s) && c in s.conns && s.conns[c].Queueing?
    ensures Unanswered(s.log, c)
  {
    hide Counted, OneLookup, Ordered;
    assert Tracked(s.log, c, s.conns[c]);
  }

  // A worker's result is put down, and said in the log if it is a yes.
  lemma LoggedResult(s: State, s': State, c: ConnId, result: Membership)
    requires Logged(s) && Unanswered(s.log, c) && c in s.used && s'.used == s.used
    requires s'.log == if result.Authorized? then s.log + [Member(c)] else s.log
    requires s'.conns == s.conns && (c in s.conns ==> MayAwait(s.conns[c]))
    requires s'.lookups == s.lookups && c !in s.lookups && c !in s.done && s'.done == s.done[c := result]
    requires forall v :: v in s'.looking ==> v in s.looking && s'.looking[v] == s.looking[v] != c
    ensures Logged(s')
  {
    if result.Authorized? { OrderedAppend(s.log, Member(c)); }
    hide Ordered;
    TrackedStill(s, s', c);
    hide Tracked;
  }

  // A yes concerns no handler but one that may be waiting for it.
  lemma TrackedStill(s: State, s': State, c: ConnId)
    requires Logged(s) && s'.conns == s.conns && (c in s.conns ==> MayAwait(s.conns[c]))
    requires s'.log == s.log || s'.log == s.log + [Member(c)]
    ensures forall b :: b in s'.conns ==> Tracked(s'.log, b, s'.conns[b])
  {
    hide Ordered, Unanswered;
    forall b | b in s'.conns
      ensures Tracked(s'.log, b, s'.conns[b])
    {
      assert Tracked(s.log, b, s.conns[b]);
    }
  }

  lemma LoggedWorker(s: State, w: WorkerId, result: Membership)
    requires Inv(s) && Enabled(s, FinishLookup(w, result))
    ensures Logged(Next(s, FinishLookup(w, result)))
  {
    var s', c := Next(s, FinishLookup(w, result)), s.looking[w];
    assert c !in s.lookups && c !in s.done && forall v :: v in s'.looking ==> s'.looking[v] != c;
    if c in s.conns { LookedUp(s, w); }
    assert Unanswered(s.log, c) && c in s.used;
    hide Counted, OneLookup, Logged, Unanswered, MayAwait;
    LoggedResult(s, s', c, result);
  }

  lemma LookedUp(s: State, w: WorkerId)
    requires OneLookup(s) && w in s.looking && s.looking[w] in s.conns
    ensures MayAwait(s.conns[s.looking[w]])
  {
    var c := s.looking[w];
    assert MayAwait(s.conns[c]) || NoLookup(s, c);
  }

  lemma LoggedNext(s: State, step: Step)
    requires Inv(s) && Enabled(s, step)
    ensures Logged(Next(s, step))
  {
    if step.FinishLookup? {
      LoggedWorker(s, step.w, step.result);
    } else if LooksUp(step) && !step.TakeLookup? {
      LoggedLookup(s, step);
    } else if Moves(step) {
      LoggedMoves(s, step);
    } else if step.Read? {
      LoggedRead(s, step.c);
    } else {
      hide Counted, OneLookup, Ordered, Tracked;
    }
  }

  lemma TrackedRead(s: State, c: ConnId)
    requires Inv(s) && Enabled(s, Read(c))
    ensures Spoke(s, Next(s, Read(c)), c)
  {
    hide Inv;
    TrackedOf(s, c);
  }

  lemma LoggedRead(s: State, c: ConnId)
    requires Inv(s) && Enabled(s, Read(c))
    ensures Logged(Next(s, Read(c)))
  {
    KnownConns(s);
    TrackedRead(s, c);
    hide Counted, OneLookup, Ordered, Tracked, Justified;
    LoggedMove(s, Next(s, Read(c)), c);
  }

  // ---- runs -----------------------------------------------------------------

  lemma StepKeeps(s: State, step: Step)
    requires Inv(s) && Enabled(s, step)
    ensures Inv(Next(s, step))
  {
    CountedNext(s, step);
    OneLookupNext(s, step);
    LoggedNext(s, step);
  }

  predicate Runs(s: State, steps: seq<Step>)
    decreases |steps|
  {
    steps == [] || (Enabled(s, steps[0]) && Runs(Next(s, steps[0]), steps[1..]))
  }

  function After(s: State, steps: seq<Step>): State
    requires Runs(s, steps)
    decreases |steps|
  {
    if steps == [] then s else After(Next(s, steps[0]), steps[1..])
  }

  ghost predicate Reachable(s: State) {
    exists u, a, steps :: Runs(Init(u, a), steps) && After(Init(u, a), steps) == s
  }

  lemma {:induction false} RunKeeps(s: State, steps: seq<Step>)
    requires Inv(s) && Runs(s, steps)
    ensures Inv(After(s, steps))
    decreases |steps|
  {
    if steps != [] {
      StepKeeps(s, steps[0]);
      RunKeeps(Next(s, steps[0]), steps[1..]);
    }
  }

  lemma ReachableInv(s: State)
    requires Reachable(s)
    ensures Inv(s)
  {
    var u, a, steps :| Runs(Init(u, a), steps) && After(Init(u, a), steps) == s;
    assert Inv(Init(u, a));
    RunKeeps(Init(u, a), steps);
  }

  // ---- what follows ---------------------------------------------------------

  // In every reachable state each semaphore's length is the number of handlers
  // holding a token of it, within its limit.
  lemma SlotsAreHolders(s: State)
    requires Reachable(s)
    ensures s.unauthorized == |UnauthorizedHolders(s.conns)| <= s.maxUnauthorized
    ensures s.authorized == |AuthorizedHolders(s.conns)| <= s.maxAuthorized
  {
    ReachableInv(s);
  }

  lemma HolderHasToken(s: State, c: ConnId)
    requires Counted(s) && c in s.conns
    ensures HoldsUnauthorized(s.conns[c]) ==> s.unauthorized > 0
    ensures HoldsAuthorized(s.conns[c]) ==> s.authorized > 0
  {
    if HoldsUnauthorized(s.conns[c]) { assert c in UnauthorizedHolders(s.conns); }
    if HoldsAuthorized(s.conns[c]) { assert c in AuthorizedHolders(s.conns); }
  }

  // Every release finds its own token, and no worker ever waits to hand over a
  // result, whether or not anyone still wants it.
  lemma NothingBlocks(s: State, c: ConnId, w: WorkerId, result: Membership)
    requires Reachable(s)
    ensures At(s, c, Acquired) ==> Enabled(s, FreeEarly(c))
    ensures At(s, c, FreeingAuthorized) ==> Enabled(s, FreeAuthorized(c))
    ensures At(s, c, FreeingUnauthorized) ==> Enabled(s, FreeUnauthorized(c))
    ensures w in s.looking ==> Enabled(s, FinishLookup(w, result))
  {
    ReachableInv(s);
    if c in s.conns { HolderHasToken(s, c); }
  }

  // A request byte is read only after the peer was found a member and took an
  // authorized slot, and before it gave that slot back.
  lemma ReadsAreAuthorized(s: State, k: nat, c: ConnId)
    requires Reachable(s) && k < |s.log| && s.log[k] == RequestRead(c)
    ensures Admitted(c) in s.log[..k] && Member(c) in s.log[..k] && Released(c) !in s.log[..k]
  {
    ReachableInv(s);
    assert Justified(s.log[..k], s.log[k]);
    AdmittedWasMember(s.log, k, c);
  }

  lemma AdmittedWasMember(log: seq<Event>, k: nat, c: ConnId)
    requires Ordered(log) && k <= |log| && Admitted(c) in log[..k]
    ensures Member(c) in log[..k]
  {
    var j :| 0 <= j < k && log[j] == Admitted(c);
    assert Justified(log[..j], log[j]);
    var i :| 0 <= i < j && log[i] == Member(c);
    assert log[..k][i] == Member(c);
  }

  // A denial is written only after its record, once recorded, and no byte of
  // that connection is read, before the denial or after it.
  lemma DenialsAreRecorded(s: State, k: nat, c: ConnId)
    requires Reachable(s) && k < |s.log| && s.log[k] == DenialWritten(c)
    ensures DenialRecorded(c) in s.log[..k]
    ensures RequestRead(c) !in s.log
  {
    ReachableInv(s);
    assert Justified(s.log[..k], s.log[k]);
    var i :| 0 <= i < k && s.log[i] == DenialRecorded(c);
    if RequestRead(c) in s.log {
      var j :| 0 <= j < |s.log| && s.log[j] == RequestRead(c);
      ReadsAreAuthorized(s, j, c);
      var m :| 0 <= m < j && s.log[m] == Member(c);
      NeverBoth(s.log, i, m, c);
    }
  }

  lemma NeverBoth(log: seq<Event>, i: nat, m: nat, c: ConnId)
    requires Ordered(log) && i < |log| && m < |log| && log[i] == DenialRecorded(c)
    ensures log[m] != Member(c)
  {
    assert Justified(log[..i], log[i]) && Justified(log[..m], log[m]);
    assert m < i ==> log[m] in log[..i];
    assert i < m ==> log[i] in log[..m];
  }

  // ---- who is served --------------------------------------------------------

  lemma RunsOn(s: State, steps: seq<Step>, step: Step) returns (more: seq<Step>)
    requires Runs(s, steps) && Enabled(After(s, steps), step)
    ensures Runs(s, more) && After(s, more) == Next(After(s, steps), step)
  {
    hide Next, Enabled;
    var s1 := After(s, steps);
    assert [step][0] == step;
    var none: seq<Step> := [step][1..];
    assert none == [];
    assert Runs(Next(s1, step), none) && After(Next(s1, step), none) == Next(s1, step);
    assert Runs(s1, [step]) && After(s1, [step]) == Next(s1, step);
    RunsCompose(s, steps, [step]);
    more := steps + [step];
  }

  // What a waiting handler comes to by its own steps once the lookup is done: a
  // member is read from if fewer than the limit are, and its early slot is free
  // again; over the limit it is told so; and anyone else is denied on the record.
  lemma WaitingComesTo(s: State, c: ConnId) returns (steps: seq<Step>)
    requires Reachable(s) && At(s, c, Waiting) && c in s.done
    ensures Runs(s, steps)
    ensures var s' := After(s, steps);
            if !s.done[c].Authorized? then s'.log == s.log + [DenialRecorded(c), DenialWritten(c)]
            else if |AuthorizedHolders(s.conns)| < s.maxAuthorized then
              && s'.log == s.log + [Admitted(c), RequestRead(c)] && At(s', c, Serving)
              && s'.unauthorized == s.unauthorized - 1 && s'.authorized == s.authorized + 1
            else s'.log == s.log + [LimitWritten(c)] && s'.authorized == s.authorized
  {
    SlotsAreHolders(s);
    ReachableInv(s);
    HolderHasToken(s, c);
    hide Inv, Runs, After, Reachable, Next, Enabled, AuthorizedHolders;
    var none: seq<Step> := [];
    Stays(s);
    Taken(s, c);
    steps := RunsOn(s, none, TakeResult(c));
    var s1 := Next(s, TakeResult(c));
    if !s.done[c].Authorized? {
      DenialSteps(s1, c);
      steps := RunsOn(s, steps, RecordDenial(c, true));
      steps := RunsOn(s, steps, WriteDenial(c, true));
    } else if s.authorized < s.maxAuthorized {
      ServedSteps(s1, c);
      steps := RunsOn(s, steps, Acquire(c));
      steps := RunsOn(s, steps, FreeEarly(c));
      steps := RunsOn(s, steps, Read(c));
    } else {
      LimitSteps(s1, c);
      steps := RunsOn(s, steps, Acquire(c));
      steps := RunsOn(s, steps, WriteLimit(c, true));
    }
  }

  lemma Taken(s: State, c: ConnId)
    requires At(s, c, Waiting) && c in s.done
    ensures Enabled(s, TakeResult(c))
    ensures var s' := Next(s, TakeResult(c));
            && s' == s.(conns := s'.conns, done := s'.done)
            && At(s', c, if s.done[c].Authorized? then Allowed else Refused)
  {}

  lemma DenialSteps(s: State, c: ConnId)
    requires At(s, c, Refused)
    ensures Enabled(s, RecordDenial(c, true))
    ensures var s1 := Next(s, RecordDenial(c, true));
            && Enabled(s1, WriteDenial(c, true))
            && Next(s1, WriteDenial(c, true)).log == s.log + [DenialRecorded(c), DenialWritten(c)]
  {
    assert s.log + [DenialRecorded(c)] + [DenialWritten(c)] == s.log + [DenialRecorded(c), DenialWritten(c)];
  }

  lemma ServedSteps(s: State, c: ConnId)
    requires At(s, c, Allowed) && s.authorized < s.maxAuthorized && s.unauthorized > 0
    ensures Enabled(s, Acquire(c))
    ensures var s1 := Next(s, Acquire(c));
            && Enabled(s1, FreeEarly(c))
            && var s2 := Next(s1, FreeEarly(c));
            && Enabled(s2, Read(c))
            && var s3 := Next(s2, Read(c));
            && s3.log == s.log + [Admitted(c), RequestRead(c)] && At(s3, c, Serving)
            && s3.unauthorized == s.unauthorized - 1 && s3.authorized == s.authorized + 1
  {
    var s1 := Next(s, Acquire(c));
    assert At(s1, c, Acquired) && s1.log == s.log + [Admitted(c)];
    assert s.log + [Admitted(c)] + [RequestRead(c)] == s.log + [Admitted(c), RequestRead(c)];
  }

  lemma LimitSteps(s: State, c: ConnId)
    requires At(s, c, Allowed) && s.authorized >= s.maxAuthorized
    ensures Enabled(s, Acquire(c))
    ensures var s1 := Next(s, Acquire(c));
            && Enabled(s1, WriteLimit(c, true))
            && var s2 := Next(s1, WriteLimit(c, true));
            s2.log == s.log + [LimitWritten(c)] && s2.authorized == s.authorized
  {}

  lemma Stays(s: State)
    ensures Runs(s, []) && After(s, []) == s
  {}

  // ---- nothing leaks --------------------------------------------------------

  function Rank(p: Phase): nat {
    match p
    case Closing => 1
    case FreeingAuthorized => 2
    case FreeingUnauthorized => 2
    case Serving => 3
    case Acquired => 4
    case Allowed => 5
    case _ => 3
  }

  // The handler's own way out from wherever it stands.
  function Exit(c: ConnId, p: Phase): Step {
    match p
    case Started => Credentials(c, false)
    case Queueing => TimeOut(c)
    case Waiting => TimeOut(c)
    case Refused => RecordDenial(c, false)
    case Recorded => WriteDenial(c, false)
    case Allowed => Acquire(c)
    case Limited => WriteLimit(c, false)
    case Acquired => FreeEarly(c)
    case Serving => Finish(c)
    case FreeingAuthorized => FreeAuthorized(c)
    case FreeingUnauthorized => FreeUnauthorized(c)
    case Closing => CloseConn(c)
  }

  ghost predicate Outward(s: State, s': State, c: ConnId) {
    && s'.conns - {c} == s.conns - {c} && (c in s'.conns ==> c in s.conns && Rank(s'.conns[c]) < Rank(s.conns[c]))
    && s'.maxUnauthorized == s.maxUnauthorized && s'.maxAuthorized == s.maxAuthorized
  }

  lemma ExitStep(s: State, c: ConnId)
    requires Inv(s) && c in s.conns
    ensures var step := Exit(c, s.conns[c]); Enabled(s, step) && Outward(s, Next(s, step), c)
  {
    HolderHasToken(s, c);
    hide Counted, OneLookup, Logged;
    var p := s.conns[c];
    if p.Allowed? || p.Acquired? || p.Serving? || p.Limited? { ExitAdmitted(s, c); } else { ExitOther(s, c); }
  }

  lemma ExitAdmitted(s: State, c: ConnId)
    requires c in s.conns && var p := s.conns[c]; p.Allowed? || p.Acquired? || p.Serving? || p.Limited?
    requires HoldsUnauthorized(s.conns[c]) ==> s.unauthorized > 0
    ensures var step := Exit(c, s.conns[c]); Enabled(s, step) && Outward(s, Next(s, step), c)
  {
    hide HoldsAuthorized;
    var s' := Next(s, Exit(c, s.conns[c]));
    assert s'.conns == s.conns[c := s'.conns[c]];
    assert s.conns[c := s'.conns[c]] - {c} == s.conns - {c};
  }

  lemma ExitOther(s: State, c: ConnId)
    requires c in s.conns && var p := s.conns[c]; !(p.Allowed? || p.Acquired? || p.Serving? || p.Limited?)
    requires HoldsUnauthorized(s.conns[c]) ==> s.unauthorized > 0
    requires HoldsAuthorized(s.conns[c]) ==> s.authorized > 0
    ensures var step := Exit(c, s.conns[c]); Enabled(s, step) && Outward(s, Next(s, step), c)
  {
    var s' := Next(s, Exit(c, s.conns[c]));
    if c in s'.conns { assert s'.conns == s.conns[c := s'.conns[c]]; }
  }

  // By its own steps and whatever the others do not do, a handler ends.
  lemma {:induction false} Leaves(s: State, c: ConnId) returns (steps: seq<Step>)
    requires Inv(s)
    ensures Runs(s, steps) && After(s, steps).conns == s.conns - {c} && Inv(After(s, steps))
    decreases if c in s.conns then Rank(s.conns[c]) else 0
  {
    if c !in s.conns {
      steps := [];
      assert s.conns - {c} == s.conns;
    } else {
      ExitStep(s, c);
      var step := Exit(c, s.conns[c]);
      StepKeeps(s, step);
      var s1 := Next(s, step);
      hide Next, Enabled, Inv, Exit;
      var rest := Leaves(s1, c);
      steps := [step] + rest;
      assert steps[0] == step && steps[1..] == rest;
    }
  }

  // And when it has ended it has given back exactly what it held.
  lemma GivesBack(s: State, c: ConnId) returns (steps: seq<Step>)
    requires Reachable(s) && c in s.conns
    ensures Runs(s, steps)
    ensures var s' := After(s, steps);
            && s'.conns == s.conns - {c}
            && s'.unauthorized == s.unauthorized - (if HoldsUnauthorized(s.conns[c]) then 1 else 0)
            && s'.authorized == s.authorized - (if HoldsAuthorized(s.conns[c]) then 1 else 0)
  {
    ReachableInv(s);
    steps := Leaves(s, c);
    HoldersWithout(s.conns, c);
    hide OneLookup, Logged, HoldsUnauthorized, HoldsAuthorized;
  }

  lemma HoldersWithout(conns: map<ConnId, Phase>, c: ConnId)
    requires c in conns
    ensures UnauthorizedHolders(conns - {c}) == UnauthorizedHolders(conns) - {c}
    ensures AuthorizedHolders(conns - {c}) == AuthorizedHolders(conns) - {c}
  {}

  lemma RunsCompose(s: State, a: seq<Step>, b: seq<Step>)
    requires Runs(s, a) && Runs(After(s, a), b)
    ensures Runs(s, a + b) && After(s, a + b) == After(After(s, a), b)
    decreases |a|
  {
    hide Next, Enabled;
    if a == [] {
      assert a + b == b;
    } else {
      RunsCompose(Next(s, a[0]), a[1..], b);
      assert (a + b)[0] == a[0] && (a + b)[1..] == a[1..] + b;
    }
  }

  // No slot is ever lost: from every reachable state the handlers can all end,
  // and then both semaphores are empty.
  lemma {:induction false} Drains(s: State) returns (steps: seq<Step>)
    requires Inv(s)
    ensures Runs(s, steps)
    ensures var s' := After(s, steps); s'.conns == map[] && s'.unauthorized == 0 && s'.authorized == 0
    decreases |s.conns|
  {
    if s.conns == map[] {
      steps := [];
      assert UnauthorizedHolders(s.conns) == {} && AuthorizedHolders(s.conns) == {};
    } else {
      var c :| c in s.conns;
      var first := Leaves(s, c);
      var s1 := After(s, first);
      assert s1.conns.Keys == s.conns.Keys - {c};
      assert |s1.conns| == |s1.conns.Keys| && |s.conns| == |s.conns.Keys|;
      hide Inv, Next, Enabled;
      var rest := Drains(s1);
      RunsCompose(s, first, rest);
      steps := first + rest;
    }
  }

  lemma SlotsAllComeBack(s: State)
    requires Reachable(s)
    ensures exists steps :: Runs(s, steps) && After(s, steps).conns == map[]
                            && After(s, steps).unauthorized == 0 && After(s, steps).authorized == 0
  {
    ReachableInv(s);
    var steps := Drains(s);
  }
}
