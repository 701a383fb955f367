// The permission table of internal/natsauth as the broker enforces it: what each
// principal may publish and subscribe to, and why no two of them ever share a
// subject in one direction.
module Grants {
  import opened Common
  import opened Identifiers
  import opened Subjects

  datatype Role = CommandPublisher | EnrollmentService | ResultConsumer | PresenceConsumer | MonitoringRole

  datatype Principal = Service(role: Role) | Agent(id: string) | Bootstrap(token: string)

  datatype Grants = Grants(pub: seq<string>, sub: seq<string>)

  function ServiceGrants(r: Role): Grants {
    match r
    case CommandPublisher => Grants([ANY_COMMAND, ANY_CANCELLATION], [InboxSubtree(COMMAND_PUBLISHER)])
    case EnrollmentService => Grants([AnyEnrollment("reply")], [AnyEnrollment("request")])
    case ResultConsumer =>
      Grants([ConsumerNext(RESULT_STREAM, RESULT_CONSUMER_NAME), ConsumerAck(RESULT_STREAM, RESULT_CONSUMER_NAME)],
             [InboxSubtree(RESULT_CONSUMER)])
    case PresenceConsumer => Grants([], [AnyAgentOut("presence")])
    case MonitoringRole => Grants([], [AnyAgentOut("event")] + AdvisorySubjects())
  }

  function AgentGrants(id: string): Grants {
    Grants([AgentOut(id, "result"), AgentOut(id, "event"), AgentOut(id, "presence"),
            ConsumerNext(COMMAND_STREAM, CommandConsumer(id)), ConsumerAck(COMMAND_STREAM, CommandConsumer(id))],
           [AgentCommandPrefix(id), InboxSubtree(id)])
  }

  function BootstrapGrants(token: string): Grants {
    Grants([TokenEnrollment(token, "request")], [TokenEnrollment(token, "reply")])
  }

  function GrantsOf(p: Principal): Grants {
    match p
    case Service(r) => ServiceGrants(r)
    case Agent(id) => AgentGrants(id)
    case Bootstrap(t) => BootstrapGrants(t)
  }

  // What is minted: an identifier the minter refuses has no principal.
  predicate Minted(p: Principal) {
    match p
    case Service(_) => true
    case Agent(id) => AgentIdentifier(id)
    case Bootstrap(t) => AgentIdentifier(t)
  }

  // ---- permissions ----------------------------------------------------------

  datatype Permission = Permission(allow: seq<string>, deny: seq<string>)

  function PermissionFor(allow: seq<string>): Permission {
    if allow == [] then Permission([], [">"]) else Permission(allow, [])
  }

  predicate Covers(patterns: seq<string>, subject: string) {
    exists i :: 0 <= i < |patterns| && Match(Tokens(patterns[i]), Tokens(subject))
  }

  // A deny wins, and an allow list restricts only when it lists something.
  predicate Permits(p: Permission, subject: string) {
    !Covers(p.deny, subject) && (p.allow == [] || Covers(p.allow, subject))
  }

  predicate MayPublish(p: Principal, subject: string) {
    Permits(PermissionFor(GrantsOf(p).pub), subject)
  }

  predicate MaySubscribe(p: Principal, subject: string) {
    Permits(PermissionFor(GrantsOf(p).sub), subject)
  }

  // Rendered so, a direction permits exactly what is granted in it, and nothing
  // when nothing is. Without the deny, an empty list would permit everything.
  lemma PermissionMeansGrants(allow: seq<string>, subject: string)
    ensures Permits(PermissionFor(allow), subject) <==> Covers(allow, subject)
    ensures Permits(Permission(allow, []), subject) <==> allow == [] || Covers(allow, subject)
  {
    if allow == [] {
      TokensOfOne(">");
      assert Match(Tokens([">"][0]), Tokens(subject));
    }
  }

  // ---- the owner of a subject -----------------------------------------------

  function AgentOfConsumer(c: string): (p: Option<Principal>)
    ensures p.Some? ==> p.value.Agent?
  {
    if |c| >= 7 && c[..7] == "ks-cmd-" && AgentIdentifier(c[7..]) then Some(Agent(c[7..])) else None
  }

  function AgentNamed(id: string): Option<Principal> {
    if AgentIdentifier(id) then Some(Agent(id)) else None
  }

  predicate OnPlane(t: seq<string>, plane: string) {
    |t| == 4 && t[0] == "ks" && t[1] == plane
  }

  predicate IsNext(t: seq<string>) {
    |t| == 7 && t[..5] == ["$JS", "API", "CONSUMER", "MSG", "NEXT"]
  }

  predicate IsAck(t: seq<string>) {
    |t| >= 5 && t[0] == "$JS" && t[1] == "ACK"
  }

  predicate IsInbox(t: seq<string>) {
    |t| >= 3 && t[0] == "_KSINBOX"
  }

  predicate IsJob(t: seq<string>) {
    |t| >= 4 && t[0] == "ks" && t[1] == "job"
  }

  predicate IsAdvisory(t: seq<string>) {
    || (|t| == 7 && t[5] == "KS_CMD"
        && (t[..5] == ["$JS", "EVENT", "ADVISORY", "CONSUMER", "MAX_DELIVERIES"]
            || t[..5] == ["$JS", "EVENT", "ADVISORY", "CONSUMER", "MSG_TERMINATED"]))
    || t == ["$JS", "EVENT", "ADVISORY", "API", "LIMIT_REACHED"]
  }

  function CommandOwner(class_: string): Option<Principal> {
    if class_ == "cmd" || class_ == "cancel" then Some(Service(CommandPublisher)) else None
  }

  function EnrollmentOwner(token: string, class_: string): Option<Principal> {
    if class_ == "reply" then Some(Service(EnrollmentService))
    else if class_ == "request" && AgentIdentifier(token) then Some(Bootstrap(token))
    else None
  }

  function OutOwner(id: string, class_: string): Option<Principal> {
    if class_ == "result" || class_ == "event" || class_ == "presence" then AgentNamed(id) else None
  }

  function ConsumerOwner(stream: string, consumer: string): Option<Principal> {
    if stream == "KS_RES" && consumer == "ks-res" then Some(Service(ResultConsumer))
    else if stream == "KS_CMD" then AgentOfConsumer(consumer)
    else None
  }

  // The one principal a subject's own tokens name as its publisher.
  function PublisherOf(t: seq<string>): Option<Principal> {
    if OnPlane(t, "job") then CommandOwner(t[3])
    else if OnPlane(t, "enroll") then EnrollmentOwner(t[2], t[3])
    else if OnPlane(t, "out") then OutOwner(t[2], t[3])
    else if IsNext(t) then ConsumerOwner(t[5], t[6])
    else if IsAck(t) then ConsumerOwner(t[2], t[3])
    else None
  }

  function InboxHearer(name: string): Option<Principal> {
    if name == "command-publisher" then Some(Service(CommandPublisher))
    else if name == "result-consumer" then Some(Service(ResultConsumer))
    else AgentNamed(name)
  }

  function EnrollmentHearer(token: string, class_: string): Option<Principal> {
    if class_ == "request" then Some(Service(EnrollmentService))
    else if class_ == "reply" && AgentIdentifier(token) then Some(Bootstrap(token))
    else None
  }

  function OutHearer(class_: string): Option<Principal> {
    if class_ == "presence" then Some(Service(PresenceConsumer))
    else if class_ == "event" then Some(Service(MonitoringRole))
    else None
  }

  // And the one they name as its subscriber.
  function SubscriberOf(t: seq<string>): Option<Principal> {
    if IsInbox(t) then InboxHearer(t[1])
    else if IsJob(t) then AgentNamed(t[2])
    else if OnPlane(t, "enroll") then EnrollmentHearer(t[2], t[3])
    else if OnPlane(t, "out") then OutHearer(t[3])
    else if IsAdvisory(t) then Some(Service(MonitoringRole))
    else None
  }

  lemma ShapesExclude(t: seq<string>)
    ensures IsNext(t) ==> !IsAck(t)
    ensures OnPlane(t, "job") ==> !OnPlane(t, "enroll") && !OnPlane(t, "out")
    ensures OnPlane(t, "enroll") ==> !OnPlane(t, "out") && !IsJob(t)
    ensures OnPlane(t, "out") ==> !IsJob(t)
    ensures OnPlane(t, "job") || OnPlane(t, "enroll") || OnPlane(t, "out") || IsJob(t) ==>
              !IsNext(t) && !IsAck(t) && !IsInbox(t) && !IsAdvisory(t)
    ensures IsInbox(t) ==> !IsAdvisory(t)
  {
    if IsNext(t) { assert t[0] == t[..5][0] == "$JS" && t[1] == t[..5][1] == "API"; }
    if IsAdvisory(t) {
      if |t| == 7 { assert t[0] == t[..5][0] == "$JS"; } else { assert t[0] == "$JS"; }
    }
  }

  // ---- what each pattern matches --------------------------------------------

  predicate Literal(s: string) {
    s != "*" && s != ">"
  }

  lemma PlaneMatches(plane: string, x: string, class_: string, s: string)
    requires DotFree(plane) && DotFree(x) && DotFree(class_)
    requires Literal(plane) && x != ">"
    ensures Match(Tokens("ks." + plane + "." + x + "." + class_), Tokens(s)) <==>
            var t := Tokens(s);
            && (if class_ == ">" then |t| >= 4 else |t| == 4 && (class_ == "*" || t[3] == class_))
            && t[0] == "ks" && t[1] == plane && (x == "*" || t[2] == x)
  {
    PlaneTokens(plane, x, class_);
    MatchIff(["ks", plane, x, class_], Tokens(s));
    var p, t := ["ks", plane, x, class_], Tokens(s);
    hide Match, Tokens;
    assert p[0] == "ks" && p[1] == plane && p[2] == x && p[3] == class_;
  }

  lemma InboxMatches(name: string, s: string)
    requires DotFree(name) && Literal(name)
    ensures Match(Tokens(InboxSubtree(name)), Tokens(s)) <==>
            IsInbox(Tokens(s)) && Tokens(s)[1] == name
  {
    InboxTokens(name);
    var p, t := ["_KSINBOX", name, ">"], Tokens(s);
    MatchIff(p, t);
    hide Match, Tokens;
    assert p[0] == "_KSINBOX" && p[1] == name && p[2] == ">";
  }

  lemma AckMatches(stream: string, consumer: string, s: string)
    requires DotFree(stream) && DotFree(consumer) && Literal(stream) && Literal(consumer)
    ensures Match(Tokens(ConsumerAck(stream, consumer)), Tokens(s)) <==>
            var t := Tokens(s);
            IsAck(t) && t[2] == stream && t[3] == consumer
  {
    AckTokens(stream, consumer);
    var p, t := ["$JS", "ACK", stream, consumer, ">"], Tokens(s);
    MatchIff(p, t);
    hide Match, Tokens;
    assert p[0] == "$JS" && p[1] == "ACK" && p[2] == stream && p[3] == consumer && p[4] == ">";
  }

  // A pattern of a literal head and two more tokens.
  lemma HeadedMatches(head: seq<string>, x: string, y: string, t: seq<string>)
    requires forall i :: 0 <= i < |head| ==> Literal(head[i])
    requires Literal(x) && y != ">"
    ensures Match(head + [x, y], t) <==>
            |t| == |head| + 2 && t[..|head|] == head && t[|head|] == x && (y == "*" || t[|head| + 1] == y)
  {
    var p, n := head + [x, y], |head|;
    MatchIff(p, t);
    assert p[n] == x && p[n + 1] == y;
    hide Match, Literal;
    if |t| == n + 2 { HeadAgrees(head, x, y, t); }
  }

  lemma HeadAgrees(head: seq<string>, x: string, y: string, t: seq<string>)
    requires forall i :: 0 <= i < |head| ==> Literal(head[i])
    requires Literal(x) && |t| == |head| + 2
    ensures Agree(head + [x, y], t, |t|) <==> t[..|head|] == head && t[|head|] == x && (y == "*" || t[|head| + 1] == y)
  {
    var p, n := head + [x, y], |head|;
    if t[..n] == head && t[n] == x && (y == "*" || t[n + 1] == y) {
      forall i | 0 <= i < |t|
        ensures p[i] == "*" || p[i] == t[i]
      {
        if i < n { assert t[..n][i] == head[i]; }
      }
    }
    if Agree(p, t, |t|) {
      forall i | 0 <= i < n
        ensures t[i] == head[i]
      {
        assert p[i] == head[i];
      }
      assert p[n] == x && p[n + 1] == y;
    }
  }

  lemma ConsumerNames(id: string)
    requires Identifier(id)
    ensures DotFree(CommandConsumer(id)) && Literal(CommandConsumer(id))
    ensures forall c: string :: c == CommandConsumer(id) <==> |c| >= 7 && c[..7] == "ks-cmd-" && c[7..] == id
  {
    IdentifierDotFree(id);
    forall c: string
      ensures c == CommandConsumer(id) <==> |c| >= 7 && c[..7] == "ks-cmd-" && c[7..] == id
    {
      if |c| >= 7 { assert c == c[..7] + c[7..]; }
    }
  }

  lemma CoversCons(patterns: seq<string>, s: string)
    ensures Covers(patterns, s) <==>
              patterns != [] && (Match(Tokens(patterns[0]), Tokens(s)) || Covers(patterns[1..], s))
  {
    hide Match, Tokens;
    if Covers(patterns, s) {
      var i :| 0 <= i < |patterns| && Match(Tokens(patterns[i]), Tokens(s));
      if i > 0 { assert patterns[1..][i - 1] == patterns[i]; }
    }
    if patterns != [] && Covers(patterns[1..], s) {
      var i :| 0 <= i < |patterns[1..]| && Match(Tokens(patterns[1..][i]), Tokens(s));
      assert patterns[i + 1] == patterns[1..][i];
    }
  }

  lemma CoversTwo(a: string, b: string, s: string)
    ensures Covers([a], s) <==> Match(Tokens(a), Tokens(s))
    ensures Covers([a, b], s) <==> Match(Tokens(a), Tokens(s)) || Match(Tokens(b), Tokens(s))
  {
    CoversCons([a], s);
    CoversCons([b], s);
    CoversCons([a, b], s);
    assert [a, b][1..] == [b] && [a][1..] == [] && [b][1..] == [];
  }

  predicate OutClass(class_: string) {
    class_ == "result" || class_ == "event" || class_ == "presence"
  }

  lemma AgentPublishes(id: string, s: string)
    requires Identifier(id)
    ensures var t := Tokens(s); var c := CommandConsumer(id);
            Covers(AgentGrants(id).pub, s) <==>
            || (OnPlane(t, "out") && t[2] == id && OutClass(t[3]))
            || (IsNext(t) && t[5] == COMMAND_STREAM && t[6] == c)
            || (IsAck(t) && t[2] == COMMAND_STREAM && t[3] == c)
  {
    var g := AgentGrants(id).pub;
    var c := CommandConsumer(id);
    assert g == [AgentOut(id, "result"), AgentOut(id, "event"), AgentOut(id, "presence")]
                + [ConsumerNext(COMMAND_STREAM, c), ConsumerAck(COMMAND_STREAM, c)];
    hide *;
    OutCovers(id, s);
    ConsumerCovers(COMMAND_STREAM, id, s);
    CoversJoin([AgentOut(id, "result"), AgentOut(id, "event"), AgentOut(id, "presence")],
               [ConsumerNext(COMMAND_STREAM, c), ConsumerAck(COMMAND_STREAM, c)], s);
  }

  lemma ConsumerCovers(stream: string, id: string, s: string)
    requires Identifier(id) && DotFree(stream) && Literal(stream)
    ensures var t := Tokens(s); var c := CommandConsumer(id);
            Covers([ConsumerNext(stream, c), ConsumerAck(stream, c)], s) <==>
            || (IsNext(t) && t[5] == stream && t[6] == c)
            || (IsAck(t) && t[2] == stream && t[3] == c)
  {
    ConsumerNames(id);
    var c := CommandConsumer(id);
    hide Match, Tokens, Covers, ConsumerNext, ConsumerAck, CommandConsumer;
    CoversTwo(ConsumerNext(stream, c), ConsumerAck(stream, c), s);
    NextMatches(stream, c, s);
    AckMatches(stream, c, s);
  }

  lemma CoversJoin(xs: seq<string>, ys: seq<string>, s: string)
    ensures Covers(xs + ys, s) <==> Covers(xs, s) || Covers(ys, s)
  {
    hide Match, Tokens;
    if Covers(xs, s) {
      var i :| 0 <= i < |xs| && Match(Tokens(xs[i]), Tokens(s));
      assert (xs + ys)[i] == xs[i];
    }
    if Covers(ys, s) {
      var i :| 0 <= i < |ys| && Match(Tokens(ys[i]), Tokens(s));
      assert (xs + ys)[|xs| + i] == ys[i];
    }
  }

  lemma OutCovers(id: string, s: string)
    requires Identifier(id)
    ensures var t := Tokens(s);
            Covers([AgentOut(id, "result"), AgentOut(id, "event"), AgentOut(id, "presence")], s) <==>
            OnPlane(t, "out") && t[2] == id && OutClass(t[3])
  {
    OutMatches(id, "result", s);
    OutMatches(id, "event", s);
    OutMatches(id, "presence", s);
    hide Match, Tokens, AgentOut, OnPlane, Covers;
    var g := [AgentOut(id, "result"), AgentOut(id, "event"), AgentOut(id, "presence")];
    CoversCons(g, s);
    assert g[1..] == [AgentOut(id, "event"), AgentOut(id, "presence")];
    CoversTwo(AgentOut(id, "event"), AgentOut(id, "presence"), s);
  }

  lemma OutMatches(id: string, class_: string, s: string)
    requires Identifier(id) && DotFree(class_) && Literal(class_)
    ensures var t := Tokens(s);
            Match(Tokens(AgentOut(id, class_)), t) <==> OnPlane(t, "out") && t[2] == id && t[3] == class_
  {
    IdentifierDotFree(id);
    PlaneMatches("out", id, class_, s);
    assert "ks." + "out" + "." + id + "." + class_ == AgentOut(id, class_);
  }

  lemma AgentSubscribes(id: string, s: string)
    requires Identifier(id)
    ensures var t := Tokens(s);
            Covers(AgentGrants(id).sub, s) <==>
            || (IsJob(t) && t[2] == id)
            || (IsInbox(t) && t[1] == id)
  {
    IdentifierDotFree(id);
    PlaneMatches("job", id, ">", s);
    assert "ks." + "job" + "." + id + "." + ">" == AgentCommandPrefix(id);
    InboxMatches(id, s);
    hide Match, Tokens, Covers;
    CoversTwo(AgentCommandPrefix(id), InboxSubtree(id), s);
  }

  lemma NextMatches(stream: string, consumer: string, s: string)
    requires DotFree(stream) && DotFree(consumer) && Literal(stream) && Literal(consumer)
    ensures Match(Tokens(ConsumerNext(stream, consumer)), Tokens(s)) <==>
            var t := Tokens(s);
            IsNext(t) && t[5] == stream && t[6] == consumer
  {
    NextTokens(stream, consumer);
    hide Match, Tokens;
    HeadedMatches(NEXT_HEAD, stream, consumer, Tokens(s));
  }

  // ---- every principal, exactly ---------------------------------------------

  lemma AgentOwns(id: string, s: string)
    requires AgentIdentifier(id)
    ensures Covers(AgentGrants(id).pub, s) <==> PublisherOf(Tokens(s)) == Some(Agent(id))
  {
    var t := Tokens(s);
    AgentPublishes(id, s);
    ShapesExclude(t);
    hide Match, Tokens, Covers, AgentGrants, OnPlane, IsNext, IsAck, IsInbox, IsJob, IsAdvisory;
    if OnPlane(t, "job") {
      OnPlaneLength(t, "job");
    } else if OnPlane(t, "enroll") {
      OnPlaneLength(t, "enroll");
    } else if OnPlane(t, "out") {
      OnPlaneLength(t, "out");
      assert OutOwner(t[2], t[3]) == Some(Agent(id)) <==> t[2] == id && OutClass(t[3]);
    } else {
      ConsumerLengths(t);
      hide OutClass, OutOwner, CommandOwner, EnrollmentOwner;
      if IsNext(t) { ConsumerOf(t[5], t[6], id); }
      if IsAck(t) { ConsumerOf(t[2], t[3], id); }
    }
  }

  lemma OnPlaneLength(t: seq<string>, plane: string)
    ensures OnPlane(t, plane) ==> |t| == 4
  {}

  lemma ConsumerLengths(t: seq<string>)
    ensures IsNext(t) ==> |t| == 7
    ensures IsAck(t) ==> |t| >= 5
    ensures IsJob(t) ==> |t| >= 4
    ensures IsInbox(t) ==> |t| >= 3
  {}

  lemma ConsumerOf(stream: string, consumer: string, id: string)
    requires AgentIdentifier(id)
    ensures ConsumerOwner(stream, consumer) == Some(Agent(id)) <==>
              stream == COMMAND_STREAM && consumer == CommandConsumer(id)
  {
    ConsumerNames(id);
    hide AgentIdentifier;
  }

  lemma AgentHears(id: string, s: string)
    requires AgentIdentifier(id)
    ensures Covers(AgentGrants(id).sub, s) <==> SubscriberOf(Tokens(s)) == Some(Agent(id))
  {
    var t := Tokens(s);
    AgentSubscribes(id, s);
    ShapesExclude(t);
    hide Match, Tokens, Covers, AgentGrants, Identifier;
  }

  lemma BootstrapOwns(token: string, s: string)
    requires AgentIdentifier(token)
    ensures Covers(BootstrapGrants(token).pub, s) <==> PublisherOf(Tokens(s)) == Some(Bootstrap(token))
    ensures Covers(BootstrapGrants(token).sub, s) <==> SubscriberOf(Tokens(s)) == Some(Bootstrap(token))
  {
    var t := Tokens(s);
    EnrollmentMatches(token, "request", s);
    EnrollmentMatches(token, "reply", s);
    ShapesExclude(t);
    hide Match, Tokens, Covers, AgentIdentifier, TokenEnrollment, OnPlane, IsNext, IsAck, IsInbox, IsJob, IsAdvisory,
         AgentOfConsumer;
    CoversTwo(TokenEnrollment(token, "request"), "", s);
    CoversTwo(TokenEnrollment(token, "reply"), "", s);
  }

  lemma EnrollmentMatches(token: string, class_: string, s: string)
    requires Identifier(token) && DotFree(class_) && Literal(class_)
    ensures var t := Tokens(s);
            Match(Tokens(TokenEnrollment(token, class_)), t) <==>
              OnPlane(t, "enroll") && t[2] == token && t[3] == class_
  {
    IdentifierDotFree(token);
    PlaneMatches("enroll", token, class_, s);
    assert "ks." + "enroll" + "." + token + "." + class_ == TokenEnrollment(token, class_);
  }

  lemma StarMatches(plane: string, class_: string, pattern: string, s: string)
    requires DotFree(plane) && Literal(plane) && DotFree(class_) && Literal(class_)
    requires pattern == "ks." + plane + ".*." + class_
    ensures Match(Tokens(pattern), Tokens(s)) <==> OnPlane(Tokens(s), plane) && Tokens(s)[3] == class_
  {
    PlaneMatches(plane, "*", class_, s);
    assert "ks." + plane + "." + "*" + "." + class_ == pattern;
  }

  // The four kinds of pattern a service has on a plane.
  lemma CommandsMatch(s: string)
    ensures var t := Tokens(s);
            && (Match(Tokens(ANY_COMMAND), t) <==> OnPlane(t, "job") && t[3] == "cmd")
            && (Match(Tokens(ANY_CANCELLATION), t) <==> OnPlane(t, "job") && t[3] == "cancel")
  {
    hide Match, Tokens, OnPlane;
    CommandPatterns();
    StarMatches("job", "cmd", ANY_COMMAND, s);
    StarMatches("job", "cancel", ANY_CANCELLATION, s);
  }

  lemma PresenceMatches(s: string)
    ensures var t := Tokens(s);
            Match(Tokens(AnyAgentOut("presence")), t) <==> OnPlane(t, "out") && t[3] == "presence"
  {
    assert DotFree("presence") && Literal("presence");
    hide *;
    AnyMatches("presence", s);
  }

  lemma RequestMatches(s: string)
    ensures var t := Tokens(s);
            Match(Tokens(AnyEnrollment("request")), t) <==> OnPlane(t, "enroll") && t[3] == "request"
  {
    assert DotFree("request") && Literal("request");
    hide *;
    AnyMatches("request", s);
  }

  lemma CommandPatterns()
    ensures ANY_COMMAND == "ks." + "job" + ".*." + "cmd"
    ensures ANY_CANCELLATION == "ks." + "job" + ".*." + "cancel"
  {}

  lemma AnyMatches(class_: string, s: string)
    requires DotFree(class_) && Literal(class_)
    ensures var t := Tokens(s);
            && (Match(Tokens(AnyEnrollment(class_)), t) <==> OnPlane(t, "enroll") && t[3] == class_)
            && (Match(Tokens(AnyAgentOut(class_)), t) <==> OnPlane(t, "out") && t[3] == class_)
  {
    assert AnyEnrollment(class_) == "ks." + "enroll" + ".*." + class_;
    assert AnyAgentOut(class_) == "ks." + "out" + ".*." + class_;
    hide Match, Tokens, OnPlane;
    StarMatches("enroll", class_, AnyEnrollment(class_), s);
    StarMatches("out", class_, AnyAgentOut(class_), s);
  }

  lemma CommandPublisherOwns(s: string)
    ensures Covers(ServiceGrants(CommandPublisher).pub, s) <==>
              PublisherOf(Tokens(s)) == Some(Service(CommandPublisher))
  {
    var t := Tokens(s);
    ShapesExclude(t);
    CommandsMatch(s);
    OnPlaneLength(t, "job");
    hide Match, Tokens, Covers, OnPlane, IsNext, IsAck, IsInbox, IsJob, IsAdvisory, AgentOfConsumer, AgentIdentifier;
    CoversTwo(ANY_COMMAND, ANY_CANCELLATION, s);
  }

  lemma CommandPublisherHears(s: string)
    ensures Covers(ServiceGrants(CommandPublisher).sub, s) <==>
              SubscriberOf(Tokens(s)) == Some(Service(CommandPublisher))
  {
    var t := Tokens(s);
    ShapesExclude(t);
    InboxMatches(COMMAND_PUBLISHER, s);
    hide Match, Tokens, Covers, OnPlane, IsNext, IsAck, IsInbox, IsJob, IsAdvisory, InboxSubtree, AgentIdentifier;
    CoversTwo(InboxSubtree(COMMAND_PUBLISHER), "", s);
  }

  lemma EnrollmentServiceOwns(s: string)
    ensures Covers(ServiceGrants(EnrollmentService).pub, s) <==>
              PublisherOf(Tokens(s)) == Some(Service(EnrollmentService))
  {
    var t := Tokens(s);
    ShapesExclude(t);
    AnyMatches("reply", s);
    OnPlaneLength(t, "enroll");
    hide Match, Tokens, Covers, OnPlane, IsNext, IsAck, IsInbox, IsJob, IsAdvisory, AgentOfConsumer, AgentIdentifier,
         AnyEnrollment;
    CoversTwo(AnyEnrollment("reply"), "", s);
  }

  lemma EnrollmentServiceHears(s: string)
    ensures Covers(ServiceGrants(EnrollmentService).sub, s) <==>
              SubscriberOf(Tokens(s)) == Some(Service(EnrollmentService))
  {
    var t := Tokens(s);
    ShapesExclude(t);
    RequestMatches(s);
    OnPlaneLength(t, "enroll");
    hide Match, Tokens, Covers, OnPlane, IsNext, IsAck, IsInbox, IsJob, IsAdvisory, AgentOfConsumer, AgentIdentifier,
         AnyEnrollment;
    CoversTwo(AnyEnrollment("request"), "", s);
  }

  lemma ResultConsumerOwns(s: string)
    ensures Covers(ServiceGrants(ResultConsumer).pub, s) <==> PublisherOf(Tokens(s)) == Some(Service(ResultConsumer))
  {
    var t := Tokens(s);
    NextMatches(RESULT_STREAM, RESULT_CONSUMER_NAME, s);
    AckMatches(RESULT_STREAM, RESULT_CONSUMER_NAME, s);
    ShapesExclude(t);
    OnPlaneLength(t, "job");
    OnPlaneLength(t, "enroll");
    OnPlaneLength(t, "out");
    ConsumerLengths(t);
    hide Match, Tokens, Covers, OnPlane, IsNext, IsAck, IsInbox, IsJob, IsAdvisory, AgentOfConsumer, ConsumerNext,
         ConsumerAck, AgentIdentifier;
    CoversTwo(ConsumerNext(RESULT_STREAM, RESULT_CONSUMER_NAME), ConsumerAck(RESULT_STREAM, RESULT_CONSUMER_NAME), s);
  }

  lemma ResultConsumerHears(s: string)
    ensures Covers(ServiceGrants(ResultConsumer).sub, s) <==> SubscriberOf(Tokens(s)) == Some(Service(ResultConsumer))
  {
    var t := Tokens(s);
    ShapesExclude(t);
    InboxMatches(RESULT_CONSUMER, s);
    hide Match, Tokens, Covers, OnPlane, IsNext, IsAck, IsInbox, IsJob, IsAdvisory, InboxSubtree, AgentIdentifier;
    CoversTwo(InboxSubtree(RESULT_CONSUMER), "", s);
  }

  lemma PresenceConsumerOwns(s: string)
    ensures !Covers(ServiceGrants(PresenceConsumer).pub, s) && PublisherOf(Tokens(s)) != Some(Service(PresenceConsumer))
    ensures Covers(ServiceGrants(PresenceConsumer).sub, s) <==>
              SubscriberOf(Tokens(s)) == Some(Service(PresenceConsumer))
  {
    var t := Tokens(s);
    assert !Covers([], s);
    PublishersSpeak(t);
    HearersByShape(t);
    CoversTwo(AnyAgentOut("presence"), "", s);
    PresenceMatches(s);
    hide Match, Tokens, Covers, OnPlane, IsInbox, IsJob, IsAdvisory, PublisherOf, SubscriberOf, AnyAgentOut;
  }

  lemma PublishersSpeak(t: seq<string>)
    ensures PublisherOf(t) != Some(Service(PresenceConsumer)) && PublisherOf(t) != Some(Service(MonitoringRole))
  {
    hide OnPlane, IsNext, IsAck, AgentIdentifier;
    OnPlaneLength(t, "job");
    OnPlaneLength(t, "enroll");
    OnPlaneLength(t, "out");
    ConsumerLengths(t);
  }

  lemma HearersByShape(t: seq<string>)
    ensures OnPlane(t, "out") ==> SubscriberOf(t) == OutHearer(t[3])
    ensures IsAdvisory(t) ==> SubscriberOf(t) == Some(Service(MonitoringRole))
    ensures !OnPlane(t, "out") ==> SubscriberOf(t) != Some(Service(PresenceConsumer))
    ensures !OnPlane(t, "out") && !IsAdvisory(t) ==> SubscriberOf(t) != Some(Service(MonitoringRole))
  {
    ShapesExclude(t);
    hide OnPlane, IsNext, IsAck, IsJob, IsInbox, IsAdvisory, OutHearer, AgentIdentifier;
    OnPlaneLength(t, "enroll");
    OnPlaneLength(t, "out");
    ConsumerLengths(t);
  }

  lemma AdvisoryShape(t: seq<string>)
    ensures IsAdvisory(t) <==>
            || (|t| == 7 && (t[..5] == AdvisoryHead("MAX_DELIVERIES") || t[..5] == AdvisoryHead("MSG_TERMINATED"))
                && t[5] == COMMAND_STREAM)
            || t == LIMIT_HEAD + ["API", "LIMIT_REACHED"]
  {}

  lemma AdvisoriesCover(s: string)
    ensures Covers(AdvisorySubjects(), s) <==> IsAdvisory(Tokens(s))
  {
    var t := Tokens(s);
    var d, m := ConsumerAdvisory("MAX_DELIVERIES"), ConsumerAdvisory("MSG_TERMINATED");
    var limit := "$JS.EVENT.ADVISORY.API.LIMIT_REACHED";
    LimitTokens();
    AdvisoryShape(t);
    hide Match, Tokens, ConsumerAdvisory, AdvisoryHead, Covers, IsAdvisory;
    assert AdvisorySubjects() == [d] + [m, limit];
    ConsumerAdvisoryMatches("MAX_DELIVERIES", s);
    ConsumerAdvisoryMatches("MSG_TERMINATED", s);
    LimitMatches(t);
    hide AdvisorySubjects;
    CoversJoin([d], [m, limit], s);
    CoversTwo(d, "", s);
    CoversTwo(m, limit, s);
  }

  lemma ConsumerAdvisoryMatches(event: string, s: string)
    requires DotFree(event) && Literal(event)
    ensures var t := Tokens(s);
            Match(Tokens(ConsumerAdvisory(event)), t) <==>
              |t| == 7 && t[..5] == AdvisoryHead(event) && t[5] == COMMAND_STREAM
  {
    ConsumerAdvisoryTokens(event);
    HeadedMatches(AdvisoryHead(event), COMMAND_STREAM, "*", Tokens(s));
  }

  lemma LimitMatches(t: seq<string>)
    ensures Match(LIMIT_HEAD + ["API", "LIMIT_REACHED"], t) <==> t == LIMIT_HEAD + ["API", "LIMIT_REACHED"]
  {
    HeadedMatches(LIMIT_HEAD, "API", "LIMIT_REACHED", t);
    hide Match;
    if |t| == 5 && t[..3] == LIMIT_HEAD { assert t == t[..3] + [t[3], t[4]]; }
  }

  lemma MonitoringRoleOwns(s: string)
    ensures !Covers(ServiceGrants(MonitoringRole).pub, s) && PublisherOf(Tokens(s)) != Some(Service(MonitoringRole))
    ensures Covers(ServiceGrants(MonitoringRole).sub, s) <==> SubscriberOf(Tokens(s)) == Some(Service(MonitoringRole))
  {
    var t := Tokens(s);
    assert !Covers([], s);
    PublishersSpeak(t);
    HearersByShape(t);
    AnyMatches("event", s);
    hide Match, Tokens, Covers, OnPlane, IsInbox, IsJob, IsAdvisory, PublisherOf, SubscriberOf, AnyAgentOut,
         AdvisorySubjects;
    CoversTwo(AnyAgentOut("event"), "", s);
    AdvisoriesCover(s);
    CoversJoin([AnyAgentOut("event")], AdvisorySubjects(), s);
  }

  // Every minted principal may publish, and may subscribe to, exactly the
  // subjects whose own tokens name it.
  lemma OwnersExactly(p: Principal, s: string)
    requires Minted(p)
    ensures MayPublish(p, s) <==> PublisherOf(Tokens(s)) == Some(p)
    ensures MaySubscribe(p, s) <==> SubscriberOf(Tokens(s)) == Some(p)
  {
    PermissionMeansGrants(GrantsOf(p).pub, s);
    PermissionMeansGrants(GrantsOf(p).sub, s);
    hide Permits, Covers, Tokens, PublisherOf, SubscriberOf, ServiceGrants, AgentGrants, BootstrapGrants;
    match p
    case Agent(id) => AgentOwns(id, s); AgentHears(id, s);
    case Bootstrap(token) => BootstrapOwns(token, s);
    case Service(CommandPublisher) => CommandPublisherOwns(s); CommandPublisherHears(s);
    case Service(EnrollmentService) => EnrollmentServiceOwns(s); EnrollmentServiceHears(s);
    case Service(ResultConsumer) => ResultConsumerOwns(s); ResultConsumerHears(s);
    case Service(PresenceConsumer) => PresenceConsumerOwns(s);
    case Service(MonitoringRole) => MonitoringRoleOwns(s);
  }

  // In any fleet, of any size, a subject has at most one publisher and at most
  // one subscriber.
  lemma Separation(fleet: set<Principal>, s: string)
    requires forall p :: p in fleet ==> Minted(p)
    ensures |set p | p in fleet && MayPublish(p, s)| <= 1
    ensures |set p | p in fleet && MaySubscribe(p, s)| <= 1
  {
    forall p | p in fleet
      ensures MayPublish(p, s) <==> PublisherOf(Tokens(s)) == Some(p)
      ensures MaySubscribe(p, s) <==> SubscriberOf(Tokens(s)) == Some(p)
    {
      OwnersExactly(p, s);
    }
    hide MayPublish, MaySubscribe, PublisherOf, SubscriberOf;
    var pubs := set p | p in fleet && MayPublish(p, s);
    var subs := set p | p in fleet && MaySubscribe(p, s);
    if pubs != {} { var p :| p in pubs; assert pubs == {p}; }
    if subs != {} { var p :| p in subs; assert subs == {p}; }
  }

  // Minted with a reserved name, an agent would share a service's inbox: the
  // separation holds for an identifier exactly when it names no service that
  // listens on an inbox of its own.
  lemma InboxSharedIff(id: string)
    requires Identifier(id)
    ensures (exists r, s :: MaySubscribe(Service(r), s) && MaySubscribe(Agent(id), s))
            <==> id == COMMAND_PUBLISHER || id == RESULT_CONSUMER
  {
    if id == COMMAND_PUBLISHER {
      Shared(CommandPublisher, id);
    } else if id == RESULT_CONSUMER {
      Shared(ResultConsumer, id);
    } else {
      forall r, s | MaySubscribe(Service(r), s) && MaySubscribe(Agent(id), s)
        ensures false
      {
        NotShared(r, id, s);
      }
    }
  }

  lemma Shared(r: Role, id: string)
    requires Identifier(id) && GrantsOf(Service(r)).sub == [InboxSubtree(id)]
    ensures exists s :: MaySubscribe(Service(r), s) && MaySubscribe(Agent(id), s)
  {
    IdentifierDotFree(id);
    var probe := "_KSINBOX." + id + ".x";
    ProbeTokens(id);
    InboxMatches(id, probe);
    AgentSubscribes(id, probe);
    PermissionMeansGrants(GrantsOf(Service(r)).sub, probe);
    PermissionMeansGrants(GrantsOf(Agent(id)).sub, probe);
    hide Tokens, Match, Covers, GrantsOf, Permits;
    CoversTwo(InboxSubtree(id), "", probe);
    assert MaySubscribe(Service(r), probe) && MaySubscribe(Agent(id), probe);
  }

  lemma ProbeTokens(id: string)
    requires DotFree(id)
    ensures Tokens("_KSINBOX." + id + ".x") == ["_KSINBOX", id, "x"]
  {
    var ts := ["_KSINBOX", id, "x"];
    assert Joined(ts[1..]) == id + "." + "x";
    assert Joined(ts) == "_KSINBOX" + "." + Joined(ts[1..]);
    assert Joined(ts) == "_KSINBOX." + id + ".x";
    JoinThenSplit(ts);
  }

  lemma NotShared(r: Role, id: string, s: string)
    requires Identifier(id) && id != COMMAND_PUBLISHER && id != RESULT_CONSUMER
    ensures !(MaySubscribe(Service(r), s) && MaySubscribe(Agent(id), s))
  {
    var t := Tokens(s);
    OwnersExactly(Service(r), s);
    AgentSubscribes(id, s);
    PermissionMeansGrants(GrantsOf(Agent(id)).sub, s);
    ShapesExclude(t);
    hide Tokens, Match, Covers, MaySubscribe, AgentGrants, OnPlane, IsNext, IsAck, IsInbox, IsJob, IsAdvisory,
         Identifier;
  }

  // ---- what the enrollment service takes from a subject ---------------------

  function RequestSubject(token: string): string { "ks.enroll." + token + ".request" }
  function PresenceSubject(agent: string): string { "ks.out." + agent + ".presence" }

  // The token a request subject names, or nothing.
  function TokenOf(subject: string): string {
    var parts := Tokens(subject);
    if |parts| != 4 || parts[0] != "ks" || parts[1] != "enroll" || parts[3] != "request" then "" else parts[2]
  }

  lemma TokenOfIff(token: string, s: string)
    requires DotFree(token) && token != ""
    ensures TokenOf(s) == token <==> s == "ks.enroll." + token + ".request"
  {
    PlaneTokens("enroll", token, "request");
    assert "ks." + "enroll" + "." + token + "." + "request" == RequestSubject(token);
    hide Tokens;
    SplitThenJoin(s);
    SplitThenJoin(RequestSubject(token));
    if TokenOf(s) == token { assert Tokens(s) == ["ks", "enroll", token, "request"]; }
  }

  // Whatever arrives on a request subject came from the identity minted for the
  // token the subject names, and that identity may publish nowhere else.
  lemma RequestNamesItsPublisher(p: Principal, s: string)
    requires Minted(p)
    ensures TokenOf(s) != "" && MayPublish(p, s) ==> p == Bootstrap(TokenOf(s))
    ensures p.Bootstrap? ==> (MayPublish(p, s) <==> s == "ks.enroll." + p.token + ".request")
  {
    var t := Tokens(s);
    OwnersExactly(p, s);
    ShapesExclude(t);
    if p.Bootstrap? {
      IdentifierDotFree(p.token);
      TokenOfIff(p.token, s);
      EnrollmentMatches(p.token, "request", s);
      PermissionMeansGrants(GrantsOf(p).pub, s);
      CoversTwo(TokenEnrollment(p.token, "request"), "", s);
    }
    hide Tokens, Match, Covers, MayPublish, AgentOfConsumer, IsNext, IsAck, IsInbox, IsJob, IsAdvisory, RequestSubject,
         DotFree, Identifier;
  }

  // Whatever the presence consumer hears came from the agent its subject names.
  lemma PresenceNamesItsPublisher(p: Principal, s: string)
    requires Minted(p) && MayPublish(p, s) && MaySubscribe(Service(PresenceConsumer), s)
    ensures p.Agent? && s == "ks.out." + p.id + ".presence"
  {
    var t := Tokens(s);
    OwnersExactly(p, s);
    OwnersExactly(Service(PresenceConsumer), s);
    HearersByShape(t);
    ShapesExclude(t);
    assert OnPlane(t, "out") && t[3] == "presence";
    assert p == Agent(t[2]) && AgentIdentifier(t[2]);
    IdentifierDotFree(p.id);
    PresenceTokens(p.id);
    hide Tokens, Match, MayPublish, MaySubscribe, PresenceSubject;
    assert t == ["ks", "out", p.id, "presence"];
    SplitThenJoin(s);
    SplitThenJoin(PresenceSubject(p.id));
  }

  lemma PresenceTokens(id: string)
    requires DotFree(id)
    ensures Tokens(PresenceSubject(id)) == ["ks", "out", id, "presence"]
  {
    PlaneTokens("out", id, "presence");
    assert "ks." + "out" + "." + id + "." + "presence" == PresenceSubject(id);
  }
}
