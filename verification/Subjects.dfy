// NATS subjects: the constructors of internal/natsauth and internal/enrollment,
// the tokens a subject splits into, and wildcard matching.
module Subjects {
  import opened Identifiers

  // ---- tokens ---------------------------------------------------------------

  predicate DotFree(s: string) {
    forall i :: 0 <= i < |s| ==> s[i] != '.'
  }

  // What splitting on every dot yields: at least one token, none with a dot.
  function Tokens(s: string): (ts: seq<string>)
    ensures |ts| >= 1
  {
    if s == "" then [""]
    else
      var ts := Tokens(s[1..]);
      if s[0] == '.' then [""] + ts else [[s[0]] + ts[0]] + ts[1..]
  }

  function Joined(ts: seq<string>): string
    requires |ts| >= 1
  {
    if |ts| == 1 then ts[0] else ts[0] + "." + Joined(ts[1..])
  }

  lemma {:induction false} TokensOfOne(a: string)
    requires DotFree(a)
    ensures Tokens(a) == [a]
  {
    if a != "" {
      TokensOfOne(a[1..]);
      assert [a[0]] + a[1..] == a;
    }
  }

  lemma {:induction false} TokensCons(a: string, rest: string)
    requires DotFree(a)
    ensures Tokens(a + "." + rest) == [a] + Tokens(rest)
  {
    var s := a + "." + rest;
    if a == "" {
      assert s[0] == '.' && s[1..] == rest;
    } else {
      TokensCons(a[1..], rest);
      assert s[0] == a[0] && s[1..] == a[1..] + "." + rest;
      assert [a[0]] + a[1..] == a;
    }
  }

  // Joining dot-free tokens and splitting again is the identity: a token that
  // has no dot stays one token wherever it is put.
  lemma {:induction false} JoinThenSplit(ts: seq<string>)
    requires |ts| >= 1 && forall i :: 0 <= i < |ts| ==> DotFree(ts[i])
    ensures Tokens(Joined(ts)) == ts
  {
    if |ts| == 1 {
      TokensOfOne(ts[0]);
    } else {
      JoinThenSplit(ts[1..]);
      TokensCons(ts[0], Joined(ts[1..]));
      assert ts == [ts[0]] + ts[1..];
    }
  }

  lemma {:induction false} SplitThenJoin(s: string)
    ensures Joined(Tokens(s)) == s
    ensures forall i :: 0 <= i < |Tokens(s)| ==> DotFree(Tokens(s)[i])
  {
    if s != "" {
      SplitThenJoin(s[1..]);
      var ts := Tokens(s[1..]);
      assert s == [s[0]] + s[1..];
      if s[0] == '.' {
        assert ([""] + ts)[1..] == ts;
      } else {
        var us := [[s[0]] + ts[0]] + ts[1..];
        assert us[1..] == ts[1..];
        if |ts| > 1 {
          assert Joined(us) == [s[0]] + ts[0] + "." + Joined(ts[1..]);
          assert [s[0]] + ts[0] + "." + Joined(ts[1..]) == [s[0]] + (ts[0] + "." + Joined(ts[1..]));
        }
        forall i | 0 <= i < |us|
          ensures DotFree(us[i])
        {
          if i > 0 { assert us[i] == ts[i]; } else { assert DotFree(ts[0]); }
        }
      }
    }
  }

  lemma IdentifierDotFree(s: string)
    requires Identifier(s)
    ensures DotFree(s) && s != "" && s != "*" && s != ">"
  {
    assert IdentifierChar(s[0]);
  }

  // ---- matching -------------------------------------------------------------

  // A star matches one token; a tail wildcard matches one or more.
  predicate Match(p: seq<string>, t: seq<string>) {
    if p == [] then t == []
    else if p == [">"] then t != []
    else t != [] && (p[0] == "*" || p[0] == t[0]) && Match(p[1..], t[1..])
  }

  predicate Agree(p: seq<string>, t: seq<string>, n: nat)
    requires n <= |p| && n <= |t|
  {
    forall i :: 0 <= i < n ==> p[i] == "*" || p[i] == t[i]
  }

  // Matching, without the recursion.
  lemma {:induction false} MatchIff(p: seq<string>, t: seq<string>)
    ensures Match(p, t) <==>
            if p != [] && p[|p| - 1] == ">" then |t| >= |p| && Agree(p, t, |p| - 1)
            else |t| == |p| && Agree(p, t, |p|)
  {
    if p != [] && p != [">"] && t != [] {
      MatchIff(p[1..], t[1..]);
      var n := if p[|p| - 1] == ">" then |p| - 1 else |p|;
      if |p| > 1 { assert p[1..][|p| - 2] == p[|p| - 1]; }
      if |t| >= n {
        assert Agree(p, t, n) <==> (n > 0 ==> (p[0] == "*" || p[0] == t[0]) && Agree(p[1..], t[1..], n - 1)) by {
          if n > 0 && (p[0] == "*" || p[0] == t[0]) && Agree(p[1..], t[1..], n - 1) {
            forall i | 0 <= i < n
              ensures p[i] == "*" || p[i] == t[i]
            {
              if i > 0 { assert p[1..][i - 1] == p[i] && t[1..][i - 1] == t[i]; }
            }
          }
          if Agree(p, t, n) && n > 0 {
            forall i | 0 <= i < n - 1
              ensures p[1..][i] == "*" || p[1..][i] == t[1..][i]
            {
              assert p[1..][i] == p[i + 1] && t[1..][i] == t[i + 1];
            }
          }
        }
      }
    }
  }

  // ---- subjects and consumers -----------------------------------------------

  const COMMAND_STREAM := "KS_CMD"
  const RESULT_STREAM := "KS_RES"
  const RESULT_CONSUMER_NAME := "ks-res"
  const ANY_COMMAND := "ks.job.*.cmd"
  const ANY_CANCELLATION := "ks.job.*.cancel"

  function AgentCommandPrefix(id: string): string { "ks.job." + id + ".>" }
  function AgentOut(id: string, class_: string): string { "ks.out." + id + "." + class_ }
  function AnyAgentOut(class_: string): string { "ks.out.*." + class_ }
  function TokenEnrollment(token: string, class_: string): string { "ks.enroll." + token + "." + class_ }
  function AnyEnrollment(class_: string): string { "ks.enroll.*." + class_ }
  function InboxSubtree(name: string): string { "_KSINBOX." + name + ".>" }
  function CommandConsumer(id: string): string { "ks-cmd-" + id }
  function ConsumerNext(stream: string, consumer: string): string {
    "$JS.API.CONSUMER.MSG.NEXT." + stream + "." + consumer
  }
  function ConsumerAck(stream: string, consumer: string): string { "$JS.ACK." + stream + "." + consumer + ".>" }

  function ConsumerAdvisory(event: string): string {
    "$JS.EVENT.ADVISORY.CONSUMER." + event + "." + COMMAND_STREAM + ".*"
  }

  function AdvisorySubjects(): seq<string> {
    [ConsumerAdvisory("MAX_DELIVERIES"),
     ConsumerAdvisory("MSG_TERMINATED"),
     "$JS.EVENT.ADVISORY.API.LIMIT_REACHED"]
  }

  // Each pattern's tokens, whatever dot-free name is put into it.
  lemma PlaneTokens(plane: string, x: string, class_: string)
    requires DotFree(plane) && DotFree(x) && DotFree(class_)
    ensures Tokens("ks." + plane + "." + x + "." + class_) == ["ks", plane, x, class_]
  {
    var ts := ["ks", plane, x, class_];
    assert Joined(ts[2..]) == x + "." + class_;
    assert Joined(ts[1..]) == plane + "." + Joined(ts[2..]);
    assert Joined(ts) == "ks" + "." + Joined(ts[1..]);
    assert Joined(ts) == "ks." + plane + "." + x + "." + class_;
    JoinThenSplit(ts);
  }

  lemma InboxTokens(name: string)
    requires DotFree(name)
    ensures Tokens(InboxSubtree(name)) == ["_KSINBOX", name, ">"]
  {
    var ts := ["_KSINBOX", name, ">"];
    assert Joined(ts[1..]) == name + "." + ">";
    assert Joined(ts) == "_KSINBOX" + "." + Joined(ts[1..]);
    assert Joined(ts) == InboxSubtree(name);
    JoinThenSplit(ts);
  }

  lemma AckTokens(stream: string, consumer: string)
    requires DotFree(stream) && DotFree(consumer)
    ensures Tokens(ConsumerAck(stream, consumer)) == ["$JS", "ACK", stream, consumer, ">"]
  {
    var ts := ["$JS", "ACK", stream, consumer, ">"];
    assert Joined(ts[3..]) == consumer + "." + ">";
    assert Joined(ts[2..]) == stream + "." + Joined(ts[3..]);
    assert Joined(ts[1..]) == "ACK" + "." + Joined(ts[2..]);
    assert Joined(ts) == "$JS" + "." + Joined(ts[1..]);
    assert Joined(ts) == ConsumerAck(stream, consumer);
    JoinThenSplit(ts);
  }

  lemma {:induction false} JoinTogether(xs: seq<string>, ys: seq<string>)
    requires |xs| >= 1 && |ys| >= 1
    ensures Joined(xs + ys) == Joined(xs) + "." + Joined(ys)
  {
    if |xs| > 1 {
      JoinTogether(xs[1..], ys);
      assert (xs + ys)[1..] == xs[1..] + ys;
      assert xs[0] + "." + (Joined(xs[1..]) + "." + Joined(ys)) == xs[0] + "." + Joined(xs[1..]) + "." + Joined(ys);
    } else {
      assert (xs + ys)[1..] == ys;
    }
  }

  // A head of known tokens before two more.
  lemma HeadedTokens(head: seq<string>, x: string, y: string)
    requires |head| >= 1 && DotFree(x) && DotFree(y)
    requires forall i :: 0 <= i < |head| ==> DotFree(head[i])
    ensures Tokens(Joined(head) + "." + x + "." + y) == head + [x, y]
  {
    JoinTogether(head, [x, y]);
    assert Joined([x, y]) == x + "." + y;
    assert Joined(head) + "." + (x + "." + y) == Joined(head) + "." + x + "." + y;
    JoinThenSplit(head + [x, y]);
  }

  const NEXT_HEAD := ["$JS", "API", "CONSUMER", "MSG", "NEXT"]

  lemma NextHead()
    ensures Joined(NEXT_HEAD) == "$JS.API.CONSUMER.MSG.NEXT"
  {
    assert Joined(NEXT_HEAD[3..]) == "MSG.NEXT";
    assert Joined(NEXT_HEAD[2..]) == "CONSUMER" + "." + Joined(NEXT_HEAD[3..]);
    assert Joined(NEXT_HEAD[1..]) == "API" + "." + Joined(NEXT_HEAD[2..]);
    assert Joined(NEXT_HEAD) == "$JS" + "." + Joined(NEXT_HEAD[1..]);
  }

  lemma NextTokens(stream: string, consumer: string)
    requires DotFree(stream) && DotFree(consumer)
    ensures Tokens(ConsumerNext(stream, consumer)) == NEXT_HEAD + [stream, consumer]
  {
    NextHead();
    HeadedTokens(NEXT_HEAD, stream, consumer);
    assert "$JS.API.CONSUMER.MSG.NEXT" + "." == "$JS.API.CONSUMER.MSG.NEXT.";
  }

  function AdvisoryHead(event: string): seq<string> { ["$JS", "EVENT", "ADVISORY", "CONSUMER", event] }

  lemma ConsumerAdvisoryTokens(event: string)
    requires DotFree(event)
    ensures Tokens(ConsumerAdvisory(event)) == AdvisoryHead(event) + [COMMAND_STREAM, "*"]
  {
    var ts := AdvisoryHead(event);
    assert Joined(ts[3..]) == "CONSUMER" + "." + event;
    assert Joined(ts[2..]) == "ADVISORY" + "." + Joined(ts[3..]);
    assert Joined(ts[1..]) == "EVENT" + "." + Joined(ts[2..]);
    assert Joined(ts) == "$JS" + "." + Joined(ts[1..]);
    assert Joined(ts) == "$JS.EVENT.ADVISORY.CONSUMER." + event;
    HeadedTokens(ts, COMMAND_STREAM, "*");
    assert Joined(ts) + "." + COMMAND_STREAM + "." + "*" == ConsumerAdvisory(event);
  }

  const LIMIT_HEAD := ["$JS", "EVENT", "ADVISORY"]

  lemma LimitTokens()
    ensures Tokens("$JS.EVENT.ADVISORY.API.LIMIT_REACHED") == LIMIT_HEAD + ["API", "LIMIT_REACHED"]
  {
    assert Joined(LIMIT_HEAD[1..]) == "EVENT" + "." + "ADVISORY";
    assert Joined(LIMIT_HEAD) == "$JS.EVENT.ADVISORY";
    HeadedTokens(LIMIT_HEAD, "API", "LIMIT_REACHED");
    assert "$JS.EVENT.ADVISORY" + "." + "API" + "." + "LIMIT_REACHED" == "$JS.EVENT.ADVISORY.API.LIMIT_REACHED";
  }
}
