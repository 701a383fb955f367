// The identifier grammar and the reserved sender tokens. A Go string is a
// sequence of bytes, so a char here stands for one byte.
module Identifiers {

  const MAX_IDENTIFIER: nat := 64

  predicate IdentifierChar(c: char) {
    'a' <= c <= 'z' || '0' <= c <= '9' || c == '-'
  }

  predicate Identifier(s: string) {
    0 < |s| <= MAX_IDENTIFIER && forall i :: 0 <= i < |s| ==> IdentifierChar(s[i])
  }

  method ValidIdentifier(s: string) returns (ok: bool)
    ensures ok <==> Identifier(s)
    ensures ok <==> 1 <= |s| <= 64 && forall i :: 0 <= i < |s| ==>
                      'a' <= s[i] <= 'z' || '0' <= s[i] <= '9' || s[i] == '-'
  {
    if s == "" || |s| > MAX_IDENTIFIER { return false; }
    var i := 0;
    while i < |s|
      invariant 0 <= i <= |s|
      invariant forall j :: 0 <= j < i ==> IdentifierChar(s[j])
    {
      var c := s[i];
      if !('a' <= c <= 'z' || '0' <= c <= '9' || c == '-') { return false; }
      i := i + 1;
    }
    ok := true;
  }

  const COMMAND_PUBLISHER := "command-publisher"
  const ENROLLMENT_SERVICE := "enrollment-service"
  const RESULT_CONSUMER := "result-consumer"
  const PRESENCE_CONSUMER := "presence-consumer"
  const MONITORING_ROLE := "monitoring-role"

  predicate ReservedSender(s: string) {
    s == COMMAND_PUBLISHER || s == ENROLLMENT_SERVICE || s == RESULT_CONSUMER
    || s == PRESENCE_CONSUMER || s == MONITORING_ROLE
  }

  lemma ReservedAre(s: string)
    ensures ReservedSender(s) <==>
            s in {"command-publisher", "enrollment-service", "result-consumer", "presence-consumer", "monitoring-role"}
  {}

  // An agent may be assigned any identifier no service principal speaks as.
  predicate AgentIdentifier(s: string) {
    Identifier(s) && !ReservedSender(s)
  }
}
