// S0: the lifetime a token gets, and the one instant at which the token and its
// bootstrap credential both end.
module Issuing {
  import opened Common
  import opened Envelope

  const SECOND: int := 1_000_000_000
  const DEFAULT_TTL: int := 15 * 60 * SECOND
  const MIN_TTL: int := 60 * SECOND
  const MAX_TTL: int := 59 * 60 * SECOND

  datatype IssueError = InvalidRequest

  // A requested lifetime in nanoseconds; zero asks for the default.
  function TokenTTL(requested: int): Result<int, IssueError> {
    if requested == 0 then Ok(DEFAULT_TTL)
    else if requested < MIN_TTL || requested > MAX_TTL then Err(InvalidRequest)
    else Ok(requested)
  }

  // Zero is a quarter of an hour, anything else from one minute to fifty-nine is
  // taken as it is, and the rest is refused.
  lemma TokenTTLIff(requested: int)
    ensures TokenTTL(requested).Ok? <==> requested == 0 || 60_000_000_000 <= requested <= 3_540_000_000_000
    ensures TokenTTL(requested).Ok? ==>
              TokenTTL(requested).value == if requested == 0 then 900_000_000_000 else requested
  {}

  function Nanoseconds(t: Time): int {
    t.sec * SECOND + t.nsec
  }

  // The sum, cut to a whole second.
  function Expiry(issued: Time, ttl: int): Time {
    Time((Nanoseconds(issued) + ttl) / SECOND, 0)
  }

  // The credential's expiry has seconds, the record's has milliseconds, and they
  // are the same instant: it survives both, is never after the lifetime asked
  // for, and is never a second or more before it.
  lemma OneExpiry(issued: Time, requested: int)
    requires Normal(issued) && TokenTTL(requested).Ok?
    ensures var ttl := TokenTTL(requested).value; var e := Expiry(issued, ttl);
            && MIN_TTL <= ttl <= MAX_TTL
            && Nanoseconds(issued) + ttl - SECOND < Nanoseconds(e) <= Nanoseconds(issued) + ttl
            && Nanoseconds(e) > Nanoseconds(issued)
            && FromUnix(e.sec, 0) == e
            && (-TWO63 <= Milliseconds(e) < TWO63 ==> FromMilli(UnixMilli(e)) == e)
  {
    var ttl := TokenTTL(requested).value;
    var e := Expiry(issued, ttl);
    TimeSurvivesIff(e);
  }
}
