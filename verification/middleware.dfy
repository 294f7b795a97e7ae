/** The request guard in front of every `/api` route (middleware.ts): a same-origin and
    double-submit CSRF check on state-changing requests, then a fixed-window rate limit
    on the protected path groups. One server instance is modelled. */
module Middleware {
  import opened Common

  const WindowMs: int := 5 * 60 * 1000
  const MaxRequests: nat := 40
  const CsrfMessage := "CSRF token missing or " + "invalid"

  /** The protected path groups, in the order `RATE_PATHS` lists them. */
  const RateGroups: seq<string> := ["auth", "ai", "uploads", "orders", "wishlist", "admin"]

  /** The path prefix `/^\/api\/<group>/` matches. */
  function GroupPrefix(group: string): string { "/api/" + group }

  /** The `source` text of that regular expression, as it appears in the bucket key. */
  function GroupSource(group: string): string { "^\\/api\\/" + group }

  /** The index of the first group whose pattern matches `path`, if any. */
  function FirstGroup(groups: seq<string>, path: string): (r: Option<nat>)
    ensures r.None? <==> forall g :: g in groups ==> !StartsWith(path, GroupPrefix(g))
    ensures r.Some? ==> r.value < |groups| && StartsWith(path, GroupPrefix(groups[r.value]))
                        && forall g :: g in groups[..r.value] ==> !StartsWith(path, GroupPrefix(g))
  {
    if groups == [] then None
    else if StartsWith(path, GroupPrefix(groups[0])) then Some(0)
    else
      var rest := FirstGroup(groups[1..], path);
      assert forall g :: g in groups <==> g == groups[0] || g in groups[1..];
      if rest.None? then None
      else
        assert groups[..rest.value + 1] == [groups[0]] + groups[1..][..rest.value];
        Some(rest.value + 1)
  }

  /** Whether the rate limiter is consulted for `path` (`RATE_PATHS.some(...)`). */
  predicate RateLimitedPath(path: string)
  {
    FirstGroup(RateGroups, path).Some?
  }

  /** A request as the middleware sees it; absent headers and cookies are `None`. */
  datatype Request = Request(httpMethod: string, path: string, ip: Option<string>, forwardedFor: Option<string>,
                             origin: Option<string>, host: Option<string>,
                             csrfHeader: Option<string>, csrfCookie: Option<string>)

  /** The client address: the platform's, else `x-forwarded-for`, else "unknown"; an empty
      header counts as absent. */
  function ClientAddress(req: Request): (a: string)
    ensures a != ""
    ensures OrEmpty(req.ip) != "" ==> a == req.ip.value
    ensures OrEmpty(req.ip) == "" && OrEmpty(req.forwardedFor) != "" ==> a == req.forwardedFor.value
  {
    if OrEmpty(req.ip) != "" then req.ip.value
    else if OrEmpty(req.forwardedFor) != "" then req.forwardedFor.value
    else "unknown"
  }

  /** `key(req)`: the client address, a colon, and the source of the first matching path
      pattern (else "other"). */
  function Key(req: Request): (k: string)
    ensures RateLimitedPath(req.path) ==>
              exists g :: g in RateGroups && StartsWith(req.path, GroupPrefix(g)) && Contains(k, GroupSource(g))
    ensures RateLimitedPath(req.path) ==>
              k == ClientAddress(req) + ":" + GroupSource(RateGroups[FirstGroup(RateGroups, req.path).value])
    ensures !RateLimitedPath(req.path) ==> k == ClientAddress(req) + ":other"
  {
    var group := FirstGroup(RateGroups, req.path);
    var k := ClientAddress(req) + ":" + (if group.Some? then GroupSource(RateGroups[group.value]) else "other");
    if group.Some? then
      ContainsInConcat(ClientAddress(req) + ":", GroupSource(RateGroups[group.value]), GroupSource(RateGroups[group.value]));
      k
    else k
  }

  /** Requests with these methods change state and are subject to the CSRF check. */
  predicate IsStateChanging(httpMethod: string)
  {
    httpMethod in ["POST", "PUT", "PATCH", "DELETE"]
  }

  /** The CSRF section: `None` when the request may proceed, else the 403 error text.
      `freshToken` is the token the middleware seeds when the cookie is missing. */
  function CsrfError(req: Request, freshToken: string): (r: Option<string>)
    ensures (!IsStateChanging(req.httpMethod) || StartsWith(req.path, "/api/auth")) ==> r.None?
    ensures (IsStateChanging(req.httpMethod) && !StartsWith(req.path, "/api/auth")
             && OrEmpty(req.origin) != "" && OrEmpty(req.host) != ""
             && !Contains(req.origin.value, req.host.value)) ==> r == Some("Invalid origin")
    ensures r.None? && IsStateChanging(req.httpMethod) && !StartsWith(req.path, "/api/auth") ==>
              req.csrfHeader.Some? && req.csrfHeader.value != ""
              && req.csrfHeader.value == (if OrEmpty(req.csrfCookie) != "" then req.csrfCookie.value else freshToken)
    ensures r.Some? ==> r.value in {"Invalid origin", CsrfMessage}
    ensures (IsStateChanging(req.httpMethod) && !StartsWith(req.path, "/api/auth")
             && !(OrEmpty(req.origin) != "" && OrEmpty(req.host) != "" && !Contains(req.origin.value, req.host.value))) ==>
              var cookieToken := if OrEmpty(req.csrfCookie) != "" then req.csrfCookie.value else freshToken;
              (r.None? <==> cookieToken != "" && req.csrfHeader == Some(cookieToken))
              && (r.Some? ==> r == Some(CsrfMessage))
  {
    if !IsStateChanging(req.httpMethod) || StartsWith(req.path, "/api/auth") then None
    else if OrEmpty(req.origin) != "" && OrEmpty(req.host) != "" && !Contains(req.origin.value, req.host.value) then
      Some("Invalid origin")
    else
      var cookieToken := if OrEmpty(req.csrfCookie) != "" then req.csrfCookie.value else freshToken;
      if cookieToken == "" || req.csrfHeader != Some(cookieToken) then Some(CsrfMessage)
      else None
  }

  /** A fixed-window counter: `count` requests admitted since the window began,
      which ends at `reset`. */
  datatype RateBucket = RateBucket(count: nat, reset: int)

  /** Whether a request at `now` is refused, given the key's bucket. */
  predicate Limited(b: Option<RateBucket>, now: int)
  {
    b.Some? && b.value.reset >= now && b.value.count >= MaxRequests
  }

  /** The key's bucket after an admitted request: a missing or expired one starts a new
      window holding this request, otherwise the count goes up by one. */
  function Admit(b: Option<RateBucket>, now: int): (r: RateBucket)
    requires !Limited(b, now)
    ensures r.count >= 1
    ensures b.Some? && b.value.reset >= now ==> r == RateBucket(b.value.count + 1, b.value.reset)
    ensures (b.None? || b.value.reset < now) ==> r == RateBucket(1, now + WindowMs)
  {
    if b.None? || b.value.reset < now then RateBucket(1, now + WindowMs)
    else RateBucket(b.value.count + 1, b.value.reset)
  }

  function Lookup(buckets: map<string, RateBucket>, k: string): Option<RateBucket>
  {
    if k in buckets then Some(buckets[k]) else None
  }

  /** How many of the requests of one key, at the given times, are admitted. */
  function Passes(b: Option<RateBucket>, times: seq<int>): (n: nat)
    ensures n <= |times|
    decreases |times|
  {
    if times == [] then 0
    else if Limited(b, times[0]) then Passes(b, times[1..])
    else 1 + Passes(Some(Admit(b, times[0])), times[1..])
  }

  /** Within a live window holding `count` requests, at most `MaxRequests - count` more pass. */
  lemma {:induction false} PassesWithinWindow(b: RateBucket, times: seq<int>)
    requires b.count <= MaxRequests
    requires forall t :: t in times ==> t <= b.reset
    ensures Passes(Some(b), times) <= MaxRequests - b.count
    decreases |times|
  {
    if times != [] {
      assert forall t :: t in times[1..] ==> t in times;
      assert times[0] in times;
      if !Limited(Some(b), times[0]) {
        var next := Admit(Some(b), times[0]);
        assert next == RateBucket(b.count + 1, b.reset);
        PassesWithinWindow(next, times[1..]);
        assert Passes(Some(b), times) == 1 + Passes(Some(next), times[1..]);
      } else {
        PassesWithinWindow(b, times[1..]);
      }
    }
  }

  /** A window opened by a request at `start` admits at most `MaxRequests` requests of
      that key before it ends at `start + WindowMs`. */
  lemma AtMostMaxPerWindow(b: Option<RateBucket>, start: int, times: seq<int>)
    requires b.None? || b.value.reset < start
    requires forall t :: t in times ==> start <= t <= start + WindowMs
    ensures Passes(b, [start] + times) <= MaxRequests
  {
    assert !Limited(b, start);
    var window := Admit(b, start);
    assert ([start] + times)[1..] == times;
    PassesWithinWindow(window, times);
  }

  /** The per-instance bucket map of middleware.ts. */
  class RateLimiter {
    var buckets: map<string, RateBucket>

    ghost predicate Valid()
      reads this
    {
      forall k :: k in buckets ==> 1 <= buckets[k].count <= MaxRequests
    }

    constructor ()
      ensures Valid() && buckets == map[]
    {
      buckets := map[];
    }

    /** `isRateLimited`: refuses the request iff the key's live window is full, in which
        case nothing changes; otherwise records the request in that key's bucket only. */
    method IsRateLimited(k: string, now: int) returns (limited: bool)
      requires Valid()
      modifies this
      ensures Valid()
      ensures limited <==> Limited(Lookup(old(buckets), k), now)
      ensures limited ==> buckets == old(buckets)
      ensures !limited ==> buckets == old(buckets)[k := Admit(Lookup(old(buckets), k), now)]
    {
      if k !in buckets || buckets[k].reset < now {
        buckets := buckets[k := RateBucket(1, now + WindowMs)];
        return false;
      }
      if buckets[k].count >= MaxRequests {
        return true;
      }
      buckets := buckets[k := RateBucket(buckets[k].count + 1, buckets[k].reset)];
      limited := false;
    }

    /** `middleware(req)`: the CSRF check, then the rate limit on protected paths.
        A request refused by the CSRF check, or outside the protected paths, leaves
        every bucket as it was. */
    method Handle(req: Request, freshToken: string, now: int) returns (reply: Reply<()>)
      requires Valid()
      modifies this
      ensures Valid()
      ensures CsrfError(req, freshToken).Some? ==>
                reply == Fail(403, CsrfError(req, freshToken).value) && buckets == old(buckets)
      ensures CsrfError(req, freshToken).None? && !RateLimitedPath(req.path) ==>
                reply == Ok(()) && buckets == old(buckets)
      ensures (CsrfError(req, freshToken).None? && RateLimitedPath(req.path)) ==>
                && (reply == Fail(429, "Rate limit exceeded") <==> Limited(Lookup(old(buckets), Key(req)), now))
                && (reply.Ok? ==> buckets == old(buckets)[Key(req) := Admit(Lookup(old(buckets), Key(req)), now)])
                && (reply.Fail? ==> buckets == old(buckets))
      ensures forall k :: k != Key(req) ==> Lookup(buckets, k) == Lookup(old(buckets), k)
    {
      var csrf := CsrfError(req, freshToken);
      if csrf.Some? {
        return Fail(403, csrf.value);
      }
      if RateLimitedPath(req.path) {
        var limited := IsRateLimited(Key(req), now);
        if limited {
          return Fail(429, "Rate limit exceeded");
        }
      }
      reply := Ok(());
    }
  }
}
