/**
 * Request middleware: the bearer-token authorizer (section 2.1 of RFC 6750),
 * the at-least-one-authorizer gate, and the per-request counter.
 */
module Middleware {
  import opened Wrappers
  import opened Text
  import opened Api
  import opened BasicHandlers

  /** The parts of an incoming request the middleware looks at or changes. */
  datatype Request = Request(verb: string, url: string, authorization: string, claims: Option<Claims>)

  /** An authorizer answers whether it accepts the request, and may rewrite it. */
  type Authorizer = Request -> (bool, Request)

  const BearerPrefix := "Bearer "

  /** The token is the Authorization header with a leading "Bearer " removed, if present. */
  function BearerToken(authorization: string): (ts: string)
    ensures BearerPrefix <= authorization ==> BearerPrefix + ts == authorization
    ensures !(BearerPrefix <= authorization) ==> ts == authorization
  {
    TrimPrefix(authorization, BearerPrefix)
  }

  /**
   * bearerAuthorizer: `parse` stands for JWT parsing and validation (None when
   * the token is malformed or invalid). A valid token stores its claims on the
   * request; otherwise the request is left as it was.
   */
  function BearerAuthorize(parse: string -> Option<Claims>, r: Request): (res: (bool, Request))
    ensures res.0 <==> BearerToken(r.authorization) != "" && parse(BearerToken(r.authorization)).Some?
    ensures !res.0 ==> res.1 == r
    ensures res.0 ==> res.1 == r.(claims := parse(BearerToken(r.authorization)))
  {
    var ts := BearerToken(r.authorization);
    if ts == "" then (false, r)
    else
      match parse(ts)
      case None => (false, r)
      case Some(c) => (true, r.(claims := Some(c)))
  }

  /** An authorizer that refuses a request leaves it unchanged. */
  ghost predicate KeepsOnRefusal(a: Authorizer)
  {
    forall r :: !a(r).0 ==> a(r).1 == r
  }

  lemma {:induction false} BearerKeepsOnRefusal(parse: string -> Option<Claims>)
    ensures KeepsOnRefusal(r => BearerAuthorize(parse, r))
  {
  }

  /**
   * The request handed to the next handler: authorizers run in order, each on
   * the request as the previous ones left it, and the first that accepts wins.
   */
  function FirstAccepting(auths: seq<Authorizer>, r: Request): Option<Request>
  {
    if auths == [] then None
    else
      var (ok, r') := auths[0](r);
      if ok then Some(r') else FirstAccepting(auths[1..], r')
  }

  /**
   * When no authorizer rewrites a request it refuses, next is reached exactly
   * when some authorizer accepts the original request.
   */
  lemma {:induction false} FirstAcceptingSome(auths: seq<Authorizer>, r: Request)
    requires forall i :: 0 <= i < |auths| ==> KeepsOnRefusal(auths[i])
    ensures FirstAccepting(auths, r).Some? <==> exists i :: 0 <= i < |auths| && auths[i](r).0
  {
    if auths != [] {
      if !auths[0](r).0 {
        assert auths[0](r).1 == r;
        FirstAcceptingSome(auths[1..], r);
        assert forall i :: 1 <= i < |auths| ==> auths[1..][i - 1] == auths[i];
      }
    }
  }

  /**
   * atLeastOneAuth: `next` is the request the wrapped handler is called with,
   * or None when every authorizer refused and 401 was written instead.
   */
  method AtLeastOneAuth(auths: seq<Authorizer>, r: Request) returns (next: Option<Request>, denied: Option<Response<()>>)
    ensures next == FirstAccepting(auths, r)
    ensures next.None? <==> denied.Some?
    ensures denied.Some? ==> denied.value == Response(StatusUnauthorized, Json(ErrorText("unauthorized")))
    ensures auths == [] ==> next.None?
  {
    var cur := r;
    var i := 0;
    while i < |auths|
      invariant 0 <= i <= |auths|
      invariant FirstAccepting(auths, r) == FirstAccepting(auths[i..], cur)
    {
      assert auths[i..][1..] == auths[i + 1..];
      var (ok, r') := auths[i](cur);
      if ok {
        next := Some(r');
        denied := None;
        return;
      }
      cur := r';
      i := i + 1;
    }
    next := None;
    denied := Some(Response(StatusUnauthorized, Json(ErrorText("unauthorized"))));
  }

  /** The counter labels of a served request: name "<verb> <url>" and the status code in decimal. */
  function CounterLabels(r: Request, status: int): (string, string)
  {
    (r.verb + " " + r.url, Itoa(status))
  }

  /** Two different status codes never share a counter. */
  lemma {:induction false} CounterCodesDistinct(r: Request, s1: int, s2: int)
    requires MinInt64 <= s1 <= MaxInt64 && MinInt64 <= s2 <= MaxInt64 && s1 != s2
    ensures CounterLabels(r, s1) != CounterLabels(r, s2)
  {
    AtoiItoa(s1);
    AtoiItoa(s2);
  }

  /** A counter map with one label pair's count raised by one (absent counts read as zero). */
  function Incremented(counts: map<(string, string), nat>, labels: (string, string)): map<(string, string), nat>
  {
    counts[labels := (if labels in counts then counts[labels] else 0) + 1]
  }

  /** The request counter vector: one count per (name, code) label pair. */
  class RequestCounter {
    var counts: map<(string, string), nat>

    constructor ()
      ensures counts == map[]
    {
      counts := map[];
    }


    /**
     * withPromCounter: run the handler, then increment exactly the counter of
     * this request's name and status code.
     */
    method Serve<T>(handler: Request -> Response<T>, r: Request) returns (resp: Response<T>)
      modifies this
      ensures resp == handler(r)
      ensures counts == Incremented(old(counts), CounterLabels(r, resp.status))
    {
      resp := handler(r);
      counts := Incremented(counts, CounterLabels(r, resp.status));
    }
  }
}
