/**
 * The worker's ActivityRequester (temporal/v19700101/activity.go, reddit.go,
 * twitch.go): the cached OAuth tokens it refreshes under a clock predicate,
 * how it finishes a stored request before sending it, and what DoRequest
 * reports. Times here are Unix nanoseconds; `now` is a parameter and every
 * token exchange is an input.
 */
module Activity {
  import opened Wrappers
  import opened Text
  import opened Kinds
  import opened Http
  import opened ScheduleSpecs

  /** Go's zero time.Time in Unix nanoseconds: the expiry of a token never fetched. */
  const ZeroTimeNanos: int := ZeroTimeUnix * NanosPerSecond

  /** The minimum remaining lifetime prepareRequest asks of a token: 60 s. */
  const TokenMinLifetime: int := 60 * NanosPerSecond

  /** Go's int64 multiplication wraps: the two's-complement value of `x`. */
  function Wrap64(x: int): (r: int)
    ensures MinInt64 <= r <= MaxInt64
    ensures MinInt64 <= x <= MaxInt64 ==> r == x
    ensures (r - x) % 0x1_0000_0000_0000_0000 == 0
  {
    var m := (x - MinInt64) % 0x1_0000_0000_0000_0000;
    m + MinInt64
  }

  /** The fields of a token response (section 5.1 of RFC 6749) the service reads. */
  datatype TokenBody = TokenBody(accessToken: string, expiresIn: int)

  /** A token endpoint's answer: status, raw body, and the body decoded as JSON (or the decoder's error). */
  datatype TokenReply = TokenReply(status: int, body: string, decoded: Result<TokenBody, string>)

  /** A token request: the HTTP request and its url-encoded form body. */
  datatype TokenRequest = TokenRequest(req: HttpRequest, form: Values)

  /** The cached token after a refresh attempt, the error returned, and whether a request was sent. */
  datatype Refresh = Refresh(token: string, exp: int, err: Option<string>, requested: bool)

  /**
   * ensureValidRedditToken / ensureValidTwitchToken as a step on (token, exp).
   * A token with more than `minDur` left is kept without a request. Otherwise
   * a failed exchange, a non-200 answer or an undecodable body is an error
   * and keeps both fields; a good answer stores the access token and
   * now + expires_in seconds, the product taken in Go's int64.
   */
  function RefreshStep(token: string, exp: int, now: int, minDur: int, exchange: Result<TokenReply, string>,
                       service: string): (s: Refresh)
    ensures exp - now > minDur ==> s == Refresh(token, exp, None, false)
    ensures exp - now <= minDur ==> s.requested
    ensures s.err.Some? ==> s.token == token && s.exp == exp
    ensures s.err.None? && s.requested ==> exchange.Success? && exchange.value.status == 200
  {
    if exp - now > minDur then Refresh(token, exp, None, false)
    else match exchange
      case Failure(e) => Refresh(token, exp, Some(e), true)
      case Success(rep) =>
        if rep.status != 200 then
          Refresh(token, exp, Some("bad response " + Itoa(rep.status) + " code for getting " + service
                                   + " auth token: " + rep.body), true)
        else match rep.decoded
          case Failure(e) => Refresh(token, exp, Some(e), true)
          case Success(b) => Refresh(b.accessToken, now + Wrap64(b.expiresIn * NanosPerSecond), None, true)
  }

  /** A good answer stores the access token and an expiry expires_in seconds from now. */
  lemma {:induction false} RefreshStores(token: string, exp: int, now: int, minDur: int, b: TokenBody, body: string, service: string)
    requires exp - now <= minDur
    requires 0 <= b.expiresIn <= MaxInt64 / NanosPerSecond
    ensures RefreshStep(token, exp, now, minDur, Success(TokenReply(200, body, Success(b))), service)
      == Refresh(b.accessToken, now + b.expiresIn * NanosPerSecond, None, true)
  {
  }

  /**
   * After a successful refresh, a second call at the same instant sends no
   * request exactly when the granted lifetime exceeds `minDur`.
   */
  lemma {:induction false} RefreshThenShortCircuits(token: string, exp: int, now: int, minDur: int,
                                                   b: TokenBody, body: string, again: Result<TokenReply, string>,
                                                   service: string)
    requires exp - now <= minDur
    requires 0 <= b.expiresIn <= MaxInt64 / NanosPerSecond
    ensures var s := RefreshStep(token, exp, now, minDur, Success(TokenReply(200, body, Success(b))), service);
      !RefreshStep(s.token, s.exp, now, minDur, again, service).requested <==> b.expiresIn * NanosPerSecond > minDur
  {
    RefreshStores(token, exp, now, minDur, b, body, service);
  }

  /** A lifetime beyond int64 nanoseconds wraps to a past expiry: the token is treated as stale at once. */
  lemma {:induction false} HugeLifetimeWraps(token: string, exp: int, now: int, body: string, service: string)
    requires exp - now <= TokenMinLifetime
    ensures var s := RefreshStep(token, exp, now, TokenMinLifetime,
                                 Success(TokenReply(200, body, Success(TokenBody("t", 9223372037)))), service);
      s.exp < now && RefreshStep(s.token, s.exp, now, TokenMinLifetime, Failure("down"), service).requested
  {
    assert Wrap64(9223372037 * NanosPerSecond) == 9223372037000000000 - 0x1_0000_0000_0000_0000;
  }

  /** The Reddit password-grant token request (section 4.3 of RFC 6749). */
  function RedditTokenRequest(env: string -> string, base64: string -> string): (t: TokenRequest)
    ensures t.form.Keys == {"grant_type", "username", "password"} && t.form["grant_type"] == ["password"]
    ensures t.req.verb == "POST" && t.req.url.host == "www.reddit.com"
  {
    var r := NewRequest("POST", "https", "www.reddit.com", "/api/v1/access_token");
    var r := SetBasicAuth(r, env("REDDIT_CLIENT_ID"), env("REDDIT_CLIENT_SECRET"), base64);
    var r := SetHeader(r, "Content-Type", "application/x-www-form-urlencoded");
    var r := AddHeader(r, "User-Agent", env("REDDIT_USER_AGENT"));
    TokenRequest(r, map["grant_type" := ["password"], "username" := [env("REDDIT_USERNAME")],
                        "password" := [env("REDDIT_PASSWORD")]])
  }

  /** The Twitch client-credentials token request (section 4.4 of RFC 6749). */
  function TwitchTokenRequest(env: string -> string): (t: TokenRequest)
    ensures t.form.Keys == {"grant_type", "client_id", "client_secret"}
    ensures t.form["grant_type"] == ["client_credentials"] && t.req.verb == "POST"
  {
    var r := NewRequest("POST", "https", "id.twitch.tv", "/oauth2/token");
    var r := SetHeader(r, "Content-Type", "application/x-www-form-urlencoded");
    TokenRequest(r, map["grant_type" := ["client_credentials"], "client_id" := [env("TWITCH_CLIENT_ID")],
                        "client_secret" := [env("TWITCH_CLIENT_SECRET")]])
  }

  /** How prepareRequest authenticates each kind. */
  datatype Scheme = ServiceBearer | KaggleBasic | YouTubeKey | RedditPoller | RedditListener | TwitchBearer

  function SchemeOf(rk: string): (s: Option<Scheme>)
    ensures s.Some? <==> Supported(rk)
  {
    if rk == InternalRandom then Some(ServiceBearer)
    else if rk == KaggleNotebook || rk == KaggleDataset then Some(KaggleBasic)
    else if rk == YouTubeVideo || rk == YouTubeChannel then Some(YouTubeKey)
    else if rk == RedditPost || rk == RedditComment || rk == RedditSubreddit || rk == RedditUser then Some(RedditPoller)
    else if rk == RedditSubredditMonitor || rk == RedditUserMonitor then Some(RedditListener)
    else if rk == TwitchClip || rk == TwitchVideo || rk == TwitchStream || rk == TwitchUserPastDec then Some(TwitchBearer)
    else None
  }

  /** The rate-limit metrics label DoRequest records a response under, if any. */
  function RateLimitLabel(rk: string): (l: Option<string>)
    ensures l == Some("reddit-poller") <==> SchemeOf(rk) == Some(RedditPoller)
    ensures l == Some("reddit-monitor") <==> SchemeOf(rk) == Some(RedditListener)
    ensures l == Some("twitch") <==> SchemeOf(rk) == Some(TwitchBearer)
    ensures l.None? <==> SchemeOf(rk) !in {Some(RedditPoller), Some(RedditListener), Some(TwitchBearer)}
  {
    match SchemeOf(rk)
    case Some(RedditPoller) => Some("reddit-poller")
    case Some(RedditListener) => Some("reddit-monitor")
    case Some(TwitchBearer) => Some("twitch")
    case _ => None
  }

  /**
   * The common finishing touches: the URL becomes https://Host+RequestURI,
   * RequestURI is cleared and Accept asks for JSON. `parsed` has the target's
   * path and query in its URL.
   */
  function Rebased(parsed: HttpRequest): (r: HttpRequest)
    ensures r.url == Url("https", parsed.host, parsed.url.path, parsed.url.query)
    ensures r.requestURI == "" && "Accept" in r.headers && r.headers["Accept"] == ["application/json"]
  {
    SetHeader(parsed, "Accept", "application/json")
      .(url := Url("https", parsed.host, parsed.url.path, parsed.url.query), requestURI := "")
  }

  /** The credentials a prepared request carries, given the tokens after any refresh. */
  function WithCredentials(r: HttpRequest, s: Scheme, env: string -> string, base64: string -> string,
                           redditToken: string, listenerToken: string, twitchToken: string): HttpRequest
  {
    match s
    case ServiceBearer => SetHeader(r, "Authorization", "Bearer " + env("AUTH_TOKEN"))
    case KaggleBasic => SetBasicAuth(r, env("KAGGLE_USERNAME"), env("KAGGLE_API_KEY"), base64)
    case YouTubeKey => SetQuery(SetQuery(r, "part", "snippet,contentDetails,statistics"), "key", env("YOUTUBE_API_KEY"))
    case RedditPoller =>
      SetHeader(SetHeader(r, "User-Agent", env("REDDIT_USER_AGENT")), "Authorization", "bearer " + redditToken)
    case RedditListener =>
      SetHeader(SetHeader(r, "User-Agent", env("REDDIT_LISTENER_USER_AGENT")), "Authorization", "bearer " + listenerToken)
    case TwitchBearer =>
      SetHeader(SetHeader(r, "Client-Id", env("TWITCH_CLIENT_ID")), "Authorization", "Bearer " + twitchToken)
  }

  /** What DoRequest returns: the kind, the upstream status and the body, unchanged. */
  datatype DoRequestActResult = DoRequestActResult(requestKind: string, statusCode: int, body: string)

  /** The request prepareRequest yields, or its error, and the four token fields it leaves behind. */
  datatype Preparation = Preparation(request: Result<HttpRequest, string>,
                                     redditToken: string, redditTokenExp: int,
                                     twitchToken: string, twitchTokenExp: int)

  /**
   * prepareRequest as a function of the token fields it starts from (`rt`,
   * `rte`, `tt`, `tte`), the kind's scheme, the parsed stored request, and
   * the answers the Reddit and Twitch token endpoints would give: an
   * unreadable request or an unsupported kind is an error; only the kinds
   * that use the Reddit poller or the Twitch bearer refresh their own token.
   */
  function Prepare(rt: string, rte: int, tt: string, tte: int, rk: string, scheme: Option<Scheme>,
                   parsed: Result<HttpRequest, string>, now: int, env: string -> string, base64: string -> string,
                   redditReply: Result<TokenReply, string>, twitchReply: Result<TokenReply, string>,
                   listener: Result<string, string>): (p: Preparation)
    ensures p.request.Success? ==> parsed.Success? && scheme.Some?
    ensures scheme != Some(RedditPoller) ==> p.redditToken == rt && p.redditTokenExp == rte
    ensures scheme != Some(TwitchBearer) ==> p.twitchToken == tt && p.twitchTokenExp == tte
  {
    match parsed
    case Failure(e) => Preparation(Failure("error deserializing request: " + e), rt, rte, tt, tte)
    case Success(req) =>
      var base := Rebased(req);
      match scheme
      case None => Preparation(Failure("unsupported RequestKind " + rk), rt, rte, tt, tte)
      case Some(RedditPoller) =>
        var s := RefreshStep(rt, rte, now, TokenMinLifetime, redditReply, "reddit");
        Preparation(if s.err.Some? then Failure(s.err.value)
                    else Success(WithCredentials(base, RedditPoller, env, base64, s.token, "", "")),
                    s.token, s.exp, tt, tte)
      case Some(TwitchBearer) =>
        var s := RefreshStep(tt, tte, now, TokenMinLifetime, twitchReply, "twitch");
        Preparation(if s.err.Some? then Failure(s.err.value)
                    else Success(WithCredentials(base, TwitchBearer, env, base64, "", "", s.token)),
                    rt, rte, s.token, s.exp)
      case Some(RedditListener) =>
        Preparation(if listener.Failure? then Failure(listener.error)
                    else Success(WithCredentials(base, RedditListener, env, base64, "", listener.value, "")),
                    rt, rte, tt, tte)
      case Some(other) =>
        Preparation(Success(WithCredentials(base, other, env, base64, "", "", "")), rt, rte, tt, tte)
  }

  // The next five lemmas each pin Prepare down to one case as an equation.
  // They are the proof steps PrepareRequest and the lemmas after them use.

  /** Prepare's two early errors. */
  lemma {:induction false} PrepareErrors(rt: string, rte: int, tt: string, tte: int, rk: string, scheme: Option<Scheme>,
                                        parsed: Result<HttpRequest, string>, now: int, env: string -> string,
                                        base64: string -> string, redditReply: Result<TokenReply, string>,
                                        twitchReply: Result<TokenReply, string>, listener: Result<string, string>)
    requires parsed.Failure? || scheme.None?
    ensures Prepare(rt, rte, tt, tte, rk, scheme, parsed, now, env, base64, redditReply, twitchReply, listener)
         == Preparation(if parsed.Failure? then Failure("error deserializing request: " + parsed.error)
                        else Failure("unsupported RequestKind " + rk), rt, rte, tt, tte)
  {
  }

  /** Prepare's Reddit poller case. */
  lemma {:induction false} PrepareRedditPoller(rt: string, rte: int, tt: string, tte: int, rk: string,
                                              req: HttpRequest, now: int, env: string -> string,
                                              base64: string -> string, redditReply: Result<TokenReply, string>,
                                              twitchReply: Result<TokenReply, string>, listener: Result<string, string>)
    ensures var s := RefreshStep(rt, rte, now, TokenMinLifetime, redditReply, "reddit");
      Prepare(rt, rte, tt, tte, rk, Some(RedditPoller), Success(req), now, env, base64, redditReply, twitchReply, listener)
      == Preparation(if s.err.Some? then Failure(s.err.value)
                     else Success(WithCredentials(Rebased(req), RedditPoller, env, base64, s.token, "", "")),
                     s.token, s.exp, tt, tte)
  {
  }

  /** Prepare's Twitch case. */
  lemma {:induction false} PrepareTwitchBearer(rt: string, rte: int, tt: string, tte: int, rk: string,
                                              req: HttpRequest, now: int, env: string -> string,
                                              base64: string -> string, redditReply: Result<TokenReply, string>,
                                              twitchReply: Result<TokenReply, string>, listener: Result<string, string>)
    ensures var s := RefreshStep(tt, tte, now, TokenMinLifetime, twitchReply, "twitch");
      Prepare(rt, rte, tt, tte, rk, Some(TwitchBearer), Success(req), now, env, base64, redditReply, twitchReply, listener)
      == Preparation(if s.err.Some? then Failure(s.err.value)
                     else Success(WithCredentials(Rebased(req), TwitchBearer, env, base64, "", "", s.token)),
                     rt, rte, s.token, s.exp)
  {
  }

  /** Prepare's Reddit listener case. */
  lemma {:induction false} PrepareRedditListener(rt: string, rte: int, tt: string, tte: int, rk: string,
                                                req: HttpRequest, now: int, env: string -> string,
                                                base64: string -> string, redditReply: Result<TokenReply, string>,
                                                twitchReply: Result<TokenReply, string>, listener: Result<string, string>)
    ensures Prepare(rt, rte, tt, tte, rk, Some(RedditListener), Success(req), now, env, base64, redditReply, twitchReply, listener)
         == Preparation(if listener.Failure? then Failure(listener.error)
                        else Success(WithCredentials(Rebased(req), RedditListener, env, base64, "", listener.value, "")),
                        rt, rte, tt, tte)
  {
  }

  /** Prepare's case for the kinds with static credentials. */
  lemma {:induction false} PrepareStatic(rt: string, rte: int, tt: string, tte: int, rk: string, scheme: Scheme,
                                        req: HttpRequest, now: int, env: string -> string,
                                        base64: string -> string, redditReply: Result<TokenReply, string>,
                                        twitchReply: Result<TokenReply, string>, listener: Result<string, string>)
    requires scheme == ServiceBearer || scheme == KaggleBasic || scheme == YouTubeKey
    ensures Prepare(rt, rte, tt, tte, rk, Some(scheme), Success(req), now, env, base64, redditReply, twitchReply, listener)
         == Preparation(Success(WithCredentials(Rebased(req), scheme, env, base64, "", "", "")), rt, rte, tt, tte)
  {
  }

  /**
   * The finishing touches every prepared request has over the stored one:
   * the same method, https://Host with the stored path, no RequestURI and a
   * JSON Accept header.
   */
  predicate RebasedFrom(r: HttpRequest, stored: HttpRequest)
  {
    r.verb == stored.verb && r.url.scheme == "https" && r.url.host == stored.host && r.url.path == stored.url.path
    && r.requestURI == "" && IsSet(r.headers, "Accept", "application/json")
  }

  /** Every header outside `keys` is as it was in the stored request. */
  ghost predicate OtherHeadersKept(r: HttpRequest, stored: HttpRequest, keys: set<string>)
  {
    forall k :: k !in keys ==>
      (k in r.headers <==> k in stored.headers) && (k in r.headers ==> r.headers[k] == stored.headers[k])
  }

  /**
   * prepareRequest succeeds exactly when the stored request parses, the kind
   * is supported and the token the kind needs is to be had; the two early
   * errors carry their own texts.
   */
  lemma {:induction false} PrepareSucceedsIff(rt: string, rte: int, tt: string, tte: int, rk: string, scheme: Option<Scheme>,
                                             parsed: Result<HttpRequest, string>, now: int, env: string -> string,
                                             base64: string -> string, redditReply: Result<TokenReply, string>,
                                             twitchReply: Result<TokenReply, string>, listener: Result<string, string>)
    ensures var p := Prepare(rt, rte, tt, tte, rk, scheme, parsed, now, env, base64, redditReply, twitchReply, listener);
      p.request.Success? <==>
        parsed.Success? && scheme.Some?
        && (scheme == Some(RedditPoller) ==> RefreshStep(rt, rte, now, TokenMinLifetime, redditReply, "reddit").err.None?)
        && (scheme == Some(TwitchBearer) ==> RefreshStep(tt, tte, now, TokenMinLifetime, twitchReply, "twitch").err.None?)
        && (scheme == Some(RedditListener) ==> listener.Success?)
    ensures parsed.Failure? ==>
      Prepare(rt, rte, tt, tte, rk, scheme, parsed, now, env, base64, redditReply, twitchReply, listener).request
        == Failure("error deserializing request: " + parsed.error)
    ensures parsed.Success? && scheme.None? ==>
      Prepare(rt, rte, tt, tte, rk, scheme, parsed, now, env, base64, redditReply, twitchReply, listener).request
        == Failure("unsupported RequestKind " + rk)
  {
    if parsed.Success? && scheme.Some? {
      match scheme.value
      case RedditPoller =>
        PrepareRedditPoller(rt, rte, tt, tte, rk, parsed.value, now, env, base64, redditReply, twitchReply, listener);
      case TwitchBearer =>
        PrepareTwitchBearer(rt, rte, tt, tte, rk, parsed.value, now, env, base64, redditReply, twitchReply, listener);
      case RedditListener =>
        PrepareRedditListener(rt, rte, tt, tte, rk, parsed.value, now, env, base64, redditReply, twitchReply, listener);
      case _ =>
        PrepareStatic(rt, rte, tt, tte, rk, scheme.value, parsed.value, now, env, base64, redditReply, twitchReply, listener);
    } else {
      PrepareErrors(rt, rte, tt, tte, rk, scheme, parsed, now, env, base64, redditReply, twitchReply, listener);
    }
  }

  /**
   * A Reddit poller request, once the Reddit token is good, carries the
   * poller's user agent and "bearer " plus the token now cached, and no
   * other header or query value changes.
   */
  lemma {:induction false} PollerCredentials(rt: string, rte: int, tt: string, tte: int, rk: string,
                                            stored: HttpRequest, now: int, env: string -> string,
                                            base64: string -> string, redditReply: Result<TokenReply, string>,
                                            twitchReply: Result<TokenReply, string>, listener: Result<string, string>)
    requires RefreshStep(rt, rte, now, TokenMinLifetime, redditReply, "reddit").err.None?
    ensures var p := Prepare(rt, rte, tt, tte, rk, Some(RedditPoller), Success(stored), now, env, base64,
                             redditReply, twitchReply, listener);
      p.request.Success? && RebasedFrom(p.request.value, stored) && p.request.value.url.query == stored.url.query
      && IsSet(p.request.value.headers, "User-Agent", env("REDDIT_USER_AGENT"))
      && IsSet(p.request.value.headers, "Authorization", "bearer " + p.redditToken)
      && OtherHeadersKept(p.request.value, stored, {"Accept", "User-Agent", "Authorization"})
  {
    PrepareRedditPoller(rt, rte, tt, tte, rk, stored, now, env, base64, redditReply, twitchReply, listener);
  }

  /**
   * A Twitch request, once the Twitch token is good, carries Client-Id and
   * "Bearer " plus the token now cached, and nothing else changes.
   */
  lemma {:induction false} TwitchCredentials(rt: string, rte: int, tt: string, tte: int, rk: string,
                                            stored: HttpRequest, now: int, env: string -> string,
                                            base64: string -> string, redditReply: Result<TokenReply, string>,
                                            twitchReply: Result<TokenReply, string>, listener: Result<string, string>)
    requires RefreshStep(tt, tte, now, TokenMinLifetime, twitchReply, "twitch").err.None?
    ensures var p := Prepare(rt, rte, tt, tte, rk, Some(TwitchBearer), Success(stored), now, env, base64,
                             redditReply, twitchReply, listener);
      p.request.Success? && RebasedFrom(p.request.value, stored) && p.request.value.url.query == stored.url.query
      && IsSet(p.request.value.headers, "Client-Id", env("TWITCH_CLIENT_ID"))
      && IsSet(p.request.value.headers, "Authorization", "Bearer " + p.twitchToken)
      && OtherHeadersKept(p.request.value, stored, {"Accept", "Client-Id", "Authorization"})
  {
    PrepareTwitchBearer(rt, rte, tt, tte, rk, stored, now, env, base64, redditReply, twitchReply, listener);
  }

  /**
   * A monitor request with a listener token carries the listener's user
   * agent and "bearer " plus that token; no token field changes.
   */
  lemma {:induction false} ListenerCredentials(rt: string, rte: int, tt: string, tte: int, rk: string,
                                              stored: HttpRequest, now: int, env: string -> string,
                                              base64: string -> string, redditReply: Result<TokenReply, string>,
                                              twitchReply: Result<TokenReply, string>, token: string)
    ensures var p := Prepare(rt, rte, tt, tte, rk, Some(RedditListener), Success(stored), now, env, base64,
                             redditReply, twitchReply, Success(token));
      p.request.Success? && RebasedFrom(p.request.value, stored) && p.request.value.url.query == stored.url.query
      && IsSet(p.request.value.headers, "User-Agent", env("REDDIT_LISTENER_USER_AGENT"))
      && IsSet(p.request.value.headers, "Authorization", "bearer " + token)
      && OtherHeadersKept(p.request.value, stored, {"Accept", "User-Agent", "Authorization"})
      && p.redditToken == rt && p.redditTokenExp == rte && p.twitchToken == tt && p.twitchTokenExp == tte
  {
    PrepareRedditListener(rt, rte, tt, tte, rk, stored, now, env, base64, redditReply, twitchReply, Success(token));
  }

  /**
   * The static credentials: the internal kind sends "Bearer " plus
   * AUTH_TOKEN, the Kaggle kinds basic auth of KAGGLE_USERNAME and
   * KAGGLE_API_KEY, and the YouTube kinds add the part and key query values
   * without touching a header. No token field changes.
   */
  lemma {:induction false} StaticCredentials(rt: string, rte: int, tt: string, tte: int, rk: string, scheme: Scheme,
                                            stored: HttpRequest, now: int, env: string -> string,
                                            base64: string -> string, redditReply: Result<TokenReply, string>,
                                            twitchReply: Result<TokenReply, string>, listener: Result<string, string>)
    requires scheme == ServiceBearer || scheme == KaggleBasic || scheme == YouTubeKey
    ensures var p := Prepare(rt, rte, tt, tte, rk, Some(scheme), Success(stored), now, env, base64,
                             redditReply, twitchReply, listener);
      p.request.Success? && RebasedFrom(p.request.value, stored)
      && p.redditToken == rt && p.redditTokenExp == rte && p.twitchToken == tt && p.twitchTokenExp == tte
      && (scheme == ServiceBearer ==>
            IsSet(p.request.value.headers, "Authorization", "Bearer " + env("AUTH_TOKEN"))
            && p.request.value.url.query == stored.url.query
            && OtherHeadersKept(p.request.value, stored, {"Accept", "Authorization"}))
      && (scheme == KaggleBasic ==>
            IsSet(p.request.value.headers, "Authorization",
                  "Basic " + base64(env("KAGGLE_USERNAME") + ":" + env("KAGGLE_API_KEY")))
            && p.request.value.url.query == stored.url.query
            && OtherHeadersKept(p.request.value, stored, {"Accept", "Authorization"}))
      && (scheme == YouTubeKey ==>
            IsSet(p.request.value.url.query, "part", "snippet,contentDetails,statistics")
            && IsSet(p.request.value.url.query, "key", env("YOUTUBE_API_KEY"))
            && OtherHeadersKept(p.request.value, stored, {"Accept"}))
  {
    PrepareStatic(rt, rte, tt, tte, rk, scheme, stored, now, env, base64, redditReply, twitchReply, listener);
  }

  /** What the HTTP client hands back: the status, and the body or the error reading it. */
  datatype Answer = Answer(status: int, body: Result<string, string>)

  /** The worker's HTTP activity state: the cached Reddit and Twitch tokens and their expiries. */
  class ActivityRequester {
    var redditToken: string
    var redditTokenExp: int
    var twitchToken: string
    var twitchTokenExp: int

    /** NewActivityRequester: no tokens yet, so both expiries are the zero time. */
    constructor()
      ensures redditToken == "" && twitchToken == ""
      ensures redditTokenExp == ZeroTimeNanos && twitchTokenExp == ZeroTimeNanos
    {
      redditToken, redditTokenExp := "", ZeroTimeNanos;
      twitchToken, twitchTokenExp := "", ZeroTimeNanos;
    }

    /**
     * ensureValidRedditToken. `exchange` answers the token request. `sent` is
     * the request made, None when the cached token was still good.
     */
    method EnsureValidRedditToken(now: int, minDur: int, env: string -> string, base64: string -> string,
                                  exchange: TokenRequest -> Result<TokenReply, string>)
      returns (err: Option<string>, sent: Option<TokenRequest>)
      modifies this
      ensures var s := RefreshStep(old(redditToken), old(redditTokenExp), now, minDur,
                                   exchange(RedditTokenRequest(env, base64)), "reddit");
        redditToken == s.token && redditTokenExp == s.exp && err == s.err
        && sent == (if s.requested then Some(RedditTokenRequest(env, base64)) else None)
      ensures twitchToken == old(twitchToken) && twitchTokenExp == old(twitchTokenExp)
    {
      if redditTokenExp - now > minDur {
        return None, None;
      }
      var t := RedditTokenRequest(env, base64);
      sent := Some(t);
      var s := RefreshStep(redditToken, redditTokenExp, now, minDur, exchange(t), "reddit");
      redditToken, redditTokenExp := s.token, s.exp;
      err := s.err;
    }

    /** ensureValidTwitchToken, the same state machine on the Twitch fields. */
    method EnsureValidTwitchToken(now: int, minDur: int, env: string -> string,
                                  exchange: TokenRequest -> Result<TokenReply, string>)
      returns (err: Option<string>, sent: Option<TokenRequest>)
      modifies this
      ensures var s := RefreshStep(old(twitchToken), old(twitchTokenExp), now, minDur,
                                   exchange(TwitchTokenRequest(env)), "twitch");
        twitchToken == s.token && twitchTokenExp == s.exp && err == s.err
        && sent == (if s.requested then Some(TwitchTokenRequest(env)) else None)
      ensures redditToken == old(redditToken) && redditTokenExp == old(redditTokenExp)
    {
      if twitchTokenExp - now > minDur {
        return None, None;
      }
      var t := TwitchTokenRequest(env);
      sent := Some(t);
      var s := RefreshStep(twitchToken, twitchTokenExp, now, minDur, exchange(t), "twitch");
      twitchToken, twitchTokenExp := s.token, s.exp;
      err := s.err;
    }

    /**
     * prepareRequest. `readRequest` parses the stored wire-format request;
     * `listener` is what refreshing the Reddit listener token gives (the token,
     * or the error). A failed refresh returns its error and no request; an
     * unsupported kind is an error.
     */
    method PrepareRequest(rk: string, serial: seq<byte>, readRequest: seq<byte> -> Result<HttpRequest, string>,
                          now: int, env: string -> string, base64: string -> string,
                          redditExchange: TokenRequest -> Result<TokenReply, string>,
                          twitchExchange: TokenRequest -> Result<TokenReply, string>,
                          listener: Result<string, string>)
      returns (r: Result<HttpRequest, string>)
      modifies this
      ensures var p := Prepare(old(redditToken), old(redditTokenExp), old(twitchToken), old(twitchTokenExp), rk, SchemeOf(rk),
                               readRequest(serial), now, env, base64, redditExchange(RedditTokenRequest(env, base64)),
                               twitchExchange(TwitchTokenRequest(env)), listener);
        r == p.request && redditToken == p.redditToken && redditTokenExp == p.redditTokenExp
        && twitchToken == p.twitchToken && twitchTokenExp == p.twitchTokenExp
    {
      ghost var rt, rte, tt, tte := redditToken, redditTokenExp, twitchToken, twitchTokenExp;
      ghost var redditReply, twitchReply := redditExchange(RedditTokenRequest(env, base64)), twitchExchange(TwitchTokenRequest(env));
      var parsed := readRequest(serial);
      var scheme := SchemeOf(rk);
      if parsed.Failure? || scheme.None? {
        PrepareErrors(rt, rte, tt, tte, rk, scheme, parsed, now, env, base64, redditReply, twitchReply, listener);
        if parsed.Failure? {
          return Failure("error deserializing request: " + parsed.error);
        }
        return Failure("unsupported RequestKind " + rk);
      }
      var base := Rebased(parsed.value);
      match scheme.value {
        case RedditPoller =>
          PrepareRedditPoller(rt, rte, tt, tte, rk, parsed.value, now, env, base64, redditReply, twitchReply, listener);
          var err, _ := EnsureValidRedditToken(now, TokenMinLifetime, env, base64, redditExchange);
          if err.Some? {
            return Failure(err.value);
          }
          r := Success(WithCredentials(base, RedditPoller, env, base64, redditToken, "", ""));
        case TwitchBearer =>
          PrepareTwitchBearer(rt, rte, tt, tte, rk, parsed.value, now, env, base64, redditReply, twitchReply, listener);
          var err, _ := EnsureValidTwitchToken(now, TokenMinLifetime, env, twitchExchange);
          if err.Some? {
            return Failure(err.value);
          }
          r := Success(WithCredentials(base, TwitchBearer, env, base64, "", "", twitchToken));
        case RedditListener =>
          PrepareRedditListener(rt, rte, tt, tte, rk, parsed.value, now, env, base64, redditReply, twitchReply, listener);
          if listener.Failure? {
            return Failure(listener.error);
          }
          r := Success(WithCredentials(base, RedditListener, env, base64, "", listener.value, ""));
        case _ =>
          PrepareStatic(rt, rte, tt, tte, rk, scheme.value, parsed.value, now, env, base64, redditReply, twitchReply, listener);
          r := Success(WithCredentials(base, scheme.value, env, base64, "", "", ""));
      }
    }

    /**
     * DoRequest: prepare, send, read the body, and report. `send` performs
     * the exchange. `client` is the label the rate-limit metrics are
     * recorded under. The result echoes kind, status and body.
     */
    method DoRequest(rk: string, serial: seq<byte>, readRequest: seq<byte> -> Result<HttpRequest, string>,
                     now: int, env: string -> string, base64: string -> string,
                     redditExchange: TokenRequest -> Result<TokenReply, string>,
                     twitchExchange: TokenRequest -> Result<TokenReply, string>,
                     listener: Result<string, string>, send: HttpRequest -> Result<Answer, string>)
      returns (res: Result<DoRequestActResult, string>, client: Option<string>)
      modifies this
      ensures var p := Prepare(old(redditToken), old(redditTokenExp), old(twitchToken), old(twitchTokenExp), rk, SchemeOf(rk),
                               readRequest(serial), now, env, base64, redditExchange(RedditTokenRequest(env, base64)),
                               twitchExchange(TwitchTokenRequest(env)), listener);
        redditToken == p.redditToken && redditTokenExp == p.redditTokenExp
        && twitchToken == p.twitchToken && twitchTokenExp == p.twitchTokenExp
        && res == match p.request
          case Failure(e) => Failure(e)
          case Success(req) =>
            match send(req)
            case Failure(e) => Failure("error doing request: " + e)
            case Success(answer) =>
              match answer.body
              case Failure(e) => Failure("error reading response body: " + e)
              case Success(body) => Success(DoRequestActResult(rk, answer.status, body))
      ensures res.Success? ==> res.value.requestKind == rk && SchemeOf(rk).Some?
      ensures client == (if res.Success? then RateLimitLabel(rk) else None)
    {
      var prepared := PrepareRequest(rk, serial, readRequest, now, env, base64, redditExchange, twitchExchange, listener);
      if prepared.Failure? {
        return Failure(prepared.error), None;
      }
      var reply := send(prepared.value);
      if reply.Failure? {
        return Failure("error doing request: " + reply.error), None;
      }
      if reply.value.body.Failure? {
        return Failure("error reading response body: " + reply.value.body.error), None;
      }
      client := RateLimitLabel(rk);
      res := Success(DoRequestActResult(rk, reply.value.status, reply.value.body.value));
    }
  }
}
