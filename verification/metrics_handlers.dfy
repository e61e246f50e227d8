/**
 * The worker's metric handlers (temporal/v19700101/handlers_metrics.go) and
 * their dispatch (UploadMetrics in temporal/v19700101/activity.go): the
 * monitor rule that turns a listing of posts into schedule requests, the
 * decimal counts of the YouTube handlers, the empty-stream short-circuit of
 * the Twitch stream handler, and the duration parsing of the Twitch
 * past-broadcast handler. Every outbound call is an input function.
 */
module MetricsHandlers {
  import opened Wrappers
  import opened Text
  import opened Kinds
  import opened Json
  import opened Http
  import opened ScheduleSpecs
  import opened Api
  import MetadataHandlers

  // ---------------------------------------------------------------------------
  // JMESPath length(@)
  // ---------------------------------------------------------------------------

  /** JMESPath's length(): of a string, an array or an object; any other value is a type error. */
  function LengthOf(v: Json): (r: Option<nat>)
    ensures r.Some? <==> v.Str? || v.Arr? || v.Obj?
    ensures v.Arr? ==> r == Some(|v.items|)
  {
    match v
    case Str(s) => Some(|s|)
    case Arr(items) => Some(|items|)
    case Obj(fields) => Some(|fields|)
    case _ => None
  }

  /** The text of JMESPath's type error for length() (the library's wording is not modelled). */
  const LengthTypeError: string := "invalid type for length()"

  // ---------------------------------------------------------------------------
  // uploadMonitorPosts
  // ---------------------------------------------------------------------------

  /** `data.children[i].data.<key>`. */
  function PostField(i: nat, key: string): Path
  {
    [Key("data"), Key("children"), At(i), Key("data"), Key(key)]
  }

  /**
   * The monitor's decision for post `i`: skip it (None), schedule its id, or
   * an error. A nil stickied, pinned or id is an error; a stickied or pinned
   * value that is not a boolean counts as false; a non-string id panics.
   */
  function Selected(data: Json, i: nat): (r: Extracted<Option<string>>)
    ensures r.Fail? ==> !r.noRetry
    ensures r == Ok(None) <==> (!Search(data, PostField(i, "stickied")).Null?
                                && !Search(data, PostField(i, "pinned")).Null?
                                && AsBool(Search(data, PostField(i, "stickied")))
                                && !AsBool(Search(data, PostField(i, "pinned"))))
    ensures r.Ok? && r.value.Some? ==> Search(data, PostField(i, "id")) == Str(r.value.value)
  {
    var stickied := Search(data, PostField(i, "stickied"));
    var pinned := Search(data, PostField(i, "pinned"));
    var id := Search(data, PostField(i, "id"));
    if stickied.Null? then Fail("error extracting stickied for post " + Itoa(i) + ": nil stickied", false)
    else if pinned.Null? then Fail("error extracting pinned for post " + Itoa(i) + ": nil pinned", false)
    else if AsBool(stickied) && !AsBool(pinned) then Ok(None)
    else if id.Null? then Fail("error extracting id for post " + Itoa(i) + ": nil id", false)
    else if id.Str? then Ok(Some(id.s))
    else Panic(AssertionPanic(id, "string"))
  }

  /** The schedule request for a followed post: kind reddit.post and the default spec. */
  function PostPayload(id: string): (p: GenericScheduleRequestPayload)
    ensures p.requestKind == RedditPost && p.id == id && p.schedule == DefaultScheduleSpec(RedditPost, id)
  {
    GenericScheduleRequestPayload(RedditPost, id, DefaultScheduleSpec(RedditPost, id))
  }

  /** The error of one schedule request, if any: 200 and 409 are both fine. */
  function ScheduleError(reply: Result<Reply, string>): (e: Option<string>)
    ensures e.None? <==> reply.Success? && (reply.value.status == 200 || reply.value.status == 409)
  {
    match reply
    case Failure(err) => Some("error doing create schedule request: " + err)
    case Success(rep) =>
      if rep.status == 200 || rep.status == 409 then None
      else Some("bad response (" + Itoa(rep.status) + ") uploading post: " + rep.body)
  }

  /** What the monitor has done after the first posts: requests sent, errors, and a panic if one struck. */
  datatype MonitorState = MonitorState(sent: seq<GenericScheduleRequestPayload>, errors: seq<string>,
                                       panic: Option<string>)

  /** The monitor's decision for each post of a listing, by position. */
  type Decisions = nat -> Extracted<Option<string>>

  /** The decisions the monitor takes on the posts of `data`. */
  function Decide(data: Json): (d: Decisions)
    ensures forall i :: d(i) == Selected(data, i)
  {
    (i: nat) => Selected(data, i)
  }

  /** Post `i` fails: its decision is an error, or its schedule request fails. */
  predicate PostFails(decide: Decisions, i: nat, send: GenericScheduleRequestPayload -> Result<Reply, string>)
  {
    match decide(i)
    case Fail(_, _) => true
    case Ok(Some(id)) => ScheduleError(send(PostPayload(id))).Some?
    case _ => false
  }

  /** The request post `i` adds to the run: its default request when it is followed. */
  function StepSent(decide: Decisions, i: nat): seq<GenericScheduleRequestPayload>
  {
    match decide(i)
    case Ok(Some(id)) => [PostPayload(id)]
    case _ => []
  }

  /** The error post `i` adds to the run: its decision's error or its request's. */
  function StepErrors(decide: Decisions, i: nat, send: GenericScheduleRequestPayload -> Result<Reply, string>): seq<string>
  {
    match decide(i)
    case Fail(msg, _) => [msg]
    case Ok(Some(id)) =>
      var e := ScheduleError(send(PostPayload(id)));
      if e.Some? then [e.value] else []
    case _ => []
  }

  /** The monitor's work on posts 0..n-1, one after another, stopping at a panic. */
  function MonitorRun(decide: Decisions, n: nat, send: GenericScheduleRequestPayload -> Result<Reply, string>)
    : (m: MonitorState)
    ensures |m.sent| <= n && |m.errors| <= n
  {
    if n == 0 then MonitorState([], [], None)
    else
      var prev := MonitorRun(decide, n - 1, send);
      if prev.panic.Some? then prev
      else if decide(n - 1).Panic? then prev.(panic := Some(decide(n - 1).msg))
      else MonitorState(prev.sent + StepSent(decide, n - 1), prev.errors + StepErrors(decide, n - 1, send), None)
  }

  /** Once a panic struck, later posts change nothing. */
  lemma {:induction false} MonitorPanicStays(decide: Decisions, i: nat, n: nat,
                                            send: GenericScheduleRequestPayload -> Result<Reply, string>)
    requires i <= n && MonitorRun(decide, i, send).panic.Some?
    ensures MonitorRun(decide, n, send) == MonitorRun(decide, i, send)
    decreases n - i
  {
    if i < n {
      MonitorPanicStays(decide, i, n - 1, send);
    }
  }

  /** Post `i` either panics the run or adds its own request and error. */
  lemma {:induction false} MonitorRunNext(decide: Decisions, i: nat, send: GenericScheduleRequestPayload -> Result<Reply, string>)
    requires MonitorRun(decide, i, send).panic.None?
    ensures decide(i).Panic? ==> MonitorRun(decide, i + 1, send).panic == Some(decide(i).msg)
    ensures !decide(i).Panic? ==>
      MonitorRun(decide, i + 1, send).panic.None?
      && MonitorRun(decide, i + 1, send).sent == MonitorRun(decide, i, send).sent + StepSent(decide, i)
      && MonitorRun(decide, i + 1, send).errors == MonitorRun(decide, i, send).errors + StepErrors(decide, i, send)
  {
  }

  /** Without a panic, each post adds its own request and error to those of the posts before it. */
  lemma {:induction false} MonitorRunStep(decide: Decisions, n: nat, send: GenericScheduleRequestPayload -> Result<Reply, string>)
    requires n > 0 && MonitorRun(decide, n, send).panic.None?
    ensures MonitorRun(decide, n - 1, send).panic.None?
    ensures MonitorRun(decide, n, send).sent == MonitorRun(decide, n - 1, send).sent + StepSent(decide, n - 1)
    ensures MonitorRun(decide, n, send).errors == MonitorRun(decide, n - 1, send).errors + StepErrors(decide, n - 1, send)
    ensures StepErrors(decide, n - 1, send) != [] <==> PostFails(decide, n - 1, send)
  {
  }

  /**
   * Only followed posts are scheduled: every request sent is the default
   * reddit.post request for a post whose decision was to schedule it.
   */
  lemma {:induction false} MonitorSentAreSelected(decide: Decisions, n: nat,
                                                 send: GenericScheduleRequestPayload -> Result<Reply, string>)
    ensures forall p :: p in MonitorRun(decide, n, send).sent ==>
      (p == PostPayload(p.id) && exists i :: 0 <= i < n && decide(i) == Ok(Some(p.id)))
  {
    if n > 0 {
      MonitorSentAreSelected(decide, n - 1, send);
      var prev := MonitorRun(decide, n - 1, send);
      var m := MonitorRun(decide, n, send);
      forall p | p in m.sent
        ensures p == PostPayload(p.id) && exists i :: 0 <= i < n && decide(i) == Ok(Some(p.id))
      {
        if p in prev.sent {
          var i :| 0 <= i < n - 1 && decide(i) == Ok(Some(p.id));
          assert 0 <= i < n;
        } else {
          assert prev.panic.None?;
          match decide(n - 1)
          case Ok(Some(id)) =>
            assert m.sent == prev.sent + [PostPayload(id)];
            assert p == PostPayload(id);
          case _ =>
        }
      }
    }
  }

  /** Every followed post is scheduled, when no panic cut the run short. */
  lemma {:induction false} MonitorSendsEverySelected(decide: Decisions, n: nat,
                                                    send: GenericScheduleRequestPayload -> Result<Reply, string>)
    requires MonitorRun(decide, n, send).panic.None?
    ensures forall i, id :: 0 <= i < n && decide(i) == Ok(Some(id)) ==>
      PostPayload(id) in MonitorRun(decide, n, send).sent
  {
    forall i, id | 0 <= i < n && decide(i) == Ok(Some(id))
      ensures PostPayload(id) in MonitorRun(decide, n, send).sent
    {
      MonitorSendsSelected(decide, n, send, i, id);
    }
  }

  /** Followed post `i` is among the requests sent, when no panic cut the run short. */
  lemma {:induction false} MonitorSendsSelected(decide: Decisions, n: nat,
                                                send: GenericScheduleRequestPayload -> Result<Reply, string>,
                                                i: nat, id: string)
    requires MonitorRun(decide, n, send).panic.None? && i < n && decide(i) == Ok(Some(id))
    ensures PostPayload(id) in MonitorRun(decide, n, send).sent
  {
    var m, prev := MonitorRun(decide, n, send), MonitorRun(decide, n - 1, send);
    MonitorRunStep(decide, n, send);
    assert m.sent == prev.sent + StepSent(decide, n - 1);
    if i < n - 1 {
      MonitorSendsSelected(decide, n - 1, send, i, id);
    } else {
      assert StepSent(decide, n - 1) == [PostPayload(id)];
    }
  }

  /** Without a panic, the run has errors exactly when some post fails. */
  lemma {:induction false} MonitorErrorsIffSomeFails(decide: Decisions, n: nat,
                                                    send: GenericScheduleRequestPayload -> Result<Reply, string>)
    requires MonitorRun(decide, n, send).panic.None?
    ensures MonitorRun(decide, n, send).errors != [] <==> exists i :: 0 <= i < n && PostFails(decide, i, send)
  {
    if n > 0 {
      MonitorRunStep(decide, n, send);
      MonitorErrorsIffSomeFails(decide, n - 1, send);
      var prev := MonitorRun(decide, n - 1, send).errors;
      var step := StepErrors(decide, n - 1, send);
      if exists i :: 0 <= i < n && PostFails(decide, i, send) {
        var i :| 0 <= i < n && PostFails(decide, i, send);
        if i < n - 1 {
          assert prev != [];
        } else {
          assert step != [];
        }
      }
      if MonitorRun(decide, n, send).errors != [] {
        if prev != [] {
          var i :| 0 <= i < n - 1 && PostFails(decide, i, send);
          assert 0 <= i < n;
        } else {
          assert PostFails(decide, n - 1, send);
        }
      }
    }
  }

  /** The body of uploadMonitorPosts' loop: decide on post `i` and, if it is followed, schedule it. */
  method UploadPost(data: Json, i: nat, send: GenericScheduleRequestPayload -> Result<Reply, string>,
                    sent: seq<GenericScheduleRequestPayload>, errors: seq<string>)
    returns (sent': seq<GenericScheduleRequestPayload>, errors': seq<string>, panic: Option<string>)
    ensures panic.Some? <==> Decide(data)(i).Panic?
    ensures panic.Some? ==> panic.value == Decide(data)(i).msg && sent' == sent && errors' == errors
    ensures panic.None? ==>
      sent' == sent + StepSent(Decide(data), i) && errors' == errors + StepErrors(Decide(data), i, send)
  {
    sent', errors', panic := sent, errors, None;
    var sel := Selected(data, i);
    assert Decide(data)(i) == sel;
    match sel {
      case Panic(msg) =>
        panic := Some(msg);
      case Fail(msg, _) =>
        errors' := errors' + [msg];
      case Ok(choice) =>
        if choice.Some? {
          var p := PostPayload(choice.value);
          sent' := sent' + [p];
          var e := ScheduleError(send(p));
          if e.Some? {
            errors' := errors' + [e.value];
          }
        }
    }
  }

  /** uploadMonitorPosts' loop over the first `n` posts of `data`, stopping at the first panic. */
  method UploadPosts(data: Json, n: nat, send: GenericScheduleRequestPayload -> Result<Reply, string>)
    returns (sent: seq<GenericScheduleRequestPayload>, errors: seq<string>, panic: Option<string>)
    ensures MonitorRun(Decide(data), n, send) == MonitorState(sent, errors, panic)
  {
    sent, errors := [], [];
    ghost var decide := Decide(data);
    var i := 0;
    while i < n
      invariant 0 <= i <= n
      invariant MonitorRun(decide, i, send) == MonitorState(sent, errors, None)
    {
      MonitorRunNext(decide, i, send);
      sent, errors, panic := UploadPost(data, i, send, sent, errors);
      if panic.Some? {
        MonitorPanicStays(decide, i + 1, n, send);
        return;
      }
      i := i + 1;
    }
    panic := None;
  }

  /**
   * uploadMonitorPosts, one post after another. `send` performs one schedule
   * request. The result is Ok when no post failed, else the first failure.
   */
  method UploadMonitorPosts(body: Result<Json, string>, send: GenericScheduleRequestPayload -> Result<Reply, string>)
    returns (sent: seq<GenericScheduleRequestPayload>, errors: seq<string>, r: Extracted<()>)
    ensures r.Fail? ==> !r.noRetry
    ensures body.Failure? ==> sent == [] && r == Fail("error deserializing response: " + body.error, false)
    ensures body.Success? && LengthOf(Search(body.value, [Key("data"), Key("children")])).None? ==>
      sent == [] && r == Fail("error extracting post count: " + LengthTypeError, false)
    ensures body.Success? && LengthOf(Search(body.value, [Key("data"), Key("children")])).Some? ==>
      var m := MonitorRun(Decide(body.value), LengthOf(Search(body.value, [Key("data"), Key("children")])).value, send);
      sent == m.sent && errors == m.errors
      && (m.panic.Some? ==> r == Panic(m.panic.value))
      && (m.panic.None? && m.errors == [] ==> r == Ok(()))
      && (m.panic.None? && m.errors != [] ==> r == Fail(m.errors[0], false))
  {
    sent, errors := [], [];
    if body.Failure? {
      return sent, errors, Fail("error deserializing response: " + body.error, false);
    }
    var data := body.value;
    var count := LengthOf(Search(data, [Key("data"), Key("children")]));
    if count.None? {
      return sent, errors, Fail("error extracting post count: " + LengthTypeError, false);
    }
    var panic;
    sent, errors, panic := UploadPosts(data, count.value, send);
    if panic.Some? {
      return sent, errors, Panic(panic.value);
    }
    r := if errors == [] then Ok(()) else Fail(errors[0], false);
  }

  /** A listing's first post finds its own fields, or null. */
  lemma {:induction false} SearchFirstPost(post: map<string, Json>, k: string)
    ensures Search(MetadataHandlers.RedditListing(post), PostField(0, k)) == if k in post then post[k] else Null
  {
    assert PostField(0, k) == MetadataHandlers.Thing(k);
    MetadataHandlers.SearchListing(post, k);
  }

  /** A post that is stickied and not pinned is skipped; any other post with an id is followed. */
  lemma {:induction false} MonitorSelectionRule(stickied: bool, pinned: bool, id: string)
    ensures var post := map["stickied" := Bool(stickied), "pinned" := Bool(pinned), "id" := Str(id)];
      Selected(MetadataHandlers.RedditListing(post), 0) == if stickied && !pinned then Ok(None) else Ok(Some(id))
  {
    var post := map["stickied" := Bool(stickied), "pinned" := Bool(pinned), "id" := Str(id)];
    SearchFirstPost(post, "stickied");
    SearchFirstPost(post, "pinned");
    SearchFirstPost(post, "id");
  }

  /** A stickied flag that is not a boolean counts as false: the post is followed. */
  lemma {:induction false} MonitorNonBoolStickiedFollowed(id: string)
    ensures var post := map["stickied" := Str("yes"), "pinned" := Bool(false), "id" := Str(id)];
      Selected(MetadataHandlers.RedditListing(post), 0) == Ok(Some(id))
  {
    var post := map["stickied" := Str("yes"), "pinned" := Bool(false), "id" := Str(id)];
    SearchFirstPost(post, "stickied");
    SearchFirstPost(post, "pinned");
    SearchFirstPost(post, "id");
  }

  /** The wrapping of a monitor failure. */
  function MonitorErrorPrefix(kind: string): string
  {
    if kind == RedditSubredditMonitor then "error doing subreddit monitor upload: "
    else "error doing user monitor upload: "
  }

  /** The monitor handlers: a monitor failure is wrapped, success answers "ok". */
  method HandleMonitorMetrics(kind: string, body: Result<Json, string>,
                              send: GenericScheduleRequestPayload -> Result<Reply, string>)
    returns (sent: seq<GenericScheduleRequestPayload>, r: Extracted<DefaultJSONResponse>)
    requires kind == RedditSubredditMonitor || kind == RedditUserMonitor
    ensures r.Fail? ==> !r.noRetry
    ensures r.Ok? ==> r.value == DefaultJSONResponse("ok", "")
    ensures r.Fail? ==> MonitorErrorPrefix(kind) <= r.msg
    ensures body.Failure? ==>
      sent == [] && r == Fail(MonitorErrorPrefix(kind) + ("error deserializing response: " + body.error), false)
    ensures body.Success? && LengthOf(Search(body.value, [Key("data"), Key("children")])).None? ==>
      sent == [] && r == Fail(MonitorErrorPrefix(kind) + ("error extracting post count: " + LengthTypeError), false)
    ensures body.Success? && LengthOf(Search(body.value, [Key("data"), Key("children")])).Some? ==>
      var m := MonitorRun(Decide(body.value), LengthOf(Search(body.value, [Key("data"), Key("children")])).value, send);
      sent == m.sent
      && (m.panic.Some? ==> r == Panic(m.panic.value))
      && (m.panic.None? && m.errors == [] ==> r == Ok(DefaultJSONResponse("ok", "")))
      && (m.panic.None? && m.errors != [] ==> r == Fail(MonitorErrorPrefix(kind) + m.errors[0], false))
  {
    var errors, u;
    sent, errors, u := UploadMonitorPosts(body, send);
    match u {
      case Ok(_) => r := Ok(DefaultJSONResponse("ok", ""));
      case Panic(m) => r := Panic(m);
      case Fail(m, _) =>
        r := Fail(MonitorErrorPrefix(kind) + m, false);
    }
  }

  // ---------------------------------------------------------------------------
  // Decimal counts (YouTube)
  // ---------------------------------------------------------------------------

  /** `items[0].<key>`. */
  function ItemField(key: string): Path { [Key("items"), At(0), Key(key)] }

  /** `items[0].statistics.<key>`. */
  function Statistic(key: string): Path { [Key("items"), At(0), Key("statistics"), Key(key)] }

  /** A count sent as a decimal string: nil is an error, a non-numeric string another. */
  function CountAt(data: Json, path: Path, nilMsg: string, parseMsg: string): (r: Extracted<int>)
    ensures r.Fail? ==> !r.noRetry
    ensures r.Ok? <==> Search(data, path).Str? && Atoi(Search(data, path).s).Some?
    ensures r.Ok? ==> r.value == Atoi(Search(data, path).s).value
    ensures Search(data, path).Str? && Atoi(Search(data, path).s).None? ==> r == Fail(parseMsg, false)
  {
    var s :- StrAt(data, path, nilMsg, false);
    match Atoi(s)
    case None => Fail(parseMsg, false)
    case Some(n) => Ok(n)
  }

  /** Any 64-bit count written in decimal is read back exactly. */
  lemma {:induction false} CountAtReadsDecimal(data: Json, path: Path, nilMsg: string, parseMsg: string, n: int)
    requires MinInt64 <= n <= MaxInt64 && Search(data, path) == Str(Itoa(n))
    ensures CountAt(data, path, nilMsg, parseMsg) == Ok(n)
  {
    AtoiItoa(n);
  }

  /** A count with a non-digit in it is the parse error. */
  lemma {:induction false} CountAtRejectsNonDigits(data: Json, path: Path, nilMsg: string, parseMsg: string, s: string, k: nat)
    requires Search(data, path) == Str(s) && 1 <= k < |s| && !IsDigit(s[k])
    ensures CountAt(data, path, nilMsg, parseMsg) == Fail(parseMsg, false)
  {
  }

  /** The metrics of a YouTube video. */
  datatype VideoMetrics = VideoMetrics(id: string, views: int, comments: int, likes: int)

  /** handleYouTubeVideoMetrics: the id and three decimal counts. */
  function HandleYouTubeVideoMetrics(body: Result<Json, string>): (r: Extracted<VideoMetrics>)
    ensures r.Fail? ==> !r.noRetry
    ensures r.Ok? ==> (body.Success?
      && Search(body.value, ItemField("id")) == Str(r.value.id)
      && Search(body.value, Statistic("viewCount")).Str?
      && Atoi(Search(body.value, Statistic("viewCount")).s) == Some(r.value.views)
      && Search(body.value, Statistic("commentCount")).Str?
      && Atoi(Search(body.value, Statistic("commentCount")).s) == Some(r.value.comments)
      && Search(body.value, Statistic("likeCount")).Str?
      && Atoi(Search(body.value, Statistic("likeCount")).s) == Some(r.value.likes))
  {
    var data :- Decode(body, "error deserializing response: ", false);
    var id :- StrAt(data, ItemField("id"), NilMsg("id"), false);
    var views :- CountAt(data, Statistic("viewCount"), NilMsg("views"), "error parsing views");
    var comments :- CountAt(data, Statistic("commentCount"), NilMsg("commentCount"), "error parsing comments");
    var likes :- CountAt(data, Statistic("likeCount"), NilMsg("likeCount"), "error parsing likes");
    Ok(VideoMetrics(id, views, comments, likes))
  }

  /** The metrics of a YouTube channel. */
  datatype ChannelMetrics = ChannelMetrics(id: string, views: int, subscribers: int, videos: int)

  /** handleYouTubeChannelMetrics: the id and three decimal counts. */
  function HandleYouTubeChannelMetrics(body: Result<Json, string>): (r: Extracted<ChannelMetrics>)
    ensures r.Fail? ==> !r.noRetry
    ensures r.Ok? ==> (body.Success?
      && Search(body.value, ItemField("id")) == Str(r.value.id)
      && Search(body.value, Statistic("viewCount")).Str?
      && Atoi(Search(body.value, Statistic("viewCount")).s) == Some(r.value.views)
      && Search(body.value, Statistic("subscriberCount")).Str?
      && Atoi(Search(body.value, Statistic("subscriberCount")).s) == Some(r.value.subscribers)
      && Search(body.value, Statistic("videoCount")).Str?
      && Atoi(Search(body.value, Statistic("videoCount")).s) == Some(r.value.videos))
  {
    var data :- Decode(body, "error deserializing internal response: ", false);
    var id :- StrAt(data, ItemField("id"), NilMsg("id"), false);
    var views :- CountAt(data, Statistic("viewCount"), NilMsg("views"), "error parsing views");
    var subscribers :- CountAt(data, Statistic("subscriberCount"), NilMsg("subscriberCount"),
                               "error parsing subscribers");
    var videos :- CountAt(data, Statistic("videoCount"), NilMsg("videoCount"), "error parsing videos");
    Ok(ChannelMetrics(id, views, subscribers, videos))
  }

  /** A video listing with decimal counts yields exactly those counts. */
  lemma {:induction false} YouTubeVideoCountsRoundTrip(id: string, views: int, comments: int, likes: int)
    requires MinInt64 <= views <= MaxInt64 && MinInt64 <= comments <= MaxInt64 && MinInt64 <= likes <= MaxInt64
    ensures HandleYouTubeVideoMetrics(Success(Obj(map["items" := Arr([Obj(map[
        "id" := Str(id),
        "statistics" := Obj(map["viewCount" := Str(Itoa(views)), "commentCount" := Str(Itoa(comments)),
                                "likeCount" := Str(Itoa(likes))])])])])))
      == Ok(VideoMetrics(id, views, comments, likes))
  {
    var stats := Obj(map["viewCount" := Str(Itoa(views)), "commentCount" := Str(Itoa(comments)),
                         "likeCount" := Str(Itoa(likes))]);
    var d := Obj(map["items" := Arr([Obj(map["id" := Str(id), "statistics" := stats])])]);
    assert Search(d, ItemField("id")) == Str(id);
    assert Search(d, Statistic("viewCount")) == Str(Itoa(views));
    assert Search(d, Statistic("commentCount")) == Str(Itoa(comments));
    assert Search(d, Statistic("likeCount")) == Str(Itoa(likes));
    CountAtReadsDecimal(d, Statistic("viewCount"), NilMsg("views"), "error parsing views", views);
    CountAtReadsDecimal(d, Statistic("commentCount"), NilMsg("commentCount"), "error parsing comments", comments);
    CountAtReadsDecimal(d, Statistic("likeCount"), NilMsg("likeCount"), "error parsing likes", likes);
  }

  // ---------------------------------------------------------------------------
  // Twitch stream
  // ---------------------------------------------------------------------------

  /** The metrics of a live stream. */
  datatype StreamMetrics = StreamMetrics(id: string, viewCount: int)

  /**
   * handleTwitchStreamMetrics: no stream in the answer (the streamer is
   * offline) is "ok" with nothing uploaded (None); otherwise the login and
   * viewer count of the first stream.
   */
  function HandleTwitchStreamMetrics(body: Result<Json, string>): (r: Extracted<Option<StreamMetrics>>)
    ensures r.Fail? ==> !r.noRetry
    ensures body.Success? && Search(body.value, [Key("data")]) == Arr([]) ==> r == Ok(None)
    ensures r == Ok(None) ==> body.Success? && LengthOf(Search(body.value, [Key("data")])) == Some(0)
    ensures r.Ok? && r.value.Some? ==> (body.Success?
      && Search(body.value, [Key("data"), At(0), Key("user_login")]) == Str(r.value.value.id)
      && Search(body.value, [Key("data"), At(0), Key("viewer_count")]) == Num(r.value.value.viewCount))
  {
    var data :- Decode(body, "error deserializing response: ", false);
    var count :- match LengthOf(Search(data, [Key("data")]))
      case None => Fail("error counting stream results: " + LengthTypeError, false)
      case Some(c) => Ok(c);
    if count < 1 then Ok(None)
    else
      var login :- StrAt(data, [Key("data"), At(0), Key("user_login")], NilMsg("user_login"), false);
      var viewers :- NumAt(data, [Key("data"), At(0), Key("viewer_count")], NilMsg("viewer_count"), false);
      Ok(Some(StreamMetrics(login, viewers)))
  }

  // ---------------------------------------------------------------------------
  // Twitch past broadcasts
  // ---------------------------------------------------------------------------

  /** One past broadcast as decoded: its channel login, view count and duration text. */
  datatype PastVideo = PastVideo(userLogin: string, viewCount: int, duration: string)

  /** Go's integer division of nanoseconds by time.Second, truncating toward zero. */
  function WholeSeconds(nanos: int): (s: int)
    ensures nanos >= 0 ==> s == nanos / NanosPerSecond
    ensures nanos < 0 ==> s == -((-nanos) / NanosPerSecond)
  {
    if nanos >= 0 then nanos / NanosPerSecond else -((-nanos) / NanosPerSecond)
  }

  /** The index of the first video whose duration does not parse, if any. */
  function FirstBadDuration(videos: seq<PastVideo>, parseDuration: string -> Result<int, string>): (k: Option<nat>)
    ensures k.Some? ==> (k.value < |videos| && parseDuration(videos[k.value].duration).Failure?
      && forall j :: 0 <= j < k.value ==> parseDuration(videos[j].duration).Success?)
    ensures k.None? ==> forall j :: 0 <= j < |videos| ==> parseDuration(videos[j].duration).Success?
  {
    if videos == [] then None
    else
      var k := FirstBadDuration(videos[..|videos| - 1], parseDuration);
      if k.Some? then k
      else if parseDuration(videos[|videos| - 1].duration).Failure? then Some(|videos| - 1)
      else None
  }

  /** The panic of the statistics over no broadcasts (its text is not modelled). */
  const EmptySamplePanic: string := "no past broadcasts"

  /** The inputs of the statistics: the first video's login, every view count and every duration in seconds. */
  datatype PastDecSample = PastDecSample(id: string, views: seq<int>, durations: seq<int>)

  /**
   * handleTwitchUserPastDecMetrics up to the statistics: every duration is
   * parsed (time.ParseDuration is `parseDuration`, in nanoseconds) before
   * anything else, the first bad one is the error, and an empty list panics
   * when the first element's login is read. The mean, median and standard
   * deviation are not computed here.
   */
  method PastDecSampleOf(body: Result<seq<PastVideo>, string>, parseDuration: string -> Result<int, string>)
    returns (r: Extracted<PastDecSample>)
    ensures r.Fail? ==> !r.noRetry
    ensures body.Failure? ==> r == Fail("error deserializing response: " + body.error, false)
    ensures body.Success? && FirstBadDuration(body.value, parseDuration).Some? ==>
      var v := body.value[FirstBadDuration(body.value, parseDuration).value];
      r == Fail("error parsing video duration " + v.duration + ": " + parseDuration(v.duration).error, false)
    ensures body.Success? && FirstBadDuration(body.value, parseDuration).None? ==>
      (body.value == [] <==> r.Panic?)
    ensures r.Ok? ==> (body.Success? && body.value != [] && r.value.id == body.value[0].userLogin
      && |r.value.views| == |r.value.durations| == |body.value|
      && forall j :: 0 <= j < |body.value| ==> (r.value.views[j] == body.value[j].viewCount
           && r.value.durations[j] == WholeSeconds(parseDuration(body.value[j].duration).value)))
  {
    if body.Failure? {
      return Fail("error deserializing response: " + body.error, false);
    }
    var videos := body.value;
    var views: seq<int> := [];
    var durs: seq<int> := [];
    var i := 0;
    while i < |videos|
      invariant 0 <= i <= |videos|
      invariant FirstBadDuration(videos[..i], parseDuration).None?
      invariant |views| == |durs| == i
      invariant forall j :: 0 <= j < i ==> (views[j] == videos[j].viewCount
        && parseDuration(videos[j].duration).Success?
        && durs[j] == WholeSeconds(parseDuration(videos[j].duration).value))
    {
      assert videos[..i + 1][..i] == videos[..i];
      views := views + [videos[i].viewCount];
      var d := parseDuration(videos[i].duration);
      if d.Failure? {
        FirstBadDurationPrefix(videos, i + 1, parseDuration);
        return Fail("error parsing video duration " + videos[i].duration + ": " + d.error, false);
      }
      durs := durs + [WholeSeconds(d.value)];
      i := i + 1;
    }
    assert videos[..i] == videos;
    if |videos| == 0 {
      return Panic(EmptySamplePanic);
    }
    r := Ok(PastDecSample(videos[0].userLogin, views, durs));
  }

  /** A bad duration found in a prefix whose earlier durations all parse is the first in the whole list. */
  lemma {:induction false} FirstBadDurationPrefix(videos: seq<PastVideo>, n: nat,
                                                  parseDuration: string -> Result<int, string>)
    requires 0 < n <= |videos|
    requires FirstBadDuration(videos[..n - 1], parseDuration).None?
    requires parseDuration(videos[n - 1].duration).Failure?
    ensures FirstBadDuration(videos, parseDuration) == Some(n - 1)
  {
    var k := FirstBadDuration(videos, parseDuration);
    assert videos[..n][..n - 1] == videos[..n - 1];
    assert FirstBadDuration(videos[..n], parseDuration) == Some(n - 1);
    FirstBadDurationExtends(videos, n, parseDuration);
  }

  /** The first bad duration of a prefix is the first bad duration of the whole list. */
  lemma {:induction false} FirstBadDurationExtends(videos: seq<PastVideo>, n: nat,
                                                   parseDuration: string -> Result<int, string>)
    requires n <= |videos| && FirstBadDuration(videos[..n], parseDuration).Some?
    ensures FirstBadDuration(videos, parseDuration) == FirstBadDuration(videos[..n], parseDuration)
    decreases |videos| - n
  {
    if n < |videos| {
      assert videos[..n + 1][..n] == videos[..n];
      FirstBadDurationExtends(videos, n + 1, parseDuration);
    } else {
      assert videos[..n] == videos;
    }
  }

  // ---------------------------------------------------------------------------
  // Dispatch
  // ---------------------------------------------------------------------------

  /** Where UploadMetrics sends a kind's response. */
  datatype MetricsRoute =
    | Upload(path: string)    // a per-kind handler that posts to the server path
    | MonitorPosts            // a monitor handler that creates post schedules
    | Unrecognized(error: string)

  /** UploadMetrics: the handler of every supported kind; anything else is unrecognized. */
  function UploadMetricsRoute(rk: string): (r: MetricsRoute)
    ensures r.Unrecognized? <==> !Supported(rk)
    ensures r.Unrecognized? ==> r.error == "unrecognized RequestKind: " + rk
    ensures r.MonitorPosts? <==> rk == RedditSubredditMonitor || rk == RedditUserMonitor
  {
    SupportedCases(rk);
    if rk == InternalRandom then Upload("/internal/metrics")
    else if rk == YouTubeVideo then Upload("/youtube/video")
    else if rk == YouTubeChannel then Upload("/youtube/channel")
    else if rk == KaggleNotebook then Upload("/kaggle/notebook")
    else if rk == KaggleDataset then Upload("/kaggle/dataset")
    else if rk == RedditPost then Upload("/reddit/post")
    else if rk == RedditComment then Upload("/reddit/comment")
    else if rk == RedditSubreddit then Upload("/reddit/subreddit")
    else if rk == RedditSubredditMonitor then MonitorPosts
    else if rk == RedditUser then Upload("/reddit/user")
    else if rk == RedditUserMonitor then MonitorPosts
    else if rk == TwitchClip then Upload("/twitch/clip")
    else if rk == TwitchVideo then Upload("/twitch/video")
    else if rk == TwitchStream then Upload("/twitch/stream")
    else if rk == TwitchUserPastDec then Upload("/twitch/user-past-dec")
    else Unrecognized("unrecognized RequestKind: " + rk)
  }
}
