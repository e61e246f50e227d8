/**
 * What the two WebSub notification endpoints share
 * (server/handlers_notifications.go and server/handlers_youtube_rss.go):
 * reading the video ID out of a YouTube Atom notification, confirming a
 * subscription (section 5.3 of W3C WebSub), and the schedule request that
 * starts following a new video or post.
 */
module WebSub {
  import opened Wrappers
  import opened Kinds
  import opened Http
  import opened Api
  import opened BasicHandlers

  // ---------------------------------------------------------------------------
  // The video ID: the capture of <yt:videoId>(.+)</yt:videoId>
  // ---------------------------------------------------------------------------

  const OpenTag: string := "<yt:videoId>"
  const CloseTag: string := "</yt:videoId>"

  /** The opening tag starts at `p`. */
  predicate OpensAt(s: string, p: nat)
  {
    p + |OpenTag| <= |s| && s[p..p + |OpenTag|] == OpenTag
  }

  /** The closing tag starts at `i`. */
  predicate ClosesAt(s: string, i: nat)
  {
    i + |CloseTag| <= |s| && s[i..i + |CloseTag|] == CloseTag
  }

  /**
   * The pattern matches at `p` with capture `v`: the opening tag, then one or
   * more characters other than a newline (`.` does not match "\n"), then the
   * closing tag.
   */
  predicate MatchSpan(s: string, p: nat, v: string)
  {
    OpensAt(s, p) && |v| >= 1 && '\n' !in v
    && p + |OpenTag| + |v| <= |s| && s[p + |OpenTag|..p + |OpenTag| + |v|] == v
    && ClosesAt(s, p + |OpenTag| + |v|)
  }

  /** How many characters from `q` on come before the next newline or the end. */
  function LineRun(s: string, q: nat): (n: nat)
    requires q <= |s|
    ensures q + n <= |s|
    ensures forall i :: q <= i < q + n ==> s[i] != '\n'
    ensures q + n < |s| ==> s[q + n] == '\n'
    decreases |s| - q
  {
    if q == |s| || s[q] == '\n' then 0 else 1 + LineRun(s, q + 1)
  }

  /** The largest capture length in 1..L after which the closing tag follows. */
  function LongestClose(s: string, q: nat, L: nat): (l: Option<nat>)
    ensures l.Some? ==> 1 <= l.value <= L && ClosesAt(s, q + l.value)
    ensures l.Some? ==> forall i :: q + l.value < i <= q + L ==> !ClosesAt(s, i)
    ensures l.None? ==> forall i :: q + 1 <= i <= q + L ==> !ClosesAt(s, i)
  {
    if L == 0 then None
    else if ClosesAt(s, q + L) then Some(L)
    else LongestClose(s, q, L - 1)
  }

  /** The greedy capture of a match starting at `p`, if the pattern matches there. */
  function MatchAt(s: string, p: nat): Option<string>
  {
    if !OpensAt(s, p) then None
    else
      var q := p + |OpenTag|;
      match LongestClose(s, q, LineRun(s, q))
      case None => None
      case Some(l) => Some(s[q..q + l])
  }

  /** What MatchAt captures is a match of the pattern at `p`. */
  lemma {:induction false} MatchAtSound(s: string, p: nat)
    requires MatchAt(s, p).Some?
    ensures MatchSpan(s, p, MatchAt(s, p).value)
  {
    var q := p + |OpenTag|;
    var l := LongestClose(s, q, LineRun(s, q)).value;
    var v := s[q..q + l];
    assert forall i :: 0 <= i < |v| ==> v[i] == s[q + i];
  }

  /** Any match at `p` is found by MatchAt, with a capture at least as long. */
  lemma {:induction false} MatchAtLongest(s: string, p: nat, v: string)
    requires MatchSpan(s, p, v)
    ensures MatchAt(s, p).Some? && |v| <= |MatchAt(s, p).value|
  {
    var q := p + |OpenTag|;
    var L := LineRun(s, q);
    assert ClosesAt(s, q + |v|);
  }

  /** A closing tag cannot straddle a newline or run past the end. */
  lemma {:induction false} NoCloseOverNewline(s: string, i: nat, j: nat)
    requires i <= j < i + |CloseTag|
    requires j >= |s| || s[j] == '\n'
    ensures !ClosesAt(s, i)
  {
  }

  /**
   * MatchAt is the greedy reading of the pattern at `p`: its capture matches,
   * and no other capture at `p` is longer; when it finds none, none exists.
   */
  lemma {:induction false} MatchAtGreedy(s: string, p: nat)
    ensures MatchAt(s, p).Some? ==> MatchSpan(s, p, MatchAt(s, p).value)
    ensures MatchAt(s, p).Some? ==> forall v :: MatchSpan(s, p, v) ==> |v| <= |MatchAt(s, p).value|
    ensures MatchAt(s, p).None? ==> forall v :: !MatchSpan(s, p, v)
  {
    if MatchAt(s, p).Some? {
      MatchAtSound(s, p);
    }
    forall v | MatchSpan(s, p, v)
      ensures MatchAt(s, p).Some? && |v| <= |MatchAt(s, p).value|
    {
      MatchAtLongest(s, p, v);
    }
  }

  /** FindStringSubmatch: the leftmost position where the pattern matches, and its capture. */
  function FindFrom(s: string, p: nat): (m: Option<(nat, string)>)
    decreases |s| - p
  {
    if p > |s| then None
    else match MatchAt(s, p)
      case Some(v) => Some((p, v))
      case None => FindFrom(s, p + 1)
  }

  /** The video ID of a notification body, if the pattern matches anywhere. */
  function VideoID(body: string): Option<string>
  {
    match FindFrom(body, 0)
    case None => None
    case Some((_, v)) => Some(v)
  }

  /** FindFrom finds the leftmost match at or after `p`, reading it greedily. */
  lemma {:induction false} FindFromLeftmost(s: string, p: nat)
    ensures FindFrom(s, p).Some? ==> (p <= FindFrom(s, p).value.0
      && MatchAt(s, FindFrom(s, p).value.0) == Some(FindFrom(s, p).value.1))
    ensures FindFrom(s, p).Some? ==> forall k, v :: p <= k < FindFrom(s, p).value.0 ==> !MatchSpan(s, k, v)
    ensures FindFrom(s, p).None? ==> forall k, v :: p <= k ==> !MatchSpan(s, k, v)
    decreases |s| - p
  {
    if p > |s| {
      forall k, v | p <= k
        ensures !MatchSpan(s, k, v)
      {
        assert !OpensAt(s, k);
      }
    } else if MatchAt(s, p).Some? {
      assert FindFrom(s, p) == Some((p, MatchAt(s, p).value));
    } else {
      MatchAtGreedy(s, p);
      FindFromLeftmost(s, p + 1);
      var m := FindFrom(s, p + 1);
      assert FindFrom(s, p) == m;
      if m.Some? {
        forall k, v | p <= k < m.value.0
          ensures !MatchSpan(s, k, v)
        {
          if k == p {
            assert MatchAt(s, p).None?;
          }
        }
      } else {
        forall k, v | p <= k
          ensures !MatchSpan(s, k, v)
        {
          if k == p {
            assert MatchAt(s, p).None?;
          }
        }
      }
    }
  }

  /** The leftmost match and its greedy capture, when the pattern matches somewhere. */
  ghost predicate LeftmostGreedy(body: string, p: nat, id: string)
  {
    MatchSpan(body, p, id)
    && (forall k: nat, v :: k < p ==> !MatchSpan(body, k, v))
    && (forall v :: MatchSpan(body, p, v) ==> |v| <= |id|)
  }

  /**
   * The video ID is the capture of the leftmost match, read greedily, and
   * there is none exactly when the pattern matches nowhere in the body.
   */
  lemma {:induction false} VideoIDSpec(body: string)
    ensures VideoID(body).Some? ==> exists p: nat :: LeftmostGreedy(body, p, VideoID(body).value)
    ensures VideoID(body).None? <==> forall p: nat, v :: !MatchSpan(body, p, v)
  {
    var m := FindFrom(body, 0);
    FindFromLeftmost(body, 0);
    if m.Some? {
      var p := m.value.0;
      var id := m.value.1;
      assert VideoID(body) == Some(id);
      MatchAtGreedy(body, p);
      assert MatchSpan(body, p, id);
      assert LeftmostGreedy(body, p, id);
    } else {
      assert VideoID(body).None?;
    }
  }

  /** A feed line: text with no tag, then the tagged ID, then a newline or the end. */
  predicate FeedLine(pre: string, id: string, post: string)
  {
    '<' !in pre && |id| >= 1 && '\n' !in id && (post == [] || post[0] == '\n')
  }

  /** The tagged ID of a feed line matches where its opening tag starts. */
  lemma {:induction false} FeedLineMatches(pre: string, id: string, post: string)
    requires FeedLine(pre, id, post)
    ensures MatchSpan(pre + OpenTag + id + CloseTag + post, |pre|, id)
  {
    var s := pre + OpenTag + id + CloseTag + post;
    var p, q := |pre|, |pre| + |OpenTag|;
    assert s[p..p + |OpenTag|] == OpenTag;
    assert s[q..q + |id|] == id;
    assert s[q + |id|..q + |id| + |CloseTag|] == CloseTag;
  }

  /** Nothing matches before the opening tag of a feed line: the text before it has no '<'. */
  lemma {:induction false} FeedLineNoEarlier(pre: string, id: string, post: string, k: nat, v: string)
    requires FeedLine(pre, id, post) && k < |pre|
    ensures !MatchSpan(pre + OpenTag + id + CloseTag + post, k, v)
  {
    var s := pre + OpenTag + id + CloseTag + post;
    assert s[k] == pre[k];
  }

  /** No capture at a feed line's tag is longer than its ID: the line ends after the closing tag. */
  lemma {:induction false} FeedLineNoLonger(pre: string, id: string, post: string, v: string)
    requires FeedLine(pre, id, post)
    requires MatchSpan(pre + OpenTag + id + CloseTag + post, |pre|, v)
    ensures |v| <= |id|
  {
    var s := pre + OpenTag + id + CloseTag + post;
    var q := |pre| + |OpenTag|;
    var j := q + |id| + |CloseTag|;
    assert j >= |s| || s[j] == '\n';
    if |id| < |v| <= |id| + |CloseTag| {
      NoCloseOverNewline(s, q + |v|, j);
    }
  }

  /** Two captures of the same length at the same position are the same text. */
  lemma {:induction false} SameSpanSameCapture(s: string, p: nat, v: string, w: string)
    requires MatchSpan(s, p, v) && MatchSpan(s, p, w) && |v| == |w|
    ensures v == w
  {
  }

  /** Conversely, a leftmost greedy match is the video ID: the reading is unique. */
  lemma {:induction false} VideoIDOfLeftmostGreedy(s: string, p: nat, id: string)
    requires LeftmostGreedy(s, p, id)
    ensures VideoID(s) == Some(id)
  {
    FindFromLeftmost(s, 0);
    var m := FindFrom(s, 0);
    assert m.Some?;
    var at, found := m.value.0, m.value.1;
    assert VideoID(s) == Some(found);
    MatchAtGreedy(s, at);
    assert MatchSpan(s, at, found);
    assert at == p;
    assert |found| == |id|;
    SameSpanSameCapture(s, p, found, id);
  }

  /**
   * A notification whose video ID sits on its own line, after text with no
   * tag in it, yields exactly that ID.
   */
  lemma {:induction false} VideoIDOfFeedLine(pre: string, id: string, post: string)
    requires FeedLine(pre, id, post)
    ensures VideoID(pre + OpenTag + id + CloseTag + post) == Some(id)
  {
    var s := pre + OpenTag + id + CloseTag + post;
    FeedLineMatches(pre, id, post);
    forall k: nat, v | k < |pre|
      ensures !MatchSpan(s, k, v)
    {
      FeedLineNoEarlier(pre, id, post, k, v);
    }
    forall v | MatchSpan(s, |pre|, v)
      ensures |v| <= |id|
    {
      FeedLineNoLonger(pre, id, post, v);
    }
    VideoIDOfLeftmostGreedy(s, |pre|, id);
  }

  /**
   * The capture is greedy: two tagged IDs on one line are read as a single
   * ID running from the first opening tag to the last closing tag.
   */
  lemma {:induction false} TwoIDsOnOneLine(pre: string, a: string, b: string, post: string)
    requires FeedLine(pre, a, post) && FeedLine(pre, b, post)
    ensures VideoID(pre + OpenTag + a + CloseTag + OpenTag + b + CloseTag + post)
         == Some(a + CloseTag + OpenTag + b)
  {
    var joined := a + CloseTag + OpenTag + b;
    assert '\n' !in CloseTag + OpenTag;
    assert '\n' !in joined;
    VideoIDOfFeedLine(pre, joined, post);
    Regroup(pre + OpenTag, a, CloseTag, OpenTag, b, CloseTag, post);
  }

  /** Concatenation regrouped: the joined middle part spelled out piece by piece. */
  lemma {:induction false} Regroup(x: string, a: string, c: string, o: string, b: string, c2: string, y: string)
    ensures x + (a + c + o + b) + c2 + y == x + a + c + o + b + c2 + y
  {
    assert x + (a + c + o + b) == x + a + c + o + b;
  }

  // ---------------------------------------------------------------------------
  // Subscription confirmation
  // ---------------------------------------------------------------------------

  /** YouTubeChannelSubscriptionExists: found, no such row, or another database error. */
  datatype SubLookup = Found | NoRows | LookupError(msg: string)

  /**
   * handleYouTubeVideoWebSubSetup: the hub's challenge is echoed only for a
   * subscribed channel. `parseTopic` is url.Parse of hub.topic, giving its
   * query values; `lookup` asks the database for the channel. The query is
   * the channel looked up.
   */
  function WebSubSetup(query: Values, parseTopic: string -> Option<Values>, lookup: string -> SubLookup)
    : (s: Served<string, ()>)
    ensures parseTopic(Get(query, "hub.topic")).None? ==> s == Served(None, Response(StatusNotFound, Raw("")))
    ensures s.query.Some? <==> parseTopic(Get(query, "hub.topic")).Some?
    ensures s.query.Some? ==> s.query.value == Get(parseTopic(Get(query, "hub.topic")).value, "channel_id")
    ensures s.query.Some? && lookup(s.query.value) == NoRows ==> s.response == Response(StatusNotFound, Raw(""))
    ensures s.query.Some? && lookup(s.query.value).LookupError? ==>
      s.response == WriteInternalError(lookup(s.query.value).msg)
    ensures s.response.status == StatusOK <==> s.query.Some? && lookup(s.query.value) == Found
    ensures s.response.status == StatusOK ==> s.response.body == Raw(Get(query, "hub.challenge"))
  {
    match parseTopic(Get(query, "hub.topic"))
    case None => Served(None, Response(StatusNotFound, Raw("")))
    case Some(topic) =>
      var cid := Get(topic, "channel_id");
      Served(Some(cid), match lookup(cid)
        case NoRows => Response(StatusNotFound, Raw(""))
        case LookupError(e) => WriteInternalError(e)
        case Found => Response(StatusOK, Raw(Get(query, "hub.challenge"))))
  }

  // ---------------------------------------------------------------------------
  // Following a new video or post
  // ---------------------------------------------------------------------------

  const Day: int := 24 * 3600
  /** A new video is followed for three weeks, a new post for one (in seconds). */
  const VideoFollow: int := 21 * Day
  const PostFollow: int := 7 * Day

  /**
   * The schedule request for a new video or post: the default spec for the
   * kind and id, ending `follow` seconds after `now` (Unix seconds).
   */
  function FollowPayload(rk: string, id: string, now: int, follow: int): (p: GenericScheduleRequestPayload)
    ensures p.requestKind == rk && p.id == id
    ensures p.schedule.calendars == DefaultScheduleSpec(rk, id).calendars
    ensures p.schedule.jitter == DefaultScheduleSpec(rk, id).jitter
    ensures p.schedule.startAt == DefaultScheduleSpec(rk, id).startAt
    ensures p.schedule.endAt - now == follow
  {
    GenericScheduleRequestPayload(rk, id, DefaultScheduleSpec(rk, id).(endAt := now + follow))
  }

  /** The POST to the service's own /schedule endpoint, authorised with its token. */
  function ScheduleRequest(env: string -> string): (r: HttpRequest)
    ensures r.verb == "POST" && r.url == Url("http", "localhost:" + env("SERVER_PORT"), "/schedule", map[])
    ensures r.headers == map["Authorization" := ["Bearer " + env("AUTH_TOKEN")]]
  {
    var r := NewRequest("POST", "http", "localhost:" + env("SERVER_PORT"), "/schedule");
    var auth := "Bearer " + env("AUTH_TOKEN");
    assert [] + [auth] == [auth];
    AddHeader(r, "Authorization", auth)
  }

  /** The answer once the schedule request is made: 200 and 409 (already scheduled) are success. */
  function ScheduleReply(reply: Result<Reply, string>): (r: Response<()>)
    ensures r.status == StatusOK <==> reply.Success? && reply.value.status in {StatusOK, StatusConflict}
    ensures r.status == StatusOK ==> r == WriteOK()
    ensures r.status != StatusOK ==> r.status == StatusInternalServerError
  {
    match reply
    case Failure(e) => WriteInternalError(e)
    case Success(rep) =>
      if rep.status != StatusOK && rep.status != StatusConflict then WriteInternalError("bad response from server")
      else WriteOK()
  }
}
