/**
 * makeExternalRequest (server/external_requests.go): the upstream request a
 * schedule polls, per request kind, its serialisation, and the schedule ID
 * derived from it. Environment variables are read through `env`; the
 * serialiser, MD5 and base64 are uninterpreted parameters.
 */
module ExternalRequests {
  import opened Wrappers
  import opened Text
  import opened Kinds
  import opened Http

  const ErrUnsupportedRequestKind := "unsupported request kind"
  const RedditUserAgent := "Debian:github.com/brojonat/kaggo/worker:v0.0.1 (by /u/GraearG)"
  const YouTubeParts := "snippet,contentDetails,statistics"
  const UserIDLookupError := "error getting twitch user_id from metadata: "

  /** The kinds makeExternalRequest builds a request for. */
  const PolledKinds: seq<string> := [
    InternalRandom, YouTubeVideo, YouTubeChannel, KaggleNotebook, KaggleDataset,
    RedditPost, RedditComment, RedditSubreddit, TwitchClip, TwitchVideo, TwitchStream, TwitchUserPastDec]

  /** Twelve of the fifteen supported kinds are polled; reddit.user and the two monitors are not. */
  lemma {:induction false} PolledKindsSupported()
    ensures forall k :: k in PolledKinds ==> Supported(k)
    ensures !(RedditUser in PolledKinds) && !(RedditUserMonitor in PolledKinds)
    ensures !(RedditSubredditMonitor in PolledKinds)
    ensures forall k :: (Supported(k) && k != RedditUser && k != RedditUserMonitor && k != RedditSubredditMonitor
      ==> k in PolledKinds)
  {
  }

  /** Membership spelled out kind by kind. */
  lemma {:induction false} PolledCases(rk: string)
    ensures rk in PolledKinds <==> (rk == InternalRandom || rk == YouTubeVideo || rk == YouTubeChannel
      || rk == KaggleNotebook || rk == KaggleDataset || rk == RedditPost || rk == RedditComment
      || rk == RedditSubreddit || rk == TwitchClip || rk == TwitchVideo || rk == TwitchStream
      || rk == TwitchUserPastDec)
  {
  }

  function YouTubeRequest(path: string, id: string, env: string -> string): HttpRequest
  {
    var r := NewRequest("GET", "https", "youtube.googleapis.com", path);
    var r := SetQuery(r, "part", YouTubeParts);
    var r := SetQuery(r, "key", env("YOUTUBE_API_KEY"));
    SetQuery(r, "id", id)
  }

  function KaggleRequest(path: string, id: string, env: string -> string, base64: string -> string): HttpRequest
  {
    var r := SetQuery(NewRequest("GET", "https", "www.kaggle.com", path), "search", id);
    SetBasicAuth(r, env("KAGGLE_USERNAME"), env("KAGGLE_API_KEY"), base64)
  }

  /** A Reddit info.json lookup of one thing by its fullname. */
  function RedditInfoRequest(fullname: string): HttpRequest
  {
    var r := SetQuery(NewRequest("GET", "https", "oauth.reddit.com", "/api/info.json"), "id", fullname);
    AddHeader(r, "User-Agent", RedditUserAgent)
  }

  function TwitchRequest(path: string, params: seq<(string, string)>, env: string -> string): HttpRequest
    decreases |params|
  {
    if params == [] then AddHeader(NewRequest("GET", "https", "api.twitch.tv", path), "Client-Id", env("TWITCH_CLIENT_ID"))
    else
      var last := params[|params| - 1];
      AddQuery(TwitchRequest(path, params[..|params| - 1], env), last.0, last.1)
  }

  /** One row of the metadata lookup: its request kind and its Data.ID. */
  datatype MetadataRow = MetadataRow(requestKind: string, dataID: string)

  /** The index of the first user-past-dec row, if any. */
  function FirstUserPastDec(rows: seq<MetadataRow>): (i: Option<nat>)
    ensures i.Some? ==> (i.value < |rows| && rows[i.value].requestKind == TwitchUserPastDec
      && forall k :: 0 <= k < i.value ==> rows[k].requestKind != TwitchUserPastDec)
    ensures i.None? ==> forall k :: 0 <= k < |rows| ==> rows[k].requestKind != TwitchUserPastDec
  {
    if rows == [] then None
    else if rows[0].requestKind == TwitchUserPastDec then Some(0)
    else match FirstUserPastDec(rows[1..])
      case None => None
      case Some(j) => Some(j + 1)
  }

  /** Row `k` is the first twitch.user-past-dec row. */
  predicate FirstUserRow(rows: seq<MetadataRow>, k: int)
  {
    0 <= k < |rows| && rows[k].requestKind == TwitchUserPastDec
    && forall j :: 0 <= j < k ==> rows[j].requestKind != TwitchUserPastDec
  }

  /**
   * The user_id lookup of makeExternalRequestTwitchUserPastDec: the Data.ID of
   * the first user-past-dec row. A failed query, no rows, no such row or an
   * empty Data.ID is an error (its text after the common prefix).
   */
  function LookupUserID(mds: Result<seq<MetadataRow>, string>): (r: Result<string, string>)
    ensures mds.Failure? ==> r == Failure(mds.error)
    ensures mds == Success([]) ==> r == Failure("no result rows")
    ensures r.Success? ==> (mds.Success? && r.value != "" &&
      exists k :: FirstUserRow(mds.value, k) && mds.value[k].dataID == r.value)
    ensures forall k :: mds.Success? && FirstUserRow(mds.value, k) && mds.value[k].dataID != "" ==>
      r == Success(mds.value[k].dataID)
    ensures mds.Success? && mds.value != [] && r.Failure? ==> r == Failure("no user_id found in metadata")
  {
    if mds.Failure? then Failure(mds.error)
    else if mds.value == [] then Failure("no result rows")
    else
      var i := FirstUserPastDec(mds.value);
      if i.Some? && mds.value[i.value].dataID != "" then Success(mds.value[i.value].dataID)
      else Failure("no user_id found in metadata")
  }

  /** The lookup loop: scan the rows in order and stop at the first user-past-dec row. */
  method TwitchUserID(mds: Result<seq<MetadataRow>, string>) returns (r: Result<string, string>)
    ensures r == LookupUserID(mds)
  {
    if mds.Failure? {
      return Failure(mds.error);
    }
    var rows := mds.value;
    if |rows| == 0 {
      return Failure("no result rows");
    }
    var userID := "";
    var k := 0;
    while k < |rows|
      invariant 0 <= k <= |rows|
      invariant forall j :: 0 <= j < k ==> rows[j].requestKind != TwitchUserPastDec
      invariant userID == ""
    {
      if rows[k].requestKind == TwitchUserPastDec {
        userID := rows[k].dataID;
        break;
      }
      k := k + 1;
    }
    if userID == "" {
      return Failure("no user_id found in metadata");
    }
    r := Success(userID);
  }

  /**
   * The switch of makeExternalRequest. `userID` is the outcome of the user_id
   * lookup; only a non-metadata twitch.user-past-dec request consults it.
   */
  function RequestFor(rk: string, id: string, meta: bool, env: string -> string, base64: string -> string,
                      userID: Result<string, string>): (r: Result<HttpRequest, string>)
    ensures r == Failure(ErrUnsupportedRequestKind) <==> rk !in PolledKinds
    ensures r.Failure? && rk in PolledKinds ==>
      rk == TwitchUserPastDec && !meta && userID.Failure? && r.error == UserIDLookupError + userID.error
  {
    PolledCases(rk);
    if rk == InternalRandom then
      var r := NewRequest("GET", "https", "api.kaggo.brojonat.com", "/internal/generate");
      Success(AddHeader(r, "Authorization", "Bearer " + env("AUTH_TOKEN")))
    else if rk == YouTubeVideo then Success(YouTubeRequest("/youtube/v3/videos", id, env))
    else if rk == YouTubeChannel then Success(YouTubeRequest("/youtube/v3/channels", id, env))
    else if rk == KaggleNotebook then Success(KaggleRequest("/api/v1/kernels/list", id, env, base64))
    else if rk == KaggleDataset then Success(KaggleRequest("/api/v1/datasets/list", id, env, base64))
    else if rk == RedditPost then Success(RedditInfoRequest("t3_" + id))
    else if rk == RedditComment then Success(RedditInfoRequest("t1_" + id))
    else if rk == RedditSubreddit then
      Success(AddHeader(NewRequest("GET", "https", "oauth.reddit.com", "/r/" + id + "/about.json"), "User-Agent", RedditUserAgent))
    else if rk == TwitchClip then Success(TwitchRequest("/helix/clips", [("id", id)], env))
    else if rk == TwitchVideo then Success(TwitchRequest("/helix/videos", [("id", id)], env))
    else if rk == TwitchStream then
      if meta then Success(TwitchRequest("/helix/users", [("login", id), ("sort", "time")], env))
      else Success(TwitchRequest("/helix/streams", [("user_login", id), ("sort", "time")], env))
    else if rk == TwitchUserPastDec then
      if meta then Success(TwitchRequest("/helix/users", [("login", id)], env))
      else if userID.Failure? then
        assert UserIDLookupError[0] == 'e' && ErrUnsupportedRequestKind[0] == 'u';
        assert (UserIDLookupError + userID.error)[0] == 'e';
        Failure(UserIDLookupError + userID.error)
      else Success(TwitchRequest("/helix/videos", [("user_id", userID.value)], env))
    else Failure(ErrUnsupportedRequestKind)
  }

  /** The meta flag changes the request only for twitch.stream and twitch.user-past-dec. */
  lemma {:induction false} MetaMattersOnlyForTwitchStreamAndPastDec(rk: string, id: string, env: string -> string,
                                                base64: string -> string, userID: Result<string, string>)
    requires rk != TwitchStream && rk != TwitchUserPastDec
    ensures RequestFor(rk, id, true, env, base64, userID) == RequestFor(rk, id, false, env, base64, userID)
  {
  }

  /** Reddit posts are looked up as t3_<id> and comments as t1_<id>. */
  lemma {:induction false} RedditFullnames(id: string, meta: bool, env: string -> string, base64: string -> string, userID: Result<string, string>)
    ensures var r := RequestFor(RedditPost, id, meta, env, base64, userID);
      r.Success? && r.value.url.query["id"] == ["t3_" + id]
    ensures var r := RequestFor(RedditComment, id, meta, env, base64, userID);
      r.Success? && r.value.url.query["id"] == ["t1_" + id]
  {
  }

  /** The schedule ID: "<kind> <id> metadata", or "<kind> <id> <hex digest>". */
  function RequestID(rk: string, id: string, meta: bool, digest: seq<byte>): (rid: string)
    ensures meta ==> rid == rk + " " + id + " metadata"
    ensures !meta ==> rid == rk + " " + id + " " + Hex(digest)
  {
    rk + " " + id + " " + (if meta then "metadata" else Hex(digest))
  }

  /** Splitting a schedule ID on spaces gives the kind, the id and the suffix back. */
  lemma {:induction false} RequestIDRoundTrip(rk: string, id: string, meta: bool, digest: seq<byte>)
    requires ' ' !in rk && ' ' !in id
    ensures var parts := Split(RequestID(rk, id, meta, digest), ' ');
      |parts| == 3 && parts[0] == rk && parts[1] == id
      && parts[2] == (if meta then "metadata" else Hex(digest))
  {
    var suffix := if meta then "metadata" else Hex(digest);
    SuffixSpaceFree(meta, digest);
    SplitThree(rk, id, suffix, ' ');
    assert RequestID(rk, id, meta, digest) == rk + [' '] + id + [' '] + suffix;
  }

  /** The last part of a schedule ID has no space: "metadata" or hexadecimal digits. */
  lemma {:induction false} SuffixSpaceFree(meta: bool, digest: seq<byte>)
    ensures ' ' !in (if meta then "metadata" else Hex(digest))
  {
    if meta {
      var m := "metadata";
      assert forall i :: 0 <= i < |m| ==> m[i] != ' ';
    } else {
      var h := Hex(digest);
      assert ' ' !in HexDigits;
      assert forall i :: 0 <= i < |h| ==> h[i] in HexDigits;
    }
  }

  /** What makeExternalRequest returns: the request, its serialisation and the schedule ID. */
  datatype Made = Made(req: HttpRequest, serial: seq<byte>, rid: string)

  /**
   * makeExternalRequest. `mds` is what the metadata query for [id] returns,
   * `serialize` writes a request in wire format, `md5` hashes bytes.
   */
  method MakeExternalRequest(rk: string, id: string, meta: bool, env: string -> string, base64: string -> string,
                             mds: Result<seq<MetadataRow>, string>,
                             serialize: HttpRequest -> seq<byte>, md5: seq<byte> -> seq<byte>)
    returns (r: Result<Made, string>)
    ensures r == Failure(ErrUnsupportedRequestKind) <==> rk !in PolledKinds
    ensures r.Success? ==>
      r.value.serial == serialize(r.value.req)
      && r.value.rid == RequestID(rk, id, meta, md5(r.value.serial))
    ensures r == Finish(RequestFor(rk, id, meta, env, base64,
      if rk == TwitchUserPastDec && !meta then LookupUserID(mds) else Failure("")), rk, id, meta, serialize, md5)
    ensures rk != TwitchUserPastDec || meta ==> (r.Success? <==> rk in PolledKinds)
  {
    var userID: Result<string, string> := Failure("");
    if rk == TwitchUserPastDec && !meta {
      userID := TwitchUserID(mds);
    }
    r := Finish(RequestFor(rk, id, meta, env, base64, userID), rk, id, meta, serialize, md5);
  }

  /** Serialise and hash a built request. */
  function Finish(req: Result<HttpRequest, string>, rk: string, id: string, meta: bool,
                  serialize: HttpRequest -> seq<byte>, md5: seq<byte> -> seq<byte>): (r: Result<Made, string>)
    ensures req.Failure? ==> r == Failure(req.error)
    ensures req.Success? ==> r == Success(Made(req.value, serialize(req.value), RequestID(rk, id, meta, md5(serialize(req.value)))))
  {
    var q :- req;
    var serial := serialize(q);
    Success(Made(q, serial, RequestID(rk, id, meta, md5(serial))))
  }
}
