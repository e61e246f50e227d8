/**
 * The server's time-series endpoints (server/handlers_timeseries.go): the
 * bucketed endpoint's request-kind dispatch, the bucket_size default and
 * aliases, the `id`/`ids` fallback, and the raw endpoint's parameter checks,
 * optional look-back duration and request-kind dispatch. The database
 * queries are the input `run`; the model records which query a request
 * issues, if any, and the response written. Times are Unix nanoseconds.
 */
module TimeSeries {
  import opened Wrappers
  import opened Text
  import opened Kinds
  import opened Http
  import opened ScheduleSpecs
  import opened BasicHandlers

  /** The bucket widths the bucketed queries come in. */
  datatype Bucket = Min15 | Hr1 | Hr8 | Day1

  /** The metric tables that have bucketed queries. */
  datatype Series =
    | YouTubeVideoSeries | YouTubeChannelSeries
    | RedditPostSeries | RedditCommentSeries | RedditSubredditSeries | RedditUserSeries
    | TwitchClipSeries | TwitchVideoSeries | TwitchStreamSeries | TwitchUserPastDecSeries

  /** One bucketed query: the table, the bucket width, the ids and the time window. */
  datatype BucketQuery = BucketQuery(series: Series, bucket: Bucket, ids: seq<string>, start: int, end: int)

  /** The zero time.Time, in Unix nanoseconds. */
  const ZeroTime: int := ZeroTimeUnix * NanosPerSecond

  /** The bucket_size parameter: empty means "60m"; "60m" and "1h" are the same hour bucket. */
  function BucketOf(bs: string): (b: Option<Bucket>)
    ensures b.Some? <==> bs in {"", "15m", "60m", "1h", "8h", "1d"}
    ensures b == Some(Hr1) <==> bs in {"", "60m", "1h"}
    ensures b == Some(Min15) <==> bs == "15m"
    ensures b == Some(Hr8) <==> bs == "8h"
    ensures b == Some(Day1) <==> bs == "1d"
  {
    var bs := if bs == "" then "60m" else bs;
    if bs == "15m" then Some(Min15)
    else if bs == "60m" || bs == "1h" then Some(Hr1)
    else if bs == "8h" then Some(Hr8)
    else if bs == "1d" then Some(Day1)
    else None
  }

  /** The bucket_size after its default is applied, as quoted in the error. */
  function BucketSizeParam(query: Values): string
  {
    var bs := Get(query, "bucket_size");
    if bs == "" then "60m" else bs
  }

  /** The repeated `id` parameters, or else the comma-separated pieces of `ids`. */
  function IdsOf(query: Values): (ids: seq<string>)
    ensures |ids| >= 1
    ensures "id" in query && query["id"] != [] ==> ids == query["id"]
    ensures !("id" in query && query["id"] != []) ==> ids == Split(Get(query, "ids"), ',')
  {
    if "id" in query && query["id"] != [] then query["id"] else Split(Get(query, "ids"), ',')
  }

  /** An `ids` list of comma-free ids is read back exactly. */
  lemma {:induction false} IdsOfCommaList(query: Values, ids: seq<string>)
    requires |ids| >= 1 && forall k :: 0 <= k < |ids| ==> ',' !in ids[k]
    requires !("id" in query && query["id"] != []) && Get(query, "ids") == Join(ids, ',')
    ensures IdsOf(query) == ids
  {
    assert IdsOf(query) == Split(Join(ids, ','), ',');
    SplitJoin(ids, ',');
  }

  /**
   * A bucketed handler of one table. The "must supply id(s)" check is kept
   * as written; IdsOf shows it never fires. The rows are a slice, and the
   * empty sequence stands for the nil slice a query with no rows returns.
   */
  function Bucketed<R>(series: Series, query: Values, now: int, run: BucketQuery -> Result<seq<R>, string>)
    : (s: Served<BucketQuery, seq<R>>)
    ensures BucketOf(Get(query, "bucket_size")).None? ==>
      s == Served(None, WriteBadRequestError("unsupported bucket_size: " + Get(query, "bucket_size")))
    ensures BucketOf(Get(query, "bucket_size")).Some? ==>
      s.query == Some(BucketQuery(series, BucketOf(Get(query, "bucket_size")).value, IdsOf(query), ZeroTime, now))
    ensures s.query.Some? ==> (match run(s.query.value)
      case Failure(e) => s.response == WriteInternalError(e)
      case Success(rows) => s.response == Response(StatusOK, Value(rows)))
  {
    var bs := BucketSizeParam(query);
    var ids := IdsOf(query);
    if |ids| == 0 then Served(None, WriteBadRequestError("must supply id(s)"))
    else match BucketOf(bs)
      case None => Served(None, WriteBadRequestError("unsupported bucket_size: " + bs))
      case Some(b) =>
        var q := BucketQuery(series, b, ids, ZeroTime, now);
        Served(Some(q), match run(q)
          case Failure(e) => WriteInternalError(e)
          case Success(rows) => Response(StatusOK, Value(rows)))
  }

  /**
   * No rows is still a 200: the handler keeps the rows in an interface value,
   * and a nil slice stored there is not nil, so the empty-result 404 is never
   * written and the empty series goes out as JSON null.
   */
  lemma {:induction false} BucketedEmptyIsOK<R>(series: Series, query: Values, now: int,
                                                run: BucketQuery -> Result<seq<R>, string>)
    requires BucketOf(Get(query, "bucket_size")).Some?
    requires run(BucketQuery(series, BucketOf(Get(query, "bucket_size")).value, IdsOf(query), ZeroTime, now)) == Success([])
    ensures Bucketed(series, query, now, run).response == Response(StatusOK, Value([]))
    ensures Bucketed(series, query, now, run).response != WriteEmptyResultError()
  {
  }

  /** The hour aliases: "", "60m" and "1h" give the same query and the same answer. */
  lemma {:induction false} HourAliases<R>(series: Series, query: Values, now: int,
                                          run: BucketQuery -> Result<seq<R>, string>)
    ensures Bucketed(series, query[ "bucket_size" := [""]], now, run)
         == Bucketed(series, query[ "bucket_size" := ["60m"]], now, run)
         == Bucketed(series, query[ "bucket_size" := ["1h"]], now, run)
  {
    var q0, q1, q2 := query["bucket_size" := [""]], query["bucket_size" := ["60m"]], query["bucket_size" := ["1h"]];
    assert Get(q0, "bucket_size") == "" && Get(q1, "bucket_size") == "60m" && Get(q2, "bucket_size") == "1h";
    assert IdsOf(q0) == IdsOf(q1) == IdsOf(q2) by {
      assert "id" in q0 <==> "id" in query;
      assert Get(q0, "ids") == Get(query, "ids") == Get(q1, "ids") == Get(q2, "ids");
    }
    BucketedSameQuery(series, q0, q1, now, run);
    BucketedSameQuery(series, q1, q2, now, run);
  }

  /** A bucketed handler answers two requests with the same valid bucket and the same ids alike. */
  lemma {:induction false} BucketedSameQuery<R>(series: Series, q: Values, q': Values, now: int,
                                                 run: BucketQuery -> Result<seq<R>, string>)
    requires BucketOf(Get(q, "bucket_size")).Some?
    requires BucketOf(Get(q, "bucket_size")) == BucketOf(Get(q', "bucket_size")) && IdsOf(q) == IdsOf(q')
    ensures Bucketed(series, q, now, run) == Bucketed(series, q', now, run)
  {
  }

  /** The bucketed endpoint serves only YouTube videos and channels. */
  function BucketedSeriesOf(rk: string): (s: Option<Series>)
    ensures s.Some? <==> rk == YouTubeVideo || rk == YouTubeChannel
    ensures s == Some(YouTubeVideoSeries) <==> rk == YouTubeVideo
  {
    if rk == YouTubeVideo then Some(YouTubeVideoSeries)
    else if rk == YouTubeChannel then Some(YouTubeChannelSeries)
    else None
  }

  /** handleGetTimeSeriesByIDsBucketed: dispatch on request_kind; other kinds are a 400 and no query. */
  function HandleGetTimeSeriesByIDsBucketed<R>(query: Values, now: int, run: BucketQuery -> Result<seq<R>, string>)
    : (s: Served<BucketQuery, seq<R>>)
    ensures BucketedSeriesOf(Get(query, "request_kind")).None? ==>
      s == Served(None, WriteBadRequestError("unsupported request kind: " + Get(query, "request_kind")))
    ensures s.query.Some? ==> s.query.value.series in {YouTubeVideoSeries, YouTubeChannelSeries}
  {
    var rk := Get(query, "request_kind");
    match BucketedSeriesOf(rk)
    case None => Served(None, WriteBadRequestError("unsupported request kind: " + rk))
    case Some(series) => Bucketed(series, query, now, run)
  }

  /** No request to the bucketed endpoint reaches a Reddit or Twitch table. */
  lemma {:induction false} BucketedEndpointOnlyYouTube<R>(query: Values, now: int, run: BucketQuery -> Result<seq<R>, string>)
    ensures var s := HandleGetTimeSeriesByIDsBucketed(query, now, run);
      s.query.Some? ==> !(s.query.value.series in {RedditPostSeries, RedditCommentSeries, RedditSubredditSeries,
                                                   RedditUserSeries, TwitchClipSeries, TwitchVideoSeries,
                                                   TwitchStreamSeries, TwitchUserPastDecSeries})
  {
  }

  // ---------------------------------------------------------------------------
  // The raw endpoint
  // ---------------------------------------------------------------------------

  /** One raw query: the kind, the ids and the time window. */
  datatype RawQuery = RawQuery(requestKind: string, ids: seq<string>, start: int, end: int)

  /** The kinds the raw endpoint serves. */
  predicate RawKind(rk: string)
  {
    rk in {InternalRandom, YouTubeVideo, KaggleNotebook, KaggleDataset, RedditPost, RedditComment}
  }

  /** The start of the window: the zero time without dur, else now minus the parsed duration. */
  function WindowStart(dur: string, now: int, parseDuration: string -> Result<int, string>): (r: Result<int, string>)
    ensures dur == "" ==> r == Success(ZeroTime)
    ensures dur != "" && parseDuration(dur).Success? ==> r == Success(now - parseDuration(dur).value)
    ensures dur != "" && parseDuration(dur).Failure? ==> r == Failure(parseDuration(dur).error)
  {
    if dur == "" then Success(ZeroTime)
    else match parseDuration(dur)
      case Failure(e) => Failure(e)
      case Success(d) => Success(now - d)
  }

  /**
   * handleGetTimeSeriesByIDs. Only the repeated `id` parameters are read
   * here (no `ids` fallback); `parseDuration` is time.ParseDuration.
   */
  function HandleGetTimeSeriesByIDs<R>(query: Values, now: int, parseDuration: string -> Result<int, string>,
                                       run: RawQuery -> Result<R, string>): (s: Served<RawQuery, R>)
    ensures (Get(query, "request_kind") == "" || "id" !in query || query["id"] == []) ==>
      s == Served(None, WriteBadRequestError("must supply request_kind and id(s)"))
    ensures s.query.Some? <==> (Get(query, "request_kind") != "" && "id" in query && query["id"] != []
                                && WindowStart(Get(query, "dur"), now, parseDuration).Success?
                                && RawKind(Get(query, "request_kind")))
    ensures s.query.Some? ==>
      (s.query.value == RawQuery(Get(query, "request_kind"), query["id"],
                                 WindowStart(Get(query, "dur"), now, parseDuration).value, now)
       && s.response == match run(s.query.value)
         case Failure(e) => WriteInternalError(e)
         case Success(rows) => Response(StatusOK, Value(rows)))
    ensures s.query.None? ==> s.response.status == StatusBadRequest
  {
    var rk := Get(query, "request_kind");
    var dur := Get(query, "dur");
    if rk == "" || "id" !in query || query["id"] == [] then
      Served(None, WriteBadRequestError("must supply request_kind and id(s)"))
    else match WindowStart(dur, now, parseDuration)
      case Failure(e) => Served(None, WriteBadRequestError("could not parse duration: " + e))
      case Success(start) =>
        if !RawKind(rk) then Served(None, WriteBadRequestError("unexpected RequestKind " + rk))
        else
          var q := RawQuery(rk, query["id"], start, now);
          Served(Some(q), match run(q)
            case Failure(e) => WriteInternalError(e)
            case Success(rows) => Response(StatusOK, Value(rows)))
  }

  /** A kind outside the six raw kinds is a 400 whatever the other parameters, once they are well-formed. */
  lemma {:induction false} RawRejectsOtherKinds<R>(query: Values, now: int, parseDuration: string -> Result<int, string>,
                                run: RawQuery -> Result<R, string>)
    requires Get(query, "request_kind") != "" && "id" in query && query["id"] != []
    requires WindowStart(Get(query, "dur"), now, parseDuration).Success?
    requires !RawKind(Get(query, "request_kind"))
    ensures HandleGetTimeSeriesByIDs(query, now, parseDuration, run)
         == Served(None, WriteBadRequestError("unexpected RequestKind " + Get(query, "request_kind")))
  {
  }
}
