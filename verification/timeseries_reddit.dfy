/**
 * The bucketed time-series handlers of the Reddit tables
 * (server/handlers_timeseries_bucketed_reddit.go). Every handler is the same bucketed handler over its own table.
 */
module TimeSeriesReddit {
  import opened Wrappers
  import opened Http
  import opened TimeSeries
  import opened BasicHandlers

  /** HandleGetRedditPostTimeSeriesByIDsBucketed: the Reddit post table; no bucket_size means hourly buckets. */
  function HandleGetRedditPostTimeSeriesByIDsBucketed<R>(query: Values, now: int, run: BucketQuery -> Result<seq<R>, string>)
    : (s: Served<BucketQuery, seq<R>>)
    ensures s.query.Some? ==> s.query.value.series == RedditPostSeries
    ensures Get(query, "bucket_size") == "" ==> s.query == Some(BucketQuery(RedditPostSeries, Hr1, IdsOf(query), ZeroTime, now))
  {
    Bucketed(RedditPostSeries, query, now, run)
  }

  /** HandleGetRedditCommentTimeSeriesByIDsBucketed: the Reddit comment table; no bucket_size means hourly buckets. */
  function HandleGetRedditCommentTimeSeriesByIDsBucketed<R>(query: Values, now: int, run: BucketQuery -> Result<seq<R>, string>)
    : (s: Served<BucketQuery, seq<R>>)
    ensures s.query.Some? ==> s.query.value.series == RedditCommentSeries
    ensures Get(query, "bucket_size") == "" ==> s.query == Some(BucketQuery(RedditCommentSeries, Hr1, IdsOf(query), ZeroTime, now))
  {
    Bucketed(RedditCommentSeries, query, now, run)
  }

  /** HandleGetRedditSubredditTimeSeriesByIDsBucketed: the subreddit table; no bucket_size means hourly buckets. */
  function HandleGetRedditSubredditTimeSeriesByIDsBucketed<R>(query: Values, now: int, run: BucketQuery -> Result<seq<R>, string>)
    : (s: Served<BucketQuery, seq<R>>)
    ensures s.query.Some? ==> s.query.value.series == RedditSubredditSeries
    ensures Get(query, "bucket_size") == "" ==> s.query == Some(BucketQuery(RedditSubredditSeries, Hr1, IdsOf(query), ZeroTime, now))
  {
    Bucketed(RedditSubredditSeries, query, now, run)
  }

  /** HandleGetRedditUserTimeSeriesByIDsBucketed: the Reddit user table; no bucket_size means hourly buckets. */
  function HandleGetRedditUserTimeSeriesByIDsBucketed<R>(query: Values, now: int, run: BucketQuery -> Result<seq<R>, string>)
    : (s: Served<BucketQuery, seq<R>>)
    ensures s.query.Some? ==> s.query.value.series == RedditUserSeries
    ensures Get(query, "bucket_size") == "" ==> s.query == Some(BucketQuery(RedditUserSeries, Hr1, IdsOf(query), ZeroTime, now))
  {
    Bucketed(RedditUserSeries, query, now, run)
  }

}
