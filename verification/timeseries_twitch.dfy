/**
 * The bucketed time-series handlers of the Twitch tables
 * (server/handlers_timeseries_bucketed_twitch.go). Every handler is the same bucketed handler over its own table.
 */
module TimeSeriesTwitch {
  import opened Wrappers
  import opened Http
  import opened TimeSeries
  import opened BasicHandlers

  /** HandleGetTwitchClipTimeSeriesByIDsBucketed: the Twitch clip table; no bucket_size means hourly buckets. */
  function HandleGetTwitchClipTimeSeriesByIDsBucketed<R>(query: Values, now: int, run: BucketQuery -> Result<seq<R>, string>)
    : (s: Served<BucketQuery, seq<R>>)
    ensures s.query.Some? ==> s.query.value.series == TwitchClipSeries
    ensures Get(query, "bucket_size") == "" ==> s.query == Some(BucketQuery(TwitchClipSeries, Hr1, IdsOf(query), ZeroTime, now))
  {
    Bucketed(TwitchClipSeries, query, now, run)
  }

  /** HandleGetTwitchVideoTimeSeriesByIDsBucketed: the Twitch video table; no bucket_size means hourly buckets. */
  function HandleGetTwitchVideoTimeSeriesByIDsBucketed<R>(query: Values, now: int, run: BucketQuery -> Result<seq<R>, string>)
    : (s: Served<BucketQuery, seq<R>>)
    ensures s.query.Some? ==> s.query.value.series == TwitchVideoSeries
    ensures Get(query, "bucket_size") == "" ==> s.query == Some(BucketQuery(TwitchVideoSeries, Hr1, IdsOf(query), ZeroTime, now))
  {
    Bucketed(TwitchVideoSeries, query, now, run)
  }

  /** HandleGetTwitchStreamTimeSeriesByIDsBucketed: the Twitch stream table; no bucket_size means hourly buckets. */
  function HandleGetTwitchStreamTimeSeriesByIDsBucketed<R>(query: Values, now: int, run: BucketQuery -> Result<seq<R>, string>)
    : (s: Served<BucketQuery, seq<R>>)
    ensures s.query.Some? ==> s.query.value.series == TwitchStreamSeries
    ensures Get(query, "bucket_size") == "" ==> s.query == Some(BucketQuery(TwitchStreamSeries, Hr1, IdsOf(query), ZeroTime, now))
  {
    Bucketed(TwitchStreamSeries, query, now, run)
  }

  /** HandleGetTwitchUserPastDecTimeSeriesByIDsBucketed: the Twitch past-broadcast table; no bucket_size means hourly buckets. */
  function HandleGetTwitchUserPastDecTimeSeriesByIDsBucketed<R>(query: Values, now: int, run: BucketQuery -> Result<seq<R>, string>)
    : (s: Served<BucketQuery, seq<R>>)
    ensures s.query.Some? ==> s.query.value.series == TwitchUserPastDecSeries
    ensures Get(query, "bucket_size") == "" ==> s.query == Some(BucketQuery(TwitchUserPastDecSeries, Hr1, IdsOf(query), ZeroTime, now))
  {
    Bucketed(TwitchUserPastDecSeries, query, now, run)
  }

}
