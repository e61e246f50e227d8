/**
 * The bucketed time-series handlers of the YouTube tables
 * (server/handlers_timeseries_bucketed_youtube.go). Every handler is the same bucketed handler over its own table.
 */
module TimeSeriesYouTube {
  import opened Wrappers
  import opened Http
  import opened TimeSeries
  import opened BasicHandlers

  /** HandleGetYouTubeVideoTimeSeriesByIDsBucketed: the YouTube video table; no bucket_size means hourly buckets. */
  function HandleGetYouTubeVideoTimeSeriesByIDsBucketed<R>(query: Values, now: int, run: BucketQuery -> Result<seq<R>, string>)
    : (s: Served<BucketQuery, seq<R>>)
    ensures s.query.Some? ==> s.query.value.series == YouTubeVideoSeries
    ensures Get(query, "bucket_size") == "" ==> s.query == Some(BucketQuery(YouTubeVideoSeries, Hr1, IdsOf(query), ZeroTime, now))
  {
    Bucketed(YouTubeVideoSeries, query, now, run)
  }

  /** HandleGetYouTubeChannelTimeSeriesByIDsBucketed: the YouTube channel table; no bucket_size means hourly buckets. */
  function HandleGetYouTubeChannelTimeSeriesByIDsBucketed<R>(query: Values, now: int, run: BucketQuery -> Result<seq<R>, string>)
    : (s: Served<BucketQuery, seq<R>>)
    ensures s.query.Some? ==> s.query.value.series == YouTubeChannelSeries
    ensures Get(query, "bucket_size") == "" ==> s.query == Some(BucketQuery(YouTubeChannelSeries, Hr1, IdsOf(query), ZeroTime, now))
  {
    Bucketed(YouTubeChannelSeries, query, now, run)
  }

}
