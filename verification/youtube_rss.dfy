/**
 * The YouTube WebSub notification handler of server/handlers_youtube_rss.go.
 * Unlike its counterpart in server/handlers_notifications.go, it remembers
 * every video ID it has been notified about, for as long as the process
 * lives, and schedules a video only the first time. The remembered set is
 * the handler's state; everything else is as in Notifications.
 */
module YouTubeRss {
  import opened Wrappers
  import opened Kinds
  import opened Http
  import opened BasicHandlers
  import opened WebSub
  import opened Notifications

  /** The handler closure and the set of video IDs it has seen. */
  class VideoNotificationHandler {
    var seen: set<string>

    /** A fresh handler has seen nothing. */
    constructor()
      ensures seen == {}
    {
      seen := {};
    }

    /**
     * One notification. A new ID is remembered before the schedule request is
     * made, so it stays remembered whether or not scheduling succeeds; an ID
     * already seen is answered 200 with no request.
     */
    method Handle(body: Result<string, string>, now: int, env: string -> string, do: Sent -> Result<Reply, string>)
      returns (s: Served<Sent, ()>)
      modifies this
      ensures old(seen) <= seen
      ensures body.Failure? || VideoID(body.value).None? ==>
        seen == old(seen) && s == HandleYouTubeNotification(body, now, env, do)
      ensures body.Success? && VideoID(body.value).Some? ==> seen == old(seen) + {VideoID(body.value).value}
      ensures body.Success? && VideoID(body.value).Some? && VideoID(body.value).value in old(seen) ==>
        s == Served(None, WriteOK())
      ensures body.Success? && VideoID(body.value).Some? && VideoID(body.value).value !in old(seen) ==>
        s == HandleYouTubeNotification(body, now, env, do)
      ensures s.query.Some? ==> s.query.value.1.id !in old(seen) && s.query.value.1.id in seen
    {
      if body.Failure? {
        return Served(None, WriteInternalError(body.error));
      }
      var vid := VideoID(body.value);
      if vid.None? {
        return Served(None, WriteInternalError("could not parse video ID"));
      }
      if vid.value in seen {
        return Served(None, WriteOK());
      }
      seen := seen + {vid.value};
      var sent := (ScheduleRequest(env), FollowPayload(YouTubeVideo, vid.value, now, VideoFollow));
      s := Served(Some(sent), ScheduleReply(do(sent)));
    }
  }
}
