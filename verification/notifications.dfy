/**
 * The notification handlers of server/handlers_notifications.go: a new Reddit
 * post from the Reddit listener, and a YouTube WebSub notification. Each one
 * asks the service's own /schedule endpoint to follow the post or video for a
 * while. There is no memory between notifications here: every notification
 * that parses issues a schedule request. `do` performs the request to
 * /schedule; the model records the request and payload it sent, if any.
 */
module Notifications {
  import opened Wrappers
  import opened Kinds
  import opened Http
  import opened Api
  import opened BasicHandlers
  import opened WebSub

  /** A schedule request sent to /schedule: the HTTP request and the JSON payload it carries. */
  type Sent = (HttpRequest, GenericScheduleRequestPayload)

  /** The post of a Reddit listener update, as far as the handler reads it. */
  datatype RedditPostUpdate = RedditPostUpdate(id: string, title: string, author: string)

  /**
   * handleRedditPostNotification: a post that decodes is followed for a week.
   * `update` is the decoded body or the decoding error.
   */
  function HandleRedditPostNotification(update: Result<RedditPostUpdate, string>, now: int, env: string -> string,
                                        do: Sent -> Result<Reply, string>): (s: Served<Sent, ()>)
    ensures update.Failure? ==> s == Served(None, WriteBadRequestError(update.error))
    ensures s.query.Some? <==> update.Success?
    ensures s.query.Some? ==> (s.query.value.0 == ScheduleRequest(env)
      && s.query.value.1.requestKind == RedditPost && s.query.value.1.id == update.value.id
      && s.query.value.1.schedule.endAt == now + PostFollow
      && s.response == ScheduleReply(do(s.query.value)))
  {
    match update
    case Failure(e) => Served(None, WriteBadRequestError(e))
    case Success(post) =>
      var sent := (ScheduleRequest(env), FollowPayload(RedditPost, post.id, now, PostFollow));
      Served(Some(sent), ScheduleReply(do(sent)))
  }

  /**
   * handleYouTubeVideoWebSubNotification: the video named in the notification
   * is followed for three weeks. `body` is the request body as read.
   */
  function HandleYouTubeNotification(body: Result<string, string>, now: int, env: string -> string,
                                     do: Sent -> Result<Reply, string>): (s: Served<Sent, ()>)
    ensures body.Failure? ==> s == Served(None, WriteInternalError(body.error))
    ensures body.Success? && VideoID(body.value).None? ==> s == Served(None, WriteInternalError("could not parse video ID"))
    ensures s.query.Some? <==> body.Success? && VideoID(body.value).Some?
    ensures s.query.Some? ==> (s.query.value.0 == ScheduleRequest(env)
      && s.query.value.1.requestKind == YouTubeVideo && s.query.value.1.id == VideoID(body.value).value
      && s.query.value.1.schedule.endAt == now + VideoFollow
      && s.response == ScheduleReply(do(s.query.value)))
  {
    match body
    case Failure(e) => Served(None, WriteInternalError(e))
    case Success(xml) =>
      match VideoID(xml)
      case None => Served(None, WriteInternalError("could not parse video ID"))
      case Some(vid) =>
        var sent := (ScheduleRequest(env), FollowPayload(YouTubeVideo, vid, now, VideoFollow));
        Served(Some(sent), ScheduleReply(do(sent)))
  }

  /**
   * A notification for a video on its own line schedules exactly that video,
   * and is answered 200 exactly when /schedule answers 200 or 409.
   */
  lemma {:induction false} YouTubeNotificationSchedulesFeedVideo(pre: string, id: string, post: string, now: int,
                                              env: string -> string, do: Sent -> Result<Reply, string>)
    requires FeedLine(pre, id, post)
    ensures var s := HandleYouTubeNotification(Success(pre + OpenTag + id + CloseTag + post), now, env, do);
      s.query.Some? && s.query.value.1 == FollowPayload(YouTubeVideo, id, now, VideoFollow)
      && (s.response.status == StatusOK <==> do(s.query.value).Success?
                                             && do(s.query.value).value.status in {StatusOK, StatusConflict})
  {
    VideoIDOfFeedLine(pre, id, post);
  }
}
