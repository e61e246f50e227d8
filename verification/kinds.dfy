/** The request kinds the worker knows how to poll. */
module Kinds {

  const InternalRandom := "internal.random"
  const KaggleNotebook := "kaggle.notebook"
  const KaggleDataset := "kaggle.dataset"
  const YouTubeVideo := "youtube.video"
  const YouTubeChannel := "youtube.channel"
  const RedditPost := "reddit.post"
  const RedditComment := "reddit.comment"
  const RedditSubreddit := "reddit.subreddit"
  const RedditSubredditMonitor := "reddit.subreddit-monitor"
  const RedditUser := "reddit.user"
  const RedditUserMonitor := "reddit.user-monitor"
  const TwitchClip := "twitch.clip"
  const TwitchVideo := "twitch.video"
  const TwitchStream := "twitch.stream"
  const TwitchUserPastDec := "twitch.user-past-dec"

  /** GetSupportedRequestKinds: fifteen kinds, none listed twice. */
  function SupportedRequestKinds(): (ks: seq<string>)
    ensures |ks| == 15
    ensures forall i, j :: 0 <= i < j < |ks| ==> ks[i] != ks[j]
    ensures forall k :: k in ks ==> ' ' !in k
  {
    var ks := [InternalRandom, KaggleNotebook, KaggleDataset, YouTubeVideo, YouTubeChannel,
               RedditPost, RedditComment, RedditSubreddit, RedditSubredditMonitor, RedditUser,
               RedditUserMonitor, TwitchClip, TwitchVideo, TwitchStream, TwitchUserPastDec];
    assert ' ' !in InternalRandom;
    assert ' ' !in KaggleNotebook;
    assert ' ' !in KaggleDataset;
    assert ' ' !in YouTubeVideo;
    assert ' ' !in YouTubeChannel;
    assert ' ' !in RedditPost;
    assert ' ' !in RedditComment;
    assert ' ' !in RedditSubreddit;
    assert ' ' !in RedditSubredditMonitor;
    assert ' ' !in RedditUser;
    assert ' ' !in RedditUserMonitor;
    assert ' ' !in TwitchClip;
    assert ' ' !in TwitchVideo;
    assert ' ' !in TwitchStream;
    assert ' ' !in TwitchUserPastDec;
    ks
  }

  predicate Supported(rk: string)
  {
    rk in SupportedRequestKinds()
  }

  /** Membership spelled out kind by kind. */
  lemma {:induction false} SupportedCases(rk: string)
    ensures Supported(rk) <==> (rk == InternalRandom || rk == KaggleNotebook || rk == KaggleDataset
      || rk == YouTubeVideo || rk == YouTubeChannel || rk == RedditPost || rk == RedditComment
      || rk == RedditSubreddit || rk == RedditSubredditMonitor || rk == RedditUser || rk == RedditUserMonitor
      || rk == TwitchClip || rk == TwitchVideo || rk == TwitchStream || rk == TwitchUserPastDec)
  {
  }
}
