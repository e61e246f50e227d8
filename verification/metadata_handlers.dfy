/**
 * The worker's metadata handlers (temporal/v19700101/handlers_metadata.go)
 * and their dispatch (UploadMetadata in temporal/v19700101/activity.go).
 * Each handler decodes an upstream response, pulls typed fields out of it
 * with JMESPath, and builds the MetricMetadataPayload it would upload.
 * The upload itself (an HTTP POST) is not part of this model: a handler's
 * successful outcome is the payload it hands to the uploader.
 */
module MetadataHandlers {
  import opened Wrappers
  import opened Text
  import opened Kinds
  import opened Json
  import opened ScheduleSpecs

  /** jsonb.MetadataJSON; `tags` None is Go's nil slice, times are Unix seconds. */
  datatype MetadataJSON = MetadataJSON(
    id: string,
    humanLabel: string,
    link: string,
    tags: Option<seq<string>>,
    owner: string,
    title: string,
    comment: string,
    tsCreated: int,
    userID: string,
    parentUserID: string,
    parentUserName: string,
    parentPostID: string,
    parentPostTitle: string,
    parentSubreddit: string,
    parentChannelID: string,
    parentChannelTitle: string,
    gameID: string,
    broadcaster: string,
    duration: int,
    displayName: string,
    description: string)

  /** api.MetricMetadataPayload: the record's key, its kind, and the metadata. */
  datatype MetricMetadataPayload = MetricMetadataPayload(id: string, requestKind: string, data: MetadataJSON)

  /** The zero MetadataJSON every handler starts from. */
  const Blank: MetadataJSON :=
    MetadataJSON("", "", "", None, "", "", "", ZeroTimeUnix, "", "", "", "", "", "", "", "", "", "", 0, "", "")

  /** The tags of an over_18 flag: ["NSFW"] when set, empty (not nil) otherwise. */
  function NsfwTags(nsfw: bool): (t: seq<string>)
    ensures "NSFW" in t <==> nsfw
    ensures |t| <= 1
  {
    if nsfw then ["NSFW"] else []
  }

  /** What a path finds in a body, or null when the body did not decode. */
  function Found(body: Result<Json, string>, path: Path): Json
  {
    if body.Success? then Search(body.value, path) else Null
  }

  // ---------------------------------------------------------------------------
  // Paths
  // ---------------------------------------------------------------------------

  /** `items[0].<key>` of a YouTube list response. */
  function Item(key: string): Path { [Key("items"), At(0), Key(key)] }

  /** `items[0].snippet.<key>`. */
  function Snippet(key: string): Path { [Key("items"), At(0), Key("snippet"), Key(key)] }

  /** `data.children[0].data`, the thing of a Reddit listing. */
  const RedditThing: Path := [Key("data"), Key("children"), At(0), Key("data")]

  /** `data.children[0].data.<key>`. */
  function Thing(key: string): Path { RedditThing + [Key(key)] }

  /** `data.<key>` of a Reddit about response. */
  function About(key: string): Path { [Key("data"), Key(key)] }

  /** `data[0].<key>` of a Twitch Helix response. */
  function Helix(key: string): Path { [Key("data"), At(0), Key(key)] }

  // ---------------------------------------------------------------------------
  // Handlers
  // ---------------------------------------------------------------------------

  /** internal.random: the id names the record; its errors are plain, so they are retried. */
  function HandleInternalRandomMetadata(body: Result<Json, string>): (r: Extracted<MetricMetadataPayload>)
    ensures r.Fail? ==> !r.noRetry
    ensures r.Ok? <==> body.Success? && Found(body, [Key("id")]).Str?
    ensures r.Ok? ==> (r.value.requestKind == InternalRandom
      && r.value.id == r.value.data.id == r.value.data.humanLabel == AsStr(Found(body, [Key("id")]))
      && r.value.data.link == "https://api.kaggo.brojonat.com/internal/metrics?id=" + r.value.id)
  {
    var data :- Decode(body, "error deserializing internal response: ", false);
    var id :- StrAt(data, [Key("id")], NilMsg("id"), false);
    Ok(MetricMetadataPayload(id, InternalRandom, Blank.(
      id := id, humanLabel := id, link := "https://api.kaggo.brojonat.com/internal/metrics?id=" + id)))
  }

  /** The Kaggle handlers' shared shape: `[0].ref` names the record, linked under `linkBase`. */
  function KaggleMetadata(body: Result<Json, string>, kind: string, what: string, linkBase: string)
    : (r: Extracted<MetricMetadataPayload>)
    ensures r.Fail? ==> r.noRetry
    ensures r.Ok? <==> body.Success? && Found(body, [At(0), Key("ref")]).Str?
    ensures r.Ok? ==> (r.value.requestKind == kind
      && r.value.id == r.value.data.id == r.value.data.humanLabel == Found(body, [At(0), Key("ref")]).s
      && r.value.data.link == linkBase + r.value.id)
  {
    var data :- Decode(body, "error deserializing " + what + " response: ", true);
    var id :- StrAt(data, [At(0), Key("ref")], NilMsg("ref"), true);
    Ok(MetricMetadataPayload(id, kind, Blank.(id := id, humanLabel := id, link := linkBase + id)))
  }

  /** kaggle.notebook: linked under /code/. */
  function HandleKaggleNotebookMetadata(body: Result<Json, string>): (r: Extracted<MetricMetadataPayload>)
    ensures r.Fail? ==> r.noRetry
    ensures r.Ok? ==> (r.value.requestKind == KaggleNotebook
      && r.value.data.link == "https://www.kaggle.com/code/" + r.value.id)
  {
    KaggleMetadata(body, KaggleNotebook, "notebook", "https://www.kaggle.com/code/")
  }

  /** kaggle.dataset: linked under /datasets/. */
  function HandleKaggleDatasetMetadata(body: Result<Json, string>): (r: Extracted<MetricMetadataPayload>)
    ensures r.Fail? ==> r.noRetry
    ensures r.Ok? ==> (r.value.requestKind == KaggleDataset
      && r.value.data.link == "https://www.kaggle.com/datasets/" + r.value.id)
  {
    KaggleMetadata(body, KaggleDataset, "dataset", "https://www.kaggle.com/datasets/")
  }

  /**
   * youtube.video: id, title, publication time, channel. `parseTime` is
   * time.Parse(time.RFC3339, ·) (section 5.6 of RFC 3339), giving Unix seconds.
   */
  function HandleYouTubeVideoMetadata(body: Result<Json, string>, parseTime: string -> Result<int, string>)
    : (r: Extracted<MetricMetadataPayload>)
    ensures r.Fail? ==> r.noRetry
    ensures r.Ok? ==> (body.Success? && Found(body, Snippet("publishedAt")).Str?
      && parseTime(AsStr(Found(body, Snippet("publishedAt")))).Success?
      && r.value.data.tsCreated == parseTime(AsStr(Found(body, Snippet("publishedAt")))).value)
    ensures r.Ok? ==> (r.value.requestKind == YouTubeVideo
      && r.value.id == r.value.data.id == AsStr(Found(body, Item("id")))
      && r.value.data.humanLabel == r.value.data.title == AsStr(Found(body, Snippet("title")))
      && r.value.data.link == "https://www.youtube.com/watch?v=" + r.value.id
      && r.value.data.parentChannelID == AsStr(Found(body, Snippet("channelId")))
      && r.value.data.parentChannelTitle == AsStr(Found(body, Snippet("channelTitle"))))
    ensures (body.Success? && Found(body, Item("id")).Str? && Found(body, Snippet("title")).Str?
             && Found(body, Snippet("publishedAt")).Str?
             && parseTime(AsStr(Found(body, Snippet("publishedAt")))).Failure?)
      ==> r == Fail("error parsing publishedAt: " + parseTime(AsStr(Found(body, Snippet("publishedAt")))).error, true)
  {
    var data :- Decode(body, "error deserializing internal response: ", true);
    var id :- StrAt(data, Item("id"), NilMsg("id"), true);
    var title :- StrAt(data, Snippet("title"), NilMsg("title"), true);
    var raw :- StrAt(data, Snippet("publishedAt"), NilMsg("publishedAt"), true);
    var ts :- match parseTime(raw)
      case Success(t) => Ok(t)
      case Failure(e) => Fail("error parsing publishedAt: " + e, true);
    var channelID :- StrAt(data, Snippet("channelId"), NilMsg("channelId"), true);
    var channelTitle :- StrAt(data, Snippet("channelTitle"), NilMsg("channelTitle"), true);
    Ok(MetricMetadataPayload(id, YouTubeVideo, Blank.(
      id := id, humanLabel := title, link := "https://www.youtube.com/watch?v=" + id, tsCreated := ts,
      title := title, parentChannelID := channelID, parentChannelTitle := channelTitle)))
  }

  /** youtube.channel: id and title, linked under /channel/. */
  function HandleYouTubeChannelMetadata(body: Result<Json, string>): (r: Extracted<MetricMetadataPayload>)
    ensures r.Fail? ==> r.noRetry
    ensures r.Ok? <==> body.Success? && Found(body, Item("id")).Str? && Found(body, Snippet("title")).Str?
    ensures r.Ok? ==> (r.value.requestKind == YouTubeChannel
      && r.value.id == r.value.data.id == AsStr(Found(body, Item("id")))
      && r.value.data.humanLabel == r.value.data.title == AsStr(Found(body, Snippet("title")))
      && r.value.data.link == "https://www.youtube.com/channel/" + r.value.id)
  {
    var data :- Decode(body, "error deserializing internal response: ", true);
    var id :- StrAt(data, Item("id"), NilMsg("id"), true);
    var title :- StrAt(data, Snippet("title"), NilMsg("title"), true);
    Ok(MetricMetadataPayload(id, YouTubeChannel, Blank.(
      id := id, humanLabel := title, link := "https://www.youtube.com/channel/" + id, title := title)))
  }

  /**
   * reddit.post: the post's fields, NSFW tag from over_18, and an author
   * fullname that is optional (nil leaves ParentUserID empty, no error).
   */
  function HandleRedditPostMetadata(body: Result<Json, string>): (r: Extracted<MetricMetadataPayload>)
    ensures r.Fail? ==> r.noRetry
    ensures body.Success? && Found(body, Thing("id")).Null? ==> r == Fail(NilMsg("id"), true)
    ensures r.Ok? ==> (r.value.requestKind == RedditPost
      && r.value.id == r.value.data.id == AsStr(Found(body, Thing("id")))
      && r.value.data.humanLabel == r.value.data.title == AsStr(Found(body, Thing("title")))
      && r.value.data.tsCreated == AsNum(Found(body, Thing("created")))
      && r.value.data.link == "https://www.reddit.com" + AsStr(Found(body, Thing("permalink")))
      && r.value.data.parentUserName == AsStr(Found(body, Thing("author")))
      && r.value.data.parentSubreddit == AsStr(Found(body, Thing("subreddit"))))
    ensures r.Ok? ==> r.value.data.tags == Some(NsfwTags(AsBool(Found(body, Thing("over_18")))))
    ensures r.Ok? ==> r.value.data.parentUserID == AsStr(Found(body, Thing("author_fullname")))
  {
    var data :- Decode(body, "error deserializing post response: ", true);
    var id :- StrAt(data, Thing("id"), NilMsg("id"), true);
    var title :- StrAt(data, Thing("title"), NilMsg("title"), true);
    var created :- NumAt(data, Thing("created"), NilMsg("created"), true);
    var permalink :- StrAt(data, Thing("permalink"), "error extracting permalink; id is nil", true);
    var author :- StrAt(data, Thing("author"), NilMsg("author"), true);
    var authorID :- OptStrAt(data, Thing("author_fullname"));
    var subreddit :- StrAt(data, Thing("subreddit"), NilMsg("subreddit"), true);
    var nsfw :- BoolAt(data, Thing("over_18"), NilMsg("over_18"), true);
    Ok(MetricMetadataPayload(id, RedditPost, Blank.(
      id := id, humanLabel := title, link := "https://www.reddit.com" + permalink, tsCreated := created,
      title := title, parentUserID := authorID, parentUserName := author, parentSubreddit := subreddit,
      tags := Some(NsfwTags(nsfw)))))
  }

  // ---------------------------------------------------------------------------
  // The parent post's title inside a comment permalink
  // ---------------------------------------------------------------------------

  /** Piece `i` of `permalink` split on "/", or Go's index-out-of-range panic. */
  function PermalinkSegment(permalink: string, i: nat): (r: Extracted<string>)
    ensures !r.Fail?
    ensures r.Ok? <==> i < |Split(permalink, '/')|
    ensures r.Ok? ==> r.value == Split(permalink, '/')[i] && '/' !in r.value
  {
    var parts := Split(permalink, '/');
    SplitPiecesFree(permalink, '/');
    if i < |parts| then Ok(parts[i])
    else Panic("index out of range [" + Itoa(i) + "] with length " + Itoa(|parts|))
  }

  /**
   * A comment permalink as Reddit writes it,
   * /r/{subreddit}/comments/{post}/{post-title}/{comment}/ (so it starts and
   * ends with an empty piece).
   */
  function CommentPermalink(subreddit: string, post: string, slug: string, comment: string): string
  {
    Join(["", "r", subreddit, "comments", post, slug, comment, ""], '/')
  }

  /** The pieces of a comment permalink whose parts hold no "/". */
  lemma {:induction false} CommentPermalinkPieces(subreddit: string, post: string, slug: string, comment: string)
    requires '/' !in subreddit && '/' !in post && '/' !in slug && '/' !in comment
    ensures Split(CommentPermalink(subreddit, post, slug, comment), '/')
      == ["", "r", subreddit, "comments", post, slug, comment, ""]
  {
    SplitJoin(["", "r", subreddit, "comments", post, slug, comment, ""], '/');
  }

  /** ParentPostTitle as the handler computes it: piece 4 of the permalink. */
  function ParentPostTitleAsWritten(permalink: string): (r: Extracted<string>)
    ensures r.Ok? <==> |Split(permalink, '/')| >= 5
  {
    PermalinkSegment(permalink, 4)
  }

  /** Piece 4 of a well-formed comment permalink is the post's id, not its title. */
  lemma {:induction false} ParentPostTitleAsWrittenIsPostID(subreddit: string, post: string, slug: string, comment: string)
    requires '/' !in subreddit && '/' !in post && '/' !in slug && '/' !in comment
    ensures ParentPostTitleAsWritten(CommentPermalink(subreddit, post, slug, comment)) == Ok(post)
  {
    CommentPermalinkPieces(subreddit, post, slug, comment);
  }

  /** ParentPostTitle as the permalink layout intends it: piece 5, the post-title slug. */
  function ParentPostTitle(permalink: string): (r: Extracted<string>)
    ensures r.Ok? <==> |Split(permalink, '/')| >= 6
  {
    PermalinkSegment(permalink, 5)
  }

  /** The corrected piece of a well-formed comment permalink is the post-title slug. */
  lemma {:induction false} ParentPostTitleIsSlug(subreddit: string, post: string, slug: string, comment: string)
    requires '/' !in subreddit && '/' !in post && '/' !in slug && '/' !in comment
    ensures ParentPostTitle(CommentPermalink(subreddit, post, slug, comment)) == Ok(slug)
  {
    CommentPermalinkPieces(subreddit, post, slug, comment);
  }

  /**
   * reddit.comment: the comment, its post and author; a permalink with too
   * few pieces panics. No tags (nil). The post title is taken with the
   * corrected ParentPostTitle.
   */
  function HandleRedditCommentMetadata(body: Result<Json, string>): (r: Extracted<MetricMetadataPayload>)
    ensures r.Fail? ==> r.noRetry
    ensures r.Ok? ==>
      var permalink := AsStr(Found(body, Thing("permalink")));
      ParentPostTitle(permalink).Ok?
      && r.value == MetricMetadataPayload(AsStr(Found(body, Thing("id"))), RedditComment,
           CommentData(AsStr(Found(body, Thing("id"))), AsNum(Found(body, Thing("created"))), permalink,
                       AsStr(Found(body, Thing("link_id"))), ParentPostTitle(permalink).value,
                       AsStr(Found(body, Thing("author"))), AsStr(Found(body, Thing("author_fullname"))),
                       AsStr(Found(body, Thing("body"))), AsStr(Found(body, Thing("subreddit")))))
  {
    var data :- Decode(body, "error deserializing comment response: ", true);
    var id :- StrAt(data, Thing("id"), NilMsg("id"), true);
    var created :- NumAt(data, Thing("created"), NilMsg("created"), true);
    var permalink :- StrAt(data, Thing("permalink"), NilMsg("permalink"), true);
    var postID :- StrAt(data, Thing("link_id"), NilMsg("link_id"), true);
    var postTitle :- ParentPostTitle(permalink);
    CommentAuthorAndText(data, id, created, permalink, postID, postTitle)
  }

  /** The rest of the comment handler, once the post's fields are read: the author, the text and the subreddit. */
  function CommentAuthorAndText(data: Json, id: string, created: int, permalink: string, postID: string,
                                postTitle: string): (r: Extracted<MetricMetadataPayload>)
    ensures r.Fail? ==> r.noRetry
    ensures r.Ok? ==> r.value == MetricMetadataPayload(id, RedditComment,
      CommentData(id, created, permalink, postID, postTitle, AsStr(Search(data, Thing("author"))),
                  AsStr(Search(data, Thing("author_fullname"))), AsStr(Search(data, Thing("body"))),
                  AsStr(Search(data, Thing("subreddit")))))
  {
    var author :- StrAt(data, Thing("author"), NilMsg("author"), true);
    var authorID :- OptStrAt(data, Thing("author_fullname"));
    var text :- StrAt(data, Thing("body"), NilMsg("body"), true);
    var subreddit :- StrAt(data, Thing("subreddit"), NilMsg("subreddit"), true);
    Ok(MetricMetadataPayload(id, RedditComment,
      CommentData(id, created, permalink, postID, postTitle, author, authorID, text, subreddit)))
  }

  /** The metadata record of a comment, from the fields the handler extracted. */
  function CommentData(id: string, created: int, permalink: string, postID: string, postTitle: string,
                       author: string, authorID: string, text: string, subreddit: string): (d: MetadataJSON)
    ensures d.id == id && d.humanLabel == "Comment " + id + " by /u/" + author && d.tsCreated == created
    ensures d.parentUserID == authorID && d.parentUserName == author && d.parentPostID == postID
    ensures d.parentPostTitle == postTitle && d.parentSubreddit == subreddit && d.comment == text
    ensures d.link == "https://www.reddit.com" + permalink && d.tags == None
  {
    Blank.(
      id := id, humanLabel := "Comment " + id + " by /u/" + author, tsCreated := created,
      parentUserID := authorID, parentUserName := author, parentPostID := postID,
      parentPostTitle := postTitle, parentSubreddit := subreddit, comment := text,
      link := "https://www.reddit.com" + permalink)
  }

  /**
   * reddit.subreddit and reddit.subreddit-monitor: display_name names the
   * record, the (unusually spelled) over18 flag gives the tags.
   */
  function HandleSubredditMetadata(body: Result<Json, string>, kind: string): (r: Extracted<MetricMetadataPayload>)
    ensures r.Fail? ==> r.noRetry
    ensures r.Ok? <==> body.Success? && Found(body, About("display_name")).Str? && Found(body, About("over18")).Bool?
    ensures r.Ok? ==> (r.value.requestKind == kind
      && r.value.id == r.value.data.id == r.value.data.humanLabel == AsStr(Found(body, About("display_name")))
      && r.value.data.link == "https://www.reddit.com/r/" + r.value.id
      && r.value.data.tags == Some(NsfwTags(AsBool(Found(body, About("over18"))))))
  {
    var data :- Decode(body, "error deserializing response: ", true);
    var id :- StrAt(data, About("display_name"), NilMsg("id"), true);
    var nsfw :- BoolAt(data, About("over18"), NilMsg("over_18"), true);
    Ok(MetricMetadataPayload(id, kind, Blank.(
      id := id, humanLabel := id, link := "https://www.reddit.com/r/" + id, tags := Some(NsfwTags(nsfw)))))
  }

  /**
   * reddit.user and reddit.user-monitor: the user name is the record's key;
   * UserID is the account fullname "t2_" + id.
   */
  function HandleRedditUserMetadata(body: Result<Json, string>, kind: string): (r: Extracted<MetricMetadataPayload>)
    ensures r.Fail? ==> r.noRetry
    ensures r.Ok? ==> (r.value.requestKind == kind
      && r.value.id == r.value.data.id == r.value.data.humanLabel == AsStr(Found(body, About("name")))
      && r.value.data.userID == "t2_" + AsStr(Found(body, About("id")))
      && r.value.data.link == "https://www.reddit.com/user/" + r.value.id
      && r.value.data.tsCreated == AsNum(Found(body, About("created")))
      && r.value.data.description == AsStr(Found(body, [Key("data"), Key("subreddit"), Key("public_description")]))
      && r.value.data.tags == Some(NsfwTags(AsBool(Found(body, [Key("data"), Key("subreddit"), Key("over_18")])))))
  {
    var data :- Decode(body, "error deserializing response: ", true);
    var name :- StrAt(data, About("name"), NilMsg("name"), true);
    var id :- StrAt(data, About("id"), NilMsg("id"), true);
    var created :- NumAt(data, About("created"), NilMsg("created"), true);
    var desc :- StrAt(data, [Key("data"), Key("subreddit"), Key("public_description")], NilMsg("description"), true);
    var nsfw :- BoolAt(data, [Key("data"), Key("subreddit"), Key("over_18")], NilMsg("over_18"), true);
    Ok(MetricMetadataPayload(name, kind, Blank.(
      id := name, humanLabel := name, link := "https://www.reddit.com/user/" + name, description := desc,
      tsCreated := created, userID := "t2_" + id, tags := Some(NsfwTags(nsfw)))))
  }

  /** twitch.clip: the clip's own url is its link; the creator is the owner. */
  function HandleTwitchClipMetadata(body: Result<Json, string>): (r: Extracted<MetricMetadataPayload>)
    ensures r.Fail? ==> r.noRetry
    ensures r.Ok? ==> (r.value.requestKind == TwitchClip
      && r.value.id == r.value.data.id == AsStr(Found(body, Helix("id")))
      && r.value.data.humanLabel == r.value.data.title == AsStr(Found(body, Helix("title")))
      && r.value.data.link == AsStr(Found(body, Helix("url")))
      && r.value.data.broadcaster == AsStr(Found(body, Helix("broadcaster_name")))
      && r.value.data.owner == AsStr(Found(body, Helix("creator_name")))
      && r.value.data.gameID == AsStr(Found(body, Helix("game_id")))
      && r.value.data.duration == AsNum(Found(body, Helix("duration"))))
  {
    var data :- Decode(body, "error deserializing response: ", true);
    var id :- StrAt(data, Helix("id"), NilMsg("id"), true);
    var url :- StrAt(data, Helix("url"), NilMsg("url"), true);
    var broadcaster :- StrAt(data, Helix("broadcaster_name"), NilMsg("broadcaster_name"), true);
    var creator :- StrAt(data, Helix("creator_name"), NilMsg("creator_name"), true);
    var gameID :- StrAt(data, Helix("game_id"), NilMsg("game_id"), true);
    var title :- StrAt(data, Helix("title"), NilMsg("title"), true);
    var duration :- NumAt(data, Helix("duration"), NilMsg("duration"), true);
    Ok(MetricMetadataPayload(id, TwitchClip, Blank.(
      id := id, humanLabel := title, link := url, broadcaster := broadcaster, owner := creator,
      gameID := gameID, title := title, duration := duration)))
  }

  /** twitch.video: the video's url is its link; the uploader is the owner. */
  function HandleTwitchVideoMetadata(body: Result<Json, string>): (r: Extracted<MetricMetadataPayload>)
    ensures r.Fail? ==> r.noRetry
    ensures r.Ok? ==> (r.value.requestKind == TwitchVideo
      && r.value.id == r.value.data.id == AsStr(Found(body, Helix("id")))
      && r.value.data.humanLabel == r.value.data.title == AsStr(Found(body, Helix("title")))
      && r.value.data.owner == AsStr(Found(body, Helix("user_name")))
      && r.value.data.link == AsStr(Found(body, Helix("url"))))
  {
    var data :- Decode(body, "error deserializing response: ", true);
    var id :- StrAt(data, Helix("id"), NilMsg("id"), true);
    var userName :- StrAt(data, Helix("user_name"), NilMsg("user_name"), true);
    var title :- StrAt(data, Helix("title"), NilMsg("title"), true);
    var url :- StrAt(data, Helix("url"), NilMsg("url"), true);
    Ok(MetricMetadataPayload(id, TwitchVideo, Blank.(
      id := id, humanLabel := title, owner := userName, title := title, link := url)))
  }

  /**
   * twitch.stream and twitch.user-past-dec: the login is the record's key and
   * owner, the display name its label, the numeric user id its UserID.
   */
  function HandleTwitchUserMetadata(body: Result<Json, string>, kind: string): (r: Extracted<MetricMetadataPayload>)
    ensures r.Fail? ==> r.noRetry
    ensures r.Ok? <==> body.Success? && Found(body, Helix("id")).Str? && Found(body, Helix("login")).Str?
                       && Found(body, Helix("display_name")).Str?
    ensures r.Ok? ==> (r.value.requestKind == kind
      && r.value.id == r.value.data.id == r.value.data.owner == AsStr(Found(body, Helix("login")))
      && r.value.data.link == "https://twitch.tv/" + r.value.id
      && r.value.data.humanLabel == r.value.data.displayName == AsStr(Found(body, Helix("display_name")))
      && r.value.data.userID == AsStr(Found(body, Helix("id"))))
  {
    var data :- Decode(body, "error deserializing response: ", true);
    var userID :- StrAt(data, Helix("id"), "error extracting user id; id is nil", true);
    var login :- StrAt(data, Helix("login"), "error extracting user login; login is nil", true);
    var displayName :- StrAt(data, Helix("display_name"), NilMsg("display_name"), true);
    Ok(MetricMetadataPayload(login, kind, Blank.(
      id := login, humanLabel := displayName, owner := login, link := "https://twitch.tv/" + login,
      displayName := displayName, userID := userID)))
  }

  // ---------------------------------------------------------------------------
  // Dispatch
  // ---------------------------------------------------------------------------

  /**
   * UploadMetadata: every supported kind has a handler, whose payload carries
   * that kind; any other kind is a plain "unrecognized" error. Every handler
   * error except internal.random's is marked not to be retried.
   */
  function UploadMetadata(rk: string, body: Result<Json, string>, parseTime: string -> Result<int, string>)
    : (r: Extracted<MetricMetadataPayload>)
    ensures !Supported(rk) ==> r == Fail("unrecognized RequestKind: " + rk, false)
    ensures r.Ok? ==> Supported(rk) && r.value.requestKind == rk
    ensures r.Fail? ==> (r.noRetry <==> Supported(rk) && rk != InternalRandom)
  {
    SupportedCases(rk);
    if rk == InternalRandom then HandleInternalRandomMetadata(body)
    else if rk == YouTubeVideo then HandleYouTubeVideoMetadata(body, parseTime)
    else if rk == YouTubeChannel then HandleYouTubeChannelMetadata(body)
    else if rk == KaggleNotebook then HandleKaggleNotebookMetadata(body)
    else if rk == KaggleDataset then HandleKaggleDatasetMetadata(body)
    else if rk == RedditPost then HandleRedditPostMetadata(body)
    else if rk == RedditComment then HandleRedditCommentMetadata(body)
    else if rk == RedditSubreddit then HandleSubredditMetadata(body, RedditSubreddit)
    else if rk == RedditSubredditMonitor then HandleSubredditMetadata(body, RedditSubredditMonitor)
    else if rk == RedditUser then HandleRedditUserMetadata(body, RedditUser)
    else if rk == RedditUserMonitor then HandleRedditUserMetadata(body, RedditUserMonitor)
    else if rk == TwitchClip then HandleTwitchClipMetadata(body)
    else if rk == TwitchVideo then HandleTwitchVideoMetadata(body)
    else if rk == TwitchStream then HandleTwitchUserMetadata(body, TwitchStream)
    else if rk == TwitchUserPastDec then HandleTwitchUserMetadata(body, TwitchUserPastDec)
    else Fail("unrecognized RequestKind: " + rk, false)
  }

  // ---------------------------------------------------------------------------
  // Round trips: a response built from field values yields exactly those values
  // ---------------------------------------------------------------------------

  /** A Reddit listing whose first child's data object is `fields`. */
  function RedditListing(fields: map<string, Json>): Json
  {
    Obj(map["data" := Obj(map["children" := Arr([Obj(map["data" := Obj(fields)])])])])
  }

  /** Every Thing path finds the listed field, or null. */
  lemma {:induction false} SearchListing(fields: map<string, Json>, k: string)
    ensures Search(RedditListing(fields), Thing(k)) == if k in fields then fields[k] else Null
  {
    var l := RedditListing(fields);
    var child := Obj(map["data" := Obj(fields)]);
    var children := Arr([child]);
    assert Search(l, RedditThing) == Obj(fields) by {
      var p := RedditThing;
      assert Child(l, p[0]) == Obj(map["children" := children]);
      assert Child(Obj(map["children" := children]), p[1..][0]) == children;
      assert Child(children, p[1..][1..][0]) == child;
      assert Child(child, p[1..][1..][1..][0]) == Obj(fields);
      assert p[1..][1..][1..][1..] == [];
    }
    SearchAppend(l, RedditThing, [Key(k)]);
    assert Search(Obj(fields), [Key(k)]) == Child(Obj(fields), Key(k));
  }

  /** The fields of a post as Reddit would list them. */
  function PostFields(id: string, title: string, created: int, permalink: string, author: string,
                      authorFullname: Option<string>, subreddit: string, nsfw: bool): map<string, Json>
  {
    var m := map["id" := Str(id), "title" := Str(title), "created" := Num(created), "permalink" := Str(permalink),
                 "author" := Str(author), "subreddit" := Str(subreddit), "over_18" := Bool(nsfw)];
    if authorFullname.Some? then m["author_fullname" := Str(authorFullname.value)] else m
  }

  /**
   * A post listing with every required field yields the post's metadata;
   * without an author_fullname the record is still built, with an empty
   * ParentUserID.
   */
  lemma {:induction false} RedditPostRoundTrip(id: string, title: string, created: int, permalink: string,
                                               author: string, authorFullname: Option<string>,
                                               subreddit: string, nsfw: bool)
    ensures HandleRedditPostMetadata(Success(RedditListing(PostFields(id, title, created, permalink, author,
                                                                      authorFullname, subreddit, nsfw))))
      == Ok(MetricMetadataPayload(id, RedditPost, Blank.(
        id := id, humanLabel := title, link := "https://www.reddit.com" + permalink, tsCreated := created,
        title := title, parentUserID := if authorFullname.Some? then authorFullname.value else "",
        parentUserName := author, parentSubreddit := subreddit, tags := Some(NsfwTags(nsfw)))))
  {
    var f := PostFields(id, title, created, permalink, author, authorFullname, subreddit, nsfw);
    assert f["id"] == Str(id) && f["title"] == Str(title) && f["created"] == Num(created);
    assert f["permalink"] == Str(permalink) && f["author"] == Str(author);
    assert f["subreddit"] == Str(subreddit) && f["over_18"] == Bool(nsfw);
    assert ("author_fullname" in f) == authorFullname.Some?;
    assert authorFullname.Some? ==> f["author_fullname"] == Str(authorFullname.value);
    SearchListing(f, "id");
    SearchListing(f, "title");
    SearchListing(f, "created");
    SearchListing(f, "permalink");
    SearchListing(f, "author");
    SearchListing(f, "author_fullname");
    SearchListing(f, "subreddit");
    SearchListing(f, "over_18");
    PostFromFields(RedditListing(f), id, title, created, permalink, author, authorFullname, subreddit, nsfw);
  }

  /** The post handler on a document whose fields are known. */
  lemma {:induction false} PostFromFields(d: Json, id: string, title: string, created: int, permalink: string,
                       author: string, authorFullname: Option<string>, subreddit: string, nsfw: bool)
    requires Search(d, Thing("id")) == Str(id) && Search(d, Thing("title")) == Str(title)
    requires Search(d, Thing("created")) == Num(created) && Search(d, Thing("permalink")) == Str(permalink)
    requires Search(d, Thing("author")) == Str(author)
    requires Search(d, Thing("author_fullname")) == if authorFullname.Some? then Str(authorFullname.value) else Null
    requires Search(d, Thing("subreddit")) == Str(subreddit) && Search(d, Thing("over_18")) == Bool(nsfw)
    ensures HandleRedditPostMetadata(Success(d))
      == Ok(MetricMetadataPayload(id, RedditPost, Blank.(
        id := id, humanLabel := title, link := "https://www.reddit.com" + permalink, tsCreated := created,
        title := title, parentUserID := if authorFullname.Some? then authorFullname.value else "",
        parentUserName := author, parentSubreddit := subreddit, tags := Some(NsfwTags(nsfw)))))
  {
  }

  /**
   * A comment listing with a well-formed permalink yields the comment's
   * metadata, with the post-title slug as ParentPostTitle.
   */
  lemma {:induction false} RedditCommentRoundTrip(id: string, created: int, subreddit: string, post: string,
                                                  slug: string, linkID: string, author: string, text: string)
    requires '/' !in subreddit && '/' !in post && '/' !in slug && '/' !in id
    ensures var permalink := CommentPermalink(subreddit, post, slug, id);
      HandleRedditCommentMetadata(Success(RedditListing(map[
        "id" := Str(id), "created" := Num(created), "permalink" := Str(permalink), "link_id" := Str(linkID),
        "author" := Str(author), "body" := Str(text), "subreddit" := Str(subreddit)])))
      == Ok(MetricMetadataPayload(id, RedditComment, Blank.(
        id := id, humanLabel := "Comment " + id + " by /u/" + author, tsCreated := created,
        parentUserName := author, parentPostID := linkID, parentPostTitle := slug,
        parentSubreddit := subreddit, comment := text, link := "https://www.reddit.com" + permalink)))
  {
    var permalink := CommentPermalink(subreddit, post, slug, id);
    var f := map["id" := Str(id), "created" := Num(created), "permalink" := Str(permalink), "link_id" := Str(linkID),
                 "author" := Str(author), "body" := Str(text), "subreddit" := Str(subreddit)];
    var d := RedditListing(f);
    assert f["id"] == Str(id) && f["created"] == Num(created) && f["permalink"] == Str(permalink);
    assert f["link_id"] == Str(linkID) && f["author"] == Str(author);
    assert f["body"] == Str(text) && f["subreddit"] == Str(subreddit);
    assert "author_fullname" !in f;
    SearchListing(f, "id");
    SearchListing(f, "created");
    SearchListing(f, "permalink");
    SearchListing(f, "link_id");
    SearchListing(f, "author");
    SearchListing(f, "author_fullname");
    SearchListing(f, "body");
    SearchListing(f, "subreddit");
    ParentPostTitleIsSlug(subreddit, post, slug, id);
    CommentFromFields(d, id, created, permalink, linkID, slug, author, text, subreddit);
  }

  /** The comment handler on a document whose fields are known. */
  lemma {:induction false} CommentFromFields(d: Json, id: string, created: int, permalink: string, linkID: string, slug: string,
                          author: string, text: string, subreddit: string)
    requires Search(d, Thing("id")) == Str(id) && Search(d, Thing("created")) == Num(created)
    requires Search(d, Thing("permalink")) == Str(permalink) && Search(d, Thing("link_id")) == Str(linkID)
    requires Search(d, Thing("author")) == Str(author) && Search(d, Thing("author_fullname")) == Null
    requires Search(d, Thing("body")) == Str(text) && Search(d, Thing("subreddit")) == Str(subreddit)
    requires ParentPostTitle(permalink) == Ok(slug)
    ensures HandleRedditCommentMetadata(Success(d))
      == Ok(MetricMetadataPayload(id, RedditComment, Blank.(
        id := id, humanLabel := "Comment " + id + " by /u/" + author, tsCreated := created,
        parentUserName := author, parentPostID := linkID, parentPostTitle := slug,
        parentSubreddit := subreddit, comment := text, link := "https://www.reddit.com" + permalink)))
  {
  }

  /** A Twitch Helix response whose first data element has `fields`. */
  function HelixResponse(fields: map<string, Json>): Json
  {
    Obj(map["data" := Arr([Obj(fields)])])
  }

  /** A Twitch user lookup yields the login-keyed record with its twitch.tv link. */
  lemma {:induction false} TwitchUserRoundTrip(userID: string, login: string, displayName: string, kind: string)
    ensures HandleTwitchUserMetadata(Success(HelixResponse(map[
        "id" := Str(userID), "login" := Str(login), "display_name" := Str(displayName)])), kind)
      == Ok(MetricMetadataPayload(login, kind, Blank.(
        id := login, humanLabel := displayName, owner := login, link := "https://twitch.tv/" + login,
        displayName := displayName, userID := userID)))
  {
    var d := HelixResponse(map["id" := Str(userID), "login" := Str(login), "display_name" := Str(displayName)]);
    assert Search(d, Helix("id")) == Str(userID);
    assert Search(d, Helix("login")) == Str(login);
    assert Search(d, Helix("display_name")) == Str(displayName);
  }

  /** A Reddit user lookup yields the name-keyed record with UserID "t2_" + id. */
  lemma {:induction false} RedditUserRoundTrip(name: string, id: string, created: int, desc: string, nsfw: bool, kind: string)
    ensures HandleRedditUserMetadata(Success(Obj(map["data" := Obj(map[
        "name" := Str(name), "id" := Str(id), "created" := Num(created),
        "subreddit" := Obj(map["public_description" := Str(desc), "over_18" := Bool(nsfw)])])])), kind)
      == Ok(MetricMetadataPayload(name, kind, Blank.(
        id := name, humanLabel := name, link := "https://www.reddit.com/user/" + name, description := desc,
        tsCreated := created, userID := "t2_" + id, tags := Some(NsfwTags(nsfw)))))
  {
    var sub := Obj(map["public_description" := Str(desc), "over_18" := Bool(nsfw)]);
    var d := Obj(map["data" := Obj(map["name" := Str(name), "id" := Str(id), "created" := Num(created),
                                       "subreddit" := sub])]);
    assert Search(d, About("name")) == Str(name);
    assert Search(d, About("id")) == Str(id);
    assert Search(d, About("created")) == Num(created);
    assert Search(d, [Key("data"), Key("subreddit"), Key("public_description")]) == Str(desc);
    assert Search(d, [Key("data"), Key("subreddit"), Key("over_18")]) == Bool(nsfw);
  }

  /** A YouTube video whose publishedAt does not parse is rejected, not retried. */
  lemma {:induction false} YouTubeBadTimestampRejected(id: string, title: string, published: string,
                                    parseTime: string -> Result<int, string>)
    requires parseTime(published).Failure?
    ensures HandleYouTubeVideoMetadata(Success(Obj(map["items" := Arr([Obj(map[
        "id" := Str(id),
        "snippet" := Obj(map["title" := Str(title), "publishedAt" := Str(published)])])])])), parseTime)
      == Fail("error parsing publishedAt: " + parseTime(published).error, true)
  {
    var snippet := Obj(map["title" := Str(title), "publishedAt" := Str(published)]);
    var d := Obj(map["items" := Arr([Obj(map["id" := Str(id), "snippet" := snippet])])]);
    assert Search(d, Item("id")) == Str(id);
    assert Search(d, Snippet("title")) == Str(title);
    assert Search(d, Snippet("publishedAt")) == Str(published);
  }
}
