/**
 * The server's metadata endpoints (server/handlers_metadata.go): the
 * on-demand metadata workflow and how its errors are classified, the
 * parent-to-children table, and the kind check when a listener
 * subscription is added. Database queries and the workflow start are
 * inputs.
 */
module ServerMetadata {
  import opened Wrappers
  import opened Text
  import opened Kinds
  import opened Http
  import opened Api
  import opened BasicHandlers
  import opened ExternalRequests

  // ---------------------------------------------------------------------------
  // handleRunMetadataWF
  // ---------------------------------------------------------------------------

  /** A workflow started to fetch metadata: its ID, the kind and the serialised request. */
  datatype WorkflowStart = WorkflowStart(id: string, requestKind: string, serial: seq<byte>)

  /**
   * handleRunMetadataWF. `body` is the request body as read, `parse` its
   * JSON decoder; makeExternalRequest is called in metadata mode, and
   * `execute` starts the workflow.
   */
  method HandleRunMetadataWF(body: Result<string, string>, parse: string -> Result<GenericScheduleRequestPayload, string>,
                             env: string -> string, base64: string -> string, mds: Result<seq<MetadataRow>, string>,
                             serialize: HttpRequest -> seq<byte>, md5: seq<byte> -> seq<byte>,
                             execute: WorkflowStart -> Result<(), string>)
    returns (started: Option<WorkflowStart>, resp: Response<()>)
    ensures body.Failure? ==> started.None? && resp == WriteBadRequestError("could not read request body: " + body.error)
    ensures body.Success? && parse(body.value).Failure? ==>
      started.None? && resp == WriteBadRequestError("could not parse request body: " + parse(body.value).error)
    ensures body.Success? && parse(body.value).Success? && parse(body.value).value.requestKind !in PolledKinds ==>
      started.None? && resp == WriteBadRequestError(ErrUnsupportedRequestKind + ": " + parse(body.value).value.requestKind)
    ensures started.Some? ==> (body.Success? && parse(body.value).Success?
      && parse(body.value).value.requestKind in PolledKinds
      && started.value.requestKind == parse(body.value).value.requestKind
      && started.value.id == parse(body.value).value.requestKind + " " + parse(body.value).value.id + " metadata")
    ensures body.Success? && parse(body.value).Success? && parse(body.value).value.requestKind in PolledKinds ==>
      var pl := parse(body.value).value;
      var made := Finish(RequestFor(pl.requestKind, pl.id, true, env, base64, Failure("")), pl.requestKind, pl.id, true,
                         serialize, md5);
      made.Success? && started == Some(WorkflowStart(made.value.rid, pl.requestKind, made.value.serial))
    ensures started.Some? ==> resp == (if execute(started.value).Success? then WriteOK() else WriteInternalError(execute(started.value).error))
    ensures resp.status == StatusOK ==> started.Some?
  {
    if body.Failure? {
      return None, WriteBadRequestError("could not read request body: " + body.error);
    }
    var payload := parse(body.value);
    if payload.Failure? {
      return None, WriteBadRequestError("could not parse request body: " + payload.error);
    }
    var rk, id := payload.value.requestKind, payload.value.id;
    var made := MakeExternalRequest(rk, id, true, env, base64, mds, serialize, md5);
    if made.Failure? {
      // In metadata mode no lookup is made, and in this model building and
      // serialising the request cannot fail, so the unsupported kind is the
      // only failure and the 500 branch for other errors is not reached here.
      assert made.error == ErrUnsupportedRequestKind;
      return None, WriteBadRequestError(ErrUnsupportedRequestKind + ": " + rk);
    }
    var w := WorkflowStart(made.value.rid, rk, made.value.serial);
    started := Some(w);
    resp := match execute(w)
      case Failure(e) => WriteInternalError(e)
      case Success(_) => WriteOK();
  }

  // ---------------------------------------------------------------------------
  // handleGetChildrenMetadata
  // ---------------------------------------------------------------------------

  /** The child kind of a parent kind and the metadata field naming the parent. */
  function ChildOf(rk: string): (c: Option<(string, string)>)
    ensures c.Some? <==> rk in {RedditUser, RedditSubreddit, YouTubeChannel}
    ensures rk == RedditUser ==> c == Some((RedditPost, "parent_user_name"))
    ensures rk == RedditSubreddit ==> c == Some((RedditPost, "parent_subreddit"))
    ensures rk == YouTubeChannel ==> c == Some((YouTubeVideo, "parent_channel_id"))
  {
    if rk == RedditUser then Some((RedditPost, "parent_user_name"))
    else if rk == RedditSubreddit then Some((RedditPost, "parent_subreddit"))
    else if rk == YouTubeChannel then Some((YouTubeVideo, "parent_channel_id"))
    else None
  }

  /** A children query: the parent's id, the parent kind and the child kind. */
  datatype ChildrenQuery = ChildrenQuery(id: string, parentRequestKind: string, childRequestKind: string)

  /** handleGetChildrenMetadata: the owner field is looked up but not passed to the query. */
  function HandleGetChildrenMetadata<R>(query: Values, run: ChildrenQuery -> Result<Option<R>, string>)
    : (s: Served<ChildrenQuery, R>)
    ensures Get(query, "request_kind") == "" || Get(query, "id") == "" ==>
      s == Served(None, WriteBadRequestError("must supply request_kind and id"))
    ensures s.query.Some? <==> (Get(query, "request_kind") != "" && Get(query, "id") != ""
                                && ChildOf(Get(query, "request_kind")).Some?)
    ensures s.query.Some? ==>
      (s.query.value == ChildrenQuery(Get(query, "id"), Get(query, "request_kind"),
                                      ChildOf(Get(query, "request_kind")).value.0)
       && s.response == match run(s.query.value)
         case Failure(e) => WriteInternalError(e)
         case Success(None) => WriteEmptyResultError()
         case Success(Some(rows)) => Response(StatusOK, Value(rows)))
    ensures s.query.None? ==> s.response.status == StatusBadRequest
  {
    var rk, id := Get(query, "request_kind"), Get(query, "id");
    if rk == "" || id == "" then Served(None, WriteBadRequestError("must supply request_kind and id"))
    else match ChildOf(rk)
      case None => Served(None, WriteBadRequestError("unsupported request_kind " + rk))
      case Some((childRK, _)) =>
        var q := ChildrenQuery(id, rk, childRK);
        Served(Some(q), match run(q)
          case Failure(e) => WriteInternalError(e)
          case Success(None) => WriteEmptyResultError()
          case Success(Some(rows)) => Response(StatusOK, Value(rows)))
  }

  /** Reddit users and subreddits have posts as children, YouTube channels have videos. */
  lemma {:induction false} ChildrenKinds(rk: string)
    requires ChildOf(rk).Some?
    ensures Supported(ChildOf(rk).value.0) && Supported(rk)
    ensures ChildOf(rk).value.0 == (if rk == YouTubeChannel then YouTubeVideo else RedditPost)
  {
    SupportedCases(rk);
    SupportedCases(ChildOf(rk).value.0);
  }

  // ---------------------------------------------------------------------------
  // handleAddListenerSub
  // ---------------------------------------------------------------------------

  /** The body of a listener-subscription request. */
  datatype AddListenerSubPayload = AddListenerSubPayload(requestKind: string, id: string)

  /** handleAddListenerSub: only YouTube channels can be subscribed to; `insert` stores the channel id. */
  function HandleAddListenerSub(data: Result<AddListenerSubPayload, string>, insert: string -> Result<(), string>)
    : (s: Served<string, ()>)
    ensures data.Failure? ==> s == Served(None, WriteBadRequestError(data.error))
    ensures s.query.Some? <==> data.Success? && data.value.requestKind == YouTubeChannel
    ensures s.query.Some? ==> (s.query.value == data.value.id
      && s.response == (if insert(data.value.id).Success? then WriteOK() else WriteInternalError(insert(data.value.id).error)))
    ensures data.Success? && data.value.requestKind != YouTubeChannel ==>
      s == Served(None, WriteBadRequestError("unsupported request_kind " + data.value.requestKind))
  {
    match data
    case Failure(e) => Served(None, WriteBadRequestError(e))
    case Success(d) =>
      if d.requestKind != YouTubeChannel then Served(None, WriteBadRequestError("unsupported request_kind " + d.requestKind))
      else Served(Some(d.id), match insert(d.id)
        case Failure(e) => WriteInternalError(e)
        case Success(_) => WriteOK())
  }
}
