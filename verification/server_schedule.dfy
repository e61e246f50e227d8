/**
 * The server's schedule endpoints (server/handlers_schedule.go): listing
 * schedules, creating the fast YouTube-video schedule, and pausing one. The
 * Temporal schedule client is represented by its inputs and outputs: the
 * steps the list iterator yields, and the outcome of a create or a pause.
 */
module ServerSchedule {
  import opened Wrappers
  import opened Text
  import opened Kinds
  import opened Http
  import opened ScheduleSpecs
  import opened BasicHandlers

  // ---------------------------------------------------------------------------
  // handleGetSchedule
  // ---------------------------------------------------------------------------

  /**
   * handleGetSchedule: `list` is the iterator the client returns (or its
   * error), given as the steps it yields before it is exhausted. Entries are
   * collected in order until the first error, which ends the listing quietly.
   */
  method HandleGetSchedule(list: Result<seq<ListStep>, string>) returns (resp: Response<seq<ScheduleEntry>>)
    ensures list.Failure? ==> resp == WriteBadRequestError(list.error)
    ensures list.Success? ==> resp == Response(StatusOK, Value(Collected(list.value)))
  {
    if list.Failure? {
      return WriteBadRequestError(list.error);
    }
    var steps := list.value;
    var res: seq<ScheduleEntry> := [];
    var i := 0;
    while i < |steps|
      invariant 0 <= i <= |steps| && |res| == i
      invariant forall k :: 0 <= k < i ==> steps[k] == Item(res[k])
    {
      if steps[i] == IterError {
        CollectedUnique(steps, res);
        return Response(StatusOK, Value(res));
      }
      res := res + [steps[i].entry];
      i := i + 1;
    }
    CollectedUnique(steps, res);
    return Response(StatusOK, Value(res));
  }

  // ---------------------------------------------------------------------------
  // handleCreateSchedule
  // ---------------------------------------------------------------------------

  /** The body of a create request. */
  datatype GenericSchedulePayload = GenericSchedulePayload(id: string, kind: string)

  /** The workflow a schedule starts: its ID, task queue, kind and serialised request. */
  datatype ScheduleAction = ScheduleAction(id: string, taskQueue: string, requestKind: string, serial: seq<byte>)

  /** What the server asks the schedule client to create. */
  datatype ScheduleCreate = ScheduleCreate(id: string, spec: ScheduleSpec, action: ScheduleAction)

  /** How creating a schedule can fail. */
  datatype CreateError = AlreadyRunning | ServiceError(msg: string) | OtherError(msg: string)

  /** The text of a create error. */
  function CreateErrorText(e: CreateError): string
  {
    match e
    case AlreadyRunning => "schedule with this ID is already registered"
    case ServiceError(m) => m
    case OtherError(m) => m
  }

  /** The only kind a schedule can be created for here. */
  const ScheduleKindYouTubeVideo := "youtube.video"

  /** The YouTube Data API request for one video, authorised both by key and by bearer header. */
  function VideoRequest(id: string, env: string -> string): (r: HttpRequest)
    ensures r.url.query == map["part" := ["snippet,contentDetails,statistics"], "key" := [env("YOUTUBE_API_KEY")], "id" := [id]]
    ensures r.headers == map["Authorization" := ["Bearer " + env("YOUTUBE_API_KEY")], "Accept" := ["application/json"]]
  {
    var r := NewRequest("GET", "https", "youtube.googleapis.com", "/youtube/v3/videos");
    var r := SetQuery(r, "part", "snippet,contentDetails,statistics");
    var r := SetQuery(r, "key", env("YOUTUBE_API_KEY"));
    var r := SetQuery(r, "id", id);
    var auth := "Bearer " + env("YOUTUBE_API_KEY");
    assert [] + [auth] == [auth] && [] + ["application/json"] == ["application/json"];
    var r := AddHeader(r, "Authorization", auth);
    assert r.headers == map["Authorization" := [auth]];
    AddHeader(r, "Accept", "application/json")
  }

  /** Every 5 seconds: seconds 0..59 by 5, every minute, every hour. */
  const EveryFiveSeconds: ScheduleSpec :=
    ScheduleSpec([CalendarSpec([ScheduleRange(0, 59, 5)], [ScheduleRange(0, 59, 0)], [ScheduleRange(0, 23, 0)],
                               "Every 5 seconds.")],
                 0, ZeroTimeUnix, ZeroTimeUnix)

  /** The fast schedule fires at seconds 0, 5, ..., 55 of every minute of every hour. */
  lemma {:induction false} EveryFiveSecondsValues()
    ensures var c := EveryFiveSeconds.calendars[0];
      RangeValues(c.second[0]) == seq(12, i => 5 * i)
      && RangeValues(Normalized(c.minute[0])) == seq(60, i => i)
      && RangeValues(Normalized(c.hour[0])) == seq(24, i => i)
  {
    var c := EveryFiveSeconds.calendars[0];
    assert Normalized(c.minute[0]) == ScheduleRange(0, 59, 1);
    assert Normalized(c.hour[0]) == ScheduleRange(0, 23, 1);
    MultiplesRangeValues(1, 60, 59);
    MultiplesRangeValues(1, 24, 23);
    assert c.second[0] == ScheduleRange(0, 59, 5);
    MultiplesRangeValues(5, 12, 59);
  }

  /**
   * handleCreateSchedule. `urlString` is URL.String(), `serialize` writes the
   * request in wire format, `md5` hashes it, and `create` asks the client.
   * The schedule ID is the URL, a space and the hash; the workflow ID is the URL.
   */
  function HandleCreateSchedule(body: Result<string, string>, parse: string -> Result<GenericSchedulePayload, string>,
                                env: string -> string, urlString: Url -> string, serialize: HttpRequest -> seq<byte>,
                                md5: seq<byte> -> seq<byte>, create: ScheduleCreate -> Result<(), CreateError>)
    : (s: Served<ScheduleCreate, ()>)
    ensures body.Failure? ==> s == Served(None, WriteBadRequestError("could not read request body: " + body.error))
    ensures s.query.Some? <==> (body.Success? && parse(body.value).Success?
                                && parse(body.value).value.kind == ScheduleKindYouTubeVideo)
    ensures body.Success? && parse(body.value).Success? && parse(body.value).value.kind != ScheduleKindYouTubeVideo ==>
      s == Served(None, WriteBadRequestError("unsupported ScheduleKind: " + parse(body.value).value.kind))
    ensures s.query.Some? ==>
      var req := VideoRequest(parse(body.value).value.id, env);
      s.query.value == ScheduleCreate(urlString(req.url) + " " + Hex(md5(serialize(req))), EveryFiveSeconds,
                                      ScheduleAction(urlString(req.url), "kaggo", YouTubeVideo, serialize(req)))
    ensures s.query.Some? ==> s.response == match create(s.query.value)
      case Success(_) => Response(StatusOK, Json(Message("ok")))
      case Failure(OtherError(m)) => WriteInternalError(m)
      case Failure(e) => WriteBadRequestError(CreateErrorText(e))
  {
    match body
    case Failure(e) => Served(None, WriteBadRequestError("could not read request body: " + e))
    case Success(text) =>
    match parse(text)
    case Failure(e) => Served(None, WriteBadRequestError("could not parse request body: " + e))
    case Success(payload) =>
    if payload.kind != ScheduleKindYouTubeVideo then
      Served(None, WriteBadRequestError("unsupported ScheduleKind: " + payload.kind))
    else
      var req := VideoRequest(payload.id, env);
      var serial := serialize(req);
      var sid := urlString(req.url) + " " + Hex(md5(serial));
      var c := ScheduleCreate(sid, EveryFiveSeconds, ScheduleAction(urlString(req.url), "kaggo", payload.kind, serial));
      Served(Some(c), match create(c)
        case Success(_) => Response(StatusOK, Json(Message("ok")))
        case Failure(AlreadyRunning) => WriteBadRequestError(CreateErrorText(AlreadyRunning))
        case Failure(ServiceError(m)) => WriteBadRequestError(m)
        case Failure(OtherError(m)) => WriteInternalError(m))
  }

  /** The schedule ID splits back into the request URL and the hash, when the URL has no space. */
  lemma {:induction false} CreateScheduleIDSplits(url: string, digest: seq<byte>)
    requires ' ' !in url
    ensures Split(url + " " + Hex(digest), ' ') == [url, Hex(digest)]
  {
    assert ' ' !in Hex(digest) by {
      assert forall i :: 0 <= i < |Hex(digest)| ==> Hex(digest)[i] in HexDigits;
    }
    SplitCompose(url, Hex(digest), ' ');
    assert url + " " + Hex(digest) == url + [' '] + Hex(digest);
    assert ' ' !in Hex(digest);
  }

  // ---------------------------------------------------------------------------
  // handleUpdateSchedule
  // ---------------------------------------------------------------------------

  /** A pause request: the schedule and the note. */
  datatype Pause = Pause(scheduleID: string, note: string)

  /** handleUpdateSchedule: only action=cancel is understood, and it pauses the schedule. */
  function HandleUpdateSchedule(query: Values, pause: Pause -> Result<(), string>): (s: Served<Pause, ()>)
    ensures s.query.Some? <==> Get(query, "action") == "cancel"
    ensures Get(query, "action") != "cancel" ==>
      s == Served(None, WriteBadRequestError("unsupported action: " + Get(query, "action")))
    ensures s.query.Some? ==> (s.query.value == Pause(Get(query, "schedule_id"), Get(query, "note"))
      && s.response == (if pause(s.query.value).Success? then WriteOK() else WriteBadRequestError(pause(s.query.value).error)))
  {
    var action := Get(query, "action");
    if action != "cancel" then Served(None, WriteBadRequestError("unsupported action: " + action))
    else
      var p := Pause(Get(query, "schedule_id"), Get(query, "note"));
      Served(Some(p), match pause(p)
        case Failure(e) => WriteBadRequestError(e)
        case Success(_) => WriteOK())
  }
}
