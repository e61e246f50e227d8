/**
 * The dashboard script server/static/js/d3.js: fetchAPI fetches a Reddit
 * user's karma series and the user's posts, keeps the link-karma records
 * and replaces their `bucket` strings by dates in place, reshapes the posts,
 * then appends the plot and hides the loading indicator. JavaScript values
 * are modelled as a datatype; a TypeError (reading a property of null or
 * undefined) aborts fetchAPI. d3.isoParse is the parameter `isoParse`.
 */
module Dashboard {
  import opened Wrappers
  import opened Kinds
  import opened Http
  import opened BasicHandlers
  import opened TimeSeries
  import opened ServerMetadata

  /** A JavaScript value as the script sees it; a Date holds milliseconds since the epoch. */
  datatype JsValue =
    | Undefined
    | Null
    | Bool(b: bool)
    | Num(n: int)
    | Str(s: string)
    | Date(t: int)
    | Arr(items: seq<JsValue>)
    | Obj(fields: map<string, JsValue>)

  type Fields = map<string, JsValue>

  const TypeError: string := "TypeError"
  const LinkKarma: string := "reddit.user.link-karma"

  /** A field of an object; a missing field reads as undefined. */
  function Field(m: Fields, key: string): JsValue
  {
    if key in m then m[key] else Undefined
  }

  /** Property access `v[key]`: a TypeError on null and undefined, undefined on other non-objects. */
  function Prop(v: JsValue, key: string): (r: Result<JsValue, string>)
    ensures r.Failure? <==> v == Null || v == Undefined
    ensures r.Failure? ==> r.error == TypeError
    ensures v.Obj? ==> r == Success(Field(v.fields, key))
  {
    match v
    case Undefined => Failure(TypeError)
    case Null => Failure(TypeError)
    case Obj(m) => Success(Field(m, key))
    case _ => Success(Undefined)
  }

  /** d3.isoParse's result: the date, or null when the value does not parse. */
  function Parsed(t: Option<int>): JsValue
  {
    match t
    case None => Null
    case Some(ms) => Date(ms)
  }

  // ---------------------------------------------------------------------------
  // The karma records
  // ---------------------------------------------------------------------------

  /** A record the filter keeps: an object whose metric is exactly the link-karma string. */
  predicate IsLinkKarma(v: JsValue)
  {
    v.Obj? && Field(v.fields, "metric") == Str(LinkKarma)
  }

  /** The filter over the karma array: the kept records' fields, or the TypeError a null record raises. */
  function FilterLinkKarma(ds: seq<JsValue>): (r: Result<seq<Fields>, string>)
    ensures r.Failure? ==> r.error == TypeError
    ensures ds == [] ==> r == Success([])
  {
    if ds == [] then Success([])
    else
      var last := ds[|ds| - 1];
      match FilterLinkKarma(ds[..|ds| - 1])
      case Failure(e) => Failure(e)
      case Success(kept) =>
        if last == Null || last == Undefined then Failure(TypeError)
        else if IsLinkKarma(last) then Success(kept + [last.fields])
        else Success(kept)
  }

  /** The filter fails exactly when some record is null or undefined. */
  lemma {:induction false} FilterLinkKarmaFails(ds: seq<JsValue>)
    ensures FilterLinkKarma(ds).Failure? <==> exists i :: 0 <= i < |ds| && ds[i] in {Null, Undefined}
  {
    if ds != [] {
      var init := ds[..|ds| - 1];
      FilterLinkKarmaFails(init);
      assert forall i :: 0 <= i < |init| ==> init[i] == ds[i];
    }
  }

  /**
   * The filter keeps exactly the link-karma records: every record kept is one
   * of them, every one of them is kept, and no more are kept than given.
   */
  lemma {:induction false} FilterLinkKarmaExact(ds: seq<JsValue>)
    requires FilterLinkKarma(ds).Success?
    ensures forall m :: m in FilterLinkKarma(ds).value <==> Obj(m) in ds && IsLinkKarma(Obj(m))
    ensures |FilterLinkKarma(ds).value| <= |ds|
  {
    if ds != [] {
      var init := ds[..|ds| - 1];
      FilterLinkKarmaExact(init);
      assert ds == init + [ds[|ds| - 1]];
    }
  }

  /** The filter keeps order: filtering a concatenation concatenates the filtered parts. */
  lemma {:induction false} FilterLinkKarmaAppend(a: seq<JsValue>, b: seq<JsValue>)
    requires FilterLinkKarma(a).Success? && FilterLinkKarma(b).Success?
    ensures FilterLinkKarma(a + b) == Success(FilterLinkKarma(a).value + FilterLinkKarma(b).value)
    decreases |b|
  {
    if b == [] {
      assert a + b == a;
      assert FilterLinkKarma(b).value == [];
      assert FilterLinkKarma(a).value + FilterLinkKarma(b).value == FilterLinkKarma(a).value;
    } else {
      var init := b[..|b| - 1];
      assert (a + b)[..|a + b| - 1] == a + init;
      assert FilterLinkKarma(init).Success?;
      FilterLinkKarmaAppend(a, init);
      var last := b[|b| - 1];
      assert (a + b)[|a + b| - 1] == last;
      var fa, fi := FilterLinkKarma(a).value, FilterLinkKarma(init).value;
      if IsLinkKarma(last) {
        assert fa + fi + [last.fields] == fa + (fi + [last.fields]);
      }
    }
  }

  /** The in-place update of one kept record: `bucket` becomes the parsed date, nothing else changes. */
  function ParseBucket(m: Fields, isoParse: JsValue -> Option<int>): (r: Fields)
    ensures r.Keys == m.Keys + {"bucket"}
    ensures r["bucket"] == Parsed(isoParse(Field(m, "bucket")))
    ensures forall k :: k in m && k != "bucket" ==> r[k] == m[k]
  {
    m["bucket" := Parsed(isoParse(Field(m, "bucket")))]
  }

  /** What the karma array holds once every kept record has been updated. */
  function ParsedKarma(kept: seq<Fields>, isoParse: JsValue -> Option<int>): (r: seq<Fields>)
    ensures |r| == |kept|
    ensures forall i :: 0 <= i < |kept| ==> r[i] == ParseBucket(kept[i], isoParse)
  {
    seq(|kept|, i requires 0 <= i < |kept| => ParseBucket(kept[i], isoParse))
  }

  /** The karma `.map`: each kept record has its bucket replaced, in place. */
  method ParseBuckets(karma: array<Fields>, isoParse: JsValue -> Option<int>)
    modifies karma
    ensures karma[..] == ParsedKarma(old(karma[..]), isoParse)
  {
    for i := 0 to karma.Length
      invariant forall k :: 0 <= k < i ==> karma[k] == ParseBucket(old(karma[k]), isoParse)
      invariant forall k :: i <= k < karma.Length ==> karma[k] == old(karma[k])
    {
      karma[i] := ParseBucket(karma[i], isoParse);
    }
  }

  // ---------------------------------------------------------------------------
  // The posts
  // ---------------------------------------------------------------------------

  /** One post reshaped for the plot: its creation date, title and link, all read from `data`. */
  function PostOf(d: JsValue, isoParse: JsValue -> Option<int>): (r: Result<JsValue, string>)
    ensures r.Failure? <==> d in {Null, Undefined} || Prop(d, "data").value in {Null, Undefined}
  {
    match Prop(d, "data")
    case Failure(e) => Failure(e)
    case Success(data) =>
      if data == Null || data == Undefined then Failure(TypeError)
      else
        var ts, title, link := Prop(data, "ts_created").value, Prop(data, "title").value, Prop(data, "link").value;
        Success(Obj(map["ts_created" := Parsed(isoParse(ts)), "title" := title, "link" := link]))
  }

  /** The posts `.map`: one reshaped post per post, in order, or the first TypeError. */
  function PostsOf(ds: seq<JsValue>, isoParse: JsValue -> Option<int>): (r: Result<seq<JsValue>, string>)
    ensures r.Failure? <==> exists i :: 0 <= i < |ds| && PostOf(ds[i], isoParse).Failure?
    ensures r.Success? ==> |r.value| == |ds| && forall i :: 0 <= i < |ds| ==> r.value[i] == PostOf(ds[i], isoParse).value
    ensures ds == [] ==> r == Success([])
  {
    if ds == [] then Success([])
    else
      var init := ds[..|ds| - 1];
      assert forall i :: 0 <= i < |init| ==> init[i] == ds[i];
      match PostsOf(init, isoParse)
      case Failure(e) => Failure(e)
      case Success(ps) =>
        match PostOf(ds[|ds| - 1], isoParse)
        case Failure(e) => Failure(e)
        case Success(p) => Success(ps + [p])
  }

  /** A post whose data object has the three fields comes out with exactly those values. */
  lemma {:induction false} PostOfFields(data: Fields, rest: Fields, isoParse: JsValue -> Option<int>)
    requires "ts_created" in data && "title" in data && "link" in data
    ensures PostOf(Obj(rest["data" := Obj(data)]), isoParse)
         == Success(Obj(map["ts_created" := Parsed(isoParse(data["ts_created"])),
                            "title" := data["title"], "link" := data["link"]]))
  {
  }

  // ---------------------------------------------------------------------------
  // fetchAPI
  // ---------------------------------------------------------------------------

  /** What fetchAPI does that can be seen: its requests, the plot it appends, the loading toggle. */
  datatype Effect =
    | Fetch(url: string, query: Values, authorization: string)
    | AppendPlot(karma: seq<Fields>, posts: seq<JsValue>)
    | ToggleLoading

  /** The query both requests carry: request_kind=reddit.user and id. */
  function DashboardQuery(id: string): (q: Values)
    ensures q.Keys == {"request_kind", "id"}
    ensures Get(q, "request_kind") == RedditUser && q["id"] == [id]
  {
    map["request_kind" := [RedditUser], "id" := [id]]
  }

  /** new Headers({Authorization: token}): a missing stored token is sent as the text "null". */
  function Authorization(token: Option<string>): string
  {
    match token
    case None => "null"
    case Some(t) => t
  }

  /**
   * fetchAPI. `karmaBody` and `postBody` are what the two d3.json calls
   * resolve to, or why they reject. The requests are made one after the
   * other, and any failure ends the function before the plot is appended.
   */
  method FetchAPI(endpoint: string, id: string, token: Option<string>, karmaBody: Result<seq<JsValue>, string>,
                  postBody: Result<seq<JsValue>, string>, isoParse: JsValue -> Option<int>)
    returns (effects: seq<Effect>)
    ensures |effects| >= 1
    ensures effects[0] == Fetch(endpoint + "/timeseries/bucketed", DashboardQuery(id), Authorization(token))
    ensures karmaBody.Failure? ==> |effects| == 1
    ensures karmaBody.Success? ==>
      (|effects| >= 2 && effects[1] == Fetch(endpoint + "/metadata/children", DashboardQuery(id), Authorization(token)))
    ensures ToggleLoading in effects <==> (karmaBody.Success? && postBody.Success?
      && FilterLinkKarma(karmaBody.value).Success? && PostsOf(postBody.value, isoParse).Success?)
    ensures ToggleLoading in effects ==>
      (|effects| == 4
       && effects[2] == AppendPlot(ParsedKarma(FilterLinkKarma(karmaBody.value).value, isoParse),
                                   PostsOf(postBody.value, isoParse).value)
       && effects[3] == ToggleLoading)
    ensures ToggleLoading !in effects ==> |effects| <= 2
  {
    var auth := Authorization(token);
    effects := [Fetch(endpoint + "/timeseries/bucketed", DashboardQuery(id), auth)];
    if karmaBody.Failure? {
      return;
    }
    effects := effects + [Fetch(endpoint + "/metadata/children", DashboardQuery(id), auth)];
    if postBody.Failure? {
      return;
    }
    var kept := FilterLinkKarma(karmaBody.value);
    if kept.Failure? {
      return;
    }
    var karma := new Fields[|kept.value|](i requires 0 <= i < |kept.value| => kept.value[i]);
    assert karma[..] == kept.value;
    ParseBuckets(karma, isoParse);
    var posts := PostsOf(postBody.value, isoParse);
    if posts.Failure? {
      return;
    }
    effects := effects + [AppendPlot(karma[..], posts.value), ToggleLoading];
  }

  /**
   * The karma request asks the bucketed endpoint for a Reddit user, a kind
   * that endpoint does not serve: the server answers 400 and runs no query,
   * so the karma fetch rejects and the plot is never drawn.
   */
  lemma {:induction false} DashboardKarmaQueryUnsupported<R>(id: string, now: int, run: BucketQuery -> Result<seq<R>, string>)
    ensures HandleGetTimeSeriesByIDsBucketed(DashboardQuery(id), now, run)
         == Served(None, WriteBadRequestError("unsupported request kind: " + RedditUser))
  {
  }

  /** The posts request asks for the user's posts, by the user's id. */
  lemma {:induction false} DashboardPostsQuery<R>(id: string, run: ChildrenQuery -> Result<Option<R>, string>)
    requires id != ""
    ensures HandleGetChildrenMetadata(DashboardQuery(id), run).query == Some(ChildrenQuery(id, RedditUser, RedditPost))
  {
  }
}
