/**
 * The YouTube listener's subscription activity
 * (temporal/v19700101/listener_youtube.go): one WebSub subscription request
 * per channel (section 5.1 of W3C WebSub), with the channels whose request
 * failed collected and reported together. `hub` stands for posting a form
 * to the hub and returns the hub's reply or a transport error.
 */
module ListenerYouTube {
  import opened Wrappers
  import opened Text
  import opened Http

  const HubUrl: string := "https://pubsubhubbub.appspot.com"
  const FeedUrl: string := "https://www.youtube.com/xml/feeds/videos.xml"
  const StatusAccepted: int := 202

  /** The subscription form for one channel; `endpoint` is the service's public address. */
  function WebSubForm(endpoint: string, id: string): (form: Values)
    ensures form.Keys == {"hub.callback", "hub.mode", "hub.topic"}
    ensures form["hub.mode"] == ["subscribe"]
    ensures form["hub.topic"] == [FeedUrl + "?channel_id=" + id]
    ensures form["hub.callback"] == [endpoint + "/notification/youtube/websub"]
  {
    var data := Set(map[], "hub.callback", endpoint + "/notification/youtube/websub");
    var data := Set(data, "hub.mode", "subscribe");
    Set(data, "hub.topic", FeedUrl + "?channel_id=" + id)
  }

  /** webSubSub: None when the hub accepted the subscription, else the error. */
  function WebSubSub(endpoint: string, id: string, hub: Values -> Result<Reply, string>): (err: Option<string>)
    ensures err.None? <==> hub(WebSubForm(endpoint, id)).Success? && hub(WebSubForm(endpoint, id)).value.status == StatusAccepted
    ensures hub(WebSubForm(endpoint, id)).Failure? ==> err == Some(hub(WebSubForm(endpoint, id)).error)
  {
    match hub(WebSubForm(endpoint, id))
    case Failure(e) => Some(e)
    case Success(rep) =>
      if rep.status != StatusAccepted then Some("bad response (" + Itoa(rep.status) + "): " + rep.body)
      else None
  }

  /** The channels whose subscription fails, in input order. */
  function FailingIDs(ids: seq<string>, endpoint: string, hub: Values -> Result<Reply, string>): (f: seq<string>)
  {
    if ids == [] then []
    else
      var rest := FailingIDs(ids[..|ids| - 1], endpoint, hub);
      if WebSubSub(endpoint, ids[|ids| - 1], hub).Some? then rest + [ids[|ids| - 1]] else rest
  }

  /** Go's %s of a []string: the elements separated by spaces, in brackets. */
  function FormatList(xs: seq<string>): string
  {
    "[" + Join(xs, ' ') + "]"
  }

  /**
   * Subscribe: every channel is attempted whatever happened to the ones
   * before it; the error, if any, names every channel that failed.
   */
  method Subscribe(ids: seq<string>, endpoint: string, hub: Values -> Result<Reply, string>)
    returns (errIDs: seq<string>, err: Option<string>)
    ensures errIDs == FailingIDs(ids, endpoint, hub)
    ensures err.None? <==> errIDs == []
    ensures err.Some? ==> err.value == "could not subscribe to the following IDs: " + FormatList(errIDs)
  {
    errIDs := [];
    for i := 0 to |ids|
      invariant errIDs == FailingIDs(ids[..i], endpoint, hub)
    {
      assert ids[..i + 1][..i] == ids[..i];
      if WebSubSub(endpoint, ids[i], hub).Some? {
        errIDs := errIDs + [ids[i]];
      }
    }
    assert ids[..|ids|] == ids;
    if |errIDs| > 0 {
      err := Some("could not subscribe to the following IDs: " + FormatList(errIDs));
    } else {
      err := None;
    }
  }

  /** A channel is reported exactly when it is in the input and its subscription fails. */
  lemma {:induction false} FailingIDsExact(ids: seq<string>, endpoint: string, hub: Values -> Result<Reply, string>)
    ensures forall x :: x in FailingIDs(ids, endpoint, hub) <==> (x in ids && WebSubSub(endpoint, x, hub).Some?)
    ensures |FailingIDs(ids, endpoint, hub)| <= |ids|
  {
    if ids != [] {
      var init := ids[..|ids| - 1];
      FailingIDsExact(init, endpoint, hub);
      assert ids == init + [ids[|ids| - 1]];
    }
  }

  /** The reported channels keep the input order: they are the input with the succeeding ones removed. */
  lemma {:induction false} FailingIDsSubsequence(ids: seq<string>, endpoint: string, hub: Values -> Result<Reply, string>)
    ensures IsSubsequence(FailingIDs(ids, endpoint, hub), ids)
  {
    if ids != [] {
      var init := ids[..|ids| - 1];
      FailingIDsSubsequence(init, endpoint, hub);
      SubsequenceExtend(FailingIDs(init, endpoint, hub), init, ids[|ids| - 1]);
      assert ids == init + [ids[|ids| - 1]];
    }
  }

  /** `xs` is `ys` with some elements removed, the rest in order. */
  predicate IsSubsequence(xs: seq<string>, ys: seq<string>)
    decreases |ys|
  {
    if xs == [] then true
    else if ys == [] then false
    else if xs[|xs| - 1] == ys[|ys| - 1] then IsSubsequence(xs[..|xs| - 1], ys[..|ys| - 1])
    else IsSubsequence(xs, ys[..|ys| - 1])
  }

  /** Adding the same element to both ends keeps a subsequence. */
  lemma {:induction false} SubsequenceExtend(xs: seq<string>, ys: seq<string>, y: string)
    requires IsSubsequence(xs, ys)
    ensures IsSubsequence(xs + [y], ys + [y])
    ensures IsSubsequence(xs, ys + [y])
  {
    assert (xs + [y])[..|xs|] == xs;
    assert (ys + [y])[..|ys|] == ys;
    SubsequenceAppendRight(xs, ys, y);
  }

  /** A subsequence of `ys` is a subsequence of `ys` with one more element at the end. */
  lemma {:induction false} SubsequenceAppendRight(xs: seq<string>, ys: seq<string>, y: string)
    requires IsSubsequence(xs, ys)
    ensures IsSubsequence(xs, ys + [y])
    decreases |ys|, 1
  {
    assert (ys + [y])[..|ys|] == ys;
    if xs != [] && xs[|xs| - 1] == y {
      SubsequenceDropLast(xs, ys);
    }
  }

  /** Dropping the last element of a subsequence keeps a subsequence. */
  lemma {:induction false} SubsequenceDropLast(xs: seq<string>, ys: seq<string>)
    requires xs != [] && IsSubsequence(xs, ys)
    ensures IsSubsequence(xs[..|xs| - 1], ys)
    decreases |ys|, 0
  {
    var ys' := ys[..|ys| - 1];
    assert ys == ys' + [ys[|ys| - 1]];
    if xs[|xs| - 1] == ys[|ys| - 1] {
      SubsequenceAppendRight(xs[..|xs| - 1], ys', ys[|ys| - 1]);
    } else {
      SubsequenceDropLast(xs, ys');
      SubsequenceAppendRight(xs[..|xs| - 1], ys', ys[|ys| - 1]);
    }
  }

  /** With every subscription accepted, Subscribe reports nothing. */
  lemma {:induction false} FailingIDsNone(ids: seq<string>, endpoint: string, hub: Values -> Result<Reply, string>)
    requires forall k :: 0 <= k < |ids| ==> WebSubSub(endpoint, ids[k], hub).None?
    ensures FailingIDs(ids, endpoint, hub) == []
  {
    if ids != [] {
      var init := ids[..|ids| - 1];
      assert FailingIDs(init, endpoint, hub) == [] by {
        FailingIDsNone(init, endpoint, hub);
      }
      assert WebSubSub(endpoint, ids[|ids| - 1], hub).None?;
    }
  }

  /** With no subscription accepted, Subscribe reports every channel, in order. */
  lemma {:induction false} FailingIDsAll(ids: seq<string>, endpoint: string, hub: Values -> Result<Reply, string>)
    requires forall k :: 0 <= k < |ids| ==> WebSubSub(endpoint, ids[k], hub).Some?
    ensures FailingIDs(ids, endpoint, hub) == ids
  {
    if ids != [] {
      var init := ids[..|ids| - 1];
      assert FailingIDs(init, endpoint, hub) == init by {
        FailingIDsAll(init, endpoint, hub);
      }
      assert WebSubSub(endpoint, ids[|ids| - 1], hub).Some?;
      assert ids == init + [ids[|ids| - 1]];
    }
  }
}
