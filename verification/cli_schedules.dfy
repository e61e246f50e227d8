/**
 * The schedule commands of the older CLI (cmd/schedules.go): its own default
 * schedule spec, dumping the schedule listing to a file, deleting every
 * schedule after a confirmation, and re-creating schedules from a dump.
 * Each HTTP exchange is an input: a reply, or the transport error it failed with.
 */
module CliSchedules {
  import opened Wrappers
  import opened Text
  import opened ScheduleSpecs
  import opened Api

  /** A ScheduleRange literal that sets Start and End and leaves Step at its zero value. */
  function NoStepRange(start: int, end: int): ScheduleRange
  {
    ScheduleRange(start, end, 0)
  }

  /** getDefaultScheduleSpec of the CLI: every minute of every hour, with one minute of jitter. */
  function CliDefaultScheduleSpec(rk: string, id: string): (s: ScheduleSpec)
    ensures |s.calendars| == 1 && s.jitter == 60 * NanosPerSecond
    ensures s.startAt == ZeroTimeUnix && s.endAt == ZeroTimeUnix
  {
    ScheduleSpec(
      [CalendarSpec([NoStepRange(0, 0)], [NoStepRange(0, 59)], [NoStepRange(0, 23)], "Every minute")],
      60000000000, ZeroTimeUnix, ZeroTimeUnix)
  }

  /** The spec ignores both arguments. */
  lemma {:induction false} CliDefaultScheduleSpecConstant(rk1: string, id1: string, rk2: string, id2: string)
    ensures CliDefaultScheduleSpec(rk1, id1) == CliDefaultScheduleSpec(rk2, id2)
  {
  }

  /**
   * None of the ranges sets a Step; once Step 0 is read as 1 the spec fires at
   * second 0 of every minute 0..59 of every hour 0..23.
   */
  lemma {:induction false} CliDefaultEveryMinute(rk: string, id: string)
    ensures var c := CliDefaultScheduleSpec(rk, id).calendars[0];
      !Expandable(c.second[0]) && !Expandable(c.minute[0]) && !Expandable(c.hour[0])
      && RangeValues(Normalized(c.second[0])) == [0]
      && RangeValues(Normalized(c.minute[0])) == seq(60, i => i)
      && RangeValues(Normalized(c.hour[0])) == seq(24, i => i)
  {
    var c := CliDefaultScheduleSpec(rk, id).calendars[0];
    assert Normalized(c.minute[0]) == ScheduleRange(0, 59, 1);
    assert RangeValues(ScheduleRange(0, 59, 1)) == seq(60, i => i) by {
      MultiplesRangeValues(1, 60, 59);
    }
    // The hour and second ranges are those of the server's default spec.
    DefaultHours(rk, id);
    DefaultSeconds(rk, id);
  }

  /** A completed HTTP exchange: status code, status line, and the body or the error reading it. */
  datatype Reply = Reply(status: int, statusText: string, body: Result<seq<byte>, string>)

  /** What dump_schedules did: the content it tried to write, if any, and the error it returned, if any. */
  datatype Dump = Dump(written: Option<seq<byte>>, err: Option<string>)

  /**
   * dump_schedules. `reply` is the listing exchange, `write` writes the
   * file. The file is written, with the listing's body unchanged, only after
   * a 200 reply whose body was read; a failed exchange, another status
   * (named by its status line) or an unreadable body is an error and writes
   * nothing, and a failed write is the error returned.
   */
  function DumpSchedules(reply: Result<Reply, string>, write: seq<byte> -> Result<(), string>): (r: Dump)
    ensures r.written.Some? <==> reply.Success? && reply.value.status == 200 && reply.value.body.Success?
    ensures r.written.Some? ==> r.written.value == reply.value.body.value
    ensures r.err.None? <==> r.written.Some? && write(r.written.value).Success?
    ensures reply.Failure? ==> r.err == Some(reply.error)
    ensures reply.Success? && reply.value.status != 200 ==>
      r.err == Some("bad response from server: " + reply.value.statusText)
    ensures reply.Success? && reply.value.status == 200 && reply.value.body.Failure? ==> r.err == Some(reply.value.body.error)
    ensures r.written.Some? && write(r.written.value).Failure? ==> r.err == Some(write(r.written.value).error)
  {
    match reply
    case Failure(e) => Dump(None, Some(e))
    case Success(rep) =>
      if rep.status != 200 then Dump(None, Some("bad response from server: " + rep.statusText))
      else match rep.body
        case Failure(e) => Dump(None, Some(e))
        case Success(b) =>
          Dump(Some(b), match write(b) case Failure(e) => Some(e) case Success(_) => None)
  }

  /** The schedules whose per-item call did not end in a 200. */
  function Failing(ids: seq<string>, send: string -> Result<int, string>): (f: seq<string>)
    ensures |f| <= |ids|
    ensures forall x :: x in f ==> x in ids && send(x) != Success(200)
  {
    if ids == [] then []
    else
      var last := ids[|ids| - 1];
      Failing(ids[..|ids| - 1], send) + (if send(last) == Success(200) then [] else [last])
  }

  /** Every schedule whose call failed is reported. */
  lemma {:induction false} FailingComplete(ids: seq<string>, send: string -> Result<int, string>, x: string)
    requires x in ids && send(x) != Success(200)
    ensures x in Failing(ids, send)
  {
    var init := ids[..|ids| - 1];
    if x != ids[|ids| - 1] {
      var k :| 0 <= k < |ids| && ids[k] == x;
      assert init[k] == x;
      FailingComplete(init, send, x);
    }
  }

  /**
   * delete_all_schedules. `confirmed` is what the prompt returned, `listing`
   * the IDs decoded from a 200 listing (or why it could not be had), and
   * `send(id)` the status of the DELETE carrying schedule_id=id (or why it
   * failed). `deleted` lists the schedule IDs a DELETE was sent for.
   */
  method DeleteAllSchedules(confirmed: Result<bool, string>, listing: Result<seq<string>, string>,
                            send: string -> Result<int, string>)
    returns (deleted: seq<string>, failed: seq<string>, err: Option<string>)
    ensures confirmed != Success(true) ==>
      deleted == [] && failed == [] && err == Some("confirmation failed, aborting")
    ensures confirmed == Success(true) && listing.Failure? ==>
      deleted == [] && failed == [] && err == Some(listing.error)
    ensures confirmed == Success(true) && listing.Success? ==>
      deleted == listing.value && failed == Failing(listing.value, send) && err == None
  {
    deleted, failed := [], [];
    if confirmed != Success(true) {
      return deleted, failed, Some("confirmation failed, aborting");
    }
    if listing.Failure? {
      return deleted, failed, Some(listing.error);
    }
    var ids := listing.value;
    var i := 0;
    while i < |ids|
      invariant 0 <= i <= |ids|
      invariant deleted == ids[..i] && failed == Failing(ids[..i], send)
    {
      assert ids[..i + 1][..i] == ids[..i];
      deleted := deleted + [ids[i]];
      if send(ids[i]) != Success(200) {
        failed := failed + [ids[i]];
      }
      i := i + 1;
    }
    assert ids[..i] == ids;
    err := None;
  }

  /** A schedule creation request sent by load_schedules. */
  datatype UploadRequest = UploadRequest(payload: GenericScheduleRequestPayload, skipMetadata: bool)

  /** The request for one dumped schedule: kind and id are the first two parts of its ID. */
  function LoadRequest(e: ScheduleEntry): (r: UploadRequest)
    requires ' ' in e.id
    ensures r.skipMetadata && r.payload.schedule == e.spec
  {
    SplitLength(e.id, ' ');
    var parts := Split(e.id, ' ');
    UploadRequest(GenericScheduleRequestPayload(parts[0], parts[1], e.spec), true)
  }

  /** A dumped "<kind> <id> <hash>" schedule is re-created under the same kind and id. */
  lemma {:induction false} LoadRequestOfComposed(rk: string, id: string, rest: string, spec: ScheduleSpec)
    requires ' ' !in rk && ' ' !in id
    ensures var e := ScheduleEntry(rk + " " + id + " " + rest, spec);
      ' ' in e.id && LoadRequest(e).payload == GenericScheduleRequestPayload(rk, id, spec)
  {
    SplitLeading(rk, id, rest, ' ');
    assert (rk + " " + id + " " + rest)[|rk|] == ' ';
  }

  /** The number of leading entries whose ID has a space: the loop panics at the next one. */
  function Loadable(es: seq<ScheduleEntry>): (n: nat)
    ensures n <= |es|
    ensures forall k :: 0 <= k < n ==> ' ' in es[k].id
    ensures n < |es| ==> ' ' !in es[n].id
  {
    if es == [] || ' ' !in es[0].id then 0 else 1 + Loadable(es[1..])
  }

  /** Loadable is the length of the longest run of leading entries whose ID has a space. */
  lemma {:induction false} LoadableUnique(es: seq<ScheduleEntry>, n: nat)
    requires n <= |es| && forall k :: 0 <= k < n ==> ' ' in es[k].id
    requires n < |es| ==> ' ' !in es[n].id
    ensures Loadable(es) == n
  {
    var m := Loadable(es);
    assert m == n;
  }

  /** The requests for the first `n` entries, in order. */
  function LoadRequests(es: seq<ScheduleEntry>, n: nat): (rs: seq<UploadRequest>)
    requires n <= |es| && forall k :: 0 <= k < n ==> ' ' in es[k].id
    ensures |rs| == n
  {
    if n == 0 then [] else LoadRequests(es, n - 1) + [LoadRequest(es[n - 1])]
  }

  /** The k-th request sent is the k-th entry's. */
  lemma {:induction false} LoadRequestsAt(es: seq<ScheduleEntry>, n: nat, k: nat)
    requires n <= |es| && forall j :: 0 <= j < n ==> ' ' in es[j].id
    requires k < n
    ensures LoadRequests(es, n)[k] == LoadRequest(es[k])
  {
    if k < n - 1 {
      LoadRequestsAt(es, n - 1, k);
    }
  }

  /** The IDs of the first `n` entries whose creation request was not answered 200, in order. */
  function LoadFailing(es: seq<ScheduleEntry>, n: nat, upload: UploadRequest -> Result<int, string>): (f: seq<string>)
    requires n <= |es| && forall k :: 0 <= k < n ==> ' ' in es[k].id
    ensures |f| <= n
  {
    if n == 0 then []
    else
      var last := es[n - 1];
      LoadFailing(es, n - 1, upload) + (if upload(LoadRequest(last)) == Success(200) then [] else [last.id])
  }

  /** Only entries whose request failed are reported. */
  lemma {:induction false} LoadFailingSound(es: seq<ScheduleEntry>, n: nat, upload: UploadRequest -> Result<int, string>,
                                            x: string)
    requires n <= |es| && forall k :: 0 <= k < n ==> ' ' in es[k].id
    requires x in LoadFailing(es, n, upload)
    ensures exists k :: 0 <= k < n && es[k].id == x && upload(LoadRequest(es[k])) != Success(200)
  {
    if n > 0 {
      if x in LoadFailing(es, n - 1, upload) {
        LoadFailingSound(es, n - 1, upload, x);
      } else {
        assert x == es[n - 1].id && upload(LoadRequest(es[n - 1])) != Success(200);
      }
    }
  }

  /** Every entry whose request failed is reported. */
  lemma {:induction false} LoadFailingComplete(es: seq<ScheduleEntry>, n: nat, upload: UploadRequest -> Result<int, string>,
                                               k: nat)
    requires n <= |es| && forall j :: 0 <= j < n ==> ' ' in es[j].id
    requires k < n && upload(LoadRequest(es[k])) != Success(200)
    ensures es[k].id in LoadFailing(es, n, upload)
  {
    if k < n - 1 {
      LoadFailingComplete(es, n - 1, upload, k);
    }
  }

  /** How load_schedules ends. */
  datatype LoadOutcome = Loaded | Aborted(error: string) | Panicked

  /**
   * load_schedules. `dump` is the decoded file (or why it could not be read or
   * decoded) and `upload(req)` the status of the POST for a request. Each
   * schedule is sent in order; a failure is reported and the loop moves on;
   * the command still succeeds. An ID with no space panics at parts[1].
   */
  method LoadSchedules(dump: Result<seq<ScheduleEntry>, string>, upload: UploadRequest -> Result<int, string>)
    returns (sent: seq<UploadRequest>, failed: seq<string>, o: LoadOutcome)
    ensures dump.Failure? ==> sent == [] && failed == [] && o == Aborted(dump.error)
    ensures dump.Success? ==>
      var es := dump.value;
      var n := Loadable(es);
      sent == LoadRequests(es, n)
      && failed == LoadFailing(es, n, upload)
      && (o == Panicked <==> n < |es|)
      && (o != Panicked ==> o == Loaded)
  {
    sent, failed := [], [];
    if dump.Failure? {
      return sent, failed, Aborted(dump.error);
    }
    var es := dump.value;
    var i := 0;
    while i < |es|
      invariant 0 <= i <= |es| && forall k :: 0 <= k < i ==> ' ' in es[k].id
      invariant sent == LoadRequests(es, i)
      invariant failed == LoadFailing(es, i, upload)
    {
      if ' ' !in es[i].id {
        LoadableUnique(es, i);
        return sent, failed, Panicked;
      }
      var req := LoadRequest(es[i]);
      sent := sent + [req];
      if upload(req) != Success(200) {
        failed := failed + [es[i].id];
      }
      i := i + 1;
    }
    LoadableUnique(es, i);
    o := Loaded;
  }
}
