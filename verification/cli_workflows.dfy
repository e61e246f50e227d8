/**
 * run_metadata_wf of the older CLI (cmd/workflows.go): which schedule IDs it
 * works on, the payload it sends for each, and how it counts successes.
 */
module CliWorkflows {
  import opened Wrappers
  import opened Text
  import opened ScheduleSpecs
  import opened Api

  /** The ID the command composes for a single id, "as if it came back from the Temporal server". */
  function ComposedID(rk: string, id: string): (s: string)
    ensures |s| == |rk| + 1 + |id| && s[|rk|] == ' '
  {
    rk + " " + id
  }

  /** Splitting the composed ID gives the id back at index 1 when neither part has a space. */
  lemma {:induction false} ComposedIDRoundTrip(rk: string, id: string)
    requires ' ' !in rk && ' ' !in id
    ensures Split(ComposedID(rk, id), ' ') == [rk, id]
  {
    SplitTwo(rk, id, ' ');
  }

  /**
   * The IDs worked on: the listed schedule IDs with --all-ids (or why they
   * could not be fetched), otherwise the one composed ID; with neither an id
   * nor --all-ids the command fails before any request.
   */
  function WorkflowIDs(id: string, rk: string, allIDs: bool, listing: Result<seq<string>, string>)
    : (r: Result<seq<string>, string>)
    ensures id == "" && !allIDs ==> r == Failure("must supply an id or --all-ids")
    ensures allIDs ==> r == listing
    ensures id != "" && !allIDs ==> r == Success([ComposedID(rk, id)])
  {
    if id == "" && !allIDs then Failure("must supply an id or --all-ids")
    else if allIDs then listing
    else Success([ComposedID(rk, id)])
  }

  /** The number of leading IDs that have a space: the loop panics at the next one (id_parts[1]). */
  function Splittable(ids: seq<string>): (n: nat)
    ensures n <= |ids|
    ensures forall k :: 0 <= k < n ==> ' ' in ids[k]
    ensures n < |ids| ==> ' ' !in ids[n]
  {
    if ids == [] || ' ' !in ids[0] then 0 else 1 + Splittable(ids[1..])
  }

  /** Splittable is the length of the longest run of leading IDs with a space. */
  lemma {:induction false} SplittableUnique(ids: seq<string>, n: nat)
    requires n <= |ids| && forall k :: 0 <= k < n ==> ' ' in ids[k]
    requires n < |ids| ==> ' ' !in ids[n]
    ensures Splittable(ids) == n
  {
    var m := Splittable(ids);
    assert m == n;
  }

  /** The metadata payload for one ID: the command's request kind and the ID's second part. */
  function MetadataPayload(rk: string, id: string): (p: GenericScheduleRequestPayload)
    requires ' ' in id
    ensures p.requestKind == rk && ' ' !in p.id
  {
    SplitLength(id, ' ');
    SplitPiecesFree(id, ' ');
    GenericScheduleRequestPayload(rk, Split(id, ' ')[1], ScheduleSpec([], 0, ZeroTimeUnix, ZeroTimeUnix))
  }

  /** The number of IDs whose metadata run answered 200. */
  function Successes(rk: string, ids: seq<string>, run: GenericScheduleRequestPayload -> Result<int, string>): (c: nat)
    requires forall k :: 0 <= k < |ids| ==> ' ' in ids[k]
    ensures c <= |ids|
  {
    if ids == [] then 0
    else
      var last := ids[|ids| - 1];
      Successes(rk, ids[..|ids| - 1], run) + (if run(MetadataPayload(rk, last)) == Success(200) then 1 else 0)
  }

  /** Every run succeeded exactly when the count reaches the number of IDs. */
  lemma {:induction false} SuccessesAll(rk: string, ids: seq<string>, run: GenericScheduleRequestPayload -> Result<int, string>)
    requires forall k :: 0 <= k < |ids| ==> ' ' in ids[k]
    ensures Successes(rk, ids, run) == |ids| <==>
      forall k :: 0 <= k < |ids| ==> run(MetadataPayload(rk, ids[k])) == Success(200)
  {
    if ids != [] {
      var init := ids[..|ids| - 1];
      SuccessesAll(rk, init, run);
      assert forall k :: 0 <= k < |init| ==> init[k] == ids[k];
    }
  }

  /** One more ID adds one success exactly when its run answered 200. */
  lemma {:induction false} SuccessesSnoc(rk: string, ids: seq<string>, i: nat,
                                         run: GenericScheduleRequestPayload -> Result<int, string>)
    requires i < |ids| && forall k :: 0 <= k <= i ==> ' ' in ids[k]
    ensures Successes(rk, ids[..i + 1], run) ==
      Successes(rk, ids[..i], run) + (if run(MetadataPayload(rk, ids[i])) == Success(200) then 1 else 0)
  {
    assert ids[..i + 1][..i] == ids[..i];
  }

  /**
   * The loop of run_metadata_wf: one metadata run per ID, in order, until an
   * ID without a space panics.
   */
  method RunEach(rk: string, ids: seq<string>, run: GenericScheduleRequestPayload -> Result<int, string>)
    returns (sent: seq<GenericScheduleRequestPayload>, successCount: nat, panicked: bool)
    ensures var n := Splittable(ids);
      |sent| == n && (forall k :: 0 <= k < n ==> sent[k] == MetadataPayload(rk, ids[k]))
      && (panicked <==> n < |ids|)
      && (!panicked ==> successCount == Successes(rk, ids, run))
  {
    sent, successCount := [], 0;
    var i := 0;
    while i < |ids|
      invariant 0 <= i <= |ids| && forall k :: 0 <= k < i ==> ' ' in ids[k]
      invariant |sent| == i && forall k :: 0 <= k < i ==> sent[k] == MetadataPayload(rk, ids[k])
      invariant successCount == Successes(rk, ids[..i], run)
    {
      if ' ' !in ids[i] {
        SplittableUnique(ids, i);
        return sent, successCount, true;
      }
      SuccessesSnoc(rk, ids, i, run);
      var p := MetadataPayload(rk, ids[i]);
      sent := sent + [p];
      if run(p) == Success(200) {
        successCount := successCount + 1;
      }
      i := i + 1;
    }
    assert ids[..i] == ids;
    SplittableUnique(ids, i);
    panicked := false;
  }

  /** How run_metadata_wf ends. */
  datatype RunOutcome = Ok | Err(error: string) | Panicked

  /**
   * run_metadata_wf. `run(p)` is the status of the POST to
   * /metadata/run-workflow with payload p (or why it failed); a failure is
   * reported and skipped. The command fails exactly when fewer runs
   * succeeded than there were IDs.
   */
  method RunMetadataWF(id: string, rk: string, allIDs: bool, listing: Result<seq<string>, string>,
                       run: GenericScheduleRequestPayload -> Result<int, string>)
    returns (sent: seq<GenericScheduleRequestPayload>, successCount: nat, o: RunOutcome)
    ensures WorkflowIDs(id, rk, allIDs, listing).Failure? ==>
      sent == [] && o == Err(WorkflowIDs(id, rk, allIDs, listing).error)
    ensures WorkflowIDs(id, rk, allIDs, listing).Success? ==>
      var ids := WorkflowIDs(id, rk, allIDs, listing).value;
      var n := Splittable(ids);
      |sent| == n && (forall k :: 0 <= k < n ==> sent[k] == MetadataPayload(rk, ids[k]))
      && (o == Panicked <==> n < |ids|)
      && (o != Panicked ==>
            successCount == Successes(rk, ids, run)
            && (o == Ok <==> successCount == |ids|)
            && (o != Ok ==> o == Err("success count " + Itoa(successCount) + " / " + Itoa(|ids|))))
  {
    sent, successCount := [], 0;
    var idsOr := WorkflowIDs(id, rk, allIDs, listing);
    if idsOr.Failure? {
      return sent, successCount, Err(idsOr.error);
    }
    var ids := idsOr.value;
    var panicked;
    sent, successCount, panicked := RunEach(rk, ids, run);
    if panicked {
      return sent, successCount, Panicked;
    }
    o := if successCount != |ids| then Err("success count " + Itoa(successCount) + " / " + Itoa(|ids|)) else Ok;
  }
}
