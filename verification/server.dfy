/**
 * Router set-up in server/server.go: the default Prometheus collectors, the
 * request-counter precondition the router checks before serving, and the
 * normalisation of the comma-separated CORS settings read from the
 * environment. Registering routes, templates and the listener are not part
 * of this model.
 */
module Server {
  import opened Wrappers
  import opened Text

  /** The metric keys handlers rely on. */
  const PromMetricInternalRandom: string := "pm-internal-random"
  const PromMetricHandlerRequestCounter: string := "pm-handler-counter"

  /** A Prometheus collector, by the vector type it was made as. */
  datatype Collector =
    | GaugeVec(name: string, help: string, labels: seq<string>)
    | CounterVec(name: string, help: string, labels: seq<string>)

  /** GetDefaultPromMetrics: the collectors the service is meant to be started with. */
  function GetDefaultPromMetrics(): (m: map<string, Collector>)
    ensures m.Keys == {PromMetricInternalRandom, PromMetricHandlerRequestCounter}
    ensures m[PromMetricInternalRandom].GaugeVec? && m[PromMetricInternalRandom].labels == ["id"]
    ensures m[PromMetricHandlerRequestCounter].CounterVec?
    ensures m[PromMetricHandlerRequestCounter].labels == ["name", "code"]
  {
    map[PromMetricInternalRandom := GaugeVec("internal_random", "A pseudo random metric", ["id"]),
        PromMetricHandlerRequestCounter := CounterVec("request_counter", "Count requests to handler", ["name", "code"])]
  }

  /**
   * getRouter's check of the metrics it is given: the request counter must be
   * present and be a counter vector, or the router is not built.
   */
  function RequestCounter(pms: map<string, Collector>): (r: Result<Collector, string>)
    ensures r.Success? <==> PromMetricHandlerRequestCounter in pms && pms[PromMetricHandlerRequestCounter].CounterVec?
    ensures r.Success? ==> r.value == pms[PromMetricHandlerRequestCounter]
    ensures r.Failure? ==> r.error == "error with prom metric " + PromMetricHandlerRequestCounter
  {
    if PromMetricHandlerRequestCounter in pms && pms[PromMetricHandlerRequestCounter].CounterVec? then
      Success(pms[PromMetricHandlerRequestCounter])
    else
      Failure("error with prom metric " + PromMetricHandlerRequestCounter)
  }

  /** The default collectors pass the router's check, whatever else is added to them. */
  lemma {:induction false} DefaultMetricsBuildRouter(extra: map<string, Collector>)
    ensures RequestCounter(GetDefaultPromMetrics()).Success?
    ensures RequestCounter(extra + GetDefaultPromMetrics()) == RequestCounter(GetDefaultPromMetrics())
  {
  }

  /** What normalizeCORSParams makes of `e`: each comma-separated piece with its spaces removed. */
  function CORSParams(e: string): seq<string>
  {
    var pieces := Split(e, ',');
    seq(|pieces|, i requires 0 <= i < |pieces| => RemoveChar(pieces[i], ' '))
  }

  /**
   * normalizeCORSParams: split on commas, then delete the spaces of each
   * piece in place.
   */
  method NormalizeCORSParams(e: string) returns (params: seq<string>)
    ensures params == CORSParams(e)
    ensures |params| == multiset(e)[','] + 1
    ensures forall i :: 0 <= i < |params| ==> ' ' !in params[i]
    ensures e == "" ==> params == [""]
  {
    params := Split(e, ',');
    SplitLength(e, ',');
    ghost var pieces := params;
    for i := 0 to |params|
      invariant |params| == |pieces|
      invariant forall k :: 0 <= k < i ==> params[k] == RemoveChar(pieces[k], ' ')
      invariant forall k :: i <= k < |params| ==> params[k] == pieces[k]
    {
      params := params[i := RemoveChar(params[i], ' ')];
    }
  }

  /**
   * A setting written as a list with spaces around the commas, such as
   * "GET, POST", gives back the list items without their spaces.
   */
  lemma {:induction false} CORSParamsOfList(items: seq<string>)
    requires |items| >= 1
    requires forall k :: 0 <= k < |items| ==> ',' !in items[k]
    ensures CORSParams(Join(items, ',')) == seq(|items|, k requires 0 <= k < |items| => RemoveChar(items[k], ' '))
  {
    SplitJoin(items, ',');
  }

  /** The pieces never hold a comma either: the split already removed them. */
  lemma {:induction false} CORSParamsCommaFree(e: string)
    ensures forall i :: 0 <= i < |CORSParams(e)| ==> ',' !in CORSParams(e)[i]
  {
    SplitPiecesFree(e, ',');
    var pieces := Split(e, ',');
    forall i | 0 <= i < |pieces|
      ensures ',' !in RemoveChar(pieces[i], ' ')
    {
      RemoveCharKeepsAbsent(pieces[i], ' ', ',');
    }
  }

  /** Deleting one character introduces no other. */
  lemma {:induction false} RemoveCharKeepsAbsent(s: string, c: char, d: char)
    requires d !in s
    ensures d !in RemoveChar(s, c)
  {
    if s != [] {
      RemoveCharKeepsAbsent(s[1..], c, d);
    }
  }
}
