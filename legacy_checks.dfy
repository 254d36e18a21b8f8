/** The standalone `DockerHealthCheck` of `docker_healthcheck.py`: the
    earlier engine with its own threshold table (defaults merged with the
    caller's overrides), an `expected_status` per endpoint, a "slow"
    endpoint classification, optional API and log checks, and no metrics.
    The Docker daemon, the HTTP endpoints and the host disk are not called:
    what they answer is a `LegacyObservations` value. */
module LegacyHealthChecks {
  import opened Common
  import opened Statuses
  import opened Results
  import opened Evaluation

  /** An entry of the `endpoints` argument; `expectedStatus` is `None` when
      the entry has no "expected_status" key. */
  datatype LegacyEndpoint = LegacyEndpoint(url: string, expectedStatus: Option<int>)

  /** The "status" of an endpoint that answered. */
  datatype ReplyState = Fine | Unhealthy | Slow

  /** One entry of `results["endpoints"]`: an answer ("healthy",
      "unhealthy" or "slow"), or a request that raised ("error"). */
  datatype LegacyEntry =
    | Answered(url: string, responseTime: real, statusCode: int, state: ReplyState)
    | Errored(url: string, error: string)

  type LegacyChecks = seq<(string, CheckResult<LegacyEntry>)>

  /** What the collaborators answer during one run. */
  datatype LegacyObservations = LegacyObservations(
    containerStatus: Option<string>,
    stats: Probe<Stats>,
    disk: Fallible<real>,
    apiReplies: seq<HttpReply>,
    logs: Probe<string>,
    restarts: Probe<int>)

  /** The keys every threshold table holds. */
  const RequiredKeys: set<string> := {"cpu_percent", "memory_percent", "disk_percent", "response_time", "restart_count"}

  /** The built-in thresholds. */
  const LegacyDefaults: map<string, real> := map[
    "cpu_percent" := 80.0, "memory_percent" := 85.0, "disk_percent" := 90.0,
    "response_time" := 2.0, "restart_count" := 3.0]

  /** `dict.update`: the overrides win, every other key keeps its value. */
  lemma UpdateSemantics(defaults: map<string, real>, overrides: map<string, real>)
    ensures var merged := defaults + overrides;
            && merged.Keys == defaults.Keys + overrides.Keys
            && (forall k :: k in overrides ==> merged[k] == overrides[k])
            && (forall k :: k in defaults && k !in overrides ==> merged[k] == defaults[k])
  {
  }

  /** How an endpoint that answered is classified: slow when it took longer
      than the limit, whatever its code; otherwise unhealthy when its code is
      not the expected one (200 unless given); otherwise fine. */
  function Classify(e: LegacyEndpoint, code: int, elapsed: real, maxTime: real): (s: ReplyState)
    ensures s == Slow <==> elapsed > maxTime
    ensures s == Unhealthy <==> elapsed <= maxTime && code != e.expectedStatus.GetOr(200)
    ensures s == Fine <==> elapsed <= maxTime && code == e.expectedStatus.GetOr(200)
  {
    var afterCode := if code != e.expectedStatus.GetOr(200) then Unhealthy else Fine;
    if elapsed > maxTime then Slow else afterCode
  }

  function Entry(e: LegacyEndpoint, reply: HttpReply, maxTime: real): (r: LegacyEntry)
    ensures r.url == e.url
    ensures reply.RequestFailed? ==> r == Errored(e.url, reply.error)
    ensures reply.Response? ==>
              r == Answered(e.url, reply.elapsed, reply.statusCode, Classify(e, reply.statusCode, reply.elapsed, maxTime))
  {
    match reply
    case RequestFailed(err) => Errored(e.url, err)
    case Response(code, elapsed, _) => Answered(e.url, elapsed, code, Classify(e, code, elapsed, maxTime))
  }

  /** The aggregate status one entry writes, if any: a fine answer writes
      nothing, an unhealthy or slow one warning, a failed request error. */
  function Written(entry: LegacyEntry): Option<Status>
  {
    match entry
    case Errored(_, _) => Some(Error)
    case Answered(_, _, _, state) => if state == Fine then None else Some(Warning)
  }

  /** One entry per endpoint, in order. */
  function Entries(endpoints: seq<LegacyEndpoint>, replies: seq<HttpReply>, maxTime: real): (r: seq<LegacyEntry>)
    requires |endpoints| == |replies|
    ensures |r| == |endpoints|
    ensures forall i :: 0 <= i < |r| ==> r[i] == Entry(endpoints[i], replies[i], maxTime)
  {
    if endpoints == [] then []
    else
      var n := |endpoints| - 1;
      Entries(endpoints[..n], replies[..n], maxTime) + [Entry(endpoints[n], replies[n], maxTime)]
  }

  /** The `results["status"]` the loop leaves: healthy, overwritten by every
      entry that writes, so the last such entry wins. */
  function LastWritten(entries: seq<LegacyEntry>): (s: Status)
    ensures s != Skipped
  {
    if entries == [] then Healthy
    else
      var w := Written(entries[|entries| - 1]);
      if w.Some? then w.value else LastWritten(entries[..|entries| - 1])
  }

  /** The aggregate is healthy iff every endpoint answered fine. */
  lemma {:induction false} LastWrittenHealthyIff(entries: seq<LegacyEntry>)
    ensures LastWritten(entries) == Healthy <==> forall i :: 0 <= i < |entries| ==> Written(entries[i]).None?
  {
    if entries != [] {
      var n := |entries| - 1;
      LastWrittenHealthyIff(entries[..n]);
      assert forall i :: 0 <= i < n ==> entries[..n][i] == entries[i];
    }
  }

  /** Otherwise it is what the last entry that writes wrote. */
  lemma {:induction false} LastWrittenIsLast(entries: seq<LegacyEntry>, j: nat)
    requires j < |entries| && Written(entries[j]).Some?
    requires forall k :: j < k < |entries| ==> Written(entries[k]).None?
    ensures LastWritten(entries) == Written(entries[j]).value
  {
    var n := |entries| - 1;
    if j < n {
      assert entries[..n][j] == entries[j];
      LastWrittenIsLast(entries[..n], j);
    }
  }

  /** So a failed request followed by a slow endpoint leaves warning. */
  lemma LastWrittenIsNotMaximum()
    ensures var entries := [Errored("a", "refused"), Answered("b", 3.0, 200, Slow)];
            LastWritten(entries) == Warning
  {
  }

  /** The walk that ends `run_health_check`: the first error sets error and
      stops; every warning before it sets warning. */
  method FoldStatuses(ss: seq<Status>) returns (overall: Status)
    ensures Error in ss ==> overall == Error
    ensures Error !in ss && Warning in ss ==> overall == Warning
    ensures Error !in ss && Warning !in ss ==> overall == Healthy
  {
    overall := Healthy;
    var i := 0;
    while i < |ss|
      invariant 0 <= i <= |ss|
      invariant Error !in ss[..i]
      invariant overall == if Warning in ss[..i] then Warning else Healthy
    {
      if ss[i] == Error {
        overall := Error;
        break;
      } else if ss[i] == Warning {
        overall := Warning;
      }
      assert ss[..i + 1] == ss[..i] + [ss[i]];
      i := i + 1;
    }
    if overall != Error {
      assert ss[..i] == ss;
    }
  }

  /** The entries of the report of a run that found the container running,
      in insertion order, for a threshold table `t`. */
  function LegacyRunningChecks(t: map<string, real>, endpoints: seq<LegacyEndpoint>, patterns: seq<string>,
                               obs: LegacyObservations): (r: LegacyChecks)
    requires RequiredKeys <= t.Keys
    requires endpoints != [] ==> |obs.apiReplies| == |endpoints|
    ensures |r| == 3 + (if endpoints != [] then 1 else 0) + (if patterns != [] then 1 else 0)
    ensures r[0] == ("container_running", Bare(Healthy))
    ensures r[|r| - 1] == ("restart_count", RestartCheck(t["restart_count"], obs.restarts))
  {
    [("container_running", Bare(Healthy)),
     ("resources", ResourceUsage(t["cpu_percent"], t["memory_percent"], t["disk_percent"], obs.stats, obs.disk))]
    + (if endpoints != []
       then [("api_health", Endpoints(LastWritten(Entries(endpoints, obs.apiReplies, t["response_time"])),
                                      Entries(endpoints, obs.apiReplies, t["response_time"])))]
       else [])
    + (if patterns != [] then [("logs", LogScanOutcome(patterns, obs.logs))] else [])
    + [("restart_count", RestartCheck(t["restart_count"], obs.restarts))]
  }

  /** "resources" and "restart_count" are always present, "api_health" iff
      endpoints are given, "logs" iff patterns are given. */
  lemma LegacyReportKeys(t: map<string, real>, endpoints: seq<LegacyEndpoint>, patterns: seq<string>,
                         obs: LegacyObservations)
    requires RequiredKeys <= t.Keys
    requires endpoints != [] ==> |obs.apiReplies| == |endpoints|
    ensures Keys(LegacyRunningChecks(t, endpoints, patterns, obs))
            == ["container_running", "resources"]
               + (if endpoints != [] then ["api_health"] else [])
               + (if patterns != [] then ["logs"] else [])
               + ["restart_count"]
  {
    var head := [("container_running", Bare(Healthy)),
                 ("resources", ResourceUsage(t["cpu_percent"], t["memory_percent"], t["disk_percent"], obs.stats, obs.disk))];
    var api := if endpoints != []
               then var entries := Entries(endpoints, obs.apiReplies, t["response_time"]);
                    [("api_health", Endpoints(LastWritten(entries), entries))]
               else [];
    var logs := if patterns != [] then [("logs", LogScanOutcome(patterns, obs.logs))] else [];
    var tail := [("restart_count", RestartCheck(t["restart_count"], obs.restarts))];
    assert LegacyRunningChecks(t, endpoints, patterns, obs) == head + api + logs + tail;
    KeysConcat(head, api);
    KeysConcat(head + api, logs);
    KeysConcat(head + api + logs, tail);
    assert Keys(head) == ["container_running", "resources"];
    assert Keys(api) == if endpoints != [] then ["api_health"] else [];
    assert Keys(logs) == if patterns != [] then ["logs"] else [];
    assert Keys(tail) == ["restart_count"];
  }

  /** One more endpoint extends the entries by its own and lets it write
      the aggregate. */
  lemma EntriesStep(endpoints: seq<LegacyEndpoint>, replies: seq<HttpReply>, maxTime: real, i: nat)
    requires |endpoints| == |replies| && i < |endpoints|
    ensures var entry := Entry(endpoints[i], replies[i], maxTime);
            && Entries(endpoints[..i + 1], replies[..i + 1], maxTime)
               == Entries(endpoints[..i], replies[..i], maxTime) + [entry]
            && LastWritten(Entries(endpoints[..i + 1], replies[..i + 1], maxTime))
               == if Written(entry).Some? then Written(entry).value
                  else LastWritten(Entries(endpoints[..i], replies[..i], maxTime))
  {
    assert endpoints[..i + 1][..i] == endpoints[..i] && replies[..i + 1][..i] == replies[..i];
  }

  /** One pass of the endpoint loop: the endpoint's entry, and the
      aggregate after it wrote (or left) `results["status"]`. */
  method ProbeEndpoint(e: LegacyEndpoint, reply: HttpReply, maxTime: real, before: Status)
    returns (entry: LegacyEntry, status: Status)
    ensures entry == Entry(e, reply, maxTime)
    ensures status == if Written(entry).Some? then Written(entry).value else before
  {
    status := before;
    match reply {
      case RequestFailed(err) =>
        status := Error;
        entry := Errored(e.url, err);
      case Response(code, elapsed, _) =>
        var unexpected := code != e.expectedStatus.GetOr(200);
        var slow := elapsed > maxTime;
        // the response-time test runs second, so "slow" overrides "unhealthy"
        var state := if slow then Slow else if unexpected then Unhealthy else Fine;
        status := if unexpected || slow then Warning else status;
        entry := Answered(e.url, elapsed, code, state);
    }
  }

  class DockerHealthCheck {
    const containerName: string
    var thresholds: map<string, real>

    /** Every threshold the checks read is in the table. */
    predicate Valid()
      reads this
    {
      RequiredKeys <= thresholds.Keys
    }

    /** Start from the built-in thresholds and let the caller's table
        override them key by key. */
    constructor(containerName: string, overrides: map<string, real>)
      ensures this.containerName == containerName
      ensures thresholds == LegacyDefaults + overrides
      ensures Valid()
    {
      this.containerName := containerName;
      thresholds := LegacyDefaults;
      if overrides != map[] {
        thresholds := thresholds + overrides;
      }
    }

    /** `check_api_health`: one entry per endpoint, in order, and the status
        the last writing entry left. */
    method CheckApiHealth(endpoints: seq<LegacyEndpoint>, replies: seq<HttpReply>) returns (r: CheckResult<LegacyEntry>)
      requires Valid() && |endpoints| == |replies|
      ensures var entries := Entries(endpoints, replies, thresholds["response_time"]);
              r == Endpoints(LastWritten(entries), entries)
    {
      var maxTime := thresholds["response_time"];
      var status := Healthy;
      var entries: seq<LegacyEntry> := [];
      var i := 0;
      while i < |endpoints|
        invariant 0 <= i <= |endpoints|
        invariant entries == Entries(endpoints[..i], replies[..i], maxTime)
        invariant status == LastWritten(entries)
      {
        EntriesStep(endpoints, replies, maxTime, i);
        var entry;
        entry, status := ProbeEndpoint(endpoints[i], replies[i], maxTime, status);
        entries := entries + [entry];
        i := i + 1;
      }
      assert endpoints[..i] == endpoints && replies[..i] == replies;
      r := Endpoints(status, entries);
    }

    /** `run_health_check`. A container that is not running ends the run at
        once with an error report. Otherwise the checks run in order and the
        overall status is the worst check status. */
    method RunHealthCheck(endpoints: seq<LegacyEndpoint>, patterns: seq<string>, obs: LegacyObservations)
      returns (report: Report<LegacyEntry>)
      requires Valid()
      requires endpoints != [] ==> |obs.apiReplies| == |endpoints|
      ensures report.containerName == containerName
      ensures !ContainerIsRunning(obs.containerStatus) ==>
                report.checks == [("container_running", Bare(Error))] && report.overall == Error
      ensures ContainerIsRunning(obs.containerStatus) ==>
                && report.checks == LegacyRunningChecks(thresholds, endpoints, patterns, obs)
                && report.overall == Worst(StatusList(report.checks))
    {
      var running := ContainerIsRunning(obs.containerStatus);
      var checks: LegacyChecks := [("container_running", Bare(if running then Healthy else Error))];
      if !running {
        return Report(containerName, Error, checks);
      }
      var t := thresholds;
      var resources := ResourceUsage(t["cpu_percent"], t["memory_percent"], t["disk_percent"], obs.stats, obs.disk);
      var api: LegacyChecks := [];
      if endpoints != [] {
        var outcome := CheckApiHealth(endpoints, obs.apiReplies);
        api := [("api_health", outcome)];
      }
      var logs: LegacyChecks := [];
      if patterns != [] {
        var scan := ScanContainerLogs(patterns, obs.logs);
        logs := [("logs", scan)];
      }
      var restarts := RestartCheck(t["restart_count"], obs.restarts);
      checks := [("container_running", Bare(Healthy)), ("resources", resources)] + api + logs
                + [("restart_count", restarts)];
      var ss := StatusList(checks);
      var overall := FoldStatuses(ss);
      WorstIs(ss);
      report := Report(containerName, overall, checks);
    }
  }
}
