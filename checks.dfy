/** `DockerHealthCheck` of `src/checks.py`: the health engine that runs the
    checks in a fixed order, folds their statuses into an overall status and
    projects the report onto the metrics registry. The Docker daemon, the
    HTTP endpoints, the broker's management API and the host disk are not
    called: what they answer is an `Observations` value. */
module HealthChecks {
  import opened Common
  import opened Statuses
  import opened Results
  import opened Metrics
  import opened Configuration
  import opened Evaluation
  import opened ApiProbe
  import opened Broker
  import opened Projection

  /** What the collaborators answer during one run: the container's status
      (`None` when the lookup misses), the stats snapshot and disk usage, one
      reply per probed endpoint, the two broker replies, the log tail, the
      restart count, and the index of the metric write that raises, if any. */
  datatype Observations = Observations(
    containerStatus: Option<string>,
    stats: Probe<Stats>,
    disk: Fallible<real>,
    apiReplies: seq<HttpReply>,
    overview: BrokerReply<Overview>,
    listing: BrokerReply<seq<QueueInfo>>,
    logs: Probe<string>,
    restarts: Probe<int>,
    metricsFault: Option<nat>)

  const NoPatterns := "No error patterns configured"

  /** `check_logs_for_errors`: skipped when no pattern is configured (before
      the container is even looked up), otherwise the log scan. */
  function LogCheck(patterns: seq<string>, logs: Probe<string>): (r: CheckResult<ApiEndpoint>)
    ensures patterns == [] ==> r == Notice(Skipped, NoPatterns)
    ensures patterns != [] ==> r == LogScanOutcome(patterns, logs)
  {
    if patterns == [] then Notice(Skipped, NoPatterns) else LogScanOutcome(patterns, logs)
  }

  /** The metric writes `check_api_health` makes: none when the check is
      disabled, otherwise those of every probed endpoint. */
  function ApiWrites(api: ApiSettings, container: string, endpoints: seq<Endpoint>, replies: seq<HttpReply>): seq<Event>
    requires api.enabled ==> |replies| == |EffectiveEndpoints(api, endpoints)|
  {
    if api.enabled then ProbeEventsAll(container, EffectiveEndpoints(api, endpoints), replies) else []
  }

  /** The entries of the report of a run that found the container running,
      in insertion order; "api_health" is present iff the API check is enabled. */
  function RunningChecks(config: Config, endpoints: seq<Endpoint>, obs: Observations): (r: Checks)
    requires config.api.enabled ==> |obs.apiReplies| == |EffectiveEndpoints(config.api, endpoints)|
    ensures |r| == if config.api.enabled then 6 else 5
    ensures r[0] == ("container_running", Bare(Healthy))
    ensures r[|r| - 1] == ("restart_count", RestartCheck(config.thresholds.restartCount as real, obs.restarts))
  {
    var t := config.thresholds;
    [("container_running", Bare(Healthy)),
     ("resources", ResourceUsage(t.cpuPercent, t.memoryPercent, t.diskPercent, obs.stats, obs.disk))]
    + (if config.api.enabled then [("api_health", ApiOutcome(config.api, endpoints, obs.apiReplies))] else [])
    + [("rabbitmq", BrokerOutcome(obs.overview, obs.listing)),
       ("logs", LogCheck(config.errorPatterns, obs.logs)),
       ("restart_count", RestartCheck(t.restartCount as real, obs.restarts))]
  }

  /** The keys of a running report, in order. */
  lemma RunningReportKeys(config: Config, endpoints: seq<Endpoint>, obs: Observations)
    requires config.api.enabled ==> |obs.apiReplies| == |EffectiveEndpoints(config.api, endpoints)|
    ensures Keys(RunningChecks(config, endpoints, obs))
            == ["container_running", "resources"]
               + (if config.api.enabled then ["api_health"] else [])
               + ["rabbitmq", "logs", "restart_count"]
  {
    var t := config.thresholds;
    var head: Checks :=
      [("container_running", Bare(Healthy)),
       ("resources", ResourceUsage(t.cpuPercent, t.memoryPercent, t.diskPercent, obs.stats, obs.disk))];
    var api: Checks := if config.api.enabled then [("api_health", ApiOutcome(config.api, endpoints, obs.apiReplies))] else [];
    var tail: Checks :=
      [("rabbitmq", BrokerOutcome(obs.overview, obs.listing)),
       ("logs", LogCheck(config.errorPatterns, obs.logs)),
       ("restart_count", RestartCheck(t.restartCount as real, obs.restarts))];
    assert RunningChecks(config, endpoints, obs) == head + api + tail;
    KeysConcat(head, api);
    KeysConcat(head + api, tail);
    assert Keys(head) == ["container_running", "resources"];
    assert Keys(api) == if config.api.enabled then ["api_health"] else [];
    assert Keys(tail) == ["rabbitmq", "logs", "restart_count"];
  }

  /** The overall status of a running report is healthy iff no check is in
      warning or error: a skipped check (API or log scan) counts as healthy. */
  lemma OverallHealthyIff(config: Config, endpoints: seq<Endpoint>, obs: Observations)
    requires config.api.enabled ==> |obs.apiReplies| == |EffectiveEndpoints(config.api, endpoints)|
    ensures var checks := RunningChecks(config, endpoints, obs);
            Worst(StatusList(checks)) == Healthy
            <==> forall i :: 0 <= i < |checks| ==> checks[i].1.status in {Healthy, Skipped}
  {
    WorstHealthyIff(RunningChecks(config, endpoints, obs));
  }

  lemma WorstHealthyIff(checks: Checks)
    ensures Worst(StatusList(checks)) == Healthy
            <==> forall i :: 0 <= i < |checks| ==> checks[i].1.status in {Healthy, Skipped}
  {
    var ss := StatusList(checks);
    WorstIs(ss);
    if Worst(ss) == Healthy {
      forall i | 0 <= i < |checks| ensures checks[i].1.status in {Healthy, Skipped} {
        assert ss[i] == checks[i].1.status && ss[i] in ss;
      }
    } else {
      var i :| 0 <= i < |ss| && ss[i] == Worst(ss);
      assert checks[i].1.status == Worst(ss);
    }
  }

  /** A broker that cannot be reached or answers with an error code makes the
      run's overall status error: the warning the engine sets for it before
      the final walk is always overwritten there. */
  lemma BrokerFailureIsOverallError(config: Config, endpoints: seq<Endpoint>, obs: Observations)
    requires config.api.enabled ==> |obs.apiReplies| == |EffectiveEndpoints(config.api, endpoints)|
    requires BrokerOutcome<ApiEndpoint>(obs.overview, obs.listing).status == Error
    ensures Worst(StatusList(RunningChecks(config, endpoints, obs))) == Error
  {
    var checks := RunningChecks(config, endpoints, obs);
    var k := if config.api.enabled then 3 else 2;
    assert checks[k].1.status == Error;
    WorstIs(StatusList(checks));
  }

  /** After a run that found the container running, the first metric write
      of the projection sets `container_up` to 1. */
  lemma RunningSetsContainerUp(config: Config, container: string, endpoints: seq<Endpoint>, obs: Observations)
    requires config.api.enabled ==> |obs.apiReplies| == |EffectiveEndpoints(config.api, endpoints)|
    ensures ProjectionEvents(container, RunningChecks(config, endpoints, obs))[0]
            == Event(ContainerUp, ContainerLabels(container), Set(1.0))
  {
    var checks := RunningChecks(config, endpoints, obs);
    assert Find(checks, "container_running") == Some(Bare(Healthy));
    ProjectionStartsWithContainerUp(container, checks);
  }

  lemma BrokerStatusListed(checks: Checks, k: nat)
    requires k < |checks|
    ensures checks[k].1.status in StatusList(checks)
  {
    assert StatusList(checks)[k] == checks[k].1.status;
  }

  /** The loop's result is the fold of the statuses, given that a warning
      start comes from an error entry. */
  lemma FoldIsWorst(ss: seq<Status>, initial: Status, overall: Status)
    requires initial == Healthy || (initial == Warning && Error in ss)
    requires Error in ss ==> overall == Error
    requires Error !in ss && Warning in ss ==> overall == Warning
    requires Error !in ss && Warning !in ss ==> overall == initial
    ensures overall == Worst(ss)
  {
    WorstIs(ss);
  }

  /** One more endpoint extends the entries, the aggregate and the writes
      of the API loop by that endpoint's. */
  lemma ApiLoopStep(container: string, targets: seq<Endpoint>, replies: seq<HttpReply>, i: nat)
    requires |targets| == |replies| && i < |targets|
    ensures EndpointResults(targets[..i + 1], replies[..i + 1])
            == EndpointResults(targets[..i], replies[..i]) + [ClassifyReply(targets[i], replies[i])]
    ensures ApiStatus(replies[..i + 1])
            == if ReplyStatus(replies[i]) == Healthy then ApiStatus(replies[..i]) else ReplyStatus(replies[i])
    ensures ProbeEventsAll(container, targets[..i + 1], replies[..i + 1])
            == ProbeEventsAll(container, targets[..i], replies[..i]) + ProbeEvents(container, targets[i], replies[i])
  {
    assert targets[..i + 1][..i] == targets[..i] && replies[..i + 1][..i] == replies[..i];
  }

  class DockerHealthCheck {
    /** The settings the checks read: a `Config()` built afresh from the
        environment, not the configuration handed to the constructor. */
    const config: Config
    /** The monitored container, the one thing taken from the constructor's
        argument. */
    const containerName: string
    const metrics: Registry

    /** `given` is the constructor's argument, `loaded` the `Config()` the
        constructor builds from the environment. */
    constructor(given: Config, loaded: Config)
      ensures config == loaded && containerName == given.containerName
      ensures fresh(metrics) && metrics.events == []
    {
      config := loaded;
      containerName := given.containerName;
      metrics := new Registry();
    }

    /** `check_api_health`: probe each effective endpoint in order, writing
        its metrics as its reply comes in. */
    method CheckApiHealth(endpoints: seq<Endpoint>, replies: seq<HttpReply>) returns (r: CheckResult<ApiEndpoint>)
      requires config.api.enabled ==> |replies| == |EffectiveEndpoints(config.api, endpoints)|
      modifies metrics
      ensures r == ApiOutcome(config.api, endpoints, replies)
      ensures metrics.events == old(metrics.events) + ApiWrites(config.api, containerName, endpoints, replies)
    {
      if !config.api.enabled {
        return Notice(Skipped, "API health check disabled");
      }
      var targets := EffectiveEndpoints(config.api, endpoints);
      var status, entries := ProbeAll(targets, replies);
      r := Endpoints(status, entries);
    }

    /** The endpoint loop: probe the endpoints in order; every entry that
        is not healthy overwrites the aggregate. */
    method ProbeAll(targets: seq<Endpoint>, replies: seq<HttpReply>) returns (status: Status, entries: seq<ApiEndpoint>)
      requires |targets| == |replies|
      modifies metrics
      ensures status == ApiStatus(replies) && entries == EndpointResults(targets, replies)
      ensures metrics.events == old(metrics.events) + ProbeEventsAll(containerName, targets, replies)
    {
      status := Healthy;
      entries := [];
      var i := 0;
      while i < |targets|
        invariant 0 <= i <= |targets|
        invariant entries == EndpointResults(targets[..i], replies[..i])
        invariant status == ApiStatus(replies[..i])
        invariant metrics.events == old(metrics.events) + ProbeEventsAll(containerName, targets[..i], replies[..i])
      {
        ApiLoopStep(containerName, targets, replies, i);
        AppendAssociates(old(metrics.events), ProbeEventsAll(containerName, targets[..i], replies[..i]),
                         ProbeEvents(containerName, targets[i], replies[i]));
        var entry := ProbeEndpoint(targets[i], replies[i]);
        status := if entry.status != Healthy then entry.status else status;
        entries := entries + [entry];
        i := i + 1;
      }
      assert targets[..i] == targets && replies[..i] == replies;
    }

    /** One pass of the endpoint loop: request the endpoint and record its
        status code, request count, response time and health; a request that
        raises records code 503 and health 0. */
    method ProbeEndpoint(e: Endpoint, reply: HttpReply) returns (entry: ApiEndpoint)
      modifies metrics
      ensures entry == ClassifyReply(e, reply)
      ensures metrics.events == old(metrics.events) + ProbeEvents(containerName, e, reply)
    {
      var labels := EndpointLabels(containerName, e.url);
      match reply {
        case Response(code, elapsed, body) =>
          metrics.Record(Event(ApiLastStatusCode, labels, Set(code as real)));
          metrics.Record(Event(ApiRequestCount, StatusCodeLabels(containerName, e.url, IntToString(code)), Inc));
          metrics.Record(Event(ApiResponseTime, labels, Observe(elapsed)));
          var status := Healthy;
          if code == 200 {
            metrics.Record(Event(ApiHealth, labels, Set(1.0)));
          } else if code == 429 {
            status := Warning;
            metrics.Record(Event(ApiHealth, labels, Set(0.0)));
          } else {
            status := Error;
            metrics.Record(Event(ApiHealth, labels, Set(0.0)));
          }
          entry := Reached(e.url, elapsed, code, MessageOf(body), status);
        case RequestFailed(err) =>
          metrics.Record(Event(ApiLastStatusCode, labels, Set(ServiceUnavailable as real)));
          metrics.Record(Event(ApiRequestCount, StatusCodeLabels(containerName, e.url, IntToString(ServiceUnavailable)), Inc));
          metrics.Record(Event(ApiHealth, labels, Set(0.0)));
          entry := Unreachable(e.url, Error, ServiceUnavailable, err);
      }
    }

    /** `check_logs_for_errors`. */
    method CheckLogsForErrors(logs: Probe<string>) returns (r: CheckResult<ApiEndpoint>)
      ensures r == LogCheck(config.errorPatterns, logs)
    {
      if config.errorPatterns == [] {
        return Notice(Skipped, NoPatterns);
      }
      r := ScanContainerLogs(config.errorPatterns, logs);
    }

    /** `check_rabbitmq_health`: two management-API requests, writing the
        broker metrics as the answers come in. */
    method CheckRabbitmqHealth(overview: BrokerReply<Overview>, listing: BrokerReply<seq<QueueInfo>>)
      returns (r: CheckResult<ApiEndpoint>)
      modifies metrics
      ensures r == BrokerOutcome(overview, listing)
      ensures metrics.events == old(metrics.events) + BrokerEvents(overview, listing)
    {
      match overview {
        case ConnectFailed(e) =>
          metrics.Record(UpEvent(false));
          r := Notice(Error, ConnectError(e));
        case Answered(code, o) =>
          if code != 200 {
            metrics.Record(UpEvent(false));
            return Notice(Error, "RabbitMQ API returned status " + IntToString(code));
          }
          var head := [UpEvent(true), Event(RabbitmqConnectionCount, ContainerLabels(BrokerLabel), Set(o.connections as real))];
          metrics.Record(head[0]);
          metrics.Record(head[1]);
          assert metrics.events == old(metrics.events) + head;
          var tail := match listing
                      case ConnectFailed(_) => [UpEvent(false)]
                      case Answered(qcode, queues) => if qcode == 200 then ListingEvents(queues) else [];
          match listing {
            case ConnectFailed(e) =>
              metrics.Record(UpEvent(false));
              AppendAssociates(old(metrics.events), head, tail);
              return Notice(Error, ConnectError(e));
            case Answered(qcode, queues) =>
              if qcode == 200 {
                RecordListing(queues);
              }
          }
          AppendAssociates(old(metrics.events), head, tail);
          r := Broker(Healthy, "RabbitMQ is running",
                      BrokerDetails(o.version, o.erlangVersion, o.connections, o.queues, o.exchanges));
      }
    }

    /** The queue gauges of a listing that answered 200. */
    method RecordListing(queues: seq<QueueInfo>)
      modifies metrics
      ensures metrics.events == old(metrics.events) + ListingEvents(queues)
    {
      if queues == [] {
        metrics.Record(Event(RabbitmqQueueMessages, QueueLabels(BrokerLabel, "default"), Set(0.0)));
      } else {
        var i := 0;
        while i < |queues|
          invariant 0 <= i <= |queues|
          invariant metrics.events == old(metrics.events) + QueueGauges(queues[..i])
        {
          assert queues[..i + 1][..i] == queues[..i];
          AppendAssociates(old(metrics.events), QueueGauges(queues[..i]), [QueueGauge(queues[i])]);
          metrics.Record(QueueGauge(queues[i]));
          i := i + 1;
        }
        assert queues[..i] == queues;
      }
    }

    /** `update_prometheus_metrics`: make the projection's writes in order;
        when the write at index `fault` raises, the rest are skipped and one
        `metric_update_failure` increment is recorded instead. */
    method UpdatePrometheusMetrics(checks: Checks, fault: Option<nat>)
      modifies metrics
      ensures metrics.events == old(metrics.events)
                                + Recorded(ProjectionEvents(containerName, checks), fault, FailureEvent(containerName))
    {
      RecordWrites(ProjectionEvents(containerName, checks), fault);
    }

    /** The body of the `try` block and its `except` branch: the writes up to
        the failing one, then the failure increment. */
    method RecordWrites(writes: seq<Event>, fault: Option<nat>)
      modifies metrics
      ensures metrics.events == old(metrics.events) + Recorded(writes, fault, FailureEvent(containerName))
    {
      var i := 0;
      while i < |writes|
        invariant 0 <= i <= |writes|
        invariant !(fault.Some? && fault.value < i)
        invariant metrics.events == old(metrics.events) + writes[..i]
      {
        if fault == Some(i) {
          metrics.Record(FailureEvent(containerName));
          return;
        }
        assert writes[..i + 1] == writes[..i] + [writes[i]];
        metrics.Record(writes[i]);
        i := i + 1;
      }
      assert writes[..i] == writes;
    }

    /** `run_health_check` of a running container, up to the metrics
        update: the checks in the source's order, then the overall status. */
    method CheckRunningContainer(endpoints: seq<Endpoint>, obs: Observations) returns (checks: Checks, overall: Status)
      requires config.api.enabled ==> |obs.apiReplies| == |EffectiveEndpoints(config.api, endpoints)|
      modifies metrics
      ensures checks == RunningChecks(config, endpoints, obs)
      ensures overall == Worst(StatusList(checks))
      ensures metrics.events == old(metrics.events)
                 + ApiWrites(config.api, containerName, endpoints, obs.apiReplies)
                 + BrokerEvents(obs.overview, obs.listing)
    {
      var t := config.thresholds;
      var resources := ResourceUsage(t.cpuPercent, t.memoryPercent, t.diskPercent, obs.stats, obs.disk);
      ghost var apiWrites := ApiWrites(config.api, containerName, endpoints, obs.apiReplies);
      var api: Checks := [];
      if config.api.enabled {
        var outcome := CheckApiHealth(endpoints, obs.apiReplies);
        api := [("api_health", outcome)];
      }
      assert metrics.events == old(metrics.events) + apiWrites;
      var broker := CheckRabbitmqHealth(obs.overview, obs.listing);
      overall := Healthy;
      if broker.status == Error && overall != Error {
        overall := Warning;
      }
      var logs := CheckLogsForErrors(obs.logs);
      var restarts := RestartCheck(t.restartCount as real, obs.restarts);
      checks := [("container_running", Bare(Healthy)), ("resources", resources)] + api
                + [("rabbitmq", broker), ("logs", logs), ("restart_count", restarts)];
      var ss := StatusList(checks);
      BrokerStatusListed(checks, 2 + |api|);
      ghost var initial := overall;
      overall := FoldOverall(overall, ss);
      FoldIsWorst(ss, initial, overall);
    }

    /** `run_health_check`. A container that is not running ends the run at
        once with an error report and no metric write. Otherwise every check
        runs in order, the overall status is the worst check status, and the
        report is projected onto the registry. */
    method RunHealthCheck(endpoints: seq<Endpoint>, obs: Observations) returns (report: Report<ApiEndpoint>)
      requires config.api.enabled ==> |obs.apiReplies| == |EffectiveEndpoints(config.api, endpoints)|
      modifies metrics
      ensures report.containerName == containerName
      ensures !ContainerIsRunning(obs.containerStatus) ==>
                && report.checks == [("container_running", Bare(Error))]
                && report.overall == Error
                && metrics.events == old(metrics.events)
      ensures ContainerIsRunning(obs.containerStatus) ==>
                && report.checks == RunningChecks(config, endpoints, obs)
                && report.overall == Worst(StatusList(report.checks))
                && metrics.events == old(metrics.events)
                   + ApiWrites(config.api, containerName, endpoints, obs.apiReplies)
                   + BrokerEvents(obs.overview, obs.listing)
                   + Recorded(ProjectionEvents(containerName, report.checks), obs.metricsFault, FailureEvent(containerName))
    {
      if !ContainerIsRunning(obs.containerStatus) {
        return Report(containerName, Error, [("container_running", Bare(Error))]);
      }
      var checks, overall := CheckRunningContainer(endpoints, obs);
      ghost var checkWrites := metrics.events;
      UpdatePrometheusMetrics(checks, obs.metricsFault);
      assert metrics.events == checkWrites
             + Recorded(ProjectionEvents(containerName, checks), obs.metricsFault, FailureEvent(containerName));
      report := Report(containerName, overall, checks);
    }
  }
}
