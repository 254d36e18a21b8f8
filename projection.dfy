/** `update_prometheus_metrics` of `src/checks.py` as a function from the
    report's checks to the ordered list of metric writes it makes, with the
    partial-failure rule for a write that raises. */
module Projection {
  import opened Common
  import opened Statuses
  import opened Results
  import opened Metrics
  import opened ApiProbe

  type Checks = seq<(string, CheckResult<ApiEndpoint>)>

  /** `container_up`: 1 iff the "container_running" entry is healthy; a
      missing entry reads as `{}` and gives 0. */
  function UpEvents(container: string, checks: Checks): (r: seq<Event>)
    ensures |r| == 1 && r[0].name == ContainerUp
    ensures WritesOnly(r, {ContainerUp}) && LabelledWith(r, container)
  {
    var entry := Find(checks, "container_running");
    [Event(ContainerUp, ContainerLabels(container), Set(Flag(entry.Some? && entry.value.status == Healthy)))]
  }

  /** The three usage gauges, written only when the "resources" entry
      carries its metrics (an error entry carries none). */
  function ResourceEvents(container: string, checks: Checks): (r: seq<Event>)
    ensures WritesOnly(r, {CpuUsage, MemoryUsage, DiskUsage}) && LabelledWith(r, container)
  {
    match Find(checks, "resources")
    case Some(Usage(_, cpu, memory, disk)) =>
      [Event(CpuUsage, ContainerLabels(container), Set(cpu)),
       Event(MemoryUsage, ContainerLabels(container), Set(memory)),
       Event(DiskUsage, ContainerLabels(container), Set(disk))]
    case _ => []
  }

  /** The writes for one API endpoint entry: its response time when it has
      one, the request count by code, the last code and the health flag. */
  function EndpointMetrics(container: string, e: ApiEndpoint): (r: seq<Event>)
    ensures |r| == if e.Reached? then 4 else 3
    ensures WritesOnly(r, {ApiResponseTime, ApiRequestCount, ApiLastStatusCode, ApiHealth})
    ensures LabelledWith(r, container)
    ensures forall i :: 0 <= i < |r| ==> r[i].labels.endpoint == Some(e.url)
  {
    var labels := EndpointLabels(container, e.url);
    var common :=
      [Event(ApiRequestCount, StatusCodeLabels(container, e.url, IntToString(e.statusCode)), Inc),
       Event(ApiLastStatusCode, labels, Set(e.statusCode as real)),
       Event(ApiHealth, labels, Set(Flag(e.status == Healthy)))];
    match e
    case Reached(_, responseTime, _, _, _) => [Event(ApiResponseTime, labels, Observe(responseTime))] + common
    case Unreachable(_, _, _, _) => common
  }

  function EndpointsMetrics(container: string, endpoints: seq<ApiEndpoint>): (r: seq<Event>)
    ensures WritesOnly(r, {ApiResponseTime, ApiRequestCount, ApiLastStatusCode, ApiHealth})
    ensures LabelledWith(r, container)
  {
    if endpoints == [] then []
    else
      var n := |endpoints| - 1;
      LabelledConcat(EndpointsMetrics(container, endpoints[..n]), EndpointMetrics(container, endpoints[n]), container);
      EndpointsMetrics(container, endpoints[..n]) + EndpointMetrics(container, endpoints[n])
  }

  function ApiEvents(container: string, checks: Checks): (r: seq<Event>)
    ensures WritesOnly(r, {ApiResponseTime, ApiRequestCount, ApiLastStatusCode, ApiHealth})
    ensures LabelledWith(r, container)
  {
    match Find(checks, "api_health")
    case Some(Endpoints(_, endpoints)) => EndpointsMetrics(container, endpoints)
    case _ => []
  }

  /** One `error_count` increment per pattern found, labelled with the pattern. */
  function ErrorCounts(container: string, errors: seq<string>): (r: seq<Event>)
    ensures |r| == |errors|
    ensures forall i :: 0 <= i < |r| ==> r[i] == Event(ErrorCount, ErrorTypeLabels(container, errors[i]), Inc)
  {
    seq(|errors|, i requires 0 <= i < |errors| => Event(ErrorCount, ErrorTypeLabels(container, errors[i]), Inc))
  }

  /** The patterns of the "logs" entry; an entry without "errors_found" has none. */
  function ErrorsFound(checks: Checks): seq<string>
  {
    match Find(checks, "logs")
    case Some(LogScan(_, errors, _)) => errors
    case _ => []
  }

  function LogEvents(container: string, checks: Checks): (r: seq<Event>)
    ensures WritesOnly(r, {ErrorCount}) && LabelledWith(r, container)
  {
    ErrorCounts(container, ErrorsFound(checks))
  }

  /** The broker writes: "up" from the entry's status, the connection count
      when the entry has "details". The per-queue loop iterates the entry's
      top-level "queues" key, which no broker result carries, so it writes
      nothing. */
  function BrokerMetricEvents(container: string, checks: Checks): (r: seq<Event>)
    ensures WritesOnly(r, {RabbitmqUp, RabbitmqConnectionCount}) && LabelledWith(r, container)
  {
    match Find(checks, "rabbitmq")
    case None => []
    case Some(r) =>
      [Event(RabbitmqUp, ContainerLabels(container), Set(Flag(r.status == Healthy)))]
      + (if r.Broker? then [Event(RabbitmqConnectionCount, ContainerLabels(container), Set(r.details.connections as real))]
         else [])
  }

  /** Every write of `update_prometheus_metrics`, in order. All of them are
      labelled with the monitored container, the broker's included. */
  function ProjectionEvents(container: string, checks: Checks): (r: seq<Event>)
    ensures LabelledWith(r, container)
  {
    var up, usage, api := UpEvents(container, checks), ResourceEvents(container, checks), ApiEvents(container, checks);
    var logs, broker := LogEvents(container, checks), BrokerMetricEvents(container, checks);
    LabelledConcat(up, usage, container);
    LabelledConcat(up + usage, api, container);
    LabelledConcat(up + usage + api, logs, container);
    LabelledConcat(up + usage + api + logs, broker, container);
    up + usage + api + logs + broker
  }

  /** The increment the `except` branch records. */
  function FailureEvent(container: string): Event
  {
    Event(ErrorCount, ErrorTypeLabels(container, "metric_update_failure"), Inc)
  }

  /** What reaches the registry when the write at index `fault` raises (if
      it does): the writes before it, then one failure increment. */
  function Recorded(writes: seq<Event>, fault: Option<nat>, failure: Event): (r: seq<Event>)
    ensures fault.Some? && fault.value < |writes| ==>
              |r| == fault.value + 1 && r[..fault.value] == writes[..fault.value] && r[fault.value] == failure
    ensures !(fault.Some? && fault.value < |writes|) ==> r == writes
  {
    if fault.Some? && fault.value < |writes| then writes[..fault.value] + [failure] else writes
  }

  // ---------------------------------------------------------------- properties

  lemma {:induction false} NamedAll(events: seq<Event>, n: MetricName)
    requires forall i :: 0 <= i < |events| ==> events[i].name == n
    ensures Named(events, n) == events
  {
    if events != [] {
      NamedAll(events[1..], n);
    }
  }

  /** The writes to metric `n` are those of each section in turn. */
  lemma NamedSections(u: seq<Event>, r: seq<Event>, a: seq<Event>, l: seq<Event>, b: seq<Event>, n: MetricName)
    ensures Named(u + r + a + l + b, n) == Named(u, n) + Named(r, n) + Named(a, n) + Named(l, n) + Named(b, n)
  {
    NamedConcat(u, r, n);
    NamedConcat(u + r, a, n);
    NamedConcat(u + r + a, l, n);
    NamedConcat(u + r + a + l, b, n);
  }

  /** Only the resources section writes the usage gauges. */
  lemma UsageSectionAlone(u: seq<Event>, r: seq<Event>, a: seq<Event>, l: seq<Event>, b: seq<Event>, n: MetricName)
    requires WritesOnly(u, {ContainerUp}) && WritesOnly(a, {ApiResponseTime, ApiRequestCount, ApiLastStatusCode, ApiHealth})
    requires WritesOnly(l, {ErrorCount}) && WritesOnly(b, {RabbitmqUp, RabbitmqConnectionCount})
    requires n in {CpuUsage, MemoryUsage, DiskUsage}
    ensures Named(u + r + a + l + b, n) == Named(r, n)
  {
    NamedSections(u, r, a, l, b, n);
    NamedOutside(u, {ContainerUp}, n);
    NamedOutside(a, {ApiResponseTime, ApiRequestCount, ApiLastStatusCode, ApiHealth}, n);
    NamedOutside(l, {ErrorCount}, n);
    NamedOutside(b, {RabbitmqUp, RabbitmqConnectionCount}, n);
  }

  /** Only the API section writes the API metrics. */
  lemma ApiSectionAlone(u: seq<Event>, r: seq<Event>, a: seq<Event>, l: seq<Event>, b: seq<Event>, n: MetricName)
    requires WritesOnly(u, {ContainerUp}) && WritesOnly(r, {CpuUsage, MemoryUsage, DiskUsage})
    requires WritesOnly(l, {ErrorCount}) && WritesOnly(b, {RabbitmqUp, RabbitmqConnectionCount})
    requires n in {ApiResponseTime, ApiRequestCount, ApiLastStatusCode, ApiHealth}
    ensures Named(u + r + a + l + b, n) == Named(a, n)
  {
    NamedSections(u, r, a, l, b, n);
    NamedOutside(u, {ContainerUp}, n);
    NamedOutside(r, {CpuUsage, MemoryUsage, DiskUsage}, n);
    NamedOutside(l, {ErrorCount}, n);
    NamedOutside(b, {RabbitmqUp, RabbitmqConnectionCount}, n);
  }

  /** Only the broker section writes the broker gauges. */
  lemma BrokerSectionAlone(u: seq<Event>, r: seq<Event>, a: seq<Event>, l: seq<Event>, b: seq<Event>, n: MetricName)
    requires WritesOnly(u, {ContainerUp}) && WritesOnly(r, {CpuUsage, MemoryUsage, DiskUsage})
    requires WritesOnly(a, {ApiResponseTime, ApiRequestCount, ApiLastStatusCode, ApiHealth}) && WritesOnly(l, {ErrorCount})
    requires n in {RabbitmqUp, RabbitmqConnectionCount}
    ensures Named(u + r + a + l + b, n) == Named(b, n)
  {
    NamedSections(u, r, a, l, b, n);
    NamedOutside(u, {ContainerUp}, n);
    NamedOutside(r, {CpuUsage, MemoryUsage, DiskUsage}, n);
    NamedOutside(a, {ApiResponseTime, ApiRequestCount, ApiLastStatusCode, ApiHealth}, n);
    NamedOutside(l, {ErrorCount}, n);
  }

  /** The first write sets `container_up`, to 1 iff the container_running
      entry is healthy. */
  lemma ProjectionStartsWithContainerUp(container: string, checks: Checks)
    ensures var events := ProjectionEvents(container, checks);
            var entry := Find(checks, "container_running");
            |events| > 0 && events[0] == Event(ContainerUp, ContainerLabels(container),
                                               Set(if entry.Some? && entry.value.status == Healthy then 1.0 else 0.0))
  {
  }

  /** `error_count` receives exactly one increment per pattern found, in the
      order found, labelled `error_type=pattern`, and no other increment. */
  lemma ProjectionErrorCounts(container: string, checks: Checks)
    ensures Named(ProjectionEvents(container, checks), ErrorCount) == ErrorCounts(container, ErrorsFound(checks))
  {
    var u, r, a := UpEvents(container, checks), ResourceEvents(container, checks), ApiEvents(container, checks);
    var l, b := LogEvents(container, checks), BrokerMetricEvents(container, checks);
    NamedSections(u, r, a, l, b, ErrorCount);
    NamedOutside(u, {ContainerUp}, ErrorCount);
    NamedOutside(r, {CpuUsage, MemoryUsage, DiskUsage}, ErrorCount);
    NamedOutside(a, {ApiResponseTime, ApiRequestCount, ApiLastStatusCode, ApiHealth}, ErrorCount);
    NamedAll(l, ErrorCount);
    NamedOutside(b, {RabbitmqUp, RabbitmqConnectionCount}, ErrorCount);
  }

  /** The usage gauges are written once each when the resources entry
      carries metrics, and not at all otherwise (no entry, or an error entry). */
  lemma ProjectionResourceGauges(container: string, checks: Checks)
    ensures var entry := Find(checks, "resources");
            var events := ProjectionEvents(container, checks);
            && (entry.Some? && entry.value.Usage? ==>
                  && Named(events, CpuUsage) == [Event(CpuUsage, ContainerLabels(container), Set(entry.value.cpuPercent))]
                  && Named(events, MemoryUsage) == [Event(MemoryUsage, ContainerLabels(container), Set(entry.value.memoryPercent))]
                  && Named(events, DiskUsage) == [Event(DiskUsage, ContainerLabels(container), Set(entry.value.diskPercent))])
            && (!(entry.Some? && entry.value.Usage?) ==>
                  Named(events, CpuUsage) == Named(events, MemoryUsage) == Named(events, DiskUsage) == [])
  {
    UsageSectionAlone(UpEvents(container, checks), ResourceEvents(container, checks), ApiEvents(container, checks),
                      LogEvents(container, checks), BrokerMetricEvents(container, checks), CpuUsage);
    UsageSectionAlone(UpEvents(container, checks), ResourceEvents(container, checks), ApiEvents(container, checks),
                      LogEvents(container, checks), BrokerMetricEvents(container, checks), MemoryUsage);
    UsageSectionAlone(UpEvents(container, checks), ResourceEvents(container, checks), ApiEvents(container, checks),
                      LogEvents(container, checks), BrokerMetricEvents(container, checks), DiskUsage);
    ResourceGauges(container, checks);
  }

  lemma ResourceGauges(container: string, checks: Checks)
    ensures var entry := Find(checks, "resources");
            var r := ResourceEvents(container, checks);
            && (entry.Some? && entry.value.Usage? ==>
                  && Named(r, CpuUsage) == [Event(CpuUsage, ContainerLabels(container), Set(entry.value.cpuPercent))]
                  && Named(r, MemoryUsage) == [Event(MemoryUsage, ContainerLabels(container), Set(entry.value.memoryPercent))]
                  && Named(r, DiskUsage) == [Event(DiskUsage, ContainerLabels(container), Set(entry.value.diskPercent))])
            && (!(entry.Some? && entry.value.Usage?) ==> r == [])
  {
    var r := ResourceEvents(container, checks);
    if r != [] {
      assert Named(r, CpuUsage) == [r[0]] + Named(r[1..], CpuUsage);
      assert Named(r[1..], CpuUsage) == Named(r[2..], CpuUsage);
      assert Named(r, MemoryUsage) == Named(r[1..], MemoryUsage) == [r[1]] + Named(r[2..], MemoryUsage);
      assert Named(r, DiskUsage) == Named(r[1..], DiskUsage) == Named(r[2..], DiskUsage);
    }
  }

  /** The projection never writes a queue gauge: the loop meant for them
      reads a key the broker entry does not have. */
  lemma ProjectionWritesNoQueueGauges(container: string, checks: Checks)
    ensures Named(ProjectionEvents(container, checks), RabbitmqQueueMessages) == []
  {
    var u, r, a := UpEvents(container, checks), ResourceEvents(container, checks), ApiEvents(container, checks);
    var l, b := LogEvents(container, checks), BrokerMetricEvents(container, checks);
    NamedSections(u, r, a, l, b, RabbitmqQueueMessages);
    NamedOutside(u, {ContainerUp}, RabbitmqQueueMessages);
    NamedOutside(r, {CpuUsage, MemoryUsage, DiskUsage}, RabbitmqQueueMessages);
    NamedOutside(a, {ApiResponseTime, ApiRequestCount, ApiLastStatusCode, ApiHealth}, RabbitmqQueueMessages);
    NamedOutside(l, {ErrorCount}, RabbitmqQueueMessages);
    NamedOutside(b, {RabbitmqUp, RabbitmqConnectionCount}, RabbitmqQueueMessages);
  }

  // ------------------------------------------------------------ API section

  /** The health-gauge write for one endpoint entry: 1 iff it is healthy. */
  function EntryHealthGauge(container: string, e: ApiEndpoint): Event
  {
    Event(ApiHealth, EndpointLabels(container, e.url), Set(Flag(e.status == Healthy)))
  }

  /** The response-time observation for an entry that carries one. */
  function EntryResponseTime(container: string, e: ApiEndpoint): Event
    requires e.Reached?
  {
    Event(ApiResponseTime, EndpointLabels(container, e.url), Observe(e.responseTime))
  }

  /** The entries that carry a response time, in order. */
  function ReachedEntries(endpoints: seq<ApiEndpoint>): (r: seq<ApiEndpoint>)
    ensures |r| <= |endpoints|
    ensures forall i :: 0 <= i < |r| ==> r[i].Reached?
    ensures forall e :: e in r <==> e in endpoints && e.Reached?
  {
    if endpoints == [] then []
    else
      var n := |endpoints| - 1;
      assert endpoints == endpoints[..n] + [endpoints[n]];
      ReachedEntries(endpoints[..n]) + (if endpoints[n].Reached? then [endpoints[n]] else [])
  }

  lemma EndpointHealth(container: string, e: ApiEndpoint)
    ensures Named(EndpointMetrics(container, e), ApiHealth) == [EntryHealthGauge(container, e)]
  {
    var es := EndpointMetrics(container, e);
    assert Named(es, ApiHealth) == Named(es[1..], ApiHealth);
    assert Named(es[1..], ApiHealth) == Named(es[2..], ApiHealth);
    if e.Reached? {
      assert Named(es[2..], ApiHealth) == Named(es[3..], ApiHealth);
    }
  }

  lemma EndpointResponseTime(container: string, e: ApiEndpoint)
    ensures Named(EndpointMetrics(container, e), ApiResponseTime)
            == if e.Reached? then [EntryResponseTime(container, e)] else []
  {
    var es := EndpointMetrics(container, e);
    if e.Reached? {
      assert Named(es, ApiResponseTime) == [es[0]] + Named(es[1..], ApiResponseTime);
      NamedOutside(es[1..], {ApiRequestCount, ApiLastStatusCode, ApiHealth}, ApiResponseTime);
    } else {
      NamedOutside(es, {ApiRequestCount, ApiLastStatusCode, ApiHealth}, ApiResponseTime);
    }
  }

  /** One health gauge per entry, in order. */
  lemma {:induction false} EndpointsHealth(container: string, endpoints: seq<ApiEndpoint>)
    ensures var h := Named(EndpointsMetrics(container, endpoints), ApiHealth);
            && |h| == |endpoints|
            && forall i :: 0 <= i < |endpoints| ==> h[i] == EntryHealthGauge(container, endpoints[i])
  {
    if endpoints != [] {
      var n := |endpoints| - 1;
      var pre := EndpointsMetrics(container, endpoints[..n]);
      var last := EndpointMetrics(container, endpoints[n]);
      assert EndpointsMetrics(container, endpoints) == pre + last;
      EndpointsHealth(container, endpoints[..n]);
      NamedConcat(pre, last, ApiHealth);
      EndpointHealth(container, endpoints[n]);
      var init := Named(pre, ApiHealth);
      var h := init + [EntryHealthGauge(container, endpoints[n])];
      assert Named(EndpointsMetrics(container, endpoints), ApiHealth) == h;
      forall i | 0 <= i < |endpoints|
        ensures h[i] == EntryHealthGauge(container, endpoints[i])
      {
        if i < n {
          assert h[i] == init[i];
          assert endpoints[..n][i] == endpoints[i];
        } else {
          assert h[i] == EntryHealthGauge(container, endpoints[n]);
        }
      }
    }
  }

  /** One response-time observation per entry that carries one, in order,
      and none for an entry whose request raised. */
  lemma {:induction false} EndpointsResponseTimes(container: string, endpoints: seq<ApiEndpoint>)
    ensures var t := Named(EndpointsMetrics(container, endpoints), ApiResponseTime);
            var reached := ReachedEntries(endpoints);
            && |t| == |reached|
            && forall i :: 0 <= i < |reached| ==> reached[i].Reached? && t[i] == EntryResponseTime(container, reached[i])
  {
    if endpoints != [] {
      var n := |endpoints| - 1;
      var pre := EndpointsMetrics(container, endpoints[..n]);
      var last := EndpointMetrics(container, endpoints[n]);
      assert EndpointsMetrics(container, endpoints) == pre + last;
      EndpointsResponseTimes(container, endpoints[..n]);
      NamedConcat(pre, last, ApiResponseTime);
      EndpointResponseTime(container, endpoints[n]);
      var init := Named(pre, ApiResponseTime);
      var initReached := ReachedEntries(endpoints[..n]);
      var t := Named(EndpointsMetrics(container, endpoints), ApiResponseTime);
      var reached := ReachedEntries(endpoints);
      if endpoints[n].Reached? {
        assert t == init + [EntryResponseTime(container, endpoints[n])];
        assert reached == initReached + [endpoints[n]];
        forall i | 0 <= i < |reached|
          ensures reached[i].Reached? && t[i] == EntryResponseTime(container, reached[i])
        {
          if i < |initReached| {
            assert t[i] == init[i] && reached[i] == initReached[i];
          } else {
            assert t[i] == EntryResponseTime(container, endpoints[n]) && reached[i] == endpoints[n];
          }
        }
      } else {
        assert t == init + [];
        assert reached == initReached + [];
      }
    }
  }

  /** The health gauge is set once per entry of "api_health", in order, to 1
      iff that entry is healthy; never when the key is absent. */
  lemma ProjectionApiHealth(container: string, checks: Checks)
    ensures var h := Named(ProjectionEvents(container, checks), ApiHealth);
            match Find(checks, "api_health")
            case Some(Endpoints(_, endpoints)) =>
              && |h| == |endpoints|
              && forall i :: 0 <= i < |endpoints| ==> h[i] == EntryHealthGauge(container, endpoints[i])
            case _ => h == []
  {
    ApiSectionAlone(UpEvents(container, checks), ResourceEvents(container, checks), ApiEvents(container, checks),
                      LogEvents(container, checks), BrokerMetricEvents(container, checks), ApiHealth);
    match Find(checks, "api_health")
    case Some(Endpoints(_, endpoints)) => EndpointsHealth(container, endpoints);
    case _ =>
  }

  /** The response-time histogram gets one observation per entry of
      "api_health" that carries a time, in order, and none otherwise. */
  lemma ProjectionApiResponseTimes(container: string, checks: Checks)
    ensures var t := Named(ProjectionEvents(container, checks), ApiResponseTime);
            match Find(checks, "api_health")
            case Some(Endpoints(_, endpoints)) =>
              var reached := ReachedEntries(endpoints);
              && |t| == |reached|
              && forall i :: 0 <= i < |reached| ==> reached[i].Reached? && t[i] == EntryResponseTime(container, reached[i])
            case _ => t == []
  {
    ApiSectionAlone(UpEvents(container, checks), ResourceEvents(container, checks), ApiEvents(container, checks),
                      LogEvents(container, checks), BrokerMetricEvents(container, checks), ApiResponseTime);
    match Find(checks, "api_health")
    case Some(Endpoints(_, endpoints)) => EndpointsResponseTimes(container, endpoints);
    case _ =>
  }

  // --------------------------------------------------------- broker section

  /** With a "rabbitmq" entry, the up gauge is set exactly once, labelled with
      the monitored container (not "rabbitmq"), to 1 iff the entry is healthy;
      the connection count is set once iff the entry carries details. Without
      the entry neither is written. */
  lemma ProjectionBrokerGauges(container: string, checks: Checks)
    ensures var events := ProjectionEvents(container, checks);
            match Find(checks, "rabbitmq")
            case None => Named(events, RabbitmqUp) == [] && Named(events, RabbitmqConnectionCount) == []
            case Some(r) =>
              && Named(events, RabbitmqUp) == [Event(RabbitmqUp, ContainerLabels(container), Set(Flag(r.status == Healthy)))]
              && Named(events, RabbitmqConnectionCount)
                 == if r.Broker?
                    then [Event(RabbitmqConnectionCount, ContainerLabels(container), Set(r.details.connections as real))]
                    else []
  {
    BrokerSectionAlone(UpEvents(container, checks), ResourceEvents(container, checks), ApiEvents(container, checks),
                      LogEvents(container, checks), BrokerMetricEvents(container, checks), RabbitmqUp);
    BrokerSectionAlone(UpEvents(container, checks), ResourceEvents(container, checks), ApiEvents(container, checks),
                      LogEvents(container, checks), BrokerMetricEvents(container, checks), RabbitmqConnectionCount);
    var b := BrokerMetricEvents(container, checks);
    if b != [] {
      assert Named(b, RabbitmqUp) == [b[0]] + Named(b[1..], RabbitmqUp);
      assert Named(b, RabbitmqConnectionCount) == Named(b[1..], RabbitmqConnectionCount);
      if |b| == 2 {
        assert Named(b[1..], RabbitmqUp) == Named(b[2..], RabbitmqUp);
        assert Named(b[1..], RabbitmqConnectionCount) == [b[1]] + Named(b[2..], RabbitmqConnectionCount);
      } else {
        assert b[1..] == [];
      }
    }
  }
}
