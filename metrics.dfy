/** The Prometheus registry as the health engine sees it: every write to a
    labelled gauge, counter or histogram is an event appended to a log. */
module Metrics {
  import opened Common

  /** The metrics the engine writes, by their attribute on the registry. */
  datatype MetricName =
    | ContainerUp | CpuUsage | MemoryUsage | DiskUsage
    | ApiResponseTime | ApiRequestCount | ApiLastStatusCode | ApiHealth
    | ErrorCount
    | RabbitmqUp | RabbitmqConnectionCount | RabbitmqQueueMessages

  /** The label set of one write; keys the write does not pass are `None`. */
  datatype Labels = Labels(
    containerName: string,
    endpoint: Option<string>,
    statusCode: Option<string>,
    errorType: Option<string>,
    queue: Option<string>)

  /** `.set(v)`, `.inc()` and `.observe(v)`. */
  datatype Op = Set(value: real) | Inc | Observe(value: real)

  datatype Event = Event(name: MetricName, labels: Labels, op: Op)

  function ContainerLabels(container: string): Labels
  {
    Labels(container, None, None, None, None)
  }

  function EndpointLabels(container: string, url: string): Labels
  {
    Labels(container, Some(url), None, None, None)
  }

  function StatusCodeLabels(container: string, url: string, code: string): Labels
  {
    Labels(container, Some(url), Some(code), None, None)
  }

  function ErrorTypeLabels(container: string, errorType: string): Labels
  {
    Labels(container, None, None, Some(errorType), None)
  }

  function QueueLabels(container: string, queue: string): Labels
  {
    Labels(container, None, None, None, Some(queue))
  }

  /** 1 for a true flag, 0 for a false one, as the gauges record it. */
  function Flag(b: bool): real
  {
    if b then 1.0 else 0.0
  }

  /** The events of a log that write metric `n`, in order. */
  function Named(events: seq<Event>, n: MetricName): (r: seq<Event>)
    ensures |r| <= |events|
  {
    if events == [] then []
    else (if events[0].name == n then [events[0]] else []) + Named(events[1..], n)
  }

  lemma {:induction false} NamedConcat(a: seq<Event>, b: seq<Event>, n: MetricName)
    ensures Named(a + b, n) == Named(a, n) + Named(b, n)
  {
    if a == [] {
      assert a + b == b;
    } else {
      var head := if a[0].name == n then [a[0]] else [];
      assert (a + b)[0] == a[0] && (a + b)[1..] == a[1..] + b;
      NamedConcat(a[1..], b, n);
      AppendAssociates(head, Named(a[1..], n), Named(b, n));
    }
  }

  /** Every event of the log writes one of the metrics `names`. */
  predicate WritesOnly(events: seq<Event>, names: set<MetricName>)
  {
    forall i :: 0 <= i < |events| ==> events[i].name in names
  }

  /** A log that writes only `names` has no write to any other metric. */
  lemma {:induction false} NamedOutside(events: seq<Event>, names: set<MetricName>, n: MetricName)
    requires WritesOnly(events, names) && n !in names
    ensures Named(events, n) == []
  {
    if events != [] {
      assert events[0].name in names;
      NamedOutside(events[1..], names, n);
    }
  }

  /** Every event of the log is labelled with container name `container`. */
  predicate LabelledWith(events: seq<Event>, container: string)
  {
    forall i :: 0 <= i < |events| ==> events[i].labels.containerName == container
  }

  lemma LabelledConcat(a: seq<Event>, b: seq<Event>, container: string)
    requires LabelledWith(a, container) && LabelledWith(b, container)
    ensures LabelledWith(a + b, container)
  {
    assert forall i :: 0 <= i < |b| ==> (a + b)[|a| + i] == b[i];
  }

  lemma AppendAssociates(a: seq<Event>, b: seq<Event>, c: seq<Event>)
    ensures a + b + c == a + (b + c)
  {
  }

  /** The registry: the writes made so far, oldest first. */
  class Registry {
    var events: seq<Event>

    constructor()
      ensures events == []
    {
      events := [];
    }

    method Record(e: Event)
      modifies this
      ensures events == old(events) + [e]
    {
      events := events + [e];
    }
  }
}
