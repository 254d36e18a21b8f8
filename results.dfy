/** The result dictionaries the checks return and the report that collects
    them. Both versions of the health check build results of the same shapes;
    only their per-endpoint API entries differ, hence the parameter `E`. */
module Results {
  import opened Common
  import opened Statuses

  /** What `check_rabbitmq_health` reports under "details". */
  datatype BrokerDetails = BrokerDetails(
    version: string, erlangVersion: string, connections: int, queues: int, exchanges: int)

  /** One entry of `health_status["checks"]`, by the keys it carries. */
  datatype CheckResult<E> =
      /** `{"status": s}`: the container_running entry. */
    | Bare(status: Status)
      /** `{"status": s, "message": m}`: error, skipped and broker-failure shapes. */
    | Notice(status: Status, message: string)
      /** `{"status": s, "metrics": {"cpu_percent", "memory_percent", "disk_percent"}}`. */
    | Usage(status: Status, cpuPercent: real, memoryPercent: real, diskPercent: real)
      /** `{"status": s, "endpoints": [...]}`. */
    | Endpoints(status: Status, endpoints: seq<E>)
      /** `{"status": s, "errors_found": [...], "error_count": n}`. */
    | LogScan(status: Status, errorsFound: seq<string>, errorCount: int)
      /** `{"status": s, "restart_count": n}`. */
    | Restarts(status: Status, restartCount: int)
      /** `{"status": s, "message": m, "details": {...}}`. */
    | Broker(status: Status, message: string, details: BrokerDetails)

  /** `health_status` without its timestamp: the checks in insertion order. */
  datatype Report<E> = Report(containerName: string, overall: Status, checks: seq<(string, CheckResult<E>)>)

  /** `checks.get(key)`. */
  function Find<E>(checks: seq<(string, CheckResult<E>)>, key: string): Option<CheckResult<E>>
  {
    if checks == [] then None
    else if checks[0].0 == key then Some(checks[0].1)
    else Find(checks[1..], key)
  }

  /** The keys of the report, in insertion order. */
  lemma KeysConcat<E>(a: seq<(string, CheckResult<E>)>, b: seq<(string, CheckResult<E>)>)
    ensures Keys(a + b) == Keys(a) + Keys(b)
  {
    assert forall i :: 0 <= i < |b| ==> (a + b)[|a| + i] == b[i];
  }

  function Keys<E>(checks: seq<(string, CheckResult<E>)>): (r: seq<string>)
    ensures |r| == |checks| && forall i :: 0 <= i < |checks| ==> r[i] == checks[i].0
  {
    if checks == [] then [] else [checks[0].0] + Keys(checks[1..])
  }

  /** The "status" of every entry, in insertion order. */
  function StatusList<E>(checks: seq<(string, CheckResult<E>)>): (r: seq<Status>)
    ensures |r| == |checks| && forall i :: 0 <= i < |checks| ==> r[i] == checks[i].1.status
  {
    if checks == [] then [] else [checks[0].1.status] + StatusList(checks[1..])
  }
}
