/** The per-check classifications that `src/checks.py` and
    `docker_healthcheck.py` share word for word: container liveness, resource
    usage against thresholds, restart count against its limit and the log
    scan. Each takes the collaborator's outcome as a value. */
module Evaluation {
  import opened Common
  import opened Statuses
  import opened Results

  const ContainerNotFound := "Container not found"

  /** Python's text of the `ZeroDivisionError` that `int / int` raises. */
  const DivisionByZero := "division by zero"

  /** The fields of one `container.stats(stream=False)` snapshot the check reads. */
  datatype Stats = Stats(
    cpuTotal: int, preCpuTotal: int,
    systemCpu: int, preSystemCpu: int,
    memoryUsage: int, memoryLimit: int)

  function CpuDelta(s: Stats): int { s.cpuTotal - s.preCpuTotal }

  function SystemDelta(s: Stats): int { s.systemCpu - s.preSystemCpu }

  /** `check_container_running`: the container exists and its status is
      "running". `status` is `None` when the lookup misses. */
  function ContainerIsRunning(status: Option<string>): (r: bool)
    ensures r <==> status.Some? && status.value == "running"
  {
    match status
    case None => false
    case Some(s) => s == "running"
  }

  /** `check_resource_usage`, given the stats snapshot and the host disk usage
      percentage; the three thresholds are passed in. Neither denominator is
      guarded, so a zero one raises `ZeroDivisionError`, which the check turns
      into an error result. */
  function ResourceUsage<E>(cpuMax: real, memoryMax: real, diskMax: real,
                            stats: Probe<Stats>, disk: Fallible<real>): (r: CheckResult<E>)
    ensures stats.Missing? ==> r == Notice(Error, ContainerNotFound)
    ensures stats.Raised? ==> r == Notice(Error, stats.message)
    ensures stats.Found? && (SystemDelta(stats.value) == 0 || stats.value.memoryLimit == 0) ==>
              r == Notice(Error, DivisionByZero)
    ensures stats.Found? && SystemDelta(stats.value) != 0 && stats.value.memoryLimit != 0 && disk.Raises? ==>
              r == Notice(Error, disk.message)
    ensures stats.Found? && SystemDelta(stats.value) != 0 && stats.value.memoryLimit != 0 && disk.Returns? ==>
              var s := stats.value;
              && r.Usage?
              && r.cpuPercent == CpuDelta(s) as real / SystemDelta(s) as real * 100.0
              && r.memoryPercent == s.memoryUsage as real / s.memoryLimit as real * 100.0
              && r.diskPercent == disk.value
              && (r.status == Warning <==> r.cpuPercent > cpuMax || r.memoryPercent > memoryMax || r.diskPercent > diskMax)
              && (r.status == Healthy <==> !(r.cpuPercent > cpuMax || r.memoryPercent > memoryMax || r.diskPercent > diskMax))
  {
    match stats
    case Missing => Notice(Error, ContainerNotFound)
    case Raised(m) => Notice(Error, m)
    case Found(s) =>
      if SystemDelta(s) == 0 || s.memoryLimit == 0 then Notice(Error, DivisionByZero)
      else match disk
        case Raises(m) => Notice(Error, m)
        case Returns(d) =>
          var cpu := (CpuDelta(s) as real / SystemDelta(s) as real) * 100.0;
          var memory := (s.memoryUsage as real / s.memoryLimit as real) * 100.0;
          // each threshold comparison can only raise the status to warning
          var afterCpu := if cpu > cpuMax then Warning else Healthy;
          var afterMemory := if memory > memoryMax then Warning else afterCpu;
          var afterDisk := if d > diskMax then Warning else afterMemory;
          Usage(afterDisk, cpu, memory, d)
  }

  /** `check_restart_count`: warning iff the restart count strictly exceeds
      the limit, so a count equal to the limit is healthy. */
  function RestartCheck<E>(limit: real, restarts: Probe<int>): (r: CheckResult<E>)
    ensures restarts.Missing? ==> r == Notice(Error, ContainerNotFound)
    ensures restarts.Raised? ==> r == Notice(Error, restarts.message)
    ensures restarts.Found? ==>
              && r.Restarts? && r.restartCount == restarts.value
              && (r.status == Warning <==> restarts.value as real > limit)
              && (r.status == Healthy <==> restarts.value as real <= limit)
  {
    match restarts
    case Missing => Notice(Error, ContainerNotFound)
    case Raised(m) => Notice(Error, m)
    case Found(n) => Restarts(if n as real > limit then Warning else Healthy, n)
  }

  /** The configured patterns that occur in `text`, in configured order. */
  function Matching(patterns: seq<string>, text: string): (r: seq<string>)
    ensures |r| <= |patterns|
    ensures forall i :: 0 <= i < |r| ==> r[i] in patterns && IsSubstring(r[i], text)
  {
    if patterns == [] then []
    else
      var last := patterns[|patterns| - 1];
      assert patterns == patterns[..|patterns| - 1] + [last];
      Matching(patterns[..|patterns| - 1], text) + (if IsSubstring(last, text) then [last] else [])
  }

  /** A pattern is reported exactly when it is configured and occurs in the text. */
  lemma {:induction false} MatchingMembers(patterns: seq<string>, text: string, p: string)
    ensures p in Matching(patterns, text) <==> p in patterns && exists i :: OccursAt(p, text, i)
  {
    IsSubstringCorrect(p, text);
    if patterns != [] {
      var init := patterns[..|patterns| - 1];
      MatchingMembers(init, text, p);
      assert patterns == init + [patterns[|patterns| - 1]];
    }
  }

  /** The loop of `check_logs_for_errors`: append every pattern that occurs
      in the log text, in configured order. */
  method ScanLogs(patterns: seq<string>, text: string) returns (found: seq<string>)
    ensures found == Matching(patterns, text)
    ensures forall p :: p in found <==> p in patterns && exists i :: OccursAt(p, text, i)
  {
    found := [];
    var i := 0;
    while i < |patterns|
      invariant 0 <= i <= |patterns|
      invariant found == Matching(patterns[..i], text)
    {
      var pattern := patterns[i];
      assert patterns[..i + 1][..i] == patterns[..i];
      if IsSubstring(pattern, text) {
        found := found + [pattern];
      }
      i := i + 1;
    }
    assert patterns[..i] == patterns;
    forall p ensures p in found <==> p in patterns && exists i :: OccursAt(p, text, i) {
      MatchingMembers(patterns, text, p);
    }
  }

  /** The result of the log scan once the container and its log tail are in
      hand: warning iff some pattern occurs, with the ordered list of the
      patterns that do and their number. */
  function LogScanOutcome<E>(patterns: seq<string>, logs: Probe<string>): (r: CheckResult<E>)
    ensures logs.Missing? ==> r == Notice(Error, ContainerNotFound)
    ensures logs.Raised? ==> r == Notice(Error, logs.message)
    ensures logs.Found? ==>
              && r.LogScan?
              && r.errorsFound == Matching(patterns, logs.value)
              && r.errorCount == |r.errorsFound| <= |patterns|
              && (r.status == Warning <==> r.errorsFound != [])
              && (r.status == Healthy <==> r.errorsFound == [])
  {
    match logs
    case Missing => Notice(Error, ContainerNotFound)
    case Raised(m) => Notice(Error, m)
    case Found(text) =>
      var found := Matching(patterns, text);
      LogScan(if found != [] then Warning else Healthy, found, |found|)
  }

  /** `check_logs_for_errors` from the container lookup on: read the tail
      and run the pattern loop. */
  method ScanContainerLogs<E>(patterns: seq<string>, logs: Probe<string>) returns (r: CheckResult<E>)
    ensures r == LogScanOutcome(patterns, logs)
  {
    match logs
    case Missing => r := Notice(Error, ContainerNotFound);
    case Raised(m) => r := Notice(Error, m);
    case Found(text) =>
      var found := ScanLogs(patterns, text);
      r := LogScan(if found != [] then Warning else Healthy, found, |found|);
  }
}
