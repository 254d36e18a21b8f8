/** `PortManager` of `src/utils.py`: pick the exporter's listening port by a
    bounded first-fit scan upward from a start port, and release the socket
    it holds. Whether a port in 0-65535 can be bound is an abstract
    predicate `free`; binding any other port raises. */
module Ports {
  import opened Common

  /** An open socket, by its descriptor. */
  datatype Socket = Socket(fd: nat)

  /** The errors of a port scan. */
  datatype PortError =
      /** The `RuntimeError` of `find_available_port`:
          "No available ports found in range {first}-{last}". */
    | NoAvailablePort(first: int, last: int)
      /** The `OverflowError` that `bind` raises for a port outside 0-65535;
          `check_port_available` catches only `OSError`, so it escapes. */
    | PortOutOfRange(port: int)

  /** The `max_attempts` of `find_available_port` when none is passed. */
  const DefaultMaxAttempts := 10

  /** The port numbers `bind` accepts. */
  predicate Bindable(port: int)
  {
    0 <= port <= 65535
  }

  /** Where the scan stops: at a port that can be bound, or at one whose
      `bind` raises instead of answering. */
  function Stops(free: int -> bool): int -> bool
  {
    p => !Bindable(p) || free(p)
  }

  /** The ports `start`, `start + 1`, ..., `end - 1` (none when `end <= start`). */
  function Range(start: int, end: int): (r: seq<int>)
    ensures |r| == if end > start then end - start else 0
    ensures forall i :: 0 <= i < |r| ==> r[i] == start + i
  {
    if end <= start then [] else seq(end - start, i => start + i)
  }

  /** First fit: the lowest of the `count` ports from `start` on that
      satisfies `hit`, if any. */
  function FirstFit(start: int, count: int, hit: int -> bool): (r: Option<int>)
    ensures r.Some? ==> start <= r.value < start + count && hit(r.value)
    decreases if count > 0 then count else 0
  {
    if count <= 0 then None
    else if hit(start) then Some(start)
    else FirstFit(start + 1, count - 1, hit)
  }

  /** First fit finds a port in range that satisfies `hit` below which no
      port does, and finds none exactly when no port in range does. */
  lemma {:induction false} FirstFitIsFirst(start: int, count: int, hit: int -> bool)
    ensures FirstFit(start, count, hit).Some? ==>
              var p := FirstFit(start, count, hit).value;
              start <= p < start + count && hit(p) && forall q :: start <= q < p ==> !hit(q)
    ensures FirstFit(start, count, hit).None? <==> forall q :: start <= q < start + count ==> !hit(q)
    decreases if count > 0 then count else 0
  {
    if count > 0 && !hit(start) {
      FirstFitIsFirst(start + 1, count - 1, hit);
    }
  }

  /** Reference outcome of `find_available_port(count)` from `start`: the
      first port where the scan stops is returned if it binds and raises
      `OverflowError` otherwise; with no stop the range error is raised. */
  function ScanOutcome(start: int, count: int, free: int -> bool): (r: Result<int, PortError>)
    ensures count <= 0 ==> r == Err(NoAvailablePort(start, start + count - 1))
  {
    match FirstFit(start, count, Stops(free))
    case None => Err(NoAvailablePort(start, start + count - 1))
    case Some(p) => if Bindable(p) then Ok(p) else Err(PortOutOfRange(p))
  }

  /** The scan returns the first free port in range, every lower port in
      range being bindable and taken; it raises `OverflowError` for the first
      port in range that cannot be bound when every port before it is taken;
      otherwise every port in range is bindable and taken and the range
      error names the first and last port. */
  lemma ScanOutcomeIs(start: int, count: int, free: int -> bool)
    ensures var r := ScanOutcome(start, count, free);
            && (r.Ok? ==>
                  && start <= r.value < start + count && Bindable(r.value) && free(r.value)
                  && forall q :: start <= q < r.value ==> Bindable(q) && !free(q))
            && (r.Err? && r.error.PortOutOfRange? ==>
                  && start <= r.error.port < start + count && !Bindable(r.error.port)
                  && forall q :: start <= q < r.error.port ==> Bindable(q) && !free(q))
            && (r.Err? && r.error.NoAvailablePort? ==>
                  && r.error == NoAvailablePort(start, start + count - 1)
                  && forall q :: start <= q < start + count ==> Bindable(q) && !free(q))
  {
    var stop := Stops(free);
    FirstFitIsFirst(start, count, stop);
    assert forall q :: stop(q) == (!Bindable(q) || free(q));
  }

  /** A scan that reaches past port 65535 while every port up to 65535 is
      taken raises `OverflowError` for port 65536, not the range error. */
  lemma ScanPastLastPortOverflows(start: int, count: int, free: int -> bool)
    requires 0 <= start <= 65535 && 65536 < start + count
    requires forall q :: start <= q <= 65535 ==> !free(q)
    ensures ScanOutcome(start, count, free) == Err(PortOutOfRange(65536))
  {
    var stop := Stops(free);
    FirstFitIsFirst(start, count, stop);
    assert forall q :: stop(q) == (!Bindable(q) || free(q));
    assert stop(65536) && start <= 65536 < start + count;
    var p := FirstFit(start, count, stop).value;
    assert !stop(p - 1) || p == start;
  }

  class PortManager {
    var startPort: int
    var currentSocket: Option<Socket>
    /** The ports whose availability has been tested, in order. */
    ghost var probed: seq<int>
    /** The sockets that `cleanup` has closed, in order. */
    ghost var closed: seq<Socket>

    constructor(startPort: int)
      ensures this.startPort == startPort && currentSocket == None
      ensures probed == [] && closed == []
    {
      this.startPort := startPort;
      currentSocket := None;
      probed := [];
      closed := [];
    }

    /** `check_port_available`: try to bind the port. A bindable port
        answers `free(port)`; any other port raises `OverflowError`. */
    method CheckPortAvailable(port: int, free: int -> bool) returns (r: Result<bool, PortError>)
      modifies this
      ensures r == if Bindable(port) then Ok(free(port)) else Err(PortOutOfRange(port))
      ensures probed == old(probed) + [port]
      ensures startPort == old(startPort) && currentSocket == old(currentSocket) && closed == old(closed)
    {
      probed := probed + [port];
      if !Bindable(port) {
        return Err(PortOutOfRange(port));
      }
      r := Ok(free(port));
    }

    /** `find_available_port`: test the ports from `startPort` upward, at
        most `maxAttempts` of them, and return the first free one; an
        unbindable port ends the scan with `OverflowError`; raise the range
        error when none is free (always, when `maxAttempts <= 0`). */
    method FindAvailablePort(maxAttempts: int, free: int -> bool) returns (r: Result<int, PortError>)
      modifies this
      ensures r == ScanOutcome(startPort, maxAttempts, free)
      ensures probed == old(probed) + Range(startPort, if r.Ok? then r.value + 1
                                                       else if r.error.PortOutOfRange? then r.error.port + 1
                                                       else startPort + maxAttempts)
      ensures |probed| - |old(probed)| <= if maxAttempts > 0 then maxAttempts else 0
      ensures startPort == old(startPort) && currentSocket == old(currentSocket) && closed == old(closed)
    {
      var start, end := startPort, startPort + maxAttempts;
      var stop := Stops(free);
      FirstFitIsFirst(start, maxAttempts, stop);
      var port := start;
      while port < end
        invariant start == startPort && end == start + maxAttempts
        invariant start <= port && (port <= end || port == start)
        invariant probed == old(probed) + Range(start, port)
        invariant FirstFit(start, maxAttempts, stop) == FirstFit(port, end - port, stop)
        invariant currentSocket == old(currentSocket) && closed == old(closed)
      {
        assert Range(start, port + 1) == Range(start, port) + [port];
        var answer := CheckPortAvailable(port, free);
        match answer
        case Err(e) =>
          return Err(e);
        case Ok(ok) =>
          if ok {
            return Ok(port);
          }
        port := port + 1;
      }
      return Err(NoAvailablePort(start, end - 1));
    }

    /** `cleanup`: close the held socket, if any (an exception from `close`
        is swallowed), and drop it. A second call finds no socket and
        changes nothing. */
    method Cleanup()
      modifies this
      ensures currentSocket == None
      ensures closed == if old(currentSocket).Some? then old(closed) + [old(currentSocket).value] else old(closed)
      ensures startPort == old(startPort) && probed == old(probed)
      ensures old(currentSocket).None? ==> unchanged(this)
    {
      if currentSocket.Some? {
        closed := closed + [currentSocket.value];
        currentSocket := None;
      }
    }
  }
}
