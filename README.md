# Docker health status: the evaluation engine in Dafny

This project models the health-evaluation engine of the Docker health
status suite. The engine runs a fixed sequence of checks against one
monitored container and the services around it:

- container liveness;
- CPU, memory and disk usage against thresholds;
- HTTP probes of API endpoints;
- a substring scan of the container's log tail;
- the restart count;
- the RabbitMQ management API.

Each check yields a status: healthy, skipped, warning or error. The engine
folds these into an overall status and projects the finished report onto
Prometheus metrics. The project also models the configuration validators
and the exporter's port search.

Two versions of the engine exist, and both are modelled:

- `src/checks.py` (`HealthChecks`) is the current engine. It takes its
  settings from `Config`, probes a default `/health` endpoint when none is
  given, checks RabbitMQ and writes metrics.
- `docker_healthcheck.py` (`LegacyHealthChecks`) is the older standalone
  engine. It has its own threshold table, an `expected_status` per
  endpoint and a "slow" classification. Its API and log checks run only
  when their inputs are supplied, and it writes no metrics.

Nothing is called for real. What the Docker daemon, `psutil`, the HTTP
endpoints and the broker answer is passed in as a value:

- `Probe` is the container lookup followed by one read of the
  container: the lookup misses (`NotFound`), the read raises, or the read
  returns a value;
- `HttpReply` is a response or a `RequestException`;
- `BrokerReply` is a management-API reply;
- the `Observations` records bundle one run's answers.

The Prometheus registry is an append-only log of metric writes, the
`events` field of the `Metrics.Registry` class. Each engine method that
writes metrics is proved to append exactly the writes of a specification
function:

- `ApiProbe.ProbeEventsAll` for the API probes;
- `Broker.BrokerEvents` for the RabbitMQ check;
- `Projection.ProjectionEvents` for the report projection, combined with
  `Projection.Recorded` for its partial-failure rule.

The lemmas then state what those write lists contain.

Some behaviours of the code look unintended. The model keeps them as
written:

- **CPU percentage.** A zero `system_delta` (or memory limit) is not
  guarded. The division raises `ZeroDivisionError` and the check turns
  that into an error result, so such a sample never reports a CPU
  percentage of 0.
- **API aggregate status.** The current engine sets it by
  last-write-wins: each non-200 endpoint overwrites it. It is therefore
  not the maximum severity across endpoints
  (`ApiProbe.ApiStatusIsNotMaximum` gives an example).
- **Response time.** Unlike the legacy `docker_healthcheck.py`, the
  current engine never downgrades a slow answer to "warning".
- **Queue gauges.** The projection never writes them. It reads a
  top-level "queues" key that the broker result never has.

## Model

| member | source | states |
|---|---|---|
| Common.IsSubstringCorrect | src/checks.py:242 | Python's `pattern in logs` holds iff the pattern occurs at some index of the text |
| Statuses.Worst | src/checks.py:519-525 | the overall status of a list of check statuses is never skipped |
| Statuses.WorstIs | src/checks.py:519-525 | the overall status is error if any status is error, else warning if any is warning, else healthy |
| Statuses.WorstIsMaximum | src/checks.py:519-525 | the overall status has the maximum severity of the list |
| Statuses.WorstOrderIndependent | src/checks.py:519-525 | the overall status depends only on the multiset of statuses, not their order |
| Statuses.SkippedIsNeutral | src/checks.py:519-525 | inserting a skipped status anywhere never changes the overall status |
| Statuses.FoldOverall | src/checks.py:519-525 | the walk with `break` ends in error if some status is error, otherwise in warning if some is warning, otherwise in its starting value |
| Evaluation.ContainerIsRunning | src/checks.py:55-63 | running iff the lookup finds the container and its status is exactly "running" |
| Evaluation.ResourceUsage | src/checks.py:65-116 | error "Container not found" on a missed lookup; the raised message when stats or disk usage raise; "division by zero" on a zero system delta or memory limit; otherwise cpu = cpu_delta/system_delta*100 and mem = usage/limit*100, with warning iff some value strictly exceeds its threshold and healthy iff none does; the older engine's check (docker_healthcheck.py:80-134) is the same function over its own threshold table |
| Evaluation.RestartCheck | src/checks.py:254-267 | error on a missed lookup or a raised attribute read; otherwise warning iff restarts > limit (strictly) and healthy iff restarts <= limit, with the count reported; the older engine's check (docker_healthcheck.py:214-227) is the same function with the limit from its table |
| Evaluation.Matching | src/checks.py:241-243 | the found list is no longer than the pattern list, and each found pattern is configured and occurs in the log text |
| Evaluation.MatchingMembers | src/checks.py:241-243 | a pattern is in the found list iff it is configured and occurs in the logs |
| Evaluation.ScanLogs | src/checks.py:239-243 | the pattern loop yields the configured patterns that occur in the log text, in configured order |
| Evaluation.LogScanOutcome | src/checks.py:233-252 | error on a missed lookup or a failed read; otherwise errors_found is the ordered sublist of occurring patterns, error_count is its length (at most the number of patterns), and the status is warning iff the list is non-empty, healthy iff it is empty |
| Evaluation.ScanContainerLogs | docker_healthcheck.py:186-212 | the pattern loop and result of the log check, which both engines run, return the log-scan outcome; in the older engine it runs with no skip guard |
| Settings.FirstNegative | src/config.py:103-105 | no item is returned iff every threshold is non-negative; otherwise the first negative item in insertion order |
| Settings.ParseErrorPatterns | src/config.py:69-75 | a decodable variable (or default text) gives the decoded list; a decoding failure gives exactly ["ERROR", "FATAL", "Exception"]; the top-level configuration (config.py:54-60) uses the same fallback |
| Settings.UnsetVariableGivesDefaults | src/config.py:71 | with the variable unset, the pattern list is the default list |
| Configuration.DefaultConfigIsValid | src/config.py:20-54 | the default thresholds, interval and port settings pass validation |
| Configuration.Validate | src/config.py:96-124 | passes iff all guards hold; otherwise fails with the first failing guard in source order: the first negative threshold by key, then interval < 1, Prometheus port outside [1024, 65535], range start outside it, attempts < 1, start + attempts > 65535 |
| Configuration.Valid | src/config.py:103-124 | an accepted configuration keeps every port of the configured port range [port_range_start, port_range_start + max_port_attempts) inside [1024, 65535]; that range is validated but never scanned |
| Configuration.AcceptedPortScanCanOverflow | src/main.py:44-45 | the exporter's scan starts at prometheus_port with 10 attempts and no guard bounds it: an accepted configuration with prometheus_port 65535, that port taken, raises OverflowError for port 65536 |
| LegacyConfiguration.Validate | config.py:81-97 | passes iff thresholds are non-negative, interval >= 1 and the Prometheus port lies in [1024, 65535]; otherwise the first failing guard in that order |
| Ports.FirstFit | src/utils.py:40-42 | the first-fit search for a port satisfying a predicate: a port it finds lies in [start, start + attempts) and satisfies the predicate |
| Ports.ScanOutcome | src/utils.py:38-46 | with no attempts the scan raises the range error naming start..start+attempts-1 |
| Ports.ScanOutcomeIs | src/utils.py:27-46 | the scan returns the first free port in range, all lower ones bindable and taken; or raises OverflowError for the first unbindable port in range, all lower ones taken; or raises the range error when every port in range is bindable and taken |
| Ports.ScanPastLastPortOverflows | src/utils.py:31-42 | a scan reaching past 65535 with every port from the start to 65535 taken raises OverflowError for port 65536, not the range error |
| Ports.FirstFitIsFirst | src/utils.py:40-42 | first fit returns a port in range satisfying the predicate below which none does, and returns none iff no port in range satisfies it |
| Ports.PortManager.constructor | src/utils.py:23-25 | a new manager holds its start port and no socket |
| Ports.PortManager.CheckPortAvailable | src/utils.py:27-36 | a port in 0-65535 answers its availability; any other port raises OverflowError, which the `OSError` handler does not catch; the port is recorded as probed |
| Ports.PortManager.FindAvailablePort | src/utils.py:38-46 | returns the reference scan outcome, probing exactly the ports up to the result, the overflowing port or the end of the range, at most `max_attempts` of them |
| Ports.PortManager.Cleanup | src/utils.py:48-55 | afterwards no socket is held, a held socket has been closed, and a second call changes nothing |
| ApiProbe.EffectiveEndpoints | src/checks.py:123-125 | no endpoints given means the single default `http://host:port/health` endpoint; otherwise the given list |
| ApiProbe.ReplyStatus | src/checks.py:183-195 | healthy iff the reply is a 200, warning iff it is a 429, error iff it is any other code or a failed request |
| ApiProbe.ClassifyReply | src/checks.py:159-224 | an entry carries its endpoint's URL and classification; a failed request gives code 503 and the error text; a response gives its code, time and message |
| ApiProbe.EndpointResults | src/checks.py:132-224 | exactly one entry per endpoint, in input order |
| ApiProbe.ApiStatus | src/checks.py:127-193 | the aggregate left by the loop is never skipped |
| ApiProbe.ApiStatusHealthyIff | src/checks.py:183-217 | the aggregate is healthy iff every endpoint answered 200 |
| ApiProbe.ApiStatusIsLastNonHealthy | src/checks.py:186-217 | otherwise it is the classification of the last endpoint that did not answer 200 |
| ApiProbe.ApiStatusIsNotMaximum | src/checks.py:186-193 | an error endpoint followed by a 429 endpoint leaves warning |
| ApiProbe.ApiOutcome | src/checks.py:118-226 | skipped "API health check disabled" when disabled; otherwise one entry per effective endpoint, in order, with the last-write aggregate |
| ApiProbe.ProbeHealthGauge | src/checks.py:183-215 | each probe sets the health gauge exactly once, to 1 iff it answered 200 |
| ApiProbe.ProbeHealthGauges | src/checks.py:132-215 | the loop sets the health gauge once per endpoint, in order, labelled with the endpoint |
| ApiProbe.MessageOf | src/checks.py:164-177 | a non-JSON body gives "Non-JSON response"; a JSON body gives its "message", or "No message provided" without one |
| ApiProbe.ProbeEvents | src/checks.py:155-215 | a response makes four writes and a failed request three, all labelled with the container and the endpoint URL and only to the four API metrics; the first sets the last-status gauge to the code, or to 503 when the request raised; the last sets the health gauge to 1 iff the reply is a 200 |
| ApiProbe.ProbeEventsAll | src/checks.py:132-215 | the loop writes only the four API metrics, always labelled with the monitored container |
| Broker.BrokerOutcome | src/checks.py:385-473 | healthy iff the overview answered 200 and the queue request did not raise; otherwise error with the connect or status message; the healthy result carries version, Erlang version and totals |
| Broker.QueueGauges | src/checks.py:437-444 | one message-count gauge per queue, in listing order |
| Broker.EmptyListingPlaceholder | src/checks.py:429-435 | an empty queue listing writes exactly one gauge, for the "default" queue, at 0 |
| Broker.LastUpAgreesWithOutcome | src/checks.py:400-473 | the last "up" gauge written is 1 iff the check's result is healthy |
| Broker.ListingEvents | src/checks.py:429-444 | an empty listing gives one write, otherwise one per queue labelled with that queue's name; all write the queue-message gauge, labelled with container name "rabbitmq" |
| Broker.BrokerEvents | src/checks.py:400-470 | the first write sets "up" to 1 iff the overview answered 200; a failed or non-200 overview gives that single write; every write goes to a broker metric and is labelled "rabbitmq", not the monitored container |
| Projection.ErrorCounts | src/checks.py:349-353 | one error-count increment per pattern found, labelled with that pattern |
| Projection.Recorded | src/checks.py:282-383 | when a write raises, the writes before it are kept and one failure increment follows; otherwise all writes are made |
| Projection.ProjectionStartsWithContainerUp | src/checks.py:284-287 | the first write sets container_up to 1 iff the container_running entry is healthy |
| Projection.ProjectionErrorCounts | src/checks.py:344-353 | error_count receives exactly one increment per errors_found pattern, in order, and nothing else |
| Projection.ResourceGauges | src/checks.py:289-309 | the resources section writes the three usage gauges iff the entry carries metrics |
| Projection.ProjectionResourceGauges | src/checks.py:289-309 | the usage gauges are written once each, with the reported values, iff the resources entry carries metrics, and never otherwise |
| Projection.ProjectionWritesNoQueueGauges | src/checks.py:370-375 | the projection never writes a queue-message gauge |
| Projection.UpEvents | src/checks.py:283-287 | the first section is a single container_up write labelled with the monitored container |
| Projection.ResourceEvents | src/checks.py:289-309 | the resources section writes only the three usage gauges, labelled with the monitored container |
| Projection.EndpointMetrics | src/checks.py:316-342 | an entry with a response time gives four writes, one without gives three; all go to the API metrics and carry the container and the entry's URL |
| Projection.EndpointsMetrics | src/checks.py:315-342 | the entry loop writes only the API metrics, labelled with the monitored container |
| Projection.ApiEvents | src/checks.py:311-342 | the API section writes only the API metrics, labelled with the monitored container |
| Projection.LogEvents | src/checks.py:344-353 | the log section writes only error_count, labelled with the monitored container |
| Projection.BrokerMetricEvents | src/checks.py:355-375 | the broker section writes only rabbitmq_up and the connection gauge, labelled with the monitored container |
| Projection.ProjectionEvents | src/checks.py:282-375 | every write of the projection is labelled with the monitored container |
| Projection.ReachedEntries | src/checks.py:322 | the entries that carry a response time, in order: an entry is kept iff it is in the list and carries one |
| Projection.EndpointsHealth | src/checks.py:315-342 | the entry loop sets the health gauge once per entry, in order, to 1 iff that entry is healthy |
| Projection.EndpointsResponseTimes | src/checks.py:315-325 | the entry loop observes the response time once per entry that carries one, in order, and never for the other entries |
| Projection.ProjectionApiHealth | src/checks.py:311-342 | with an "api_health" entry, the health gauge is set once per endpoint entry, in order, labelled with its URL, to 1 iff that entry is healthy; without it, never |
| Projection.ProjectionApiResponseTimes | src/checks.py:311-325 | with an "api_health" entry, the response-time histogram gets one observation per entry that carries a time, in order, with that time; none for failed requests, and none without the entry |
| Projection.ProjectionBrokerGauges | src/checks.py:355-368 | with a "rabbitmq" entry, rabbitmq_up is set exactly once, labelled with the monitored container (not "rabbitmq"), to 1 iff the entry is healthy, and the connection gauge once iff the entry has details; without the entry neither is written |
| HealthChecks.LogCheck | src/checks.py:228-252 | skipped "No error patterns configured" iff no pattern is configured, else the log-scan result |
| HealthChecks.RunningChecks | src/checks.py:494-517 | a running report has six entries with the API check enabled and five without; the first is container_running=healthy and the last the restart check |
| HealthChecks.RunningReportKeys | src/checks.py:494-517 | a running report's keys are container_running, resources, api_health (iff enabled), rabbitmq, logs, restart_count |
| HealthChecks.OverallHealthyIff | src/checks.py:519-525 | the overall status is healthy iff every check is healthy or skipped |
| HealthChecks.WorstHealthyIff | src/checks.py:519-525 | for any list of checks, the walk's result is healthy iff every check is healthy or skipped |
| HealthChecks.BrokerFailureIsOverallError | src/checks.py:503-525 | a broker error makes the overall status error, overriding the warning set before the walk |
| HealthChecks.RunningSetsContainerUp | src/checks.py:284-287 | after a running report, container_up is first set to 1 |
| HealthChecks.DockerHealthCheck.constructor | src/checks.py:17-23 | settings come from a fresh `Config()`, only the container name from the argument; the registry starts empty |
| HealthChecks.DockerHealthCheck.ProbeEndpoint | src/checks.py:132-224 | one probe yields the classified entry and appends exactly its metric writes |
| HealthChecks.DockerHealthCheck.ProbeAll | src/checks.py:132-226 | the endpoint loop returns the last-write aggregate and one entry per endpoint, in order, and appends each endpoint's writes in endpoint order |
| HealthChecks.DockerHealthCheck.CheckApiHealth | src/checks.py:118-226 | returns the API outcome and appends exactly the probe writes of every effective endpoint (none when disabled) |
| HealthChecks.DockerHealthCheck.CheckLogsForErrors | src/checks.py:228-252 | returns the log check result for the configured patterns |
| HealthChecks.DockerHealthCheck.CheckRabbitmqHealth | src/checks.py:385-473 | returns the broker outcome and appends exactly the broker writes |
| HealthChecks.DockerHealthCheck.RecordListing | src/checks.py:425-444 | a listing answered 200 appends one message gauge per queue, in order, or the single "default" gauge at 0 when it is empty |
| HealthChecks.DockerHealthCheck.UpdatePrometheusMetrics | src/checks.py:269-383 | appends the projection's writes, cut at the failing write and followed by one failure increment |
| HealthChecks.DockerHealthCheck.CheckRunningContainer | src/checks.py:494-525 | a running container gets the checks in source order, overall = worst status, and the log gains the API writes then the broker writes |
| HealthChecks.DockerHealthCheck.RecordWrites | src/checks.py:282-383 | appends the writes in order up to the one that raises, then one failure increment; all of them when none raises |
| HealthChecks.DockerHealthCheck.RunHealthCheck | src/checks.py:475-530 | not running: only container_running=error, overall error, no metric write; running: the checks in order, overall = worst status, and the log holds the API, broker and projection writes |
| LegacyHealthChecks.UpdateSemantics | docker_healthcheck.py:38-39 | supplied keys override, all other keys keep their defaults |
| LegacyHealthChecks.Classify | docker_healthcheck.py:166-172 | slow iff the time exceeds the limit (overriding unhealthy); unhealthy iff in time with a code other than expected (default 200); fine otherwise |
| LegacyHealthChecks.Entry | docker_healthcheck.py:150-182 | a failed request gives an error entry with its text; a response gives code, time and classification |
| LegacyHealthChecks.Entries | docker_healthcheck.py:149-184 | exactly one entry per endpoint, in order |
| LegacyHealthChecks.LastWritten | docker_healthcheck.py:144-184 | the aggregate left by the loop is never skipped |
| LegacyHealthChecks.LastWrittenHealthyIff | docker_healthcheck.py:166-177 | the aggregate is healthy iff every endpoint answered fine |
| LegacyHealthChecks.LastWrittenIsLast | docker_healthcheck.py:166-177 | otherwise it is warning or error as written by the last unhealthy, slow or failed endpoint |
| LegacyHealthChecks.LastWrittenIsNotMaximum | docker_healthcheck.py:170-177 | a failed request followed by a slow endpoint leaves warning |
| LegacyHealthChecks.ProbeEndpoint | docker_healthcheck.py:149-182 | one pass yields the endpoint's entry; the aggregate becomes error on a failed request, warning on an unhealthy or slow answer, and is kept on a fine one |
| LegacyHealthChecks.FoldStatuses | docker_healthcheck.py:273-279 | the walk ends in error if some check is error, else warning if some is warning, else healthy |
| LegacyHealthChecks.LegacyRunningChecks | docker_healthcheck.py:255-271 | a running report has three entries plus one for endpoints and one for patterns when given; the first is container_running=healthy and the last the restart check |
| LegacyHealthChecks.LegacyReportKeys | docker_healthcheck.py:255-271 | resources and restart_count always; api_health iff endpoints are given; logs iff patterns are given |
| LegacyHealthChecks.DockerHealthCheck.constructor | docker_healthcheck.py:17-39 | the table is the defaults (80, 85, 90, 2.0, 3) updated with the overrides, so every threshold the checks read is present |
| LegacyHealthChecks.DockerHealthCheck.CheckApiHealth | docker_healthcheck.py:136-184 | one entry per endpoint, in order, with the last-write aggregate |
| LegacyHealthChecks.DockerHealthCheck.RunHealthCheck | docker_healthcheck.py:229-281 | not running: only container_running=error and overall error; running: the checks in order and overall = worst status |

## Left out

- Docker SDK calls, `psutil.disk_usage`, HTTP requests, `time.time()`
  and `datetime.now()` are I/O. Their outcomes are parameters. The
  report's timestamps are not modelled.
- Logging is not modelled: handler setup, log lines, `os.makedirs` and
  the log file.
- `round(..., 2)` and `round(..., 3)` on percentages and response times
  are not modelled. Values are exact reals.
- The request method and the timeout of the HTTP calls are not modelled;
  the outcome of each request is an input. In `docker_healthcheck.py:155`
  the legacy request timeout is `thresholds["response_time"]`, the same
  limit that marks an answer "slow" at `docker_healthcheck.py:170`. Most
  answers slower than that limit would therefore raise a timeout
  exception, which the check records as an "error" entry, rather than
  arrive as a "slow" answer.
- `src/metrics.py` is not part of this model. Some metrics the engine
  writes are not declared there, and `.observe` is called on a gauge.
  The resulting `AttributeError` is not modelled on its own. The
  projection's `fault` index stands for any exception raised by a write.
  In the API and broker checks a write is assumed to succeed.
- Response bodies that are JSON but not objects (so `.get` fails) are not
  modelled. The same goes for broker bodies missing the keys the check
  reads: they would raise past the `RequestException` handler.
- Environment and dotenv loading, and `json.loads`, are not modelled.
  Configuration values are taken as parsed. The decoder of
  `_parse_error_patterns` is a parameter that yields a list of strings or
  a decoding failure. A text that decodes to a JSON value other than a
  list (`null`, say, which makes the log check "skipped", or a number) is
  not representable.
- The `isinstance` test of `validate` is not modelled. Thresholds are
  typed numbers, so it always holds.
- `print_colored_json`, `src/main.py` and `src/api.py` are console
  output, concurrency and a web endpoint. They are not part of this
  model, except the port scan `src/main.py:44-45` starts, which
  `Configuration.AcceptedPortScanCanOverflow` states.
- Container lookup errors other than `NotFound` are not modelled.
  `get_container` catches only `docker.errors.NotFound`
  (`src/checks.py:47-53`) and is called outside every `try`, so any other
  Docker error raised by the lookup escapes the check and
  `run_health_check`. `Probe` has no such outcome: every check returns.
- The socket bind of `check_port_available` is the availability
  predicate `free` for ports 0-65535; for any other port it raises
  `OverflowError`. `find_available_port` never stores a socket, so the
  socket `cleanup` closes is whatever the manager holds.
