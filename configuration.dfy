/** `Config` of `src/config.py`: the settings the health engine reads, and
    `validate`, a sequence of guards that raises on the first one that fails. */
module Configuration {
  import opened Common
  import opened Settings
  import opened Ports

  /** `api_config`: the API check switch, request timeout and the address of
      the default self-probe endpoint. */
  datatype ApiSettings = ApiSettings(enabled: bool, timeout: int, host: string, port: int)

  /** `monitoring_config`. */
  datatype Monitoring = Monitoring(
    prometheusPort: int, maxPortAttempts: int, portRangeStart: int, checkInterval: int)

  datatype Config = Config(
    containerName: string,
    thresholds: Thresholds,
    api: ApiSettings,
    monitoring: Monitoring,
    errorPatterns: seq<string>)

  /** The `ValueError`s of `validate`, one per guard. */
  datatype ConfigError =
    | InvalidThreshold(key: string, value: real)  // "Invalid threshold value for {key}: {value}"
    | NonPositiveInterval                         // "Check interval must be positive"
    | BadPrometheusPort                           // "Invalid Prometheus port number"
    | BadPortRangeStart                           // "Invalid port range start number"
    | NonPositivePortAttempts                     // "Max port attempts must be positive"
    | PortRangeTooLarge                           // "Port range exceeds maximum valid port number (65535)"

  const MinPort := 1024
  const MaxPort := 65535

  predicate PortInRange(p: int)
  {
    MinPort <= p <= MaxPort
  }

  /** The configurations `validate` accepts: every guard holds. They keep
      the configured port range `[port_range_start, port_range_start +
      max_port_attempts)` inside [1024, 65535]; that range is validated but
      no scan ever reads it. */
  predicate Valid(c: Config)
    ensures Valid(c) ==>
              forall p :: c.monitoring.portRangeStart <= p < c.monitoring.portRangeStart + c.monitoring.maxPortAttempts
                          ==> PortInRange(p)
  {
    && NonNegative(c.thresholds)
    && c.monitoring.checkInterval >= 1
    && PortInRange(c.monitoring.prometheusPort)
    && PortInRange(c.monitoring.portRangeStart)
    && c.monitoring.maxPortAttempts >= 1
    && c.monitoring.portRangeStart + c.monitoring.maxPortAttempts <= MaxPort
  }

  /** The defaults of every setting `validate` looks at. */
  function DefaultConfig(containerName: string, api: ApiSettings, patterns: seq<string>): Config
  {
    Config(containerName, DefaultThresholds, api, Monitoring(8000, 10, 8000, 60), patterns)
  }

  lemma DefaultConfigIsValid(containerName: string, api: ApiSettings, patterns: seq<string>)
    ensures Valid(DefaultConfig(containerName, api, patterns))
  {
  }

  /** The exporter's port scan starts at `prometheus_port` and tries the
      default number of ports, and no guard of `validate` bounds that scan:
      an accepted configuration whose Prometheus port is 65535, with that
      port taken, makes the scan raise `OverflowError` for port 65536. */
  lemma AcceptedPortScanCanOverflow(c: Config, free: int -> bool)
    requires Valid(c) && c.monitoring.prometheusPort == MaxPort && !free(MaxPort)
    ensures ScanOutcome(c.monitoring.prometheusPort, DefaultMaxAttempts, free) == Err(PortOutOfRange(MaxPort + 1))
  {
    ScanPastLastPortOverflows(c.monitoring.prometheusPort, DefaultMaxAttempts, free);
  }

  /** `validate`: returns normally iff every guard holds; otherwise raises
      the error of the first guard, in source order, that fails. The
      configuration is a value, so nothing in it changes. */
  method Validate(c: Config) returns (r: Outcome<ConfigError>)
    ensures r.Pass? <==> Valid(c)
    ensures !NonNegative(c.thresholds) ==>
              && r.Fail? && r.error.InvalidThreshold?
              && exists j :: 0 <= j < 5 && Items(c.thresholds)[j] == (r.error.key, r.error.value)
                             && r.error.value < 0.0
                             && forall i :: 0 <= i < j ==> Items(c.thresholds)[i].1 >= 0.0
    ensures NonNegative(c.thresholds) && c.monitoring.checkInterval < 1 ==>
              r == Fail(NonPositiveInterval)
    ensures NonNegative(c.thresholds) && c.monitoring.checkInterval >= 1
            && !PortInRange(c.monitoring.prometheusPort) ==>
              r == Fail(BadPrometheusPort)
    ensures NonNegative(c.thresholds) && c.monitoring.checkInterval >= 1
            && PortInRange(c.monitoring.prometheusPort)
            && !PortInRange(c.monitoring.portRangeStart) ==>
              r == Fail(BadPortRangeStart)
    ensures NonNegative(c.thresholds) && c.monitoring.checkInterval >= 1
            && PortInRange(c.monitoring.prometheusPort) && PortInRange(c.monitoring.portRangeStart)
            && c.monitoring.maxPortAttempts < 1 ==>
              r == Fail(NonPositivePortAttempts)
    ensures NonNegative(c.thresholds) && c.monitoring.checkInterval >= 1
            && PortInRange(c.monitoring.prometheusPort) && PortInRange(c.monitoring.portRangeStart)
            && c.monitoring.maxPortAttempts >= 1
            && c.monitoring.portRangeStart + c.monitoring.maxPortAttempts > MaxPort ==>
              r == Fail(PortRangeTooLarge)
  {
    var negative := FirstNegative(Items(c.thresholds));
    if negative.Some? {
      return Fail(InvalidThreshold(negative.value.0, negative.value.1));
    }
    if c.monitoring.checkInterval < 1 {
      return Fail(NonPositiveInterval);
    }
    if !(MinPort <= c.monitoring.prometheusPort <= MaxPort) {
      return Fail(BadPrometheusPort);
    }
    if !(MinPort <= c.monitoring.portRangeStart <= MaxPort) {
      return Fail(BadPortRangeStart);
    }
    if c.monitoring.maxPortAttempts < 1 {
      return Fail(NonPositivePortAttempts);
    }
    var portRangeEnd := c.monitoring.portRangeStart + c.monitoring.maxPortAttempts;
    if portRangeEnd > MaxPort {
      return Fail(PortRangeTooLarge);
    }
    return Pass;
  }
}
