/** `Config` of the top-level `config.py`: fewer settings than
    `src/config.py`, and a `validate` with three guards. */
module LegacyConfiguration {
  import opened Common
  import opened Settings

  datatype ApiSettings = ApiSettings(enabled: bool, timeout: int)

  /** `monitoring_config`. */
  datatype Monitoring = Monitoring(prometheusPort: int, checkInterval: int)

  datatype Config = Config(
    containerName: string,
    thresholds: Thresholds,
    api: ApiSettings,
    monitoring: Monitoring,
    errorPatterns: seq<string>)

  /** The `ValueError`s of `validate`, one per guard. */
  datatype ConfigError =
    | InvalidThreshold(key: string, value: real)  // "Invalid threshold value for {key}: {value}"
    | NonPositiveInterval                         // "Check interval must be positive"
    | BadPrometheusPort                           // "Invalid Prometheus port number"

  /** The configurations `validate` accepts. */
  predicate Valid(c: Config)
  {
    && NonNegative(c.thresholds)
    && c.monitoring.checkInterval >= 1
    && 1024 <= c.monitoring.prometheusPort <= 65535
  }

  /** `validate`: the guards run in the order thresholds, interval, port; it
      returns normally iff all three hold and otherwise raises the first
      failure. */
  method Validate(c: Config) returns (r: Outcome<ConfigError>)
    ensures r.Pass? <==> Valid(c)
    ensures !NonNegative(c.thresholds) ==>
              && r.Fail? && r.error.InvalidThreshold?
              && exists j :: 0 <= j < 5 && Items(c.thresholds)[j] == (r.error.key, r.error.value)
                             && r.error.value < 0.0
                             && forall i :: 0 <= i < j ==> Items(c.thresholds)[i].1 >= 0.0
    ensures NonNegative(c.thresholds) && c.monitoring.checkInterval < 1 ==>
              r == Fail(NonPositiveInterval)
    ensures NonNegative(c.thresholds) && c.monitoring.checkInterval >= 1
            && !(1024 <= c.monitoring.prometheusPort <= 65535) ==>
              r == Fail(BadPrometheusPort)
  {
    var negative := FirstNegative(Items(c.thresholds));
    if negative.Some? {
      return Fail(InvalidThreshold(negative.value.0, negative.value.1));
    }
    if c.monitoring.checkInterval < 1 {
      return Fail(NonPositiveInterval);
    }
    if !(1024 <= c.monitoring.prometheusPort <= 65535) {
      return Fail(BadPrometheusPort);
    }
    return Pass;
  }
}
