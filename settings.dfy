/** What `src/config.py` and `config.py` share: the threshold table, the
    loop of `validate` that rejects the first negative threshold, and the
    fallback of `_parse_error_patterns`. */
module Settings {
  import opened Common

  /** `self.thresholds`; `restart_count` is an int, the others floats. */
  datatype Thresholds = Thresholds(
    cpuPercent: real, memoryPercent: real, diskPercent: real,
    responseTime: real, restartCount: int)

  /** The values used when no environment variable overrides them. */
  const DefaultThresholds := Thresholds(75.0, 80.0, 90.0, 1.5, 3)

  /** `self.thresholds.items()` in insertion order. */
  function Items(t: Thresholds): (r: seq<(string, real)>)
    ensures |r| == 5
  {
    [("cpu_percent", t.cpuPercent),
     ("memory_percent", t.memoryPercent),
     ("disk_percent", t.diskPercent),
     ("response_time", t.responseTime),
     ("restart_count", t.restartCount as real)]
  }

  predicate NonNegative(t: Thresholds)
  {
    forall i :: 0 <= i < |Items(t)| ==> Items(t)[i].1 >= 0.0
  }

  /** The threshold loop of `validate`: the first item, in order, whose value
      is negative, or `None` when there is none. */
  method FirstNegative(items: seq<(string, real)>) returns (r: Option<(string, real)>)
    ensures r.None? <==> forall i :: 0 <= i < |items| ==> items[i].1 >= 0.0
    ensures r.Some? ==> exists j :: 0 <= j < |items| && items[j] == r.value && r.value.1 < 0.0
                                    && forall i :: 0 <= i < j ==> items[i].1 >= 0.0
  {
    var k := 0;
    while k < |items|
      invariant 0 <= k <= |items|
      invariant forall i :: 0 <= i < k ==> items[i].1 >= 0.0
    {
      var (key, value) := items[k];
      if value < 0.0 {
        return Some((key, value));
      }
      k := k + 1;
    }
    return None;
  }

  /** The `ERROR_PATTERNS` default, as text and as the list it stands for. */
  const DefaultPatternsText := "[\"ERROR\", \"FATAL\", \"Exception\"]"
  const DefaultErrorPatterns: seq<string> := ["ERROR", "FATAL", "Exception"]

  /** `_parse_error_patterns`: decode the variable (or its default text);
      when decoding fails, fall back to the default pattern list. `decode`
      stands for `json.loads`, `None` for a `JSONDecodeError`. */
  function ParseErrorPatterns(variable: Option<string>, decode: string -> Option<seq<string>>): (r: seq<string>)
    ensures decode(variable.GetOr(DefaultPatternsText)).None? ==> r == ["ERROR", "FATAL", "Exception"]
    ensures decode(variable.GetOr(DefaultPatternsText)).Some? ==> r == decode(variable.GetOr(DefaultPatternsText)).value
  {
    match decode(variable.GetOr(DefaultPatternsText))
    case Some(patterns) => patterns
    case None => DefaultErrorPatterns
  }

  /** With the variable unset, the patterns are the default list whether or
      not the decoder accepts the default text, as long as it does not decode
      it to something else. */
  lemma UnsetVariableGivesDefaults(decode: string -> Option<seq<string>>)
    requires decode(DefaultPatternsText) == Some(DefaultErrorPatterns) || decode(DefaultPatternsText).None?
    ensures ParseErrorPatterns(None, decode) == DefaultErrorPatterns
  {
  }
}
