/** Shared value types: the outcomes of the collaborators (Docker, HTTP,
    the host filesystem) that the health engine receives as inputs, and the
    small text helpers the engine needs (substring test, integer rendering). */
module Common {

  datatype Option<T> = None | Some(value: T) {
    function GetOr(default: T): T {
      match this
      case Some(v) => v
      case None => default
    }
  }

  /** A value or the error an operation raised. */
  datatype Result<T, E> = Ok(value: T) | Err(error: E)

  /** Normal return or the error a guard raised. */
  datatype Outcome<E> = Pass | Fail(error: E)

  /** Outcome of looking up the monitored container and then reading one
      attribute of it: the lookup misses (`docker.errors.NotFound`), the read
      raises an exception with the given text, or the read returns a value. */
  datatype Probe<T> = Missing | Raised(message: string) | Found(value: T)

  /** Outcome of a call that either raises (with the exception text) or returns. */
  datatype Fallible<T> = Raises(message: string) | Returns(value: T)

  /** Body of an HTTP response as the JSON decoder sees it: not JSON at all,
      or a JSON object that may carry a "message" member. */
  datatype Body = NonJson | Json(message: Option<string>)

  /** Outcome of one HTTP request: a response with its status code, the
      elapsed time in seconds and its body, or a `RequestException`. */
  datatype HttpReply =
    | Response(statusCode: int, elapsed: real, body: Body)
    | RequestFailed(error: string)

  // ---------------------------------------------------------------- text

  /** Python's `pattern in text` for strings: `pat` occurs at position `i`. */
  predicate OccursAt(pat: string, text: string, i: int)
  {
    0 <= i && i + |pat| <= |text| && text[i..i + |pat|] == pat
  }

  /** Executable substring test: `pat` is a prefix of `text` or of one of its
      suffixes. */
  function IsSubstring(pat: string, text: string): bool
    decreases |text|
  {
    pat <= text || (|text| > 0 && IsSubstring(pat, text[1..]))
  }

  /** The substring test finds an occurrence exactly when there is one. */
  lemma {:induction false} IsSubstringCorrect(pat: string, text: string)
    ensures IsSubstring(pat, text) <==> exists i :: OccursAt(pat, text, i)
    decreases |text|
  {
    if pat <= text {
      assert OccursAt(pat, text, 0);
    } else if |text| > 0 {
      IsSubstringCorrect(pat, text[1..]);
      if exists i :: OccursAt(pat, text[1..], i) {
        var i :| OccursAt(pat, text[1..], i);
        assert text[1..][i..i + |pat|] == text[i + 1..i + 1 + |pat|];
        assert OccursAt(pat, text, i + 1);
      }
      if exists i :: OccursAt(pat, text, i) {
        var i :| OccursAt(pat, text, i);
        if i > 0 {
          assert text[1..][i - 1..i - 1 + |pat|] == text[i..i + |pat|];
          assert OccursAt(pat, text[1..], i - 1);
        }
      }
    }
  }

  function DigitChar(d: nat): char
    requires d < 10
  {
    "0123456789"[d]
  }

  function NatToString(n: nat): string
    decreases n
  {
    if n < 10 then [DigitChar(n)] else NatToString(n / 10) + [DigitChar(n % 10)]
  }

  /** Python's `str(i)` for an integer. */
  function IntToString(i: int): string
  {
    if i < 0 then "-" + NatToString(-i) else NatToString(i)
  }
}
