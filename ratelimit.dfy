/** The quota snapshot read from the `x-ratelimit-*` response headers. */
module RateLimits {
  import opened Wrappers
  import opened Strings
  import opened Faults

  /** Response headers, looked up by lower-case name. */
  type Headers = map<string, string>

  const LimitHeader := "x-ratelimit-limit"
  const RemainingHeader := "x-ratelimit-remaining"
  const ResetHeader := "x-ratelimit-reset"

  /** `resetMs` is the reset instant in milliseconds since the UTC epoch. */
  datatype RateLimit = RateLimit(limit: int, remaining: int, resetMs: int) {

    /** The snapshot's truthiness at instant `now` (milliseconds): requests
        are left, or the reset instant has passed. */
    predicate HasCapacity(now: int) {
      remaining > 0 || now > resetMs
    }
  }

  /** One numeric header: Ok(None) when it is absent (the KeyError that
      `from_http` absorbs), a ValueError when it is not a number. */
  function NumericHeader(headers: Headers, name: string): (r: Result<Option<int>, Fault>)
    ensures r == Success(None) <==> name !in headers
    ensures r.Success? && r.value.Some? <==> name in headers && ParseInt(headers[name]).Some?
    ensures r.Success? && r.value.Some? ==> r.value.value == ParseInt(headers[name]).value
    ensures r.Failure? ==> r.error == ValueError
  {
    if name !in headers then Success(None)
    else match ParseInt(headers[name])
      case Some(n) => Success(Some(n))
      case None => Failure(ValueError)
  }

  /** `RateLimit.from_http`: the three headers are read in the order limit,
      remaining, reset; the first one missing gives None, the first one that
      is not a number raises ValueError. */
  function FromHttp(headers: Headers): (r: Result<Option<RateLimit>, Fault>)
  {
    match NumericHeader(headers, LimitHeader)
    case Failure(f) => Failure(f)
    case Success(None) => Success(None)
    case Success(Some(limit)) =>
      match NumericHeader(headers, RemainingHeader)
      case Failure(f) => Failure(f)
      case Success(None) => Success(None)
      case Success(Some(remaining)) =>
        match NumericHeader(headers, ResetHeader)
        case Failure(f) => Failure(f)
        case Success(None) => Success(None)
        case Success(Some(reset)) => Success(Some(RateLimit(limit, remaining, reset)))
  }

  /** A header that is present and a number. */
  predicate Numeric(headers: Headers, name: string) {
    name in headers && ParseInt(headers[name]).Some?
  }

  /** With all three headers present and numeric, the snapshot holds their values. */
  lemma FromHttpPresent(headers: Headers)
    requires Numeric(headers, LimitHeader) && Numeric(headers, RemainingHeader)
    requires Numeric(headers, ResetHeader)
    ensures FromHttp(headers) == Success(Some(RateLimit(
              ParseInt(headers[LimitHeader]).value,
              ParseInt(headers[RemainingHeader]).value,
              ParseInt(headers[ResetHeader]).value)))
  {
  }

  /** None exactly when a header is missing before any non-numeric one. */
  lemma FromHttpNone(headers: Headers)
    ensures FromHttp(headers) == Success(None) <==>
      LimitHeader !in headers
      || (Numeric(headers, LimitHeader) && RemainingHeader !in headers)
      || (Numeric(headers, LimitHeader) && Numeric(headers, RemainingHeader) && ResetHeader !in headers)
  {
  }

  /** Only a non-numeric value raises, and then only if every header before it is numeric. */
  lemma FromHttpFails(headers: Headers)
    ensures FromHttp(headers).Failure? <==>
      (LimitHeader in headers && !Numeric(headers, LimitHeader))
      || (Numeric(headers, LimitHeader) && RemainingHeader in headers && !Numeric(headers, RemainingHeader))
      || (Numeric(headers, LimitHeader) && Numeric(headers, RemainingHeader)
          && ResetHeader in headers && !Numeric(headers, ResetHeader))
    ensures FromHttp(headers).Failure? ==> FromHttp(headers).error == ValueError
  {
  }

  /** Without the limit header there is no snapshot, whatever the other two
      headers hold: a response with no rate-limit headers gives None. */
  lemma FromHttpWithoutHeaders(headers: Headers)
    requires LimitHeader !in headers
    ensures FromHttp(headers) == Success(None)
  {
  }

  /** Headers written with `str(n)` parse back to the very numbers. */
  lemma FromHttpRoundTrip(headers: Headers, limit: int, remaining: int, reset: int)
    requires LimitHeader in headers && headers[LimitHeader] == IntToString(limit)
    requires RemainingHeader in headers && headers[RemainingHeader] == IntToString(remaining)
    requires ResetHeader in headers && headers[ResetHeader] == IntToString(reset)
    ensures FromHttp(headers) == Success(Some(RateLimit(limit, remaining, reset)))
  {
    ParseIntOfIntToString(limit);
    ParseIntOfIntToString(remaining);
    ParseIntOfIntToString(reset);
  }

  /** The capacity rule: a snapshot with no requests left has capacity
      exactly when `now` is strictly after the reset instant. */
  lemma ExhaustedSnapshot(rl: RateLimit, now: int)
    requires rl.remaining <= 0
    ensures rl.HasCapacity(now) <==> now > rl.resetMs
    ensures now == rl.resetMs ==> !rl.HasCapacity(now)
  {
  }
}
