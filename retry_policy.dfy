/** The retry half of the error interceptor: which failures are retried, the
    per-request budget and the exponential backoff with its 4-second cap.
    Only GET, HEAD and OPTIONS are retried: the safe methods of section
    9.2.1 of RFC 9110 less TRACE, narrower than the idempotent methods of
    section 9.2.2, which add PUT and DELETE. */
module RetryPolicy {
  import opened JsValues
  import opened HttpTypes

  const DEFAULT_RETRY := 2
  const BASE_DELAY_MS := 1000
  const MAX_DELAY_MS := 4000

  /** The configuration's method in lower case, GET when it is missing or empty. */
  function LowerMethod(cfg: RequestConfig): string {
    ToLower(OrElse(cfg.httpMethod, "get"))
  }

  predicate IsIdempotent(verb: string) {
    verb == "get" || verb == "head" || verb == "options"
  }

  /** A retry is considered only with a configuration, an idempotent method,
      and a failure that has no response or is a timeout. */
  predicate RetryEligible(cfg: Option<RequestConfig>, error: TransportError) {
    && cfg.Some?
    && IsIdempotent(LowerMethod(cfg.value))
    && (error.response.None? || error.code == Some(ECONNABORTED))
  }

  /** The retry budget: the configured number, else 2. */
  function MaxRetries(cfg: RequestConfig): int {
    cfg.retry.GetOr(DEFAULT_RETRY)
  }

  function Pow2(k: nat): (p: nat)
    ensures p >= 1
  {
    if k == 0 then 1 else 2 * Pow2(k - 1)
  }

  lemma {:induction false} Pow2Monotone(i: nat, j: nat)
    requires i <= j
    ensures Pow2(i) <= Pow2(j)
    decreases j
  {
    if i < j {
      Pow2Monotone(i, j - 1);
    }
  }

  /** `Math.min(1000 * 2 ** (attempt - 1), 4000)`: the delay before retry
      number `attempt`. */
  function Backoff(attempt: nat): (ms: nat)
    requires attempt >= 1
    ensures BASE_DELAY_MS <= ms <= MAX_DELAY_MS
  {
    var exp := BASE_DELAY_MS * Pow2(attempt - 1);
    if exp < MAX_DELAY_MS then exp else MAX_DELAY_MS
  }

  /** Later retries never wait less. */
  lemma BackoffMonotone(m: nat, n: nat)
    requires 1 <= m <= n
    ensures Backoff(m) <= Backoff(n)
  {
    Pow2Monotone(m - 1, n - 1);
  }

  /** With the default budget the delays are 1000 and 2000 ms; the cap is
      reached at the third retry and held from then on. */
  lemma {:induction false} BackoffSchedule(n: nat)
    requires n >= 3
    ensures Backoff(1) == 1000 && Backoff(2) == 2000
    ensures Backoff(n) == MAX_DELAY_MS
  {
    assert Pow2(2) == 4;
    Pow2Monotone(2, n - 1);
  }

  /** The error interceptor's verdict on one failure. */
  datatype Decision =
    | Retry(next: RequestConfig, delayMs: nat)  // wait, then re-issue `next`
    | Reject                                    // normalise the error and reject

  /** The eligible failure bumps `retryCount`; the request is re-issued while
      the bumped count is within the budget. */
  function OnError(cfg: Option<RequestConfig>, error: TransportError): (d: Decision)
    ensures d.Retry? <==> RetryEligible(cfg, error) && cfg.value.retryCount < MaxRetries(cfg.value)
    ensures d.Retry? ==>
              && d.next == cfg.value.(retryCount := cfg.value.retryCount + 1)
              && d.delayMs == Backoff(d.next.retryCount)
  {
    if RetryEligible(cfg, error) then
      var next := cfg.value.(retryCount := cfg.value.retryCount + 1);
      if next.retryCount <= MaxRetries(next) then Retry(next, Backoff(next.retryCount)) else Reject
    else Reject
  }

  /** POST, PUT, PATCH and DELETE are never retried, whatever the failure. */
  lemma NonIdempotentNeverRetried(cfg: RequestConfig, error: TransportError)
    requires LowerMethod(cfg) in {"post", "put", "patch", "delete"}
    ensures OnError(Some(cfg), error) == Reject
  {
  }

  /** A failure that carried a response is retried only when its code is
      `ECONNABORTED`; a 401 with any other code never is. */
  lemma ResponseFailuresNotRetried(cfg: Option<RequestConfig>, error: TransportError)
    requires error.response.Some? && error.code != Some(ECONNABORTED)
    ensures OnError(cfg, error) == Reject
  {
  }

  /** The method is matched case-insensitively, and a missing or empty one
      counts as GET. */
  lemma MethodCaseInsensitive(cfg: RequestConfig)
    requires cfg.httpMethod in {None, Some(""), Some("GET"), Some("Get"), Some("HEAD"), Some("OPTIONS")}
    ensures IsIdempotent(LowerMethod(cfg))
  {
    var m := LowerMethod(cfg);
    if cfg.httpMethod == Some("GET") || cfg.httpMethod == Some("Get") {
      assert m == ToLower(cfg.httpMethod.value);
      assert m == "get";
    } else if cfg.httpMethod == Some("HEAD") {
      assert m == "head";
    } else if cfg.httpMethod == Some("OPTIONS") {
      assert m == "options";
    } else {
      assert m == ToLower("get") == "get";
    }
  }
}
