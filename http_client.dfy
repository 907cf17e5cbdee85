/** The public `request` wrapper: it applies the option defaults, routes to
    the client instance of the chosen base, and runs the attempts. Each
    attempt passes the request interceptor and the transport. A failure
    goes to the error interceptor, which waits and re-issues or rejects with
    an `ApiError`; on a 401 it first clears the token and broadcasts one
    `auth:unauthorized` event. A success is wrapped in an `ApiResponse`.
    The transport, the random sources, the storage faults and the clock
    are inputs, indexed by attempt number where they vary per attempt. */
module HttpClient {
  import opened JsValues
  import opened HttpTypes
  import TokenStore
  import opened BaseRouter
  import opened RequestDecoration
  import opened RetryPolicy
  import opened ErrorNormalisation

  /** What `request` accepts besides the method and the URL. */
  datatype RequestOptions = RequestOptions(base: Option<BaseKey>, withAuth: Option<bool>, retry: Option<int>, headers: Headers)

  /** The base a request is routed to: `api` unless the options name one. */
  function BaseOf(options: RequestOptions): BaseKey {
    options.base.GetOr(Api)
  }

  /** The configuration handed to the client instance serving `origin`:
      `withAuth = true` and `retry = 2` unless given, no retry counted yet,
      no correlation id yet, the instance's origin, and the instance's JSON
      headers under the caller's own. */
  function InitialConfig(verb: string, url: string, options: RequestOptions, origin: string): (cfg: RequestConfig)
    ensures cfg.httpMethod == Some(verb) && cfg.url == url && cfg.baseUrl == origin
    ensures cfg.withAuth == Some(options.withAuth.GetOr(true)) && cfg.retry == Some(options.retry.GetOr(DEFAULT_RETRY))
    ensures cfg.retryCount == 0 && cfg.requestId == None
    ensures forall h :: h in options.headers ==> h in cfg.headers && cfg.headers[h] == options.headers[h]
    ensures forall h :: h in JSON_HEADERS && h !in options.headers ==> h in cfg.headers && cfg.headers[h] == JSON_HEADERS[h]
    ensures cfg.headers.Keys == JSON_HEADERS.Keys + options.headers.Keys
  {
    RequestConfig(
      httpMethod := Some(verb),
      baseUrl := origin,
      url := url,
      headers := JSON_HEADERS + options.headers,
      withAuth := Some(options.withAuth.GetOr(true)),
      retry := Some(options.retry.GetOr(DEFAULT_RETRY)),
      retryCount := 0,
      requestId := None)
  }

  /** The success envelope; its correlation id is the one the server echoed,
      else the one stamped on the last attempt. */
  function Envelope(response: Response, cfg: RequestConfig): (r: ApiResponse)
    ensures r.data == response.data && r.status == response.status && r.headers == response.headers
    ensures r.requestId == CorrelationId(Some(response.headers), Some(cfg))
    ensures cfg.requestId.Some? ==> r.requestId.Some?
  {
    ApiResponse(response.data, response.status, response.headers, CorrelationId(Some(response.headers), Some(cfg)))
  }

  predicate IsUnauthorized(a: Attempt) {
    a.Failed? && a.error.response.Some? && a.error.response.value.status == 401
  }

  /** What the token reads of one request see: the in-memory token when it
      starts, the persisted store and the token's key (neither changes while
      the attempts run), and which of the reads raise, by attempt. */
  datatype TokenReads = TokenReads(memory: Option<string>, storage: TokenStore.Storage, key: string, readFails: nat -> bool)

  /** The in-memory token after `n` passes of the request interceptor: it
      reads the token only when authentication is wanted. */
  function TokenAfter(cfg: RequestConfig, input: TokenReads, n: nat): Option<string> {
    if WantsAuth(cfg) then TokenStore.HydratedAfter(input.memory, input.storage, input.key, input.readFails, n)
    else input.memory
  }

  /** The token after `n` passes is the stored one exactly when
      authentication is wanted, memory held none and some read did not
      raise; otherwise memory is untouched. */
  lemma TokenAfterSettles(cfg: RequestConfig, input: TokenReads, n: nat)
    ensures TokenAfter(cfg, input, n) ==
      if WantsAuth(cfg) && !Truthy(input.memory) && exists i :: 0 <= i < n && !input.readFails(i)
      then TokenStore.GetItem(input.storage, input.key)
      else input.memory
  {
    TokenStore.HydratedAfterSettles(input.memory, input.storage, input.key, input.readFails, n);
  }

  /** The `Authorization` value an attempt carries when the token in memory
      after its interceptor pass is `token`: the Bearer credential when the
      interceptor attaches one, else whatever the caller set. */
  function SentAuthorization(cfg: RequestConfig, token: Option<string>): Option<string> {
    if AttachesBearer(cfg, token) then Some(BearerCredential(token.value)) else HeaderValue(cfg.headers, "Authorization")
  }

  /** The headers `headers` with `Authorization` set to `auth` (left as they
      are when `auth` is absent) and `X-Request-Id` set to `id`. */
  function Stamped(headers: Headers, auth: Option<string>, id: string): Headers {
    (if auth.Some? then headers["Authorization" := auth.value] else headers)["X-Request-Id" := id]
  }

  /** Attempt `i` went out as the initial configuration with `i` retries
      counted and correlation id `id` stamped in header and context, and
      with the `Authorization` the interceptor settles on when the token in
      memory is `token`. */
  predicate SentAs(sent: RequestConfig, cfg: RequestConfig, i: nat, id: string, token: Option<string>) {
    sent == cfg.(retryCount := i, requestId := Some(id), headers := Stamped(cfg.headers, SentAuthorization(cfg, token), id))
  }

  /** The headers of an attempt sent as `cfg`: `X-Request-Id` carries the
      attempt's id; `Authorization` is `Bearer <token>` exactly when the
      interceptor attaches the token, and otherwise no header but
      `X-Request-Id` changes; a non-empty `Authorization` of the caller's own
      is kept. */
  lemma SentHeaders(sent: RequestConfig, cfg: RequestConfig, i: nat, id: string, token: Option<string>)
    requires SentAs(sent, cfg, i, id, token)
    ensures "X-Request-Id" in sent.headers && sent.headers["X-Request-Id"] == id
    ensures sent.headers.Keys <= cfg.headers.Keys + {"X-Request-Id", "Authorization"}
    ensures AttachesBearer(cfg, token) ==>
              "Authorization" in sent.headers && sent.headers["Authorization"] == BearerCredential(token.value)
    ensures !AttachesBearer(cfg, token) ==> sent.headers == cfg.headers["X-Request-Id" := id]
    ensures !WantsAuth(cfg) ==> sent.headers == cfg.headers["X-Request-Id" := id]
    ensures Truthy(HeaderValue(cfg.headers, "Authorization")) ==>
              "Authorization" in sent.headers && sent.headers["Authorization"] == cfg.headers["Authorization"]
  {
    if !AttachesBearer(cfg, token) && "Authorization" in cfg.headers {
      assert cfg.headers["Authorization" := cfg.headers["Authorization"]] == cfg.headers;
    }
  }

  /** The most retries a configuration allows. */
  function Budget(cfg: RequestConfig): nat {
    if MaxRetries(cfg) < 0 then 0 else MaxRetries(cfg)
  }

  /** The headers the interceptor gives a configuration stamped earlier
      are those of a fresh stamp with the new token: a Bearer attached
      earlier stays, since a truthy token stays in memory, and one not
      attached earlier is attached exactly when the new token is truthy. */
  lemma Restamp(cfg: RequestConfig, prev: RequestConfig, token: Option<string>, token': Option<string>, prevId: string, id: string)
    requires prev.withAuth == cfg.withAuth
    requires prev.headers == Stamped(cfg.headers, SentAuthorization(cfg, token), prevId)
    requires WantsAuth(cfg) && Truthy(token) ==> token' == token
    ensures Decorate(prev, if WantsAuth(cfg) then token' else None, id).headers ==
              Stamped(cfg.headers, SentAuthorization(cfg, token'), id)
  {
    var auth := SentAuthorization(cfg, token);
    assert HeaderValue(prev.headers, "Authorization") == auth;
    if AttachesBearer(cfg, token) {
      assert !AttachesBearer(prev, token');
    } else if AttachesBearer(cfg, token') {
      assert AttachesBearer(prev, token');
    } else {
      assert !AttachesBearer(prev, token');
      if "Authorization" in cfg.headers {
        assert cfg.headers["Authorization" := cfg.headers["Authorization"]] == cfg.headers;
      }
    }
  }

  /** The request interceptor applied to the re-issued configuration of a
      retried failure: the attempt keeps its shape, one retry further on,
      with the `Authorization` the new token settles on. */
  method Reissue(tokens: TokenStore.Store, prev: RequestConfig, cfg: RequestConfig, i: nat, prevId: string,
                 error: TransportError, source: RandomSource, readFails: bool)
    returns (out: RequestConfig)
    requires SentAs(prev, cfg, i, prevId, tokens.inMemoryToken)
    requires OnError(Some(prev), error).Retry?
    modifies tokens`inMemoryToken
    ensures SentAs(out, cfg, i + 1, CryptoRandomId(source), tokens.inMemoryToken)
    ensures tokens.inMemoryToken ==
      if WantsAuth(cfg) then TokenStore.HydratedToken(old(tokens.inMemoryToken), tokens.storage, tokens.TokenKey(), readFails)
      else old(tokens.inMemoryToken)
  {
    var next := OnError(Some(prev), error).next;
    out := Intercept(tokens, next, source, readFails);
    Restamp(cfg, next, old(tokens.inMemoryToken), tokens.inMemoryToken, prevId, CryptoRandomId(source));
  }

  /** What a retry of attempt `i` implies: the budget is not spent, the
      method is idempotent, the failure was eligible, and the wait is the
      backoff of retry `i + 1`. */
  lemma RetryFacts(out: RequestConfig, cfg: RequestConfig, i: nat, id: string, token: Option<string>, error: TransportError)
    requires SentAs(out, cfg, i, id, token)
    requires OnError(Some(out), error).Retry?
    ensures i < Budget(cfg) && IsIdempotent(LowerMethod(cfg)) && RetryEligible(Some(out), error)
    ensures OnError(Some(out), error).delayMs == Backoff(i + 1)
  {
    assert LowerMethod(out) == LowerMethod(cfg);
  }

  /** The attempts so far: attempt `i` went out as `SentAs` says, with the
      token in memory after `i + 1` interceptor passes, and each attempt but
      the last failed eligibly and waited the backoff of retry `i + 1`. */
  predicate Trace(cfg: RequestConfig, transport: (nat, RequestConfig) -> Attempt, entropy: nat -> RandomSource,
                  input: TokenReads, delays: seq<nat>, sent: seq<RequestConfig>) {
    && |sent| == |delays| + 1
    && (forall i :: 0 <= i < |sent| ==> SentAs(sent[i], cfg, i, CryptoRandomId(entropy(i)), TokenAfter(cfg, input, i + 1)))
    && (forall i :: 0 <= i < |delays| ==> delays[i] == Backoff(i + 1))
    && (forall i :: 0 <= i < |delays| ==>
          transport(i, sent[i]).Failed? && RetryEligible(Some(sent[i]), transport(i, sent[i]).error))
  }

  /** The first attempt alone is a trace. */
  lemma TraceStart(cfg: RequestConfig, transport: (nat, RequestConfig) -> Attempt, entropy: nat -> RandomSource,
                   input: TokenReads, out: RequestConfig)
    requires SentAs(out, cfg, 0, CryptoRandomId(entropy(0)), TokenAfter(cfg, input, 1))
    ensures Trace(cfg, transport, entropy, input, [], [out])
  {
  }

  /** Every attempt of a trace, and one more sent as `SentAs` says, went
      out as the initial configuration. */
  lemma SentStep(cfg: RequestConfig, entropy: nat -> RandomSource, input: TokenReads, sent: seq<RequestConfig>, out: RequestConfig)
    requires forall i :: 0 <= i < |sent| ==> SentAs(sent[i], cfg, i, CryptoRandomId(entropy(i)), TokenAfter(cfg, input, i + 1))
    requires SentAs(out, cfg, |sent|, CryptoRandomId(entropy(|sent|)), TokenAfter(cfg, input, |sent| + 1))
    ensures forall i :: 0 <= i < |sent| + 1 ==>
              SentAs((sent + [out])[i], cfg, i, CryptoRandomId(entropy(i)), TokenAfter(cfg, input, i + 1))
  {
    forall i | 0 <= i < |sent| + 1
      ensures SentAs((sent + [out])[i], cfg, i, CryptoRandomId(entropy(i)), TokenAfter(cfg, input, i + 1))
    {
      if i < |sent| { assert (sent + [out])[i] == sent[i]; }
    }
  }

  /** A retried attempt extends a trace by one attempt and one delay. */
  lemma TraceStep(cfg: RequestConfig, transport: (nat, RequestConfig) -> Attempt, entropy: nat -> RandomSource,
                  input: TokenReads, delays: seq<nat>, sent: seq<RequestConfig>, out: RequestConfig)
    requires Trace(cfg, transport, entropy, input, delays, sent)
    requires var n := |sent| - 1; transport(n, sent[n]).Failed? && OnError(Some(sent[n]), transport(n, sent[n]).error).Retry?
    requires SentAs(out, cfg, |sent|, CryptoRandomId(entropy(|sent|)), TokenAfter(cfg, input, |sent| + 1))
    ensures var n := |sent| - 1;
      Trace(cfg, transport, entropy, input, delays + [OnError(Some(sent[n]), transport(n, sent[n]).error).delayMs], sent + [out])
  {
    var n := |sent| - 1;
    var error := transport(n, sent[n]).error;
    RetryFacts(sent[n], cfg, n, CryptoRandomId(entropy(n)), TokenAfter(cfg, input, n + 1), error);
    SentStep(cfg, entropy, input, sent, out);
    var delays', sent' := delays + [OnError(Some(sent[n]), error).delayMs], sent + [out];
    forall i | 0 <= i < |delays'|
      ensures delays'[i] == Backoff(i + 1)
      ensures transport(i, sent'[i]).Failed? && RetryEligible(Some(sent'[i]), transport(i, sent'[i]).error)
    {
      assert sent'[i] == sent[i];
    }
  }

  /** Once an attempt carries a Bearer credential, every later attempt of the
      request carries the same one: the token stays in memory, and the
      re-issued configuration already holds the header. */
  lemma BearerKept(cfg: RequestConfig, transport: (nat, RequestConfig) -> Attempt, entropy: nat -> RandomSource,
                   input: TokenReads, delays: seq<nat>, sent: seq<RequestConfig>, i: nat, j: nat)
    requires Trace(cfg, transport, entropy, input, delays, sent)
    requires i <= j < |sent|
    requires AttachesBearer(cfg, TokenAfter(cfg, input, i + 1))
    ensures "Authorization" in sent[i].headers && "Authorization" in sent[j].headers
    ensures sent[j].headers["Authorization"] == sent[i].headers["Authorization"]
              == BearerCredential(TokenAfter(cfg, input, i + 1).value)
  {
    TokenAfterSettles(cfg, input, i + 1);
    TokenAfterSettles(cfg, input, j + 1);
    assert TokenAfter(cfg, input, j + 1) == TokenAfter(cfg, input, i + 1);
    SentHeaders(sent[i], cfg, i, CryptoRandomId(entropy(i)), TokenAfter(cfg, input, i + 1));
    SentHeaders(sent[j], cfg, j, CryptoRandomId(entropy(j)), TokenAfter(cfg, input, j + 1));
  }

  /** The request interceptor applied to the first attempt: the initial
      configuration goes out with no retry counted. */
  method Issue(tokens: TokenStore.Store, cfg: RequestConfig, source: RandomSource, readFails: bool)
    returns (out: RequestConfig)
    requires cfg.retryCount == 0
    modifies tokens`inMemoryToken
    ensures SentAs(out, cfg, 0, CryptoRandomId(source), tokens.inMemoryToken)
    ensures tokens.inMemoryToken ==
      if WantsAuth(cfg) then TokenStore.HydratedToken(old(tokens.inMemoryToken), tokens.storage, tokens.TokenKey(), readFails)
      else old(tokens.inMemoryToken)
  {
    out := Intercept(tokens, cfg, source, readFails);
    if !AttachesBearer(cfg, tokens.inMemoryToken) && "Authorization" in cfg.headers {
      assert cfg.headers["Authorization" := cfg.headers["Authorization"]] == cfg.headers;
    }
  }

  /** One turn of the retry loop: the last attempt failed and the error
      interceptor retries it, so the backoff is recorded and the re-issued
      configuration goes out as the next attempt. */
  method RetryLast(
    tokens: TokenStore.Store, cfg: RequestConfig,
    transport: (nat, RequestConfig) -> Attempt, entropy: nat -> RandomSource, readFails: nat -> bool,
    delays: seq<nat>, sent: seq<RequestConfig>, ghost input: TokenReads)
    returns (delays': seq<nat>, sent': seq<RequestConfig>)
    requires input.readFails == readFails && input.storage == tokens.storage && input.key == tokens.TokenKey()
    requires Trace(cfg, transport, entropy, input, delays, sent)
    requires var n := |sent| - 1; transport(n, sent[n]).Failed? && OnError(Some(sent[n]), transport(n, sent[n]).error).Retry?
    requires tokens.inMemoryToken == TokenAfter(cfg, input, |sent|)
    modifies tokens`inMemoryToken
    ensures Trace(cfg, transport, entropy, input, delays', sent')
    ensures |delays'| == |delays| + 1 && |delays'| <= Budget(cfg) && IsIdempotent(LowerMethod(cfg))
    ensures tokens.inMemoryToken == TokenAfter(cfg, input, |sent'|)
  {
    var n := |sent| - 1;
    var error := transport(n, sent[n]).error;
    RetryFacts(sent[n], cfg, n, CryptoRandomId(entropy(n)), TokenAfter(cfg, input, n + 1), error);
    var next := Reissue(tokens, sent[n], cfg, n, CryptoRandomId(entropy(n)), error, entropy(|sent|), readFails(|sent|));
    TraceStep(cfg, transport, entropy, input, delays, sent, next);
    delays' := delays + [OnError(Some(sent[n]), error).delayMs];
    sent' := sent + [next];
  }

  /** Runs the attempts of one request: each goes through the request
      interceptor and the transport, and a failure the error interceptor
      retries is re-issued after its backoff. Stops at the first attempt
      that succeeds or is rejected. */
  method RunAttempts(
    tokens: TokenStore.Store, cfg: RequestConfig,
    transport: (nat, RequestConfig) -> Attempt, entropy: nat -> RandomSource, readFails: nat -> bool)
    returns (delays: seq<nat>, sent: seq<RequestConfig>)
    requires cfg.retryCount == 0
    modifies tokens`inMemoryToken
    ensures |delays| <= Budget(cfg)
    ensures !IsIdempotent(LowerMethod(cfg)) ==> |delays| == 0
    ensures Trace(cfg, transport, entropy, TokenReads(old(tokens.inMemoryToken), tokens.storage, tokens.TokenKey(), readFails), delays, sent)
    ensures tokens.inMemoryToken ==
      if WantsAuth(cfg) && !Truthy(old(tokens.inMemoryToken)) && exists i :: 0 <= i < |sent| && !readFails(i)
      then TokenStore.GetItem(tokens.storage, tokens.TokenKey())
      else old(tokens.inMemoryToken)
    ensures var n := |sent| - 1; var last := transport(n, sent[n]);
              last.Failed? ==> OnError(Some(sent[n]), last.error).Reject?
  {
    ghost var input := TokenReads(tokens.inMemoryToken, tokens.storage, tokens.TokenKey(), readFails);
    var out := Issue(tokens, cfg, entropy(0), readFails(0));
    assert TokenStore.HydratedAfter(input.memory, input.storage, input.key, readFails, 1) ==
      TokenStore.HydratedToken(input.memory, input.storage, input.key, readFails(0));
    TraceStart(cfg, transport, entropy, input, out);
    sent := [out];
    delays := [];
    while transport(|sent| - 1, sent[|sent| - 1]).Failed? &&
          OnError(Some(sent[|sent| - 1]), transport(|sent| - 1, sent[|sent| - 1]).error).Retry?
      invariant Trace(cfg, transport, entropy, input, delays, sent)
      invariant |delays| <= Budget(cfg)
      invariant !IsIdempotent(LowerMethod(cfg)) ==> |delays| == 0
      invariant tokens.storage == input.storage
      invariant tokens.inMemoryToken == TokenAfter(cfg, input, |sent|)
      decreases Budget(cfg) - |delays|
    {
      delays, sent := RetryLast(tokens, cfg, transport, entropy, readFails, delays, sent, input);
    }
    TokenAfterSettles(cfg, input, |sent|);
  }

  /** The module's shared state: the token store, the instance cache, and
      the `auth:unauthorized` events broadcast so far. */
  class Session {
    /** The token store shared by every request. */
    const tokens: TokenStore.Store
    /** The per-origin client instances. */
    const router: InstanceCache
    /** The `auth:unauthorized` events broadcast so far. */
    var events: seq<UnauthorizedEvent>

    constructor (tokens: TokenStore.Store, router: InstanceCache)
      ensures this.tokens == tokens && this.router == router && events == []
    {
      this.tokens := tokens;
      this.router := router;
      events := [];
    }

    /** How the last attempt settles: a delivered response becomes the
        envelope; a failure the interceptor rejects becomes an `ApiError`,
        and on a 401 the token is cleared and one event is broadcast first. */
    method Settle(last: RequestConfig, attempt: Attempt, clearFails: bool, now: int)
      returns (result: Result<ApiResponse, ApiError>)
      modifies this`events, tokens
      ensures result.Success? <==> attempt.Delivered?
      ensures result.Success? ==> result.value == Envelope(attempt.response, last)
      ensures result.Failure? ==> result.error == ToApiError(Some(last), attempt.error)
      ensures events == old(events) + (if IsUnauthorized(attempt) then [UnauthorizedDetail(Some(last), attempt.error, now)] else [])
      ensures IsUnauthorized(attempt) ==>
                tokens.inMemoryToken == None &&
                tokens.storage == TokenStore.StoreOrRemove(old(tokens.storage), tokens.TokenKey(), None, clearFails)
      ensures !IsUnauthorized(attempt) ==>
                tokens.inMemoryToken == old(tokens.inMemoryToken) && tokens.storage == old(tokens.storage)
    {
      if attempt.Delivered? {
        result := Success(Envelope(attempt.response, last));
      } else {
        if IsUnauthorized(attempt) {
          tokens.ClearAuthToken(clearFails);
          events := events + [UnauthorizedDetail(Some(last), attempt.error, now)];
        }
        result := Failure(ToApiError(Some(last), attempt.error));
      }
    }

    /** `client.request(cfg)`, where `cfg` carries the origin of the routed
        instance: the attempts, then the settlement of the last one. */
    method Exchange(
      cfg: RequestConfig, transport: (nat, RequestConfig) -> Attempt,
      entropy: nat -> RandomSource, readFails: nat -> bool, clearFails: bool, now: int)
      returns (result: Result<ApiResponse, ApiError>, delays: seq<nat>, sent: seq<RequestConfig>)
      requires cfg.retryCount == 0
      modifies this`events, tokens
      ensures |sent| == |delays| + 1 && |delays| <= Budget(cfg)
      ensures !IsIdempotent(LowerMethod(cfg)) ==> |delays| == 0
      ensures Trace(cfg, transport, entropy, TokenReads(old(tokens.inMemoryToken), old(tokens.storage), tokens.TokenKey(), readFails),
                    delays, sent)
      ensures var n := |sent| - 1; var last := transport(n, sent[n]);
        && (result.Success? <==> last.Delivered?)
        && (result.Success? ==> result.value == Envelope(last.response, sent[n]))
        && (result.Failure? ==>
              && last.Failed?
              && OnError(Some(sent[n]), last.error).Reject?
              && (RetryEligible(Some(sent[n]), last.error) ==> |delays| == Budget(cfg))
              && result.error == ToApiError(Some(sent[n]), last.error))
        && events == old(events) + (if IsUnauthorized(last) then [UnauthorizedDetail(Some(sent[n]), last.error, now)] else [])
        && (IsUnauthorized(last) ==>
              tokens.inMemoryToken == None &&
              tokens.storage == TokenStore.StoreOrRemove(old(tokens.storage), tokens.TokenKey(), None, clearFails))
        && (!IsUnauthorized(last) ==> tokens.storage == old(tokens.storage))
        && (!IsUnauthorized(last) ==>
              tokens.inMemoryToken ==
                if WantsAuth(cfg) && !Truthy(old(tokens.inMemoryToken)) && exists i :: 0 <= i < |sent| && !readFails(i)
                then TokenStore.GetItem(old(tokens.storage), tokens.TokenKey())
                else old(tokens.inMemoryToken))
    {
      delays, sent := RunAttempts(tokens, cfg, transport, entropy, readFails);
      var n := |sent| - 1;
      result := Settle(sent[n], transport(n, sent[n]), clearFails, now);
    }

    /** `request(method, url, options)`. `transport(i, cfg)` is the outcome
        of attempt `i` sent as `cfg`; `entropy(i)` and `readFails(i)` are the
        random source and the token read fault of attempt `i`; `clearFails`
        is the fault of clearing the token on a 401, and `now` the clock.
        Returns the settled result, the backoff delays waited (one per retry)
        and the configuration of every attempt sent. */
    method Request(
      verb: string, url: string, options: RequestOptions,
      transport: (nat, RequestConfig) -> Attempt,
      entropy: nat -> RandomSource, readFails: nat -> bool, clearFails: bool, now: int)
      returns (result: Result<ApiResponse, ApiError>, delays: seq<nat>, sent: seq<RequestConfig>)
      requires router.Valid()
      modifies this`events, tokens, router
      ensures router.Valid()
      ensures var origin := BaseUrl(router.env, BaseOf(options));
        && origin in router.instances
        && (origin in old(router.instances) ==> router.instances == old(router.instances) && router.nextId == old(router.nextId))
        && (origin !in old(router.instances) ==>
              && router.instances == old(router.instances)[origin := router.instances[origin]]
              && router.nextId == old(router.nextId) + 1
              && forall u :: u in old(router.instances) ==> old(router.instances)[u].id != router.instances[origin].id)
      ensures |sent| == |delays| + 1
      ensures var n := |sent| - 1; var last := transport(n, sent[n]);
        && (result.Success? <==> last.Delivered?)
        && (result.Success? ==> result.value == Envelope(last.response, sent[n]))
        && (result.Failure? ==>
              && last.Failed?
              && OnError(Some(sent[n]), last.error).Reject?
              && (RetryEligible(Some(sent[n]), last.error) ==> |delays| == Budget(InitialConfig(verb, url, options, BaseUrl(router.env, BaseOf(options)))))
              && result.error == ToApiError(Some(sent[n]), last.error))
        && events == old(events) + (if IsUnauthorized(last) then [UnauthorizedDetail(Some(sent[n]), last.error, now)] else [])
        && (IsUnauthorized(last) ==>
              tokens.inMemoryToken == None &&
              tokens.storage == TokenStore.StoreOrRemove(old(tokens.storage), tokens.TokenKey(), None, clearFails))
        && (!IsUnauthorized(last) ==> tokens.storage == old(tokens.storage))
        && (!IsUnauthorized(last) ==>
              tokens.inMemoryToken ==
                if && WantsAuth(InitialConfig(verb, url, options, BaseUrl(router.env, BaseOf(options))))
                   && !Truthy(old(tokens.inMemoryToken))
                   && exists i :: 0 <= i < |sent| && !readFails(i)
                then TokenStore.GetItem(old(tokens.storage), tokens.TokenKey())
                else old(tokens.inMemoryToken))
      ensures forall i :: 0 <= i < |sent| ==> sent[i].baseUrl == BaseUrl(router.env, BaseOf(options))
      ensures var cfg := InitialConfig(verb, url, options, BaseUrl(router.env, BaseOf(options)));
        && |delays| <= Budget(cfg)
        && (!IsIdempotent(LowerMethod(cfg)) ==> |delays| == 0)
        && Trace(cfg, transport, entropy, TokenReads(old(tokens.inMemoryToken), old(tokens.storage), tokens.TokenKey(), readFails),
                 delays, sent)
    {
      var client := router.GetInstanceFor(BaseOf(options));
      result, delays, sent := Exchange(InitialConfig(verb, url, options, client.baseUrl), transport, entropy, readFails, clearFails, now);
    }
  }
}
