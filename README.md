# HTTP client layer — a verified Dafny model

This project models the HTTP client of a single-page web application
(`src/lib/httpClient.ts`). Every call from the screens to the back end goes
through it. It does the following:

- keeps the bearer token in memory, in front of the browser's prefixed
  key-value store, and offers helpers for other "app info" entries;
- routes each request to one of three logical bases (`auth`, `api`,
  `apiV1`), resolved from the deployment environment, and memoises one client
  instance per distinct origin;
- decorates every request: a `Bearer` `Authorization` header (section 2.1 of
  RFC 6750) when authentication is wanted, a token exists and no such header
  is set yet, plus a fresh `X-Request-Id` correlation id (32 lower-case hex
  digits from 16 random bytes);
- retries GET, HEAD and OPTIONS requests that failed without a response or
  timed out (`ECONNABORTED`), up to a per-request budget (default 2). Before
  retry *n* it waits `min(1000·2^(n-1), 4000)` ms;
- normalises every other failure into an `ApiError`. The message is chosen by
  a fixed priority. On a 401 (section 15.5.2 of RFC 9110) it first clears the
  token and broadcasts one `auth:unauthorized` event;
- wraps a success into an `ApiResponse` envelope carrying the correlation id.

The optional `buildSignedHeaders` helper is modelled structurally. It returns
three headers: a salt, a millisecond timestamp and a signature.

## Modules

| file | module | contents |
|---|---|---|
| `js_values.dfy` | `JsValues` | `Option`, `Result`, parsed JSON, truthiness, `String(v)`, `join`, case mapping, decimal numerals |
| `http_types.dfy` | `HttpTypes` | request configuration, response, transport error, `ApiResponse`, `ApiError`, the event detail, the correlation-id fallback |
| `token_store.dfy` | `TokenStore` | class `Store`: in-memory token plus persisted store; the app-info helpers |
| `base_router.dfy` | `BaseRouter` | `BASE_MAP`; class `InstanceCache` (`getInstanceFor`) |
| `request_decoration.dfy` | `RequestDecoration` | `cryptoRandomId` and the request interceptor |
| `retry_policy.dfy` | `RetryPolicy` | retry eligibility, budget, backoff, the interceptor's retry decision |
| `error_normalisation.dfy` | `ErrorNormalisation` | `deriveErrorMessage`, the 401 event detail, `ApiError` construction |
| `signed_headers.dfy` | `SignedHeaders` | `buildSignedHeaders` |
| `http_client.dfy` | `HttpClient` | `request`: defaults, the attempt loop, settlement |

Everything that is not deterministic is an input:

- The transport is a function `transport(i, cfg)` giving the outcome of
  attempt `i` sent as `cfg`.
- The random source of attempt `i` is `entropy(i)`: secure bytes, or the
  `Math.random` text when the secure source raises.
- Storage faults are boolean arguments: `writeFails`, `readFails`,
  `clearFails`.
- The clock is an argument (`now`, `nowMs`).
- The salt generator and the signer are function arguments.

## Notes on the code

- `deriveErrorMessage` joins *all* entries of `data.errors` with ", "
  (line 262); it does not take only the first.
- The final `return error.message || …` of `deriveErrorMessage` (line 268)
  cannot be reached. Lines 265 and 267 already return whether or not a
  response exists, so the model has no such branch.
- An `errors` entry that is `null` makes `e.message` raise. The `catch`
  then yields "An unexpected error occurred" (`NullEntryRaises`).
- `getAppInfo` returns `undefined` when the read raises and `null` when the
  key is missing. The model keeps the two apart (`Read.Undefined`,
  `Read.Null`).
- `clearAllAppInfo` is the one storage helper without a `try`, so its fault
  reaches the caller. It also erases the persisted token but leaves the
  in-memory one.
- A failed removal during `clearAuthToken` leaves the old token persisted.
  It comes back at the next read once memory is empty
  (`ClearWithFailedRemoveRehydrates`).
- App info stored under the key `auth_token` shares the token's persisted
  key (`AppInfoAliasesToken`).
- An `Authorization` header added on one attempt stays on the
  configuration that is re-issued, so later retries keep it (`BearerKept`).
  An attempt made before any token could be read gets one as soon as a read
  yields a token. `X-Request-Id` and `requestId` are stamped afresh on every
  attempt.

## Model

| member | source | states |
|---|---|---|
| TokenStore.StoreOrRemove | src/lib/httpClient.ts:59-65 | A write that raises leaves the store unchanged. Otherwise a truthy value is stored under its key and a falsy one removes the key. No other key changes. |
| TokenStore.SetThenGet | src/lib/httpClient.ts:59-73 | After `setAuthToken(t)` with non-empty `t`, `getAuthToken()` returns `t`, whether or not the write or the read raised. |
| TokenStore.RehydrateAfterReset | src/lib/httpClient.ts:59-73 | With the in-memory cache lost, a token whose write succeeded is read back from `PREFIX + 'auth_token'`. |
| TokenStore.ClearThenGet | src/lib/httpClient.ts:67-75 | After `clearAuthToken()` with working storage, `getAuthToken()` returns null. |
| TokenStore.ClearWithFailedRemoveRehydrates | src/lib/httpClient.ts:59-75 | A clear whose removal raised lets the old persisted token be rehydrated by the next working read. |
| TokenStore.TruthyMemoryIgnoresStorage | src/lib/httpClient.ts:67-68 | A truthy in-memory token is returned whatever storage holds and whether or not reading would raise. Storage is consulted only when memory is falsy. |
| TokenStore.ReadFaultKeepsMemory | src/lib/httpClient.ts:67-73 | When the read raises, `getAuthToken` returns the previous in-memory value. |
| TokenStore.HydratedAfterSettles | src/lib/httpClient.ts:67-73 | Over an unchanged store, repeated `getAuthToken` calls leave a truthy memory token alone. Otherwise they give the stored token once some read did not raise, and keep the memory value while every read raised. |
| TokenStore.AppInfoAliasesToken | src/lib/httpClient.ts:59-82 | `setAppInfo('auth_token', v)` writes the token's persisted key, so `v` is then read back as the token. |
| TokenStore.Store.constructor | src/lib/httpClient.ts:57 | The in-memory token starts as null in front of the persisted store. |
| TokenStore.Store.SetAuthToken | src/lib/httpClient.ts:59-65 | The in-memory token becomes the argument even when the write raises. Storage is updated as `StoreOrRemove` says. |
| TokenStore.Store.GetAuthToken | src/lib/httpClient.ts:67-73 | Returns, and caches, the truthy in-memory token, else the stored one, else (when the read raised) the old in-memory value. Storage is never written. |
| TokenStore.Store.ClearAuthToken | src/lib/httpClient.ts:75 | Memory becomes null. With working storage the persisted token is gone; a failed removal leaves storage unchanged. |
| TokenStore.Store.SetAppInfo | src/lib/httpClient.ts:77-82 | Stores or removes `PREFIX + key` as `StoreOrRemove` says. Faults are swallowed and the token in memory is untouched. |
| TokenStore.Store.GetAppInfo | src/lib/httpClient.ts:84-89 | `undefined` exactly when the read raises; otherwise `null` exactly when the key is missing, else the stored string. |
| TokenStore.Store.ClearAppInfo | src/lib/httpClient.ts:91 | With working storage the key is gone afterwards; a raised removal changes nothing. |
| TokenStore.Store.ClearAllAppInfo | src/lib/httpClient.ts:92 | The fault escapes (`thrown == fails`). Otherwise the whole store is emptied, the persisted token included. The in-memory token is not in its frame. |
| BaseRouter.BaseUrl | src/lib/httpClient.ts:96-106 | Every base resolves to a non-empty URL. A base whose own variable is set resolves to it. `api` without its variable resolves to `https://example.com`. |
| BaseRouter.ApiV1DefaultsToApi | src/lib/httpClient.ts:98-100 | Unless `VITE_USER_API_BASE_URL` is set, `apiV1` resolves to the API origin. |
| BaseRouter.AuthDefaultsToApi | src/lib/httpClient.ts:96-98 | Unless `VITE_AUTH_BASE_URL` is set, `auth` resolves to the API origin. |
| BaseRouter.UnconfiguredSharesOneOrigin | src/lib/httpClient.ts:96-100 | With nothing configured, all three bases resolve to `https://example.com`. |
| BaseRouter.InstanceCache.constructor | src/lib/httpClient.ts:111 | The cache starts empty and consistent. |
| BaseRouter.InstanceCache.GetInstanceFor | src/lib/httpClient.ts:213-222 | Returns the client cached for the base's URL, with the cache unchanged. Otherwise a client with a fresh identity is created and added under that URL. At most one entry is added, none is replaced, and the cache invariant holds. |
| BaseRouter.ResolveTwice | src/lib/httpClient.ts:213-222 | Two resolutions return the identical client exactly when both bases map to the same URL; otherwise the clients differ. |
| HttpTypes.CorrelationId | src/lib/httpClient.ts:181 | The id is the truthy `x-request-id` response header, else the configuration's `requestId`. |
| JsValues.NatToString | src/lib/httpClient.ts:42 | `String(n)` is a non-empty decimal numeral with no leading zero (except for 0 itself). |
| JsValues.ParseNatToString | src/lib/httpClient.ts:42 | Reading back `String(n)` gives `n`. |
| JsValues.JoinEmpty | src/lib/httpClient.ts:262 | A join with a non-empty separator is empty exactly for no parts or one empty part. |
| RequestDecoration.HexByte | src/lib/httpClient.ts:250 | `b.toString(16).padStart(2,'0')` is two lower-case hex digits. |
| RequestDecoration.HexEncode | src/lib/httpClient.ts:250 | The encoding has two lower-case hex digits per byte. |
| RequestDecoration.HexByteValue | src/lib/httpClient.ts:250 | The two digits of a byte read back as that byte. |
| RequestDecoration.HexRoundTrip | src/lib/httpClient.ts:250 | Decoding the hex encoding recovers the bytes, so distinct random bytes give distinct ids. |
| RequestDecoration.CryptoRandomIdFormat | src/lib/httpClient.ts:247-254 | With secure randomness the id is 32 lower-case hex digits that decode to the 16 bytes. Otherwise it is the `Math.random` base-36 text after its first two characters. |
| RequestDecoration.ParseBearerCredential | src/lib/httpClient.ts:129 | The `Bearer <token>` value carries exactly the token. |
| RequestDecoration.Decorate | src/lib/httpClient.ts:125-134 | The header keys gain `X-Request-Id`, plus `Authorization` exactly when auth is wanted, the token is truthy and no truthy `Authorization` is present. The added credential parses back to the token. `X-Request-Id` equals `requestId`. Every other header is kept and no other field changes. |
| RequestDecoration.ExistingAuthorizationKept | src/lib/httpClient.ts:128 | A non-empty `Authorization` header already set is never replaced. |
| RequestDecoration.Intercept | src/lib/httpClient.ts:122-142 | `getAuthToken` runs, rehydrating the cache, only when `withAuth` (default true) holds. The result is the decorated configuration with a fresh correlation id. |
| RetryPolicy.Pow2Monotone | src/lib/httpClient.ts:174 | Powers of two do not decrease. |
| RetryPolicy.Backoff | src/lib/httpClient.ts:174 | Every delay lies between 1000 and 4000 ms. |
| RetryPolicy.BackoffMonotone | src/lib/httpClient.ts:174 | A later retry never waits less. |
| RetryPolicy.BackoffSchedule | src/lib/httpClient.ts:174 | Retries 1 and 2 wait 1000 and 2000 ms; from retry 3 on the 4000 ms cap holds. |
| RetryPolicy.OnError | src/lib/httpClient.ts:164-178 | A retry happens iff there is a configuration, its lower-cased method (default `get`) is get, head or options, the failure has no response or code `ECONNABORTED`, and the bumped `retryCount` is within `retry` (default 2). A retry re-issues the configuration with `retryCount + 1` after `Backoff(retryCount + 1)` ms. |
| RetryPolicy.NonIdempotentNeverRetried | src/lib/httpClient.ts:166-170 | POST, PUT, PATCH and DELETE are rejected at once, whatever the failure. |
| RetryPolicy.ResponseFailuresNotRetried | src/lib/httpClient.ts:168-170 | A failure that carried a response and is not `ECONNABORTED` (a 401, say) is never retried. |
| RetryPolicy.MethodCaseInsensitive | src/lib/httpClient.ts:166-167 | `GET`, `Get`, `HEAD`, `OPTIONS`, an empty or a missing method all count as retryable methods. |
| ErrorNormalisation.ErrorMessage | src/lib/httpClient.ts:199 | The final message is never empty. |
| ErrorNormalisation.MessageFirst | src/lib/httpClient.ts:259 | A string `data.message` wins over everything else. |
| ErrorNormalisation.ErrorSecond | src/lib/httpClient.ts:260 | Without it, a string `data.error` wins. |
| ErrorNormalisation.ErrorsThird | src/lib/httpClient.ts:261-263 | Next, a non-empty `data.errors` gives each entry's truthy `message` (else the entry as a string), joined with ", ". |
| ErrorNormalisation.StatusLineFourth | src/lib/httpClient.ts:258-265 | When there is a response and no string `message`, no string `error` and no non-empty `errors` array, the message is `HTTP Error <status>: <statusText or 'Unknown Error'>`. |
| ErrorNormalisation.NoResponseLast | src/lib/httpClient.ts:266-267 | Without a response: "Request timed out" for `ECONNABORTED`, else the network-error text. |
| ErrorNormalisation.NullEntryRaises | src/lib/httpClient.ts:262 | A `null` entry in `errors` makes the derivation raise, and the catch yields "An unexpected error occurred". |
| ErrorNormalisation.EmptyDerivationExactly | src/lib/httpClient.ts:256-273 | The derived message is empty, so "Unknown error occurred" is used, exactly for an empty string `message`, an empty string `error`, or a single `errors` entry whose text is empty. |
| ErrorNormalisation.InvalidCredentialsExample | src/lib/httpClient.ts:259 | `{message: "Invalid credentials"}` yields "Invalid credentials". |
| ErrorNormalisation.JoinedErrorsExample | src/lib/httpClient.ts:262 | `{errors: [{message: "A"}, {message: "B"}]}` yields "A, B". |
| ErrorNormalisation.UnauthorizedReason | src/lib/httpClient.ts:193 | The reason is always truthy. A truthy `data.error` comes first, then a truthy `data.message`, and otherwise the reason is `'unauthorized'`. |
| ErrorNormalisation.UnauthorizedDetail | src/lib/httpClient.ts:184-196 | The event detail has status 401, the clock time, the upper-cased method (default `GET`), the URL, the correlation id and the reason. |
| ErrorNormalisation.ToApiError | src/lib/httpClient.ts:180-200 | The `ApiError` has a non-empty message, the response status, the transport code, the body as details, and the echoed correlation id (else the one stamped on the request). |
| SignedHeaders.BuildSignedHeaders | src/lib/httpClient.ts:35-50 | It fails exactly when signing fails, with the signer's error. Otherwise the headers are exactly `salt`, `X-Timestamp` and `hash`. They hold the generated salt (16 bytes and base64 unless configured, where null or undefined selects the default), a decimal timestamp that reads back as the clock value, and the signature over (publicId, username, role, salt). |
| HttpClient.InitialConfig | src/lib/httpClient.ts:226-229 | `withAuth` defaults to true and `retry` to 2. The configuration carries the origin of the instance that sends it. The headers are exactly the instance's JSON headers and the caller's, with the caller's winning. No retry is counted yet and no correlation id is set. |
| HttpClient.Envelope | src/lib/httpClient.ts:230-235 | The envelope carries the response's data, status and headers. Its correlation id is the echoed one, else the stamped one, so it is present whenever an id was stamped. |
| HttpClient.Issue | src/lib/httpClient.ts:122-134 | The first attempt goes out with the initial configuration, no retry counted and a fresh id in both `X-Request-Id` and `requestId`. It carries `Bearer <token>` exactly when authentication is wanted, the caller set no non-empty `Authorization`, and the token read yields a non-empty token. Otherwise it keeps the caller's `Authorization`. |
| HttpClient.SentHeaders | src/lib/httpClient.ts:125-133 | An attempt's `X-Request-Id` header is its id. `Authorization` is `Bearer <token>` when the interceptor attaches the token. Otherwise the headers change only in `X-Request-Id`, so without authentication or without a token no `Authorization` is added. A non-empty `Authorization` set by the caller is kept. |
| HttpClient.TokenAfterSettles | src/lib/httpClient.ts:67-73 | After the request interceptor has run on every attempt, the in-memory token is the stored one exactly when authentication is wanted, memory held no token, and some read did not raise. Otherwise it is the old memory value. |
| HttpClient.Reissue | src/lib/httpClient.ts:172-176 | A retried attempt goes out as the initial configuration one retry further on, with a fresh id. A Bearer attached earlier stays, because a non-empty token stays in memory. One not attached earlier is attached exactly when the new read yields a non-empty token. |
| HttpClient.Restamp | src/lib/httpClient.ts:125-133 | Decorating an already stamped configuration with the next token gives the same headers as stamping the initial one with that token, provided a non-empty token does not change. |
| HttpClient.RetryFacts | src/lib/httpClient.ts:170-174 | A retry of attempt `i` implies that the budget is not spent, the method is retryable, the failure was eligible, and the wait is `Backoff(i + 1)`. |
| HttpClient.TraceStep | src/lib/httpClient.ts:164-178 | A retried attempt extends the record of sent attempts and waited delays consistently. |
| HttpClient.BearerKept | src/lib/httpClient.ts:125-129 | Once an attempt carries `Bearer <token>`, every later attempt of the same request carries the same credential. |
| HttpClient.RetryLast | src/lib/httpClient.ts:170-176 | One retry turn adds one backoff delay, within the budget, for an idempotent method. It re-issues an attempt that extends the trace. The in-memory token advances by one interceptor read. |
| HttpClient.RunAttempts | src/lib/httpClient.ts:164-178 | There is one attempt more than delays, and at most `retry` delays. A non-retryable method is sent exactly once. Attempt `i` goes out as the initial configuration with `i` retries counted and its own fresh id. Its `Authorization` is the one the interceptor settles on with the token in memory after `i + 1` reads. Delay `i` is `Backoff(i + 1)`, and every retried attempt was an eligible failure. The last attempt either succeeded or was rejected. The in-memory token ends as `TokenAfterSettles` says. |
| HttpClient.Session.Settle | src/lib/httpClient.ts:184-206 | A delivered attempt becomes its envelope and a failure its `ApiError`. On a 401 the token is cleared and exactly one event is appended. Otherwise the token and the event log are unchanged. |
| HttpClient.Session.Exchange | src/lib/httpClient.ts:164-206 | The attempts behave as `RunAttempts` says. The last one settles as `Settle` says, and an eligible failure is rejected only once the budget is spent. Without a final 401 the storage is unchanged and the token ends as `TokenAfterSettles` says. |
| HttpClient.Session.Request | src/lib/httpClient.ts:213-236 | The base's URL is in the instance cache. A cached URL leaves the cache and the id counter as they were. An uncached one adds exactly that entry, with a new id unlike every cached one. Every attempt goes out from that instance's origin. The initial configuration is then exchanged as `Exchange` says. |

## Left out

- The axios transport (`axios.create`, `inst(cfg)`, `client.request`), its timeout of 15 s and `withCredentials`: the transport is an input function of the attempt number and the configuration sent, which carries the origin of the instance sending it.
- `delay`/`setTimeout`: the backoff delays are returned as a list instead of being slept.
- `crypto.getRandomValues`, `Math.random` and `Date.now`: they are inputs. The text of `Math.random().toString(36)` is taken as given.
- `console` logging and the `import.meta.env` diagnostic flags: they have no effect on results.
- `window.dispatchEvent`/`CustomEvent`: modelled as appending the detail to the `events` log. The `typeof window !== 'undefined'` guard is taken as true, since the client runs in a browser.
- `generateSalt` and `signRequest` (`./crypto.ts`) are not part of this model. They are uninterpreted inputs: that the signature changes with each input, and a `generateSalt` that raises, are not modelled.
- BuildSignedHeaders: the timestamp is the clock value as a natural number; `Date.now()` before 1970 is not modelled.
- JSON numbers are integers; floating-point bodies and their `String` formatting are not modelled.
- Case mapping (`toLowerCase`, `toUpperCase`) covers ASCII letters only.
- Header names are compared exactly. Axios's case-insensitive header object is not modelled, nor is the lower-casing of response header names beyond reading `x-request-id`.
- HttpClient.InitialConfig: only the `headers` of the extra request options are carried. Other axios options (`params`, `data`, a `method` or `url` spread over the arguments) are not modelled.
- The helpers `httpGet`, `httpDelete`, `httpPost`, `httpPut` and `httpPatch` (lines 238-242) are not modelled separately. They call `request` with a fixed method, and the request body is not modelled.
- RetryPolicy.OnError: `retry` is an integer. A non-integer, `NaN` or infinite `retry` number and a non-number `retry` value are not modelled.
- The response interceptor's success path only logs, so it is left out.
- Concurrency: requests are modelled one at a time. Interleaved requests sharing the token cache and the instance cache are not modelled.
