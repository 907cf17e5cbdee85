/** The rejecting half of the error interceptor: the human-readable message
    chosen by a fixed priority, the detail of the `auth:unauthorized` event
    raised on a 401 response (section 15.5.2 of RFC 9110), and the `ApiError`
    every failure is turned into. */
module ErrorNormalisation {
  import opened JsValues
  import opened HttpTypes

  const UNKNOWN_ERROR := "Unknown error occurred"
  const UNEXPECTED_ERROR := "An unexpected error occurred"
  const TIMEOUT_MESSAGE := "Request timed out"
  const NETWORK_MESSAGE := "Network error - please check your connection"
  const UNKNOWN_STATUS_TEXT := "Unknown Error"
  const UNAUTHORIZED_REASON := "unauthorized"

  /** The body of the failed response, absent when no response arrived. */
  function ResponseData(error: TransportError): Option<Json> {
    if error.response.Some? then Some(error.response.value.data) else None
  }

  /** One entry of `data.errors` as it ends up in the joined text:
      `e.message || String(e)`, converted to a string by `join`. */
  function EntryText(e: Json): string {
    var m := Prop(Some(e), "message");
    if JsonTruthy(m) then ToJsString(m.value) else ToJsString(e)
  }

  /** The entries joined with ", ", or `None` when an entry is `null`, for
      reading `message` of `null` raises. */
  function JoinedErrors(errors: seq<Json>): Option<string> {
    if exists i :: 0 <= i < |errors| && errors[i].JNull? then None
    else Some(Join(seq(|errors|, i requires 0 <= i < |errors| => EntryText(errors[i])), ", "))
  }

  /** The body of the `try` in `deriveErrorMessage`; `None` when it raised. */
  function TryDerive(error: TransportError, data: Option<Json>): Option<string> {
    var message := Prop(data, "message");
    var err := Prop(data, "error");
    var errors := Prop(data, "errors");
    if IsObject(data) && message.Some? && message.value.JStr? then Some(message.value.s)
    else if IsObject(data) && err.Some? && err.value.JStr? then Some(err.value.s)
    else if IsObject(data) && errors.Some? && errors.value.JArr? && |errors.value.items| > 0 then
      JoinedErrors(errors.value.items)
    else if error.response.Some? then
      Some("HTTP Error " + IntToString(error.response.value.status) + ": " +
           OrElse(Some(error.response.value.statusText), UNKNOWN_STATUS_TEXT))
    else if error.code == Some(ECONNABORTED) then Some(TIMEOUT_MESSAGE)
    else Some(NETWORK_MESSAGE)
  }

  /** `deriveErrorMessage`: what the `try` yields, or the fixed text of the
      `catch`. */
  function DeriveErrorMessage(error: TransportError, data: Option<Json>): string {
    TryDerive(error, data).GetOr(UNEXPECTED_ERROR)
  }

  /** The rejected error's message: the derived one, or "Unknown error
      occurred" when that is empty; so never empty. */
  function ErrorMessage(error: TransportError): (m: string)
    ensures m != ""
  {
    OrElse(Some(DeriveErrorMessage(error, ResponseData(error))), UNKNOWN_ERROR)
  }

  // ---- The priority order ----

  /** A string `message` in the body wins over everything else. */
  lemma MessageFirst(error: TransportError, fields: map<string, Json>)
    requires "message" in fields && fields["message"].JStr?
    ensures DeriveErrorMessage(error, Some(JObj(fields))) == fields["message"].s
  {
  }

  /** Then a string `error`. */
  lemma ErrorSecond(error: TransportError, fields: map<string, Json>)
    requires !("message" in fields && fields["message"].JStr?)
    requires "error" in fields && fields["error"].JStr?
    ensures DeriveErrorMessage(error, Some(JObj(fields))) == fields["error"].s
  {
  }

  /** Then a non-empty `errors` array, each entry by its truthy `message`
      or else as a whole, joined with ", ". */
  lemma ErrorsThird(error: TransportError, fields: map<string, Json>)
    requires !("message" in fields && fields["message"].JStr?)
    requires !("error" in fields && fields["error"].JStr?)
    requires "errors" in fields && fields["errors"].JArr? && |fields["errors"].items| > 0
    requires forall i :: 0 <= i < |fields["errors"].items| ==> !fields["errors"].items[i].JNull?
    ensures var items := fields["errors"].items;
      DeriveErrorMessage(error, Some(JObj(fields))) ==
        Join(seq(|items|, i requires 0 <= i < |items| => EntryText(items[i])), ", ")
  {
  }

  /** A body where none of those three applies (no string `message`, no
      string `error`, no non-empty `errors` array; or no body at all) gives
      the status line when a response arrived. */
  lemma StatusLineFourth(error: TransportError, data: Option<Json>)
    requires error.response.Some?
    requires !(Prop(data, "message").Some? && Prop(data, "message").value.JStr?)
    requires !(Prop(data, "error").Some? && Prop(data, "error").value.JStr?)
    requires !(Prop(data, "errors").Some? && Prop(data, "errors").value.JArr? && |Prop(data, "errors").value.items| > 0)
    ensures DeriveErrorMessage(error, data) ==
      "HTTP Error " + IntToString(error.response.value.status) + ": " +
      (if error.response.value.statusText == "" then UNKNOWN_STATUS_TEXT else error.response.value.statusText)
  {
  }

  /** Without a response: a timeout, else a network error. */
  lemma NoResponseLast(error: TransportError)
    requires error.response.None?
    ensures DeriveErrorMessage(error, ResponseData(error)) ==
      if error.code == Some(ECONNABORTED) then TIMEOUT_MESSAGE else NETWORK_MESSAGE
  {
  }

  /** A `null` entry in `errors` makes the `try` raise. */
  lemma NullEntryRaises(error: TransportError, fields: map<string, Json>, k: nat)
    requires !("message" in fields && fields["message"].JStr?)
    requires !("error" in fields && fields["error"].JStr?)
    requires "errors" in fields && fields["errors"].JArr?
    requires k < |fields["errors"].items| && fields["errors"].items[k].JNull?
    ensures DeriveErrorMessage(error, Some(JObj(fields))) == UNEXPECTED_ERROR
  {
  }

  /** The derivation is empty, so that the generic fallback is used, exactly
      for an empty string `message`, an empty string `error`, or a single
      `errors` entry whose text is empty. */
  lemma EmptyDerivationExactly(error: TransportError)
    ensures var data := ResponseData(error);
      var fields := if data.Some? && data.value.JObj? then data.value.fields else map[];
      DeriveErrorMessage(error, data) == "" <==>
        && data.Some? && data.value.JObj?
        && (|| ("message" in fields && fields["message"] == JStr(""))
            || (!("message" in fields && fields["message"].JStr?) && "error" in fields && fields["error"] == JStr(""))
            || (&& !("message" in fields && fields["message"].JStr?)
                && !("error" in fields && fields["error"].JStr?)
                && "errors" in fields && fields["errors"].JArr? && |fields["errors"].items| == 1
                && !fields["errors"].items[0].JNull? && EntryText(fields["errors"].items[0]) == ""))
  {
    var data := ResponseData(error);
    var message := Prop(data, "message");
    var err := Prop(data, "error");
    var errors := Prop(data, "errors");
    if IsObject(data) && message.Some? && message.value.JStr? {
    } else if IsObject(data) && err.Some? && err.value.JStr? {
    } else if IsObject(data) && errors.Some? && errors.value.JArr? && |errors.value.items| > 0 {
      var items := errors.value.items;
      var parts := seq(|items|, i requires 0 <= i < |items| => EntryText(items[i]));
      JoinEmpty(parts, ", ");
    } else if error.response.Some? {
      var status := error.response.value.status;
      var line := "HTTP Error " + IntToString(status) + ": " + OrElse(Some(error.response.value.statusText), UNKNOWN_STATUS_TEXT);
      assert line[0] == 'H';
      assert TryDerive(error, data) == Some(line);
    } else {
      assert TryDerive(error, data) == Some(TIMEOUT_MESSAGE) || TryDerive(error, data) == Some(NETWORK_MESSAGE);
    }
  }

  // ---- Examples ----

  /** `{message: "Invalid credentials"}` gives "Invalid credentials". */
  lemma InvalidCredentialsExample(error: TransportError)
    requires error.response.Some?
    requires error.response.value.data == JObj(map["message" := JStr("Invalid credentials")])
    ensures ErrorMessage(error) == "Invalid credentials"
  {
  }

  /** `{errors: [{message: "A"}, {message: "B"}]}` gives "A, B". */
  lemma JoinedErrorsExample(error: TransportError)
    requires error.response.Some?
    requires error.response.value.data ==
      JObj(map["errors" := JArr([JObj(map["message" := JStr("A")]), JObj(map["message" := JStr("B")])])])
    ensures ErrorMessage(error) == "A, B"
  {
    var items := [JObj(map["message" := JStr("A")]), JObj(map["message" := JStr("B")])];
    assert EntryText(items[0]) == "A" && EntryText(items[1]) == "B";
    var parts := seq(|items|, i requires 0 <= i < |items| => EntryText(items[i]));
    assert parts == ["A", "B"];
    assert Join(parts, ", ") == "A" + ", " + Join(["B"], ", ");
  }

  // ---- The 401 side channel and the rejected error ----

  /** The reason of a 401 event: the body's truthy `error`, else its
      truthy `message`, else the text "unauthorized"; so always truthy. */
  function UnauthorizedReason(data: Option<Json>): (reason: Json)
    ensures JsonTruthy(Some(reason))
    ensures JsonTruthy(Prop(data, "error")) ==> reason == Prop(data, "error").value
    ensures !JsonTruthy(Prop(data, "error")) && JsonTruthy(Prop(data, "message")) ==> reason == Prop(data, "message").value
    ensures !JsonTruthy(Prop(data, "error")) && !JsonTruthy(Prop(data, "message")) ==> reason == JStr(UNAUTHORIZED_REASON)
  {
    var err := Prop(data, "error");
    var message := Prop(data, "message");
    if JsonTruthy(err) then err.value
    else if JsonTruthy(message) then message.value
    else JStr(UNAUTHORIZED_REASON)
  }

  /** The detail of the `auth:unauthorized` event for a 401 failure. */
  function UnauthorizedDetail(cfg: Option<RequestConfig>, error: TransportError, now: int): (e: UnauthorizedEvent)
    requires error.response.Some? && error.response.value.status == 401
    ensures e.status == 401 && e.at == now
    ensures e.httpMethod == ToUpper(OrElse(if cfg.Some? then cfg.value.httpMethod else None, "get"))
    ensures e.url == (if cfg.Some? then Some(cfg.value.url) else None)
    ensures e.requestId == CorrelationId(Some(error.response.value.headers), cfg)
    ensures e.reason == UnauthorizedReason(ResponseData(error))
  {
    UnauthorizedEvent(
      at := now,
      status := error.response.value.status,
      requestId := CorrelationId(Some(error.response.value.headers), cfg),
      url := if cfg.Some? then Some(cfg.value.url) else None,
      httpMethod := ToUpper(OrElse(if cfg.Some? then cfg.value.httpMethod else None, "get")),
      reason := UnauthorizedReason(ResponseData(error)))
  }

  /** The `ApiError` the interceptor rejects with: a non-empty message, the
      response status and body, the transport code, and the correlation id
      echoed by the server or else the one stamped on the request. */
  function ToApiError(cfg: Option<RequestConfig>, error: TransportError): (e: ApiError)
    ensures e.message != ""
    ensures e.status == (if error.response.Some? then Some(error.response.value.status) else None)
    ensures e.code == error.code && e.details == ResponseData(error)
    ensures e.requestId == CorrelationId(if error.response.Some? then Some(error.response.value.headers) else None, cfg)
  {
    ApiError(
      message := ErrorMessage(error),
      status := if error.response.Some? then Some(error.response.value.status) else None,
      code := error.code,
      details := ResponseData(error),
      requestId := CorrelationId(if error.response.Some? then Some(error.response.value.headers) else None, cfg))
  }
}
