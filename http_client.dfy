/** The HTTP client (src/services/httpClient.ts): a configuration fixed at
    construction, and a request operation that turns the ways a request can
    end into either a decoded body or one uniform `ApiError`. The one
    exception is a failure to read the body of an ok, non-JSON response: that
    read is returned without being awaited, so its rejection bypasses the
    `catch` and reaches the caller as it is.

    `fetch` itself is not modelled: a request is described by the
    `FetchRequest` it would send, and what `fetch` did with it is an input,
    a `FetchOutcome`. The time-out timer appears only through its effect, a
    rejection named `AbortError`. JSON parsing is abstract too: a response
    body either fails to parse, with the parser's message, or parses to a
    value whose `message` and `details` members are known. */
module HttpClient {
  import opened Wrappers
  import opened Text
  import opened Types
  import Environment

  /** `HttpClientConfig`; `headers` is optional. */
  datatype HttpClientConfig = HttpClientConfig(
    baseURL: string,
    timeout: int,
    headers: Option<map<string, string>>)

  /** `Partial<HttpClientConfig>`: `Some` for each field the caller supplied. */
  datatype ConfigOverrides = ConfigOverrides(
    baseURL: Option<string>,
    timeout: Option<int>,
    headers: Option<map<string, string>>)

  const DefaultHeaders: map<string, string> :=
    map["Content-Type" := "application/json", "Accept" := "application/json"]

  datatype HttpMethod = GET | POST | PUT | PATCH | DELETE

  /** The `RequestInit` the verb helpers pass: a method and an optional body.
      None of them passes headers of its own. */
  datatype RequestInit = RequestInit(verb: HttpMethod, body: Option<string>)

  /** What is handed to `fetch`. */
  datatype FetchRequest = FetchRequest(
    url: string,
    verb: HttpMethod,
    body: Option<string>,
    headers: map<string, string>)

  /** The result of `response.json()`: a parse failure with its message, or
      a value together with what reading its `message` and `details` members
      gives (`None` when a member is absent). */
  datatype JsonParse<V> =
    | Parsed(value: V, message: Option<string>, details: Option<string>)
    | SyntaxError(reason: string)

  /** How reading a body failed. Body reads reject only with `Error`
      instances, such as a `TypeError` when the connection drops. An
      `AbortError` cannot reach a read: the time-out is cleared as soon as
      `fetch` resolves, before any body is read. */
  datatype ReadFailure = ReadFailure(name: string, message: string)

  /** A response; `text` is what `response.text()` gives, the body or the
      failure it rejects with. */
  datatype Response<V> = Response(
    status: int,
    statusText: string,
    contentType: Option<string>,
    text: Result<string, ReadFailure>,
    json: JsonParse<V>)
  {
    /** `response.ok`. */
    predicate Ok() {
      200 <= status <= 299
    }
  }

  /** How the `fetch` call itself ended. `fetch` rejects only with `Error`
      instances: a `TypeError` for a network failure, an `AbortError` when
      the time-out aborts it. */
  datatype FetchOutcome<V> =
    | Responded(response: Response<V>)
    | FetchRejected(name: string, message: string)

  /** A successfully decoded body. */
  datatype Payload<V> = JsonPayload(value: V) | TextPayload(text: string)

  /** The argument of `post`/`put`/`patch`, seen through what the helpers do
      with it: whether it is truthy, and its `JSON.stringify` text. */
  datatype RequestData = RequestData(truthy: bool, json: string)

  /** JavaScript truthiness of an optional string member. */
  predicate Truthy(s: Option<string>) {
    s.Some? && s.value != ""
  }

  /** `contentType && contentType.includes('application/json')`. */
  predicate IsJsonContentType(contentType: Option<string>) {
    contentType.Some? && Contains(contentType.value, "application/json")
  }

  /** The message synthesised for an error response: `HTTP <status> <statusText>`. */
  function StatusLine(status: int, statusText: string): (line: string)
    ensures "HTTP " <= line
  {
    "HTTP " + IntToString(status) + " " + statusText
  }

  /** The error a non-ok response is turned into: the body's `message` and
      `details` when they are truthy, the status line and `''` otherwise. */
  ghost predicate IsErrorFromResponse<V>(e: ApiError, r: Response<V>) {
    && e.status == r.status
    && e.message ==
         (if r.json.Parsed? && Truthy(r.json.message) then r.json.message.value
          else StatusLine(r.status, r.statusText))
    && e.details ==
         Some(if r.json.Parsed? && Truthy(r.json.details) then r.json.details.value else "")
  }

  /** How a request settles, stated case by case on what `fetch` did:
      an abort is a 408 time-out, any other rejection a network error with
      status 0; a non-ok response is an error carrying the response status;
      an ok response is decoded as JSON exactly when its content type says
      so, and a JSON body that does not parse is a network error. An ok
      response of another type is its text; when reading that text fails,
      `awaitText` says whether the failure goes through the `catch` (as it
      would with `return await`) or escapes as it is (as written). */
  ghost predicate SettlesWith<V>(
    outcome: FetchOutcome<V>, result: Result<Payload<V>, Thrown>, awaitText: bool)
  {
    match outcome
    case FetchRejected(name, message) =>
      result == Failure(RaisedApiError(
        if name == "AbortError" then ApiError("Request timeout", 408, None)
        else ApiError("Network error", 0, Some(message))))
    case Responded(r) =>
      if !r.Ok() then
        result.Failure? && result.error.RaisedApiError? && IsErrorFromResponse(result.error.apiError, r)
      else if IsJsonContentType(r.contentType) then
        match r.json
        case Parsed(v, _, _) => result == Success(JsonPayload(v))
        case SyntaxError(reason) => result == Failure(RaisedApiError(ApiError("Network error", 0, Some(reason))))
      else
        match r.text
        case Success(text) => result == Success(TextPayload(text))
        case Failure(f) =>
          result == Failure(
            if awaitText then RaisedApiError(CatchToApiError(JsError(f.name, f.message)))
            else JsError(f.name, f.message))
  }

  /** How `request` settles as written. */
  ghost predicate Settles<V>(outcome: FetchOutcome<V>, result: Result<Payload<V>, Thrown>)
    ensures Settles(outcome, result) && result.Failure? && !TextReadFailed(outcome) ==>
              result.error.RaisedApiError?
    ensures Settles(outcome, result) && TextReadFailed(outcome) ==>
              result.Failure? && result.error.JsError?
  {
    SettlesWith(outcome, result, false)
  }

  /** How `request` would settle with the text read awaited: every failure
      is then an `ApiError`. */
  ghost predicate SettlesAwaited<V>(outcome: FetchOutcome<V>, result: Result<Payload<V>, Thrown>)
    ensures SettlesAwaited(outcome, result) && result.Failure? ==> result.error.RaisedApiError?
  {
    SettlesWith(outcome, result, true)
  }

  /** The one path that ends outside the `catch`: an ok, non-JSON response
      whose body cannot be read. */
  predicate TextReadFailed<V>(outcome: FetchOutcome<V>) {
    && outcome.Responded? && outcome.response.Ok()
    && !IsJsonContentType(outcome.response.contentType)
    && outcome.response.text.Failure?
  }

  /** The `catch` block of `request`: what it rethrows for each thrown value. */
  function CatchToApiError(error: Thrown): (e: ApiError)
    ensures error.RaisedApiError? ==> e == error.apiError
    ensures error.JsError? && error.name == "AbortError" ==> e.message == "Request timeout" && e.details == None
    ensures error.JsError? && error.name != "AbortError" ==>
              e.message == "Network error" && e.details == Some(error.message)
    ensures error.NonError? ==> e.message == "Network error" && e.details == Some("Unknown error")
    ensures !error.RaisedApiError? ==> e.status == 408 || e.status == 0
    ensures e.status == 408 && !error.RaisedApiError? <==> error.JsError? && error.name == "AbortError"
  {
    match error
    case JsError(name, message) =>
      if name == "AbortError" then ApiError("Request timeout", 408, None)
      else ApiError("Network error", 0, Some(message))
    case RaisedApiError(apiError) => apiError
    case NonError => ApiError("Network error", 0, Some("Unknown error"))
  }

  /** `data ? JSON.stringify(data) : undefined`. */
  function EncodeBody(data: Option<RequestData>): (body: Option<string>)
    ensures body.Some? <==> data.Some? && data.value.truthy
    ensures body.Some? ==> body.value == data.value.json
  {
    if data.Some? && data.value.truthy then Some(data.value.json) else None
  }

  class HttpClient {
    const config: HttpClientConfig

    /** The constructor: the environment's base URL and time-out with the
        JSON default headers, each replaced wholesale by a supplied field. */
    constructor (environment: Environment.EnvironmentConfig, overrides: ConfigOverrides)
      ensures config.baseURL == overrides.baseURL.GetOr(environment.api.baseUrl)
      ensures config.timeout == overrides.timeout.GetOr(environment.api.timeout)
      ensures config.headers == Some(overrides.headers.GetOr(DefaultHeaders))
    {
      config := HttpClientConfig(
        if overrides.baseURL.Some? then overrides.baseURL.value else environment.api.baseUrl,
        if overrides.timeout.Some? then overrides.timeout.value else environment.api.timeout,
        Some(if overrides.headers.Some? then overrides.headers.value else DefaultHeaders));
    }

    /** `handleErrorResponse`: start from the status line and no details,
        and take the body's members when it parses and they are truthy. */
    method HandleErrorResponse<V>(response: Response<V>) returns (e: ApiError)
      ensures IsErrorFromResponse(e, response)
      ensures response.json.SyntaxError? ==>
                e == ApiError(StatusLine(response.status, response.statusText), response.status, Some(""))
      ensures e.message != ""
    {
      var message := StatusLine(response.status, response.statusText);
      var details := "";
      match response.json {
        case Parsed(_, bodyMessage, bodyDetails) =>
          if Truthy(bodyMessage) {
            message := bodyMessage.value;
          }
          details := if Truthy(bodyDetails) then bodyDetails.value else "";
        case SyntaxError(_) =>
      }
      e := ApiError(message, response.status, Some(details));
    }

    /** `request(endpoint, options)`: sends `baseURL + endpoint` with the
        configured headers, then settles as `Settles` says. Every error it
        settles with, except a failed read of a text body, is an `ApiError`
        with a non-empty message. */
    method Request<V>(endpoint: string, init: RequestInit, outcome: FetchOutcome<V>)
      returns (sent: FetchRequest, result: Result<Payload<V>, Thrown>)
      ensures sent.url == config.baseURL + endpoint
      ensures sent.verb == init.verb && sent.body == init.body
      ensures sent.headers == config.headers.GetOr(map[])
      ensures Settles(outcome, result)
      ensures result.Failure? && !TextReadFailed(outcome) ==>
                result.error.RaisedApiError? && result.error.apiError.message != ""
      ensures result.Failure? && TextReadFailed(outcome) ==>
                result.error == JsError(outcome.response.text.error.name, outcome.response.text.error.message)
    {
      var headers := if config.headers.Some? then config.headers.value else map[];
      sent := FetchRequest(config.baseURL + endpoint, init.verb, init.body, headers);
      match outcome {
        case FetchRejected(name, message) =>
          result := Failure(RaisedApiError(CatchToApiError(JsError(name, message))));
        case Responded(response) =>
          if !response.Ok() {
            var e := HandleErrorResponse(response);
            result := Failure(RaisedApiError(CatchToApiError(RaisedApiError(e))));
          } else if IsJsonContentType(response.contentType) {
            match response.json {
              case Parsed(v, _, _) =>
                result := Success(JsonPayload(v));
              case SyntaxError(reason) =>
                result := Failure(RaisedApiError(CatchToApiError(JsError("SyntaxError", reason))));
            }
          } else {
            // returned without `await`: a failed read is not caught
            match response.text {
              case Success(text) =>
                result := Success(TextPayload(text));
              case Failure(f) =>
                result := Failure(JsError(f.name, f.message));
            }
          }
      }
    }

    method Get<V>(endpoint: string, outcome: FetchOutcome<V>)
      returns (sent: FetchRequest, result: Result<Payload<V>, Thrown>)
      ensures sent == FetchRequest(config.baseURL + endpoint, GET, None, config.headers.GetOr(map[]))
      ensures Settles(outcome, result)
    {
      sent, result := Request(endpoint, RequestInit(GET, None), outcome);
    }

    method Post<V>(endpoint: string, data: Option<RequestData>, outcome: FetchOutcome<V>)
      returns (sent: FetchRequest, result: Result<Payload<V>, Thrown>)
      ensures sent == FetchRequest(config.baseURL + endpoint, POST, EncodeBody(data), config.headers.GetOr(map[]))
      ensures Settles(outcome, result)
    {
      sent, result := Request(endpoint, RequestInit(POST, EncodeBody(data)), outcome);
    }

    method Put<V>(endpoint: string, data: Option<RequestData>, outcome: FetchOutcome<V>)
      returns (sent: FetchRequest, result: Result<Payload<V>, Thrown>)
      ensures sent == FetchRequest(config.baseURL + endpoint, PUT, EncodeBody(data), config.headers.GetOr(map[]))
      ensures Settles(outcome, result)
    {
      sent, result := Request(endpoint, RequestInit(PUT, EncodeBody(data)), outcome);
    }

    method Patch<V>(endpoint: string, data: Option<RequestData>, outcome: FetchOutcome<V>)
      returns (sent: FetchRequest, result: Result<Payload<V>, Thrown>)
      ensures sent == FetchRequest(config.baseURL + endpoint, PATCH, EncodeBody(data), config.headers.GetOr(map[]))
      ensures Settles(outcome, result)
    {
      sent, result := Request(endpoint, RequestInit(PATCH, EncodeBody(data)), outcome);
    }

    method Delete<V>(endpoint: string, outcome: FetchOutcome<V>)
      returns (sent: FetchRequest, result: Result<Payload<V>, Thrown>)
      ensures sent == FetchRequest(config.baseURL + endpoint, DELETE, None, config.headers.GetOr(map[]))
      ensures Settles(outcome, result)
    {
      sent, result := Request(endpoint, RequestInit(DELETE, None), outcome);
    }
  }

  /** A request settles in exactly one way. */
  lemma SettlesIsDeterministic<V>(
    outcome: FetchOutcome<V>, r1: Result<Payload<V>, Thrown>, r2: Result<Payload<V>, Thrown>)
    requires Settles(outcome, r1) && Settles(outcome, r2)
    ensures r1 == r2
  {
  }

  /** Every error a request settles with is an `ApiError` with a message and
      one of three statuses, 408 for a time-out, 0 for a network failure, or
      the status of a response that was not ok; except when the body of an
      ok text response cannot be read, which is passed on as it is. */
  lemma SettledErrorIsNormalized<V>(outcome: FetchOutcome<V>, result: Result<Payload<V>, Thrown>)
    requires Settles(outcome, result) && result.Failure?
    ensures TextReadFailed(outcome) ==>
              result.error == JsError(outcome.response.text.error.name, outcome.response.text.error.message)
    ensures !TextReadFailed(outcome) ==>
              && result.error.RaisedApiError?
              && result.error.apiError.message != ""
              && (|| result.error.apiError.status == 408
                  || result.error.apiError.status == 0
                  || (outcome.Responded? && !outcome.response.Ok()
                      && result.error.apiError.status == outcome.response.status))
  {
  }

  /** A non-ok response whose body is not JSON yields exactly the status
      line, for instance `HTTP 404 Not Found`, with empty details. */
  lemma NotFoundWithoutJsonBody<V>(
    result: Result<Payload<V>, Thrown>, text: Result<string, ReadFailure>, reason: string)
    requires Settles(Responded(Response(404, "Not Found", None, text, SyntaxError(reason))), result)
    ensures result == Failure(RaisedApiError(ApiError("HTTP 404 Not Found", 404, Some(""))))
  {
    assert StatusLine(404, "Not Found") == "HTTP 404 Not Found";
  }

  /** A body that parses to a value without `message` and `details`, such
      as `null` (reading a member of `null` throws into the same `catch`),
      gives the error of a body that does not parse; on the ok JSON path it
      is returned as the value. */
  lemma MemberlessBodyReadsLikeUnparseable<V>(
    e: ApiError, status: int, statusText: string, contentType: Option<string>,
    text: Result<string, ReadFailure>, v: V, reason: string)
    ensures IsErrorFromResponse(e, Response(status, statusText, contentType, text, Parsed(v, None, None)))
            <==> IsErrorFromResponse(e, Response(status, statusText, contentType, text, JsonParse<V>.SyntaxError(reason)))
    ensures IsErrorFromResponse(e, Response(status, statusText, contentType, text, Parsed(v, None, None)))
            <==> e == ApiError(StatusLine(status, statusText), status, Some(""))
  {
  }

  /** As written, a 200 response without a content type whose body read
      fails settles with the raw `TypeError`, which carries no status. */
  lemma TextReadFailureEscapes<V>(json: JsonParse<V>, result: Result<Payload<V>, Thrown>)
    requires Settles(Responded(Response(200, "OK", None, Failure(ReadFailure("TypeError", "network error")), json)), result)
    ensures result == Failure(JsError("TypeError", "network error"))
    ensures !result.error.RaisedApiError?
  {
  }

  /** With the read awaited, every error is an `ApiError` with a message and
      a status of 408, 0 or that of the failed response, and nothing else
      changes. */
  lemma AwaitedErrorIsNormalized<V>(outcome: FetchOutcome<V>, result: Result<Payload<V>, Thrown>)
    requires SettlesAwaited(outcome, result) && result.Failure?
    ensures result.error.RaisedApiError? && result.error.apiError.message != ""
    ensures || result.error.apiError.status == 408
            || result.error.apiError.status == 0
            || (outcome.Responded? && !outcome.response.Ok()
                && result.error.apiError.status == outcome.response.status)
    ensures TextReadFailed(outcome) ==> result.error.apiError.status != outcome.response.status
    ensures TextReadFailed(outcome) && outcome.response.text.error.name != "AbortError" ==>
              result.error.apiError ==
              ApiError("Network error", 0, Some(outcome.response.text.error.message))
  {
  }

  /** Awaiting the read changes only how a failed text read settles. */
  lemma AwaitingChangesOnlyTextReadFailure<V>(outcome: FetchOutcome<V>, result: Result<Payload<V>, Thrown>)
    requires !TextReadFailed(outcome)
    ensures Settles(outcome, result) <==> SettlesAwaited(outcome, result)
  {
  }
}
