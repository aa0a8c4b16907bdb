/**
 * Response classification (`_validate`) and the wrapper that turns a failed
 * connection into the library's own `ConnectionError` (`nylas_excepted`).
 */
module Errors {
  import opened Wrappers
  import opened Text
  import opened Json

  /** The exception classes `_validate` can raise. */
  datatype ErrorKind =
    | InvalidRequestError
    | NotAuthorizedError
    | MessageRejectedError
    | NotFoundError
    | MethodNotSupportedError
    | ConflictError
    | SendingQuotaExceededError
    | ServerError
    | ServiceUnavailableError
    | ServerTimeoutError
    | APIClientError

  /** The request body attached to an error: absent, JSON-decoded, or the raw body when it is not JSON. */
  datatype RequestData = NoData | JsonData(json: Json) | RawData(raw: string)

  /** Everything an operation of the client can raise. */
  datatype Error =
      /** An error classified from an HTTP status by `_validate`. */
    | ApiError(kind: ErrorKind, url: string, statusCode: int, data: RequestData,
               message: Option<Json>, serverError: Option<Json>)
      /** A failed connection, carrying only the configured API server. */
    | ConnectionError(server: string)
      /** Any other transport exception, which `nylas_excepted` lets through unchanged. */
    | TransportError(name: string)
      /** `response.json()` on a successful response whose body is not JSON. */
    | ResponseNotJson
      /** Iterating a decoded value that is not iterable (a number, a boolean, null). */
    | NotIterable
      /** `cls.create(self, **x)` with an `x` that is not a JSON object. */
    | NotAMapping
      /** `result[0]` on an empty JSON array. */
    | IndexOutOfRange

  /** An HTTP response together with the request it answers. */
  datatype Response = Response(status: int, text: string, url: string, requestBody: Option<string>)

  /** What the transport delivered for one request. */
  datatype Transport =
    | Delivered(response: Response)
      /**
       * The transport raised its connection-error exception: a refused
       * connection, a failed name lookup, a TLS or proxy failure, or a
       * connect timeout.
       */
    | ConnectionFailed
      /** Any other transport exception, such as a read timeout. */
    | OtherFailure(name: string)

  /** The status table of `_validate`; every other status except 200 is an `APIClientError`. */
  const StatusTable: map<int, ErrorKind> :=
    map[400 := InvalidRequestError,
        401 := NotAuthorizedError,
        402 := MessageRejectedError,
        403 := NotAuthorizedError,
        404 := NotFoundError,
        405 := MethodNotSupportedError,
        409 := ConflictError,
        429 := SendingQuotaExceededError,
        500 := ServerError,
        503 := ServiceUnavailableError,
        504 := ServerTimeoutError]

  const MalformedMessage: string := "Malformed"
  const UnknownStatusMessage: string := "Unknown status code."

  /** The class raised for a status other than 200. */
  function KindFor(status: int): ErrorKind
  {
    if status in StatusTable then StatusTable[status] else APIClientError
  }

  /**
   * The request body an error carries: nothing for a missing or empty body, the
   * decoded value when the body is JSON, and the body itself when it is not.
   */
  function RequestDataOf(body: Option<string>, parse: string -> Option<Json>): (d: RequestData)
    ensures body == None || body == Some("") ==> d == NoData
    ensures body.Some? && body.value != "" && parse(body.value).Some? ==> d == JsonData(parse(body.value).value)
    ensures body.Some? && body.value != "" && parse(body.value).None? ==> d == RawData(body.value)
  {
    match body
    case None => NoData
    case Some(text) =>
      if text == "" then NoData
      else match parse(text)
        case Some(j) => JsonData(j)
        case None => RawData(text)
  }

  /** Outcome of `key in value` followed by `value[key]` on a decoded JSON value. */
  datatype Probe = Absent | Present(value: Json) | Raises {
    function ToOption(): Option<Json>
    {
      if Present? then Some(value) else None
    }
  }

  /**
   * Python semantics of `key in value` and `value[key]`: a dict looks the key up;
   * a list tests membership and then cannot be indexed by a string; a string tests
   * for a substring and then cannot be indexed by a string; any other value raises.
   */
  function Member(value: Json, key: string): (p: Probe)
    ensures value.JObject? ==> p == (if key in value.fields then Present(value.fields[key]) else Absent)
    ensures value.JNull? || value.JBool? || value.JNum? ==> p == Raises
  {
    match value
    case JObject(fields) => if key in fields then Present(fields[key]) else Absent
    case JArray(items) => if JStr(key) in items then Raises else Absent
    case JStr(s) => if Contains(s, key) then Raises else Absent
    case _ => Raises
  }

  /** The error raised for a tabled status, given what `json.loads(response.text)` produced. */
  function TabledError(kind: ErrorKind, url: string, status: int, data: RequestData,
                       body: Option<Json>): (e: Error)
    ensures e.ApiError? && e.kind == kind && e.url == url && e.statusCode == status && e.data == data
  {
    var malformed := ApiError(kind, url, status, data, Some(JStr(MalformedMessage)), None);
    match body
    case None => malformed
    case Some(b) =>
      var message := Member(b, "message");
      var serverError := Member(b, "server_error");
      if message.Raises? || serverError.Raises? then malformed
      else ApiError(kind, url, status, data, message.ToOption(), serverError.ToOption())
  }

  /**
   * `_validate`: a 200 response passes through unchanged; any other status raises
   * the class its status maps to, carrying the request's url, the status and the
   * request body.
   */
  function Validate(resp: Response, parse: string -> Option<Json>): (r: Result<Response, Error>)
    ensures r.Success? <==> resp.status == 200
    ensures r.Success? ==> r.value == resp
    ensures r.Failure? ==> r.error.ApiError?
    ensures r.Failure? ==> r.error.kind == KindFor(resp.status)
    ensures r.Failure? ==> r.error.url == resp.url && r.error.statusCode == resp.status
    ensures r.Failure? ==> r.error.data == RequestDataOf(resp.requestBody, parse)
  {
    var data := RequestDataOf(resp.requestBody, parse);
    if resp.status == 200 then
      Success(resp)
    else if resp.status in StatusTable then
      Failure(TabledError(StatusTable[resp.status], resp.url, resp.status, data, parse(resp.text)))
    else
      Failure(ApiError(APIClientError, resp.url, resp.status, data, Some(JStr(UnknownStatusMessage)), None))
  }

  /** `nylas_excepted`: a failed connection becomes a `ConnectionError` carrying the API server. */
  function Excepted(server: string, t: Transport): (r: Result<Response, Error>)
    ensures r.Success? <==> t.Delivered?
    ensures r.Success? ==> r.value == t.response
    ensures t.ConnectionFailed? ==> r.error == ConnectionError(server)
    ensures t.OtherFailure? ==> r.error == TransportError(t.name)
  {
    match t
    case Delivered(resp) => Success(resp)
    case ConnectionFailed => Failure(ConnectionError(server))
    case OtherFailure(name) => Failure(TransportError(name))
  }

  /** A request's response after `nylas_excepted` and `_validate`. */
  function Validated(server: string, t: Transport, parse: string -> Option<Json>): (r: Result<Response, Error>)
    ensures r.Success? <==> t.Delivered? && t.response.status == 200
    ensures r.Success? ==> r.value == t.response
    ensures t.Delivered? && t.response.status != 200 ==> r == Validate(t.response, parse)
    ensures !t.Delivered? ==> r == Excepted(server, t)
  {
    var resp :- Excepted(server, t);
    Validate(resp, parse)
  }

  // ---------------------------------------------------------------- lemmas

  /** The table has exactly the eleven documented statuses, and 200 is not among them. */
  lemma StatusTableDomain()
    ensures StatusTable.Keys == {400, 401, 402, 403, 404, 405, 409, 429, 500, 503, 504}
    ensures 200 !in StatusTable
    ensures APIClientError !in StatusTable.Values
  {
  }

  /** 401 and 403 both give `NotAuthorizedError`; no other two statuses share a class. */
  lemma OnlyAuthStatusesShareAKind(s: int, t: int)
    requires s in StatusTable && t in StatusTable && s < t
    ensures StatusTable[s] == StatusTable[t] <==> s == 401 && t == 403
  {
  }

  /** Every status other than 200 raises: tabled ones their class, all others `APIClientError`. */
  lemma ClassificationIsTotal(resp: Response, parse: string -> Option<Json>)
    requires resp.status != 200
    ensures Validate(resp, parse).Failure?
    ensures resp.status in StatusTable ==> Validate(resp, parse).error.kind == StatusTable[resp.status]
    ensures resp.status !in StatusTable ==> Validate(resp, parse).error.kind == APIClientError
  {
  }

  /** An unknown status carries the message "Unknown status code." and no server error. */
  lemma UnknownStatus(resp: Response, parse: string -> Option<Json>)
    requires resp.status != 200 && resp.status !in StatusTable
    ensures Validate(resp, parse) == Failure(ApiError(APIClientError, resp.url, resp.status,
                                                       RequestDataOf(resp.requestBody, parse),
                                                       Some(JStr(UnknownStatusMessage)), None))
  {
  }

  /** A tabled error with a JSON-object body copies `message` and `server_error` exactly when present. */
  lemma ObjectErrorBody(resp: Response, parse: string -> Option<Json>, fields: map<string, Json>)
    requires resp.status in StatusTable && parse(resp.text) == Some(JObject(fields))
    ensures Validate(resp, parse).error.message ==
            (if "message" in fields then Some(fields["message"]) else None)
    ensures Validate(resp, parse).error.serverError ==
            (if "server_error" in fields then Some(fields["server_error"]) else None)
  {
  }

  /**
   * A tabled error whose body does not decode, or decodes to a value that cannot
   * be probed for keys, keeps its class and says "Malformed".
   */
  lemma MalformedErrorBody(resp: Response, parse: string -> Option<Json>)
    requires resp.status in StatusTable
    requires parse(resp.text).None? || parse(resp.text).value.JNull?
          || parse(resp.text).value.JBool? || parse(resp.text).value.JNum?
    ensures Validate(resp, parse) == Failure(ApiError(StatusTable[resp.status], resp.url, resp.status,
                                                       RequestDataOf(resp.requestBody, parse),
                                                       Some(JStr(MalformedMessage)), None))
  {
  }

  /** A list body that contains the string "message" cannot be indexed by it, so the error is "Malformed". */
  lemma ListErrorBodyNamingMessage(resp: Response, parse: string -> Option<Json>, items: seq<Json>)
    requires resp.status in StatusTable && parse(resp.text) == Some(JArray(items))
    requires JStr("message") in items
    ensures Validate(resp, parse).error.message == Some(JStr(MalformedMessage))
    ensures Validate(resp, parse).error.kind == StatusTable[resp.status]
  {
  }

  /** A string body that contains neither key gives an error with no message and no server error. */
  lemma StringErrorBodyWithoutKeys(resp: Response, parse: string -> Option<Json>, s: string)
    requires resp.status in StatusTable && parse(resp.text) == Some(JStr(s))
    requires forall i :: 0 <= i <= |s| ==> !("message" <= s[i..]) && !("server_error" <= s[i..])
    ensures Validate(resp, parse).error.message == None
    ensures Validate(resp, parse).error.serverError == None
  {
  }
}
