/**
 * The private resource functions of the API client: what request each one
 * sends, and how the validated response is shaped into its result. The
 * transport's answer is a parameter; `json.loads`, `url_concat`, `urlencode`
 * and `cls.create` are the opaque function parameters `parse`, `urlConcat`,
 * `urlencode` and `create`.
 */
module Mediator {
  import opened Wrappers
  import opened Json
  import opened Errors
  import opened Urls

  datatype Verb = GET | POST | PUT | DELETE

  /** How a request carries its payload. */
  datatype Body =
    | NoBody
      /** `json=data`: the transport serialises the value. */
    | JsonBody(json: Json)
      /** `data=json.dumps(data)` with an explicit JSON content type. */
    | SerializedJson(json: Json)
      /** `files=data`: a multipart upload. */
    | Multipart(files: Json)

  /** One request: the verb, the signing session, the URL, the per-request headers and the body. */
  datatype Request = Request(verb: Verb, session: SessionKind, url: string,
                             headers: map<string, string>, body: Body)

  /** What `_create_resource` returns: the raw result for the 'send' collection, a model otherwise. */
  datatype Created<R> = RawResult(result: Json) | Model(model: R)

  const SendCollection: string := "send"
  const JsonContentType: map<string, string> := map["Content-Type" := "application/json"]

  // ---------------------------------------------------------------- requests

  /** The GET of `_get_resources`. */
  function ListRequest(e: Endpoint, cls: ResourceClass, extra: Option<string>, filters: Params,
                       urlConcat: (string, Params) -> string): (r: Request)
    ensures r.verb == GET && r.body == NoBody && r.headers == map[]
    ensures r.session == AdminSession <==> cls.apiRoot == AdminRoot
    ensures r.url == urlConcat(ListUrl(e, cls, extra), filters)
  {
    Request(GET, SessionFor(cls.apiRoot), urlConcat(ListUrl(e, cls, extra), filters), map[], NoBody)
  }

  /**
   * The GET of `_get_resource_raw`: the caller's headers (none when absent),
   * updated with the bearer session's headers, which win on a shared name.
   */
  function GetRawRequest(e: Endpoint, cls: ResourceClass, id: string, extra: Option<string>,
                         headers: map<string, string>, sessionHeaders: map<string, string>,
                         filters: Params, urlConcat: (string, Params) -> string): (r: Request)
    ensures r.verb == GET && r.body == NoBody
    ensures r.session == AdminSession <==> cls.apiRoot == AdminRoot
    ensures r.url == urlConcat(ResourceUrl(e, cls, id, extra), filters)
    ensures r.headers.Keys == headers.Keys + sessionHeaders.Keys
    ensures forall k :: k in sessionHeaders ==> r.headers[k] == sessionHeaders[k]
    ensures forall k :: k in headers && k !in sessionHeaders ==> r.headers[k] == headers[k]
  {
    Request(GET, SessionFor(cls.apiRoot), urlConcat(ResourceUrl(e, cls, id, extra), filters),
            headers + sessionHeaders, NoBody)
  }

  /** The POST shared by both create functions: multipart for files, JSON otherwise. */
  function PostRequest(cls: ResourceClass, url: string, data: Json,
                       sessionHeaders: map<string, string>): (r: Request)
    ensures r.verb == POST && r.url == url
    ensures r.session == AdminSession <==> cls.apiRoot == AdminRoot
    ensures cls.isFile ==> r.body == Multipart(data) && r.headers == map[]
    ensures !cls.isFile ==> r.body == SerializedJson(data)
    ensures !cls.isFile ==> r.headers.Keys == sessionHeaders.Keys + {"Content-Type"}
    ensures !cls.isFile ==> forall k :: k in sessionHeaders ==> r.headers[k] == sessionHeaders[k]
    ensures !cls.isFile && "Content-Type" !in sessionHeaders ==> r.headers["Content-Type"] == "application/json"
  {
    if cls.isFile then
      Request(POST, SessionFor(cls.apiRoot), url, map[], Multipart(data))
    else
      Request(POST, SessionFor(cls.apiRoot), url, JsonContentType + sessionHeaders, SerializedJson(data))
  }

  /** The POST of `_create_resource`: the standard collection URL with a trailing slash, plus the query. */
  function CreateRequest(e: Endpoint, cls: ResourceClass, data: Json, kwargs: Params,
                         sessionHeaders: map<string, string>, urlencode: Params -> string): (r: Request)
    ensures r == PostRequest(cls, WithQuery(CreateUrl(e, cls), kwargs, urlencode), data, sessionHeaders)
    ensures kwargs == [] <==> r.url == CreateUrl(e, cls)
  {
    PostRequest(cls, WithQuery(CreateUrl(e, cls), kwargs, urlencode), data, sessionHeaders)
  }

  /** The POST of `_create_resources`: the same request as a create with no keyword arguments. */
  function CreateManyRequest(e: Endpoint, cls: ResourceClass, data: Json,
                             sessionHeaders: map<string, string>): (r: Request)
    ensures forall urlencode: Params -> string ::
      r == CreateRequest(e, cls, data, [], sessionHeaders, urlencode)
  {
    PostRequest(cls, CreateUrl(e, cls), data, sessionHeaders)
  }

  /** The DELETE of `_delete_resource`: a JSON body only when `data` is truthy. */
  function DeleteRequest(e: Endpoint, cls: ResourceClass, id: string, data: Json, kwargs: Params,
                         urlencode: Params -> string): (r: Request)
    ensures r.verb == DELETE && r.headers == map[]
    ensures r.session == AdminSession <==> cls.apiRoot == AdminRoot
    ensures r.url == WithQuery(ItemUrl(e, cls, id), kwargs, urlencode)
    ensures r.body == NoBody <==> !Truthy(data)
    ensures Truthy(data) ==> r.body == JsonBody(data)
  {
    Request(DELETE, SessionFor(cls.apiRoot), WithQuery(ItemUrl(e, cls, id), kwargs, urlencode), map[],
            if Truthy(data) then JsonBody(data) else NoBody)
  }

  /** The PUT of `_update_resource`. */
  function UpdateRequest(e: Endpoint, cls: ResourceClass, id: string, data: Json, kwargs: Params,
                         urlencode: Params -> string): (r: Request)
    ensures r.verb == PUT && r.headers == map[] && r.body == JsonBody(data)
    ensures r.session == AdminSession <==> cls.apiRoot == AdminRoot
    ensures r.url == WithQuery(ItemUrl(e, cls, id), kwargs, urlencode)
  {
    Request(PUT, SessionFor(cls.apiRoot), WithQuery(ItemUrl(e, cls, id), kwargs, urlencode), map[], JsonBody(data))
  }

  /** The POST of `_call_resource_method`. */
  function ActionRequest(e: Endpoint, cls: ResourceClass, id: string, methodName: string,
                         data: Json): (r: Request)
    ensures r.verb == POST && r.headers == map[] && r.body == JsonBody(data)
    ensures r.session == AdminSession <==> cls.apiRoot == AdminRoot
    ensures r.url == ActionUrl(e, cls, id, methodName)
  {
    Request(POST, SessionFor(cls.apiRoot), ActionUrl(e, cls, id, methodName), map[], JsonBody(data))
  }

  // ---------------------------------------------------------------- result shaping

  /** `response.json()`: the decoded body, or the `ValueError` it raises. */
  function ResponseJson(resp: Response, parse: string -> Option<Json>): (r: Result<Json, Error>)
    ensures r.Success? <==> parse(resp.text).Some?
    ensures r.Success? ==> r.value == parse(resp.text).value
    ensures r.Failure? ==> r.error == ResponseNotJson
  {
    match parse(resp.text)
    case Some(j) => Success(j)
    case None => Failure(ResponseNotJson)
  }

  /** The elements `[... for x in results if x is not None]` keeps, in order. */
  function DropNulls(items: seq<Json>): (r: seq<Json>)
    ensures multiset(r) == multiset(items)[JNull := 0]
    ensures JNull !in r
    ensures |r| <= |items|
  {
    if items == [] then []
    else
      var rest := DropNulls(items[1..]);
      assert items == [items[0]] + items[1..];
      if items[0] == JNull then rest else [items[0]] + rest
  }

  /** `cls.create(self, **x)`: only a JSON object unpacks into keyword arguments. */
  function Wrap<R>(x: Json, create: map<string, Json> -> R): (r: Result<R, Error>)
    ensures r.Success? <==> x.JObject?
    ensures r.Success? ==> r.value == create(x.fields)
    ensures r.Failure? ==> r.error == NotAMapping
  {
    match x
    case JObject(fields) => Success(create(fields))
    case _ => Failure(NotAMapping)
  }

  /** A list comprehension wrapping each element in turn; the first element that is not an object raises. */
  function WrapAll<R>(items: seq<Json>, create: map<string, Json> -> R): (r: Result<seq<R>, Error>)
    ensures r.Success? <==> forall i :: 0 <= i < |items| ==> items[i].JObject?
    ensures r.Success? ==> |r.value| == |items|
    ensures r.Success? ==> forall i :: 0 <= i < |items| ==> r.value[i] == create(items[i].fields)
    ensures r.Failure? ==> r.error == NotAMapping
  {
    if items == [] then Success([])
    else
      var head :- Wrap(items[0], create);
      var tail :- WrapAll(items[1..], create);
      Success([head] + tail)
  }

  /**
   * What `for x in results` runs over once elements are wrapped: the items of
   * an array; an empty object or string gives nothing; a non-empty object or
   * string yields strings (its keys or characters), which no wrapper accepts;
   * any other value is not iterable.
   */
  function Iterated(results: Json): (r: Result<seq<Json>, Error>)
    ensures results.JArray? ==> r == Success(results.items)
    ensures results.JNull? || results.JBool? || results.JNum? ==> r == Failure(NotIterable)
    ensures results.JObject? ==> r == (if results.fields == map[] then Success([]) else Failure(NotAMapping))
    ensures results.JStr? ==> r == (if results.s == "" then Success([]) else Failure(NotAMapping))
  {
    match results
    case JArray(items) => Success(items)
    case JObject(fields) => if fields == map[] then Success([]) else Failure(NotAMapping)
    case JStr(s) => if s == "" then Success([]) else Failure(NotAMapping)
    case _ => Failure(NotIterable)
  }

  /** The result shaping of `_get_resources`: nulls are skipped, every other element is wrapped. */
  function ShapeList<R>(results: Json, create: map<string, Json> -> R): (r: Result<seq<R>, Error>)
    ensures results.JArray? ==> r == WrapAll(DropNulls(results.items), create)
    ensures results.JNull? || results.JBool? || results.JNum? ==> r == Failure(NotIterable)
    ensures results.JObject? ==> r == (if results.fields == map[] then Success([]) else Failure(NotAMapping))
    ensures results.JStr? ==> r == (if results.s == "" then Success([]) else Failure(NotAMapping))
  {
    var items :- Iterated(results);
    WrapAll(DropNulls(items), create)
  }

  /** The result shaping of `_get_resource`: a list body stands for its first element. */
  function ShapeOne<R>(result: Json, create: map<string, Json> -> R): (r: Result<R, Error>)
    ensures result.JArray? && result.items == [] ==> r == Failure(IndexOutOfRange)
    ensures result.JArray? && result.items != [] ==> r == Wrap(result.items[0], create)
    ensures !result.JArray? ==> r == Wrap(result, create)
  {
    match result
    case JArray(items) => if items == [] then Failure(IndexOutOfRange) else Wrap(items[0], create)
    case _ => Wrap(result, create)
  }

  /** The result shaping of `_create_resource`: 'send' returns the decoded result unwrapped. */
  function ShapeCreated<R>(collectionName: string, result: Json,
                           create: map<string, Json> -> R): (r: Result<Created<R>, Error>)
    ensures collectionName == SendCollection ==> r == Success(RawResult(result))
    ensures collectionName != SendCollection && result.JObject? ==> r == Success(Model(create(result.fields)))
    ensures collectionName != SendCollection && !result.JObject? ==> r == Failure(NotAMapping)
  {
    if collectionName == SendCollection then Success(RawResult(result))
    else
      var model :- Wrap(result, create);
      Success(Model(model))
  }

  /** The result shaping of `_create_resources`: every element is wrapped, nulls included. */
  function ShapeMany<R>(results: Json, create: map<string, Json> -> R): (r: Result<seq<R>, Error>)
    ensures results.JArray? ==> r == WrapAll(results.items, create)
    ensures results.JNull? || results.JBool? || results.JNum? ==> r == Failure(NotIterable)
    ensures results.JObject? ==> r == (if results.fields == map[] then Success([]) else Failure(NotAMapping))
    ensures results.JStr? ==> r == (if results.s == "" then Success([]) else Failure(NotAMapping))
  {
    var items :- Iterated(results);
    WrapAll(items, create)
  }

  // ---------------------------------------------------------------- operations

  /** `_get_resources`, from the transport's answer to its GET. */
  function GetResources<R>(server: string, t: Transport, parse: string -> Option<Json>,
                           create: map<string, Json> -> R): (r: Result<seq<R>, Error>)
    ensures r.Success? ==> t.Delivered? && t.response.status == 200
    ensures !Validated(server, t, parse).Success? ==> r == Failure(Validated(server, t, parse).error)
    ensures t.Delivered? && t.response.status == 200 && parse(t.response.text).Some? ==>
      r == ShapeList(parse(t.response.text).value, create)
    ensures t.Delivered? && t.response.status == 200 && parse(t.response.text).None? ==>
      r == Failure(ResponseNotJson)
  {
    var resp :- Validated(server, t, parse);
    var results :- ResponseJson(resp, parse);
    ShapeList(results, create)
  }

  /** `_get_resource_raw`: the validated response itself. */
  function GetResourceRaw(server: string, t: Transport, parse: string -> Option<Json>): (r: Result<Response, Error>)
    ensures r.Success? <==> t.Delivered? && t.response.status == 200
    ensures r.Success? ==> r.value == t.response
    ensures r.Failure? ==> r.error == Validated(server, t, parse).error
  {
    Validated(server, t, parse)
  }

  /** `_get_resource`. */
  function GetResource<R>(server: string, t: Transport, parse: string -> Option<Json>,
                          create: map<string, Json> -> R): (r: Result<R, Error>)
    ensures r.Success? ==> t.Delivered? && t.response.status == 200
    ensures !Validated(server, t, parse).Success? ==> r == Failure(Validated(server, t, parse).error)
    ensures t.Delivered? && t.response.status == 200 && parse(t.response.text).Some? ==>
      r == ShapeOne(parse(t.response.text).value, create)
    ensures t.Delivered? && t.response.status == 200 && parse(t.response.text).None? ==>
      r == Failure(ResponseNotJson)
  {
    var resp :- GetResourceRaw(server, t, parse);
    var result :- ResponseJson(resp, parse);
    ShapeOne(result, create)
  }

  /** `_create_resource`. */
  function CreateResource<R>(server: string, cls: ResourceClass, t: Transport, parse: string -> Option<Json>,
                             create: map<string, Json> -> R): (r: Result<Created<R>, Error>)
    ensures r.Success? ==> t.Delivered? && t.response.status == 200
    ensures !Validated(server, t, parse).Success? ==> r == Failure(Validated(server, t, parse).error)
    ensures t.Delivered? && t.response.status == 200 && parse(t.response.text).Some? ==>
      r == ShapeCreated(cls.collectionName, parse(t.response.text).value, create)
    ensures t.Delivered? && t.response.status == 200 && parse(t.response.text).None? ==>
      r == Failure(ResponseNotJson)
  {
    var resp :- Validated(server, t, parse);
    var result :- ResponseJson(resp, parse);
    ShapeCreated(cls.collectionName, result, create)
  }

  /** `_create_resources`. */
  function CreateResources<R>(server: string, t: Transport, parse: string -> Option<Json>,
                              create: map<string, Json> -> R): (r: Result<seq<R>, Error>)
    ensures r.Success? ==> t.Delivered? && t.response.status == 200
    ensures !Validated(server, t, parse).Success? ==> r == Failure(Validated(server, t, parse).error)
    ensures t.Delivered? && t.response.status == 200 && parse(t.response.text).Some? ==>
      r == ShapeMany(parse(t.response.text).value, create)
    ensures t.Delivered? && t.response.status == 200 && parse(t.response.text).None? ==>
      r == Failure(ResponseNotJson)
  {
    var resp :- Validated(server, t, parse);
    var results :- ResponseJson(resp, parse);
    ShapeMany(results, create)
  }

  /** `_delete_resource`: validation only, the body is never decoded. */
  function DeleteResource(server: string, t: Transport, parse: string -> Option<Json>): (r: Result<(), Error>)
    ensures r.Success? <==> t.Delivered? && t.response.status == 200
    ensures r.Failure? ==> r.error == Validated(server, t, parse).error
  {
    var _ :- Validated(server, t, parse);
    Success(())
  }

  /**
   * The shaping shared by `_update_resource` and `_call_resource_method`: the
   * decoded body of a validated response is wrapped as one resource.
   */
  function WrappedResource<R>(server: string, t: Transport, parse: string -> Option<Json>,
                              create: map<string, Json> -> R): (r: Result<R, Error>)
    ensures r.Success? ==> t.Delivered? && t.response.status == 200
    ensures !Validated(server, t, parse).Success? ==> r == Failure(Validated(server, t, parse).error)
    ensures t.Delivered? && t.response.status == 200 && parse(t.response.text).Some? ==>
      r == Wrap(parse(t.response.text).value, create)
    ensures t.Delivered? && t.response.status == 200 && parse(t.response.text).None? ==>
      r == Failure(ResponseNotJson)
  {
    var resp :- Validated(server, t, parse);
    var result :- ResponseJson(resp, parse);
    Wrap(result, create)
  }

  // ---------------------------------------------------------------- lemmas

  /** Dropping nulls distributes over concatenation, so the kept elements stay in their order. */
  lemma {:induction false} DropNullsAppend(a: seq<Json>, b: seq<Json>)
    ensures DropNulls(a + b) == DropNulls(a) + DropNulls(b)
    decreases |a|
  {
    if a == [] {
      assert a + b == b;
    } else {
      assert (a + b)[1..] == a[1..] + b;
      assert (a + b)[0] == a[0];
      DropNullsAppend(a[1..], b);
    }
  }

  /** A list without nulls is kept exactly as it is. */
  lemma {:induction false} DropNullsWithoutNulls(items: seq<Json>)
    requires JNull !in items
    ensures DropNulls(items) == items
    decreases |items|
  {
    if items != [] {
      assert JNull !in items[1..];
      DropNullsWithoutNulls(items[1..]);
    }
  }

  /** Skipping nulls twice is skipping them once. */
  lemma DropNullsIdempotent(items: seq<Json>)
    ensures DropNulls(DropNulls(items)) == DropNulls(items)
  {
  }

  /**
   * A list response whose non-null elements are all objects yields one model per
   * non-null element, in the response's order.
   */
  lemma ListWrapsNonNullElementsInOrder<R>(server: string, resp: Response, parse: string -> Option<Json>,
                                           create: map<string, Json> -> R, items: seq<Json>)
    requires resp.status == 200 && parse(resp.text) == Some(JArray(items))
    requires forall i :: 0 <= i < |items| ==> items[i] == JNull || items[i].JObject?
    ensures var r := GetResources(server, Delivered(resp), parse, create);
      && r.Success?
      && |r.value| == |DropNulls(items)|
      && forall i :: 0 <= i < |r.value| ==> r.value[i] == create(DropNulls(items)[i].fields)
  {
    var kept := DropNulls(items);
    forall i | 0 <= i < |kept| ensures kept[i].JObject? {
      assert kept[i] in multiset(kept);
      assert kept[i] != JNull;
      assert kept[i] in multiset(items);
      var j :| 0 <= j < |items| && items[j] == kept[i];
    }
  }

  /** Nulls in a list response are skipped: the result is that of the list without them. */
  lemma ListSkipsNulls<R>(results: seq<Json>, create: map<string, Json> -> R)
    ensures ShapeList(JArray(results), create) == ShapeList(JArray(DropNulls(results)), create)
  {
    DropNullsIdempotent(results);
  }

  /** Unlike listing, creating many does not skip nulls: a null element raises. */
  lemma CreateManyRejectsNulls<R>(results: seq<Json>, create: map<string, Json> -> R)
    requires JNull in results
    ensures ShapeMany(JArray(results), create) == Failure(NotAMapping)
  {
  }

  /** Get-one on a list body is get-one on its first element. */
  lemma GetOneTakesFirstElement<R>(server: string, resp: Response, parse: string -> Option<Json>,
                                   create: map<string, Json> -> R, first: map<string, Json>, rest: seq<Json>)
    requires resp.status == 200 && parse(resp.text) == Some(JArray([JObject(first)] + rest))
    ensures GetResource(server, Delivered(resp), parse, create) == Success(create(first))
  {
  }

  /** The 'send' collection returns whatever JSON the server answered, unwrapped. */
  lemma SendReturnsRawResult<R>(server: string, cls: ResourceClass, resp: Response,
                                parse: string -> Option<Json>, create: map<string, Json> -> R)
    requires cls.collectionName == SendCollection
    requires resp.status == 200 && parse(resp.text).Some?
    ensures CreateResource(server, cls, Delivered(resp), parse, create) == Success(RawResult(parse(resp.text).value))
  {
  }

  /** A delete answered with 404 raises `NotFoundError`, whatever the body says. */
  lemma DeleteNotFound(server: string, resp: Response, parse: string -> Option<Json>)
    requires resp.status == 404
    ensures var r := DeleteResource(server, Delivered(resp), parse);
      r.Failure? && r.error.ApiError? && r.error.kind == NotFoundError && r.error.url == resp.url
  {
  }

  /** A failed connection gives the same `ConnectionError` from every operation. */
  lemma ConnectionFailureEverywhere<R>(server: string, cls: ResourceClass, parse: string -> Option<Json>,
                                       create: map<string, Json> -> R)
    ensures GetResources(server, ConnectionFailed, parse, create) == Failure(ConnectionError(server))
    ensures GetResourceRaw(server, ConnectionFailed, parse) == Failure(ConnectionError(server))
    ensures GetResource(server, ConnectionFailed, parse, create) == Failure(ConnectionError(server))
    ensures CreateResource(server, cls, ConnectionFailed, parse, create) == Failure(ConnectionError(server))
    ensures CreateResources(server, ConnectionFailed, parse, create) == Failure(ConnectionError(server))
    ensures DeleteResource(server, ConnectionFailed, parse) == Failure(ConnectionError(server))
    ensures WrappedResource(server, ConnectionFailed, parse, create) == Failure(ConnectionError(server))
  {
  }

  /** Every request goes out on the session its class's root selects, whatever its URL. */
  lemma SessionFollowsRoot(e: Endpoint, cls: ResourceClass, id: string, data: Json, kwargs: Params,
                           headers: map<string, string>, sessionHeaders: map<string, string>,
                           urlConcat: (string, Params) -> string, urlencode: Params -> string)
    ensures var s := SessionFor(cls.apiRoot);
      && ListRequest(e, cls, None, kwargs, urlConcat).session == s
      && GetRawRequest(e, cls, id, None, headers, sessionHeaders, kwargs, urlConcat).session == s
      && CreateRequest(e, cls, data, kwargs, sessionHeaders, urlencode).session == s
      && DeleteRequest(e, cls, id, data, kwargs, urlencode).session == s
      && UpdateRequest(e, cls, id, data, kwargs, urlencode).session == s
      && ActionRequest(e, cls, id, "", data).session == s
  {
  }
}
