# Nylas API client: request/response mediation

This project models the core of the legacy Nylas Python client, `nylas/client/client.py`,
and proves properties of the model in Dafny. The model covers the part of the client
that sits between the resource classes and the HTTP transport:

- **Response classification** (`_validate`). A 200 response passes through unchanged.
  The eleven tabled statuses raise their own class, and 401 and 403 both raise
  `NotAuthorizedError`. Every other status raises `APIClientError` with the message
  "Unknown status code.". The error always carries the URL, the status and the request
  body: JSON-decoded when that works, the raw body otherwise, and none when the body
  is empty. `message` and `server_error` are copied from the error body only when
  present. An error body that does not decode, or that Python cannot probe for those
  keys, gives the message "Malformed" and keeps the status-derived class.
- **Transport failures** (`nylas_excepted`). The transport's connection-error exception
  becomes a `ConnectionError` that carries the configured API server. That exception
  covers a refused connection, a failed name lookup, a TLS or proxy failure and a
  connect timeout.
- **URLs and sessions** (`_get_http_session` and the URL expressions of the private
  resource functions). The admin root `'a'` puts `/a/{app_id}` into list, get and action
  URLs and selects the Basic-auth admin session. Create, update and delete always use
  the standard path. The query string is added only when keyword arguments are given.
- **Result shaping**. Listing skips `None` elements and keeps their order. Get-one
  takes element 0 of a list body. The `send` collection returns the decoded result
  without wrapping it. Create-many wraps every element.
- **Client state** (`APIClient`). The constructor sets up the fields and both sessions'
  headers. The `access_token` setter edits the bearer session's headers in place.
  `revoke_token` clears both tokens after a successful validation.

Modules: `Wrappers` (Option, Result), `Text` (Python's `in` on strings), `Json` (a
decoded JSON value), `Errors`, `Urls`, `Mediator` (the request each private function
sends and how its response is shaped), `Client` (the `APIClient` class).

Opaque collaborators are function-typed parameters: `parse` for `json.loads`, and
`urlConcat` and `urlencode` for the query-string helpers. `create` stands for
`cls.create`: it receives the keyword arguments the element unpacks into. `base64`
stands for the Basic-auth encoding. The transport's answer to a request is a
`Transport` value: a delivered `Response`, a failed connection, or another exception.

Where the code and the design description disagree, the model follows the code:

- Create, update and delete URLs never carry `/a/{app_id}`. Listing, getting and
  resource actions do.
- The request body attached to an error is the raw body when it is not JSON. It is
  not dropped.
- Only 200 is success. A 201 or 204 answer raises `APIClientError`.
- Only the transport's connection-error exception is turned into `ConnectionError`.
  Other transport exceptions, such as a read timeout, propagate unchanged.
- `_create_resources` takes no query arguments.
- With no app secret, the admin session keeps the transport's default headers.

## Model

| member | source | states |
|---|---|---|
| `Text.Contains` | nylas/client/client.py:93 | Python's `sub in s` holds exactly when `sub` occurs at some position of `s` |
| `Errors.RequestDataOf` | nylas/client/client.py:48-51 | an absent or empty body gives no data; a decodable one gives the decoded JSON; otherwise the raw body is kept unchanged |
| `Errors.Member` | nylas/client/client.py:62-64 | on an object, a key is found exactly when present and yields its value; on null, booleans and numbers the probe raises |
| `Errors.TabledError` | nylas/client/client.py:56-70 | whatever the body, a tabled error keeps its class, URL, status and request data |
| `Errors.Validate` | nylas/client/client.py:27-73 | passes the response through unchanged exactly when the status is 200; otherwise raises the class the status maps to (`APIClientError` if untabled), with URL, status and request data |
| `Errors.Excepted` | nylas/client/client.py:76-83 | a failed connection becomes `ConnectionError` carrying only the API server; other failures pass through; a delivered response is returned |
| `Errors.Validated` | nylas/client/client.py:76-83 | succeeds exactly for a delivered 200 response and returns it; otherwise the error is the validator's or the transport wrapper's |
| `Errors.StatusTableDomain` | nylas/client/client.py:28-38 | the table has exactly the statuses 400, 401, 402, 403, 404, 405, 409, 429, 500, 503, 504; 200 is not among them; no entry is `APIClientError` |
| `Errors.OnlyAuthStatusesShareAKind` | nylas/client/client.py:28-38 | two different tabled statuses share their class exactly when they are 401 and 403 |
| `Errors.ClassificationIsTotal` | nylas/client/client.py:53-73 | every non-200 status raises: a tabled one its class, any other `APIClientError` |
| `Errors.UnknownStatus` | nylas/client/client.py:71-73 | an untabled non-200 status raises `APIClientError` with "Unknown status code.", the URL, the status and the request data |
| `Errors.ObjectErrorBody` | nylas/client/client.py:57-66 | for an object error body, `message` and `server_error` are copied exactly when those keys are present |
| `Errors.MalformedErrorBody` | nylas/client/client.py:57-70 | an undecodable (or null, boolean, numeric) error body gives the mapped class with message "Malformed" |
| `Errors.ListErrorBodyNamingMessage` | nylas/client/client.py:62-70 | a list body containing the string "message" cannot be indexed by it, so the error keeps its class and says "Malformed" |
| `Errors.StringErrorBodyWithoutKeys` | nylas/client/client.py:62-66 | a string error body that contains neither key gives an error with no message and no server error |
| `Urls.SessionFor` | nylas/client/client.py:234-240 | the admin session is chosen exactly for the root 'a', the bearer session for every other root |
| `Urls.Postfix` | nylas/client/client.py:246 | an absent or empty `extra` adds nothing; any other adds "/" and itself |
| `Urls.ListUrl` | nylas/client/client.py:246-259 | `{base}/{collection}{postfix}`, with `/a/{app_id}` after the base for the root 'a' |
| `Urls.ResourceUrl` | nylas/client/client.py:277-283 | the collection URL without postfix, then "/" and the id, then the postfix |
| `Urls.ActionUrl` | nylas/client/client.py:374-384 | the single-resource URL without postfix, then "/" and the method name |
| `Urls.CreateUrl` | nylas/client/client.py:305 | `{base}/{collection}/`, whatever the root |
| `Urls.ItemUrl` | nylas/client/client.py:344 | `{base}/{collection}/{id}`, whatever the root |
| `Urls.WithQuery` | nylas/client/client.py:307-308 | the URL is kept as a prefix, and it is unchanged exactly when there are no keyword arguments; otherwise "?" and the encoding follow |
| `Urls.EmptyExtraAddsNothing` | nylas/client/client.py:246 | an empty `extra` gives the same list and get URLs as none at all |
| `Urls.AdminListUrl` | nylas/client/client.py:247-259 | the admin list URL is the standard one with `/a/{app_id}` inserted after the server address |
| `Urls.AdminResourceUrl` | nylas/client/client.py:278-283 | the same insertion relates admin and standard single-resource URLs |
| `Urls.AdminActionUrl` | nylas/client/client.py:374-384 | the same insertion relates admin and standard action URLs |
| `Urls.WriteUrlsIgnoreRoot` | nylas/client/client.py:343-357 | create, delete and update URLs are the standard-namespace URLs for any root |
| `Urls.ItemUrlDeterminesId` | nylas/client/client.py:344 | two delete/update URLs of one collection are equal only for equal ids |
| `Urls.QueryKeepsBase` | nylas/client/client.py:307-308 | cutting the URL with query back to the base length gives the base URL |
| `Mediator.ListRequest` | nylas/client/client.py:246-262 | a body-less GET on the root's session to the filtered collection URL |
| `Mediator.GetRawRequest` | nylas/client/client.py:274-287 | a GET on the root's session; headers are the caller's and the bearer session's, and the session's win on a shared name |
| `Mediator.PostRequest` | nylas/client/client.py:310-318 | files upload as multipart with no extra headers; other data is JSON, with the bearer session's headers over a JSON content type |
| `Mediator.CreateRequest` | nylas/client/client.py:304-318 | posts to the create URL, whose query part is empty exactly when there are no keyword arguments |
| `Mediator.CreateManyRequest` | nylas/client/client.py:326-336 | the same request as a create with no keyword arguments |
| `Mediator.DeleteRequest` | nylas/client/client.py:342-352 | a DELETE to the item URL; it carries a JSON body exactly when `data` is truthy |
| `Mediator.UpdateRequest` | nylas/client/client.py:356-364 | a PUT of the JSON data to the item URL on the root's session |
| `Mediator.ActionRequest` | nylas/client/client.py:373-387 | a POST of the JSON data to the action URL on the root's session |
| `Mediator.ResponseJson` | nylas/client/client.py:263 | the decoded body when it decodes, `ResponseNotJson` otherwise |
| `Mediator.DropNulls` | nylas/client/client.py:264-268 | keeps every non-null element with its multiplicity and removes every null |
| `Mediator.Wrap` | nylas/client/client.py:265 | a model is built exactly from a JSON object, from its fields; anything else raises `NotAMapping` |
| `Mediator.WrapAll` | nylas/client/client.py:339 | succeeds exactly when every element is an object, giving one model per element at the same position |
| `Mediator.Iterated` | nylas/client/client.py:264-266 | an array is iterated item by item; null, booleans and numbers are not iterable; an empty object or string yields nothing; a non-empty one yields strings, which raise `NotAMapping` |
| `Mediator.ShapeList` | nylas/client/client.py:264-268 | an array gives `WrapAll` of its non-null elements; null, booleans and numbers are not iterable; an empty object or string gives no models, a non-empty one raises `NotAMapping` |
| `Mediator.ShapeMany` | nylas/client/client.py:339 | an array gives `WrapAll` of all its elements, nulls included; the other bodies behave as in listing |
| `Mediator.ShapeOne` | nylas/client/client.py:292-295 | a non-empty list stands for its first element, an empty one raises, any other body is wrapped as is |
| `Mediator.ShapeCreated` | nylas/client/client.py:320-323 | 'send' returns the decoded result unwrapped; other collections wrap an object and reject anything else |
| `Mediator.GetResources` | nylas/client/client.py:242-268 | succeeds only for a delivered 200; validation errors propagate; a decoded body is shaped as a list |
| `Mediator.GetResourceRaw` | nylas/client/client.py:270-288 | returns the delivered response exactly when its status is 200 |
| `Mediator.GetResource` | nylas/client/client.py:290-295 | succeeds only for a delivered 200; validation errors propagate; a decoded body is shaped as one resource |
| `Mediator.CreateResource` | nylas/client/client.py:303-323 | succeeds only for a delivered 200; validation errors propagate; a decoded body is shaped by collection |
| `Mediator.CreateResources` | nylas/client/client.py:325-339 | succeeds only for a delivered 200; validation errors propagate; every element of a decoded body is wrapped |
| `Mediator.DeleteResource` | nylas/client/client.py:341-352 | succeeds exactly for a delivered 200, whatever its body; otherwise the validation error |
| `Mediator.WrappedResource` | nylas/client/client.py:366-367 | the result of `_update_resource` and of `_call_resource_method` (lines 389-390): succeeds only for a delivered 200; validation errors propagate; the decoded body is wrapped |
| `Mediator.DropNullsAppend` | nylas/client/client.py:264-268 | skipping nulls distributes over concatenation, so the kept elements keep their order |
| `Mediator.DropNullsWithoutNulls` | nylas/client/client.py:264-268 | a list without nulls is kept exactly |
| `Mediator.DropNullsIdempotent` | nylas/client/client.py:264-268 | skipping nulls twice is skipping them once |
| `Mediator.ListWrapsNonNullElementsInOrder` | nylas/client/client.py:261-268 | a 200 list whose non-null elements are objects gives one model per non-null element, in order |
| `Mediator.ListSkipsNulls` | nylas/client/client.py:264-268 | a list with nulls shapes the same as the list without them |
| `Mediator.CreateManyRejectsNulls` | nylas/client/client.py:338-339 | create-many does not skip nulls: a null element raises |
| `Mediator.GetOneTakesFirstElement` | nylas/client/client.py:292-295 | a 200 list body whose first element is an object gives that object's model |
| `Mediator.SendReturnsRawResult` | nylas/client/client.py:320-322 | for 'send', a 200 with any decodable body returns the decoded result unwrapped |
| `Mediator.DeleteNotFound` | nylas/client/client.py:341-352 | a delete answered 404 raises `NotFoundError` with the request URL |
| `Mediator.ConnectionFailureEverywhere` | nylas/client/client.py:76-83 | a failed connection gives the same `ConnectionError(api_server)` from every operation |
| `Mediator.SessionFollowsRoot` | nylas/client/client.py:310 | every request, whatever its URL, uses the session its class's root selects |
| `Client.WithToken` | nylas/client/client.py:136-144 | a truthy token sets `Authorization` to "Bearer " and the token; a falsy one removes it; no other header changes |
| `Client.AdminHeaders` | nylas/client/client.py:118-129 | with an app secret the admin headers are exactly `Authorization` (Basic, from the secret), the wrapper name and the User-Agent; without one, the transport defaults |
| `Client.APIClient.constructor` | nylas/client/client.py:89-129 | sets the server, the OAuth URLs, the app id and secret, the token through the setter, no auth token, and both sessions' headers |
| `Client.APIClient.New` | nylas/client/client.py:93-129 | fails exactly when `api_server` has no "://"; otherwise a fresh client with every field the constructor sets up: server, OAuth URLs, app id and secret, token, no auth token, bearer and admin headers |
| `Client.APIClient.SetAccessToken` | nylas/client/client.py:136-144 | the getter then returns the value; the headers become `WithToken` of the old ones; the bearer header agrees with the token |
| `Client.APIClient.IsOpensourceApi` | nylas/client/client.py:171-175 | true exactly when both app id and app secret are absent |
| `Client.APIClient.SessionHeadersFor` | nylas/client/client.py:234-240 | the admin session's headers for the root 'a', the bearer session's otherwise |
| `Client.APIClient.RevokeRequest` | nylas/client/client.py:179 | a body-less POST to the revoke URL on the bearer session |
| `Client.APIClient.RawRequest` | nylas/client/client.py:274-287 | the raw GET built from the client's current bearer headers; it carries the current token's bearer header, and without a token only a caller's `Authorization` |
| `Client.APIClient.CreateRequestFor` | nylas/client/client.py:304-318 | the create POST built from the client's current bearer headers; JSON data carries the current token's bearer header |
| `Client.APIClient.RevokeToken` | nylas/client/client.py:177-182 | sends `RevokeRequest()`; after a delivered 200 both tokens are cleared and `Authorization` is removed; an error leaves the client unchanged |
| `Client.LastTokenWins` | nylas/client/client.py:136-144 | setting two tokens in a row leaves the headers of setting only the second |
| `Client.ClearingRestoresHeaders` | nylas/client/client.py:139-144 | setting a token and then a falsy one restores headers that had no `Authorization` |
| `Client.RawRequestCarriesLatestToken` | nylas/client/client.py:274-275 | a raw GET carries the latest token's bearer header, even over a caller-supplied `Authorization` |
| `Client.OpensourceHasNoAdminAuth` | nylas/client/client.py:118-129 | a client set up without app id and secret keeps the transport's default admin headers |
| `Client.AdminAuthFromSecret` | nylas/client/client.py:120-129 | a client set up with an app secret signs admin-session requests with Basic auth derived from it |

## Left out

- HTTP transport: `requests.Session` and its `get`, `post`, `put` and `delete` are not modelled. The transport's answer is a parameter, and the request is a value that records the session kind.
- The header set that goes on the wire is not modelled. The transport lets per-request headers override the session's. So for an admin-root raw GET or JSON create, the bearer `Authorization` among the per-request headers displaces the admin session's Basic one. The model records the per-request headers and the session kind separately.
- Lazy pagination: `RestfulModelCollection` (`nylas/client/restful_model_collection.py`) is not part of this model.
- `token_for_code` is a network POST. Its only state effect is the `access_token` setter, which is modelled.
- `authentication_url` needs `url_concat`, which lives in `nylas/client/util.py`. That file is not part of this model.
- `_get_resource_data` is left out. It returns the raw `content` bytes, which the model's text-only `Response` does not have.
- The `account`, `accounts` and collection properties are left out. They only pick a model class.
- `json.loads` and `json.dumps`, `url_concat`, `urlencode`, base64 encoding and the `sys.version_info` User-Agent string are library calls or environment facts. They are function or string parameters.
- `DEBUG` printing and the `environ` defaults are I/O and configuration.
- `cls.create` and the resource model classes are defined in `restful_models`, which is not part of this model. `create` is an opaque function of the keyword arguments. The client argument is not passed to it.
- The error classes' constructors (in `nylas/client/errors.py`) are not part of this model. An exception raised inside one is not modelled.
- `Mediator.Iterated`: for a non-empty JSON object or string, the model does not list the keys or characters. It reports that wrapping fails (`NotAMapping`), which is what the first key or character causes.
- `Errors.RequestDataOf`: a request body that decodes to JSON `null` gives `JsonData(JNull)`, which Python cannot tell apart from `None`.
- JSON numbers are integers. Floating point is not modelled.
- Keyword-argument values are strings. Python's conversion of other values is inside the opaque encoders.
- `Mediator.GetRawRequest` returns the merged header map. It does not model that `headers.update` also changes the caller's own dictionary in place.
- Create-then-get equality depends on the server. It is not a property of the client.
