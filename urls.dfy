/**
 * URL composition and session selection of the client's private resource
 * functions. A resource class is described by its collection name and its
 * API root; the root 'a' is the admin (application) namespace.
 */
module Urls {
  import opened Wrappers

  /** The static description of a resource class (`cls.collection_name`, `cls.api_root`, `cls == File`). */
  datatype ResourceClass = ResourceClass(collectionName: string, apiRoot: string, isFile: bool)

  /** The client fields a URL is built from (`api_server`, `app_id`). */
  datatype Endpoint = Endpoint(apiServer: string, appId: Option<string>)

  /** Which of the client's two sessions signs a request. */
  datatype SessionKind = BearerSession | AdminSession

  /** Keyword arguments handed to the query-string encoders, in call order. */
  type Params = seq<(string, string)>

  const AdminRoot: string := "a"

  /** `_get_http_session`: the admin session for the root 'a', the bearer session otherwise. */
  function SessionFor(apiRoot: string): (s: SessionKind)
    ensures s == AdminSession <==> apiRoot == AdminRoot
    ensures s == BearerSession <==> apiRoot != AdminRoot
  {
    if apiRoot == AdminRoot then AdminSession else BearerSession
  }

  /** `"{}".format(v)` of an optional string: Python prints `None` for a missing value. */
  function Formatted(v: Option<string>): string
  {
    match v
    case Some(s) => s
    case None => "None"
  }

  /** The path segment `extra` adds: nothing when it is absent or empty, otherwise a slash and itself. */
  function Postfix(extra: Option<string>): (p: string)
    ensures p == "" <==> extra == None || extra == Some("")
    ensures extra.Some? && extra.value != "" ==> p == "/" + extra.value
  {
    match extra
    case Some(e) => if e == "" then "" else "/" + e
    case None => ""
  }

  /** The server address, extended by `/a/{app_id}` in the admin namespace. */
  function NamespaceBase(e: Endpoint, cls: ResourceClass): string
  {
    if cls.apiRoot != AdminRoot then e.apiServer
    else e.apiServer + "/a/" + Formatted(e.appId)
  }

  /** The collection URL of `_get_resources`, before the filters are appended. */
  function ListUrl(e: Endpoint, cls: ResourceClass, extra: Option<string>): (u: string)
    ensures cls.apiRoot != AdminRoot ==> u == e.apiServer + "/" + cls.collectionName + Postfix(extra)
    ensures cls.apiRoot == AdminRoot ==>
      u == e.apiServer + "/a/" + Formatted(e.appId) + "/" + cls.collectionName + Postfix(extra)
  {
    NamespaceBase(e, cls) + "/" + cls.collectionName + Postfix(extra)
  }

  /** The single-resource URL of `_get_resource_raw`, before the filters are appended. */
  function ResourceUrl(e: Endpoint, cls: ResourceClass, id: string, extra: Option<string>): (u: string)
    ensures u == ListUrl(e, cls, None) + "/" + id + Postfix(extra)
  {
    NamespaceBase(e, cls) + "/" + cls.collectionName + "/" + id + Postfix(extra)
  }

  /** The URL `_call_resource_method` posts to. */
  function ActionUrl(e: Endpoint, cls: ResourceClass, id: string, methodName: string): (u: string)
    ensures u == ResourceUrl(e, cls, id, None) + "/" + methodName
  {
    NamespaceBase(e, cls) + "/" + cls.collectionName + "/" + id + "/" + methodName
  }

  /** The URL of `_create_resource` and `_create_resources`: always the standard namespace. */
  function CreateUrl(e: Endpoint, cls: ResourceClass): (u: string)
    ensures u == e.apiServer + "/" + cls.collectionName + "/"
  {
    e.apiServer + "/" + cls.collectionName + "/"
  }

  /** The URL of `_delete_resource` and `_update_resource`: always the standard namespace. */
  function ItemUrl(e: Endpoint, cls: ResourceClass, id: string): (u: string)
    ensures u == e.apiServer + "/" + cls.collectionName + "/" + id
  {
    e.apiServer + "/" + cls.collectionName + "/" + id
  }

  /** The URL followed by a question mark and the encoded keyword arguments when there are any, the URL itself otherwise. */
  function WithQuery(url: string, kwargs: Params, urlencode: Params -> string): (u: string)
    ensures url <= u
    ensures u == url <==> kwargs == []
    ensures kwargs != [] ==> u[|url|..] == "?" + urlencode(kwargs)
  {
    if kwargs == [] then url else url + "?" + urlencode(kwargs)
  }

  // ---------------------------------------------------------------- lemmas

  /** An empty or absent `extra` adds no path segment to the list and single-resource URLs. */
  lemma EmptyExtraAddsNothing(e: Endpoint, cls: ResourceClass, id: string)
    ensures ListUrl(e, cls, Some("")) == ListUrl(e, cls, None) == NamespaceBase(e, cls) + "/" + cls.collectionName
    ensures ResourceUrl(e, cls, id, Some("")) == ResourceUrl(e, cls, id, None)
  {
  }

  /**
   * The admin namespace only inserts `/a/{app_id}` after the server address: for
   * two classes with the same collection, one under 'a' and one elsewhere, the
   * admin list URL is the standard one with that segment inserted.
   */
  lemma AdminListUrl(e: Endpoint, admin: ResourceClass, standard: ResourceClass, extra: Option<string>)
    requires admin.apiRoot == AdminRoot && standard.apiRoot != AdminRoot
    requires admin.collectionName == standard.collectionName
    ensures e.apiServer <= ListUrl(e, standard, extra)
    ensures ListUrl(e, admin, extra) ==
            e.apiServer + "/a/" + Formatted(e.appId) + ListUrl(e, standard, extra)[|e.apiServer|..]
  {
  }

  /** As `AdminListUrl`, for the single-resource URL. */
  lemma AdminResourceUrl(e: Endpoint, admin: ResourceClass, standard: ResourceClass,
                         id: string, extra: Option<string>)
    requires admin.apiRoot == AdminRoot && standard.apiRoot != AdminRoot
    requires admin.collectionName == standard.collectionName
    ensures e.apiServer <= ResourceUrl(e, standard, id, extra)
    ensures ResourceUrl(e, admin, id, extra) ==
            e.apiServer + "/a/" + Formatted(e.appId) + ResourceUrl(e, standard, id, extra)[|e.apiServer|..]
  {
  }

  /** As `AdminListUrl`, for the URL of a resource method. */
  lemma AdminActionUrl(e: Endpoint, admin: ResourceClass, standard: ResourceClass,
                       id: string, methodName: string)
    requires admin.apiRoot == AdminRoot && standard.apiRoot != AdminRoot
    requires admin.collectionName == standard.collectionName
    ensures e.apiServer <= ActionUrl(e, standard, id, methodName)
    ensures ActionUrl(e, admin, id, methodName) ==
            e.apiServer + "/a/" + Formatted(e.appId) + ActionUrl(e, standard, id, methodName)[|e.apiServer|..]
  {
  }

  /**
   * Create, delete and update do not depend on the API root: their URLs are the
   * standard-namespace collection URL followed by "/" (create) or "/{id}".
   */
  lemma WriteUrlsIgnoreRoot(e: Endpoint, c: ResourceClass, d: ResourceClass, id: string)
    requires c.collectionName == d.collectionName && d.apiRoot != AdminRoot
    ensures CreateUrl(e, c) == ListUrl(e, d, None) + "/"
    ensures ItemUrl(e, c, id) == ResourceUrl(e, d, id, None)
  {
  }

  /** Different ids give different delete/update URLs: the id is recoverable from the URL. */
  lemma {:induction false} ItemUrlDeterminesId(e: Endpoint, cls: ResourceClass, id1: string, id2: string)
    requires ItemUrl(e, cls, id1) == ItemUrl(e, cls, id2)
    ensures id1 == id2
  {
    var prefix := e.apiServer + "/" + cls.collectionName + "/";
    assert ItemUrl(e, cls, id1) == prefix + id1;
    assert ItemUrl(e, cls, id2) == prefix + id2;
    assert (prefix + id1)[|prefix|..] == id1;
    assert (prefix + id2)[|prefix|..] == id2;
  }

  /** Appending the query string keeps the URL and is undone by cutting at its length. */
  lemma QueryKeepsBase(url: string, kwargs: Params, urlencode: Params -> string)
    ensures WithQuery(url, kwargs, urlencode)[..|url|] == url
  {
  }
}
