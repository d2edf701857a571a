/** The seven request-configuration builders returned by `API(TOKEN)` in
    api.js and rn-api.js. Each yields an HTTP method, an optional body and
    the headers of `setupRequestHeaders`; the headers here are the awaited
    header map. `JSON.stringify` is the caller-supplied `serialise`. */
module Builders {
  import opened JsValues
  import opened Headers

  /** A request body: JSON text, or a payload passed through as is (a
      multipart form, for instance). */
  datatype Body<D> = Serialised(text: string) | Raw(payload: D)

  /** The descriptor a builder returns, `{method, body?, headers}`; `verb` holds `method`. */
  datatype RequestConfig<D> = RequestConfig(verb: string, body: Option<Body<D>>, headers: HeaderMap)

  /** What every builder closes over: the storage key passed to `API(TOKEN)`,
      and the contents of the token store at the moment of the call. */
  datatype Credentials = Credentials(tokenKey: string, storage: Storage)

  function StoredToken(c: Credentials): Option<string>
  {
    ReadToken(c.storage, c.tokenKey)
  }

  /** `GET_CONFIG(token = null)`: the `token` argument is accepted and never read. */
  function GetConfig<D>(c: Credentials, token: Option<string>): (r: RequestConfig<D>)
    ensures r.verb == "GET" && r.body.None?
    ensures FollowsHeaderRule(r.headers, Bool(false), StoredToken(c))
  {
    RequestConfig("GET", None, SetupRequestHeaders(Bool(false), c.tokenKey, c.storage))
  }

  /** `GET_CONFIG_WITH_BODY(data)`. */
  function GetConfigWithBody<D>(c: Credentials, serialise: D -> string, data: D): (r: RequestConfig<D>)
    ensures r.verb == "GET" && r.body == Some(Serialised(serialise(data)))
    ensures FollowsHeaderRule(r.headers, Bool(false), StoredToken(c))
  {
    RequestConfig("GET", Some(Serialised(serialise(data))), SetupRequestHeaders(Bool(false), c.tokenKey, c.storage))
  }

  /** `POST_FILE_CONFIG(data)`: the body is not serialised and the headers are
      built with `noContentType = true`, leaving the content type to the
      transport. */
  function PostFileConfig<D>(c: Credentials, data: D): (r: RequestConfig<D>)
    ensures r.verb == "post" && r.body == Some(Raw(data))
    ensures FollowsHeaderRule(r.headers, Bool(true), StoredToken(c))
  {
    RequestConfig("post", Some(Raw(data)), SetupRequestHeaders(Bool(true), c.tokenKey, c.storage))
  }

  /** `POST_CONFIG(data)`. */
  function PostConfig<D>(c: Credentials, serialise: D -> string, data: D): (r: RequestConfig<D>)
    ensures r.verb == "post" && r.body == Some(Serialised(serialise(data)))
    ensures FollowsHeaderRule(r.headers, Bool(false), StoredToken(c))
  {
    RequestConfig("post", Some(Serialised(serialise(data))), SetupRequestHeaders(Bool(false), c.tokenKey, c.storage))
  }

  /** `PUT_CONFIG(data)`. */
  function PutConfig<D>(c: Credentials, serialise: D -> string, data: D): (r: RequestConfig<D>)
    ensures r.verb == "put" && r.body == Some(Serialised(serialise(data)))
    ensures FollowsHeaderRule(r.headers, Bool(false), StoredToken(c))
  {
    RequestConfig("put", Some(Serialised(serialise(data))), SetupRequestHeaders(Bool(false), c.tokenKey, c.storage))
  }

  /** `PATCH_CONFIG(data)`. */
  function PatchConfig<D>(c: Credentials, serialise: D -> string, data: D): (r: RequestConfig<D>)
    ensures r.verb == "patch" && r.body == Some(Serialised(serialise(data)))
    ensures FollowsHeaderRule(r.headers, Bool(false), StoredToken(c))
  {
    RequestConfig("patch", Some(Serialised(serialise(data))), SetupRequestHeaders(Bool(false), c.tokenKey, c.storage))
  }

  /** `DELETE_CONFIG()`: passes `null` as `noContentType`, which is falsy,
      so the JSON content type stays. */
  function DeleteConfig<D>(c: Credentials): (r: RequestConfig<D>)
    ensures r.verb == "delete" && r.body.None?
    ensures FollowsHeaderRule(r.headers, Null, StoredToken(c))
  {
    RequestConfig("delete", None, SetupRequestHeaders(Null, c.tokenKey, c.storage))
  }

  /** The builders by name, as keys of the API object. */
  datatype BuilderKind = Get | GetWithBody | PostFile | Post | Put | Patch | Delete

  function Name(kind: BuilderKind): string
  {
    match kind
    case Get => "GET_CONFIG"
    case GetWithBody => "GET_CONFIG_WITH_BODY"
    case PostFile => "POST_FILE_CONFIG"
    case Post => "POST_CONFIG"
    case Put => "PUT_CONFIG"
    case Patch => "PATCH_CONFIG"
    case Delete => "DELETE_CONFIG"
  }

  /** The reference table of builder shapes: method, kind of body, and
      whether the JSON content type is sent. */
  datatype BodyKind = NoBody | JsonBody | RawBody
  datatype Shape = Shape(verb: string, body: BodyKind, jsonContentType: bool)

  function ShapeOf(kind: BuilderKind): Shape
  {
    match kind
    case Get => Shape("GET", NoBody, true)
    case GetWithBody => Shape("GET", JsonBody, true)
    case PostFile => Shape("post", RawBody, false)
    case Post => Shape("post", JsonBody, true)
    case Put => Shape("put", JsonBody, true)
    case Patch => Shape("patch", JsonBody, true)
    case Delete => Shape("delete", NoBody, true)
  }

  /** `body` is the body a builder of kind `bk` makes from `data`. */
  ghost predicate BodyFits<D>(body: Option<Body<D>>, bk: BodyKind, serialise: D -> string, data: D)
  {
    match bk
    case NoBody => body.None?
    case JsonBody => body == Some(Serialised(serialise(data)))
    case RawBody => body == Some(Raw(data))
  }

  /** Calls the builder of the given kind; `data` is ignored by the two
      builders that take no body, and `GET_CONFIG` receives no token. */
  function Invoke<D>(kind: BuilderKind, c: Credentials, serialise: D -> string, data: D): (r: RequestConfig<D>)
    ensures r.verb == ShapeOf(kind).verb
    ensures BodyFits(r.body, ShapeOf(kind).body, serialise, data)
    ensures FollowsHeaderRule(r.headers, Bool(!ShapeOf(kind).jsonContentType), StoredToken(c))
  {
    match kind
    case Get => GetConfig(c, None)
    case GetWithBody => GetConfigWithBody(c, serialise, data)
    case PostFile => PostFileConfig(c, data)
    case Post => PostConfig(c, serialise, data)
    case Put => PutConfig(c, serialise, data)
    case Patch => PatchConfig(c, serialise, data)
    case Delete => DeleteConfig(c)
  }

  /** Only the file-upload builder leaves out `Content-Type`; all others
      send `application/json`. */
  lemma OnlyFileUploadOmitsContentType<D>(kind: BuilderKind, c: Credentials, serialise: D -> string, data: D)
    ensures ContentType !in Invoke(kind, c, serialise, data).headers <==> kind == PostFile
    ensures kind != PostFile ==> Invoke(kind, c, serialise, data).headers[ContentType] == JsonMediaType
  {
  }

  /** `GET_CONFIG` and `DELETE_CONFIG` never carry a body; every other
      builder always has a `body` property. */
  lemma OnlyGetAndDeleteHaveNoBody<D>(kind: BuilderKind, c: Credentials, serialise: D -> string, data: D)
    ensures Invoke(kind, c, serialise, data).body.None? <==> kind == Get || kind == Delete
  {
  }

  /** Every builder sends `Authorization: Token <t>` when a truthy token `t`
      is stored, and no `Authorization` key otherwise. */
  lemma CredentialOnEveryBuilder<D>(kind: BuilderKind, c: Credentials, serialise: D -> string, data: D)
    ensures var h := Invoke(kind, c, serialise, data).headers;
      && (Authorization in h <==> c.tokenKey in c.storage && c.storage[c.tokenKey] != "")
      && (Authorization in h ==> h[Authorization] == "Token " + c.storage[c.tokenKey])
  {
    TruthyStringMeansNonEmpty(StoredToken(c));
  }

  /** `GET_CONFIG`'s token argument has no effect on the result. */
  lemma GetConfigIgnoresToken<D>(c: Credentials, t1: Option<string>, t2: Option<string>)
    ensures GetConfig<D>(c, t1) == GetConfig<D>(c, t2)
  {
  }
}
