/** The browser builders as api.js writes them. `setupRequestHeaders` is an
    `async` function there, and every builder stores the Promise it returns,
    without awaiting it, in the descriptor's `headers` field (api.js lines
    49, 57, 66, 75, 84, 93 and 102). The mobile variant awaits it. */
module UnawaitedHeaders {
  import opened JsValues
  import opened Headers
  import opened Builders
  import opened Deployment
  import WebApiRoot
  import Factory

  /** What a descriptor's `headers` field holds: a plain header object, or a
      pending Promise of one. */
  datatype HeaderField = Plain(fields: HeaderMap) | Pending(eventual: HeaderMap)

  datatype WebRequestConfig<D> = WebRequestConfig(verb: string, body: Option<Body<D>>, headers: HeaderField)

  /** The headers a fetch-style transport takes from the `headers` field:
      a record's own enumerable properties. A Promise object has none, so
      a pending field contributes no header at all. */
  function TransportHeaders(f: HeaderField): (h: HeaderMap)
    ensures f.Plain? ==> h == f.fields
    ensures f.Pending? ==> h == map[]
  {
    match f
    case Plain(fields) => fields
    case Pending(_) => map[]
  }

  /** A browser builder as written: the right method and body, and the right
      headers only once the Promise settles. */
  function InvokeAsWritten<D>(kind: BuilderKind, c: Credentials, serialise: D -> string, data: D): (r: WebRequestConfig<D>)
    ensures r.verb == ShapeOf(kind).verb
    ensures BodyFits(r.body, ShapeOf(kind).body, serialise, data)
    ensures r.headers.Pending?
    ensures FollowsHeaderRule(r.headers.eventual, Bool(!ShapeOf(kind).jsonContentType), StoredToken(c))
  {
    var awaited := Invoke(kind, c, serialise, data);
    WebRequestConfig(awaited.verb, awaited.body, Pending(awaited.headers))
  }

  /** The discrepancy: with a token stored, the transport sees neither the
      credential nor the JSON content type, although the awaited headers
      carry both. */
  lemma {:induction false} UnawaitedHeadersDropCredential<D>(kind: BuilderKind, c: Credentials, serialise: D -> string, data: D)
    requires TruthyString(StoredToken(c))
    ensures Authorization in Invoke(kind, c, serialise, data).headers
    ensures Authorization !in TransportHeaders(InvokeAsWritten(kind, c, serialise, data).headers)
    ensures ContentType !in TransportHeaders(InvokeAsWritten(kind, c, serialise, data).headers)
  {
  }

  /** A concrete instance: `POST_CONFIG` with "abc" stored under "token". */
  lemma PostConfigLosesToken(serialise: string -> string, data: string)
    ensures Invoke(Post, Credentials("token", map["token" := "abc"]), serialise, data).headers[Authorization] == "Token abc"
    ensures TransportHeaders(InvokeAsWritten(Post, Credentials("token", map["token" := "abc"]), serialise, data).headers) == map[]
  {
  }

  /** The evidently intended browser builder: headers awaited before the
      descriptor is returned, so the transport sees exactly the header rule. */
  function InvokeAwaited<D>(kind: BuilderKind, c: Credentials, serialise: D -> string, data: D): (r: WebRequestConfig<D>)
    ensures r.verb == ShapeOf(kind).verb
    ensures BodyFits(r.body, ShapeOf(kind).body, serialise, data)
    ensures FollowsHeaderRule(TransportHeaders(r.headers), Bool(!ShapeOf(kind).jsonContentType), StoredToken(c))
  {
    var awaited := Invoke(kind, c, serialise, data);
    WebRequestConfig(awaited.verb, awaited.body, Plain(awaited.headers))
  }

  /** Once the Promise settles, the as-written and the intended descriptors
      agree; they differ only in when the headers become available. */
  lemma SettledHeadersAgree<D>(kind: BuilderKind, c: Credentials, serialise: D -> string, data: D)
    ensures var w := InvokeAsWritten(kind, c, serialise, data);
      var a := InvokeAwaited(kind, c, serialise, data);
      w.verb == a.verb && w.body == a.body && w.headers.eventual == TransportHeaders(a.headers)
  {
  }

  /** The as-written counterpart of `Factory.WebPostConfigEndToEnd`: the
      browser API object's `POST_CONFIG` member, called as api.js writes it,
      hands the transport no headers, although a token is stored. */
  lemma WebPostConfigAsWritten<R, D>(
    routes: string -> map<string, R>,
    tokenKey: string,
    apiRoot: Sites,
    penv: WebApiRoot.ProcessEnv,
    storage: Storage,
    serialise: D -> string,
    data: D
  )
    requires "POST_CONFIG" !in routes(WebApiRoot.GetApiRoot(penv, apiRoot))
    requires tokenKey in storage && storage[tokenKey] != ""
    ensures
      var m := Factory.CreateWebApi(Some(routes), tokenKey, apiRoot, penv, None).value["POST_CONFIG"];
      && m.Config?
      && var w := InvokeAsWritten(m.kind, Credentials(m.tokenKey, storage), serialise, data);
      && w.verb == "post"
      && Authorization in w.headers.eventual
      && TransportHeaders(w.headers) == map[]
  {
    assert Name(Post) == "POST_CONFIG";
  }
}
