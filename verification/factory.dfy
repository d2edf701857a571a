/** `createAPI`: composition of the API object from the builder set and the
    caller's route tables (api.js for the browser, rn-api.js for mobile).
    Objects are shallow-merged with spread syntax, where a later object's
    key replaces an earlier one; Dafny's map `+` has the same right bias. */
module Factory {
  import opened JsValues
  import opened Deployment
  import opened Headers
  import opened Builders
  import ReleaseChannel
  import WebApiRoot
  import MobileRoot

  /** A property of the API object: a request-config builder closed over
      the token's storage key, or a value of a caller's route table (a URL
      function, opaque here). */
  datatype Member<R> = Config(kind: BuilderKind, tokenKey: string) | Route(route: R)

  type ApiObject<R> = map<string, Member<R>>

  /** `createAPI` without a `routes` function throws a `TypeError` when it
      calls `routes(BASE_URL)`; no API object is returned. */
  datatype FactoryError = MissingRoutes

  datatype Result<T> = Success(value: T) | Failure(error: FactoryError)

  const BuilderNames: set<string> :=
    {"GET_CONFIG", "GET_CONFIG_WITH_BODY", "POST_FILE_CONFIG", "POST_CONFIG",
     "PUT_CONFIG", "PATCH_CONFIG", "DELETE_CONFIG"}

  /** `API(TOKEN)`: one entry per builder, keyed by the builder's name. */
  function BuilderSet<R>(tokenKey: string): (api: ApiObject<R>)
    ensures api.Keys == BuilderNames
    ensures forall kind :: api[Name(kind)] == Config(kind, tokenKey)
  {
    map[Name(Get) := Config(Get, tokenKey),
        Name(GetWithBody) := Config(GetWithBody, tokenKey),
        Name(PostFile) := Config(PostFile, tokenKey),
        Name(Post) := Config(Post, tokenKey),
        Name(Put) := Config(Put, tokenKey),
        Name(Patch) := Config(Patch, tokenKey),
        Name(Delete) := Config(Delete, tokenKey)]
  }

  /** A caller's route table, as members of the API object. */
  function Routes<R>(table: map<string, R>): (api: ApiObject<R>)
    ensures api.Keys == table.Keys
    ensures forall k :: k in table ==> api[k] == Route(table[k])
  {
    map k | k in table :: Route(table[k])
  }

  /** Reference definition of a chain of shallow merges: the value of key `k`
      comes from the last layer that has `k`. */
  function Resolve<V>(layers: seq<map<string, V>>, k: string): Option<V>
  {
    if |layers| == 0 then None
    else if k in layers[|layers| - 1] then Some(layers[|layers| - 1][k])
    else Resolve(layers[..|layers| - 1], k)
  }

  /** `{...layers[0], ...layers[1], ...}`. */
  function MergeAll<V>(layers: seq<map<string, V>>): map<string, V>
  {
    if |layers| == 0 then map[] else MergeAll(layers[..|layers| - 1]) + layers[|layers| - 1]
  }

  /** Merging left to right agrees with "the last layer naming a key wins",
      for every key and every number of layers. */
  lemma {:induction false} MergeAllResolves<V>(layers: seq<map<string, V>>, k: string)
    ensures k in MergeAll(layers) <==> Resolve(layers, k).Some?
    ensures k in MergeAll(layers) ==> MergeAll(layers)[k] == Resolve(layers, k).value
  {
    if |layers| > 0 {
      MergeAllResolves(layers[..|layers| - 1], k);
    }
  }

  /** The layers `createAPI` merges in api.js: builders, routes, then the
      extra routes when they are given. */
  function WebLayers<R>(builders: ApiObject<R>, routes: ApiObject<R>, extra: Option<ApiObject<R>>): seq<ApiObject<R>>
  {
    if extra.Some? then [builders, routes, extra.value] else [builders, routes]
  }

  /** Key-by-key reading of `{...API(TOKEN), ...rs, ...xs}`: keys of `xs`
      beat those of `rs`, which beat the builders'. */
  ghost predicate LayeredOver<R>(api: ApiObject<R>, tokenKey: string, rs: map<string, R>, xs: map<string, R>)
  {
    && api.Keys == BuilderNames + rs.Keys + xs.Keys
    && (forall k :: k in xs ==> api[k] == Route(xs[k]))
    && (forall k :: k in rs && k !in xs ==> api[k] == Route(rs[k]))
    && (forall kind :: Name(kind) !in rs && Name(kind) !in xs ==> api[Name(kind)] == Config(kind, tokenKey))
  }

  lemma BuildersThenRoutes<R>(tokenKey: string, rs: map<string, R>, xs: map<string, R>)
    ensures LayeredOver(BuilderSet(tokenKey) + Routes(rs) + Routes(xs), tokenKey, rs, xs)
  {
    var b := BuilderSet<R>(tokenKey);
    var api := b + Routes(rs) + Routes(xs);
    forall kind | Name(kind) !in rs && Name(kind) !in xs
      ensures api[Name(kind)] == Config(kind, tokenKey)
    {
      assert api[Name(kind)] == b[Name(kind)];
    }
  }

  /** `createAPI({routes, authTokenName, apiRoot, extraRoutes})` of api.js.
      Keys of the extra routes beat routes and builders, keys of the routes
      beat builders, and builders no table names stay in place. */
  function CreateWebApi<R>(
    routes: Option<string -> map<string, R>>,
    tokenKey: string,
    apiRoot: Sites,
    penv: WebApiRoot.ProcessEnv,
    extraRoutes: Option<string -> map<string, R>>
  ): (r: Result<ApiObject<R>>)
    ensures r.Failure? <==> routes.None?
    ensures r.Success? ==>
      var base := WebApiRoot.GetApiRoot(penv, apiRoot);
      LayeredOver(r.value, tokenKey, routes.value(base),
                  if extraRoutes.Some? then extraRoutes.value(base) else map[])
  {
    if routes.None? then Failure(MissingRoutes)
    else
      var baseUrl := WebApiRoot.GetApiRoot(penv, apiRoot);
      var api := BuilderSet(tokenKey) + Routes(routes.value(baseUrl));
      if extraRoutes.Some? then
        BuildersThenRoutes(tokenKey, routes.value(baseUrl), extraRoutes.value(baseUrl));
        Success(api + Routes(extraRoutes.value(baseUrl)))
      else
        BuildersThenRoutes<R>(tokenKey, routes.value(baseUrl), map[]);
        assert api + Routes(map[]) == api;
        Success(api)
  }

  /** The browser API object is the last-wins merge of its layers. */
  lemma WebApiIsLastWins<R>(
    routes: string -> map<string, R>,
    tokenKey: string,
    apiRoot: Sites,
    penv: WebApiRoot.ProcessEnv,
    extraRoutes: Option<string -> map<string, R>>,
    k: string
  )
    ensures
      var base := WebApiRoot.GetApiRoot(penv, apiRoot);
      var extra := if extraRoutes.Some? then Some(Routes(extraRoutes.value(base))) else None;
      var layers := WebLayers(BuilderSet(tokenKey), Routes(routes(base)), extra);
      var api := CreateWebApi(Some(routes), tokenKey, apiRoot, penv, extraRoutes).value;
      && api == MergeAll(layers)
      && (k in api <==> Resolve(layers, k).Some?)
      && (k in api ==> api[k] == Resolve(layers, k).value)
  {
    var base := WebApiRoot.GetApiRoot(penv, apiRoot);
    var extra := if extraRoutes.Some? then Some(Routes(extraRoutes.value(base))) else None;
    var layers := WebLayers(BuilderSet(tokenKey), Routes(routes(base)), extra);
    var b := BuilderSet<R>(tokenKey);
    var two := [b, Routes(routes(base))];
    assert two[..1] == [b];
    assert [b][..0] == [];
    assert MergeAll([b]) == map[] + b == b;
    assert MergeAll(two) == b + Routes(routes(base));
    if extraRoutes.Some? {
      assert layers[..2] == two;
    }
    MergeAllResolves(layers, k);
  }

  /** Merging example: routes `{A: f1}` and extra routes `{A: f2, B: f3}`
      give an API object whose `A` is `f2` and whose `B` is `f3`. */
  lemma ExtraRoutesWinExample<R>(f1: R, f2: R, f3: R, tokenKey: string, apiRoot: Sites, penv: WebApiRoot.ProcessEnv)
    ensures
      var api := CreateWebApi(Some((base: string) => map["A" := f1]), tokenKey, apiRoot, penv,
                              Some((base: string) => map["A" := f2, "B" := f3])).value;
      && api["A"] == Route(f2)
      && api["B"] == Route(f3)
      && api["POST_CONFIG"] == Config(Post, tokenKey)
  {
    assert Name(Post) == "POST_CONFIG";
  }

  /** `createAPI({routes, authTokenName, apiRoot, frontendUrl})` of
      rn-api.js. `ENV` is classified from the release channel; the routes
      receive the API root (possibly `undefined`) and the frontend URL, and
      their keys beat the builders'. */
  function CreateMobileApi<R>(
    routes: Option<(Option<string>, string) -> map<string, R>>,
    tokenKey: string,
    apiRoot: Sites,
    frontendUrl: Sites,
    releaseChannel: Option<string>,
    android: bool
  ): (r: Result<ApiObject<R>>)
    ensures r.Failure? <==> routes.None?
    ensures r.Success? ==>
      var env := ReleaseChannel.GetEnvironment(releaseChannel);
      var rs := routes.value(MobileRoot.GetApiRoot(env, android, apiRoot),
                             MobileRoot.GetBaseFrontendUrl(env, android, frontendUrl));
      && r.value.Keys == BuilderNames + rs.Keys
      && (forall k :: k in rs ==> r.value[k] == Route(rs[k]))
      && (forall kind :: Name(kind) !in rs ==> r.value[Name(kind)] == Config(kind, tokenKey))
  {
    if routes.None? then Failure(MissingRoutes)
    else
      var env := ReleaseChannel.GetEnvironment(releaseChannel);
      var baseUrl := MobileRoot.GetApiRoot(env, android, apiRoot);
      var baseFrontendUrl := MobileRoot.GetBaseFrontendUrl(env, android, frontendUrl);
      Success(BuilderSet(tokenKey) + Routes(routes.value(baseUrl, baseFrontendUrl)))
  }

  /** Calling a builder member of the API object against the current
      contents of the token store, with its headers awaited (the corrected
      browser builder, and the mobile one). Route members give no descriptor;
      a builder member gives the one its row of the shape table prescribes,
      with the credential stored under the member's token key. */
  function CallConfig<R, D>(m: Member<R>, storage: Storage, serialise: D -> string, data: D): (r: Option<RequestConfig<D>>)
    ensures r.Some? <==> m.Config?
    ensures r.Some? ==>
      && r.value.verb == ShapeOf(m.kind).verb
      && BodyFits(r.value.body, ShapeOf(m.kind).body, serialise, data)
      && FollowsHeaderRule(r.value.headers, Bool(!ShapeOf(m.kind).jsonContentType), ReadToken(storage, m.tokenKey))
  {
    if m.Config? then Some(Invoke(m.kind, Credentials(m.tokenKey, storage), serialise, data)) else None
  }

  /** End to end in the browser, once the headers are awaited (the corrected
      builder): with no route named `POST_CONFIG`, the API object's
      `POST_CONFIG` posts the serialised body with the JSON content type and
      the token stored under `authTokenName`. As api.js is written, the
      transport sees no headers at all (`UnawaitedHeaders.WebPostConfigAsWritten`). */
  lemma WebPostConfigEndToEnd<R, D>(
    routes: string -> map<string, R>,
    tokenKey: string,
    apiRoot: Sites,
    penv: WebApiRoot.ProcessEnv,
    storage: Storage,
    serialise: D -> string,
    data: D
  )
    requires "POST_CONFIG" !in routes(WebApiRoot.GetApiRoot(penv, apiRoot))
    requires tokenKey in storage && storage[tokenKey] != ""
    ensures
      var api := CreateWebApi(Some(routes), tokenKey, apiRoot, penv, None).value;
      var cfg := CallConfig(api["POST_CONFIG"], storage, serialise, data).value;
      && cfg.verb == "post"
      && cfg.body == Some(Serialised(serialise(data)))
      && cfg.headers == map[ContentType := JsonMediaType, Authorization := "Token " + storage[tokenKey]]
  {
    assert Name(Post) == "POST_CONFIG";
    HeaderRuleIsComplete(map[ContentType := JsonMediaType, Authorization := "Token " + storage[tokenKey]],
                         Bool(false), tokenKey, storage);
  }
}
