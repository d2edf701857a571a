/** Base-URL resolution of the browser variant (`getApiRoot` in api.js),
    together with the inverse reading of the URLs it builds. */
module WebApiRoot {
  import opened JsValues
  import opened Deployment

  /** The three `process.env` variables the browser variant consults:
      `REACT_APP_API_ROOT`, `REACT_APP_ENV` and `NODE_ENV`. */
  datatype ProcessEnv = ProcessEnv(apiRoot: Option<string>, appEnv: Option<string>, nodeEnv: Option<string>)

  datatype Scheme = Http | Https

  /** A base API URL taken apart: its scheme and the host between the
      scheme and the fixed `/api/` suffix. */
  datatype ApiRoot = ApiRoot(scheme: Scheme, host: string)

  const ApiPath := "/api/"

  function Prefix(scheme: Scheme): string
  {
    match scheme
    case Http => "http://"
    case Https => "https://"
  }

  /** `scheme + host + "/api/"`, the shape of every URL `getApiRoot` builds. */
  function BuildApiRoot(root: ApiRoot): string
  {
    Prefix(root.scheme) + root.host + ApiPath
  }

  /** Reads a URL of the form `http(s)://HOST/api/` back into its parts;
      any other string is not such a URL. */
  function ParseApiRoot(url: string): (r: Option<ApiRoot>)
    ensures r.Some? ==> |url| >= |Prefix(r.value.scheme)| + |ApiPath|
  {
    if |url| < |ApiPath| || url[|url| - |ApiPath|..] != ApiPath then None
    else
      var rest := url[..|url| - |ApiPath|];
      if |rest| >= 8 && rest[..8] == "https://" then Some(ApiRoot(Https, rest[8..]))
      else if |rest| >= 7 && rest[..7] == "http://" then Some(ApiRoot(Http, rest[7..]))
      else None
  }

  /** Parsing recovers the scheme and the host of every built URL. */
  lemma {:induction false} ParseBuildRoundTrip(root: ApiRoot)
    ensures ParseApiRoot(BuildApiRoot(root)) == Some(root)
  {
    var url := BuildApiRoot(root);
    var p := Prefix(root.scheme);
    assert url[|url| - |ApiPath|..] == ApiPath;
    var rest := url[..|url| - |ApiPath|];
    assert rest == p + root.host;
    if root.scheme == Http {
      assert rest[..7] == "http://";
      if |rest| >= 8 {
        assert rest[..8][4] == ':';
      }
    } else {
      assert rest[..8] == "https://";
    }
  }

  /** Building from parsed parts gives back the URL that was parsed. */
  lemma {:induction false} BuildParseRoundTrip(url: string)
    requires ParseApiRoot(url).Some?
    ensures BuildApiRoot(ParseApiRoot(url).value) == url
  {
    var rest := url[..|url| - |ApiPath|];
    assert url == rest + url[|url| - |ApiPath|..];
    var root := ParseApiRoot(url).value;
    assert rest == Prefix(root.scheme) + root.host;
  }

  /** The environment the browser variant targets when no override is set:
      the staging flag is checked before the production flag. */
  function WebEnvironment(penv: ProcessEnv): (e: Env)
    ensures e == Staging <==> penv.appEnv == Some("staging")
    ensures e == Production <==> penv.appEnv != Some("staging") && penv.nodeEnv == Some("production")
  {
    if penv.appEnv == Some("staging") then Staging
    else if penv.nodeEnv == Some("production") then Production
    else Dev
  }

  /** Deployed environments are reached over TLS, development over plain HTTP. */
  function SchemeFor(e: Env): (s: Scheme)
    ensures s == Http <==> e == Dev
  {
    if e == Dev then Http else Https
  }

  /** `getApiRoot({PRODUCTION_SITE, STAGING_SITE, LOCALHOST})`: a truthy
      `REACT_APP_API_ROOT` is returned verbatim; otherwise the URL names
      the host of the selected environment, with its scheme and `/api/`. */
  function GetApiRoot(penv: ProcessEnv, sites: Sites): (url: string)
    ensures TruthyString(penv.apiRoot) ==> url == penv.apiRoot.value
    ensures !TruthyString(penv.apiRoot) ==>
      var e := WebEnvironment(penv);
      ParseApiRoot(url) == Some(ApiRoot(SchemeFor(e), HostFor(sites, e)))
  {
    if TruthyString(penv.apiRoot) then penv.apiRoot.value
    else
      var root :=
        if penv.appEnv == Some("staging") then ApiRoot(Https, sites.staging)
        else if penv.nodeEnv == Some("production") then ApiRoot(Https, sites.production)
        else ApiRoot(Http, sites.dev);
      ParseBuildRoundTrip(root);
      BuildApiRoot(root)
  }

  /** An empty `REACT_APP_API_ROOT` is falsy and overrides nothing. */
  lemma EmptyOverrideIsIgnored(appEnv: Option<string>, nodeEnv: Option<string>, sites: Sites)
    ensures GetApiRoot(ProcessEnv(Some(""), appEnv, nodeEnv), sites)
         == GetApiRoot(ProcessEnv(None, appEnv, nodeEnv), sites)
  {
  }

  /** The staging flag wins even when `NODE_ENV` is "production". */
  lemma StagingBeatsProductionBuild(override: Option<string>, sites: Sites)
    requires !TruthyString(override)
    ensures GetApiRoot(ProcessEnv(override, Some("staging"), Some("production")), sites)
         == "https://" + sites.staging + "/api/"
  {
    var penv := ProcessEnv(override, Some("staging"), Some("production"));
    BuildParseRoundTrip(GetApiRoot(penv, sites));
  }

  /** With no signal set, the dev host `localhost:8000` gives
      `http://localhost:8000/api/`. */
  lemma LocalDevelopmentDefault(production: string, staging: string)
    ensures GetApiRoot(ProcessEnv(None, None, None), Sites(production, staging, "localhost:8000"))
         == "http://localhost:8000/api/"
  {
    var root := ApiRoot(Http, "localhost:8000");
    assert GetApiRoot(ProcessEnv(None, None, None), Sites(production, staging, "localhost:8000")) == BuildApiRoot(root);
    assert BuildApiRoot(root) == "http://" + "localhost:8000" + "/api/";
  }
}
