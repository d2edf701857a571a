/** Base-URL resolution of the mobile variant (`getApiRoot` and
    `getBaseFrontendURL` in rn-api.js). Both return configured values
    verbatim; on an Android device in development they substitute fixed
    loopback URLs, because the emulator reaches the host machine at
    10.0.3.2 rather than at localhost. */
module MobileRoot {
  import opened JsValues
  import opened Deployment
  import ReleaseChannel
  import WebApiRoot

  const AndroidApiRoot := "http://10.0.3.2:8000/api/"
  const AndroidFrontendUrl := "http://10.0.3.2:3000"

  /** `getApiRoot(production, staging, dev)` under the module-level `ENV`
      and the Expo Android flag. An `ENV` that is none of the three
      environments matches no branch, and the function returns `undefined`. */
  function GetApiRoot(env: Option<Env>, android: bool, hosts: Sites): (r: Option<string>)
    ensures r.Some? <==> env.Some?
    ensures env == Some(Production) ==> r == Some(hosts.production)
    ensures env == Some(Staging) ==> r == Some(hosts.staging)
    ensures env == Some(Dev) && android ==> r == Some(AndroidApiRoot)
    ensures env == Some(Dev) && !android ==> r == Some(hosts.dev)
  {
    match env
    case Some(Production) => Some(hosts.production)
    case Some(Staging) => Some(hosts.staging)
    case Some(Dev) => if android then Some(AndroidApiRoot) else Some(hosts.dev)
    case None => None
  }

  /** `getBaseFrontendURL(production, staging, dev)`: unlike `getApiRoot`,
      every environment other than production and staging, the unclassified
      one included, takes the development branch. */
  function GetBaseFrontendUrl(env: Option<Env>, android: bool, urls: Sites): (r: string)
    ensures env == Some(Production) ==> r == urls.production
    ensures env == Some(Staging) ==> r == urls.staging
    ensures env != Some(Production) && env != Some(Staging) ==>
      r == (if android then AndroidFrontendUrl else urls.dev)
  {
    if env == Some(Production) then urls.production
    else if env == Some(Staging) then urls.staging
    else if android then AndroidFrontendUrl
    else urls.dev
  }

  /** The mobile variant adds no scheme and no path: whatever it returns is
      one of the configured hosts or the fixed Android loopback URL. */
  lemma ApiRootIsVerbatim(env: Option<Env>, android: bool, hosts: Sites)
    requires GetApiRoot(env, android, hosts).Some?
    ensures GetApiRoot(env, android, hosts).value
         in {hosts.production, hosts.staging, hosts.dev, AndroidApiRoot}
    ensures GetApiRoot(env, android, hosts).value == HostFor(hosts, env.value)
         || (env.value == Dev && GetApiRoot(env, android, hosts).value == AndroidApiRoot)
  {
  }

  /** On Android in development the configured dev host is never used. */
  lemma AndroidDevIgnoresDevHost(hosts: Sites, otherDev: string)
    ensures GetApiRoot(Some(Dev), true, hosts)
         == GetApiRoot(Some(Dev), true, Sites(hosts.production, hosts.staging, otherDev))
    ensures GetBaseFrontendUrl(Some(Dev), true, hosts)
         == GetBaseFrontendUrl(Some(Dev), true, Sites(hosts.production, hosts.staging, otherDev))
  {
  }

  /** Where the two resolvers part ways: an unclassified environment has no
      API root, yet its frontend URL is the development one. */
  lemma UnclassifiedEnvironment(android: bool, hosts: Sites, urls: Sites)
    ensures GetApiRoot(None, android, hosts).None?
    ensures GetApiRoot(Some(Dev), android, hosts).Some?
    ensures GetBaseFrontendUrl(None, android, urls) == GetBaseFrontendUrl(Some(Dev), android, urls)
  {
  }

  /** A release channel naming no environment ("default", say) leaves the
      mobile client without an API root. */
  lemma DefaultChannelHasNoApiRoot(android: bool, hosts: Sites, urls: Sites)
    ensures GetApiRoot(ReleaseChannel.GetEnvironment(Some("default")), android, hosts).None?
    ensures GetBaseFrontendUrl(ReleaseChannel.GetEnvironment(Some("default")), android, urls)
         == (if android then AndroidFrontendUrl else urls.dev)
  {
    ReleaseChannel.DefaultChannelIsUnclassified();
  }

  /** The Android loopback API root has the same shape as the browser
      variant's development URL: plain HTTP, host `10.0.3.2:8000`, `/api/`. */
  lemma AndroidRootMatchesWebDevShape()
    ensures WebApiRoot.ParseApiRoot(AndroidApiRoot)
         == Some(WebApiRoot.ApiRoot(WebApiRoot.Http, "10.0.3.2:8000"))
  {
    assert AndroidApiRoot == WebApiRoot.BuildApiRoot(WebApiRoot.ApiRoot(WebApiRoot.Http, "10.0.3.2:8000"));
    WebApiRoot.ParseBuildRoundTrip(WebApiRoot.ApiRoot(WebApiRoot.Http, "10.0.3.2:8000"));
  }
}
