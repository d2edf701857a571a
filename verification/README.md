# HTTP client configuration factory — Dafny model

This project models the decision logic of a small JavaScript library that
builds an application's API surface object. It has two variants: a browser
one (`api.js`) and a React Native / Expo one (`rn-api.js` with
`rn-constants.js`). The library does four things:

- **Release-channel classification** (`getEnvironment`). The Expo release
  channel is mapped to `dev`, `production` or `staging` by substring search.
  A defined channel that names neither environment yields no environment.
- **Base-URL resolution.** The browser variant builds
  `scheme + host + "/api/"`. It checks an override variable first, then a
  staging flag, then a production flag, and falls back to dev. The mobile
  variant returns configured hosts verbatim. In development on Android it
  substitutes the loopback URLs `http://10.0.3.2:8000/api/` and
  `http://10.0.3.2:3000`.
- **Header assembly and the seven request-config builders.** Each builder
  returns a method, an optional body and headers. `Content-Type:
  application/json` is sent unless the "no content type" flag is truthy.
  `Authorization: Token <t>` is sent only when a truthy token is stored.
- **API-object composition** (`createAPI`). This is a shallow merge of the
  builder set, the caller's routes and, in the browser variant only, extra
  routes. On a key clash the later map wins.

Every runtime signal is a parameter: `process.env` values, the Expo
Android flag, the release channel, and the contents of the token store.
The token store is `window.localStorage` or `AsyncStorage`, modelled as a
`map<string, string>`. `JSON.stringify` is a caller-supplied
`serialise: D -> string`. Route values are opaque (type parameter `R`).

Modules: `JsValues` (optional values, JavaScript truthiness), `Strings`
(`indexOf`), `Deployment` (environments, per-environment hosts),
`ReleaseChannel`, `WebApiRoot`, `MobileRoot`, `Headers`, `Builders`,
`Factory`, and `UnawaitedHeaders` (the browser builders as written; see
Findings).

Behaviour of the code worth noting:
- An unclassifiable release channel yields no environment, not `dev`.
- `GET_CONFIG` ignores its `token` argument. No override token takes
  precedence anywhere.
- The mobile variant adds no `http://`/`https://` prefix and no `/api/`
  path.
- The mobile `getApiRoot` and `getBaseFrontendURL` read no environment variable. Their doc comments (rn-api.js:30-31, 52-53) say an `API_ROOT` / `REACT_APP_FRONTEND_URL` variable takes precedence; that override is not implemented.
- The method strings are the code's own: `GET`, `post`, `put`, `patch`,
  `delete`.

## Model

| member | source | states |
|---|---|---|
| Strings.IndexOf | rn-constants.js:6-7 | `indexOf` is -1 exactly when the pattern occurs nowhere; otherwise it is an occurrence with no earlier one |
| ReleaseChannel.GetEnvironment | rn-constants.js:4-8 | dev iff the channel is undefined; production iff it contains "prod"; staging iff it contains "staging" and not "prod"; no environment iff it is defined and contains neither |
| ReleaseChannel.ProdAnywhereIsProduction | rn-constants.js:6 | "prod" anywhere in the channel (prod-v1, prod-v2, …) classifies as production |
| ReleaseChannel.ProdBeatsStaging | rn-constants.js:6-7 | a channel containing both "staging" and a later "prod" is production, because "prod" is checked first |
| ReleaseChannel.StagingWithoutProdIsStaging | rn-constants.js:7 | a channel containing "staging" and no "prod" is staging |
| ReleaseChannel.DefaultChannelIsUnclassified | rn-constants.js:4-8 | the defined channel "default" falls off the end: no environment, which differs from the undefined channel's dev |
| WebApiRoot.ParseBuildRoundTrip | api.js:16-20 | a URL built as scheme + host + "/api/" parses back to that scheme and host |
| WebApiRoot.BuildParseRoundTrip | api.js:16-20 | any URL that parses is rebuilt exactly from its parts |
| WebApiRoot.WebEnvironment | api.js:15-20 | staging iff REACT_APP_ENV is "staging"; production iff not staging and NODE_ENV is "production"; dev otherwise |
| WebApiRoot.GetApiRoot | api.js:12-22 | a truthy REACT_APP_API_ROOT is returned verbatim; otherwise the URL parses to https for staging/production or http for dev, with that environment's host |
| WebApiRoot.EmptyOverrideIsIgnored | api.js:13-14 | an empty REACT_APP_API_ROOT gives the same result as an unset one |
| WebApiRoot.StagingBeatsProductionBuild | api.js:15-18 | with no override, the staging flag yields https://STAGING/api/ even when NODE_ENV is "production" |
| WebApiRoot.LocalDevelopmentDefault | api.js:19-20 | with no signal set, dev host localhost:8000 gives http://localhost:8000/api/ |
| MobileRoot.GetApiRoot | rn-api.js:38-49 | defined iff ENV is one of the three environments; production and staging hosts are returned verbatim; in dev the Android loopback URL on Android, else the dev host |
| MobileRoot.GetBaseFrontendUrl | rn-api.js:60-71 | production and staging URLs verbatim; every other ENV, the unclassified one included, gives the Android loopback frontend on Android and the dev URL otherwise |
| MobileRoot.ApiRootIsVerbatim | rn-api.js:38-49 | a defined result is a configured host or the fixed loopback URL: no scheme or path is added |
| MobileRoot.AndroidDevIgnoresDevHost | rn-api.js:43-46 | on Android in dev neither resolver depends on the configured dev value |
| MobileRoot.UnclassifiedEnvironment | rn-api.js:38-71 | an unclassified ENV has no API root although dev has one, yet its frontend URL equals dev's |
| MobileRoot.DefaultChannelHasNoApiRoot | rn-constants.js:4-10 | the release channel "default" leaves the mobile client with an undefined API root and the development frontend URL |
| MobileRoot.AndroidRootMatchesWebDevShape | rn-api.js:45 | the Android loopback API root has the browser dev shape: http, host 10.0.3.2:8000, /api/ |
| Headers.ReadToken | rn-api.js:74 | the stored item is present exactly when its key is in the store, with the stored value |
| Headers.SetupRequestHeaders | api.js:24-41 | only Content-Type and Authorization can appear; Content-Type is application/json iff noContentType is falsy; Authorization is "Token " + token iff the stored token is truthy |
| Headers.HeaderRuleIsComplete | rn-api.js:73-89 | any header map following that rule is exactly the one assembled: the rule determines the headers |
| Headers.EmptyTokenSendsNoAuthorization | api.js:36-38 | an empty stored token sends no Authorization key, never an empty one |
| Builders.GetConfig | api.js:47-54 | method GET, no body, JSON headers with the stored credential |
| Builders.GetConfigWithBody | api.js:55-63 | method GET, serialised body, JSON headers with the stored credential |
| Builders.PostFileConfig | api.js:64-72 | method post, body passed through unserialised, headers without Content-Type |
| Builders.PostConfig | api.js:73-81 | method post, serialised body, JSON headers with the stored credential |
| Builders.PutConfig | api.js:82-90 | method put, serialised body, JSON headers with the stored credential |
| Builders.PatchConfig | api.js:91-99 | method patch, serialised body, JSON headers with the stored credential |
| Builders.DeleteConfig | api.js:100-107 | method delete, no body; the null flag is falsy so Content-Type stays |
| Builders.Invoke | api.js:43-110 | every builder agrees with the reference shape table: method, body kind and content-type presence, and the credential rule |
| Builders.OnlyFileUploadOmitsContentType | api.js:64-107 | Content-Type is absent iff the builder is POST_FILE_CONFIG; otherwise it is application/json |
| Builders.OnlyGetAndDeleteHaveNoBody | api.js:47-107 | the body is absent iff the builder is GET_CONFIG or DELETE_CONFIG |
| Builders.CredentialOnEveryBuilder | api.js:36-38 | for every builder, Authorization is present iff a non-empty token is stored under the key, and its value is "Token " + that token |
| Builders.GetConfigIgnoresToken | rn-api.js:93-99 | GET_CONFIG's result is the same for every token argument |
| Factory.BuilderSet | api.js:43-110 | `API(TOKEN)` has exactly the seven builder names as keys, each bound to its builder and the token key |
| Factory.Routes | api.js:125 | a route table becomes API members with the same keys and values |
| Factory.MergeAllResolves | api.js:126-129 | a left-to-right shallow merge has key k iff some layer has it, with the value from the last layer that has k |
| Factory.BuildersThenRoutes | api.js:124-129 | spreading builders, then routes, then extra routes gives the union of keys with extra routes over routes over builders |
| Factory.CreateWebApi | api.js:115-133 | fails iff routes is missing; keys are builders ∪ routes ∪ extra routes; extra routes beat routes, routes beat builders, other builders stay |
| Factory.WebApiIsLastWins | api.js:124-131 | the browser API object is the last-wins merge of builders, routes and extra routes |
| Factory.ExtraRoutesWinExample | api.js:127-130 | routes {A: f1} and extra routes {A: f2, B: f3} give A = f2, B = f3, and POST_CONFIG stays the builder |
| Factory.CreateMobileApi | rn-api.js:159-170 | fails iff routes is missing; routes get (API root, frontend URL) from the classified channel; keys are builders ∪ routes, and routes beat builders |
| Factory.CallConfig | api.js:43-110 | with headers awaited (the corrected builder), calling an API member gives a descriptor exactly for builder members; its method, body kind and content type follow that builder's row of the shape table, and Authorization follows the token stored under the member's key |
| Factory.WebPostConfigEndToEnd | api.js:73-81 | once its headers are awaited (the corrected builder), with a token stored and no route shadowing it, the object's POST_CONFIG is a post with the serialised body and exactly {Content-Type: application/json, Authorization: Token t} |
| UnawaitedHeaders.InvokeAsWritten | api.js:43-110 | each browser builder as written has the right method and body, but its headers field is a pending Promise of the right headers |
| UnawaitedHeaders.UnawaitedHeadersDropCredential | api.js:73-81 | with a token stored, the transport sees neither Authorization nor Content-Type from the as-written descriptor, though the awaited headers carry Authorization |
| UnawaitedHeaders.PostConfigLosesToken | api.js:73-81 | concrete case: POST_CONFIG with "abc" stored should send "Token abc" but the transport sees no headers |
| UnawaitedHeaders.WebPostConfigAsWritten | api.js:73-81 | as written, the browser object's POST_CONFIG member yields a post whose eventual headers carry Authorization but whose headers field gives the transport no headers |
| UnawaitedHeaders.InvokeAwaited | rn-api.js:91-154 | the awaited builder (as the mobile variant does it) hands the transport headers that follow the header rule |
| UnawaitedHeaders.SettledHeadersAgree | api.js:24-41 | once the Promise settles, the as-written and the awaited descriptors agree in method, body and headers |

## Left out

- Storage reads (`window.localStorage[TOKEN]`, `AsyncStorage.getItem(TOKEN)`) are platform I/O. The store's contents at call time are a parameter. A browser `Storage` object also answers property names such as `getItem`; those quirks are not modelled.
- The async/Promise plumbing is out. The mobile builders are modelled by their awaited result. The browser builders' unawaited headers are modelled only in `UnawaitedHeaders` (see Findings).
- `JSON.stringify` is an uninterpreted `serialise` function. No JSON encoder is modelled.
- Builders.Invoke: `serialise` is taken to return a string, that is, the data is taken to be defined and serialisable. It is the same for `GetConfigWithBody`, `PostConfig`, `PutConfig` and `PatchConfig`. In the source, `JSON.stringify(undefined)` (and of a function or a symbol) is `undefined`. So a no-argument call such as `POST_CONFIG()` yields `body: undefined`, which a fetch-style transport sends as no body. For cyclic or BigInt data `JSON.stringify` throws a `TypeError`, which the builder lets propagate. The model's JSON builders always carry a string body.
- `process.env`, Expo's `Constants.platform.android` and `Constants.manifest.releaseChannel` are explicit parameters.
- rn-api.js lines 91-154 use a block body with labels instead of an object literal, so the file does not parse. The model uses the evidently intended object of awaited builders, shaped like api.js.
- rn-constants.js line 38 (`export default const`) is invalid JavaScript. rn-api.js line 7 imports `ENV` by name, but it is not exported by name. The model passes the classified environment directly.
- `getProdSite` (rn-api.js:19-27) is dead code. Its only call is commented out at rn-api.js:160.
- Colors, Layout and `Dimensions` (rn-constants.js:12-36) are UI constants and window I/O.
- Route-table contents are caller-supplied functions, modelled as opaque values.
- A missing `apiRoot` makes `createAPI` throw a `TypeError` in both variants (api.js:119, rn-api.js:162). A missing `frontendUrl` throws only in the mobile variant (rn-api.js:163); the browser `createAPI` destructures it but never reads it. The model always takes both as given; only a missing `routes` is modelled as a failure.
- Strings.IndexOf: counts Dafny characters (Unicode scalar values), while JavaScript counts UTF-16 code units, and a JavaScript string may hold a lone surrogate that a Dafny string cannot. A channel with a character outside the Basic Multilingual Plane before "prod" gets a smaller index here than in JavaScript. `getEnvironment` only tests the result against -1, and that test agrees, so classification is unaffected.
- A release channel that is `null`, or a value with no `indexOf` method, would make `getEnvironment` throw; a non-string value that has one (an array such as `['prod']`) would be searched element-wise. The model takes the channel to be undefined or a string.
- Every configured host and URL (`Deployment.Sites`) is taken to be a string. In the source a missing field is not an error. In api.js (lines 16, 18, 20) it is concatenated as the text `undefined`, giving for example `https://undefined/api/`. In rn-api.js (lines 40-47, 62-69) it is returned verbatim as `undefined`, and the routes then receive `undefined` as the frontend URL.
- A cookie credential variant and an override token are not in these files, so they are not modelled.
- How a transport normalises method names (`post` to `POST`) belongs to the transport and is not modelled.
- Idempotence of the builders holds because every modelled operation is a pure function, so no lemma states it.

## Findings

| source | as written | input that shows it | evidently intended | confidence | as-written member | corrected member |
|---|---|---|---|---|---|---|
| api.js:43-110 | each builder stores the unawaited Promise from the async `setupRequestHeaders` in `headers`; a Promise has no own enumerable properties, so a fetch-style transport reads no headers from it | "abc" stored under key "token", `POST_CONFIG(data)`: the awaited headers would carry `Authorization: Token abc`, but the transport sees none | await the headers before returning the descriptor, as rn-api.js does | medium (depends on the transport reading a record's own properties); not executed | UnawaitedHeaders.InvokeAsWritten, UnawaitedHeaders.UnawaitedHeadersDropCredential, UnawaitedHeaders.WebPostConfigAsWritten | UnawaitedHeaders.InvokeAwaited (built on Builders.Invoke, which Factory.CallConfig uses) |
