/** Request-header assembly (`setupRequestHeaders`, identical in api.js and
    rn-api.js once awaited). The stored token is read from a key-value store
    (`window.localStorage` in the browser, `AsyncStorage` on mobile),
    modelled as a map from keys to stored strings. */
module Headers {
  import opened JsValues

  type Storage = map<string, string>
  type HeaderMap = map<string, string>

  const ContentType := "Content-Type"
  const Authorization := "Authorization"
  const JsonMediaType := "application/json"

  /** The item stored under `key`; a missing item reads as `undefined`
      (`null` from `AsyncStorage`), which is falsy either way. */
  function ReadToken(storage: Storage, key: string): (t: Option<string>)
    ensures t.Some? <==> key in storage
    ensures t.Some? ==> t.value == storage[key]
  {
    if key in storage then Some(storage[key]) else None
  }

  /** The `Authorization` value for a token: `Token ${token}`. */
  function AuthorizationValue(token: string): string
  {
    "Token " + token
  }

  /** The header rule, stated key by key: only the two known headers appear;
      `Content-Type: application/json` exactly when `noContentType` is falsy;
      `Authorization: Token <token>` exactly when the stored token is truthy. */
  ghost predicate FollowsHeaderRule(h: HeaderMap, noContentType: JsValue, token: Option<string>)
  {
    && h.Keys <= {ContentType, Authorization}
    && (ContentType in h <==> !Truthy(noContentType))
    && (ContentType in h ==> h[ContentType] == JsonMediaType)
    && (Authorization in h <==> TruthyString(token))
    && (Authorization in h ==> h[Authorization] == AuthorizationValue(token.value))
  }

  /** `setupRequestHeaders(noContentType, TOKEN)`: start from the JSON
      content type, drop it when asked to, then add the credential when one
      is stored. */
  function SetupRequestHeaders(noContentType: JsValue, tokenKey: string, storage: Storage): (h: HeaderMap)
    ensures FollowsHeaderRule(h, noContentType, ReadToken(storage, tokenKey))
  {
    var token := ReadToken(storage, tokenKey);
    var headers := if Truthy(noContentType) then map[] else map[ContentType := JsonMediaType];
    if TruthyString(token) then headers[Authorization := AuthorizationValue(token.value)] else headers
  }

  /** The rule determines the headers completely: any header map that follows
      it is the one `SetupRequestHeaders` produces. */
  lemma {:induction false} HeaderRuleIsComplete(h: HeaderMap, noContentType: JsValue, tokenKey: string, storage: Storage)
    requires FollowsHeaderRule(h, noContentType, ReadToken(storage, tokenKey))
    ensures h == SetupRequestHeaders(noContentType, tokenKey, storage)
  {
    var g := SetupRequestHeaders(noContentType, tokenKey, storage);
    assert h.Keys == g.Keys;
    forall k | k in h ensures h[k] == g[k] {
      assert k == ContentType || k == Authorization;
    }
  }

  /** Without a stored token the `Authorization` key is absent, never empty;
      an empty stored string counts as no token. */
  lemma EmptyTokenSendsNoAuthorization(noContentType: JsValue, tokenKey: string, storage: Storage)
    requires tokenKey in storage && storage[tokenKey] == ""
    ensures Authorization !in SetupRequestHeaders(noContentType, tokenKey, storage)
  {
  }
}
