# ULB OpenID Connect driver for AdonisJS Ally, in Dafny

This project models `UlbOidcDriver`, an AdonisJS Ally driver for the
authorization-code flow of the Université libre de Bruxelles identity
provider. It covers two revisions of the driver:

- the current TypeScript source (`src/driver.ts`). Its constructor resolves
  the authorization, token and userinfo endpoints from explicit overrides
  or from the server URL. It also marks the redirect as a `code` request,
  detects `access_denied` callbacks, exchanges the code for a bearer token,
  and maps the userinfo payload to a user record through per-field
  fallback chains;
- the older compiled build (`build/src/driver.js`). It has fixed
  `auth.ulb.be` endpoints and a default scope list, and it copies the
  payload's claims directly, with no fallbacks.

Modules:

- `Wrappers` holds `Option` (a value or `undefined`) and `Result` (a value
  or the error an async operation throws).
- `JsValues` gives the JavaScript semantics the driver relies on: `||`
  (absent and `""` are both falsy), `??`, template literals (absent renders
  as `"undefined"`) and `String.prototype.trim`. `trim` is characterised
  exactly: the result is the unique middle slice that has non-whitespace at
  both ends, and everything outside it is whitespace. It also gives a
  reference definition of "first non-empty of a chain".
- `OidcTypes` holds the configuration, scopes, access token, token and
  userinfo replies, the user record, the errors thrown and the outbound
  HTTP requests as data.
- `HttpRequests` holds the framework's request builders as classes that the
  driver mutates: `header(...)` and `param(...)`.
- `ProfileMapping` holds the fallback mapping of the current `user()` and
  the direct copy used by the current `userFromToken()` and by both
  operations of the old build.
- `UlbOidc` is the current driver class. `LegacyUlbOidc` is the old one.

The network is not modelled. Each reply the driver awaits is a parameter
of the operation that awaits it: the token endpoint's decoded body or its
error, and the userinfo payload (possibly null) or its error. Each request
the driver would send is returned as an `Outbound` value, so the contracts
say what is sent, in which order, and what is not sent.

What the code does in the cases that need care:

- a missing identity claim gives `"unknown"`: `id` is `sub`, else `id`,
  else `"unknown"`, and `email` is `email`, else `mail`, else `"unknown"`;
- the nickName is `preferred_username`, else `cn`, else `"unknown"`;
- the name is the `name` claim, else the trimmed join of the given and
  family names, which is `""` when both are absent;
- failures are thrown errors, modelled as `Failure`. A callback without a
  code is not rejected: the token request is sent, and its encoded body
  has no `code` field;
- the current `userFromToken()` does not apply the fallback mapping of
  `user()`. It copies claims directly, like the old build. `MappingsAgree`
  and `MappingsDiverge` state when the two mappings agree and give a
  payload on which they differ.

## Model

| member | source | states |
|---|---|---|
| `UlbOidc.Endpoint` | src/driver.ts:48-51 | a resolved endpoint is never empty |
| `UlbOidc.EndpointResolution` | src/driver.ts:48-51 | a non-empty override is the endpoint; an absent or empty override gives `https://<serverUrl><suffix>`, which starts with the scheme and ends with the suffix |
| `UlbOidc.UserInfoUrlIsResolved` | src/driver.ts:111 | `config.userInfoUrl \|\| this.userInfoUrl` is always the endpoint the constructor resolved |
| `UlbOidc.UlbOidcDriver.constructor` | src/driver.ts:43-53 | the three endpoints are stored resolved from their overrides and the server URL, once (`Valid`) |
| `UlbOidc.DriverEndpoints` | src/driver.ts:48-51 | for a constructed driver, each stored endpoint is its non-empty override or the derived URL, and the profile URL used later is the stored userinfo endpoint |
| `UlbOidc.UlbOidcDriver.ConfigureRedirectRequest` | src/driver.ts:60-62 | the redirect's parameters gain `response_type=code` and nothing else changes |
| `UlbOidc.AccessDeniedExactly` | src/driver.ts:64-66 | `accessDenied()` holds iff the `error` parameter is `access_denied`; it depends on no other parameter, and no other error code of section 4.1.2.1 of RFC 6749 counts |
| `UlbOidc.TokenRequestFormFields` | src/driver.ts:71-77 | the token form has exactly the keys grant_type, code, client_id, client_secret, redirect_uri, in that order and each once, with the grant type, the callback's code, the client credentials and the callback URL as values |
| `UlbOidc.FormKeys` | src/driver.ts:71-77 | the keys of a form, position by position |
| `UlbOidc.TokenRequestForm` | src/driver.ts:71-77 | the token form's keys are grant_type, code, client_id, client_secret, redirect_uri, in that order |
| `UlbOidc.EncodedFields` | src/driver.ts:71-77 | the encoded body holds only the defined fields: its length is the form's length minus the number of undefined values, and it starts with the form's first field when that one is defined |
| `UlbOidc.EncodedFieldsExact` | src/driver.ts:71-77 | a key and value pair is written exactly when some field of the form has that key and that defined value, so an undefined value is never written and every defined one is |
| `UlbOidc.EncodedTokenRequest` | src/driver.ts:69-77 | the encoded token body is the five fields in order when the callback has a code, and the other four in order when it has none |
| `UlbOidc.TokenOutcome` | src/driver.ts:79-103 | a transport or decoding error is rethrown; a null body throws a TypeError; any other body goes to the token check, so the outcome succeeds exactly when the body's `access_token` is present and non-empty, and is then the bearer token with that string |
| `UlbOidc.UlbOidcDriver.TokenExchange` | src/driver.ts:79-85 | the token request is a POST to the stored token endpoint, with content type `application/x-www-form-urlencoded`, whose form is the token request form for the callback's code (`grant_type`, `code`, `client_id`, `client_secret`, `redirect_uri`) |
| `UlbOidc.UlbOidcDriver.AccessDenied` | src/driver.ts:64-66 | true exactly when the request's `error` parameter is `access_denied` |
| `UlbOidc.UlbOidcDriver.ProfileUrl` | src/driver.ts:111 | the profile URL is the non-empty `userInfoUrl` override, and for a constructed driver always the stored userinfo endpoint |
| `UlbOidc.ProfileRequest` | src/driver.ts:111-114 | the profile request is a GET to the given URL with `Authorization: Bearer <token>` and `Accept: application/json` |
| `UlbOidc.CheckTokenResponse` | src/driver.ts:96-103 | it succeeds iff `access_token` is present and non-empty, and then gives a bearer token with that exact string; otherwise it throws the no-token error |
| `UlbOidc.CheckTokenResponseIgnoresOtherFields` | src/driver.ts:87-103 | only `access_token` decides the outcome of the token check |
| `UlbOidc.CheckTokenResponseRoundTrip` | src/driver.ts:100-103 | a reply carrying a token's non-empty string gives back exactly that bearer token |
| `UlbOidc.UlbOidcDriver.AccessToken` | src/driver.ts:68-104 | posts the token form, form-encoded, to the stored token endpoint; rethrows a transport or decoding error; a null body throws; otherwise applies the token check |
| `UlbOidc.UlbOidcDriver.User` | src/driver.ts:106-152 | the token is obtained first; if that fails, only the token POST was sent and its error is returned; otherwise exactly one GET follows, to the resolved userinfo URL, with `Authorization: Bearer <token>` and `Accept: application/json`, and its reply is mapped with the fallback chains or its error rethrown |
| `UlbOidc.UserProfileShape` | src/driver.ts:136-145 | when the token reply carries a non-empty `access_token` and the profile reply a payload, `user()` succeeds, and its record carries that bearer token, non-empty id, nickName and email, state `unsupported`, no avatar, and the payload unchanged |
| `UlbOidc.UlbOidcDriver.UserFromToken` | src/driver.ts:157-184 | one GET with the caller's token as bearer credential; the payload is copied directly and the record carries `{token, type: 'bearer'}` with the caller's string |
| `ProfileMapping.FallbackProfile` | src/driver.ts:136-145 | the record of `user()` always has non-empty id, nickName and email; an empty name means the name claim was falsy; state `unsupported`, no avatar, the payload and the token |
| `ProfileMapping.DirectProfile` | src/driver.ts:171-183 | the directly copied record's id, nickName and email are the `sub`, `preferred_username` and `email` claims unchanged; its name is the rendered given name, then one space, then the rendered family name; state `unsupported`, no avatar, the payload and the token |
| `ProfileMapping.ComposedName` | src/driver.ts:139 | the composed name has no whitespace at either end and is no longer than the two parts and the separating space |
| `ProfileMapping.ProfileOutcome` | src/driver.ts:120-151 | a fetch error is rethrown unchanged; a null payload throws; any payload yields exactly the profile mapped from it with the given token, and only a payload yields a profile |
| `ProfileMapping.FallbackProfileFields` | src/driver.ts:136-145 | id, nickName and email are the first non-empty of (sub, id), (preferred_username, cn), (email, mail), else `unknown`, so they are never empty; the name is the name claim if non-empty, else the composed name; the constant and carried fields |
| `ProfileMapping.ComposedNameAbsent` | src/driver.ts:139 | with both name parts absent, the composed name is `""` |
| `ProfileMapping.ComposedNameOnePart` | src/driver.ts:139 | with one part absent, the composed name is the other part trimmed |
| `ProfileMapping.ComposedNameBothParts` | src/driver.ts:139 | two parts with no outer whitespace are joined by exactly one space |
| `ProfileMapping.FallbackStandardClaims` | src/driver.ts:136-140 | a payload with sub, preferred_username and email maps to those claims, and to an empty name when it has no name claims |
| `ProfileMapping.FallbackAlternateClaims` | src/driver.ts:136-140 | a payload with only id, mail, given and family names maps to id, mail, the joined name and nickName `unknown` |
| `ProfileMapping.DirectProfileName` | src/driver.ts:174 | the direct copy joins present name parts with one space and renders absent parts as `undefined` |
| `ProfileMapping.MappingsAgree` | src/driver.ts:136-140 | the fallback and direct mappings give the same record when sub, preferred_username and email are non-empty, there is no name claim, and the name parts are present and clean |
| `ProfileMapping.MappingsDiverge` | src/driver.ts:171-175 | on a payload with only `id` and `mail`, `userFromToken()` loses the id and email that `user()` recovers, and renders the name `undefined undefined` where `user()` gives `""` |
| `JsValues.Or` | src/driver.ts:48 | `v \|\| fallback` is the one-candidate fallback chain, and never empty when the fallback is not |
| `JsValues.Nullish` | src/driver.ts:139 | `v ?? fallback` agrees with `\|\|` on a non-empty string, keeps `""`, and replaces only an absent value |
| `JsValues.Template` | src/driver.ts:174 | a template literal renders a string as itself and an absent value as a non-empty text, so it is `""` only for `""` |
| `JsValues.IsWhitespace` | src/driver.ts:139 | space, tab, line feed and carriage return are whitespace to `trim`; letters, digits, `@` and `.` are not |
| `JsValues.TrimmedAtShift` | src/driver.ts:139 | putting one whitespace character in front of a string shifts its trimmed slice by one position and leaves its content unchanged |
| `JsValues.FirstTruthy` | src/driver.ts:137-140 | the index of the first candidate that is present and non-empty: all before it are falsy, it is truthy, or there is none |
| `JsValues.FirstNonEmptyNotEmpty` | src/driver.ts:137-140 | a chain ending in a non-empty default never yields `""` |
| `JsValues.FirstNonEmptyOrigin` | src/driver.ts:137-140 | the chain's result is one of its truthy candidates, or the default when none is truthy |
| `JsValues.OrChain2` | src/driver.ts:137-140 | `a \|\| b \|\| d` is the first non-empty of [a, b], else d |
| `JsValues.OrAbsorbs` | src/driver.ts:111 | applying an override to its own resolution changes nothing |
| `JsValues.LeadingWhitespace` | src/driver.ts:139 | the length of the whitespace prefix: all of it whitespace, the next character not |
| `JsValues.TrailingWhitespace` | src/driver.ts:139 | the length of the whitespace suffix: all of it whitespace, the character before it not |
| `JsValues.Trim` | src/driver.ts:139 | `trim` returns a slice whose outside is all whitespace and whose ends are not whitespace |
| `JsValues.TrimmedAtUnique` | src/driver.ts:139 | there is only one such slice, so `trim` is fully determined |
| `JsValues.TrimIs` | src/driver.ts:139 | any slice meeting that description is exactly what `trim` returns |
| `JsValues.TrimClean` | src/driver.ts:139 | a string with non-whitespace ends is its own trim |
| `JsValues.TrimBlank` | src/driver.ts:139 | an all-whitespace string trims to `""` |
| `JsValues.TrimPadRight` | src/driver.ts:139 | a trailing space does not change the trim |
| `JsValues.TrimShift` | src/driver.ts:139 | a leading whitespace character does not change the trim |
| `JsValues.TrimPadLeft` | src/driver.ts:139 | a leading space does not change the trim |
| `OidcTypes.ParseScopeName` | src/driver.ts:16 | parsing a scope's wire name gives the scope back |
| `OidcTypes.ScopeNameParse` | src/driver.ts:16 | exactly the four names openid, profile, email, eduperson parse, each back to itself |
| `HttpRequests.ApiRequest.SetHeader` | src/driver.ts:113-114 | a header call appends that header and changes nothing else |
| `HttpRequests.RedirectRequest.Param` | src/driver.ts:61 | a param call sets that one parameter |
| `LegacyUlbOidc.UlbOidcDriver.constructor` | build/src/driver.js:14-18 | the configuration and request are stored; the endpoints and scopes keep their fixed initial values |
| `LegacyUlbOidc.UlbOidcDriver.ProfileUrl` | build/src/driver.js:24 | the profile URL is the non-empty `userInfoUrl` override, else `https://auth.ulb.be/oidc/oidcProfile` |
| `LegacyUlbOidc.UlbOrigin` | build/src/driver.js:4-6 | each of the three fixed endpoints begins with the origin `https://` + `auth.ulb.be` |
| `LegacyUlbOidc.DefaultAuthorizeIsDerived` | build/src/driver.js:4 | the fixed authorization endpoint is what the current source derives for server `auth.ulb.be` |
| `LegacyUlbOidc.DefaultAccessTokenIsDerived` | build/src/driver.js:5 | the same for the fixed token endpoint |
| `LegacyUlbOidc.DefaultUserInfoIsDerived` | build/src/driver.js:6 | the same for the fixed userinfo endpoint |
| `LegacyUlbOidc.ScopeNames` | build/src/driver.js:13 | the wire names of a scope list, position by position |
| `LegacyUlbOidc.DefaultScopesComplete` | build/src/driver.js:13 | the default scopes are openid, profile, email, eduperson in that order, each once; every provider scope is among them, and each name parses back to its scope |
| `LegacyUlbOidc.AccessDeniedAgrees` | build/src/driver.js:19-21 | the old `accessDenied()` holds iff the `error` parameter is `access_denied`, and it agrees with the current one on the same request |
| `LegacyUlbOidc.UlbOidcDriver.AccessDenied` | build/src/driver.js:19-21 | true exactly when the request's `error` parameter is `access_denied` |
| `LegacyUlbOidc.BearerRequest` | build/src/driver.js:24-25 | the old profile request is a GET to the given URL with `Authorization: Bearer <token>` and no Accept header |
| `LegacyUlbOidc.UlbOidcDriver.User` | build/src/driver.js:22-40 | when the inherited token operation fails, its error is rethrown and no profile request is sent; otherwise one GET with only `Authorization: Bearer <token>` goes to the profile URL, and its payload is copied directly with the token attached |
| `LegacyUlbOidc.LegacyUserProfile` | build/src/driver.js:30-39 | the old record is sub, preferred_username and email as they are, the given and family names joined by one space, state `unsupported`, no avatar, the payload and the token |
| `LegacyUlbOidc.UlbOidcDriver.UserFromToken` | build/src/driver.js:41-61 | one GET with the caller's token as bearer credential, the same direct copy, and `{token, type: 'bearer'}` with the caller's string |

## Left out

- The framework base class `Oauth2Driver` is not part of this model. That
  covers state generation, the state cookie and its comparison, and the
  redirect URL with its joined scopes. It also covers `loadState`, how
  the base class uses the parameter names and endpoint fields, and the
  old build's inherited `accessToken()`, whose outcome `User` takes as a
  parameter. No CSRF property is claimed.
- Network I/O (`fetch`, `httpClient`, `request.get()`, `response.json()`,
  `response.body`, `res.body()`) is replaced by reply parameters. Async
  sequencing is kept only as the order of the sent requests.
- `qs.stringify` percent-encoding is not modelled. The model keeps the
  form object's ordered keys and values. It also keeps the encoder's
  omission of an undefined value (`EncodedFields`), so a callback without
  a code posts four fields.
- The caller's optional `callback(request)` hook is left out, because it
  may change the request arbitrarily.
- The logging calls are left out. So is the `response.text()` call that
  only logs the raw body. That call is awaited inside the `try` of `user()`,
  so the model's profile reply `Failure` must stand for any rejection there,
  including one from `text()`.
- The `ulbOidcService` factory is a closure around the constructor and is
  left out.
- `build/src/driver.d.ts` contains declarations only.
- A decoded JSON body is modelled as absent (`null`) or an object. A body
  that is some other JSON value (a number, string or array) has no claims,
  and the model does not cover it.
- Claims are modelled as absent or a string. A claim holding a number,
  boolean or object is not modelled, and neither are claims other than
  the nine the driver reads. So `original` carries those nine claims.
  A JSON `null` claim is modelled as absent, although the direct copy of
  `userFromToken()` renders it as `null` in the name, not `undefined`.
- Request parameters are modelled as a map from names to strings. A
  repeated `code` parameter, which `request.input('code')` returns as an
  array and the form encoder writes as `code[0]=…`, is not modelled.
- Headers are modelled as the sequence of `header(...)` calls, one call
  per header name.
