/**
 * The values the ULB OpenID Connect driver works with: its configuration,
 * the scopes it may request, the access token, the JSON replies of the
 * token and userinfo endpoints, the profile it returns, the errors it
 * throws and the HTTP requests it sends.
 */
module OidcTypes {
  import opened Wrappers

  /** The scopes the provider understands (the `UlbOidcScopes` union). */
  datatype Scope = OpenId | Profile | Email | EduPerson

  /** The wire name of a scope. */
  function ScopeName(s: Scope): string {
    match s
    case OpenId => "openid"
    case Profile => "profile"
    case Email => "email"
    case EduPerson => "eduperson"
  }

  /** The scope a wire name denotes, if any. */
  function ParseScope(name: string): Option<Scope> {
    if name == "openid" then Some(OpenId)
    else if name == "profile" then Some(Profile)
    else if name == "email" then Some(Email)
    else if name == "eduperson" then Some(EduPerson)
    else None
  }

  /** Parsing a scope's name gives the scope back. */
  lemma ParseScopeName(s: Scope)
    ensures ParseScope(ScopeName(s)) == Some(s)
  {
  }

  /** Only the four wire names parse, and each one parses to the scope of that name. */
  lemma ScopeNameParse(name: string)
    ensures ParseScope(name).Some? <==> name in {"openid", "profile", "email", "eduperson"}
    ensures ParseScope(name).Some? ==> ScopeName(ParseScope(name).value) == name
  {
  }

  /** The only token type the driver issues. */
  datatype TokenType = Bearer

  /** `UlbOidcAccessToken`: `{ token, type: 'bearer' }`. */
  datatype AccessToken = AccessToken(token: string, tokenType: TokenType)

  /** `UlbOidcConfig`; an optional field is `None` when it is left undefined. */
  datatype Config = Config(
    clientId: string,
    clientSecret: string,
    callbackUrl: string,
    serverUrl: string,
    authorizeUrl: Option<string>,
    accessTokenUrl: Option<string>,
    userInfoUrl: Option<string>)

  /** The decoded JSON body of the token endpoint's reply. */
  datatype TokenResponse = TokenResponse(
    accessToken: Option<string>,
    tokenType: Option<string>,
    refreshToken: Option<string>,
    expiresIn: Option<int>,
    idToken: Option<string>,
    scope: Option<string>)

  /** The claims of the userinfo payload that the driver reads, each absent or a string. */
  datatype UserInfo = UserInfo(
    sub: Option<string>,
    id: Option<string>,
    preferredUsername: Option<string>,
    cn: Option<string>,
    name: Option<string>,
    givenName: Option<string>,
    familyName: Option<string>,
    email: Option<string>,
    mail: Option<string>)

  datatype EmailVerificationState = Verified | Unverified | Unsupported

  /**
   * The user record returned to the host (`AllyUserContract`). `id`,
   * `nickName` and `email` are `None` when they were copied from an absent
   * claim; `avatarUrl` is `None` for `null`.
   */
  datatype UserProfile = UserProfile(
    id: Option<string>,
    nickName: Option<string>,
    name: string,
    email: Option<string>,
    emailVerificationState: EmailVerificationState,
    avatarUrl: Option<string>,
    original: UserInfo,
    token: AccessToken)

  /** What an operation of the driver may throw. */
  datatype Failure =
    | NoTokenReceived      // `new Error('Aucun token reçu')`
    | Transport(cause: string) // a network or decoding error, rethrown as it is
    | NullPayload          // TypeError: reading a field of a null or undefined JSON body

  datatype Header = Header(name: string, value: string)

  /** The value of the first header with the given name, if any. */
  function HeaderValue(headers: seq<Header>, name: string): Option<string> {
    if headers == [] then None
    else if headers[0].name == name then Some(headers[0].value)
    else HeaderValue(headers[1..], name)
  }

  /** One key of the object handed to the form encoder; `None` is an undefined value. */
  datatype FormField = FormField(key: string, value: Option<string>)

  /** An HTTP request the driver sends, as data. */
  datatype Outbound =
    | Post(url: string, headers: seq<Header>, form: seq<FormField>)
    | Get(url: string, headers: seq<Header>)

  /** The error code of section 4.1.2.1 of RFC 6749 for a refused authorization. */
  const AccessDeniedCode: string := "access_denied"

  /** `ctx.request.input(key)`: the value of a request parameter, or undefined. */
  function Input(input: map<string, string>, key: string): Option<string> {
    if key in input then Some(input[key]) else None
  }

  /** `ctx.request.input('error') === 'access_denied'` */
  predicate IsAccessDenied(input: map<string, string>) {
    Input(input, "error") == Some(AccessDeniedCode)
  }
}
