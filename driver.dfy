/**
 * `UlbOidcDriver` of the current source: endpoint resolution at
 * construction, the redirect and callback checks, the token exchange and
 * the two profile operations. The network is not modelled: each reply the
 * driver awaits is a parameter of the operation that awaits it.
 */
module UlbOidc {
  import opened Wrappers
  import opened JsValues
  import opened OidcTypes
  import opened HttpRequests
  import opened ProfileMapping

  const AuthorizeSuffix: string := "/oidc/oidcAuthorize"
  const AccessTokenSuffix: string := "/oidc/oidcAccessToken"
  const UserInfoSuffix: string := "/oidc/oidcProfile"

  const FormContentType: string := "application/x-www-form-urlencoded"
  const JsonContentType: string := "application/json"

  /** `` `https://${serverUrl}${suffix}` `` */
  function DerivedEndpoint(serverUrl: string, suffix: string): string {
    "https://" + serverUrl + suffix
  }

  /** `override || derived`: the endpoint the constructor stores. */
  function Endpoint(override: Option<string>, serverUrl: string, suffix: string): (url: string)
    ensures url != ""
  {
    Or(override, DerivedEndpoint(serverUrl, suffix))
  }

  /**
   * A non-empty override wins; an absent or empty one gives the URL derived
   * from the server, which starts with the scheme and ends with the suffix.
   */
  lemma EndpointResolution(override: Option<string>, serverUrl: string, suffix: string)
    ensures Truthy(override) ==> Endpoint(override, serverUrl, suffix) == override.value
    ensures !Truthy(override) ==> Endpoint(override, serverUrl, suffix) == "https://" + serverUrl + suffix
    ensures !Truthy(override) ==>
      var url := Endpoint(override, serverUrl, suffix);
      |url| >= 8 + |suffix| && url[..8] == "https://" && url[|url| - |suffix|..] == suffix
  {
  }

  /** The URL `user()` and `userFromToken()` use, `config.userInfoUrl || this.userInfoUrl`, is the resolved one. */
  lemma UserInfoUrlIsResolved(config: Config)
    ensures Or(config.userInfoUrl, Endpoint(config.userInfoUrl, config.serverUrl, UserInfoSuffix))
         == Endpoint(config.userInfoUrl, config.serverUrl, UserInfoSuffix)
  {
    OrAbsorbs(config.userInfoUrl, DerivedEndpoint(config.serverUrl, UserInfoSuffix));
  }

  /** The object encoded as the token request body, in the order of its keys. */
  function TokenRequestForm(config: Config, code: Option<string>): (form: seq<FormField>)
    ensures FormKeys(form) == ["grant_type", "code", "client_id", "client_secret", "redirect_uri"]
  {
    [ FormField("grant_type", Some("authorization_code")),
      FormField("code", code),
      FormField("client_id", Some(config.clientId)),
      FormField("client_secret", Some(config.clientSecret)),
      FormField("redirect_uri", Some(config.callbackUrl)) ]
  }

  function FormKeys(form: seq<FormField>): (keys: seq<string>)
    ensures |keys| == |form| && forall i :: 0 <= i < |form| ==> keys[i] == form[i].key
  {
    if form == [] then [] else [form[0].key] + FormKeys(form[1..])
  }

  /** The value the form gives a key: that of its first field with the key. */
  function FormValue(form: seq<FormField>, key: string): Option<string> {
    if form == [] then None
    else if form[0].key == key then form[0].value
    else FormValue(form[1..], key)
  }

  /**
   * The form names the four parameters of section 4.1.3 of RFC 6749 and the
   * client secret that section 2.3.1 allows in the body, in this order and
   * each once, with the grant type, the callback's code, the client
   * credentials and the callback URL as their values.
   */
  lemma TokenRequestFormFields(config: Config, code: Option<string>)
    ensures var form := TokenRequestForm(config, code);
      && FormKeys(form) == ["grant_type", "code", "client_id", "client_secret", "redirect_uri"]
      && (forall i, j :: 0 <= i < j < |form| ==> form[i].key != form[j].key)
      && FormValue(form, "grant_type") == Some("authorization_code")
      && FormValue(form, "code") == code
      && FormValue(form, "client_id") == Some(config.clientId)
      && FormValue(form, "client_secret") == Some(config.clientSecret)
      && FormValue(form, "redirect_uri") == Some(config.callbackUrl)
  {
    var form := TokenRequestForm(config, code);
    var f2, f3, f4 := form[2..], form[3..], form[4..];
    assert f2 == [form[2]] + f3 && f3 == [form[3]] + f4 && f4 == [form[4]];
    assert FormValue(f4, "redirect_uri") == Some(config.callbackUrl);
    assert FormValue(f3, "client_secret") == Some(config.clientSecret);
    assert FormValue(f3, "redirect_uri") == Some(config.callbackUrl);
    assert FormValue(f2, "client_id") == Some(config.clientId);
    assert FormValue(f2, "client_secret") == Some(config.clientSecret);
    assert FormValue(f2, "redirect_uri") == Some(config.callbackUrl);
    assert form[1..][1..] == f2;
  }

  /** The number of fields of `form` whose value is undefined. */
  function UndefinedCount(form: seq<FormField>): (n: nat)
    ensures n <= |form|
  {
    if form == [] then 0
    else (if form[0].value.None? then 1 else 0) + UndefinedCount(form[1..])
  }

  /**
   * The fields the form encoder writes: exactly the defined ones, in order;
   * a key whose value is undefined is omitted.
   */
  function EncodedFields(form: seq<FormField>): (fields: seq<(string, string)>)
    ensures |fields| == |form| - UndefinedCount(form)
    ensures (forall i :: 0 <= i < |form| ==> form[i].value.Some?) ==> |fields| == |form|
    ensures form != [] && form[0].value.Some? ==> fields != [] && fields[0] == (form[0].key, form[0].value.value)
  {
    if form == [] then []
    else if form[0].value.None? then EncodedFields(form[1..])
    else [(form[0].key, form[0].value.value)] + EncodedFields(form[1..])
  }

  /** A pair is written exactly when some field of the form has that key and that defined value. */
  lemma {:induction false} EncodedFieldsExact(form: seq<FormField>, key: string, value: string)
    ensures (key, value) in EncodedFields(form) <==>
            exists i :: 0 <= i < |form| && form[i] == FormField(key, Some(value))
  {
    if form != [] {
      EncodedFieldsExact(form[1..], key, value);
      if exists i :: 0 <= i < |form| && form[i] == FormField(key, Some(value)) {
        var i :| 0 <= i < |form| && form[i] == FormField(key, Some(value));
        if i > 0 {
          assert form[1..][i - 1] == form[i];
        }
      }
      if exists j :: 0 <= j < |form[1..]| && form[1..][j] == FormField(key, Some(value)) {
        var j :| 0 <= j < |form[1..]| && form[1..][j] == FormField(key, Some(value));
        assert form[j + 1] == form[1..][j];
      }
    }
  }

  /** Encoding a form field by field. */
  lemma EncodedFieldsCons(f: FormField, rest: seq<FormField>)
    ensures EncodedFields([f] + rest)
         == (if f.value.None? then [] else [(f.key, f.value.value)]) + EncodedFields(rest)
  {
    assert ([f] + rest)[1..] == rest;
  }

  /**
   * The encoded token request body: all five fields when the callback
   * carries a code, and the four others, in the same order, when it does not.
   */
  lemma EncodedTokenRequest(config: Config, code: Option<string>)
    ensures code.Some? ==>
              EncodedFields(TokenRequestForm(config, code))
              == [("grant_type", "authorization_code"), ("code", code.value), ("client_id", config.clientId),
                  ("client_secret", config.clientSecret), ("redirect_uri", config.callbackUrl)]
    ensures code.None? ==>
              EncodedFields(TokenRequestForm(config, code))
              == [("grant_type", "authorization_code"), ("client_id", config.clientId),
                  ("client_secret", config.clientSecret), ("redirect_uri", config.callbackUrl)]
  {
    var form := TokenRequestForm(config, code);
    var f4: seq<FormField> := [form[4]];
    var f3 := [form[3]] + f4;
    var f2 := [form[2]] + f3;
    var f1 := [form[1]] + f2;
    assert form == [form[0]] + f1;
    EncodedFieldsCons(form[4], []);
    assert f4 == [form[4]] + [];
    EncodedFieldsCons(form[3], f4);
    EncodedFieldsCons(form[2], f3);
    EncodedFieldsCons(form[1], f2);
    EncodedFieldsCons(form[0], f1);
  }

  /** `if (!tokenResponse.access_token) throw …; return { token, type: 'bearer' }` */
  function CheckTokenResponse(response: TokenResponse): (r: Result<AccessToken, Failure>)
    ensures r.Success? <==> Truthy(response.accessToken)
    ensures r.Success? ==> r.value == AccessToken(response.accessToken.value, Bearer) && r.value.token != ""
    ensures r.Failure? ==> r.error == NoTokenReceived
  {
    if !Truthy(response.accessToken) then Failure(NoTokenReceived)
    else Success(AccessToken(response.accessToken.value, Bearer))
  }

  /** Only the access token of a reply decides the outcome; the other fields are ignored. */
  lemma CheckTokenResponseIgnoresOtherFields(a: TokenResponse, b: TokenResponse)
    requires a.accessToken == b.accessToken
    ensures CheckTokenResponse(a) == CheckTokenResponse(b)
  {
  }

  /** A reply carrying a token string gives back a bearer token with that exact string. */
  lemma CheckTokenResponseRoundTrip(t: AccessToken, r: TokenResponse)
    requires t.token != "" && r.accessToken == Some(t.token)
    ensures CheckTokenResponse(r) == Success(t)
  {
    assert t.tokenType == Bearer;
  }

  /**
   * `accessToken()` as a whole: a thrown fetch or decode error propagates, a
   * null JSON body throws when `access_token` is read, otherwise the body is
   * checked.
   */
  function TokenOutcome(reply: Result<Option<TokenResponse>, Failure>): (r: Result<AccessToken, Failure>)
    ensures reply.Failure? ==> r == Failure(reply.error)
    ensures reply == Success(None) ==> r == Failure(NullPayload)
    ensures r.Success? ==> reply.Success? && reply.value.Some?
                           && Truthy(reply.value.value.accessToken)
                           && r.value == AccessToken(reply.value.value.accessToken.value, Bearer) && r.value.token != ""
    ensures reply.Success? && reply.value.Some? ==> r == CheckTokenResponse(reply.value.value)
  {
    match reply
    case Failure(e) => Failure(e)
    case Success(None) => Failure(NullPayload)
    case Success(Some(response)) => CheckTokenResponse(response)
  }

  /** The profile request of `user()`: a GET carrying the bearer credential and asking for JSON. */
  function ProfileRequest(url: string, token: AccessToken): (r: Outbound)
    ensures r.Get? && r.url == url
    ensures HeaderValue(r.headers, "Authorization") == Some("Bearer " + token.token)
    ensures HeaderValue(r.headers, "Accept") == Some(JsonContentType)
  {
    Get(url, [Header("Authorization", "Bearer " + token.token), Header("Accept", JsonContentType)])
  }

  class UlbOidcDriver {
    const config: Config
    /** The parameters of the current request (`ctx.request`). */
    const input: map<string, string>
    const authorizeUrl: string
    const accessTokenUrl: string
    const userInfoUrl: string

    // Consumed by the framework base class, which is not part of this model.
    const codeParamName: string := "code"
    const errorParamName: string := "error"
    const stateCookieName: string := "ulb_oidc_oauth_state"
    const stateParamName: string := "state"
    const scopeParamName: string := "scope"
    const scopesSeparator: string := " "

    /** Every endpoint is resolved once, from its override or the server URL. */
    ghost predicate Valid() {
      && authorizeUrl == Endpoint(config.authorizeUrl, config.serverUrl, AuthorizeSuffix)
      && accessTokenUrl == Endpoint(config.accessTokenUrl, config.serverUrl, AccessTokenSuffix)
      && userInfoUrl == Endpoint(config.userInfoUrl, config.serverUrl, UserInfoSuffix)
    }

    constructor (input: map<string, string>, config: Config)
      ensures this.input == input && this.config == config && Valid()
    {
      this.input := input;
      this.config := config;
      authorizeUrl := Or(config.authorizeUrl, DerivedEndpoint(config.serverUrl, AuthorizeSuffix));
      accessTokenUrl := Or(config.accessTokenUrl, DerivedEndpoint(config.serverUrl, AccessTokenSuffix));
      userInfoUrl := Or(config.userInfoUrl, DerivedEndpoint(config.serverUrl, UserInfoSuffix));
    }

    /** `config.userInfoUrl || this.userInfoUrl` */
    function ProfileUrl(): (url: string)
      ensures Truthy(config.userInfoUrl) ==> url == config.userInfoUrl.value
      ensures Valid() ==> url == userInfoUrl
    {
      Or(config.userInfoUrl, userInfoUrl)
    }

    /** `configureRedirectRequest`: the redirect asks for an authorization code. */
    method ConfigureRedirectRequest(request: RedirectRequest)
      modifies request
      ensures request.params == old(request.params)["response_type" := "code"]
    {
      request.Param("response_type", "code");
    }

    /** `accessDenied()` */
    function AccessDenied(): (denied: bool)
      ensures denied <==> "error" in input && input["error"] == AccessDeniedCode
    {
      IsAccessDenied(input)
    }

    /** The token exchange POST that `accessToken()` sends: form-encoded, to the stored token endpoint. */
    function TokenExchange(): (r: Outbound)
      ensures r.Post? && r.url == accessTokenUrl
      ensures HeaderValue(r.headers, "Content-Type") == Some(FormContentType)
      ensures FormValue(r.form, "code") == Input(input, "code")
      ensures r.form == TokenRequestForm(config, Input(input, "code"))
    {
      Post(accessTokenUrl, [Header("Content-Type", FormContentType)], TokenRequestForm(config, Input(input, "code")))
    }

    /**
     * `accessToken()`: posts the form to the token endpoint, then either
     * rethrows the error of `reply` or checks the decoded body.
     */
    method AccessToken(reply: Result<Option<TokenResponse>, Failure>) returns (token: Result<AccessToken, Failure>, sent: Outbound)
      ensures sent == Post(accessTokenUrl, [Header("Content-Type", FormContentType)],
                           TokenRequestForm(config, Input(input, "code")))
      ensures token.Success? <==> reply.Success? && reply.value.Some? && Truthy(reply.value.value.accessToken)
      ensures token.Success? ==> token.value == OidcTypes.AccessToken.AccessToken(reply.value.value.accessToken.value, Bearer)
      ensures reply.Failure? ==> token == Failure(reply.error)
      ensures reply == Success(None) ==> token == Failure(NullPayload)
      ensures reply.Success? && reply.value.Some? && !Truthy(reply.value.value.accessToken) ==> token == Failure(NoTokenReceived)
    {
      var code := Input(input, codeParamName);
      var body := TokenRequestForm(config, code);
      sent := Post(accessTokenUrl, [Header("Content-Type", FormContentType)], body);
      token := TokenOutcome(reply);
    }

    /**
     * `user()`: the token is obtained first; when that throws, the error
     * propagates and no profile request is sent. Otherwise the profile
     * request carries the bearer token and asks for JSON, and its reply is
     * mapped with the fallback chains or its error rethrown.
     */
    method User(tokenReply: Result<Option<TokenResponse>, Failure>, profileReply: Result<Option<UserInfo>, Failure>)
      returns (profile: Result<UserProfile, Failure>, sent: seq<Outbound>)
      ensures TokenOutcome(tokenReply).Failure? ==>
                sent == [TokenExchange()] && profile == Failure(TokenOutcome(tokenReply).error)
      ensures TokenOutcome(tokenReply).Success? ==>
                && sent == [TokenExchange(), ProfileRequest(ProfileUrl(), TokenOutcome(tokenReply).value)]
                && profile == ProfileOutcome(Fallback, profileReply, TokenOutcome(tokenReply).value)
    {
      var token, post := AccessToken(tokenReply);
      if token.Failure? {
        profile := Failure(token.error);
        sent := [post];
        return;
      }
      var request := new ApiRequest(ProfileUrl());
      request.SetHeader("Authorization", "Bearer " + token.value.token);
      request.SetHeader("Accept", JsonContentType);
      assert request.headers == [Header("Authorization", "Bearer " + token.value.token), Header("Accept", JsonContentType)];
      sent := [post, Get(request.url, request.headers)];
      profile := ProfileOutcome(Fallback, profileReply, token.value);
    }

    /**
     * `userFromToken(token)`: one request with the caller's token as bearer
     * credential; the payload is copied without fallbacks and the record
     * carries `{ token, type: 'bearer' }`.
     */
    method UserFromToken(token: string, profileReply: Result<Option<UserInfo>, Failure>)
      returns (profile: Result<UserProfile, Failure>, sent: Outbound)
      ensures sent == Get(ProfileUrl(), [Header("Authorization", "Bearer " + token)])
      ensures profile == ProfileOutcome(Direct, profileReply, OidcTypes.AccessToken.AccessToken(token, Bearer))
    {
      var request := new ApiRequest(ProfileUrl());
      request.SetHeader("Authorization", "Bearer " + token);
      sent := Get(request.url, request.headers);
      profile := ProfileOutcome(Direct, profileReply, OidcTypes.AccessToken.AccessToken(token, Bearer));
    }
  }

  /** The stored endpoints are the resolved ones, and the profile URL is the stored userinfo endpoint. */
  lemma DriverEndpoints(d: UlbOidcDriver)
    requires d.Valid()
    ensures d.ProfileUrl() == d.userInfoUrl
    ensures Truthy(d.config.authorizeUrl) ==> d.authorizeUrl == d.config.authorizeUrl.value
    ensures !Truthy(d.config.authorizeUrl) ==> d.authorizeUrl == DerivedEndpoint(d.config.serverUrl, AuthorizeSuffix)
    ensures Truthy(d.config.accessTokenUrl) ==> d.accessTokenUrl == d.config.accessTokenUrl.value
    ensures !Truthy(d.config.accessTokenUrl) ==> d.accessTokenUrl == DerivedEndpoint(d.config.serverUrl, AccessTokenSuffix)
    ensures Truthy(d.config.userInfoUrl) ==> d.userInfoUrl == d.config.userInfoUrl.value
    ensures !Truthy(d.config.userInfoUrl) ==> d.userInfoUrl == DerivedEndpoint(d.config.serverUrl, UserInfoSuffix)
  {
    UserInfoUrlIsResolved(d.config);
  }

  /**
   * `accessDenied()` holds exactly when the error parameter is
   * "access_denied"; no other parameter matters, and no other error code of
   * section 4.1.2.1 of RFC 6749 counts as a denial.
   */
  lemma AccessDeniedExactly(input: map<string, string>, other: map<string, string>)
    ensures IsAccessDenied(input) <==> "error" in input && input["error"] == "access_denied"
    ensures Input(input, "error") == Input(other, "error") ==> (IsAccessDenied(input) <==> IsAccessDenied(other))
    ensures "error" in input && input["error"] in {"invalid_request", "unauthorized_client", "unsupported_response_type",
                                                   "invalid_scope", "server_error", "temporarily_unavailable"}
            ==> !IsAccessDenied(input)
  {
  }

  /**
   * When the token reply carries an access token and the profile reply a payload, `user()`
   * succeeds, with a non-empty bearer token and non-empty id, nickName and email.
   */
  lemma UserProfileShape(tokenReply: Result<Option<TokenResponse>, Failure>, profileReply: Result<Option<UserInfo>, Failure>)
    requires tokenReply.Success? && tokenReply.value.Some? && Truthy(tokenReply.value.value.accessToken)
    requires profileReply.Success? && profileReply.value.Some?
    ensures TokenOutcome(tokenReply).Success?
    ensures ProfileOutcome(Fallback, profileReply, TokenOutcome(tokenReply).value).Success?
    ensures var p := ProfileOutcome(Fallback, profileReply, TokenOutcome(tokenReply).value).value;
      && p.token.token != "" && p.token.tokenType == Bearer && p.token.token == tokenReply.value.value.accessToken.value
      && p.id.Some? && p.id.value != "" && p.nickName.Some? && p.nickName.value != ""
      && p.email.Some? && p.email.value != ""
      && p.emailVerificationState == Unsupported && p.avatarUrl == None
      && p.original == profileReply.value.value
  {
    FallbackProfileFields(profileReply.value.value, TokenOutcome(tokenReply).value);
  }
}
