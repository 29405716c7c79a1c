/**
 * `UlbOidcDriver` of the older compiled build: fixed ULB endpoints, a
 * default scope list, and profile operations that copy claims without
 * fallbacks. Its `accessToken()` is the framework base class's and is not
 * part of this model: `user()` receives its outcome as a parameter.
 */
module LegacyUlbOidc {
  import opened Wrappers
  import opened JsValues
  import opened OidcTypes
  import opened HttpRequests
  import opened ProfileMapping
  import UlbOidc

  const DefaultAuthorizeUrl: string := "https://auth.ulb.be/oidc/oidcAuthorize"
  const DefaultAccessTokenUrl: string := "https://auth.ulb.be/oidc/oidcAccessToken"
  const DefaultUserInfoUrl: string := "https://auth.ulb.be/oidc/oidcProfile"

  /** The provider host the defaults point at. */
  const UlbServer: string := "auth.ulb.be"

  /** The scopes requested when the caller names none. */
  const DefaultScopes: seq<Scope> := [OpenId, Profile, Email, EduPerson]

  /** The configuration of this build, which has no server URL. */
  datatype LegacyConfig = LegacyConfig(
    clientId: string,
    clientSecret: string,
    callbackUrl: string,
    authorizeUrl: Option<string>,
    accessTokenUrl: Option<string>,
    userInfoUrl: Option<string>)

  function ScopeNames(scopes: seq<Scope>): (names: seq<string>)
    ensures |names| == |scopes| && forall i :: 0 <= i < |scopes| ==> names[i] == ScopeName(scopes[i])
  {
    if scopes == [] then [] else [ScopeName(scopes[0])] + ScopeNames(scopes[1..])
  }

  /** The profile request of this build: a GET with the bearer credential and no Accept header. */
  function BearerRequest(url: string, token: string): (r: Outbound)
    ensures r.Get? && r.url == url
    ensures HeaderValue(r.headers, "Authorization") == Some("Bearer " + token)
    ensures HeaderValue(r.headers, "Accept") == None
  {
    Get(url, [Header("Authorization", "Bearer " + token)])
  }

  class UlbOidcDriver {
    const config: LegacyConfig
    /** The parameters of the current request (`ctx.request`). */
    const input: map<string, string>
    const authorizeUrl: string := DefaultAuthorizeUrl
    const accessTokenUrl: string := DefaultAccessTokenUrl
    const userInfoUrl: string := DefaultUserInfoUrl
    const scopes: seq<Scope> := DefaultScopes

    // Consumed by the framework base class, which is not part of this model.
    const codeParamName: string := "code"
    const errorParamName: string := "error"
    const stateCookieName: string := "ulb_oidc_oauth_state"
    const stateParamName: string := "state"
    const scopeParamName: string := "scope"
    const scopesSeparator: string := " "

    constructor (input: map<string, string>, config: LegacyConfig)
      ensures this.input == input && this.config == config
    {
      this.input := input;
      this.config := config;
    }

    /** `accessDenied()` */
    function AccessDenied(): (denied: bool)
      ensures denied <==> "error" in input && input["error"] == AccessDeniedCode
    {
      IsAccessDenied(input)
    }

    /** `this.config.userInfoUrl || this.userInfoUrl` */
    function ProfileUrl(): (url: string)
      ensures Truthy(config.userInfoUrl) ==> url == config.userInfoUrl.value
      ensures !Truthy(config.userInfoUrl) ==> url == "https://auth.ulb.be/oidc/oidcProfile"
    {
      Or(config.userInfoUrl, userInfoUrl)
    }

    /**
     * `user()`: when the base class's `accessToken()` throws, the error
     * propagates before any profile request; otherwise one request with the
     * bearer credential is sent and its payload copied without fallbacks.
     */
    method User(accessToken: Result<AccessToken, Failure>, profileReply: Result<Option<UserInfo>, Failure>)
      returns (profile: Result<UserProfile, Failure>, sent: seq<Outbound>)
      ensures accessToken.Failure? ==> sent == [] && profile == Failure(accessToken.error)
      ensures accessToken.Success? ==>
                && sent == [BearerRequest(ProfileUrl(), accessToken.value.token)]
                && profile == ProfileOutcome(Direct, profileReply, accessToken.value)
    {
      if accessToken.Failure? {
        profile := Failure(accessToken.error);
        sent := [];
        return;
      }
      var request := new ApiRequest(ProfileUrl());
      request.SetHeader("Authorization", "Bearer " + accessToken.value.token);
      assert request.headers == [Header("Authorization", "Bearer " + accessToken.value.token)];
      sent := [Get(request.url, request.headers)];
      profile := ProfileOutcome(Direct, profileReply, accessToken.value);
    }

    /** `userFromToken(token)`: the same request and copy, with `{ token, type: 'bearer' }` attached. */
    method UserFromToken(token: string, profileReply: Result<Option<UserInfo>, Failure>)
      returns (profile: Result<UserProfile, Failure>, sent: Outbound)
      ensures sent == BearerRequest(ProfileUrl(), token)
      ensures profile == ProfileOutcome(Direct, profileReply, OidcTypes.AccessToken.AccessToken(token, Bearer))
    {
      var request := new ApiRequest(ProfileUrl());
      request.SetHeader("Authorization", "Bearer " + token);
      sent := Get(request.url, request.headers);
      profile := ProfileOutcome(Direct, profileReply, OidcTypes.AccessToken.AccessToken(token, Bearer));
    }
  }

  lemma UlbOriginLiteral()
    ensures "https://" + UlbServer == "https://auth.ulb.be"
  {
  }

  /** The three fixed endpoints share the origin `https://auth.ulb.be`. */
  lemma UlbOrigin()
    ensures var origin := "https://" + UlbServer;
      && |origin| <= |DefaultAuthorizeUrl| && DefaultAuthorizeUrl[..|origin|] == origin
      && |origin| <= |DefaultAccessTokenUrl| && DefaultAccessTokenUrl[..|origin|] == origin
      && |origin| <= |DefaultUserInfoUrl| && DefaultUserInfoUrl[..|origin|] == origin
  {
    UlbOriginLiteral();
  }

  /** The fixed authorization endpoint is the one the current source derives for the server auth.ulb.be. */
  lemma DefaultAuthorizeIsDerived()
    ensures DefaultAuthorizeUrl == UlbOidc.Endpoint(None, UlbServer, UlbOidc.AuthorizeSuffix)
  {
    UlbOriginLiteral();
    assert "https://auth.ulb.be" + UlbOidc.AuthorizeSuffix == DefaultAuthorizeUrl;
  }

  /** The same holds of the fixed token endpoint. */
  lemma DefaultAccessTokenIsDerived()
    ensures DefaultAccessTokenUrl == UlbOidc.Endpoint(None, UlbServer, UlbOidc.AccessTokenSuffix)
  {
    UlbOriginLiteral();
    assert "https://auth.ulb.be" + UlbOidc.AccessTokenSuffix == DefaultAccessTokenUrl;
  }

  /** The same holds of the fixed userinfo endpoint. */
  lemma DefaultUserInfoIsDerived()
    ensures DefaultUserInfoUrl == UlbOidc.Endpoint(None, UlbServer, UlbOidc.UserInfoSuffix)
  {
    UlbOriginLiteral();
    assert "https://auth.ulb.be" + UlbOidc.UserInfoSuffix == DefaultUserInfoUrl;
  }

  /** The default scopes are the four provider scopes, each once, in this order. */
  lemma DefaultScopesComplete(s: Scope)
    ensures ScopeNames(DefaultScopes) == ["openid", "profile", "email", "eduperson"]
    ensures s in DefaultScopes
    ensures forall i, j :: 0 <= i < j < |DefaultScopes| ==> DefaultScopes[i] != DefaultScopes[j]
    ensures forall i :: 0 <= i < |DefaultScopes| ==> ParseScope(ScopeNames(DefaultScopes)[i]) == Some(DefaultScopes[i])
  {
  }

  /**
   * A successful `user()` is the direct copy of the payload: id, nickName
   * and email are the sub, preferred_username and email claims as they
   * are, and the name joins the given and family names with one space.
   */
  lemma LegacyUserProfile(accessToken: AccessToken, info: UserInfo)
    requires info.givenName.Some? && info.familyName.Some?
    ensures var p := ProfileOutcome(Direct, Success(Some(info)), accessToken);
      && p.Success?
      && p.value.id == info.sub && p.value.nickName == info.preferredUsername && p.value.email == info.email
      && p.value.name == info.givenName.value + " " + info.familyName.value
      && p.value.emailVerificationState == Unsupported && p.value.avatarUrl == None
      && p.value.original == info && p.value.token == accessToken
  {
    DirectProfileName(info, accessToken);
  }

  /** Both builds decide `accessDenied()` identically on the same request. */
  lemma AccessDeniedAgrees(legacy: UlbOidcDriver, current: UlbOidc.UlbOidcDriver)
    requires legacy.input == current.input
    ensures legacy.AccessDenied() == current.AccessDenied()
    ensures legacy.AccessDenied() <==> "error" in legacy.input && legacy.input["error"] == "access_denied"
  {
  }
}
