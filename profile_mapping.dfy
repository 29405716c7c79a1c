/**
 * How a userinfo payload becomes the user record: the fallback mapping of
 * `user()` in the current source, and the direct field copy of
 * `userFromToken()` in the current source and of both operations in the
 * older compiled build.
 */
module ProfileMapping {
  import opened Wrappers
  import opened JsValues
  import opened OidcTypes

  /** The default of every fallback chain. */
  const Unknown: string := "unknown"

  /** `` `${given_name ?? ''} ${family_name ?? ''}`.trim() `` */
  function ComposedName(info: UserInfo): (r: string)
    ensures r == [] || (!IsWhitespace(r[0]) && !IsWhitespace(r[|r| - 1]))
    ensures |r| <= |Nullish(info.givenName, "")| + 1 + |Nullish(info.familyName, "")|
  {
    Trim(Nullish(info.givenName, "") + " " + Nullish(info.familyName, ""))
  }

  /** The record `user()` builds: every field with its own `||` chain. */
  function FallbackProfile(info: UserInfo, token: AccessToken): (p: UserProfile)
    ensures p.id.Some? && p.id.value != ""
    ensures p.nickName.Some? && p.nickName.value != ""
    ensures p.email.Some? && p.email.value != ""
    ensures p.name == "" ==> !Truthy(info.name)
    ensures p.emailVerificationState == Unsupported && p.avatarUrl == None
    ensures p.original == info && p.token == token
  {
    UserProfile(
      id := Some(Or(info.sub, Or(info.id, Unknown))),
      nickName := Some(Or(info.preferredUsername, Or(info.cn, Unknown))),
      name := Or(info.name, ComposedName(info)),
      email := Some(Or(info.email, Or(info.mail, Unknown))),
      emailVerificationState := Unsupported,
      avatarUrl := None,
      original := info,
      token := token)
  }

  /** The record built by copying claims as they are, without fallbacks. */
  function DirectProfile(info: UserInfo, token: AccessToken): (p: UserProfile)
    ensures |p.name| == |Template(info.givenName)| + 1 + |Template(info.familyName)|
    ensures p.name[|Template(info.givenName)|] == ' '
    ensures p.name[..|Template(info.givenName)|] == Template(info.givenName)
    ensures p.name[|Template(info.givenName)| + 1..] == Template(info.familyName)
    ensures p.id == info.sub && p.nickName == info.preferredUsername && p.email == info.email
    ensures p.emailVerificationState == Unsupported && p.avatarUrl == None
    ensures p.original == info && p.token == token
  {
    UserProfile(
      id := info.sub,
      nickName := info.preferredUsername,
      name := Template(info.givenName) + " " + Template(info.familyName),
      email := info.email,
      emailVerificationState := Unsupported,
      avatarUrl := None,
      original := info,
      token := token)
  }

  datatype Mapping = Fallback | Direct

  function MapProfile(mapping: Mapping, info: UserInfo, token: AccessToken): UserProfile {
    match mapping
    case Fallback => FallbackProfile(info, token)
    case Direct => DirectProfile(info, token)
  }

  /**
   * The result of the profile fetch: an error of the request or of decoding
   * its body is rethrown unchanged, a null or undefined body throws when its
   * first claim is read, and any other body is mapped.
   */
  function ProfileOutcome(mapping: Mapping, reply: Result<Option<UserInfo>, Failure>, token: AccessToken)
    : (r: Result<UserProfile, Failure>)
    ensures reply.Failure? ==> r == Failure(reply.error)
    ensures reply.Success? && reply.value.None? ==> r == Failure(NullPayload)
    ensures r.Success? ==> reply.Success? && reply.value.Some?
                           && r.value.original == reply.value.value && r.value.token == token
    ensures reply.Success? && reply.value.Some? ==> r == Success(MapProfile(mapping, reply.value.value, token))
  {
    match reply
    case Failure(e) => Failure(e)
    case Success(None) => Failure(NullPayload)
    case Success(Some(info)) => Success(MapProfile(mapping, info, token))
  }

  /**
   * Each field of the fallback record is its first non-empty source claim,
   * else "unknown", so id, nickName and email are never empty; the
   * remaining fields are constants or carried through.
   */
  lemma FallbackProfileFields(info: UserInfo, token: AccessToken)
    ensures var p := FallbackProfile(info, token);
      && p.id == Some(FirstNonEmpty([info.sub, info.id], Unknown))
      && p.nickName == Some(FirstNonEmpty([info.preferredUsername, info.cn], Unknown))
      && p.email == Some(FirstNonEmpty([info.email, info.mail], Unknown))
      && p.id.value != "" && p.nickName.value != "" && p.email.value != ""
      && p.name == (if Truthy(info.name) then info.name.value else ComposedName(info))
      && p.emailVerificationState == Unsupported && p.avatarUrl == None
      && p.original == info && p.token == token
  {
    OrChain2(info.sub, info.id, Unknown);
    OrChain2(info.preferredUsername, info.cn, Unknown);
    OrChain2(info.email, info.mail, Unknown);
    FirstNonEmptyNotEmpty([info.sub, info.id], Unknown);
    FirstNonEmptyNotEmpty([info.preferredUsername, info.cn], Unknown);
    FirstNonEmptyNotEmpty([info.email, info.mail], Unknown);
  }

  /** With neither given nor family name the composed name is "". */
  lemma ComposedNameAbsent(info: UserInfo)
    requires info.givenName.None? && info.familyName.None?
    ensures ComposedName(info) == ""
  {
    TrimBlank(" ");
  }

  /** With only one part, the composed name is that part trimmed: the separating space disappears. */
  lemma ComposedNameOnePart(info: UserInfo)
    ensures info.givenName.Some? && info.familyName.None? ==> ComposedName(info) == Trim(info.givenName.value)
    ensures info.givenName.None? && info.familyName.Some? ==> ComposedName(info) == Trim(info.familyName.value)
  {
    if info.givenName.Some? && info.familyName.None? {
      assert Nullish(info.givenName, "") + " " + Nullish(info.familyName, "") == info.givenName.value + " ";
      TrimPadRight(info.givenName.value);
    }
    if info.givenName.None? && info.familyName.Some? {
      assert Nullish(info.givenName, "") + " " + Nullish(info.familyName, "") == " " + info.familyName.value;
      TrimPadLeft(info.familyName.value);
    }
  }

  /** Two parts with no outer whitespace are joined by one space. */
  lemma ComposedNameBothParts(info: UserInfo)
    requires info.givenName.Some? && info.familyName.Some?
    requires info.givenName.value != "" && !IsWhitespace(info.givenName.value[0])
    requires info.familyName.value != "" && !IsWhitespace(info.familyName.value[|info.familyName.value| - 1])
    ensures ComposedName(info) == info.givenName.value + " " + info.familyName.value
  {
    var s := info.givenName.value + " " + info.familyName.value;
    assert s[0] == info.givenName.value[0];
    assert s[|s| - 1] == info.familyName.value[|info.familyName.value| - 1];
    TrimClean(s);
  }

  /** The direct copy renders an absent name part as "undefined". */
  lemma DirectProfileName(info: UserInfo, token: AccessToken)
    ensures var n := DirectProfile(info, token).name;
      && (info.givenName.Some? && info.familyName.Some? ==> n == info.givenName.value + " " + info.familyName.value)
      && (info.givenName.None? && info.familyName.None? ==> n == "undefined undefined")
  {
  }

  /**
   * The two mappings agree on a payload whose sub, preferred_username and
   * email claims are non-empty, that has no name claim, and whose given and
   * family names are present with no outer whitespace.
   */
  lemma MappingsAgree(info: UserInfo, token: AccessToken)
    requires Truthy(info.sub) && Truthy(info.preferredUsername) && Truthy(info.email)
    requires !Truthy(info.name)
    requires info.givenName.Some? && info.familyName.Some?
    requires info.givenName.value != "" && !IsWhitespace(info.givenName.value[0])
    requires info.familyName.value != "" && !IsWhitespace(info.familyName.value[|info.familyName.value| - 1])
    ensures FallbackProfile(info, token) == DirectProfile(info, token)
  {
    ComposedNameBothParts(info);
  }

  /** A payload on which the two mappings differ in every identity field. */
  lemma MappingsDiverge(token: AccessToken)
    ensures var info := UserInfo(None, Some("u2"), None, None, None, None, None, None, Some("a@b.com"));
      && FallbackProfile(info, token).id == Some("u2") && DirectProfile(info, token).id == None
      && FallbackProfile(info, token).email == Some("a@b.com") && DirectProfile(info, token).email == None
      && FallbackProfile(info, token).name == "" && DirectProfile(info, token).name == "undefined undefined"
  {
    ComposedNameAbsent(UserInfo(None, Some("u2"), None, None, None, None, None, None, Some("a@b.com")));
  }

  /**
   * A payload carrying non-empty sub, preferred_username and email claims
   * and no name claims maps to those claims and an empty name.
   */
  lemma FallbackStandardClaims(info: UserInfo, token: AccessToken)
    requires Truthy(info.sub) && Truthy(info.preferredUsername) && Truthy(info.email)
    requires info.name.None? && info.givenName.None? && info.familyName.None?
    ensures var p := FallbackProfile(info, token);
      p.id == info.sub && p.nickName == info.preferredUsername && p.email == info.email && p.name == ""
      && p.emailVerificationState == Unsupported && p.avatarUrl == None
  {
    ComposedNameAbsent(info);
  }

  /**
   * A payload without sub, preferred_username, cn and email claims falls
   * back to its id and mail claims; its given and family names are joined,
   * and the nickName is "unknown".
   */
  lemma FallbackAlternateClaims(info: UserInfo, token: AccessToken)
    requires info.sub.None? && info.preferredUsername.None? && info.cn.None? && info.email.None? && info.name.None?
    requires Truthy(info.id) && Truthy(info.mail)
    requires info.givenName.Some? && info.familyName.Some?
    requires info.givenName.value != "" && !IsWhitespace(info.givenName.value[0])
    requires info.familyName.value != "" && !IsWhitespace(info.familyName.value[|info.familyName.value| - 1])
    ensures var p := FallbackProfile(info, token);
      p.id == info.id && p.name == info.givenName.value + " " + info.familyName.value
      && p.nickName == Some(Unknown) && p.email == info.mail
  {
    ComposedNameBothParts(info);
  }
}
