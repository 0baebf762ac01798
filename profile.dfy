/**
 * `AccountProfile`: the caller's identity, read from the claims of a verified token. Each claim
 * is a JSON value; a missing claim and a JSON null both read as absent.
 */
module Profile {
  import opened Wrappers
  import opened Errors
  import opened Strings
  import opened Uuids

  /**
   * A JSON claim value. `Number` is a JSON integer; `Other` stands for arrays, objects and JSON
   * numbers that parse as floats (those with a fraction or an exponent), with their rendering.
   */
  datatype Claim = Text(text: string) | Flag(flag: bool) | Number(number: int) | Null | Other(repr: string)

  type Jwt = map<string, Claim>

  /** `jwt.get(key)`. */
  function Get(jwt: Jwt, key: string): Option<Claim> {
    if key in jwt && jwt[key] != Null then Some(jwt[key]) else None
  }

  /**
   * Python's `value == True`: holds for `True` and, since `1 == True` and `1.0 == True`, for the
   * integer 1 and for the float equal to 1, the only float that renders as `1.0`.
   */
  predicate EqualsTrue(value: Option<Claim>) {
    value == Some(Flag(true)) || value == Some(Number(1)) || value == Some(Other("1.0"))
  }

  datatype AccountProfile = AccountProfile(
    userId: Uuid,
    firstName: Option<Claim>,
    lastName: Option<Claim>,
    userName: Option<Claim>,
    isUser: bool,
    roles: seq<string>,
    scopes: seq<string>)

  const MissingOid := AssertionError("Missing oid claim, it is required.")
  const MissingRoles := ValueError("Missing extension_roles claim, it is required for user accounts.")
  const MissingScopes := AssertionError("Missing scp claim, it is required.")

  /** `AccountProfile.__init__`: builds the profile or raises what the constructor raises. */
  function NewAccountProfile(jwt: Jwt): (r: Result<AccountProfile, Error>)
    // The oid claim is required and must parse as a UUID.
    ensures Get(jwt, "oid").None? ==> r == Failure(MissingOid)
    ensures var oid := Get(jwt, "oid"); oid.Some? && !oid.value.Text? ==> r == Failure(AttributeError)
    ensures var oid := Get(jwt, "oid");
      oid.Some? && oid.value.Text? && Parse(oid.value.text).Failure? ==> r == Failure(Parse(oid.value.text).error)
    // With a valid oid: a user must carry roles, roles must be text, and scp must be text.
    ensures var oid := Get(jwt, "oid"); var roles := Get(jwt, "extension_roles");
      oid.Some? && oid.value.Text? && Parse(oid.value.text).Success? ==>
        if roles.None? && EqualsTrue(Get(jwt, "extension_uflag")) then r == Failure(MissingRoles)
        else if roles.Some? && !roles.value.Text? then r == Failure(AttributeError)
        else if Get(jwt, "scp").None? || !Get(jwt, "scp").value.Text? then r == Failure(MissingScopes)
        else r.Success?
    ensures r.Success? ==>
      && Get(jwt, "oid").Some? && Get(jwt, "oid").value.Text?
      && Parse(Get(jwt, "oid").value.text) == Success(r.value.userId)
      && r.value.isUser == EqualsTrue(Get(jwt, "extension_uflag"))
      && r.value.firstName == Get(jwt, "given_name")
      && r.value.lastName == Get(jwt, "family_name")
      && r.value.userName == Get(jwt, "name")
    // Roles are the comma-separated pieces of the claim, or none for a bot without the claim.
    ensures r.Success? && Get(jwt, "extension_roles").None? ==> !r.value.isUser && r.value.roles == []
    ensures r.Success? && Get(jwt, "extension_roles").Some? ==>
      && Get(jwt, "extension_roles").value.Text?
      && Join(r.value.roles, ',') == Get(jwt, "extension_roles").value.text
      && |r.value.roles| >= 1
      && forall i :: 0 <= i < |r.value.roles| ==> ',' !in r.value.roles[i]
    // Scopes are the space-separated pieces of the scp claim.
    ensures r.Success? ==>
      && Get(jwt, "scp").Some? && Get(jwt, "scp").value.Text?
      && Join(r.value.scopes, ' ') == Get(jwt, "scp").value.text
      && |r.value.scopes| >= 1
      && forall i :: 0 <= i < |r.value.scopes| ==> ' ' !in r.value.scopes[i]
  {
    var oid := Get(jwt, "oid");
    if oid.None? then Failure(MissingOid)
    else if !oid.value.Text? then Failure(AttributeError)
    else
      match Parse(oid.value.text)
      case Failure(e) => Failure(e)
      case Success(userId) =>
        var isUser := EqualsTrue(Get(jwt, "extension_uflag"));
        var roleClaim := Get(jwt, "extension_roles");
        if roleClaim.None? && isUser then Failure(MissingRoles)
        else if roleClaim.Some? && !roleClaim.value.Text? then Failure(AttributeError)
        else
          var scp := Get(jwt, "scp");
          if scp.None? || !scp.value.Text? then Failure(MissingScopes)
          else
            var roleText := if roleClaim.Some? then roleClaim.value.text else "";
            JoinSplit(roleText, ',');
            JoinSplit(scp.value.text, ' ');
            var roles := if roleClaim.None? then [] else Split(roleText, ',');
            Success(AccountProfile(
              userId, Get(jwt, "given_name"), Get(jwt, "family_name"), Get(jwt, "name"),
              isUser, roles, Split(scp.value.text, ' ')))
  }

  /**
   * A signed-in user's claims: an oid that parses, a role string, a scope string and the user
   * flag. Any text that parses as the UUID will do for the oid, such as `ToString(u)` (see
   * `Uuids.ParseToString`).
   */
  lemma UserClaimsProfile(u: Uuid, oid: string, roleText: string, scopeText: string)
    requires Parse(oid) == Success(u)
    ensures var jwt := map[
        "oid" := Text(oid),
        "scp" := Text(scopeText),
        "extension_roles" := Text(roleText),
        "extension_uflag" := Flag(true)];
      NewAccountProfile(jwt)
        == Success(AccountProfile(u, None, None, None, true, Split(roleText, ','), Split(scopeText, ' ')))
  {
    var jwt := map[
        "oid" := Text(oid),
        "scp" := Text(scopeText),
        "extension_roles" := Text(roleText),
        "extension_uflag" := Flag(true)];
    assert Get(jwt, "oid") == Some(Text(oid));
    assert Get(jwt, "extension_uflag") == Some(Flag(true));
    assert Get(jwt, "extension_roles") == Some(Text(roleText));
    assert Get(jwt, "scp") == Some(Text(scopeText));
    assert Get(jwt, "given_name") == None && Get(jwt, "family_name") == None && Get(jwt, "name") == None;
  }

  /** The role string of the test user, "Admin,Test", gives the roles Admin and Test. */
  lemma ExampleRoles()
    ensures Split("Admin,Test", ',') == ["Admin", "Test"]
  {
    assert "Admin,Test" == "Admin" + [','] + "Test";
    SplitAfterHead("Admin", ',', "Test");
    SplitWithoutSeparator("Test", ',');
  }

  /** Python's `str` of a non-negative integer. */
  function NatString(n: nat): (s: string)
    ensures |s| >= 1
  {
    if n < 10 then [LowerHexDigits[n]]
    else NatString(n / 10) + [LowerHexDigits[n % 10]]
  }

  /** How an f-string renders a name claim; an absent one renders as `None`. */
  function Render(value: Option<Claim>): string {
    match value
    case None => "None"
    case Some(Text(s)) => s
    case Some(Flag(b)) => if b then "True" else "False"
    case Some(Number(n)) => if n < 0 then "-" + NatString(-n) else NatString(n)
    case Some(Null) => "None"
    case Some(Other(repr)) => repr
  }

  /** `AccountProfile.__str__`: the first and last names separated by a space. */
  function Display(profile: AccountProfile): (s: string)
    ensures var first := Render(profile.firstName);
      && |s| == |first| + 1 + |Render(profile.lastName)|
      && s[..|first|] == first && s[|first|] == ' ' && s[|first| + 1..] == Render(profile.lastName)
  {
    Render(profile.firstName) + " " + Render(profile.lastName)
  }

  /** Names without spaces can be read back from the display string. */
  lemma DisplaySplitsIntoNames(profile: AccountProfile, first: string, last: string)
    requires profile.firstName == Some(Text(first)) && profile.lastName == Some(Text(last))
    requires ' ' !in first && ' ' !in last
    ensures Split(Display(profile), ' ') == [first, last]
  {
    assert Display(profile) == first + [' '] + last;
    SplitAfterHead(first, ' ', last);
    SplitWithoutSeparator(last, ' ');
  }
}
