/** The authorization dependencies: fetch the caller's profile and check roles and scopes. */
module AuthDependencies {
  import opened Wrappers
  import opened Errors
  import opened Profile

  /** The request scope the middleware fills: `b2c_profile` holds the profile or `None`. */
  type RequestScope = map<string, Option<AccountProfile>>

  /** `get_profile`. */
  function GetProfile(scope: RequestScope): (r: Result<AccountProfile, Error>)
    ensures "b2c_profile" !in scope ==> r == Failure(KeyError("b2c_profile"))
    ensures "b2c_profile" in scope && scope["b2c_profile"].None? ==> r == Failure(Http(500, "Could not find profile."))
    ensures r.Success? <==> "b2c_profile" in scope && scope["b2c_profile"].Some?
    ensures r.Success? ==> scope["b2c_profile"] == Some(r.value)
  {
    if "b2c_profile" !in scope then Failure(KeyError("b2c_profile"))
    else if scope["b2c_profile"].None? then Failure(Http(500, "Could not find profile."))
    else Success(scope["b2c_profile"].value)
  }

  /** `any(x in have for x in required)`. */
  function AnyIn(required: seq<string>, have: seq<string>): (b: bool)
    ensures b <==> exists i :: 0 <= i < |required| && required[i] in have
  {
    if required == [] then false else required[0] in have || AnyIn(required[1..], have)
  }

  /** `all(x in have for x in required)`. */
  function AllIn(required: seq<string>, have: seq<string>): (b: bool)
    ensures b <==> forall i :: 0 <= i < |required| ==> required[i] in have
  {
    if required == [] then true else required[0] in have && AllIn(required[1..], have)
  }

  /** The check `has_roles(roles)` returns. */
  datatype RoleCheck = RoleCheck(roles: seq<string>)

  /** The check `has_scopes(scopes)` returns. */
  datatype ScopeCheck = ScopeCheck(scopes: seq<string>)

  /** `has_roles`: refuses an empty role list when the dependency is declared. */
  function HasRoles(roles: seq<string>): (r: Result<RoleCheck, Error>)
    ensures r.Failure? <==> roles == []
    ensures r.Failure? ==> r.error == ValueError("Roles must be provided.")
    ensures r.Success? ==> r.value.roles == roles
  {
    if |roles| == 0 then Failure(ValueError("Roles must be provided.")) else Success(RoleCheck(roles))
  }

  /** `has_scopes`: refuses an empty scope list when the dependency is declared. */
  function HasScopes(scopes: seq<string>): (r: Result<ScopeCheck, Error>)
    ensures r.Failure? <==> scopes == []
    ensures r.Failure? ==> r.error == ValueError("Scopes must be provided.")
    ensures r.Success? ==> r.value.scopes == scopes
  {
    if |scopes| == 0 then Failure(ValueError("Scopes must be provided.")) else Success(ScopeCheck(scopes))
  }

  const MissingRolesForbidden := Http(403, "User does not have the required roles.")
  const MissingScopesForbidden := Http(403, "User does not have the required scopes.")

  /** `check_roles`: bots pass; a user passes when holding at least one of the roles. */
  function CheckRoles(check: RoleCheck, profile: AccountProfile): (r: Result<bool, Error>)
    ensures r.Success? ==> r.value
    ensures r.Failure? ==> r.error == MissingRolesForbidden
    ensures !profile.isUser ==> r.Success?
    ensures profile.isUser ==>
      (r.Success? <==> exists i :: 0 <= i < |check.roles| && check.roles[i] in profile.roles)
  {
    if !profile.isUser then Success(true)
    else if !AnyIn(check.roles, profile.roles) then Failure(MissingRolesForbidden)
    else Success(true)
  }

  /** `check_scopes`: every caller, bots included, must hold all of the scopes. */
  function CheckScopes(check: ScopeCheck, profile: AccountProfile): (r: Result<bool, Error>)
    ensures r.Success? ==> r.value
    ensures r.Failure? ==> r.error == MissingScopesForbidden
    ensures r.Success? <==> forall i :: 0 <= i < |check.scopes| ==> check.scopes[i] in profile.scopes
  {
    if !AllIn(check.scopes, profile.scopes) then Failure(MissingScopesForbidden) else Success(true)
  }

  /** Granting a caller more scopes never turns a pass into a refusal. */
  lemma MoreScopesStillPass(check: ScopeCheck, profile: AccountProfile, extra: seq<string>)
    requires CheckScopes(check, profile).Success?
    ensures CheckScopes(check, profile.(scopes := profile.scopes + extra)).Success?
  {
    var wider := profile.(scopes := profile.scopes + extra);
    forall i | 0 <= i < |check.scopes|
      ensures check.scopes[i] in wider.scopes
    {
      assert check.scopes[i] in profile.scopes;
    }
  }

  /** Requiring more scopes never turns a refusal into a pass. */
  lemma MoreRequiredScopesStillRefuse(required: seq<string>, more: seq<string>, profile: AccountProfile)
    requires CheckScopes(ScopeCheck(required), profile).Failure?
    ensures CheckScopes(ScopeCheck(required + more), profile).Failure?
  {
    var i :| 0 <= i < |required| && required[i] !in profile.scopes;
    assert (required + more)[i] == required[i];
  }

  /** Granting a user more roles, or accepting more roles, never turns a pass into a refusal. */
  lemma RoleCheckIsMonotone(required: seq<string>, more: seq<string>, profile: AccountProfile, extra: seq<string>)
    requires CheckRoles(RoleCheck(required), profile).Success?
    ensures CheckRoles(RoleCheck(required), profile.(roles := profile.roles + extra)).Success?
    ensures CheckRoles(RoleCheck(required + more), profile).Success?
  {
    if profile.isUser {
      var i :| 0 <= i < |required| && required[i] in profile.roles;
      assert required[i] in profile.roles + extra;
      assert (required + more)[i] == required[i];
    }
  }
}
