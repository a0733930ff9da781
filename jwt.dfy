/**
 * The JWT extension's own logic: the role check of `jwt_role_required`, the projection of a
 * token's claims into a `User`, and the guard `init_app` runs before it contacts the OIDC
 * issuer.
 */
module Jwt {
  import opened Wrappers
  import opened Json
  import opened Api
  import opened Flask
  import opened PyStr
  import DefaultSettings

  /**
   * The user a verified token stands for: the token's subject and its realm roles, taken as
   * they are (the dataclass does not check the annotated types).
   */
  datatype User = User(id: Value, roles: Value)

  /**
   * `user_lookup_callback`: `User(id=claims["sub"], roles=claims["realm_access"]["roles"])`.
   * None stands for the KeyError of a missing claim and the TypeError of a `realm_access`
   * claim that is not a dict.
   */
  function UserLookup(claims: map<string, Value>): (r: Option<User>)
    ensures r.Some? <==>
      && "sub" in claims && "realm_access" in claims && claims["realm_access"].JObject?
      && "roles" in claims["realm_access"].fields
    ensures r.Some? ==> r.value.id == claims["sub"]
    ensures r.Some? ==> r.value.roles == claims["realm_access"].fields["roles"]
  {
    if "sub" in claims && "realm_access" in claims && claims["realm_access"].JObject?
      && "roles" in claims["realm_access"].fields
    then Some(User(claims["sub"], claims["realm_access"].fields["roles"]))
    else None
  }

  /** The smallest claims a user can be read from. */
  function UserClaims(u: User): map<string, Value>
  {
    map["sub" := u.id, "realm_access" := JObject(map["roles" := u.roles])]
  }

  /** A user's own claims give the user back. */
  lemma UserLookupRoundTrip(u: User)
    ensures UserLookup(UserClaims(u)) == Some(u)
  {
  }

  /** Claims other than the subject and the realm access do not change the user. */
  lemma UserLookupIgnoresOthers(claims: map<string, Value>, key: string, v: Value)
    requires key != "sub" && key != "realm_access"
    ensures UserLookup(claims[key := v]) == UserLookup(claims)
  {
  }

  /** When the realm roles are a list of strings, the role check is list membership. */
  lemma RealmRolesChecked(claims: map<string, Value>, roles: seq<string>, role: string)
    requires UserLookup(claims).Some? && claims["realm_access"].fields["roles"] == StrList(roles)
    ensures Contains(UserLookup(claims).value.roles, role) == Some(role in roles)
  {
    ContainsInList(roles, role);
  }

  /** What a request to a role-protected endpoint comes to. */
  datatype Outcome<R> =
    | Unauthenticated       // `verify_jwt_in_request` refused the token
    | Raised                // the wrapper let an exception through (KeyError or TypeError)
    | Aborted(error: Abort) // the role check aborted the request
    | Handled(result: R)    // the endpoint ran and returned `result`

  /** The error for an endpoint whose role the configuration does not allow. */
  const ROLE_NOT_ALLOWED := "Endpoint required role is not an allowed role!"

  /** The error for a user without the endpoint's role. */
  function MissingRoleMessage(role: string): string
  {
    "This endpoint requires the user to have the '" + role + "' role!"
  }

  /** `role in current_app.config["ALLOWED_ROLES"]` holds (and raises nothing). */
  predicate RoleAllowed(config: Config, role: string)
  {
    "ALLOWED_ROLES" in config && Contains(config["ALLOWED_ROLES"], role) == Some(true)
  }

  /**
   * The wrapper `jwt_role_required(role)` puts around an endpoint: the token must verify,
   * the role must be in `ALLOWED_ROLES` (else 500, whatever the user holds), and in the
   * user's roles (else 403); then the endpoint's own result is passed through. A missing
   * `ALLOWED_ROLES` and a membership test on None, a bool or an int raise.
   */
  function RoleRequired<R>(tokenValid: bool, config: Config, user: User, role: string, result: R)
    : (r: Outcome<R>)
    ensures r.Handled? <==> tokenValid && RoleAllowed(config, role) && Contains(user.roles, role) == Some(true)
    ensures r.Handled? ==> r.result == result
    ensures !tokenValid ==> r == Unauthenticated
    ensures tokenValid && ("ALLOWED_ROLES" !in config || Contains(config["ALLOWED_ROLES"], role).None?) ==>
      r == Raised
    ensures tokenValid && "ALLOWED_ROLES" in config && Contains(config["ALLOWED_ROLES"], role) == Some(false) ==>
      r == Aborted(Abort(INTERNAL_SERVER_ERROR, ROLE_NOT_ALLOWED))
    ensures tokenValid && RoleAllowed(config, role) && Contains(user.roles, role).None? ==> r == Raised
    ensures tokenValid && RoleAllowed(config, role) && Contains(user.roles, role) == Some(false) ==>
      r == Aborted(Abort(FORBIDDEN, MissingRoleMessage(role)))
  {
    if !tokenValid then Unauthenticated
    else if "ALLOWED_ROLES" !in config then Raised
    else
      match Contains(config["ALLOWED_ROLES"], role)
      case None => Raised
      case Some(false) => Aborted(AbortWith(INTERNAL_SERVER_ERROR, Some(ROLE_NOT_ALLOWED)))
      case Some(true) =>
        match Contains(user.roles, role)
        case None => Raised
        case Some(false) => Aborted(AbortWith(FORBIDDEN, Some(MissingRoleMessage(role))))
        case Some(true) => Handled(result)
  }

  /** Membership in the stored list is membership in the list of strings it was made from. */
  lemma RoleAllowedByList(config: Config, roles: seq<string>, role: string)
    requires "ALLOWED_ROLES" in config && config["ALLOWED_ROLES"] == StrList(roles)
    ensures RoleAllowed(config, role) <==> role in roles
  {
    ContainsInList(roles, role);
  }

  /**
   * An `ALLOWED_ROLES` override given as one comma-separated string still admits every role
   * it lists, and the empty role too: the test is then a substring test.
   */
  lemma StringAllowList(config: Config, roles: seq<string>)
    requires "ALLOWED_ROLES" in config && config["ALLOWED_ROLES"] == JStr(Join(roles, ','))
    ensures forall role :: role in roles ==> RoleAllowed(config, role)
    ensures RoleAllowed(config, "")
  {
    var s := Join(roles, ',');
    JoinedPiecesOccur(roles, ',');
    assert s[0..0] == "";
  }

  /** A string allow-list also admits any fragment of a role it lists. */
  lemma StringAllowListAdmitsFragments()
    ensures RoleAllowed(map["ALLOWED_ROLES" := JStr("user,admin")], "min")
    ensures "min" !in ["user", "admin"]
  {
    assert "user,admin"[7..10] == "min";
  }

  /**
   * With `ALLOWED_ROLES` unset, production and staging allow only the empty role, so every
   * endpoint guarded by a role answers 500; locally and in tests "user" and "admin" pass.
   */
  lemma DefaultAllowedRoles(
    e: DefaultSettings.Environment, env: DefaultSettings.Environ, title: string, version: string, client: string, role: string)
    requires "ALLOWED_ROLES" !in env
    ensures var config := DefaultSettings.EnvironmentDefaults(e, env, title, version, client);
      RoleAllowed(config, role) <==> if e.Prod? || e.Stage? then role == "" else role in ["user", "admin"]
  {
    var config := DefaultSettings.EnvironmentDefaults(e, env, title, version, client);
    DefaultSettings.RolesAndPublicUrl(e, env, title, version, client);
    RoleAllowedByList(config, DefaultSettings.RolesDefault(e), role);
  }

  /** The error `init_app` raises when no OIDC issuer is configured. */
  const ISSUER_UNSET := "The \"OIDC_ISSUER_URL\" environment variable must be set when running with the in this Flask environment!"

  /**
   * The check at the start of `init_app`: a configured issuer is handed on to the OIDC
   * discovery requests; an issuer of None is refused before any request is made.
   */
  function InitAppGuard(config: Config): (r: Result<Value, string>)
    requires "OIDC_ISSUER_URL" in config
    ensures r.Failure? <==> config["OIDC_ISSUER_URL"] == JNull
    ensures r.Failure? ==> r.error == ISSUER_UNSET
    ensures r.Success? ==> r.value == config["OIDC_ISSUER_URL"]
  {
    if config["OIDC_ISSUER_URL"] == JNull then Failure(ISSUER_UNSET) else Success(config["OIDC_ISSUER_URL"])
  }

  /**
   * With the defaults of an environment, `init_app` refuses to start exactly when the issuer
   * variable is unset outside tests; in tests it goes on with the "TESTING" issuer.
   */
  lemma IssuerRequired(
    e: DefaultSettings.Environment, env: DefaultSettings.Environ, title: string, version: string, client: string)
    ensures var config := DefaultSettings.EnvironmentDefaults(e, env, title, version, client);
      "OIDC_ISSUER_URL" in config
      && (InitAppGuard(config).Failure? <==> e != DefaultSettings.Testing && "OIDC_ISSUER_URL" !in env)
      && (e == DefaultSettings.Testing ==> InitAppGuard(config) == Success(JStr("TESTING")))
  {
    DefaultSettings.IssuerDefaults(e, env, title, version, client);
  }

  /**
   * A caller who passes the issuer as an override escapes that refusal: the configuration
   * builds and `init_app` goes on with the given issuer, whatever the environment variable.
   */
  lemma IssuerOverride(
    e: DefaultSettings.Environment, env: DefaultSettings.Environ, title: string, version: string, client: string,
    url: string)
    ensures var r := DefaultSettings.EnvironmentConfig(e, env, title, version, client, [("OIDC_ISSUER_URL", JStr(url))]);
      r.Success? && "OIDC_ISSUER_URL" in r.value && InitAppGuard(r.value) == Success(JStr(url))
  {
    UpperName("OIDC_ISSUER_URL");
    DefaultSettings.SingleOverride(e, env, title, version, client, "OIDC_ISSUER_URL", JStr(url));
  }

  /**
   * Likewise an `ALLOWED_ROLES` override given as a list of strings decides the allowed roles
   * in every environment, whatever the defaults would have been.
   */
  lemma AllowedRolesOverride(
    e: DefaultSettings.Environment, env: DefaultSettings.Environ, title: string, version: string, client: string,
    roles: seq<string>, role: string)
    ensures var r := DefaultSettings.EnvironmentConfig(e, env, title, version, client, [("ALLOWED_ROLES", StrList(roles))]);
      r.Success? && (RoleAllowed(r.value, role) <==> role in roles)
  {
    UpperName("ALLOWED_ROLES");
    DefaultSettings.SingleOverride(e, env, title, version, client, "ALLOWED_ROLES", StrList(roles));
    var config := DefaultSettings.EnvironmentDefaults(e, env, title, version, client)["ALLOWED_ROLES" := StrList(roles)];
    RoleAllowedByList(config, roles, role);
  }
}
