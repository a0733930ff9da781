# flask-ligand core, modelled in Dafny

flask-ligand is a small library that sets up Flask micro-services. This project models the
parts of it that carry logic of their own and proves what they promise:

- **Environment-layered settings** (`default_settings.dfy`, module `DefaultSettings`). The
  settings start from a base table: the caller's three protected values (`API_TITLE`,
  `API_VERSION`, `OPENAPI_CLIENT_NAME`) and then four groups of defaults, some of them read
  from the process environment. The caller's overrides are then applied in order, each one
  refused if its name is not upper case or is protected. An override named after a
  parameter of the constructor (`self`, `api_title`, `api_version`, `openapi_client_name`)
  never gets that far: Python cannot bind the call and raises a TypeError.
  - `ProdConfig`, `StagingConfig`, `FlaskLocalConfig` and `TestingConfig` each lay their own
    layer under the caller's overrides (`{**layer, **kwargs}`), prefix the title where they
    do, and hand everything on to their parent class.
  - `flask_environment_configurator` picks one of the four by name and loads the result
    into the Flask app.
  - `_DefaultConfig` is a class whose override loop writes into its `settings` map in place.
    The subclass chain is a set of pure functions.
- **Role checks and token users** (`jwt.dfy`, module `Jwt`):
  - the three-way decision of `jwt_role_required`;
  - the projection of token claims into a `User`;
  - the `None` guard at the start of `init_app`.
- **REST helpers** (`api.dfy`, module `Api`):
  - the JSON body of `abort`;
  - `AutoSchema.update`, a loop that writes attributes of a model object in place;
  - `remove_none_values`;
  - `get_or_404` and `first_or_404`.
- **OpenAPI client generator proxy** (`controllers.dfy`, module `Controllers`).
  `get_openapi_client_dl_link` patches the first entry of the document's `servers` array in
  place. It then posts the document to the generator and maps a failed request to a 500.

The Python semantics these rest on are modelled in separate modules:

- `PyStr`: `str.isupper`, `str.split`, `str.join` and the substring test `sub in s`;
- `PyDict`: insertion-ordered dicts, item assignment and `{**a, **b}`;
- `Json`: the values settings hold, and Python's `in` on them;
- `Flask`: `app.config.from_mapping`;
- `Wrappers`: `Option` and `Result`.

Python dicts keep insertion order. The order of the overrides decides which error is
reported, so overrides and layers are sequences of pairs (`PyDict.Dict`). Their mapping is
`PyDict.ToMap`. The process environment is an input map from variable name to value: a
variable that is absent reads as `None`, and one that is set reads as its string.

Two consequences for a deployed service follow from the proofs:

- `Jwt.DefaultAllowedRoles`: in production and staging, with `ALLOWED_ROLES` unset in the
  environment and not overridden by the caller, the only allowed role is the empty string.
  Every request with a valid token to an endpoint guarded by a named role then answers 500.
- `Jwt.IssuerRequired`: outside tests, an `OIDC_ISSUER_URL` that is unset in the environment
  and not overridden by the caller makes `init_app` refuse to start.

A caller's override escapes both (`Jwt.AllowedRolesOverride`, `Jwt.IssuerOverride`).

## Model

| member | source | states |
|---|---|---|
| PyStr.Split | flask_ligand/default_settings.py:41 | `str.split` on one character: never empty (`""` gives `[""]`), no piece holds the separator, and joining the pieces with it gives the string back |
| PyStr.SplitJoin | flask_ligand/default_settings.py:164 | the other round trip: pieces without the separator come back from splitting their join |
| PyStr.UpperName | flask_ligand/default_settings.py:86 | a name that starts with a capital and has no lower-case letter passes `isupper` |
| PyStr.IsUpper | flask_ligand/default_settings.py:86 | `str.isupper` on ASCII: at least one upper-case letter and no lower-case one |
| PyDict.Zip | flask_ligand/default_settings.py:38-42 | a dict literal with distinct names lists them in order, each with its value |
| PyDict.ToMapKeys | flask_ligand/default_settings.py:73-83 | the mapping a dict denotes has exactly the dict's names |
| PyDict.Put | flask_ligand/default_settings.py:88 | `d[k] = v`: an existing name keeps its position, a new one goes last |
| PyDict.PutDenotes | flask_ligand/default_settings.py:88 | `d[k] = v` changes the mapping at `k` only, to `v` |
| PyDict.MergeDenotes | flask_ligand/default_settings.py:118 | the mapping of `{**a, **b}` is that of `b` laid over that of `a` |
| PyDict.Merge | flask_ligand/default_settings.py:118 | `{**a, **b}`: the pairs of `b` written over `a` one by one, in `b`'s order |
| Flask.UpperKeys | flask_ligand/default_settings.py:257 | `from_mapping` copies exactly the upper-case names, with their values |
| Flask.UpperKeysKeepsAll | flask_ligand/default_settings.py:257 | a mapping whose names are all upper case passes `from_mapping`'s filter unchanged |
| Flask.App.FromMapping | flask_ligand/default_settings.py:257 | the app's configuration gains the upper-case settings of the mapping; the extensions are untouched |
| DefaultSettings.GetEnv | flask_ligand/default_settings.py:39 | `os.getenv(name)`: the variable's string, or None when it is unset |
| DefaultSettings.GetEnvOr | flask_ligand/default_settings.py:65 | `os.getenv(name, default)`: the variable's string, or the default when it is unset |
| DefaultSettings.RolesList | flask_ligand/default_settings.py:41 | `os.getenv("ALLOWED_ROLES", ...).split(",")` as a list of strings, the fallback given already split |
| DefaultSettings.SpecOptions | flask_ligand/default_settings.py:70 | `API_SPEC_OPTIONS`: one server entry with the given URL and the description "Public URL" |
| DefaultSettings.LigandDefaults | flask_ligand/default_settings.py:38-42 | the library's group: the public and private URLs from the environment and the split roles |
| DefaultSettings.DbDefaults | flask_ligand/default_settings.py:44-50 | the database group: the URI from the environment and four fixed values |
| DefaultSettings.AuthDefaults | flask_ligand/default_settings.py:52-61 | the auth group: issuer and realm from the environment and six fixed values |
| DefaultSettings.OpenApiDefaults | flask_ligand/default_settings.py:63-71 | the OpenAPI group: generator URL, version and Swagger path from the environment, fixed paths, and the servers option |
| DefaultSettings.ProtectedSettings | flask_ligand/default_settings.py:75-77 | the caller's title, version and client name under their three protected names |
| DefaultSettings.BaseSettings | flask_ligand/default_settings.py:73-83 | the protected values, then the four groups laid over them in order |
| DefaultSettings.RolesListSplits | flask_ligand/default_settings.py:41 | the stored `ALLOWED_ROLES` is the comma-split of the variable, or of the fallback when it is unset |
| DefaultSettings.DefaultRoleLists | flask_ligand/default_settings.py:164 | the fallbacks `""` and `"user,admin"` split into `[""]` and `["user", "admin"]` |
| DefaultSettings.RolesAsWritten | flask_ligand/default_settings.py:197 | each environment's roles are the split of its own fallback string when the variable is unset |
| DefaultSettings.IsRejected | flask_ligand/default_settings.py:86-87 | the loop refuses a name that is not upper case or is one of the three protected names |
| DefaultSettings.RejectionMessage | flask_ligand/default_settings.py:90-92 | the protected-setting error for an upper-case name, otherwise the must-be-uppercase error |
| DefaultSettings.AcceptedPrefix | flask_ligand/default_settings.py:85-92 | the names the loop accepts before meeting a refused one: all accepted, followed by a refused name or the end |
| DefaultSettings.FirstRejected | flask_ligand/default_settings.py:85-92 | the name the loop raises on: none exactly when every name is accepted, otherwise a refused name among the overrides |
| DefaultSettings.FirstRejectedAppend | flask_ligand/default_settings.py:85-92 | over `x + y` the loop reports the refused name of `x` if there is one, otherwise the one of `y` |
| DefaultSettings.FirstRejectedOfMerge | flask_ligand/default_settings.py:118 | `{**a, **b}` presents the loop with the same first refused name as `a`'s names followed by `b`'s |
| DefaultSettings.LayerMergeRejects | flask_ligand/default_settings.py:118 | over a layer of accepted names, merged overrides are refused exactly as the caller's overrides alone |
| DefaultSettings.DefaultConfig.constructor | flask_ligand/default_settings.py:73-83 | the settings start as the protected values, then the four groups of defaults laid over them in order |
| DefaultSettings.DefaultConfig.Override | flask_ligand/default_settings.py:85-92 | the accepted overrides before the first refused one are written in order; that one's error is returned, or none when all pass |
| DefaultSettings.FirstOf | flask_ligand/default_settings.py:23 | the keyword Python's binding stops at: none exactly when no override names a parameter, otherwise a parameter name that occurs with only non-parameter names before it |
| DefaultSettings.AcceptedBind | flask_ligand/default_settings.py:23 | accepted (upper-case) override names never clash with a parameter, all of which are lower case |
| DefaultSettings.ChainBinds | flask_ligand/default_settings.py:99-212 | once the caller's overrides bind, so do the merged ones each subclass hands to its parent |
| DefaultSettings.DefaultConfigResult | flask_ligand/default_settings.py:22-92 | the outcome of `_DefaultConfig(...)`: the binding TypeError, then the first refusal's RuntimeError, else the overrides laid over the base |
| DefaultSettings.BuildDefaultConfig | flask_ligand/default_settings.py:22-92 | constructing `_DefaultConfig`: a TypeError naming the first override that is a parameter; otherwise the first refused override's error, or the overrides laid over the base settings |
| DefaultSettings.LookupEnvironment | flask_ligand/default_settings.py:218-223 | the registry finds exactly the names prod, stage, local and testing, each mapped to the environment of that name |
| DefaultSettings.LookupByName | flask_ligand/default_settings.py:218-223 | every environment is found under its own name |
| DefaultSettings.ProdLayer | flask_ligand/default_settings.py:113-116 | production's layer: the RS256 algorithm and the audience from the environment |
| DefaultSettings.StagingLayer | flask_ligand/default_settings.py:138 | staging's layer: certificate checks off |
| DefaultSettings.FlaskLocalLayer | flask_ligand/default_settings.py:161-172 | the local layer: URLs, roles, database and generator from the environment with local fallbacks, and the servers option |
| DefaultSettings.TestingLayer | flask_ligand/default_settings.py:194-208 | the testing layer: URLs and roles with test fallbacks, the "TESTING" issuer and realm, and fixed test values |
| DefaultSettings.ProdConfigArgs | flask_ligand/default_settings.py:113-120 | `ProdConfig` keeps the title and lays its layer under the overrides; refusals come from the overrides alone |
| DefaultSettings.StagingConfigArgs | flask_ligand/default_settings.py:138-142 | staging prefixes "DEV " and lays its layer over production's and under the overrides |
| DefaultSettings.FlaskLocalConfigArgs | flask_ligand/default_settings.py:161-176 | local ends with title "DEV FLASK LOCAL " + title and layers Prod < Staging < Local < overrides |
| DefaultSettings.LocalTitle | flask_ligand/default_settings.py:176 | staging's prefix laid on local's gives "DEV FLASK LOCAL " |
| DefaultSettings.TestingConfigArgs | flask_ligand/default_settings.py:194-212 | testing prefixes "TESTING " and lays its layer alone under the overrides |
| DefaultSettings.ConfigArgs | flask_ligand/default_settings.py:257 | every environment: its title, its layers under the overrides, and refusals decided by the overrides alone |
| DefaultSettings.EnvironmentConfig | flask_ligand/default_settings.py:218-223 | the outcome of `ENVIRONMENTS[e](title, version, client, **kwargs)`: the binding TypeError, else `_DefaultConfig` on what the class chain hands up |
| DefaultSettings.EnvironmentConfigOutcome | flask_ligand/default_settings.py:85-92 | an environment's configuration fails with a TypeError when an override names a constructor parameter, then with the first refused override's error; otherwise it is defaults + layers + overrides |
| DefaultSettings.ChainOutcome | flask_ligand/default_settings.py:73-120 | `_DefaultConfig` given merged layers and overrides: the caller's first refused override, or base + layers + overrides |
| DefaultSettings.ParameterOverrideRefused | flask_ligand/default_settings.py:23 | an override named `self`, `api_title`, `api_version` or `openapi_client_name` fails the call with a TypeError naming it |
| DefaultSettings.NoOverridesSucceed | flask_ligand/default_settings.py:113-208 | with no overrides every environment builds without error: no layer name is refused |
| DefaultSettings.LayerNamesAccepted | flask_ligand/default_settings.py:113-208 | every layer name is upper case and unprotected |
| DefaultSettings.FirstOffenderReported | flask_ligand/default_settings.py:85-92 | after accepted overrides, the first refused one decides the error, whatever non-parameter names follow it |
| DefaultSettings.ProtectedOverrideRejected | flask_ligand/default_settings.py:87-90 | overriding a protected setting fails with "The '<key>' setting is not allowed to be overridden!" |
| DefaultSettings.ProtectedMessage | flask_ligand/default_settings.py:87-90 | a protected name is refused, and the error is the protected-setting error, not the upper-case one |
| DefaultSettings.LowercaseOverrideRejected | flask_ligand/default_settings.py:86-92 | a name that is not upper case and not a parameter fails with "The setting name '<key>' must be uppercase!" |
| DefaultSettings.BaseProtected | flask_ligand/default_settings.py:73-83 | no group of defaults sets a protected name, so the base keeps the caller's title, version and client name |
| DefaultSettings.ProtectedFromArguments | flask_ligand/default_settings.py:73-90 | with accepted overrides the configuration builds, and its title is the environment's title and its version and client name are the caller's |
| DefaultSettings.OverridePrecedence | flask_ligand/default_settings.py:73-88 | with accepted overrides the configuration builds, and a name's value comes from the overrides, else the layers, else the base; a name none of them sets is absent |
| DefaultSettings.SingleOverride | flask_ligand/default_settings.py:85-88 | one accepted override sets that setting and leaves every other one as the environment's defaults have it |
| DefaultSettings.PublicUrlOverride | flask_ligand/default_settings.py:70-88 | overriding `SERVICE_PUBLIC_URL` changes that setting alone; `API_SPEC_OPTIONS` keeps the URL it was built from |
| DefaultSettings.BaseNamesUpper | flask_ligand/default_settings.py:73-83 | every name in the base settings is upper case |
| DefaultSettings.BaseRolesAndUrl | flask_ligand/default_settings.py:38-83 | the base's roles, public URL and servers option come from the library group and the OpenAPI group |
| DefaultSettings.RolesAndPublicUrl | flask_ligand/default_settings.py:39-206 | per environment, the roles (split variable or `[""]` / `["user","admin"]`), the public URL and the servers option announcing it |
| DefaultSettings.IssuerDefaults | flask_ligand/default_settings.py:53-198 | the issuer is the `OIDC_ISSUER_URL` variable (None when unset), except in tests where it is "TESTING" |
| DefaultSettings.ConfiguratorResult | flask_ligand/default_settings.py:228-259 | the outcome of the configurator call: its own binding TypeError, then the invalid-environment error, then the environment's configuration |
| DefaultSettings.ConfiguratorParameterRefused | flask_ligand/default_settings.py:229-235 | an override named after a parameter of `flask_environment_configurator` fails the call with a TypeError naming it |
| DefaultSettings.UnknownEnvironmentRefused | flask_ligand/default_settings.py:256-259 | a name outside the registry fails with "The specified '<env>' environment is invalid!", whatever the overrides that bind |
| DefaultSettings.KnownEnvironment | flask_ligand/default_settings.py:218-223 | each registered name builds its own environment's configuration |
| DefaultSettings.ConfigNamesUpper | flask_ligand/default_settings.py:257 | with accepted overrides the configuration builds and every name in it is upper case, so Flask's filter drops nothing |
| DefaultSettings.FlaskEnvironmentConfigurator | flask_ligand/default_settings.py:229-259 | on success the app's configuration gains the whole environment configuration; on error (a call that cannot bind included) it is unchanged and the error returned |
| Api.AbortWith | flask_ligand/extensions/api.py:48 | the message is the caller's when truthy, otherwise the status phrase (an empty message too) |
| Api.Body | flask_ligand/extensions/api.py:52-56 | the JSON body of an abort: `code`, `status` and `message` |
| Api.BodyRoundTrip | flask_ligand/extensions/api.py:50-57 | the error body has exactly code, status and message, carrying the status value, its name and the message |
| Api.LoadableFields | flask_ligand/extensions/api.py:104 | the loadable names are exactly the fields that are not dump-only, each once |
| Api.UpdatedAttrs | flask_ligand/extensions/api.py:101-107 | every loadable field takes `data.get(name)` (None when missing); every other attribute keeps its value |
| Api.UpdateIdempotent | flask_ligand/extensions/api.py:101-107 | updating twice from the same data is updating once |
| Api.AutoSchema.Update | flask_ligand/extensions/api.py:101-107 | the object's attributes after the loop are `UpdatedAttrs` of those before |
| Api.RemoveNoneValues | flask_ligand/extensions/api.py:110-112 | keeps exactly the entries whose value is not None, values unchanged |
| Api.RemoveNoneValuesAppend | flask_ligand/extensions/api.py:112 | the filter keeps entry order: filtering a concatenation filters each part |
| Api.RemoveNoneValuesKeeps | flask_ligand/extensions/api.py:112 | a dict without None values passes unchanged |
| Api.RemoveNoneValuesIdempotent | flask_ligand/extensions/api.py:110-112 | applying the filter twice gives what applying it once does |
| Api.GetOr404 | flask_ligand/extensions/api.py:127-139 | the row when found; otherwise a 404 with the description, or "Not Found" when it is absent or empty |
| Api.FirstOr404 | flask_ligand/extensions/api.py:141-151 | the first row when there is one; otherwise a 404 with the description, or "Not Found" |
| PyStr.JoinedPiecesOccur | flask_ligand/extensions/jwt.py:64 | every piece of a joined string occurs in it, so a substring test admits each listed role |
| Json.Contains | flask_ligand/extensions/jwt.py:64-69 | `name in value`: a substring test on a str, element test on a list, key test on a dict, a TypeError on None, bool and int |
| Json.ContainsInList | flask_ligand/extensions/jwt.py:64 | on a list of strings, `in` is membership in those strings |
| Jwt.UserLookup | flask_ligand/extensions/jwt.py:82-96 | a user exactly when `sub` is present and `realm_access` is a dict holding `roles`; its id and roles are those claims as they are |
| Jwt.UserLookupRoundTrip | flask_ligand/extensions/jwt.py:93-96 | a user's own claims give the user back |
| Jwt.UserLookupIgnoresOthers | flask_ligand/extensions/jwt.py:93-96 | claims other than `sub` and `realm_access` do not change the user |
| Jwt.RealmRolesChecked | flask_ligand/extensions/jwt.py:69 | when the realm roles are a list of strings, the user's role check is membership in it |
| Jwt.MissingRoleMessage | flask_ligand/extensions/jwt.py:70 | the 403 message naming the role the user lacks |
| Jwt.RoleAllowed | flask_ligand/extensions/jwt.py:64 | `role in config["ALLOWED_ROLES"]` holds, the setting present and the test raising nothing |
| Jwt.RoleRequired | flask_ligand/extensions/jwt.py:60-72 | the handler runs, its result passed through, exactly when the token verifies, the role is in `ALLOWED_ROLES` and in the user's roles; an unverified token stops first, then a missing or untestable `ALLOWED_ROLES` raises and a role not in it gives 500 whatever the user holds, then untestable user roles raise and a role not in them gives 403 |
| Jwt.RoleAllowedByList | flask_ligand/extensions/jwt.py:64 | `role in config["ALLOWED_ROLES"]` is membership in the list of strings stored there |
| Jwt.StringAllowList | flask_ligand/extensions/jwt.py:64 | an `ALLOWED_ROLES` override given as one comma-joined string admits every role it lists, and the empty role |
| Jwt.StringAllowListAdmitsFragments | flask_ligand/extensions/jwt.py:64 | such a string also admits a fragment such as "min" of "user,admin" that is no listed role |
| Jwt.DefaultAllowedRoles | flask_ligand/extensions/jwt.py:64 | with `ALLOWED_ROLES` unset, production and staging allow only "", local and testing allow "user" and "admin" |
| Jwt.InitAppGuard | flask_ligand/extensions/jwt.py:105-108 | `init_app` refuses exactly an issuer of None, with its fixed error, before any request |
| Jwt.IssuerRequired | flask_ligand/extensions/jwt.py:105-108 | with an environment's defaults, `init_app` refuses exactly when the issuer variable is unset outside tests |
| Jwt.IssuerOverride | flask_ligand/extensions/jwt.py:105-108 | an issuer passed as an override lets the configuration build and `init_app` go on with it, in every environment |
| Jwt.AllowedRolesOverride | flask_ligand/extensions/jwt.py:64 | an `ALLOWED_ROLES` override given as a list of strings builds and decides exactly which roles are allowed, in every environment |
| Controllers.ApiSpec.Document | flask_ligand/controllers.py:54 | the document holds the servers array and every other member of the spec |
| Controllers.ServerEntry | flask_ligand/controllers.py:57-59 | the new server entry has the URL and no other key, so any description is dropped |
| Controllers.RequestBody | flask_ligand/controllers.py:65 | the posted body is exactly `{"spec": ..., "options": ...}` |
| Controllers.Format | flask_ligand/controllers.py:72 | the generator URL as the f-string writes it: the string itself, or "None" |
| Controllers.RequestFailedMessage | flask_ligand/controllers.py:72 | the 500 message naming the generator whose request failed |
| Controllers.GetOpenApiClientDlLink | flask_ligand/controllers.py:27-73 | servers[0] becomes the private or public URL entry, the other entries stay; the generator's answer is returned, or 500 naming the generator |

## Left out

- The process environment is a map from name to string. An unset variable is an absent name, which `os.getenv` turns into None. A set variable always holds a string.
- `tests/unit/test_settings.py:177-198` expects an error for unset variables. The code reads them with `os.getenv`, which gives None, and the model follows the code.
- DefaultSettings.RolesList: each layer's `ALLOWED_ROLES` fallback is stored already split (`[""]`, `["user", "admin"]`). `RolesListSplits`, `DefaultRoleLists` and `RolesAsWritten` prove this equals splitting the fallback string.
- Flask.Config: the configuration is a map, so the order of names in `app.config` is not modelled. Override order is modelled up to the point where it decides the error.
- PyStr.IsUpper: only ASCII letters count as cased characters. Non-ASCII letters, which Python's `isupper` also considers, are not modelled.
- Api.HttpStatus: only the statuses the package uses are modelled: 403, 404 and 500. The `ValueError` that `HTTPStatus(n)` raises for an unknown code is left out.
- Api.AutoSchema: the marshmallow field objects are reduced to their `dump_only` flag, and a model object to a map of attributes. The fields are a dict, so their names are distinct (`PyDict.DistinctKeys`), and the schema members require that.
- DefaultSettings.ConfigError: `MultipleValues` stands for Python's `TypeError: __init__() got multiple values for argument '<name>'`; the exact message text is not modelled.
- The `Blueprint`, `Api`, `Schema` and `SQLCursorPage` wrappers in `flask_ligand/extensions/api.py` are thin library subclasses without logic and are not modelled.
- Jwt.UserLookup: it answers None where Python raises a KeyError or TypeError on claims of the wrong shape. The token's payload is taken to be a dict, as the JWT library decodes it.
- Jwt.RoleRequired: the user is an input; `get_current_user` and the library's own call of the lookup callback are not modelled.
- Json.Contains: `in` on a value holding floats or other Python objects is not modelled; the JSON values cover what settings and claims hold.
- Jwt.RoleRequired: `verify_jwt_in_request` is the input `tokenValid`. Its own error response and the signature checking are not modelled.
- The OIDC discovery and JWKS requests, `RSAAlgorithm.from_jwk` and `JWT.init_app` in `flask_ligand/extensions/jwt.py:110-130` are network and crypto calls and are not modelled.
- Controllers.GetOpenApiClientDlLink: the HTTP POST is the input `post`. It answers the generator's JSON, or None for any request error.
- Controllers.GetOpenApiClientDlLink: `url_path_join` is left out, and the request carries the generator URL and the language instead of the joined URL.
- Controllers.GetOpenApiClientDlLink: the timeouts `(3.05, 10)` and the content-type header are left out.
- Controllers.GetOpenApiClientDlLink: requires a non-empty `servers` array and the three settings each branch reads (`VERIFY_SSL_CERT`, `OPENAPI_GEN_SERVER_URL`, and the private or the public URL) to be present. Python fails with an unhandled exception when one of them is missing; the URL of the branch not taken is not read.
- Controllers.Format: only `str` and `None` generator URLs are formatted into the 500 message.
- The view and CLI callers are not modelled: `flask_ligand/views/openapi.py` calls with `use_private_url=True` and `flask_ligand/cli.py` with `False`. `gen_python_dl_link` and `gen_typescript_dl_link` are not defined in `flask_ligand/controllers.py`, although `flask_ligand/views/openapi.py:11` and `flask_ligand/cli.py:9` import them from it; they are not part of this model.
- The app factory, CORS, extension registration, blueprints, `schemas.py` and the database extension are framework wiring and are not modelled.
