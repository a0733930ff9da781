/**
 * The settings every flask-ligand service starts from, the four environment flavours layered
 * on top of them, the checks on caller-supplied overrides, and the configurator that loads
 * the result into a Flask app.
 */
module DefaultSettings {
  import opened Wrappers
  import opened Json
  import opened PyStr
  import opened PyDict
  import opened Flask

  /** The process environment: a variable that is set maps to its value. */
  type Environ = map<string, string>

  /** `os.getenv(name)`: the value as a string, or None when the variable is unset. */
  function GetEnv(env: Environ, name: string): Value
  {
    if name in env then JStr(env[name]) else JNull
  }

  /** `os.getenv(name, default)`. */
  function GetEnvOr(env: Environ, name: string, default: string): string
  {
    if name in env then env[name] else default
  }

  /**
   * `os.getenv("ALLOWED_ROLES", default).split(",")`, as stored in the settings, with the
   * fallback given already split (`RolesListSplits` shows the two agree).
   */
  function RolesList(env: Environ, fallback: seq<string>): Value
  {
    StrList(if "ALLOWED_ROLES" in env then Split(env["ALLOWED_ROLES"], ',') else fallback)
  }

  /** Splitting the variable or the fallback string is splitting what `os.getenv` returns. */
  lemma RolesListSplits(env: Environ, default: string)
    ensures RolesList(env, Split(default, ',')) == StrList(Split(GetEnvOr(env, "ALLOWED_ROLES", default), ','))
  {
  }

  /** The OpenAPI `servers` option announcing the public URL. */
  function SpecOptions(url: Value): Value
  {
    JObject(map["servers" := JArray([JObject(map["url" := url, "description" := JStr("Public URL")])])])
  }

  // ---------------------------------------------------------------------------------------
  // The base settings
  // ---------------------------------------------------------------------------------------

  /** Settings specific to this library. */
  function LigandDefaults(env: Environ): Dict<Value>
  {
    Zip(LIGAND_KEYS, [GetEnv(env, "SERVICE_PUBLIC_URL"), GetEnv(env, "SERVICE_PRIVATE_URL"), RolesList(env, [""])])
  }

  const LIGAND_KEYS: seq<string> := ["SERVICE_PUBLIC_URL", "SERVICE_PRIVATE_URL", "ALLOWED_ROLES"]

  /** Database settings. */
  function DbDefaults(env: Environ): Dict<Value>
  {
    Zip(DB_KEYS, [GetEnv(env, "SQLALCHEMY_DATABASE_URI"), JBool(false), JBool(false), JStr("migrations"), JBool(false)])
  }

  const DB_KEYS: seq<string> := [
    "SQLALCHEMY_DATABASE_URI", "SQLALCHEMY_TRACK_MODIFICATIONS", "DB_AUTO_UPGRADE", "DB_MIGRATION_DIR",
    "JSON_SORT_KEYS"
  ]

  /** Authentication settings. */
  function AuthDefaults(env: Environ): Dict<Value>
  {
    Zip(AUTH_KEYS, [
      GetEnv(env, "OIDC_ISSUER_URL"), GetEnv(env, "OIDC_REALM"), JBool(true), JStr("headers"),
      JStr("Authorization"), JStr("Bearer"), JStr("message"), JStr("")
    ])
  }

  const AUTH_KEYS: seq<string> := [
    "OIDC_ISSUER_URL", "OIDC_REALM", "VERIFY_SSL_CERT", "JWT_TOKEN_LOCATION", "JWT_HEADER_NAME",
    "JWT_HEADER_TYPE", "JWT_ERROR_MESSAGE_KEY", "JWT_PUBLIC_KEY"
  ]

  /** OpenAPI documentation settings. */
  function OpenApiDefaults(env: Environ): Dict<Value>
  {
    Zip(OPENAPI_KEYS, [
      GetEnv(env, "OPENAPI_GEN_SERVER_URL"),
      JStr(GetEnvOr(env, "OPENAPI_VERSION", "3.0.3")),
      JStr("/"),
      JStr("/openapi/api-spec.json"),
      JStr(GetEnvOr(env, "OPENAPI_SWAGGER_UI_PATH", "/apidocs")),
      JStr("https://cdn.jsdelivr.net/npm/swagger-ui-dist/"),
      SpecOptions(GetEnv(env, "SERVICE_PUBLIC_URL"))
    ])
  }

  const OPENAPI_KEYS: seq<string> := [
    "OPENAPI_GEN_SERVER_URL", "OPENAPI_VERSION", "OPENAPI_URL_PREFIX", "OPENAPI_JSON_PATH",
    "OPENAPI_SWAGGER_UI_PATH", "OPENAPI_SWAGGER_UI_URL", "API_SPEC_OPTIONS"
  ]

  /** The three settings taken from the caller and never overridden. */
  const PROTECTED: seq<string> := ["API_TITLE", "API_VERSION", "OPENAPI_CLIENT_NAME"]

  /** The caller's title, version and client name under the protected names. */
  function ProtectedSettings(title: string, version: string, client: string): Config
  {
    map["API_TITLE" := JStr(title), "API_VERSION" := JStr(version), "OPENAPI_CLIENT_NAME" := JStr(client)]
  }

  /**
   * The dict `_DefaultConfig` starts from: the caller's title, version and client name, then
   * the four groups of defaults, each laid over what comes before it.
   */
  function BaseSettings(env: Environ, title: string, version: string, client: string): Config
  {
    ProtectedSettings(title, version, client) + ToMap(LigandDefaults(env)) + ToMap(DbDefaults(env))
    + ToMap(AuthDefaults(env)) + ToMap(OpenApiDefaults(env))
  }

  // ---------------------------------------------------------------------------------------
  // Overrides
  // ---------------------------------------------------------------------------------------

  /** An override the loop refuses: a name that is not upper case, or a protected one. */
  predicate IsRejected(key: string)
  {
    !IsUpper(key) || key in PROTECTED
  }

  /** Every name in `ks` is accepted as an override. */
  predicate AllAccepted(ks: seq<string>)
  {
    forall i :: 0 <= i < |ks| ==> !IsRejected(ks[i])
  }

  /** The error the loop raises for a refused name. */
  function RejectionMessage(key: string): string
  {
    if !IsUpper(key) then "The setting name '" + key + "' must be uppercase!"
    else "The '" + key + "' setting is not allowed to be overridden!"
  }

  /** How many names the loop accepts before it meets a refused one (all of them if none is). */
  function AcceptedPrefix(ks: seq<string>): (n: nat)
    ensures n <= |ks|
    ensures AllAccepted(ks[..n])
    ensures n < |ks| ==> IsRejected(ks[n])
  {
    if |ks| == 0 then 0
    else if IsRejected(ks[0]) then 0
    else
      var n := 1 + AcceptedPrefix(ks[1..]);
      assert forall i :: 1 <= i < n ==> ks[..n][i] == ks[1..][..n - 1][i - 1];
      n
  }

  /** The first refused name in `ks`, if any. */
  function FirstRejected(ks: seq<string>): (r: Option<string>)
    ensures r.None? <==> AllAccepted(ks)
    ensures r.Some? ==> r.value in ks && IsRejected(r.value)
  {
    var n := AcceptedPrefix(ks);
    assert n == |ks| ==> ks[..n] == ks;
    if n < |ks| then Some(ks[n]) else None
  }

  /** Looking for a refused name in `x + y`: the one in `x` if any, otherwise the one in `y`. */
  lemma {:induction false} FirstRejectedAppend(x: seq<string>, y: seq<string>)
    ensures FirstRejected(x + y) == if FirstRejected(x).Some? then FirstRejected(x) else FirstRejected(y)
  {
    if |x| > 0 {
      FirstRejectedAppend(x[1..], y);
      assert (x + y)[1..] == x[1..] + y;
      assert (x + y)[0] == x[0];
      FirstRejectedStep(x);
      FirstRejectedStep(x + y);
    } else {
      assert x + y == y;
    }
  }

  /** One step of the search for a refused name. */
  lemma FirstRejectedStep(ks: seq<string>)
    requires |ks| > 0
    ensures FirstRejected(ks) == if IsRejected(ks[0]) then Some(ks[0]) else FirstRejected(ks[1..])
  {
  }

  /**
   * Merging overrides into a dict of accepted names (`{**layer, **kwargs}`) keeps the first
   * refused name the loop meets: it looks at `a` first and then at `b`.
   */
  lemma {:induction false} FirstRejectedOfMerge(a: Dict<Value>, b: Dict<Value>)
    ensures FirstRejected(Keys(Merge(a, b))) == FirstRejected(Keys(a) + Keys(b))
    decreases |b|
  {
    if |b| > 0 {
      var a' := Put(a, b[0].0, b[0].1);
      assert Merge(a, b) == Merge(a', b[1..]);
      FirstRejectedOfMerge(a', b[1..]);
      KeysCons(b);
      FirstRejectedPut(Keys(a), b[0].0, Keys(b[1..]));
    } else {
      assert Keys(a) + Keys(b) == Keys(a);
    }
  }

  /** Putting `k` before the names `y` rejects what meeting `k` again after `x` would. */
  lemma FirstRejectedPut(x: seq<string>, k: string, y: seq<string>)
    ensures FirstRejected((if k in x then x else x + [k]) + y) == FirstRejected(x + ([k] + y))
  {
    if k in x {
      FirstRejectedRepeat(x, k, y);
    } else {
      assert (x + [k]) + y == x + ([k] + y);
    }
  }

  lemma FirstRejectedRepeat(x: seq<string>, k: string, y: seq<string>)
    requires k in x
    ensures FirstRejected(x + y) == FirstRejected(x + ([k] + y))
  {
    FirstRejectedAppend(x, y);
    FirstRejectedAppend(x, [k] + y);
    FirstRejectedStep([k] + y);
    assert ([k] + y)[1..] == y;
  }

  /** When the names of `layer` are all accepted, merging overrides over it refuses what they refuse. */
  lemma LayerMergeRejects(layer: Dict<Value>, kwargs: Dict<Value>)
    requires AllAccepted(Keys(layer))
    ensures FirstRejected(Keys(Merge(layer, kwargs))) == FirstRejected(Keys(kwargs))
  {
    FirstRejectedOfMerge(layer, kwargs);
    FirstRejectedAppend(Keys(layer), Keys(kwargs));
  }

  // ---------------------------------------------------------------------------------------
  // Argument binding
  // ---------------------------------------------------------------------------------------

  /** What building a configuration can raise. */
  datatype ConfigError =
    | RuntimeError(message: string)    // raised by the package, with its message
    | MultipleValues(argument: string) // Python's TypeError: a keyword names a parameter already bound

  /**
   * The parameters of every configuration class's `__init__`. They are all bound by position,
   * so an override of the same name is a second value for one of them.
   */
  const INIT_PARAMETERS: seq<string> := ["self", "api_title", "api_version", "openapi_client_name"]

  /** The parameters of `flask_environment_configurator`, bound by position in the same way. */
  const CONFIGURATOR_PARAMETERS: seq<string> := ["app", "environment", "api_title", "api_version", "openapi_client_name"]

  /** The first keyword in `ks` that names one of `params`: the one Python's binding stops at. */
  function FirstOf(ks: seq<string>, params: seq<string>): (r: Option<string>)
    ensures r.None? <==> forall i :: 0 <= i < |ks| ==> ks[i] !in params
    ensures r.Some? ==> r.value in params
    ensures r.Some? ==>
      exists i :: 0 <= i < |ks| && ks[i] == r.value && forall j :: 0 <= j < i ==> ks[j] !in params
  {
    if |ks| == 0 then None
    else if ks[0] in params then Some(ks[0])
    else
      var r := FirstOf(ks[1..], params);
      assert r.Some? ==> var i :| 0 <= i < |ks[1..]| && ks[1..][i] == r.value
        && forall j :: 0 <= j < i ==> ks[1..][j] !in params;
        ks[i + 1] == r.value && forall j :: 0 <= j < i + 1 ==> ks[j] !in params;
      r
  }

  /** No parameter name is upper case, so every accepted override binds as a keyword. */
  lemma ParametersNotUpper()
    ensures forall p :: p in INIT_PARAMETERS ==> !IsUpper(p)
  {
    forall i | 0 <= i < |INIT_PARAMETERS| ensures !IsUpper(INIT_PARAMETERS[i]) {
      assert IsLowerChar(INIT_PARAMETERS[i][0]);
    }
  }

  /** Names that are only refused or accepted upper-case ones never clash with a parameter. */
  lemma AcceptedBind(ks: seq<string>)
    requires AllAccepted(ks)
    ensures FirstOf(ks, INIT_PARAMETERS) == None
  {
    ParametersNotUpper();
  }

  /**
   * The outcome of `_DefaultConfig(title, version, client, **kwargs)`: an override named after
   * a parameter fails the call itself; otherwise the first refused override raises its error,
   * and without one the overrides are laid over the base settings.
   */
  function DefaultConfigResult(env: Environ, title: string, version: string, client: string, kwargs: Dict<Value>)
    : Result<Config, ConfigError>
  {
    match FirstOf(Keys(kwargs), INIT_PARAMETERS)
    case Some(p) => Failure(MultipleValues(p))
    case None =>
      match FirstRejected(Keys(kwargs))
      case Some(key) => Failure(RuntimeError(RejectionMessage(key)))
      case None => Success(BaseSettings(env, title, version, client) + ToMap(kwargs))
  }

  /** `_DefaultConfig`: a dict of settings that its constructor fills in. */
  class DefaultConfig {
    var settings: Config

    /** The base settings, before any override. */
    constructor (env: Environ, title: string, version: string, client: string)
      ensures settings == BaseSettings(env, title, version, client)
    {
      settings := BaseSettings(env, title, version, client);
    }

    /**
     * The override loop: each accepted name is stored in order until a refused one raises
     * its error, leaving the settings stored so far in place.
     */
    method Override(kwargs: Dict<Value>) returns (error: Option<string>)
      modifies this
      ensures var n := AcceptedPrefix(Keys(kwargs));
        settings == old(settings) + ToMap(kwargs[..n])
        && error == (if n < |kwargs| then Some(RejectionMessage(kwargs[n].0)) else None)
    {
      var i := 0;
      while i < |kwargs|
        invariant 0 <= i <= |kwargs|
        invariant forall j :: 0 <= j < i ==> !IsRejected(kwargs[j].0)
        invariant settings == old(settings) + ToMap(kwargs[..i])
      {
        var (key, value) := kwargs[i];
        if IsUpper(key) {
          if key !in PROTECTED {
            ToMapSnoc(kwargs[..i], key, value);
            UnionThenUpdate(old(settings), ToMap(kwargs[..i]), key, value);
            assert kwargs[..i + 1] == kwargs[..i] + [(key, value)];
            settings := settings[key := value];
          } else {
            AcceptedPrefixAt(Keys(kwargs), i);
            return Some("The '" + key + "' setting is not allowed to be overridden!");
          }
        } else {
          AcceptedPrefixAt(Keys(kwargs), i);
          return Some("The setting name '" + key + "' must be uppercase!");
        }
        i := i + 1;
      }
      assert kwargs[..i] == kwargs;
      AcceptedPrefixAt(Keys(kwargs), i);
      error := None;
    }
  }

  /** The search stops at the first refused name after an accepted prefix. */
  lemma {:induction false} AcceptedPrefixAt(ks: seq<string>, i: nat)
    requires i <= |ks| && forall j :: 0 <= j < i ==> !IsRejected(ks[j])
    requires i < |ks| ==> IsRejected(ks[i])
    ensures AcceptedPrefix(ks) == i
  {
  }

  /** Building a `_DefaultConfig`: argument binding, then constructor and override loop. */
  method BuildDefaultConfig(env: Environ, title: string, version: string, client: string, kwargs: Dict<Value>)
    returns (r: Result<Config, ConfigError>)
    ensures r == DefaultConfigResult(env, title, version, client, kwargs)
  {
    var clash := FirstOf(Keys(kwargs), INIT_PARAMETERS);
    if clash.Some? {
      return Failure(MultipleValues(clash.value));
    }
    var config := new DefaultConfig(env, title, version, client);
    var error := config.Override(kwargs);
    ghost var n := AcceptedPrefix(Keys(kwargs));
    if error.Some? {
      return Failure(RuntimeError(error.value));
    }
    assert n == |kwargs| && kwargs[..n] == kwargs;
    return Success(config.settings);
  }

  // ---------------------------------------------------------------------------------------
  // Environments
  // ---------------------------------------------------------------------------------------

  /** The configurations the configurator can build. */
  datatype Environment = Prod | Stage | Local | Testing

  /** The name an environment is selected by. */
  function EnvironmentName(e: Environment): string
  {
    match e
    case Prod => "prod"
    case Stage => "stage"
    case Local => "local"
    case Testing => "testing"
  }

  /** `ENVIRONMENTS[name]`, with None for a missing key. */
  function LookupEnvironment(name: string): (r: Option<Environment>)
    ensures r.Some? <==> name in ["prod", "stage", "local", "testing"]
    ensures r.Some? ==> EnvironmentName(r.value) == name
  {
    if name == "prod" then Some(Prod)
    else if name == "stage" then Some(Stage)
    else if name == "local" then Some(Local)
    else if name == "testing" then Some(Testing)
    else None
  }

  /** Each environment is found under its own name. */
  lemma LookupByName(e: Environment)
    ensures LookupEnvironment(EnvironmentName(e)) == Some(e)
  {
  }

  /** `ProdConfig`'s own settings. */
  function ProdLayer(env: Environ): Dict<Value>
  {
    Zip(PROD_KEYS, [JStr("RS256"), GetEnv(env, "JWT_DECODE_AUDIENCE")])
  }

  const PROD_KEYS: seq<string> := ["JWT_ALGORITHM", "JWT_DECODE_AUDIENCE"]

  /** `StagingConfig`'s own settings. */
  function StagingLayer(): Dict<Value>
  {
    Zip(STAGING_KEYS, [JBool(false)])
  }

  const STAGING_KEYS: seq<string> := ["VERIFY_SSL_CERT"]

  /** `FlaskLocalConfig`'s own settings. */
  function FlaskLocalLayer(env: Environ): Dict<Value>
  {
    Zip(LOCAL_KEYS, [
      JStr(GetEnvOr(env, "SERVICE_PUBLIC_URL", "http://localhost:5000")),
      JStr(GetEnvOr(env, "SERVICE_PRIVATE_URL", "http://localhost:5000")),
      RolesList(env, ["user", "admin"]),
      JStr(GetEnvOr(env, "SQLALCHEMY_DATABASE_URI", "sqlite:///:memory:")),
      JStr(GetEnvOr(env, "OPENAPI_GEN_SERVER_URL", "http://api.openapi-generator.tech")),
      SpecOptions(JStr(GetEnvOr(env, "SERVICE_PUBLIC_URL", "http://localhost:5000")))
    ])
  }

  const LOCAL_KEYS: seq<string> := [
    "SERVICE_PUBLIC_URL", "SERVICE_PRIVATE_URL", "ALLOWED_ROLES", "SQLALCHEMY_DATABASE_URI",
    "OPENAPI_GEN_SERVER_URL", "API_SPEC_OPTIONS"
  ]

  /** `TestingConfig`'s own settings. */
  function TestingLayer(env: Environ): Dict<Value>
  {
    Zip(TESTING_KEYS, [
      JStr(GetEnvOr(env, "SERVICE_PUBLIC_URL", "http://public.url")),
      JStr(GetEnvOr(env, "SERVICE_PRIVATE_URL", "http://private.url")),
      RolesList(env, ["user", "admin"]),
      JStr("TESTING"),
      JStr("TESTING"),
      JBool(false),
      JInt(300),
      JStr("super-duper-secret"),
      JStr("sqlite:///:memory:"),
      JStr("http://openapi.fake.address"),
      SpecOptions(JStr(GetEnvOr(env, "SERVICE_PUBLIC_URL", "http://public.url")))
    ])
  }

  const TESTING_KEYS: seq<string> := [
    "SERVICE_PUBLIC_URL", "SERVICE_PRIVATE_URL", "ALLOWED_ROLES", "OIDC_ISSUER_URL", "OIDC_REALM",
    "VERIFY_SSL_CERT", "JWT_ACCESS_TOKEN_EXPIRES", "JWT_SECRET_KEY", "SQLALCHEMY_DATABASE_URI",
    "OPENAPI_GEN_SERVER_URL", "API_SPEC_OPTIONS"
  ]


  // ---------------------------------------------------------------------------------------
  // The setting names: all upper case, none of the layers' names protected
  // ---------------------------------------------------------------------------------------

  /** Every name in `ks` is upper case. */
  predicate AllUpper(ks: seq<string>)
  {
    forall i :: 0 <= i < |ks| ==> IsUpper(ks[i])
  }

  lemma ProtectedNamesUpper()
    ensures AllUpper(PROTECTED)
  {
    forall i | 0 <= i < |PROTECTED| ensures IsUpper(PROTECTED[i]) { UpperName(PROTECTED[i]); }
  }

  lemma LigandNamesUpper()
    ensures AllUpper(LIGAND_KEYS)
  {
    forall i | 0 <= i < |LIGAND_KEYS| ensures IsUpper(LIGAND_KEYS[i]) { UpperName(LIGAND_KEYS[i]); }
  }

  lemma DbNamesUpper()
    ensures AllUpper(DB_KEYS)
  {
    forall i | 0 <= i < |DB_KEYS| ensures IsUpper(DB_KEYS[i]) { UpperName(DB_KEYS[i]); }
  }

  lemma AuthNamesUpper()
    ensures AllUpper(AUTH_KEYS)
  {
    forall i | 0 <= i < |AUTH_KEYS| ensures IsUpper(AUTH_KEYS[i]) { UpperName(AUTH_KEYS[i]); }
  }

  lemma OpenApiNamesUpper()
    ensures AllUpper(OPENAPI_KEYS)
  {
    forall i | 0 <= i < |OPENAPI_KEYS| ensures IsUpper(OPENAPI_KEYS[i]) { UpperName(OPENAPI_KEYS[i]); }
  }

  lemma ProdNamesAccepted()
    ensures AllAccepted(PROD_KEYS)
  {
    forall i | 0 <= i < |PROD_KEYS| ensures !IsRejected(PROD_KEYS[i]) { UpperName(PROD_KEYS[i]); }
  }

  lemma StagingNamesAccepted()
    ensures AllAccepted(STAGING_KEYS)
  {
    forall i | 0 <= i < |STAGING_KEYS| ensures !IsRejected(STAGING_KEYS[i]) { UpperName(STAGING_KEYS[i]); }
  }

  lemma LocalNamesAccepted()
    ensures AllAccepted(LOCAL_KEYS)
  {
    forall i | 0 <= i < |LOCAL_KEYS| ensures !IsRejected(LOCAL_KEYS[i]) { UpperName(LOCAL_KEYS[i]); }
  }

  lemma TestingNamesAccepted()
    ensures AllAccepted(TESTING_KEYS)
  {
    TestingHeadAccepted();
    TestingTailAccepted();
  }

  lemma TestingHeadAccepted()
    ensures forall i :: 0 <= i < 6 ==> !IsRejected(TESTING_KEYS[i])
  {
    forall i | 0 <= i < 6 ensures !IsRejected(TESTING_KEYS[i]) { UpperName(TESTING_KEYS[i]); }
  }

  lemma TestingTailAccepted()
    ensures forall i :: 6 <= i < |TESTING_KEYS| ==> !IsRejected(TESTING_KEYS[i])
  {
    forall i | 6 <= i < |TESTING_KEYS| ensures !IsRejected(TESTING_KEYS[i]) { UpperName(TESTING_KEYS[i]); }
  }

  lemma ProtectedSettingsUpper(title: string, version: string, client: string)
    ensures forall k :: k in ProtectedSettings(title, version, client) ==> IsUpper(k)
  {
    ProtectedNamesUpper();
    assert forall k :: k in ProtectedSettings(title, version, client) ==> k in PROTECTED;
  }

  /** A dict whose names are all upper case denotes a mapping whose names are all upper case. */
  lemma NamesUpper(d: Dict<Value>)
    requires AllUpper(Keys(d))
    ensures forall k :: k in ToMap(d) ==> IsUpper(k)
  {
    ToMapKeys(d);
  }

  /** Every name in the base settings is upper case, so Flask's `from_mapping` keeps them all. */
  lemma BaseNamesUpper(env: Environ, title: string, version: string, client: string)
    ensures forall k :: k in BaseSettings(env, title, version, client) ==> IsUpper(k)
  {
    ProtectedSettingsUpper(title, version, client);
    LigandNamesUpper();
    NamesUpper(LigandDefaults(env));
    DbNamesUpper();
    NamesUpper(DbDefaults(env));
    AuthNamesUpper();
    NamesUpper(AuthDefaults(env));
    OpenApiNamesUpper();
    NamesUpper(OpenApiDefaults(env));
  }

  // ---------------------------------------------------------------------------------------
  // The environment classes
  // ---------------------------------------------------------------------------------------

  /**
   * What `ProdConfig` hands to `_DefaultConfig`: the title unchanged, and its own layer under
   * the caller's overrides. The layer's names are all accepted, so the overrides alone decide
   * which name is refused.
   */
  function ProdConfigArgs(env: Environ, title: string, kwargs: Dict<Value>): (r: (string, Dict<Value>))
    ensures r.0 == title
    ensures ToMap(r.1) == ToMap(ProdLayer(env)) + ToMap(kwargs)
    ensures FirstRejected(Keys(r.1)) == FirstRejected(Keys(kwargs))
    ensures forall k :: k in Keys(r.1) && k !in Keys(kwargs) ==> !IsRejected(k)
  {
    var layer := ProdLayer(env);
    MergeDenotes(layer, kwargs);
    MergeKeys(layer, kwargs);
    ProdNamesAccepted();
    LayerMergeRejects(layer, kwargs);
    (title, Merge(layer, kwargs))
  }

  /** What `StagingConfig` hands to `ProdConfig`, and through it to `_DefaultConfig`. */
  function StagingConfigArgs(env: Environ, title: string, kwargs: Dict<Value>): (r: (string, Dict<Value>))
    ensures r.0 == "DEV " + title
    ensures ToMap(r.1) == ToMap(ProdLayer(env)) + ToMap(StagingLayer()) + ToMap(kwargs)
    ensures FirstRejected(Keys(r.1)) == FirstRejected(Keys(kwargs))
    ensures forall k :: k in Keys(r.1) && k !in Keys(kwargs) ==> !IsRejected(k)
  {
    var layer := StagingLayer();
    MergeDenotes(layer, kwargs);
    MergeKeys(layer, kwargs);
    StagingNamesAccepted();
    LayerMergeRejects(layer, kwargs);
    UnionAssoc(ToMap(ProdLayer(env)), ToMap(layer), ToMap(kwargs));
    ProdConfigArgs(env, "DEV " + title, Merge(layer, kwargs))
  }

  /** What `FlaskLocalConfig` hands to `StagingConfig`: both title prefixes end up applied. */
  function FlaskLocalConfigArgs(env: Environ, title: string, kwargs: Dict<Value>): (r: (string, Dict<Value>))
    ensures r.0 == "DEV FLASK LOCAL " + title
    ensures ToMap(r.1) == ToMap(ProdLayer(env)) + ToMap(StagingLayer()) + ToMap(FlaskLocalLayer(env)) + ToMap(kwargs)
    ensures FirstRejected(Keys(r.1)) == FirstRejected(Keys(kwargs))
    ensures forall k :: k in Keys(r.1) && k !in Keys(kwargs) ==> !IsRejected(k)
  {
    var layer := FlaskLocalLayer(env);
    MergeDenotes(layer, kwargs);
    MergeKeys(layer, kwargs);
    LocalNamesAccepted();
    LayerMergeRejects(layer, kwargs);
    UnionAssoc(ToMap(ProdLayer(env)) + ToMap(StagingLayer()), ToMap(layer), ToMap(kwargs));
    LocalTitle(title);
    StagingConfigArgs(env, "FLASK LOCAL " + title, Merge(layer, kwargs))
  }

  /** Staging's prefix applied to Local's prefix. */
  lemma LocalTitle(title: string)
    ensures "DEV " + ("FLASK LOCAL " + title) == "DEV FLASK LOCAL " + title
  {
    assert "DEV " + "FLASK LOCAL " == "DEV FLASK LOCAL ";
  }

  /** What `TestingConfig` hands to `_DefaultConfig` directly. */
  function TestingConfigArgs(env: Environ, title: string, kwargs: Dict<Value>): (r: (string, Dict<Value>))
    ensures r.0 == "TESTING " + title
    ensures ToMap(r.1) == ToMap(TestingLayer(env)) + ToMap(kwargs)
    ensures FirstRejected(Keys(r.1)) == FirstRejected(Keys(kwargs))
    ensures forall k :: k in Keys(r.1) && k !in Keys(kwargs) ==> !IsRejected(k)
  {
    var layer := TestingLayer(env);
    MergeDenotes(layer, kwargs);
    MergeKeys(layer, kwargs);
    TestingNamesAccepted();
    LayerMergeRejects(layer, kwargs);
    ("TESTING " + title, Merge(layer, kwargs))
  }

  /** The title each environment shows. */
  function EnvironmentTitle(e: Environment, title: string): string
  {
    match e
    case Prod => title
    case Stage => "DEV " + title
    case Local => "DEV FLASK LOCAL " + title
    case Testing => "TESTING " + title
  }

  /** The environment's layers, each laid over the one it inherits. */
  function LayerSettings(e: Environment, env: Environ): Config
  {
    match e
    case Prod => ToMap(ProdLayer(env))
    case Stage => ToMap(ProdLayer(env)) + ToMap(StagingLayer())
    case Local => ToMap(ProdLayer(env)) + ToMap(StagingLayer()) + ToMap(FlaskLocalLayer(env))
    case Testing => ToMap(TestingLayer(env))
  }

  /** The settings of an environment when the caller overrides nothing. */
  function EnvironmentDefaults(e: Environment, env: Environ, title: string, version: string, client: string): Config
  {
    BaseSettings(env, EnvironmentTitle(e, title), version, client) + LayerSettings(e, env)
  }

  /** `ENVIRONMENTS[name](title, version, client, **kwargs)` up to the call into `_DefaultConfig`. */
  function ConfigArgs(e: Environment, env: Environ, title: string, kwargs: Dict<Value>): (r: (string, Dict<Value>))
    ensures r.0 == EnvironmentTitle(e, title)
    ensures ToMap(r.1) == LayerSettings(e, env) + ToMap(kwargs)
    ensures FirstRejected(Keys(r.1)) == FirstRejected(Keys(kwargs))
    ensures forall k :: k in Keys(r.1) && k !in Keys(kwargs) ==> !IsRejected(k)
  {
    match e
    case Prod => ProdConfigArgs(env, title, kwargs)
    case Stage => StagingConfigArgs(env, title, kwargs)
    case Local => FlaskLocalConfigArgs(env, title, kwargs)
    case Testing => TestingConfigArgs(env, title, kwargs)
  }

  /** The outcome of constructing the configuration class of environment `e`. */
  function EnvironmentConfig(e: Environment, env: Environ, title: string, version: string, client: string, kwargs: Dict<Value>)
    : Result<Config, ConfigError>
  {
    match FirstOf(Keys(kwargs), INIT_PARAMETERS)
    case Some(p) => Failure(MultipleValues(p))
    case None =>
      var args := ConfigArgs(e, env, title, kwargs);
      DefaultConfigResult(env, args.0, version, client, args.1)
  }

  /**
   * Once the caller's overrides bind, so do the ones handed up the class chain: the names
   * the layers add are all upper case.
   */
  lemma ChainBinds(kwargs: Dict<Value>, combined: Dict<Value>)
    requires FirstOf(Keys(kwargs), INIT_PARAMETERS) == None
    requires forall k :: k in Keys(combined) && k !in Keys(kwargs) ==> !IsRejected(k)
    ensures FirstOf(Keys(combined), INIT_PARAMETERS) == None
  {
    ParametersNotUpper();
    forall i | 0 <= i < |Keys(combined)| ensures Keys(combined)[i] !in INIT_PARAMETERS {
      var k := Keys(combined)[i];
      if k in Keys(kwargs) {
        var j :| 0 <= j < |Keys(kwargs)| && Keys(kwargs)[j] == k;
      }
    }
  }

  // ---------------------------------------------------------------------------------------
  // What the environments promise
  // ---------------------------------------------------------------------------------------

  /**
   * Constructing an environment's configuration fails when an override names a parameter of
   * the constructor, then with the error of the first refused override; otherwise the
   * overrides are laid over the environment's defaults.
   */
  lemma EnvironmentConfigOutcome(
    e: Environment, env: Environ, title: string, version: string, client: string, kwargs: Dict<Value>)
    ensures EnvironmentConfig(e, env, title, version, client, kwargs) ==
      match FirstOf(Keys(kwargs), INIT_PARAMETERS)
      case Some(p) => Failure(MultipleValues(p))
      case None =>
        match FirstRejected(Keys(kwargs))
        case Some(key) => Failure(RuntimeError(RejectionMessage(key)))
        case None => Success(EnvironmentDefaults(e, env, title, version, client) + ToMap(kwargs))
  {
    if FirstOf(Keys(kwargs), INIT_PARAMETERS).None? {
      var args := ConfigArgs(e, env, title, kwargs);
      ChainBinds(kwargs, args.1);
      ChainOutcome(env, args.0, version, client, LayerSettings(e, env), kwargs, args.1);
    }
  }

  /** `_DefaultConfig` given the overrides handed up a chain of layers. */
  lemma ChainOutcome(
    env: Environ, title: string, version: string, client: string, layers: Config, kwargs: Dict<Value>,
    combined: Dict<Value>)
    requires FirstOf(Keys(combined), INIT_PARAMETERS) == None
    requires ToMap(combined) == layers + ToMap(kwargs)
    requires FirstRejected(Keys(combined)) == FirstRejected(Keys(kwargs))
    ensures DefaultConfigResult(env, title, version, client, combined) ==
      match FirstRejected(Keys(kwargs))
      case Some(key) => Failure(RuntimeError(RejectionMessage(key)))
      case None => Success(BaseSettings(env, title, version, client) + layers + ToMap(kwargs))
  {
    UnionAssoc(BaseSettings(env, title, version, client), layers, ToMap(kwargs));
  }

  /** An override named after a parameter of the constructor fails the call, naming it. */
  lemma ParameterOverrideRefused(
    e: Environment, env: Environ, title: string, version: string, client: string, key: string, value: Value,
    rest: Dict<Value>)
    requires key in INIT_PARAMETERS
    ensures EnvironmentConfig(e, env, title, version, client, [(key, value)] + rest) == Failure(MultipleValues(key))
  {
    KeysCons([(key, value)] + rest);
  }

  /** Without overrides every environment's configuration is built without error. */
  lemma NoOverridesSucceed(e: Environment, env: Environ, title: string, version: string, client: string)
    ensures EnvironmentConfig(e, env, title, version, client, []) == Success(EnvironmentDefaults(e, env, title, version, client))
  {
    EnvironmentConfigOutcome(e, env, title, version, client, []);
    assert Keys<Value>([]) == [];
  }

  /** After overrides that are all accepted, the first refused one decides the error. */
  lemma FirstOffenderReported(
    e: Environment, env: Environ, title: string, version: string, client: string,
    accepted: Dict<Value>, key: string, value: Value, rest: Dict<Value>)
    requires AllAccepted(Keys(accepted)) && IsRejected(key)
    requires key !in INIT_PARAMETERS && forall k :: k in Keys(rest) ==> k !in INIT_PARAMETERS
    ensures EnvironmentConfig(e, env, title, version, client, accepted + [(key, value)] + rest)
      == Failure(RuntimeError(RejectionMessage(key)))
  {
    EnvironmentConfigOutcome(e, env, title, version, client, accepted + [(key, value)] + rest);
    OffenderFirst(accepted, key, value, rest);
    AcceptedBind(Keys(accepted));
    assert Keys(accepted + [(key, value)] + rest) == Keys(accepted) + ([key] + Keys(rest));
  }

  /** The first refused name of the overrides, as the dict of overrides sees it. */
  lemma OffenderFirst(accepted: Dict<Value>, key: string, value: Value, rest: Dict<Value>)
    requires AllAccepted(Keys(accepted)) && IsRejected(key)
    ensures Keys(accepted + [(key, value)] + rest) == Keys(accepted) + ([key] + Keys(rest))
    ensures FirstRejected(Keys(accepted + [(key, value)] + rest)) == Some(key)
  {
    KeysAppend(accepted + [(key, value)], rest);
    KeysAppend(accepted, [(key, value)]);
    assert Keys(accepted + [(key, value)] + rest) == Keys(accepted) + ([key] + Keys(rest));
    FirstRejectedAfterAccepted(Keys(accepted), key, Keys(rest));
  }

  /** The search passes over accepted names and stops at the first refused one. */
  lemma FirstRejectedAfterAccepted(x: seq<string>, key: string, y: seq<string>)
    requires AllAccepted(x) && IsRejected(key)
    ensures FirstRejected(x + ([key] + y)) == Some(key)
  {
    FirstRejectedAppend(x, [key] + y);
    FirstRejectedStep([key] + y);
  }

  /** Overriding a protected setting fails, naming the setting. */
  lemma ProtectedOverrideRejected(
    e: Environment, env: Environ, title: string, version: string, client: string, key: string, value: Value)
    requires key in PROTECTED
    ensures EnvironmentConfig(e, env, title, version, client, [(key, value)])
      == Failure(RuntimeError("The '" + key + "' setting is not allowed to be overridden!"))
  {
    ProtectedMessage(key);
    ParametersNotUpper();
    FirstOffenderReported(e, env, title, version, client, [], key, value, []);
    assert [] + [(key, value)] + [] == [(key, value)];
  }

  /** A protected name is refused for being protected. */
  lemma ProtectedMessage(key: string)
    requires key in PROTECTED
    ensures IsRejected(key) && IsUpper(key)
    ensures RejectionMessage(key) == "The '" + key + "' setting is not allowed to be overridden!"
  {
    ProtectedNamesUpper();
  }

  /** An override whose name is not upper case fails, naming it. */
  lemma LowercaseOverrideRejected(
    e: Environment, env: Environ, title: string, version: string, client: string, key: string, value: Value)
    requires !IsUpper(key) && key !in INIT_PARAMETERS
    ensures EnvironmentConfig(e, env, title, version, client, [(key, value)])
      == Failure(RuntimeError("The setting name '" + key + "' must be uppercase!"))
  {
    FirstOffenderReported(e, env, title, version, client, [], key, value, []);
    assert [] + [(key, value)] + [] == [(key, value)];
  }

  /** A dict whose names are all accepted denotes a mapping without a protected name. */
  lemma AcceptedNames(d: Dict<Value>)
    requires AllAccepted(Keys(d))
    ensures forall k :: k in ToMap(d) ==> !IsRejected(k)
  {
    ToMapKeys(d);
  }

  /** No layer sets a protected name, or one that is not upper case. */
  lemma LayerNamesAccepted(e: Environment, env: Environ)
    ensures forall k :: k in LayerSettings(e, env) ==> !IsRejected(k)
  {
    ProdNamesAccepted();
    AcceptedNames(ProdLayer(env));
    StagingNamesAccepted();
    AcceptedNames(StagingLayer());
    LocalNamesAccepted();
    AcceptedNames(FlaskLocalLayer(env));
    TestingNamesAccepted();
    AcceptedNames(TestingLayer(env));
  }

  lemma LigandUnprotected(env: Environ)
    ensures forall p :: p in PROTECTED ==> p !in ToMap(LigandDefaults(env))
  {
    ToMapKeys(LigandDefaults(env));
    assert forall p :: p in PROTECTED ==> p !in LIGAND_KEYS;
  }

  lemma DbUnprotected(env: Environ)
    ensures forall p :: p in PROTECTED ==> p !in ToMap(DbDefaults(env))
  {
    ToMapKeys(DbDefaults(env));
    assert forall p :: p in PROTECTED ==> p !in DB_KEYS;
  }

  lemma AuthUnprotected(env: Environ)
    ensures forall p :: p in PROTECTED ==> p !in ToMap(AuthDefaults(env))
  {
    ToMapKeys(AuthDefaults(env));
    assert forall p :: p in PROTECTED ==> p !in AUTH_KEYS;
  }

  lemma OpenApiUnprotected(env: Environ)
    ensures forall p :: p in PROTECTED ==> p !in ToMap(OpenApiDefaults(env))
  {
    ToMapKeys(OpenApiDefaults(env));
    assert forall p :: p in PROTECTED ==> p !in OPENAPI_KEYS;
  }

  /** No group of defaults sets a protected name, so the base settings keep the caller's three values. */
  lemma BaseProtected(env: Environ, title: string, version: string, client: string)
    ensures var base := BaseSettings(env, title, version, client);
      && "API_TITLE" in base && base["API_TITLE"] == JStr(title)
      && "API_VERSION" in base && base["API_VERSION"] == JStr(version)
      && "OPENAPI_CLIENT_NAME" in base && base["OPENAPI_CLIENT_NAME"] == JStr(client)
  {
    BaseKeepsProtected(env, title, version, client, "API_TITLE");
    BaseKeepsProtected(env, title, version, client, "API_VERSION");
    BaseKeepsProtected(env, title, version, client, "OPENAPI_CLIENT_NAME");
  }

  /** No group after the protected settings has a protected name. */
  lemma BaseKeepsProtected(env: Environ, title: string, version: string, client: string, p: string)
    requires p in PROTECTED
    ensures var prot := ProtectedSettings(title, version, client);
      p in prot && p in BaseSettings(env, title, version, client) && BaseSettings(env, title, version, client)[p] == prot[p]
  {
    LigandUnprotected(env);
    DbUnprotected(env);
    AuthUnprotected(env);
    OpenApiUnprotected(env);
    var prot := ProtectedSettings(title, version, client);
    LaterGroupsKeep(prot, ToMap(LigandDefaults(env)), ToMap(DbDefaults(env)), ToMap(AuthDefaults(env)), ToMap(OpenApiDefaults(env)), p);
  }

  lemma LaterGroupsKeep(first: Config, g1: Config, g2: Config, g3: Config, g4: Config, k: string)
    requires k in first && k !in g1 && k !in g2 && k !in g3 && k !in g4
    ensures k in first + g1 + g2 + g3 + g4 && (first + g1 + g2 + g3 + g4)[k] == first[k]
  {
  }

  /** Laying maps without protected names over `base` keeps its protected values. */
  lemma ProtectedSurvive(base: Config, layers: Config, overrides: Config, p: string)
    requires p in base && p !in layers && p !in overrides
    ensures p in base + layers + overrides && (base + layers + overrides)[p] == base[p]
  {
  }

  /** The title, version and client name always come from the constructor's arguments. */
  lemma ProtectedFromArguments(
    e: Environment, env: Environ, title: string, version: string, client: string, kwargs: Dict<Value>)
    requires AllAccepted(Keys(kwargs))
    ensures EnvironmentConfig(e, env, title, version, client, kwargs).Success?
    ensures var m := EnvironmentConfig(e, env, title, version, client, kwargs).value;
      && "API_TITLE" in m && m["API_TITLE"] == JStr(EnvironmentTitle(e, title))
      && "API_VERSION" in m && m["API_VERSION"] == JStr(version)
      && "OPENAPI_CLIENT_NAME" in m && m["OPENAPI_CLIENT_NAME"] == JStr(client)
  {
    EnvironmentConfigOutcome(e, env, title, version, client, kwargs);
    AcceptedBind(Keys(kwargs));
    AcceptedNames(kwargs);
    LayerNamesAccepted(e, env);
    var base, layers := BaseSettings(env, EnvironmentTitle(e, title), version, client), LayerSettings(e, env);
    BaseProtected(env, EnvironmentTitle(e, title), version, client);
    ProtectedSurvive(base, layers, ToMap(kwargs), "API_TITLE");
    ProtectedSurvive(base, layers, ToMap(kwargs), "API_VERSION");
    ProtectedSurvive(base, layers, ToMap(kwargs), "OPENAPI_CLIENT_NAME");
  }

  /**
   * Precedence: an override wins over the environment's layers, which win over the base
   * defaults; a name nobody sets is absent.
   */
  lemma OverridePrecedence(
    e: Environment, env: Environ, title: string, version: string, client: string, kwargs: Dict<Value>, key: string)
    requires AllAccepted(Keys(kwargs))
    ensures EnvironmentConfig(e, env, title, version, client, kwargs).Success?
    ensures var m := EnvironmentConfig(e, env, title, version, client, kwargs).value;
      var layers, base := LayerSettings(e, env), BaseSettings(env, EnvironmentTitle(e, title), version, client);
      && (key in m <==> key in ToMap(kwargs) || key in layers || key in base)
      && (key in ToMap(kwargs) ==> m[key] == ToMap(kwargs)[key])
      && (key !in ToMap(kwargs) && key in layers ==> m[key] == layers[key])
      && (key !in ToMap(kwargs) && key !in layers && key in base ==> m[key] == base[key])
  {
    EnvironmentConfigOutcome(e, env, title, version, client, kwargs);
    AcceptedBind(Keys(kwargs));
  }

  /** A single accepted override sets that one setting and leaves every other one as it was. */
  lemma SingleOverride(
    e: Environment, env: Environ, title: string, version: string, client: string, key: string, value: Value)
    requires !IsRejected(key)
    ensures EnvironmentConfig(e, env, title, version, client, [(key, value)])
      == Success(EnvironmentDefaults(e, env, title, version, client)[key := value])
  {
    EnvironmentConfigOutcome(e, env, title, version, client, [(key, value)]);
    ParametersNotUpper();
    OneOverride(key, value);
    UnionSingleton(EnvironmentDefaults(e, env, title, version, client), key, value);
  }

  /** A single accepted override as a dict of overrides. */
  lemma OneOverride(key: string, value: Value)
    requires !IsRejected(key)
    ensures FirstRejected(Keys([(key, value)])) == None
    ensures ToMap([(key, value)]) == map[key := value]
  {
    assert Keys([(key, value)]) == [key];
    FirstRejectedStep([key]);
  }

  lemma UnionSingleton(m: Config, k: string, v: Value)
    ensures m + map[k := v] == m[k := v]
  {
  }

  /**
   * Overriding the public URL changes that setting alone: in particular the OpenAPI servers
   * option keeps the URL it was built from.
   */
  lemma PublicUrlOverride(e: Environment, env: Environ, title: string, version: string, client: string, url: Value)
    ensures EnvironmentConfig(e, env, title, version, client, [("SERVICE_PUBLIC_URL", url)])
      == Success(EnvironmentDefaults(e, env, title, version, client)["SERVICE_PUBLIC_URL" := url])
  {
    PublicUrlAccepted();
    SingleOverride(e, env, title, version, client, "SERVICE_PUBLIC_URL", url);
  }

  lemma PublicUrlAccepted()
    ensures !IsRejected("SERVICE_PUBLIC_URL")
  {
    UpperName("SERVICE_PUBLIC_URL");
  }

  // ---------------------------------------------------------------------------------------
  // Roles and public URL per environment
  // ---------------------------------------------------------------------------------------

  /** The `ALLOWED_ROLES` fallback string when the variable is unset. */
  function RolesFallback(e: Environment): string
  {
    if e == Prod || e == Stage then "" else "user,admin"
  }

  /** The same fallback, split at the commas. */
  function RolesDefault(e: Environment): seq<string>
  {
    if e == Prod || e == Stage then [""] else ["user", "admin"]
  }

  /** The public URL an environment announces, from the variable or the environment's fallback. */
  function PublicUrl(e: Environment, env: Environ): Value
  {
    match e
    case Prod => GetEnv(env, "SERVICE_PUBLIC_URL")
    case Stage => GetEnv(env, "SERVICE_PUBLIC_URL")
    case Local => JStr(GetEnvOr(env, "SERVICE_PUBLIC_URL", "http://localhost:5000"))
    case Testing => JStr(GetEnvOr(env, "SERVICE_PUBLIC_URL", "http://public.url"))
  }

  lemma LigandRoles(env: Environ)
    ensures "ALLOWED_ROLES" in ToMap(LigandDefaults(env))
    ensures ToMap(LigandDefaults(env))["ALLOWED_ROLES"] == RolesList(env, [""])
  {
    LastLookup(LigandDefaults(env), LIGAND_KEYS, 2);
  }

  lemma LigandPublicUrl(env: Environ)
    ensures "SERVICE_PUBLIC_URL" in ToMap(LigandDefaults(env))
    ensures ToMap(LigandDefaults(env))["SERVICE_PUBLIC_URL"] == GetEnv(env, "SERVICE_PUBLIC_URL")
  {
    LastLookup(LigandDefaults(env), LIGAND_KEYS, 0);
  }

  lemma OpenApiServers(env: Environ)
    ensures "API_SPEC_OPTIONS" in ToMap(OpenApiDefaults(env))
    ensures ToMap(OpenApiDefaults(env))["API_SPEC_OPTIONS"] == SpecOptions(GetEnv(env, "SERVICE_PUBLIC_URL"))
  {
    LastLookup(OpenApiDefaults(env), OPENAPI_KEYS, 6);
  }

  /** The later base groups leave the roles and the public URL to the library group. */
  lemma DbSilent(env: Environ)
    ensures "ALLOWED_ROLES" !in ToMap(DbDefaults(env)) && "SERVICE_PUBLIC_URL" !in ToMap(DbDefaults(env))
    ensures "API_SPEC_OPTIONS" !in ToMap(DbDefaults(env))
  {
    MissingKey(DbDefaults(env), DB_KEYS, "ALLOWED_ROLES");
    MissingKey(DbDefaults(env), DB_KEYS, "SERVICE_PUBLIC_URL");
    MissingKey(DbDefaults(env), DB_KEYS, "API_SPEC_OPTIONS");
  }

  lemma AuthSilent(env: Environ)
    ensures "ALLOWED_ROLES" !in ToMap(AuthDefaults(env)) && "SERVICE_PUBLIC_URL" !in ToMap(AuthDefaults(env))
    ensures "API_SPEC_OPTIONS" !in ToMap(AuthDefaults(env))
  {
    MissingKey(AuthDefaults(env), AUTH_KEYS, "ALLOWED_ROLES");
    MissingKey(AuthDefaults(env), AUTH_KEYS, "SERVICE_PUBLIC_URL");
    MissingKey(AuthDefaults(env), AUTH_KEYS, "API_SPEC_OPTIONS");
  }

  lemma OpenApiSilent(env: Environ)
    ensures "ALLOWED_ROLES" !in ToMap(OpenApiDefaults(env)) && "SERVICE_PUBLIC_URL" !in ToMap(OpenApiDefaults(env))
  {
    MissingKey(OpenApiDefaults(env), OPENAPI_KEYS, "ALLOWED_ROLES");
    MissingKey(OpenApiDefaults(env), OPENAPI_KEYS, "SERVICE_PUBLIC_URL");
  }

  /** A setting of the second group survives the two groups after it. */
  lemma SecondGroupKeeps(first: Config, g1: Config, g2: Config, g3: Config, g4: Config, k: string)
    requires k in g1 && k !in g2 && k !in g3 && k !in g4
    ensures k in first + g1 + g2 + g3 + g4 && (first + g1 + g2 + g3 + g4)[k] == g1[k]
  {
  }

  /** Without a layer on top, the base announces the variable's roles (or [""]) and public URL. */
  lemma BaseRolesAndUrl(env: Environ, title: string, version: string, client: string)
    ensures var base := BaseSettings(env, title, version, client);
      && "ALLOWED_ROLES" in base && base["ALLOWED_ROLES"] == RolesList(env, [""])
      && "SERVICE_PUBLIC_URL" in base && base["SERVICE_PUBLIC_URL"] == GetEnv(env, "SERVICE_PUBLIC_URL")
      && "API_SPEC_OPTIONS" in base && base["API_SPEC_OPTIONS"] == SpecOptions(GetEnv(env, "SERVICE_PUBLIC_URL"))
  {
    LigandRoles(env);
    LigandPublicUrl(env);
    OpenApiServers(env);
    DbSilent(env);
    AuthSilent(env);
    OpenApiSilent(env);
    var prot := ProtectedSettings(title, version, client);
    var g1, g2, g3, g4 := ToMap(LigandDefaults(env)), ToMap(DbDefaults(env)), ToMap(AuthDefaults(env)), ToMap(OpenApiDefaults(env));
    SecondGroupKeeps(prot, g1, g2, g3, g4, "ALLOWED_ROLES");
    SecondGroupKeeps(prot, g1, g2, g3, g4, "SERVICE_PUBLIC_URL");
  }

  /** Neither production layer sets the roles or the public URL. */
  lemma ProdSilent(env: Environ)
    ensures "ALLOWED_ROLES" !in ToMap(ProdLayer(env)) && "SERVICE_PUBLIC_URL" !in ToMap(ProdLayer(env))
    ensures "API_SPEC_OPTIONS" !in ToMap(ProdLayer(env))
  {
    MissingKey(ProdLayer(env), PROD_KEYS, "ALLOWED_ROLES");
    MissingKey(ProdLayer(env), PROD_KEYS, "SERVICE_PUBLIC_URL");
    MissingKey(ProdLayer(env), PROD_KEYS, "API_SPEC_OPTIONS");
  }

  lemma StagingSilent()
    ensures "ALLOWED_ROLES" !in ToMap(StagingLayer()) && "SERVICE_PUBLIC_URL" !in ToMap(StagingLayer())
    ensures "API_SPEC_OPTIONS" !in ToMap(StagingLayer())
  {
    MissingKey(StagingLayer(), STAGING_KEYS, "ALLOWED_ROLES");
    MissingKey(StagingLayer(), STAGING_KEYS, "SERVICE_PUBLIC_URL");
    MissingKey(StagingLayer(), STAGING_KEYS, "API_SPEC_OPTIONS");
  }

  lemma LocalRoles(env: Environ)
    ensures "ALLOWED_ROLES" in ToMap(FlaskLocalLayer(env))
    ensures ToMap(FlaskLocalLayer(env))["ALLOWED_ROLES"] == RolesList(env, ["user", "admin"])
  {
    LastLookup(FlaskLocalLayer(env), LOCAL_KEYS, 2);
  }

  lemma LocalPublicUrl(env: Environ)
    ensures "SERVICE_PUBLIC_URL" in ToMap(FlaskLocalLayer(env))
    ensures ToMap(FlaskLocalLayer(env))["SERVICE_PUBLIC_URL"] == PublicUrl(Local, env)
  {
    LastLookup(FlaskLocalLayer(env), LOCAL_KEYS, 0);
  }

  lemma LocalServers(env: Environ)
    ensures "API_SPEC_OPTIONS" in ToMap(FlaskLocalLayer(env))
    ensures ToMap(FlaskLocalLayer(env))["API_SPEC_OPTIONS"] == SpecOptions(PublicUrl(Local, env))
  {
    LastLookup(FlaskLocalLayer(env), LOCAL_KEYS, 5);
  }

  lemma TestingRoles(env: Environ)
    ensures "ALLOWED_ROLES" in ToMap(TestingLayer(env))
    ensures ToMap(TestingLayer(env))["ALLOWED_ROLES"] == RolesList(env, ["user", "admin"])
  {
    TestingRolesLast();
    LastLookup(TestingLayer(env), TESTING_KEYS, 2);
  }

  lemma TestingRolesLast()
    ensures TESTING_KEYS[2] == "ALLOWED_ROLES" && TESTING_KEYS[2] !in TESTING_KEYS[3..]
  {
  }

  lemma TestingPublicUrl(env: Environ)
    ensures "SERVICE_PUBLIC_URL" in ToMap(TestingLayer(env))
    ensures ToMap(TestingLayer(env))["SERVICE_PUBLIC_URL"] == PublicUrl(Testing, env)
  {
    LastLookup(TestingLayer(env), TESTING_KEYS, 0);
  }

  lemma TestingServers(env: Environ)
    ensures "API_SPEC_OPTIONS" in ToMap(TestingLayer(env))
    ensures ToMap(TestingLayer(env))["API_SPEC_OPTIONS"] == SpecOptions(PublicUrl(Testing, env))
  {
    LastLookup(TestingLayer(env), TESTING_KEYS, 10);
  }

  /** The roles, the public URL and the servers option of an environment's defaults. */
  predicate RolesAndUrlHold(e: Environment, m: Config, env: Environ)
  {
    && "ALLOWED_ROLES" in m && m["ALLOWED_ROLES"] == RolesList(env, RolesDefault(e))
    && "SERVICE_PUBLIC_URL" in m && m["SERVICE_PUBLIC_URL"] == PublicUrl(e, env)
    && "API_SPEC_OPTIONS" in m && m["API_SPEC_OPTIONS"] == SpecOptions(PublicUrl(e, env))
  }

  /** A layer without the three settings leaves the base's. */
  lemma SilentLayer(e: Environment, base: Config, layer: Config, env: Environ)
    requires RolesAndUrlHold(e, base, env)
    requires "ALLOWED_ROLES" !in layer && "SERVICE_PUBLIC_URL" !in layer && "API_SPEC_OPTIONS" !in layer
    ensures RolesAndUrlHold(e, base + layer, env)
  {
  }

  /** A layer with all three settings decides them. */
  lemma SpeakingLayer(e: Environment, base: Config, layer: Config, env: Environ)
    requires RolesAndUrlHold(e, layer, env)
    ensures RolesAndUrlHold(e, base + layer, env)
  {
  }

  /** In production and staging the base's roles, public URL and servers option are the ones announced. */
  lemma ProductionBase(e: Environment, env: Environ, title: string, version: string, client: string)
    requires e == Prod || e == Stage
    ensures RolesAndUrlHold(e, BaseSettings(env, title, version, client), env)
  {
    BaseRolesAndUrl(env, title, version, client);
  }

  lemma ProdRolesAndUrl(env: Environ, title: string, version: string, client: string)
    ensures RolesAndUrlHold(Prod, EnvironmentDefaults(Prod, env, title, version, client), env)
  {
    var base := BaseSettings(env, EnvironmentTitle(Prod, title), version, client);
    ProductionBase(Prod, env, EnvironmentTitle(Prod, title), version, client);
    ProdSilent(env);
    SilentLayer(Prod, base, LayerSettings(Prod, env), env);
  }

  lemma StageRolesAndUrl(env: Environ, title: string, version: string, client: string)
    ensures RolesAndUrlHold(Stage, EnvironmentDefaults(Stage, env, title, version, client), env)
  {
    var base := BaseSettings(env, EnvironmentTitle(Stage, title), version, client);
    ProductionBase(Stage, env, EnvironmentTitle(Stage, title), version, client);
    ProdSilent(env);
    StagingSilent();
    SilentLayer(Stage, base, LayerSettings(Stage, env), env);
  }

  /** `FlaskLocalConfig`'s layer sets all three. */
  lemma LocalLayerHolds(env: Environ)
    ensures RolesAndUrlHold(Local, ToMap(FlaskLocalLayer(env)), env)
  {
    LocalRoles(env);
    LocalPublicUrl(env);
    LocalServers(env);
  }

  lemma LocalRolesAndUrl(env: Environ, title: string, version: string, client: string)
    ensures RolesAndUrlHold(Local, EnvironmentDefaults(Local, env, title, version, client), env)
  {
    var base := BaseSettings(env, EnvironmentTitle(Local, title), version, client);
    LocalLayerHolds(env);
    SpeakingLayer(Local, ToMap(ProdLayer(env)) + ToMap(StagingLayer()), ToMap(FlaskLocalLayer(env)), env);
    SpeakingLayer(Local, base, LayerSettings(Local, env), env);
  }

  /** `TestingConfig`'s layer sets all three. */
  lemma TestingLayerHolds(env: Environ)
    ensures RolesAndUrlHold(Testing, ToMap(TestingLayer(env)), env)
  {
    TestingRoles(env);
    TestingPublicUrl(env);
    TestingServers(env);
  }

  lemma TestingRolesAndUrl(env: Environ, title: string, version: string, client: string)
    ensures RolesAndUrlHold(Testing, EnvironmentDefaults(Testing, env, title, version, client), env)
  {
    var base := BaseSettings(env, EnvironmentTitle(Testing, title), version, client);
    TestingLayerHolds(env);
    SpeakingLayer(Testing, base, LayerSettings(Testing, env), env);
  }

  /**
   * Without overrides, `ALLOWED_ROLES` is the comma-split of the variable, falling back to [""]
   * in production and staging and to ["user", "admin"] locally and in tests; the public URL
   * and the OpenAPI servers option announce the same URL.
   */
  lemma RolesAndPublicUrl(e: Environment, env: Environ, title: string, version: string, client: string)
    ensures RolesAndUrlHold(e, EnvironmentDefaults(e, env, title, version, client), env)
  {
    match e
    case Prod => ProdRolesAndUrl(env, title, version, client);
    case Stage => StageRolesAndUrl(env, title, version, client);
    case Local => LocalRolesAndUrl(env, title, version, client);
    case Testing => TestingRolesAndUrl(env, title, version, client);
  }

  /** Each environment's roles are the split of its fallback string when the variable is unset. */
  lemma RolesAsWritten(e: Environment, env: Environ)
    ensures RolesList(env, RolesDefault(e)) == StrList(Split(GetEnvOr(env, "ALLOWED_ROLES", RolesFallback(e)), ','))
  {
    DefaultRoleLists();
    RolesListSplits(env, RolesFallback(e));
  }

  /** The two fallbacks split into [""] and ["user", "admin"]. */
  lemma DefaultRoleLists()
    ensures Split("", ',') == [""]
    ensures Split("user,admin", ',') == ["user", "admin"]
  {
    assert "user" + [','] + "admin" == "user,admin";
    SplitJoin(["user", "admin"], ',');
  }

  // ---------------------------------------------------------------------------------------
  // The OIDC issuer per environment
  // ---------------------------------------------------------------------------------------

  /** The issuer an environment's defaults name: the variable's value, or "TESTING" in tests. */
  function IssuerDefault(e: Environment, env: Environ): Value
  {
    if e == Testing then JStr("TESTING") else GetEnv(env, "OIDC_ISSUER_URL")
  }

  lemma AuthIssuer(env: Environ)
    ensures "OIDC_ISSUER_URL" in ToMap(AuthDefaults(env))
    ensures ToMap(AuthDefaults(env))["OIDC_ISSUER_URL"] == GetEnv(env, "OIDC_ISSUER_URL")
  {
    LastLookup(AuthDefaults(env), AUTH_KEYS, 0);
  }

  /** The base takes the issuer from the variable; only the authentication group names it. */
  lemma BaseIssuer(env: Environ, title: string, version: string, client: string)
    ensures var base := BaseSettings(env, title, version, client);
      "OIDC_ISSUER_URL" in base && base["OIDC_ISSUER_URL"] == GetEnv(env, "OIDC_ISSUER_URL")
  {
    AuthIssuer(env);
    MissingKey(OpenApiDefaults(env), OPENAPI_KEYS, "OIDC_ISSUER_URL");
  }

  lemma TestingIssuerLast()
    ensures TESTING_KEYS[3] == "OIDC_ISSUER_URL" && TESTING_KEYS[3] !in TESTING_KEYS[4..]
  {
  }

  /** Only `TestingConfig` among the layers sets the issuer, to "TESTING". */
  lemma LayerIssuer(e: Environment, env: Environ)
    ensures e == Testing ==>
      "OIDC_ISSUER_URL" in LayerSettings(e, env) && LayerSettings(e, env)["OIDC_ISSUER_URL"] == JStr("TESTING")
    ensures e != Testing ==> "OIDC_ISSUER_URL" !in LayerSettings(e, env)
  {
    if e == Testing {
      TestingIssuer(env);
    } else {
      ProdIssuerSilent(env);
      StagingIssuerSilent();
      LocalIssuerSilent(env);
    }
  }

  lemma TestingIssuer(env: Environ)
    ensures "OIDC_ISSUER_URL" in ToMap(TestingLayer(env)) && ToMap(TestingLayer(env))["OIDC_ISSUER_URL"] == JStr("TESTING")
  {
    TestingIssuerLast();
    LastLookup(TestingLayer(env), TESTING_KEYS, 3);
  }

  lemma ProdIssuerSilent(env: Environ)
    ensures "OIDC_ISSUER_URL" !in ToMap(ProdLayer(env))
  {
    MissingKey(ProdLayer(env), PROD_KEYS, "OIDC_ISSUER_URL");
  }

  lemma StagingIssuerSilent()
    ensures "OIDC_ISSUER_URL" !in ToMap(StagingLayer())
  {
    MissingKey(StagingLayer(), STAGING_KEYS, "OIDC_ISSUER_URL");
  }

  lemma LocalIssuerSilent(env: Environ)
    ensures "OIDC_ISSUER_URL" !in ToMap(FlaskLocalLayer(env))
  {
    MissingKey(FlaskLocalLayer(env), LOCAL_KEYS, "OIDC_ISSUER_URL");
  }

  /**
   * Without overrides, the issuer is the `OIDC_ISSUER_URL` variable (None when it is unset) in
   * production, staging and local runs, and "TESTING" in tests whatever the variable says.
   */
  lemma IssuerDefaults(e: Environment, env: Environ, title: string, version: string, client: string)
    ensures var m := EnvironmentDefaults(e, env, title, version, client);
      "OIDC_ISSUER_URL" in m && m["OIDC_ISSUER_URL"] == IssuerDefault(e, env)
  {
    BaseIssuer(env, EnvironmentTitle(e, title), version, client);
    LayerIssuer(e, env);
  }

  // ---------------------------------------------------------------------------------------
  // The configurator
  // ---------------------------------------------------------------------------------------

  /**
   * What `flask_environment_configurator` loads into the app: a call whose overrides name one
   * of its own parameters cannot be bound; an unknown environment name is refused before any
   * setting is looked at; otherwise the environment's configuration.
   */
  function ConfiguratorResult(
    environment: string, env: Environ, title: string, version: string, client: string, kwargs: Dict<Value>)
    : Result<Config, ConfigError>
  {
    match FirstOf(Keys(kwargs), CONFIGURATOR_PARAMETERS)
    case Some(p) => Failure(MultipleValues(p))
    case None =>
      match LookupEnvironment(environment)
      case None => Failure(RuntimeError("The specified '" + environment + "' environment is invalid!"))
      case Some(e) => EnvironmentConfig(e, env, title, version, client, kwargs)
  }

  /** An override named `app`, `environment` or after an API parameter fails the call itself. */
  lemma ConfiguratorParameterRefused(
    environment: string, env: Environ, title: string, version: string, client: string,
    key: string, value: Value, rest: Dict<Value>)
    requires key in CONFIGURATOR_PARAMETERS
    ensures ConfiguratorResult(environment, env, title, version, client, [(key, value)] + rest)
      == Failure(MultipleValues(key))
  {
    KeysCons([(key, value)] + rest);
  }

  /** A name outside the registry is refused, whatever the (bindable) overrides. */
  lemma UnknownEnvironmentRefused(
    environment: string, env: Environ, title: string, version: string, client: string, kwargs: Dict<Value>)
    requires environment !in ["prod", "stage", "local", "testing"]
    requires FirstOf(Keys(kwargs), CONFIGURATOR_PARAMETERS) == None
    ensures ConfiguratorResult(environment, env, title, version, client, kwargs)
      == Failure(RuntimeError("The specified '" + environment + "' environment is invalid!"))
  {
  }

  /** Each registered name builds its own environment's configuration. */
  lemma KnownEnvironment(
    e: Environment, env: Environ, title: string, version: string, client: string, kwargs: Dict<Value>)
    requires FirstOf(Keys(kwargs), CONFIGURATOR_PARAMETERS) == None
    ensures ConfiguratorResult(EnvironmentName(e), env, title, version, client, kwargs)
      == EnvironmentConfig(e, env, title, version, client, kwargs)
  {
    LookupByName(e);
  }

  /** Every name of a configuration that was built is upper case. */
  lemma ConfigNamesUpper(
    e: Environment, env: Environ, title: string, version: string, client: string, kwargs: Dict<Value>)
    requires AllAccepted(Keys(kwargs))
    ensures EnvironmentConfig(e, env, title, version, client, kwargs).Success?
    ensures forall k :: k in EnvironmentConfig(e, env, title, version, client, kwargs).value ==> IsUpper(k)
  {
    EnvironmentConfigOutcome(e, env, title, version, client, kwargs);
    AcceptedBind(Keys(kwargs));
    AcceptedNames(kwargs);
    BaseNamesUpper(env, EnvironmentTitle(e, title), version, client);
    LayerNamesAccepted(e, env);
  }

  /**
   * `flask_environment_configurator(app, environment, ...)`: on success the app's configuration
   * gains every setting of the environment's configuration (none is dropped by Flask's
   * upper-case filter); on error, a call that cannot be bound included, the app is left as it was.
   */
  method FlaskEnvironmentConfigurator(
    app: App, environment: string, env: Environ, title: string, version: string, client: string, kwargs: Dict<Value>)
    returns (error: Option<ConfigError>)
    modifies app
    ensures match ConfiguratorResult(environment, env, title, version, client, kwargs)
      case Failure(msg) => error == Some(msg) && app.config == old(app.config)
      case Success(m) => error == None && app.config == old(app.config) + m
    ensures app.extensions == old(app.extensions)
  {
    var unbound := FirstOf(Keys(kwargs), CONFIGURATOR_PARAMETERS);
    if unbound.Some? {
      return Some(MultipleValues(unbound.value));
    }
    var found := LookupEnvironment(environment);
    if found.None? {
      return Some(RuntimeError("The specified '" + environment + "' environment is invalid!"));
    }
    var e := found.value;
    var clash := FirstOf(Keys(kwargs), INIT_PARAMETERS);
    if clash.Some? {
      return Some(MultipleValues(clash.value));
    }
    var args := ConfigArgs(e, env, title, kwargs);
    ChainBinds(kwargs, args.1);
    var built := BuildDefaultConfig(env, args.0, version, client, args.1);
    if built.Failure? {
      return Some(built.error);
    }
    ConfigNamesUpper(e, env, title, version, client, kwargs);
    UpperKeysKeepsAll(built.value);
    app.FromMapping(built.value);
    error := None;
  }
}
