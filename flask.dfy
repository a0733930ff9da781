/**
 * The part of a Flask application the package touches: its configuration mapping and the
 * registry of initialised extensions.
 */
module Flask {
  import opened Json
  import opened PyStr

  /** `app.config`: setting name to value. */
  type Config = map<string, Value>

  /** The settings of `m` whose names are upper case. */
  function UpperKeys(m: Config): (r: Config)
    ensures forall k :: k in r <==> k in m && IsUpper(k)
    ensures forall k :: k in r ==> r[k] == m[k]
  {
    map k | k in m && IsUpper(k) :: m[k]
  }

  /** A mapping whose names are all upper case passes the filter unchanged. */
  lemma UpperKeysKeepsAll(m: Config)
    requires forall k :: k in m ==> IsUpper(k)
    ensures UpperKeys(m) == m
  {
  }

  class App {
    var config: Config
    /** `app.extensions`: the names of the extensions initialised on this app. */
    var extensions: set<string>

    constructor (config: Config)
      ensures this.config == config && extensions == {}
    {
      this.config := config;
      extensions := {};
    }

    /** `app.config.from_mapping(m)`: copies the settings of `m` whose names are upper case. */
    method FromMapping(mapping: Config)
      modifies this
      ensures config == old(config) + UpperKeys(mapping)
      ensures extensions == old(extensions)
    {
      config := config + UpperKeys(mapping);
    }
  }
}
