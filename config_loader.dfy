/**
 * `ConfigLoader` (`app/utils/config_loader.py`): a load-once snapshot of
 * eight environment variables, and the queries that load it on first use.
 *
 * The environment is the one after `.env` loading; which file is read and
 * the LangWatch set-up, whose failures are only printed, are not modelled.
 */
module ConfigLoader {
  import opened Wrappers
  import opened Strings
  import opened Runtime

  /** The configuration keys and the environment variables they are read from, in order. */
  const ConfigSources: seq<(string, string)> := [
    ("openai_api_key", "OPENAI_API_KEY"),
    ("langwatch_api_key", "LANGWATCH_API_KEY"),
    ("firecrawl_api_key", "FIRECRAWL_API_KEY"),
    ("github_access_token", "GITHUB_ACCESS_TOKEN"),
    ("morph_api_key", "MORPH_API_KEY"),
    ("cerebras_api_key", "CEREBRAS_API_KEY"),
    ("mistral_api_key", "MISTRAL_API_KEY"),
    ("openrouter_api_key", "OPENROUTER_API_KEY")]

  /** The configuration dictionary `load` builds: every key, with `os.getenv` of its variable. */
  function ConfigFromEnv(env: Env): map<string, Option<string>> {
    map[
      "openai_api_key" := Getenv(env, "OPENAI_API_KEY"),
      "langwatch_api_key" := Getenv(env, "LANGWATCH_API_KEY"),
      "firecrawl_api_key" := Getenv(env, "FIRECRAWL_API_KEY"),
      "github_access_token" := Getenv(env, "GITHUB_ACCESS_TOKEN"),
      "morph_api_key" := Getenv(env, "MORPH_API_KEY"),
      "cerebras_api_key" := Getenv(env, "CEREBRAS_API_KEY"),
      "mistral_api_key" := Getenv(env, "MISTRAL_API_KEY"),
      "openrouter_api_key" := Getenv(env, "OPENROUTER_API_KEY")]
  }

  /**
   * The loaded configuration holds exactly the eight keys, each read from its
   * own variable, so an unset variable gives a key whose value is `None`.
   */
  lemma ConfigReadsEveryVariable(env: Env)
    ensures forall key :: key in ConfigFromEnv(env) ==> exists k :: 0 <= k < |ConfigSources| && ConfigSources[k].0 == key
    ensures forall k :: 0 <= k < |ConfigSources| ==>
      ConfigSources[k].0 in ConfigFromEnv(env) && ConfigFromEnv(env)[ConfigSources[k].0] == Getenv(env, ConfigSources[k].1)
  {
    forall key | key in ConfigFromEnv(env)
      ensures exists k :: 0 <= k < |ConfigSources| && ConfigSources[k].0 == key
    {
      var k := if key == "openai_api_key" then 0
        else if key == "langwatch_api_key" then 1
        else if key == "firecrawl_api_key" then 2
        else if key == "github_access_token" then 3
        else if key == "morph_api_key" then 4
        else if key == "cerebras_api_key" then 5
        else if key == "mistral_api_key" then 6
        else 7;
      assert ConfigSources[k].0 == key;
    }
  }

  /** `dict.get(key)`: the stored value, or `None` for a key that is not there. */
  function Lookup(config: map<string, Option<string>>, key: string): Option<string> {
    if key in config then config[key] else None
  }

  /** The keys of `required` whose configured value is falsy, in the given order. */
  function MissingKeys(config: map<string, Option<string>>, required: seq<string>): (missing: seq<string>)
    ensures |missing| <= |required|
    ensures forall key :: key in missing <==> key in required && !Truthy(Lookup(config, key))
  {
    if required == [] then []
    else
      var rest := MissingKeys(config, required[1..]);
      assert forall key :: key in required <==> key == required[0] || key in required[1..];
      if !Truthy(Lookup(config, required[0])) then [required[0]] + rest else rest
  }

  /** The dictionary `get_available_tools` returns, one flag per fixed key. */
  datatype ToolFlags = ToolFlags(firecrawl: bool, github: bool, morph: bool, cerebras: bool, mistral: bool, openrouter: bool)

  const MissingPrefix := "Missing required configuration keys: "

  class Loader {
    var config: map<string, Option<string>>
    var loaded: bool

    /** A fresh loader holds nothing and has not loaded. */
    constructor ()
      ensures config == map[] && !loaded
    {
      config := map[];
      loaded := false;
    }

    /** What the configuration is after a load: the first load reads `env`, later ones keep it. */
    function AfterLoad(env: Env): map<string, Option<string>>
      reads this
    {
      if loaded then config else ConfigFromEnv(env)
    }

    /**
     * `load`: after the first call the stored configuration is returned as
     * it is, whatever the environment is now.
     */
    method Load(env: Env) returns (result: map<string, Option<string>>)
      modifies this
      ensures loaded
      ensures config == old(AfterLoad(env))
      ensures old(loaded) ==> config == old(config)
      ensures result == config
    {
      if loaded {
        return config;
      }
      config := ConfigFromEnv(env);
      loaded := true;
      result := config;
    }

    /**
     * `get`: loads first if needed; a key the configuration holds gives its
     * value, even `None`, and only an unknown key gives `default`.
     */
    method Get(env: Env, key: string, default: Option<string>) returns (value: Option<string>)
      modifies this
      ensures loaded && config == old(AfterLoad(env))
      ensures value == if key in config then config[key] else default
    {
      if !loaded {
        var _ := Load(env);
      }
      value := if key in config then config[key] else default;
    }

    /**
     * `validate_required_keys`: loads first if needed, then collects every
     * required key whose value is falsy; the outcome is an error exactly when
     * one is, naming all of them in the given order.
     */
    method ValidateRequiredKeys(env: Env, required: seq<string>) returns (error: Option<Exception>)
      modifies this
      ensures loaded && config == old(AfterLoad(env))
      ensures error.Some? <==> exists key :: key in required && !Truthy(Lookup(config, key))
      ensures error.Some? ==>
        error.value == Exception(ConfigurationError, MissingPrefix + Join(MissingKeys(config, required), ", "))
    {
      if !loaded {
        var _ := Load(env);
      }
      var missingKeys: seq<string> := [];
      var i := |required|;
      while i > 0
        invariant 0 <= i <= |required|
        invariant missingKeys == MissingKeys(config, required[i..])
      {
        i := i - 1;
        assert required[i..][1..] == required[i + 1..];
        if !Truthy(Lookup(config, required[i])) {
          missingKeys := [required[i]] + missingKeys;
        }
      }
      assert required[0..] == required;
      if missingKeys != [] {
        assert missingKeys[0] in missingKeys;
        return Some(Exception(ConfigurationError, MissingPrefix + Join(missingKeys, ", ")));
      }
      assert forall key :: key in required ==> Truthy(Lookup(config, key));
      return None;
    }

    /** `has_key`: loads first if needed; the stored value is truthy. */
    method HasKey(env: Env, key: string) returns (present: bool)
      modifies this
      ensures loaded && config == old(AfterLoad(env))
      ensures old(loaded) ==> config == old(config)
      ensures present == Truthy(Lookup(config, key))
    {
      if !loaded {
        var _ := Load(env);
      }
      present := Truthy(Lookup(config, key));
    }

    /** `get_available_tools`: six flags, each `has_key` of its configuration key. */
    method GetAvailableTools(env: Env) returns (tools: ToolFlags)
      modifies this
      ensures loaded && config == old(AfterLoad(env))
      ensures tools.firecrawl == Truthy(Lookup(config, "firecrawl_api_key"))
      ensures tools.github == Truthy(Lookup(config, "github_access_token"))
      ensures tools.morph == Truthy(Lookup(config, "morph_api_key"))
      ensures tools.cerebras == Truthy(Lookup(config, "cerebras_api_key"))
      ensures tools.mistral == Truthy(Lookup(config, "mistral_api_key"))
      ensures tools.openrouter == Truthy(Lookup(config, "openrouter_api_key"))
    {
      if !loaded {
        var _ := Load(env);
      }
      var firecrawl := HasKey(env, "firecrawl_api_key");
      var github := HasKey(env, "github_access_token");
      var morph := HasKey(env, "morph_api_key");
      var cerebras := HasKey(env, "cerebras_api_key");
      var mistral := HasKey(env, "mistral_api_key");
      var openrouter := HasKey(env, "openrouter_api_key");
      tools := ToolFlags(firecrawl, github, morph, cerebras, mistral, openrouter);
    }
  }

  /**
   * The missing keys keep the order of `required`: the check of a
   * concatenation lists the first part's missing keys, then the second's.
   */
  lemma {:induction false} MissingKeysOfConcat(config: map<string, Option<string>>, a: seq<string>, b: seq<string>)
    ensures MissingKeys(config, a + b) == MissingKeys(config, a) + MissingKeys(config, b)
  {
    if a != [] {
      assert (a + b)[1..] == a[1..] + b;
      MissingKeysOfConcat(config, a[1..], b);
    } else {
      assert a + b == b;
    }
  }
}
