/**
 * The two configuration operations that `Wrapper`, `Assistant` and
 * `AssistantThread` each repeat word for word: the `from_config` merge of a
 * configuration with the built-in defaults registered under the same name, and
 * the `init_*` choice of a named configuration, custom before built-in.
 */
module NamedConfigs {
  import opened Base

  /** A key whose configuration value is missing or `None` and that the defaults must supply. */
  predicate NeedsDefault(config: Config, key: string)
  {
    Get(config, key).Null?
  }

  /** A key that is present with value `None` but that the defaults lack: `default_config[key]` raises `KeyError`. */
  predicate Unfillable(config: Config, defaults: Config, key: string)
  {
    key in config && config[key].Null? && key !in defaults
  }

  /** The value the merge leaves under `key`: the configuration's own value unless it is missing or `None`. */
  function MergedValue(config: Config, defaults: Config, key: string): Value
  {
    if key in config && !config[key].Null? then config[key]
    else if key in defaults then defaults[key]
    else Null
  }

  /**
   * The outcome of the merge loop of `from_config`: `None` when it raises
   * `KeyError`, otherwise the merged configuration.
   */
  function Merged(config: Config, defaults: Config): (r: Option<Config>)
    ensures r.None? <==> exists k :: Unfillable(config, defaults, k)
    ensures r.Some? ==> r.value.Keys == config.Keys + defaults.Keys
    // the configuration wins wherever it holds something other than None
    ensures r.Some? ==> forall k :: k in config && !config[k].Null? ==> r.value[k] == config[k]
    // missing and None keys are filled from the defaults
    ensures r.Some? ==> forall k :: k in defaults && NeedsDefault(config, k) ==> r.value[k] == defaults[k]
  {
    if exists k :: k in config && Unfillable(config, defaults, k) then None
    else Some(map k | k in config.Keys + defaults.Keys :: MergedValue(config, defaults, k))
  }

  /**
   * The key loop of `from_config`, run on the copy `config.copy()`; the
   * caller's dictionary is a value here and cannot change. Each key of either
   * dictionary is visited; a key whose current value is missing or `None` is
   * assigned the default's value.
   */
  method MergeDefaults(config: Config, defaults: Config) returns (r: Result<Config>)
    ensures r.Ok? <==> Merged(config, defaults).Some?
    ensures r.Ok? ==> r.value == Merged(config, defaults).value
    ensures r.Err? ==> r.error.KeyError? && Unfillable(config, defaults, r.error.key)
  {
    var merged := config;
    var todo := config.Keys + defaults.Keys;
    while todo != {}
      invariant todo <= config.Keys + defaults.Keys
      invariant merged.Keys == config.Keys + (defaults.Keys - todo)
      invariant forall k :: k in merged ==> merged[k] == (if k in todo then config[k] else MergedValue(config, defaults, k))
      invariant forall k :: k in config && k !in todo ==> !Unfillable(config, defaults, k)
      decreases todo
    {
      var key :| key in todo;
      if Get(merged, key).Null? {
        if key !in defaults {
          return Err(KeyError(key));
        }
        merged := merged[key := defaults[key]];
      }
      todo := todo - {key};
    }
    assert merged == Merged(config, defaults).value;
    r := Ok(merged);
  }

  /** Merging twice changes nothing more: the merged configuration needs nothing from the defaults that it has not got. */
  lemma MergedIdempotent(config: Config, defaults: Config)
    requires Merged(config, defaults).Some?
    ensures Merged(Merged(config, defaults).value, defaults) == Merged(config, defaults)
  {
    var m := Merged(config, defaults).value;
    assert !exists k :: k in m && Unfillable(m, defaults, k);
    var m2 := Merged(m, defaults).value;
    assert m2 == map k | k in m.Keys + defaults.Keys :: MergedValue(m, defaults, k);
    assert m2.Keys == m.Keys;
    forall k | k in m
      ensures m2[k] == m[k]
    {
      if m[k].Null? {
        assert MergedValue(config, defaults, k) == m[k];
      }
    }
    assert m2 == m;
  }

  /** A configuration without `None` values is returned unchanged when the defaults add no key. */
  lemma MergedNoNewKeys(config: Config, defaults: Config)
    requires defaults.Keys <= config.Keys
    requires forall k :: k in config ==> !config[k].Null?
    ensures Merged(config, defaults) == Some(config)
  {
    assert !exists k :: Unfillable(config, defaults, k);
    assert Merged(config, defaults).value == config;
  }

  /**
   * `init_wrapper`, `init_assistant` (both modules): the custom configuration
   * registered under `name` takes priority over the built-in one; a name known
   * to neither makes the program print an error and exit with status 1.
   */
  function SelectConfig(name: string, custom: map<string, Config>, builtin: map<string, Config>): (r: Result<Config>)
    ensures r.Err? <==> name !in custom && name !in builtin
    ensures r.Err? ==> r.error == Exit(1)
    ensures name in custom ==> r == Ok(custom[name])
    ensures name !in custom && name in builtin ==> r == Ok(builtin[name])
  {
    if name in custom then Ok(custom[name])
    else if name in builtin then Ok(builtin[name])
    else Err(Exit(1))
  }

  /**
   * `from_config` without the construction: a name registered among the
   * built-in configurations is merged with them, any other configuration is
   * kept as given.
   */
  method ResolveConfig(name: string, config: Config, builtin: map<string, Config>) returns (r: Result<Config>)
    ensures name !in builtin ==> r == Ok(config)
    ensures name in builtin ==> (r.Ok? <==> Merged(config, builtin[name]).Some?)
    ensures name in builtin && r.Ok? ==> r.value == Merged(config, builtin[name]).value
    ensures r.Err? ==> name in builtin && r.error.KeyError? && Unfillable(config, builtin[name], r.error.key)
  {
    if name in builtin {
      r := MergeDefaults(config, builtin[name]);
    } else {
      r := Ok(config);
    }
  }

  /**
   * `config.get("messages", [])[:]`: a copy of the seed messages, or no
   * messages when the key is absent. Any other value (`None` included) is
   * not a list.
   */
  function SeedMessages(config: Config): (r: Result<seq<Message>>)
    ensures "messages" !in config ==> r == Ok([])
    ensures r.Ok? && "messages" in config ==> config["messages"] == Messages(r.value)
    ensures r.Err? <==> "messages" in config && !config["messages"].Messages?
    ensures "messages" in config && config["messages"].Messages? ==> r == Ok(config["messages"].ms)
    ensures r.Err? ==> r.error == TypeError
  {
    if "messages" !in config then Ok([])
    else match config["messages"]
      case Messages(ms) => Ok(ms)
      case _ => Err(TypeError)
  }

  /**
   * `_param`: `override_params.get(param, config.get(param, CONFIG_DEFAULTS[param]))`.
   * The innermost subscript is evaluated first, so a parameter without a
   * built-in default raises `KeyError` even when an override or the
   * configuration would have supplied it.
   */
  function LayeredParam(param: string, overrides: Config, config: Config, defaults: Config): (r: Result<Value>)
    ensures r.Err? <==> param !in defaults
    ensures r.Err? ==> r.error == KeyError(param)
    ensures r.Ok? ==> r.value == (if param in overrides then overrides[param]
                                  else if param in config then config[param]
                                  else defaults[param])
  {
    if param !in defaults then Err(KeyError(param))
    else if param in overrides then Ok(overrides[param])
    else if param in config then Ok(config[param])
    else Ok(defaults[param])
  }
}
