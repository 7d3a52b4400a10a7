/**
 * `gptcli/gpt_interfaces/wrapper/wrapper.py`: the chat wrapper that resolves
 * model parameters from CLI overrides, its configuration and built-in
 * defaults, and picks a completion provider from the model name.
 */
module WrapperInterface {
  import opened Base
  import opened NamedConfigs

  /** The completion back-ends a model name can select. */
  datatype Provider = OpenAI | Anthropic | LLaMA | Google

  /** The model-name prefix that selects each back-end. */
  function ModelPrefix(p: Provider): string
  {
    match p
    case OpenAI => "gpt"
    case Anthropic => "claude"
    case LLaMA => "llama"
    case Google => "chat-bison"
  }

  /** No model name starts with two of the prefixes. */
  lemma PrefixesExclusive(model: string, p: Provider, q: Provider)
    requires StartsWith(model, ModelPrefix(p)) && StartsWith(model, ModelPrefix(q))
    ensures p == q
  {
    assert model[0] == ModelPrefix(p)[0] == ModelPrefix(q)[0];
    assert model[1] == ModelPrefix(p)[1] == ModelPrefix(q)[1];
  }

  /**
   * `get_completion_provider`: the prefixes are tried in the order gpt,
   * claude, llama, chat-bison; a model matching none raises `ValueError`.
   * No name can match two prefixes, so the order never matters.
   */
  function GetCompletionProvider(model: string): (r: Result<Provider>)
    ensures forall p: Provider :: r == Ok(p) <==> StartsWith(model, ModelPrefix(p))
    ensures r.Err? <==> forall p: Provider :: !StartsWith(model, ModelPrefix(p))
    ensures r.Err? ==> r.error == ValueError("Unknown model: " + model)
  {
    forall p: Provider, q: Provider | StartsWith(model, ModelPrefix(p)) && StartsWith(model, ModelPrefix(q))
      ensures p == q
    {
      PrefixesExclusive(model, p, q);
    }
    if StartsWith(model, "gpt") then Ok(OpenAI)
    else if StartsWith(model, "claude") then Ok(Anthropic)
    else if StartsWith(model, "llama") then Ok(LLaMA)
    else if StartsWith(model, "chat-bison") then Ok(Google)
    else Err(ValueError("Unknown model: " + model))
  }

  /** `CONFIG_DEFAULTS` */
  const ConfigDefaults: Config := map[
    "model" := Str("gpt-3.5-turbo"),
    "temperature" := Number(0.7),
    "top_p" := Number(1.0)
  ]

  /** What the built-in prompts interpolate: `str(platform.uname())` and `$SHELL` (absent when unset). */
  datatype Host = Host(uname: string, shell: Option<string>)

  /** An f-string rendering of an optional string: Python prints a missing value as `None`. */
  function Rendered(s: Option<string>): string
  {
    if s.Some? then s.value else "None"
  }

  const DevSystemPrompt := "You are a helpful assistant who is an expert in software development. You are helping a user who is a software developer. Your responses are short and concise. You include code snippets when appropriate. Code snippets are formatted using Markdown with a correct language tag. User's `uname`: "
  const DevUserPrompt := "Your responses must be short and concise. Do not include explanations unless asked."
  const BashSystemPrompt := "You output only valid and correct shell commands according to the user's prompt. You don't provide any explanations or any other text that is not valid shell commands. User's `uname`: "

  /** The seed conversation of the built-in `dev` wrapper. */
  function DevSeed(host: Host): seq<Message>
  {
    [ Message("system", DevSystemPrompt + host.uname),
      Message("user", DevUserPrompt),
      Message("assistant", "Understood.") ]
  }

  /** The seed conversation of the built-in `bash` wrapper. */
  function BashSeed(host: Host): seq<Message>
  {
    [ Message("system", BashSystemPrompt + host.uname + ". User's `$SHELL`: " + Rendered(host.shell) + ".") ]
  }

  /** `DEFAULT_WRAPPER`: the built-in wrappers `dev`, `general` and `bash`, which only seed messages. */
  function DefaultWrappers(host: Host): (r: map<string, Config>)
    ensures r.Keys == {"dev", "general", "bash"}
    ensures forall name :: name in r ==> r[name].Keys == {"messages"} && r[name]["messages"].Messages?
  {
    map[
      "dev" := map["messages" := Messages(DevSeed(host))],
      "general" := map["messages" := Messages([])],
      "bash" := map["messages" := Messages(BashSeed(host))]
    ]
  }

  /** The parameters `complete_chat` hands to the provider (before `float()` conversion). */
  datatype Request = Request(provider: Provider, model: string, temperature: Value, topP: Value)

  /** `supported_overrides` */
  const SupportedOverrides: seq<string> := ["model", "temperature", "top_p"]

  /** Every supported override has a built-in default, so `_param` never raises for one of them. */
  lemma SupportedOverridesResolve(overrides: Config, config: Config)
    ensures forall i :: 0 <= i < |SupportedOverrides| ==>
              LayeredParam(SupportedOverrides[i], overrides, config, ConfigDefaults).Ok?
    ensures forall p :: p !in SupportedOverrides ==>
              LayeredParam(p, overrides, config, ConfigDefaults) == Err(KeyError(p))
  {
  }

  /** The provider and parameters `complete_chat` resolves; a model value that is not a string has no `startswith`. */
  function RequestFor(overrides: Config, config: Config): (r: Result<Request>)
    ensures r.Ok? ==> LayeredParam("model", overrides, config, ConfigDefaults) == Ok(Str(r.value.model))
    ensures r.Ok? ==> StartsWith(r.value.model, ModelPrefix(r.value.provider))
    ensures r.Ok? ==> LayeredParam("temperature", overrides, config, ConfigDefaults) == Ok(r.value.temperature)
    ensures r.Ok? ==> LayeredParam("top_p", overrides, config, ConfigDefaults) == Ok(r.value.topP)
    ensures r.Err? ==> r.error.AttributeError? || r.error.ValueError?
    ensures var m := LayeredParam("model", overrides, config, ConfigDefaults);
            r.Ok? <==> m.Ok? && m.value.Str? && GetCompletionProvider(m.value.s).Ok?
    ensures var m := LayeredParam("model", overrides, config, ConfigDefaults);
            r == Err(AttributeError) <==> m.Ok? && !m.value.Str?
    ensures var m := LayeredParam("model", overrides, config, ConfigDefaults);
            m.Ok? && m.value.Str? && GetCompletionProvider(m.value.s).Err? ==> r == Err(ValueError("Unknown model: " + m.value.s))
    ensures r.Ok? ==> GetCompletionProvider(r.value.model) == Ok(r.value.provider)
  {
    match LayeredParam("model", overrides, config, ConfigDefaults)
    case Err(e) => Err(e)
    case Ok(Str(model)) =>
      (match GetCompletionProvider(model)
       case Err(e) => Err(e)
       case Ok(p) =>
         Ok(Request(p, model,
                    LayeredParam("temperature", overrides, config, ConfigDefaults).value,
                    LayeredParam("top_p", overrides, config, ConfigDefaults).value)))
    case Ok(_) => Err(AttributeError)
  }

  class Wrapper {
    var config: Config

    constructor (config: Config)
      ensures this.config == config
    {
      this.config := config;
    }

    /** `from_config`: merges with the built-in wrapper of the same name, on a copy of `config`. */
    static method FromConfig(name: string, config: Config, host: Host) returns (r: Result<Wrapper>)
      ensures name !in DefaultWrappers(host) ==> r.Ok? && r.value.config == config
      ensures name in DefaultWrappers(host) ==> (r.Ok? <==> Merged(config, DefaultWrappers(host)[name]).Some?)
      ensures name in DefaultWrappers(host) && r.Ok? ==> r.value.config == Merged(config, DefaultWrappers(host)[name]).value
      ensures r.Err? ==> r.error.KeyError?
      ensures r.Ok? ==> fresh(r.value)
    {
      var merged := ResolveConfig(name, config, DefaultWrappers(host));
      if merged.Err? {
        return Err(merged.error);
      }
      var w := new Wrapper(merged.value);
      r := Ok(w);
    }

    /** The in-place assignments of `init_wrapper`: a CLI value other than `None` overwrites the configuration's. */
    method ApplyCliArgs(args: WrapperGlobalArgs)
      modifies this
      ensures config == CliOverridden(old(config), args)
    {
      if args.temperature.Some? {
        config := config["temperature" := Number(args.temperature.value)];
      }
      if args.model.Some? {
        config := config["model" := Str(args.model.value)];
      }
      if args.topP.Some? {
        config := config["top_p" := Number(args.topP.value)];
      }
    }

    /** `init_messages`: the configured seed conversation, empty when there is none. */
    function InitMessages(): (r: Result<seq<Message>>)
      reads this
      ensures "messages" !in config ==> r == Ok([])
      ensures r.Ok? && "messages" in config ==> config["messages"] == Messages(r.value)
      ensures "messages" in config && config["messages"].Messages? ==> r == Ok(config["messages"].ms)
      ensures r.Err? <==> "messages" in config && !config["messages"].Messages?
      ensures r.Err? ==> r.error == TypeError
    {
      SeedMessages(config)
    }

    /** `_param`: an override beats the configuration, which beats the built-in default. */
    function Param(param: string, overrides: Config): (r: Result<Value>)
      reads this
      ensures r.Err? <==> param !in ConfigDefaults
      ensures param in ConfigDefaults && param in overrides ==> r == Ok(overrides[param])
      ensures param in ConfigDefaults && param !in overrides && param in config ==> r == Ok(config[param])
      ensures param in ConfigDefaults && param !in overrides && param !in config ==> r == Ok(ConfigDefaults[param])
    {
      LayeredParam(param, overrides, config, ConfigDefaults)
    }

    /** `complete_chat` up to the provider call: the provider fits the model it resolved. */
    function CompleteChat(overrides: Config): (r: Result<Request>)
      reads this
      ensures r.Ok? ==> Param("model", overrides) == Ok(Str(r.value.model))
      ensures r.Ok? ==> StartsWith(r.value.model, ModelPrefix(r.value.provider))
      ensures r.Ok? ==> Param("temperature", overrides) == Ok(r.value.temperature) && Param("top_p", overrides) == Ok(r.value.topP)
      ensures var m := Param("model", overrides);
              r.Ok? <==> m.Ok? && m.value.Str? && GetCompletionProvider(m.value.s).Ok?
      ensures var m := Param("model", overrides);
              r == Err(AttributeError) <==> m.Ok? && !m.value.Str?
      ensures var m := Param("model", overrides);
              m.Ok? && m.value.Str? && GetCompletionProvider(m.value.s).Err? ==> r == Err(ValueError("Unknown model: " + m.value.s))
      ensures r.Err? ==> r.error.AttributeError? || r.error.ValueError?
    {
      RequestFor(overrides, config)
    }
  }

  /** The command-line arguments `init_wrapper` reads. */
  datatype WrapperGlobalArgs = WrapperGlobalArgs(wrapperName: string, model: Option<string>, temperature: Option<real>, topP: Option<real>)

  /** The three assignments after construction: a CLI value other than `None` replaces the configuration's. */
  function CliOverridden(config: Config, args: WrapperGlobalArgs): (r: Config)
    ensures args.temperature.Some? ==> "temperature" in r && r["temperature"] == Number(args.temperature.value)
    ensures args.model.Some? ==> "model" in r && r["model"] == Str(args.model.value)
    ensures args.topP.Some? ==> "top_p" in r && r["top_p"] == Number(args.topP.value)
    ensures forall k :: (k in config && (k == "temperature" ==> args.temperature.None?)
                         && (k == "model" ==> args.model.None?) && (k == "top_p" ==> args.topP.None?)) ==> k in r && r[k] == config[k]
    ensures config.Keys <= r.Keys
    ensures forall k :: k in r && k !in config ==> k in SupportedOverrides
    ensures forall k :: k in r && k !in config ==> CliValue(args, k).Some? && r[k] == CliValue(args, k).value
    ensures forall k :: CliValue(args, k).Some? ==> k in r && r[k] == CliValue(args, k).value
    ensures forall k :: k in config && CliValue(args, k).None? ==> k in r && r[k] == config[k]
  {
    var c1 := if args.temperature.Some? then config["temperature" := Number(args.temperature.value)] else config;
    var c2 := if args.model.Some? then c1["model" := Str(args.model.value)] else c1;
    if args.topP.Some? then c2["top_p" := Number(args.topP.value)] else c2
  }

  /** The configuration `init_wrapper` selects and merges before applying CLI values; `None` when the merge raises. */
  function SelectedWrapperConfig(name: string, custom: map<string, Config>, host: Host): Option<Config>
    requires name in custom || name in DefaultWrappers(host)
  {
    var chosen := SelectConfig(name, custom, DefaultWrappers(host)).value;
    if name in DefaultWrappers(host) then Merged(chosen, DefaultWrappers(host)[name]) else Some(chosen)
  }

  /**
   * `init_wrapper`: custom wrapper before built-in wrapper, exit status 1 for
   * an unknown name, then the CLI values are written into the new wrapper's
   * configuration in place.
   */
  method InitWrapper(args: WrapperGlobalArgs, custom: map<string, Config>, host: Host) returns (r: Result<Wrapper>)
    ensures r == Err(Exit(1)) <==> args.wrapperName !in custom && args.wrapperName !in DefaultWrappers(host)
    ensures r.Err? && r.error != Exit(1) ==> r.error.KeyError? && SelectedWrapperConfig(args.wrapperName, custom, host).None?
    ensures r.Ok? ==> fresh(r.value)
    ensures r.Ok? ==> && SelectedWrapperConfig(args.wrapperName, custom, host).Some?
                      && r.value.config == CliOverridden(SelectedWrapperConfig(args.wrapperName, custom, host).value, args)
  {
    var name := args.wrapperName;
    var chosen := SelectConfig(name, custom, DefaultWrappers(host));
    if chosen.Err? {
      return Err(chosen.error);
    }
    var built := Wrapper.FromConfig(name, chosen.value, host);
    if built.Err? {
      return built;
    }
    var wrapper := built.value;
    wrapper.ApplyCliArgs(args);
    r := Ok(wrapper);
  }

  /** The value `init_wrapper` leaves under one of the three CLI-settable keys. */
  function CliValue(args: WrapperGlobalArgs, key: string): Option<Value>
  {
    if key == "model" && args.model.Some? then Some(Str(args.model.value))
    else if key == "temperature" && args.temperature.Some? then Some(Number(args.temperature.value))
    else if key == "top_p" && args.topP.Some? then Some(Number(args.topP.value))
    else None
  }

  /**
   * Precedence of `init_wrapper` for model, temperature and top_p: a CLI
   * value beats a custom wrapper's value, which beats the built-in wrapper's.
   */
  lemma InitWrapperPrecedence(args: WrapperGlobalArgs, custom: map<string, Config>, host: Host, key: string)
    requires key in SupportedOverrides
    requires args.wrapperName in custom || args.wrapperName in DefaultWrappers(host)
    requires SelectedWrapperConfig(args.wrapperName, custom, host).Some?
    ensures var c := CliOverridden(SelectedWrapperConfig(args.wrapperName, custom, host).value, args);
            && (CliValue(args, key).Some? ==> Get(c, key) == CliValue(args, key).value)
            && (CliValue(args, key).None? && args.wrapperName in custom && !Get(custom[args.wrapperName], key).Null? ==>
                  Get(c, key) == custom[args.wrapperName][key])
            && (CliValue(args, key).None? && args.wrapperName !in custom ==>
                  Get(c, key) == Get(DefaultWrappers(host)[args.wrapperName], key))
  {
    var name := args.wrapperName;
    var sel := SelectedWrapperConfig(name, custom, host).value;
    if CliValue(args, key).None? {
      if name in custom && !Get(custom[name], key).Null? {
        assert Get(sel, key) == custom[name][key];
      }
      if name !in custom {
        var d := DefaultWrappers(host)[name];
        assert sel == Merged(d, d).value;
        if key in d {
          assert Get(sel, key) == d[key];
        }
      }
    }
  }

  /**
   * The commented-out test of `init_wrapper`, built-in `dev` wrapper and no
   * custom wrappers: only the CLI values given are set.
   */
  lemma CommentedOutTestBuiltIn(host: Host)
    ensures var c := CliOverridden(SelectedWrapperConfig("dev", map[], host).value, WrapperGlobalArgs("dev", None, None, None));
            Get(c, "model") == Null && Get(c, "temperature") == Null && Get(c, "top_p") == Null
    ensures var c := CliOverridden(SelectedWrapperConfig("dev", map[], host).value, WrapperGlobalArgs("dev", Some("gpt-4"), None, None));
            Get(c, "model") == Str("gpt-4") && Get(c, "temperature") == Null && Get(c, "top_p") == Null
    ensures var c := CliOverridden(SelectedWrapperConfig("dev", map[], host).value, WrapperGlobalArgs("dev", None, Some(0.5), Some(0.5)));
            Get(c, "model") == Null && Get(c, "temperature") == Number(0.5) && Get(c, "top_p") == Number(0.5)
  {
    var d := DefaultWrappers(host)["dev"];
    MergedNoNewKeys(d, d);
  }

  /**
   * The commented-out test of `init_wrapper`, a custom `dev` wrapper that
   * sets a model: that model is used unless the CLI names another.
   */
  lemma CommentedOutTestCustomDev(host: Host)
    ensures var custom := map["dev" := map["model" := Str("gpt-4")]];
            var c := CliOverridden(SelectedWrapperConfig("dev", custom, host).value, WrapperGlobalArgs("dev", None, None, None));
            Get(c, "model") == Str("gpt-4") && Get(c, "temperature") == Null && Get(c, "top_p") == Null
    ensures var custom := map["dev" := map["model" := Str("gpt-3.5-turbo")]];
            var c := CliOverridden(SelectedWrapperConfig("dev", custom, host).value, WrapperGlobalArgs("dev", Some("gpt-4"), None, None));
            Get(c, "model") == Str("gpt-4") && Get(c, "temperature") == Null && Get(c, "top_p") == Null
  {
    var d := DefaultWrappers(host)["dev"];
    var c4 := map["model" := Str("gpt-4")];
    assert !Unfillable(c4, d, "model");
    var c5 := map["model" := Str("gpt-3.5-turbo")];
    assert !Unfillable(c5, d, "model");
  }

  /**
   * The commented-out test of `init_wrapper`, a custom wrapper with no
   * built-in counterpart: its values are used unless the CLI overrides them.
   */
  lemma CommentedOutTestCustom(host: Host)
    ensures var custom := map["custom" := map["model" := Str("gpt-4"), "temperature" := Number(0.5), "top_p" := Number(0.5), "messages" := Messages([])]];
            var c := CliOverridden(SelectedWrapperConfig("custom", custom, host).value, WrapperGlobalArgs("custom", None, None, None));
            Get(c, "model") == Str("gpt-4") && Get(c, "temperature") == Number(0.5) && Get(c, "top_p") == Number(0.5)
    ensures var custom := map["custom" := map["model" := Str("gpt-4"), "temperature" := Number(0.5), "top_p" := Number(0.5), "messages" := Messages([])]];
            var c := CliOverridden(SelectedWrapperConfig("custom", custom, host).value, WrapperGlobalArgs("custom", Some("gpt-3.5-turbo"), Some(1.0), Some(1.0)));
            Get(c, "model") == Str("gpt-3.5-turbo") && Get(c, "temperature") == Number(1.0) && Get(c, "top_p") == Number(1.0)
  {
  }
}
