/**
 * `gptcli/gpt_interfaces/chatgpt_assistant/assistant.py`: a copy of the
 * wrapper interface for assistants, whose built-in tables are empty.
 */
module ChatgptAssistant {
  import opened Base
  import opened NamedConfigs
  import WrapperInterface

  /** `CONFIG_DEFAULTS` (its one entry is commented out) */
  const ConfigDefaults: Config := map[]

  /** `DEFAULT_ASSISTANTS` */
  const DefaultAssistants: map<string, Config> := map[]

  /** `get_completion_provider`: only the `gpt` prefix is still accepted. */
  function GetCompletionProvider(model: string): (r: Result<WrapperInterface.Provider>)
    ensures r.Ok? <==> StartsWith(model, "gpt")
    ensures r.Ok? ==> r.value == WrapperInterface.OpenAI
    ensures r.Err? ==> r.error == ValueError("Unknown model: " + model)
  {
    if StartsWith(model, "gpt") then Ok(WrapperInterface.OpenAI)
    else Err(ValueError("Unknown model: " + model))
  }

  /** Where the two interfaces agree: a `gpt` model selects OpenAI in both, anything else is refused here. */
  lemma ProviderNarrowsWrapper(model: string)
    ensures GetCompletionProvider(model).Ok? ==> WrapperInterface.GetCompletionProvider(model) == GetCompletionProvider(model)
    ensures WrapperInterface.GetCompletionProvider(model) != Ok(WrapperInterface.OpenAI) ==> GetCompletionProvider(model).Err?
  {
  }

  /** With no built-in defaults, `_param` raises `KeyError` for every parameter, overrides or not. */
  lemma ParamAlwaysFails(param: string, overrides: Config, config: Config)
    ensures LayeredParam(param, overrides, config, ConfigDefaults) == Err(KeyError(param))
  {
  }

  /** `complete_chat` up to the provider call: its first `_param("model", ...)` raises before any provider is reached. */
  function RequestFor(overrides: Config, config: Config): (r: Result<WrapperInterface.Request>)
    ensures r == Err(KeyError("model"))
  {
    match LayeredParam("model", overrides, config, ConfigDefaults)
    case Err(e) => Err(e)
    case Ok(model) =>
      match LayeredParam("temperature", overrides, config, ConfigDefaults)
      case Err(e) => Err(e)
      case Ok(temperature) =>
        match LayeredParam("top_p", overrides, config, ConfigDefaults)
        case Err(e) => Err(e)
        case Ok(topP) =>
          // never reached: the model lookup above has already raised
          if model.Str? then Ok(WrapperInterface.Request(WrapperInterface.OpenAI, model.s, temperature, topP))
          else Err(TypeError)
  }

  class Assistant {
    var config: Config

    constructor (config: Config)
      ensures this.config == config
    {
      this.config := config;
    }

    /** `from_config`: no name has built-in defaults, so the configuration is kept exactly as given and no `KeyError` can arise. */
    static method FromConfig(name: string, config: Config) returns (a: Assistant)
      ensures fresh(a) && a.config == config
    {
      var merged := ResolveConfig(name, config, DefaultAssistants);
      if merged.Err? {
        // the merge only runs for a name with built-in defaults, and there are none
        assert false;
      }
      a := new Assistant(merged.value);
    }

    /** `init_messages`: the configured seed conversation, empty when there is none. */
    function InitMessages(): (r: Result<seq<Message>>)
      reads this
      ensures "messages" !in config ==> r == Ok([])
      ensures r.Ok? && "messages" in config ==> config["messages"] == Messages(r.value)
      ensures "messages" in config && config["messages"].Messages? ==> r == Ok(config["messages"].ms)
      ensures r.Err? <==> "messages" in config && !config["messages"].Messages?
      ensures r.Err? ==> r.error == TypeError
    {
      SeedMessages(config)
    }

    /** `_param`: with no built-in defaults every lookup raises `KeyError`. */
    function Param(param: string, overrides: Config): (r: Result<Value>)
      reads this
      ensures r == Err(KeyError(param))
    {
      ParamAlwaysFails(param, overrides, config);
      LayeredParam(param, overrides, config, ConfigDefaults)
    }

    /** `complete_chat` up to the provider call: it raises on the model lookup, whatever the configuration. */
    function CompleteChat(overrides: Config): (r: Result<WrapperInterface.Request>)
      reads this
      ensures r == Err(KeyError("model"))
    {
      RequestFor(overrides, config)
    }
  }

  /** `supported_overrides`: the same three names as the wrapper's. */
  const SupportedOverrides: seq<string> := ["model", "temperature", "top_p"]

  /**
   * `init_assistant`: the custom assistant of that name, else the built-in
   * one (there are none), else exit status 1; no CLI value is applied.
   */
  method InitAssistant(name: string, custom: map<string, Config>) returns (r: Result<Assistant>)
    ensures r.Err? <==> name !in custom
    ensures r.Err? ==> r.error == Exit(1)
    ensures r.Ok? ==> fresh(r.value) && r.value.config == custom[name]
  {
    var chosen := SelectConfig(name, custom, DefaultAssistants);
    if chosen.Err? {
      return Err(chosen.error);
    }
    var assistant := Assistant.FromConfig(name, chosen.value);
    r := Ok(assistant);
  }
}
