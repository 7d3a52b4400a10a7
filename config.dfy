/**
 * `gptcli/config.py`: where the configuration file is looked for, and the
 * defaults of the top-level configuration record.
 */
module CliConfig {
  import opened Base
  import NamedConfigs
  import WrapperInterface

  /** `os.path.join(a, b)` for a relative `b`: a separator is added unless `a` is empty or already ends in one. */
  function PathJoin(a: string, b: string): (r: string)
    ensures StartsWith(r, a) && |r| >= |a| + |b|
    ensures a != [] && a[|a| - 1] != '/' ==> r == a + "/" + b
    ensures a == [] || a[|a| - 1] == '/' ==> r == a + b
    ensures b != [] ==> r[|r| - 1] == b[|b| - 1]
  {
    if a == [] || a[|a| - 1] == '/' then a + b else a + "/" + b
  }

  /** `CONFIG_FILE_PATHS`, for the home directory `~` expands to. */
  function ConfigFilePaths(home: string): (r: seq<string>)
    ensures |r| == 2
    ensures forall i :: 0 <= i < 2 ==> StartsWith(r[i], home)
    ensures home != [] && home[|home| - 1] != '/' ==>
              r[0] == home + "/" + ".config" + "/" + "gpt-cli" + "/" + "gpt.yml" && r[1] == home + "/" + ".gptrc"
    ensures home == [] || home[|home| - 1] == '/' ==>
              r[0] == home + ".config" + "/" + "gpt-cli" + "/" + "gpt.yml" && r[1] == home + ".gptrc"
  {
    var config := PathJoin(home, ".config");
    var dir := PathJoin(config, "gpt-cli");
    assert StartsWith(PathJoin(dir, "gpt.yml"), home) by {
      assert PathJoin(dir, "gpt.yml")[..|home|] == dir[..|config|][..|home|];
    }
    [ PathJoin(dir, "gpt.yml"),
      PathJoin(home, ".gptrc") ]
  }

  /** The first index, in list order, whose path passes the existence check. */
  function FirstExisting(paths: seq<string>, isFile: string -> bool): (r: Option<nat>)
    ensures r.Some? ==> r.value < |paths| && isFile(paths[r.value])
    ensures r.Some? ==> forall j :: 0 <= j < r.value ==> !isFile(paths[j])
    ensures r.None? <==> forall j :: 0 <= j < |paths| ==> !isFile(paths[j])
  {
    if paths == [] then None
    else if isFile(paths[0]) then Some(0)
    else match FirstExisting(paths[1..], isFile)
      case None => None
      case Some(i) => Some(i + 1)
  }

  /**
   * `choose_config_file`: the first path, in list order, for which
   * `os.path.isfile` (here the oracle `isFile`) holds, or `""` when none does.
   */
  method ChooseConfigFile(paths: seq<string>, isFile: string -> bool) returns (path: string)
    ensures FirstExisting(paths, isFile).Some? ==> path == paths[FirstExisting(paths, isFile).value]
    ensures FirstExisting(paths, isFile).None? ==> path == ""
  {
    for i := 0 to |paths|
      invariant forall j :: 0 <= j < i ==> !isFile(paths[j])
    {
      if isFile(paths[i]) {
        FirstExistingIs(paths, isFile, i);
        return paths[i];
      }
    }
    return "";
  }

  /** The existence check alone pins down the first match. */
  lemma FirstExistingIs(paths: seq<string>, isFile: string -> bool, i: nat)
    requires i < |paths| && isFile(paths[i])
    requires forall j :: 0 <= j < i ==> !isFile(paths[j])
    ensures FirstExisting(paths, isFile) == Some(i)
  {
  }

  /** With both files present, `~/.config/gpt-cli/gpt.yml` wins over `~/.gptrc`; `~/.gptrc` is used only when the first is missing. */
  lemma SearchOrder(home: string, isFile: string -> bool)
    ensures var paths := ConfigFilePaths(home);
            && (isFile(paths[0]) ==> FirstExisting(paths, isFile) == Some(0))
            && (!isFile(paths[0]) && isFile(paths[1]) ==> FirstExisting(paths, isFile) == Some(1))
            && (!isFile(paths[0]) && !isFile(paths[1]) ==> FirstExisting(paths, isFile) == None)
  {
  }

  /** The fields of `GptCliConfig` (the LLaMA model table is opaque here). */
  datatype GptCliConfig = GptCliConfig(
    defaultWrapper: string,
    markdown: bool,
    showPrice: bool,
    apiKey: Option<string>,
    openaiApiKey: Option<string>,
    anthropicApiKey: Option<string>,
    googleApiKey: Option<string>,
    logFile: Option<string>,
    logLevel: string,
    wrappers: map<string, Config>,
    interactive: Option<bool>,
    llamaModels: Option<map<string, Config>>,
    assistants: map<string, Config>)

  /** `os.environ.get(name)` */
  function EnvGet(env: map<string, string>, name: string): Option<string>
  {
    if name in env then Some(env[name]) else None
  }

  /** `GptCliConfig()` with every field at its default, the key fields read from the environment `env`. */
  function DefaultGptCliConfig(env: map<string, string>): (r: GptCliConfig)
    ensures r.defaultWrapper == "general" && r.markdown && r.showPrice
    ensures r.apiKey == r.openaiApiKey
    ensures ("OPENAI_API_KEY" in env ==> r.openaiApiKey == Some(env["OPENAI_API_KEY"])) && ("OPENAI_API_KEY" !in env ==> r.openaiApiKey.None?)
    ensures ("ANTHROPIC_API_KEY" in env ==> r.anthropicApiKey == Some(env["ANTHROPIC_API_KEY"])) && ("ANTHROPIC_API_KEY" !in env ==> r.anthropicApiKey.None?)
    ensures ("GOOGLE_API_KEY" in env ==> r.googleApiKey == Some(env["GOOGLE_API_KEY"])) && ("GOOGLE_API_KEY" !in env ==> r.googleApiKey.None?)
    ensures r.logFile.None? && r.logLevel == "INFO" && r.interactive.None? && r.llamaModels.None?
    ensures r.wrappers == map[] && r.assistants == map[]
  {
    GptCliConfig(
      "general", true, true,
      EnvGet(env, "OPENAI_API_KEY"), EnvGet(env, "OPENAI_API_KEY"),
      EnvGet(env, "ANTHROPIC_API_KEY"), EnvGet(env, "GOOGLE_API_KEY"),
      None, "INFO", map[], None, None, map[])
  }

  /**
   * With no configuration file, the default wrapper name is one of the
   * built-in wrappers, so `init_wrapper` finds it: the defaults never end
   * in "Unknown wrapper".
   */
  lemma DefaultWrapperIsBuiltIn(env: map<string, string>, host: WrapperInterface.Host)
    ensures var config := DefaultGptCliConfig(env);
            && config.defaultWrapper in WrapperInterface.DefaultWrappers(host)
            && NamedConfigs.SelectConfig(config.defaultWrapper, config.wrappers, WrapperInterface.DefaultWrappers(host)).Ok?
            && WrapperInterface.SelectedWrapperConfig(config.defaultWrapper, config.wrappers, host) == Some(map["messages" := Messages([])])
  {
    var d := WrapperInterface.DefaultWrappers(host)["general"];
    NamedConfigs.MergedNoNewKeys(d, d);
  }
}
