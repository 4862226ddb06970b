/**
 * The configuration provider: per-agent command and instructions, the three
 * file paths, built-in defaults, and saving to / loading from a JSON file.
 */
module Config {
  import opened Wrappers
  import opened Paths
  import opened Errors
  import opened Json

  datatype AgentConfig = AgentConfig(command: seq<string>, instructions: string)

  datatype RalphConfig = RalphConfig(
    tasksFile: Path,
    progressFile: Path,
    configFile: Path,
    claude: AgentConfig,
    cursorAgent: AgentConfig,
    opencode: AgentConfig)

  /** The three agents the CLI accepts. */
  datatype AgentName = Claude | CursorAgent | OpenCode {
    /** The name as written on the command line. */
    function Text(): string
    {
      match this
      case Claude => "claude"
      case CursorAgent => "cursor-agent"
      case OpenCode => "opencode"
    }
  }

  /** The instruction prompts are long fixed texts; no property depends on their content. */
  const ClaudeInstructions: string := "Initial tasks (claude prompt)"
  const CursorAgentInstructions: string := "Initial tasks (cursor-agent prompt)"
  const OpenCodeInstructions: string := "Initial tasks (opencode prompt)"

  /** `Path(".ralph/ralph_config.json")`, the default of `config_file`. */
  const DefaultConfigPath: Path := PurePath(false, [".ralph", "ralph_config.json"])

  const ClaudeCommand: seq<string> := ["claude", "--dangerously-skip-permissions", "--model", "opus", "-p"]
  const CursorAgentCommand: seq<string> :=
    ["agent", "--model", "composer-1.5", "--sandbox", "disabled", "--force", "-p",
     "--output-format", "stream-json", "--stream-partial-output"]
  const OpenCodeCommand: seq<string> := ["opencode", "--model", "openai/gpt-5.1-codex-mini", "run"]

  /** `RalphConfig()` with no file and no environment overrides. */
  function Default(): (c: RalphConfig)
    ensures c.configFile == DefaultConfigPath
    ensures c.claude.command == ClaudeCommand && c.cursorAgent.command == CursorAgentCommand
    ensures c.opencode.command == OpenCodeCommand
  {
    RalphConfig(
      PurePath(false, [".ralph", "tasks_list.json"]),
      PurePath(false, [".ralph", "progress_tasks.txt"]),
      DefaultConfigPath,
      AgentConfig(ClaudeCommand, ClaudeInstructions),
      AgentConfig(CursorAgentCommand, CursorAgentInstructions),
      AgentConfig(OpenCodeCommand, OpenCodeInstructions))
  }

  /** `str()` of a two-component relative path. */
  lemma TwoPartStr(a: string, b: string)
    requires IsComponent(a) && IsComponent(b)
    ensures ToStr(PurePath(false, [a, b])) == a + "/" + b
  {
    assert [a, b][1..] == [b];
    assert Join([b]) == b;
  }

  lemma DefaultComponents()
    ensures IsComponent(".ralph") && IsComponent("tasks_list.json")
    ensures IsComponent("progress_tasks.txt") && IsComponent("ralph_config.json")
  {
  }

  lemma TasksFileStr()
    ensures ToStr(PurePath(false, [".ralph", "tasks_list.json"])) == ".ralph/tasks_list.json"
  {
    DefaultComponents();
    TwoPartStr(".ralph", "tasks_list.json");
    assert ".ralph" + "/" + "tasks_list.json" == ".ralph/tasks_list.json";
  }

  lemma ProgressFileStr()
    ensures ToStr(PurePath(false, [".ralph", "progress_tasks.txt"])) == ".ralph/progress_tasks.txt"
  {
    DefaultComponents();
    TwoPartStr(".ralph", "progress_tasks.txt");
    assert ".ralph" + "/" + "progress_tasks.txt" == ".ralph/progress_tasks.txt";
  }

  lemma ConfigFileStr()
    ensures ToStr(DefaultConfigPath) == ".ralph/ralph_config.json"
  {
    DefaultComponents();
    TwoPartStr(".ralph", "ralph_config.json");
    assert ".ralph" + "/" + "ralph_config.json" == ".ralph/ralph_config.json";
  }

  /** The default paths, as strings. */
  lemma DefaultPaths()
    ensures ToStr(Default().tasksFile) == ".ralph/tasks_list.json"
    ensures ToStr(Default().progressFile) == ".ralph/progress_tasks.txt"
    ensures ToStr(Default().configFile) == ".ralph/ralph_config.json"
  {
    TasksFileStr();
    ProgressFileStr();
    ConfigFileStr();
  }

  /** Each default command starts with the agent's executable. */
  lemma DefaultCommands()
    ensures GetAgentConfig(Default(), Claude).command[0] == "claude"
    ensures GetAgentConfig(Default(), CursorAgent).command[0] == "agent"
    ensures GetAgentConfig(Default(), OpenCode).command[0] == "opencode"
    ensures CursorAgentCommand[7] == "--output-format"
  {
  }

  /** `get_agent_config(agent)`: the section of the configuration that belongs to the agent. */
  function GetAgentConfig(cfg: RalphConfig, agent: AgentName): AgentConfig
  {
    match agent
    case Claude => cfg.claude
    case CursorAgent => cfg.cursorAgent
    case OpenCode => cfg.opencode
  }

  /** The JSON key of each agent's section in the configuration file. */
  function SectionKey(agent: AgentName): string
  {
    match agent
    case Claude => "claude"
    case CursorAgent => "cursor_agent"
    case OpenCode => "opencode"
  }

  /**
   * Each agent name selects its own section: distinct names, distinct
   * sections, and the configuration the name selects is the one saved under
   * its key.
   */
  lemma AgentSection(cfg: RalphConfig, agent: AgentName, other: AgentName)
    ensures agent != other ==> SectionKey(agent) != SectionKey(other)
    ensures SectionKey(agent) in ToJson(cfg).fields
    ensures ToJson(cfg).fields[SectionKey(agent)] == AgentToJson(GetAgentConfig(cfg, agent))
  {
  }

  /** Keys whose values `load` turns into paths, in the order it visits them. */
  const PathKeys: seq<string> := ["tasks_file", "progress_file", "config_file"]

  function AgentToJson(a: AgentConfig): JsonValue
  {
    JObj(map["command" := StrList(a.command), "instructions" := JStr(a.instructions)])
  }

  /** `model_dump(mode="json")` followed by `str()` on the three path fields. */
  function ToJson(cfg: RalphConfig): JsonValue
  {
    JObj(map[
      "tasks_file" := JStr(ToStr(cfg.tasksFile)),
      "progress_file" := JStr(ToStr(cfg.progressFile)),
      "config_file" := JStr(ToStr(cfg.configFile)),
      "claude" := AgentToJson(cfg.claude),
      "cursor_agent" := AgentToJson(cfg.cursorAgent),
      "opencode" := AgentToJson(cfg.opencode)])
  }

  /** The file a path refers to. */
  function FileAt(fs: map<Path, FileState>, p: Path): FileState
  {
    if p in fs then fs[p] else Missing
  }

  /** `path or self.config_file` */
  function SavePath(cfg: RalphConfig, path: Option<Path>): Path
  {
    if path.Some? then path.value else cfg.configFile
  }

  /** `cfg.save(path)`: the file system afterwards. */
  function Save(cfg: RalphConfig, path: Option<Path>, fs: map<Path, FileState>): (fs': map<Path, FileState>)
    ensures FileAt(fs', SavePath(cfg, path)) == Decoded(ToJson(cfg))
    ensures forall q :: q != SavePath(cfg, path) ==> FileAt(fs', q) == FileAt(fs, q)
  {
    fs[SavePath(cfg, path) := Decoded(ToJson(cfg))]
  }

  /** A value of `config_dict` inside `load`: as decoded, or already turned into a path. */
  datatype DictValue = Raw(json: JsonValue) | PathObj(path: Path)

  function RawDict(fields: map<string, JsonValue>): map<string, DictValue>
  {
    map k | k in fields :: Raw(fields[k])
  }

  /** `if key in d: d[key] = Path(d[key])` */
  function ConvertKey(d: map<string, DictValue>, key: string): Result<map<string, DictValue>, Exc>
  {
    if key !in d then Ok(d)
    else match d[key]
      case PathObj(_) => Ok(d)
      case Raw(JStr(s)) => Ok(d[key := PathObj(Parse(s))])
      case Raw(_) => Err(TypeError)
  }

  /** The loop of `load` over the first |keys| path keys. */
  function ConvertPaths(d: map<string, DictValue>, keys: seq<string>): Result<map<string, DictValue>, Exc>
    decreases |keys|
  {
    if |keys| == 0 then Ok(d)
    else
      var before :- ConvertPaths(d, keys[..|keys| - 1]);
      ConvertKey(before, keys[|keys| - 1])
  }

  /** Once one key fails to convert, the later keys do not matter. */
  lemma {:induction false} ConvertPathsErrSticks(d: map<string, DictValue>, keys: seq<string>, j: nat)
    requires j <= |keys| && ConvertPaths(d, keys[..j]).Err?
    ensures ConvertPaths(d, keys) == ConvertPaths(d, keys[..j])
    decreases |keys|
  {
    if j < |keys| {
      assert keys[..|keys| - 1][..j] == keys[..j];
      ConvertPathsErrSticks(d, keys[..|keys| - 1], j);
    } else {
      assert keys[..j] == keys;
    }
  }

  /** Validation of a path field: absent means the default. */
  function PathField(d: map<string, DictValue>, key: string, default: Path): Result<Path, Exc>
  {
    if key !in d then Ok(default)
    else match d[key]
      case PathObj(p) => Ok(p)
      case Raw(JStr(s)) => Ok(Parse(s))
      case Raw(_) => Err(ValidationError)
  }

  /** Validation of an agent section: absent means the default; both fields are required. */
  function AgentField(d: map<string, DictValue>, key: string, default: AgentConfig): Result<AgentConfig, Exc>
  {
    if key !in d then Ok(default)
    else match d[key]
      case Raw(JObj(f)) =>
        if "command" in f && IsStrList(f["command"]) && "instructions" in f && f["instructions"].JStr?
        then Ok(AgentConfig(Strings(f["command"].items), f["instructions"].s))
        else Err(ValidationError)
      case _ => Err(ValidationError)
  }

  /** `RalphConfig(**config_dict)`: unknown keys are ignored. */
  function Construct(d: map<string, DictValue>): (r: Result<RalphConfig, Exc>)
    ensures r.Err? ==> r.error == ValidationError
    ensures d == map[] ==> r == Ok(Default())
  {
    var dflt := Default();
    var tasksFile :- PathField(d, "tasks_file", dflt.tasksFile);
    var progressFile :- PathField(d, "progress_file", dflt.progressFile);
    var configFile :- PathField(d, "config_file", dflt.configFile);
    var claude :- AgentField(d, "claude", dflt.claude);
    var cursorAgent :- AgentField(d, "cursor_agent", dflt.cursorAgent);
    var opencode :- AgentField(d, "opencode", dflt.opencode);
    Ok(RalphConfig(tasksFile, progressFile, configFile, claude, cursorAgent, opencode))
  }

  /** `path or RalphConfig.model_fields["config_file"].default` */
  function LoadPath(path: Option<Path>): Path
  {
    if path.Some? then path.value else DefaultConfigPath
  }

  /** `RalphConfig.load(path)` against the given file system. */
  function LoadSpec(path: Option<Path>, fs: map<Path, FileState>): Result<RalphConfig, Exc>
  {
    match FileAt(fs, LoadPath(path))
    case Missing => Ok(Default())
    case Undecodable => Err(JSONDecodeError)
    case Decoded(data) =>
      if !data.JObj? then Err(TypeError)
      else
        var d :- ConvertPaths(RawDict(data.fields), PathKeys);
        Construct(d)
  }

  /**
   * `RalphConfig.load(path)`: defaults when the file does not exist; otherwise
   * decode it, turn the path strings into paths one key at a time, and validate.
   */
  method Load(path: Option<Path>, fs: map<Path, FileState>) returns (r: Result<RalphConfig, Exc>)
    ensures r == LoadSpec(path, fs)
  {
    var loadPath := LoadPath(path);
    var file := FileAt(fs, loadPath);
    if file.Missing? {
      return Ok(Default());
    }
    if file.Undecodable? {
      return Err(JSONDecodeError);
    }
    var data := file.value;
    if !data.JObj? {
      return Err(TypeError);
    }
    var raw := RawDict(data.fields);
    var configDict := raw;
    for j := 0 to |PathKeys|
      invariant ConvertPaths(raw, PathKeys[..j]) == Ok(configDict)
    {
      var key := PathKeys[j];
      assert PathKeys[..j + 1][..j] == PathKeys[..j];
      if key in configDict {
        match configDict[key]
        case PathObj(_) =>
        case Raw(v) =>
          if v.JStr? {
            configDict := configDict[key := PathObj(Parse(v.s))];
          } else {
            ConvertPathsErrSticks(raw, PathKeys, j + 1);
            return Err(TypeError);
          }
      }
    }
    assert PathKeys[..|PathKeys|] == PathKeys;
    r := Construct(configDict);
  }

  /** `get_config(config_path)` */
  function GetConfigSpec(configPath: Option<Path>, fs: map<Path, FileState>): Result<RalphConfig, Exc>
  {
    if configPath.Some? then LoadSpec(configPath, fs)
    else if !FileAt(fs, DefaultConfigPath).Missing? then LoadSpec(None, fs)
    else Ok(Default())
  }

  /**
   * `get_config(config_path)`: an explicit path is loaded; otherwise the default
   * file is loaded when it exists; otherwise the defaults are used.
   */
  method GetConfig(configPath: Option<Path>, fs: map<Path, FileState>) returns (r: Result<RalphConfig, Exc>)
    ensures r == GetConfigSpec(configPath, fs)
  {
    if configPath.Some? {
      r := Load(configPath, fs);
    } else if !FileAt(fs, DefaultConfigPath).Missing? {
      r := Load(None, fs);
    } else {
      r := Ok(Default());
    }
  }

  /** A missing file, even at an explicitly given path, yields the defaults. */
  lemma LoadMissingGivesDefaults(path: Option<Path>, fs: map<Path, FileState>)
    requires FileAt(fs, LoadPath(path)).Missing?
    ensures LoadSpec(path, fs) == Ok(Default())
  {
  }

  /** The three branches of `get_config` agree with `load` on every input. */
  lemma GetConfigIsLoad(configPath: Option<Path>, fs: map<Path, FileState>)
    ensures GetConfigSpec(configPath, fs) == LoadSpec(configPath, fs)
  {
  }

  /** Converting a path key fails only with a TypeError. */
  lemma {:induction false} ConvertPathsErrors(d: map<string, DictValue>, keys: seq<string>)
    ensures ConvertPaths(d, keys).Err? ==> ConvertPaths(d, keys).error == TypeError
    decreases |keys|
  {
    if |keys| > 0 {
      ConvertPathsErrors(d, keys[..|keys| - 1]);
    }
  }

  /**
   * `get_config` fails only with a JSON decoding error, a TypeError from a
   * file that does not hold an object, or a validation error: all of them
   * caught by `except Exception`.
   */
  lemma LoadErrors(configPath: Option<Path>, fs: map<Path, FileState>)
    ensures var r := GetConfigSpec(configPath, fs);
            r.Err? ==> r.error in {JSONDecodeError, TypeError, ValidationError} && IsException(r.error)
  {
    var file := FileAt(fs, LoadPath(configPath));
    if file.Decoded? && file.value.JObj? {
      ConvertPathsErrors(RawDict(file.value.fields), PathKeys);
    }
  }

  /** An agent section survives being written and validated again. */
  lemma AgentRoundTrip(d: map<string, DictValue>, key: string, a: AgentConfig, default: AgentConfig)
    requires key in d && d[key] == Raw(AgentToJson(a))
    ensures AgentField(d, key, default) == Ok(a)
  {
    StringsOfStrList(a.command);
  }

  /** A key holding the string form of a path converts back to that path. */
  lemma ConvertKeyOfStr(d: map<string, DictValue>, key: string, p: Path)
    requires key in d && d[key] == Raw(JStr(ToStr(p)))
    ensures ConvertKey(d, key) == Ok(d[key := PathObj(p)])
  {
    ParseToStr(p);
  }

  /** The key loop of `load` turns three path strings back into the paths they spell. */
  lemma ConvertPathStrings(raw: map<string, DictValue>, tasks: Path, progress: Path, config: Path)
    requires "tasks_file" in raw && raw["tasks_file"] == Raw(JStr(ToStr(tasks)))
    requires "progress_file" in raw && raw["progress_file"] == Raw(JStr(ToStr(progress)))
    requires "config_file" in raw && raw["config_file"] == Raw(JStr(ToStr(config)))
    ensures ConvertPaths(raw, PathKeys)
         == Ok(raw["tasks_file" := PathObj(tasks)]["progress_file" := PathObj(progress)]["config_file" := PathObj(config)])
  {
    var d1 := raw["tasks_file" := PathObj(tasks)];
    var d2 := d1["progress_file" := PathObj(progress)];
    ConvertKeyOfStr(raw, "tasks_file", tasks);
    ConvertKeyOfStr(d1, "progress_file", progress);
    ConvertKeyOfStr(d2, "config_file", config);
    assert PathKeys[..1][..0] == [];
    assert ConvertPaths(raw, PathKeys[..1]) == Ok(d1);
    assert PathKeys[..2][..1] == PathKeys[..1];
    assert ConvertPaths(raw, PathKeys[..2]) == Ok(d2);
    assert PathKeys[..3][..2] == PathKeys[..2] && PathKeys[..3] == PathKeys;
  }

  /** The key loop of `load` turns the three saved strings back into the saved paths. */
  lemma ConvertSavedPaths(cfg: RalphConfig)
    ensures ConvertPaths(RawDict(ToJson(cfg).fields), PathKeys)
         == Ok(RawDict(ToJson(cfg).fields)
                 ["tasks_file" := PathObj(cfg.tasksFile)]
                 ["progress_file" := PathObj(cfg.progressFile)]
                 ["config_file" := PathObj(cfg.configFile)])
  {
    var raw := RawDict(ToJson(cfg).fields);
    assert raw["tasks_file"] == Raw(JStr(ToStr(cfg.tasksFile)));
    assert raw["progress_file"] == Raw(JStr(ToStr(cfg.progressFile)));
    assert raw["config_file"] == Raw(JStr(ToStr(cfg.configFile)));
    ConvertPathStrings(raw, cfg.tasksFile, cfg.progressFile, cfg.configFile);
  }

  /**
   * Saving and loading again from the same file gives back every field: the
   * three paths (turned into strings and back) and the three agent sections.
   */
  lemma {:induction false} LoadSaveRoundTrip(cfg: RalphConfig, path: Option<Path>, fs: map<Path, FileState>)
    ensures LoadSpec(Some(SavePath(cfg, path)), Save(cfg, path, fs)) == Ok(cfg)
  {
    var data := ToJson(cfg);
    var raw := RawDict(data.fields);
    var d := raw["tasks_file" := PathObj(cfg.tasksFile)]
                ["progress_file" := PathObj(cfg.progressFile)]
                ["config_file" := PathObj(cfg.configFile)];
    ConvertSavedPaths(cfg);
    AgentRoundTrip(d, "claude", cfg.claude, Default().claude);
    AgentRoundTrip(d, "cursor_agent", cfg.cursorAgent, Default().cursorAgent);
    AgentRoundTrip(d, "opencode", cfg.opencode, Default().opencode);
    assert Construct(d) == Ok(cfg);
  }
}
