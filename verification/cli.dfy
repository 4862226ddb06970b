/**
 * The `run` command of the command line: agent-name validation, the
 * iteration-count check, loading the configuration, and the mapping from the
 * runner's exceptions to exit codes.
 */
module Cli {
  import opened Wrappers
  import opened Paths
  import opened Errors
  import opened Json
  import opened Tasks
  import opened Config
  import opened Runner

  /** The agent names the command accepts, in the order the error message lists them. */
  const ValidAgents: seq<string> := ["claude", "cursor-agent", "opencode"]

  const AgentMessage: string := "Agent must be one of: claude, cursor-agent, opencode"

  /** A rejected command-line parameter. */
  datatype BadParameter = BadParameter(message: string)

  /** `validate_agent`: the name itself for exactly the three known agents, BadParameter otherwise. */
  function ValidateAgent(agent: string): (r: Result<AgentName, BadParameter>)
    ensures r.Ok? <==> agent in ValidAgents
    ensures r.Ok? ==> r.value.Text() == agent
    ensures r.Err? ==> r.error == BadParameter(AgentMessage)
  {
    if agent == "claude" then Ok(Claude)
    else if agent == "cursor-agent" then Ok(CursorAgent)
    else if agent == "opencode" then Ok(OpenCode)
    else Err(BadParameter(AgentMessage))
  }

  /** Every agent name the runner knows is accepted, and gives itself back. */
  lemma ValidateAgentText(a: AgentName)
    ensures ValidateAgent(a.Text()) == Ok(a)
  {
  }

  /** How the command ends: an exit status, a usage error, or an exception that escapes. */
  datatype Outcome =
    | Exit(code: int)
    | UsageError(message: string)
    | Uncaught(e: Exc)

  /** The `except` clauses around `runner.run`. */
  function ExitFor(e: Exc): (o: Outcome)
    ensures o == Exit(1) <==> e.FileNotFoundError? || IsValueError(e) || e.RuntimeError?
    ensures o == Exit(130) <==> e.KeyboardInterrupt?
    ensures o.Uncaught? <==> o != Exit(1) && o != Exit(130)
    ensures o.Uncaught? ==> o.e == e
  {
    if e.FileNotFoundError? || IsValueError(e) || e.RuntimeError? then Exit(1)
    else if e.KeyboardInterrupt? then Exit(130)
    else Uncaught(e)
  }

  /** The runner's arguments when the command reaches it. */
  datatype RunnerCall = RunnerCall(config: RalphConfig, agent: AgentName, iterations: Option<int>)

  /** What the command did: whether it loaded the configuration, how it called the runner, and how it ended. */
  datatype CliTrace = CliTrace(configLoaded: bool, call: Option<RunnerCall>, outcome: Outcome)

  /**
   * `run(agent, iterations, config)` against the file system `fs`, with the
   * agent processes `procs`; the runner reads its tasks file from `fs`. A
   * signal during the loop runs the runner's handler, whose `sys.exit(130)`
   * raises SystemExit: no `except` clause of the command catches it, so an
   * interrupted run exits with 130 however the loop went.
   */
  function CliRun(agent: string, iterations: Option<int>, configPath: Option<Path>, fs: map<Path, FileState>,
                  procs: (nat, seq<string>) -> Proc): CliTrace
  {
    match ValidateAgent(agent)
    case Err(bad) => CliTrace(false, None, UsageError(bad.message))
    case Ok(a) =>
      if iterations.Some? && iterations.value <= 0 then CliTrace(false, None, Exit(1))
      else match GetConfigSpec(configPath, fs)
        case Err(e) => CliTrace(true, None, if IsException(e) then Exit(1) else Uncaught(e))
        case Ok(cfg) =>
          var t := RunSpec(cfg, false, a, iterations, FileAt(fs, cfg.tasksFile), procs);
          var outcome := if t.flag then Exit(130) else if t.result.Ok? then Exit(0) else ExitFor(t.result.error);
          CliTrace(true, Some(RunnerCall(cfg, a, iterations)), outcome)
  }

  /** An unknown agent is a usage error before iterations are checked or the configuration is loaded. */
  lemma UnknownAgentRejectedFirst(agent: string, iterations: Option<int>, configPath: Option<Path>,
                                  fs: map<Path, FileState>, procs: (nat, seq<string>) -> Proc)
    requires agent !in ValidAgents
    ensures CliRun(agent, iterations, configPath, fs, procs) == CliTrace(false, None, UsageError(AgentMessage))
  {
  }

  /** A known agent with an explicit count <= 0 exits with 1 before the configuration is loaded. */
  lemma NonPositiveIterationsExitOne(agent: string, n: int, configPath: Option<Path>, fs: map<Path, FileState>,
                                     procs: (nat, seq<string>) -> Proc)
    requires agent in ValidAgents && n <= 0
    ensures CliRun(agent, Some(n), configPath, fs, procs) == CliTrace(false, None, Exit(1))
  {
  }

  /** A configuration that fails to load exits with 1, and no runner is called. */
  lemma ConfigErrorExitsOne(agent: string, iterations: Option<int>, configPath: Option<Path>,
                            fs: map<Path, FileState>, procs: (nat, seq<string>) -> Proc)
    requires agent in ValidAgents && (iterations.None? || iterations.value > 0)
    requires GetConfigSpec(configPath, fs).Err?
    ensures CliRun(agent, iterations, configPath, fs, procs) == CliTrace(true, None, Exit(1))
  {
    LoadErrors(configPath, fs);
  }

  /**
   * With a known agent, an acceptable count and a loaded configuration, the
   * runner is called once with that configuration, the agent and the count
   * as given; an interrupted run exits with 130; otherwise the command exits
   * with 0 exactly when the runner returns, and with 1 on each of the runner's
   * errors except a malformed task element or stream event, which escapes.
   */
  lemma RunnerOutcome(agent: string, iterations: Option<int>, configPath: Option<Path>, fs: map<Path, FileState>,
                      procs: (nat, seq<string>) -> Proc)
    requires agent in ValidAgents && (iterations.None? || iterations.value > 0)
    requires GetConfigSpec(configPath, fs).Ok?
    ensures var cfg := GetConfigSpec(configPath, fs).value;
            var c := CliRun(agent, iterations, configPath, fs, procs);
            var t := RunSpec(cfg, false, ValidateAgent(agent).value, iterations, FileAt(fs, cfg.tasksFile), procs);
            && c.configLoaded
            && c.call == Some(RunnerCall(cfg, ValidateAgent(agent).value, iterations))
            && c.call.value.agent.Text() == agent
            && (c.outcome == Exit(130) <==> t.flag)
            && (c.outcome == Exit(0) <==> !t.flag && t.result.Ok?)
            && (!t.flag && t.result.Err? ==>
                  c.outcome == Exit(1) || (c.outcome == Uncaught(t.result.error) && IsShapeError(t.result.error)))
  {
    var cfg := GetConfigSpec(configPath, fs).value;
    RunErrors(cfg, false, ValidateAgent(agent).value, iterations, FileAt(fs, cfg.tasksFile), procs);
  }

  /** The command only ends with 0, 1, 130, a usage error, or an escaping shape error. */
  lemma ExitStatuses(agent: string, iterations: Option<int>, configPath: Option<Path>, fs: map<Path, FileState>,
                 procs: (nat, seq<string>) -> Proc)
    ensures var o := CliRun(agent, iterations, configPath, fs, procs).outcome;
            o == Exit(0) || o == Exit(1) || o == Exit(130) || o.UsageError? || (o.Uncaught? && IsShapeError(o.e))
  {
    if agent in ValidAgents && (iterations.None? || iterations.value > 0) {
      if GetConfigSpec(configPath, fs).Err? {
        ConfigErrorExitsOne(agent, iterations, configPath, fs, procs);
      } else {
        RunnerOutcome(agent, iterations, configPath, fs, procs);
      }
    }
  }
}
