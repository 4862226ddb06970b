/**
 * The loop runner: invoking the configured agent once per iteration, the
 * streaming-output loop for the cursor agent, and the interruption flag.
 * Starting a process, its output and its exit status are given as a `Proc`;
 * a signal is modelled only by the moment at which it sets the flag.
 */
module Runner {
  import opened Wrappers
  import opened Paths
  import opened Errors
  import opened Json
  import opened Tasks
  import opened Config
  import opened Stream

  /**
   * What starting the agent command does. `signalAt == Some(k)` says an
   * interrupt signal arrives while this command runs: before the k-th output
   * line is examined, or, when k is past the last line, after the output ends.
   */
  datatype Proc =
    | NotInstalled
    | Spawned(stdout: Option<seq<Option<JsonValue>>>, signalAt: Option<nat>, exitCode: int)

  /** `agent_config.command + [instructions]`: the instructions become the single last argument. */
  function Command(acfg: AgentConfig, instructions: string): (c: seq<string>)
    ensures |c| == |acfg.command| + 1
    ensures c[..|acfg.command|] == acfg.command && c[|acfg.command|] == instructions
  {
    acfg.command + [instructions]
  }

  /** Streaming mode: the cursor agent, configured with `--output-format`. */
  predicate IsStreaming(agent: AgentName, command: seq<string>)
  {
    agent == CursorAgent && "--output-format" in command
  }

  /** With the default configuration only the cursor agent streams. */
  lemma DefaultStreamingAgents(agent: AgentName)
    ensures IsStreaming(agent, GetAgentConfig(Default(), agent).command) <==> agent == CursorAgent
  {
    if agent == CursorAgent {
      assert CursorAgentCommand[7] == "--output-format";
    }
  }

  /** How many output lines are examined before the loop stops. */
  function Cut(flag: bool, signalAt: Option<nat>, n: nat): (k: nat)
    ensures k <= n
  {
    if flag then 0 else if signalAt.Some? && signalAt.value < n then signalAt.value else n
  }

  /** Outcome of `_handle_streaming_output`, with the interpreter's counters when it stopped. */
  datatype StreamResult = StreamResult(result: Result<int, Exc>, shown: seq<Display>, terminated: bool, stats: StreamState)

  /** `_handle_streaming_output` when the interrupted flag is `flag` on entry. */
  function StreamSpec(flag: bool, stdout: Option<seq<Option<JsonValue>>>, signalAt: Option<nat>,
                      exitCode: int, command: seq<string>): StreamResult
  {
    if stdout.None? then StreamResult(Err(RuntimeError(StdoutUnavailable)), [], false, Init)
    else
      var lines := stdout.value;
      var k := Cut(flag, signalAt, |lines|);
      var t := Interpret(Start, lines[..k]);
      if t.crash.Some? then StreamResult(Err(t.crash.value), t.shown, false, t.st)
      else
        var interrupted := flag || signalAt.Some?;
        var result := if exitCode != 0 && !interrupted then Err(CalledProcessError(exitCode, command)) else Ok(exitCode);
        StreamResult(result, t.shown, k < |lines|, t.st)
  }

  /**
   * Once the flag is seen at line k, termination is requested and no later
   * line is interpreted: streams that agree on their first k lines give the
   * same outcome.
   */
  lemma InterruptStopsReading(a: seq<Option<JsonValue>>, b: seq<Option<JsonValue>>, k: nat, exitCode: int,
                              command: seq<string>)
    requires k < |a| && k < |b| && a[..k] == b[..k]
    ensures StreamSpec(false, Some(a), Some(k), exitCode, command)
         == StreamSpec(false, Some(b), Some(k), exitCode, command)
    ensures StreamSpec(false, Some(a), Some(k), exitCode, command).terminated
         || StreamSpec(false, Some(a), Some(k), exitCode, command).result.Err?
  {
  }

  /**
   * An exception from an event propagates as it is. Otherwise a non-zero exit
   * status is an error exactly when no interrupt arrived, and the exit status
   * is returned.
   */
  lemma StreamExitStatus(flag: bool, lines: seq<Option<JsonValue>>, signalAt: Option<nat>, exitCode: int,
                         command: seq<string>)
    ensures var crash := Interpret(Start, lines[..Cut(flag, signalAt, |lines|)]).crash;
            var s := StreamSpec(flag, Some(lines), signalAt, exitCode, command);
            && (crash.Some? ==> s.result == Err(crash.value))
            && (crash.None? ==> (s.result.Err? <==> exitCode != 0 && !flag && signalAt.None?))
            && (crash.None? && s.result.Err? ==> s.result.error == CalledProcessError(exitCode, command))
            && (s.result.Ok? ==> s.result.value == exitCode)
  {
  }

  /**
   * When the output is read to its end, the final text is the concatenated
   * `assistant` texts and the tool count is the number of `tool_call`/`started`
   * events, both over the lines before the one that raised, if any.
   */
  lemma StreamStats(lines: seq<Option<JsonValue>>, exitCode: int, command: seq<string>)
    ensures var k := Clean(Start, lines);
            var s := StreamSpec(false, Some(lines), None, exitCode, command);
            s.stats == StreamState(AssistantTexts(lines[..k]), CountToolStarts(lines[..k]))
  {
    assert lines[..|lines|] == lines;
    StreamCounters(Start, lines);
  }

  /**
   * A stream of well-shaped events, read to its end, raises no shape error: a
   * zero exit status is returned, and the final text and tool count cover
   * every line.
   */
  lemma WellShapedStreamStats(lines: seq<Option<JsonValue>>, exitCode: int, command: seq<string>)
    requires forall i :: 0 <= i < |lines| && !Skipped(lines[i]) ==> Stream.WellShaped(lines[i].value)
    ensures var s := StreamSpec(false, Some(lines), None, exitCode, command);
            && s.result == (if exitCode == 0 then Ok(0) else Err(CalledProcessError(exitCode, command)))
            && s.stats == StreamState(AssistantTexts(lines), CountToolStarts(lines))
  {
    WellShapedStream(Start, lines);
    ReadToEnd(lines, exitCode, command);
  }

  /** Without a flag or a signal, every line is read; if none raises, the exit status decides the result. */
  lemma ReadToEnd(lines: seq<Option<JsonValue>>, exitCode: int, command: seq<string>)
    requires Interpret(Start, lines).crash.None?
    ensures var t := Interpret(Start, lines);
            StreamSpec(false, Some(lines), None, exitCode, command)
            == StreamResult(if exitCode == 0 then Ok(0) else Err(CalledProcessError(exitCode, command)),
                            t.shown, false, t.st)
  {
    assert lines[..|lines|] == lines;
  }

  /** A line that does not decode (or decodes to a falsy value) is ignored; the lines after it still count. */
  lemma StreamSkipsNoise(a: seq<Option<JsonValue>>, line: Option<JsonValue>, b: seq<Option<JsonValue>>,
                         exitCode: int, command: seq<string>)
    requires Skipped(line)
    ensures StreamSpec(false, Some(a + [line] + b), None, exitCode, command)
         == StreamSpec(false, Some(a + b), None, exitCode, command).(terminated := false)
  {
    var s := a + [line] + b;
    assert s[..|s|] == s;
    assert (a + b)[..|a + b|] == a + b;
    SkippedLineIsInvisible(Start, a, line, b);
  }

  /** The outcome of `_run_agent` and the interrupted flag afterwards. */
  datatype AgentRun = AgentRun(result: Result<int, Exc>, flag: bool, shown: seq<Display>)

  /** `_run_agent(agent_config, instructions, agent)` when the flag is `flag` on entry. */
  function AgentSpec(acfg: AgentConfig, instructions: string, agent: AgentName, flag: bool, proc: Proc): AgentRun
  {
    match proc
    case NotInstalled =>
      AgentRun(if |acfg.command| == 0 then Err(IndexError) else Err(RuntimeError(AgentNotFound(acfg.command[0]))),
               flag, [])
    case Spawned(stdout, signalAt, exitCode) =>
      var flag' := flag || signalAt.Some?;
      if IsStreaming(agent, acfg.command) then
        var s := StreamSpec(flag, stdout, signalAt, exitCode, Command(acfg, instructions));
        var result := if s.result.Err? && s.result.error.CalledProcessError?
                      then Err(RuntimeError(AgentFailed(s.result.error.returncode))) else s.result;
        AgentRun(result, flag', s.shown)
      else
        AgentRun(if exitCode != 0 then Err(RuntimeError(AgentFailed(exitCode))) else Ok(exitCode), flag', [])
  }

  /**
   * `_run_agent` turns a missing executable into a RuntimeError naming the
   * command's first element and a failing exit status into a RuntimeError
   * carrying the code; no FileNotFoundError or CalledProcessError escapes it.
   */
  lemma {:induction false} AgentErrors(acfg: AgentConfig, instructions: string, agent: AgentName, flag: bool, proc: Proc)
    ensures var a := AgentSpec(acfg, instructions, agent, flag, proc);
            a.result.Err? ==> a.result.error.RuntimeError? || IsShapeError(a.result.error)
    ensures proc.NotInstalled? && |acfg.command| > 0 ==>
              AgentSpec(acfg, instructions, agent, flag, proc).result == Err(RuntimeError(AgentNotFound(acfg.command[0])))
  {
    if proc.Spawned? && proc.stdout.Some? && IsStreaming(agent, acfg.command) {
      var lines := proc.stdout.value;
      CrashesAreShapeErrors(Start, lines[..Cut(flag, proc.signalAt, |lines|)]);
    }
  }

  /**
   * A failing exit status with no interrupt is reported with its code, in both
   * modes, unless a streamed event raised first, in which case that exception
   * is what the call raises.
   */
  lemma AgentFailureCarriesCode(acfg: AgentConfig, instructions: string, agent: AgentName,
                                lines: seq<Option<JsonValue>>, exitCode: int)
    requires exitCode != 0
    ensures var crash := Interpret(Start, lines).crash;
            var result := AgentSpec(acfg, instructions, agent, false, Spawned(Some(lines), None, exitCode)).result;
            result == if IsStreaming(agent, acfg.command) && crash.Some? then Err(crash.value)
                      else Err(RuntimeError(AgentFailed(exitCode)))
  {
    assert lines[..|lines|] == lines;
    CrashesAreShapeErrors(Start, lines);
  }

  /**
   * What invoking the agent in iteration j does, where `procs(j, argv)` is what
   * starting the argument vector `argv` does in iteration j. The loop invokes
   * it only while the flag is clear, so the flag is clear on entry.
   */
  function Outcomes(acfg: AgentConfig, agent: AgentName, procs: (nat, seq<string>) -> Proc): nat -> AgentRun
  {
    (j: nat) => AgentSpec(acfg, acfg.instructions, agent, false, procs(j, Command(acfg, acfg.instructions)))
  }

  /** The invocation ran to completion: no error and no interrupt. */
  predicate Succeeds(a: AgentRun)
  {
    a.result.Ok? && !a.flag
  }

  /** `runs` says, for every iteration j, what invoking the agent in iteration j with the flag clear does. */
  ghost predicate Describes(runs: nat -> AgentRun, acfg: AgentConfig, agent: AgentName, procs: (nat, seq<string>) -> Proc)
  {
    forall j: nat {:trigger procs(j, Command(acfg, acfg.instructions))} ::
      runs(j) == AgentSpec(acfg, acfg.instructions, agent, false, procs(j, Command(acfg, acfg.instructions)))
  }

  lemma OutcomesDescribe(acfg: AgentConfig, agent: AgentName, procs: (nat, seq<string>) -> Proc)
    ensures Describes(Outcomes(acfg, agent, procs), acfg, agent, procs)
  {
  }

  /** The main loop: which iterations invoked the agent, how many completed, the flag, and the error that ended it. */
  datatype LoopTrace = LoopTrace(invoked: seq<nat>, succeeded: nat, flag: bool, failure: Option<Exc>)

  /** `for i in range(i, n + 1)` of `run`, with the interrupted flag `flag` and the invocations' outcomes `runs`. */
  function Iterate(i: nat, n: nat, flag: bool, runs: nat -> AgentRun): LoopTrace
    requires 1 <= i
    decreases n + 1 - i
  {
    if n < i || flag then LoopTrace([], 0, flag, None)
    else
      var a := runs(i);
      if a.result.Err? then LoopTrace([i], 0, a.flag, Some(a.result.error))
      else
        var rest := Iterate(i + 1, n, a.flag, runs);
        LoopTrace([i] + rest.invoked, rest.succeeded + 1, rest.flag, rest.failure)
  }

  /**
   * The loop invokes consecutive iterations from i, at most n + 1 - i of them;
   * every invoked iteration completes except one that raised; without an
   * error or an interrupt all of them run.
   */
  lemma {:induction false} IterateShape(i: nat, n: nat, flag: bool, runs: nat -> AgentRun)
    requires 1 <= i
    ensures var t := Iterate(i, n, flag, runs);
            && (i <= n + 1 ==> |t.invoked| <= n + 1 - i)
            && (i > n ==> t.invoked == [])
            && (forall j :: 0 <= j < |t.invoked| ==> t.invoked[j] == i + j)
            && t.succeeded + (if t.failure.Some? then 1 else 0) == |t.invoked|
            && (i <= n + 1 && t.failure.None? && !t.flag ==> |t.invoked| == n + 1 - i)
    decreases n + 1 - i
  {
    if i <= n && !flag && runs(i).result.Ok? {
      IterateShape(i + 1, n, runs(i).flag, runs);
    }
  }

  /** The trace `t` of a later part of the loop, after `prefix` was invoked and `done` iterations completed. */
  function Then(prefix: seq<nat>, done: nat, t: LoopTrace): LoopTrace
  {
    LoopTrace(prefix + t.invoked, done + t.succeeded, t.flag, t.failure)
  }

  /** One step of the loop, with the invocation's outcome `a` named. */
  lemma IterateStep(prefix: seq<nat>, i: nat, n: nat, runs: nat -> AgentRun, a: AgentRun)
    requires 1 <= i <= n && a == runs(i)
    ensures a.result.Err? ==>
              Then(prefix, i - 1, Iterate(i, n, false, runs)) == LoopTrace(prefix + [i], i - 1, a.flag, Some(a.result.error))
    ensures a.result.Ok? ==>
              Then(prefix, i - 1, Iterate(i, n, false, runs)) == Then(prefix + [i], i, Iterate(i + 1, n, a.flag, runs))
  {
    if a.result.Ok? {
      var rest := Iterate(i + 1, n, a.flag, runs);
      assert prefix + ([i] + rest.invoked) == prefix + [i] + rest.invoked;
    }
  }

  /** The loop ends once past n or once the flag is set. */
  lemma IterateDone(prefix: seq<nat>, done: nat, i: nat, n: nat, flag: bool, runs: nat -> AgentRun)
    requires 1 <= i && (n < i || flag)
    ensures Then(prefix, done, Iterate(i, n, flag, runs)) == LoopTrace(prefix, done, flag, None)
  {
    assert prefix + [] == prefix;
  }

  /** The iteration numbers lo, lo + 1, ..., hi - 1. */
  function Range(lo: nat, hi: nat): (r: seq<nat>)
    ensures |r| == if lo <= hi then hi - lo else 0
    ensures forall j :: 0 <= j < |r| ==> r[j] == lo + j
    decreases hi - lo
  {
    if hi <= lo then [] else [lo] + Range(lo + 1, hi)
  }

  /** With every invocation succeeding and no interrupt, iterations i..n all run, in order. */
  lemma {:induction false} IterateAllSucceed(i: nat, n: nat, runs: nat -> AgentRun)
    requires 1 <= i
    requires forall j :: i <= j <= n ==> Succeeds(runs(j))
    ensures Iterate(i, n, false, runs) == LoopTrace(Range(i, n + 1), |Range(i, n + 1)|, false, None)
    decreases n + 1 - i
  {
    if i <= n {
      IterateAllSucceed(i + 1, n, runs);
    }
  }

  /** A failure at iteration f stops the loop there, after f - i completed iterations. */
  lemma {:induction false} IterateStopsAtFailure(i: nat, f: nat, n: nat, runs: nat -> AgentRun)
    requires 1 <= i <= f <= n
    requires forall j :: i <= j < f ==> Succeeds(runs(j))
    requires runs(f).result.Err?
    ensures Iterate(i, n, false, runs) == LoopTrace(Range(i, f + 1), f - i, runs(f).flag, Some(runs(f).result.error))
    decreases f - i
  {
    if i < f {
      IterateStopsAtFailure(i + 1, f, n, runs);
    }
  }

  /** An interrupt during iteration s lets it finish and stops the loop before iteration s + 1. */
  lemma {:induction false} IterateStopsAfterInterrupt(i: nat, s: nat, n: nat, runs: nat -> AgentRun)
    requires 1 <= i <= s <= n
    requires forall j :: i <= j < s ==> Succeeds(runs(j))
    requires runs(s).result.Ok? && runs(s).flag
    ensures Iterate(i, n, false, runs) == LoopTrace(Range(i, s + 1), s + 1 - i, true, None)
    decreases s - i
  {
    if i < s {
      IterateStopsAfterInterrupt(i + 1, s, n, runs);
    } else {
      assert Iterate(s + 1, n, runs(s).flag, runs) == LoopTrace([], 0, true, None);
    }
  }

  /** The loop depends only on the outcomes of the iterations it can reach. */
  lemma {:induction false} IterateCongruent(i: nat, n: nat, flag: bool, r1: nat -> AgentRun, r2: nat -> AgentRun)
    requires 1 <= i
    requires forall j :: i <= j <= n ==> r1(j) == r2(j)
    ensures Iterate(i, n, flag, r1) == Iterate(i, n, flag, r2)
    decreases n + 1 - i
  {
    if i <= n && !flag && r1(i).result.Ok? {
      IterateCongruent(i + 1, n, r1(i).flag, r1, r2);
    }
  }

  /** The outcome of `run`: result, invoked iterations, completions, flag, and whether handlers were installed. */
  datatype RunTrace = RunTrace(result: Result<(), Exc>, invoked: seq<nat>, succeeded: nat, flag: bool, installed: bool)

  /** `run(agent, iterations)` with the tasks file in state `tasks` and the flag `flag` on entry. */
  function RunSpec(cfg: RalphConfig, flag: bool, agent: AgentName, iterations: Option<int>, tasks: FileState,
                   procs: (nat, seq<string>) -> Proc): RunTrace
  {
    if tasks.Missing? then RunTrace(Err(FileNotFoundError(cfg.tasksFile)), [], 0, flag, false)
    else match ReadTasksSpec(tasks, cfg.tasksFile)
      case Err(e) => RunTrace(Err(e), [], 0, flag, false)
      case Ok(ts) =>
        var count := IncompleteCount(ts);
        if count == 0 then RunTrace(Ok(()), [], 0, flag, false)
        else if iterations.Some? && iterations.value <= 0 then
          RunTrace(Err(ValueError(IterationsNotPositive)), [], 0, flag, false)
        else
          var n: nat := if iterations.Some? then iterations.value else count;
          var t := Iterate(1, n, flag, Outcomes(GetAgentConfig(cfg, agent), agent, procs));
          RunTrace(if t.failure.Some? then Err(t.failure.value) else Ok(()), t.invoked, t.succeeded, t.flag, true)
  }

  /** Every error the loop stops on comes from `_run_agent`: a RuntimeError or a shape error. */
  lemma {:induction false} IterateFailures(i: nat, n: nat, flag: bool, acfg: AgentConfig, agent: AgentName,
                                           procs: (nat, seq<string>) -> Proc)
    requires 1 <= i
    ensures var t := Iterate(i, n, flag, Outcomes(acfg, agent, procs));
            t.failure.Some? ==> t.failure.value.RuntimeError? || IsShapeError(t.failure.value)
    decreases n + 1 - i
  {
    if i <= n && !flag {
      var a := Outcomes(acfg, agent, procs)(i);
      AgentErrors(acfg, acfg.instructions, agent, false, procs(i, Command(acfg, acfg.instructions)));
      if a.result.Ok? {
        IterateFailures(i + 1, n, a.flag, acfg, agent, procs);
      }
    }
  }

  /**
   * `run` fails only with FileNotFoundError, a ValueError, a RuntimeError, or
   * a shape error from a malformed task element or stream event.
   */
  lemma RunErrors(cfg: RalphConfig, flag: bool, agent: AgentName, iterations: Option<int>, tasks: FileState,
                  procs: (nat, seq<string>) -> Proc)
    ensures var r := RunSpec(cfg, flag, agent, iterations, tasks, procs).result;
            r.Err? ==> r.error.FileNotFoundError? || IsValueError(r.error) || r.error.RuntimeError? || IsShapeError(r.error)
  {
    ReadTasksErrors(tasks, cfg.tasksFile);
    var ts := ReadTasksSpec(tasks, cfg.tasksFile);
    if ts.Ok? {
      var n: nat := if iterations.Some? && iterations.value > 0 then iterations.value else IncompleteCount(ts.value);
      IterateFailures(1, n, flag, GetAgentConfig(cfg, agent), agent, procs);
    }
  }

  /**
   * Every process `run` starts is the configured command with the instructions
   * appended: process behaviours that agree on that argument vector give the same run.
   */
  lemma RunStartsConfiguredCommand(cfg: RalphConfig, flag: bool, agent: AgentName, iterations: Option<int>,
                                   tasks: FileState, p1: (nat, seq<string>) -> Proc, p2: (nat, seq<string>) -> Proc)
    requires var acfg := GetAgentConfig(cfg, agent);
             forall j: nat :: p1(j, acfg.command + [acfg.instructions]) == p2(j, acfg.command + [acfg.instructions])
    ensures RunSpec(cfg, flag, agent, iterations, tasks, p1) == RunSpec(cfg, flag, agent, iterations, tasks, p2)
  {
    var acfg := GetAgentConfig(cfg, agent);
    var ts := ReadTasksSpec(tasks, cfg.tasksFile);
    if !tasks.Missing? && ts.Ok? {
      var n: nat := if iterations.Some? && iterations.value > 0 then iterations.value else IncompleteCount(ts.value);
      forall j | 1 <= j <= n
        ensures Outcomes(acfg, agent, p1)(j) == Outcomes(acfg, agent, p2)(j)
      {
        assert Command(acfg, acfg.instructions) == acfg.command + [acfg.instructions];
        assert p1(j, Command(acfg, acfg.instructions)) == p2(j, Command(acfg, acfg.instructions));
      }
      IterateCongruent(1, n, flag, Outcomes(acfg, agent, p1), Outcomes(acfg, agent, p2));
    }
  }

  /** A missing tasks file fails before anything else, whatever the iteration count. */
  lemma RunChecksTasksFileFirst(cfg: RalphConfig, flag: bool, agent: AgentName, iterations: Option<int>,
                                procs: (nat, seq<string>) -> Proc)
    ensures RunSpec(cfg, flag, agent, iterations, Missing, procs)
         == RunTrace(Err(FileNotFoundError(cfg.tasksFile)), [], 0, flag, false)
  {
  }

  /** When every task passes, `run` returns without invoking the agent, whatever the iteration count. */
  lemma RunNothingToDo(cfg: RalphConfig, flag: bool, agent: AgentName, iterations: Option<int>, tasks: FileState,
                       procs: (nat, seq<string>) -> Proc)
    requires ReadTasksSpec(tasks, cfg.tasksFile).Ok?
    requires var ts := ReadTasksSpec(tasks, cfg.tasksFile).value; forall j :: 0 <= j < |ts| ==> ts[j].passes
    ensures RunSpec(cfg, flag, agent, iterations, tasks, procs) == RunTrace(Ok(()), [], 0, flag, false)
  {
    NoIncompleteIffAllPass(ReadTasksSpec(tasks, cfg.tasksFile).value);
  }

  /** With work to do, an explicit count <= 0 is rejected before any invocation. */
  lemma RunRejectsNonPositive(cfg: RalphConfig, flag: bool, agent: AgentName, n: int, tasks: FileState,
                              procs: (nat, seq<string>) -> Proc)
    requires n <= 0
    requires ReadTasksSpec(tasks, cfg.tasksFile).Ok?
    requires var ts := ReadTasksSpec(tasks, cfg.tasksFile).value; exists j :: 0 <= j < |ts| && !ts[j].passes
    ensures RunSpec(cfg, flag, agent, Some(n), tasks, procs)
         == RunTrace(Err(ValueError(IterationsNotPositive)), [], 0, flag, false)
  {
    NoIncompleteIffAllPass(ReadTasksSpec(tasks, cfg.tasksFile).value);
  }

  /** The number of iterations `run` plans: the explicit count, or else the number of incomplete tasks. */
  function Planned(iterations: Option<int>, ts: seq<Task>): int
  {
    if iterations.Some? then iterations.value else IncompleteCount(ts)
  }

  /**
   * With work to do and an agent that always succeeds without interruption,
   * `run` invokes it for iterations 1..N in order and completes N of them,
   * where N is the explicit count or else the number of incomplete tasks.
   */
  lemma RunAllSucceed(cfg: RalphConfig, agent: AgentName, iterations: Option<int>, tasks: FileState,
                      procs: (nat, seq<string>) -> Proc)
    requires ReadTasksSpec(tasks, cfg.tasksFile).Ok?
    requires var ts := ReadTasksSpec(tasks, cfg.tasksFile).value; exists j :: 0 <= j < |ts| && !ts[j].passes
    requires iterations.None? || iterations.value > 0
    requires forall j :: 1 <= j <= Planned(iterations, ReadTasksSpec(tasks, cfg.tasksFile).value) ==>
               Succeeds(Outcomes(GetAgentConfig(cfg, agent), agent, procs)(j))
    ensures var n := Planned(iterations, ReadTasksSpec(tasks, cfg.tasksFile).value);
            n > 0 && RunSpec(cfg, false, agent, iterations, tasks, procs) == RunTrace(Ok(()), Range(1, n + 1), n, false, true)
  {
    var ts := ReadTasksSpec(tasks, cfg.tasksFile).value;
    NoIncompleteIffAllPass(ts);
    IterateAllSucceed(1, Planned(iterations, ts), Outcomes(GetAgentConfig(cfg, agent), agent, procs));
  }

  /** A failure at iteration f ends `run` with that error after f - 1 completed iterations. */
  lemma RunStopsAtFirstFailure(cfg: RalphConfig, agent: AgentName, iterations: Option<int>, tasks: FileState,
                               procs: (nat, seq<string>) -> Proc, f: nat)
    requires ReadTasksSpec(tasks, cfg.tasksFile).Ok?
    requires var ts := ReadTasksSpec(tasks, cfg.tasksFile).value; exists j :: 0 <= j < |ts| && !ts[j].passes
    requires 1 <= f <= Planned(iterations, ReadTasksSpec(tasks, cfg.tasksFile).value)
    requires forall j :: 1 <= j < f ==> Succeeds(Outcomes(GetAgentConfig(cfg, agent), agent, procs)(j))
    requires Outcomes(GetAgentConfig(cfg, agent), agent, procs)(f).result.Err?
    ensures var a := Outcomes(GetAgentConfig(cfg, agent), agent, procs)(f);
            var r := RunSpec(cfg, false, agent, iterations, tasks, procs);
            r.result == Err(a.result.error) && r.invoked == Range(1, f + 1) && r.succeeded == f - 1 && r.installed
  {
    var ts := ReadTasksSpec(tasks, cfg.tasksFile).value;
    NoIncompleteIffAllPass(ts);
    IterateStopsAtFailure(1, f, Planned(iterations, ts), Outcomes(GetAgentConfig(cfg, agent), agent, procs));
  }

  class LoopRunner {
    const config: RalphConfig
    var completed: nat
    var interrupted: bool
    /** SIGINT and SIGTERM are routed to the runner's handler rather than the default. */
    ghost var handlersInstalled: bool
    /** How many times `run` has installed its handlers. */
    ghost var installations: nat

    constructor (config: RalphConfig)
      ensures this.config == config
      ensures completed == 0 && !interrupted
      ensures !handlersInstalled && installations == 0
    {
      this.config := config;
      completed := 0;
      interrupted := false;
      handlersInstalled := false;
      installations := 0;
    }

    /** `_signal_handler`: sets the interrupted flag. */
    method SignalHandler()
      requires handlersInstalled
      modifies this`interrupted
      ensures interrupted
    {
      interrupted := true;
    }

    /**
     * `_handle_streaming_output`: reads the output line by line, stopping when
     * the flag is set, interprets each decoded event, and checks the exit
     * status unless interrupted.
     */
    method HandleStreamingOutput(stdout: Option<seq<Option<JsonValue>>>, signalAt: Option<nat>, exitCode: int,
                                 command: seq<string>)
      returns (r: Result<int, Exc>, shown: seq<Display>, terminated: bool, stats: StreamState)
      requires handlersInstalled
      modifies this`interrupted
      ensures interrupted == (old(interrupted) || signalAt.Some?)
      ensures StreamResult(r, shown, terminated, stats) == StreamSpec(old(interrupted), stdout, signalAt, exitCode, command)
    {
      if stdout.None? {
        if signalAt.Some? {
          SignalHandler();
        }
        return Err(RuntimeError(StdoutUnavailable)), [], false, Init;
      }
      ghost var f0 := interrupted;
      var lines := stdout.value;
      ghost var cut := Cut(f0, signalAt, |lines|);
      var text: string := "";
      var tools: nat := 0;
      shown := [];
      terminated := false;
      var k := 0;
      while k < |lines|
        invariant 0 <= k <= cut
        invariant interrupted == (f0 || (signalAt.Some? && signalAt.value < k))
        invariant Interpret(Start, lines[..k]) == Trace(StreamState(text, tools), shown, None)
        invariant !terminated
      {
        if signalAt == Some(k) {
          SignalHandler();
        }
        if interrupted {
          terminated := true;
          break;
        }
        var line := lines[k];
        assert lines[..k + 1][..k] == lines[..k];
        if !Skipped(line) {
          var step := Step(StreamState(text, tools), line.value);
          if step.Err? {
            assert lines[..cut] == lines[..k + 1] + lines[k + 1..cut];
            InterpretAppend(Start, lines[..k + 1], lines[k + 1..cut]);
            CrashIsFinal(Interpret(Start, lines[..k + 1]), lines[k + 1..cut]);
            if signalAt.Some? && !interrupted {
              SignalHandler();
            }
            return Err(step.error), shown, false, StreamState(text, tools);
          }
          text, tools := step.value.st.text, step.value.st.tools;
          shown := shown + step.value.out;
        }
        k := k + 1;
      }
      assert k == cut;
      if signalAt.Some? && !interrupted {
        SignalHandler();
      }
      if exitCode != 0 && !interrupted {
        r := Err(CalledProcessError(exitCode, command));
      } else {
        r := Ok(exitCode);
      }
      stats := StreamState(text, tools);
    }

    /**
     * `_run_agent`: runs the command with the instructions appended, streaming
     * for the cursor agent, and maps process errors to RuntimeError.
     */
    method RunAgent(acfg: AgentConfig, instructions: string, agent: AgentName, spawn: seq<string> -> Proc)
      returns (r: Result<int, Exc>, shown: seq<Display>)
      requires handlersInstalled
      modifies this`interrupted
      ensures AgentRun(r, interrupted, shown)
           == AgentSpec(acfg, instructions, agent, old(interrupted), spawn(Command(acfg, instructions)))
    {
      var command := Command(acfg, instructions);
      var isStreaming := IsStreaming(agent, acfg.command);
      match spawn(command)
      case NotInstalled =>
        if |acfg.command| == 0 {
          r := Err(IndexError);
        } else {
          r := Err(RuntimeError(AgentNotFound(acfg.command[0])));
        }
        shown := [];
      case Spawned(stdout, signalAt, exitCode) =>
        if isStreaming {
          var res, sh, _, _ := HandleStreamingOutput(stdout, signalAt, exitCode, command);
          if res.Err? && res.error.CalledProcessError? {
            r := Err(RuntimeError(AgentFailed(res.error.returncode)));
          } else {
            r := res;
          }
          shown := sh;
        } else {
          if signalAt.Some? {
            SignalHandler();
          }
          if exitCode != 0 {
            r := Err(RuntimeError(AgentFailed(exitCode)));
          } else {
            r := Ok(exitCode);
          }
          shown := [];
        }
    }

    /**
     * `run(agent, iterations)`: validate the tasks file, short-circuit when
     * nothing is incomplete, settle the iteration count, then invoke the agent
     * once per iteration with the handlers installed, restoring them on every
     * way out of the loop.
     */
    method Run(agent: AgentName, iterations: Option<int>, tasks: FileState, procs: (nat, seq<string>) -> Proc)
      returns (r: Result<(), Exc>, invoked: seq<nat>)
      requires !handlersInstalled
      modifies this
      ensures var t := RunSpec(config, old(interrupted), agent, iterations, tasks, procs);
              && r == t.result && invoked == t.invoked
              && completed == old(completed) + t.succeeded && interrupted == t.flag
              && installations == old(installations) + (if t.installed then 1 else 0)
      ensures !handlersInstalled
    {
      invoked := [];
      if tasks.Missing? {
        return Err(FileNotFoundError(config.tasksFile)), [];
      }
      var count := CountIncomplete(tasks, config.tasksFile);
      if count.Err? {
        return Err(count.error), [];
      }
      if count.value == 0 {
        return Ok(()), [];
      }
      var n: nat;
      if iterations.None? {
        n := count.value;
      } else if iterations.value <= 0 {
        return Err(ValueError(IterationsNotPositive)), [];
      } else {
        n := iterations.value;
      }
      var acfg := GetAgentConfig(config, agent);
      handlersInstalled := true;
      installations := installations + 1;
      var failure;
      OutcomesDescribe(acfg, agent, procs);
      failure, invoked := Iterations(n, acfg, agent, procs, Outcomes(acfg, agent, procs));
      handlersInstalled := false;
      r := if failure.Some? then Err(failure.value) else Ok(());
    }

    /** The loop's call `self._run_agent(agent_config, agent_config.instructions, agent)`, made with the flag clear. */
    method Invoke(ghost runs: nat -> AgentRun, i: nat, acfg: AgentConfig, agent: AgentName, procs: (nat, seq<string>) -> Proc)
      returns (res: Result<int, Exc>)
      requires handlersInstalled && !interrupted && Describes(runs, acfg, agent, procs)
      modifies this`interrupted
      ensures res == runs(i).result && interrupted == runs(i).flag
    {
      var shown;
      res, shown := RunAgent(acfg, acfg.instructions, agent, (argv: seq<string>) => procs(i, argv));
    }

    /** The `for` loop of `run`: iterations 1..n, stopping at the flag or at the first error. */
    method Iterations(n: nat, acfg: AgentConfig, agent: AgentName, procs: (nat, seq<string>) -> Proc, ghost runs: nat -> AgentRun)
      returns (failure: Option<Exc>, invoked: seq<nat>)
      requires handlersInstalled && Describes(runs, acfg, agent, procs)
      modifies this`completed, this`interrupted
      ensures handlersInstalled
      ensures var t := Iterate(1, n, old(interrupted), runs);
              && failure == t.failure && invoked == t.invoked
              && completed == old(completed) + t.succeeded && interrupted == t.flag
    {
      ghost var t0 := Iterate(1, n, interrupted, runs);
      ghost var c0 := completed;
      invoked := [];
      failure := None;
      assert t0 == Then([], 0, t0);
      var i := 1;
      while i <= n
        invariant 1 <= i <= n + 1
        invariant completed == c0 + (i - 1)
        invariant t0 == Then(invoked, i - 1, Iterate(i, n, interrupted, runs))
      {
        if interrupted {
          break;
        }
        var res := Invoke(runs, i, acfg, agent, procs);
        IterateStep(invoked, i, n, runs, runs(i));
        invoked := invoked + [i];
        if res.Err? {
          return Some(res.error), invoked;
        }
        completed := completed + 1;
        i := i + 1;
      }
      IterateDone(invoked, i - 1, i, n, interrupted, runs);
    }
  }
}
