# ralph-loop in Dafny

ralph-loop is a command-line utility. It runs an AI coding agent (`claude`,
`cursor-agent` or `opencode`) again and again over a JSON task queue
(`.ralph/tasks_list.json`). The number of iterations defaults to the number of
tasks whose `passes` flag is false.

This project models the core of that utility and proves properties of the model:

- the tasks file reader;
- the configuration: its defaults, save, load and `get_config`;
- the loop runner (`LoopRunner`): interruption flag, per-iteration agent
  invocation, and the streaming-output interpreter used for the cursor agent;
- the `run` command's validation and its mapping from exceptions to exit codes.

Modules, one per concern:

| module | file | what it holds |
|---|---|---|
| `Wrappers` | wrappers.dfy | `Option` and `Result` |
| `Paths` | paths.dfy | POSIX paths as normalised components; `str()` and `Path()` |
| `Errors` | errors.dfy | the Python exceptions raised, caught or escaping |
| `Json` | json.dfy | decoded JSON values and the dict/str/list operations the code applies to them (`get`, `in`, `[k]`, `[0]`), each with Python's error for the wrong shape |
| `Tasks` | tasks.dfy | `Task`, `read_tasks` (an imperative loop proved against `ReadTasksSpec`), `count_incomplete`, `get_incomplete_tasks` |
| `Config` | config.dfy | `AgentConfig`, `RalphConfig`, defaults, `get_agent_config`, `save`, `load` (its key loop is a method), `get_config` |
| `Stream` | stream.dfy | one step of the streaming loop per decoded line, and the interpretation of a whole stream (`Interpret`) |
| `Runner` | runner.dfy | class `LoopRunner` with fields `completed` and `interrupted`; its methods are proved against `StreamSpec`, `AgentSpec`, `Iterate` and `RunSpec` |
| `Cli` | cli.dfy | the `run` command as the function `CliRun`, with `validate_agent` and the exit-code mapping |

Things outside the program are inputs to the model:

- The file system is a map from paths to `FileState`: `Missing`, `Undecodable`, or `Decoded(value)`.
- Starting an agent process is the oracle `procs(j, argv)`: what starting the
  argument vector `argv` in iteration j does. The result is a `Proc`, either
  `NotInstalled` or `Spawned`, carrying:
  - its decoded output lines (`None` for a line that is not JSON);
  - the moment, if any, an interrupt signal arrives;
  - its exit status.
- An interrupt sets `LoopRunner.interrupted` through `SignalHandler`. The
  streaming loop checks the flag before each line, and the main loop checks
  it before each iteration. At the command line an interrupted run exits with
  130, the status the handler exits with.

`RalphConfig.load` with an explicitly given path that does not exist returns the
built-in defaults, as the code at ralph_loop/config.py:151-153 does; the model
follows the code (`Config.LoadMissingGivesDefaults`).

## Model

| member | source | states |
|---|---|---|
| Paths.Parse | ralph_loop/config.py:161 | `Path(s)` is absolute exactly when `s` starts with `/`; every component is non-empty, not `.`, and free of `/` |
| Paths.ParseToStr | ralph_loop/config.py:141-143 | converting a path to a string and back with `Path()` gives the same path |
| Tasks.DecodeTask | ralph_loop/tasks.py:9-15 | `Task(**item)` succeeds exactly for an object with string `category` and `description`, a list of strings `steps` and a boolean `passes`, and carries those values; otherwise a validation error for an object, a TypeError for anything else |
| Tasks.ValidateFromAllValid | ralph_loop/tasks.py:40-48 | when every element is a valid record, the list is accepted with one task per element, in the same order |
| Tasks.ValidateFromFirstBad | ralph_loop/tasks.py:40-46 | validation stops at the first invalid element and reports `Invalid task at index i` for that index (a non-object element raises TypeError instead) |
| Tasks.ValidateFromErrors | ralph_loop/tasks.py:40-46 | validation fails only with a ValueError or a TypeError |
| Tasks.ReadTasksErrors | ralph_loop/tasks.py:29-48 | `read_tasks` fails only with FileNotFoundError for its own path, a ValueError (decode errors included) or a TypeError |
| Tasks.ReadTasksSucceeds | ralph_loop/tasks.py:29-48 | `read_tasks` succeeds exactly when the file exists, decodes to a list and every element is valid; the result then has one task per element, in order |
| Tasks.ReadTasks | ralph_loop/tasks.py:29-48 | the append loop computes `ReadTasksSpec`: missing file, undecodable file, non-list, first bad index, or every task |
| Tasks.DecodeAll | ralph_loop/tasks.py:40-48 | the `enumerate` loop over the decoded list computes `ValidateFrom`: the first bad element aborts it, otherwise every task is collected in order |
| Tasks.IncompleteCountIsLength | ralph_loop/tasks.py:50-58 | `count_incomplete` equals the length of `get_incomplete_tasks` and is at most the number of tasks |
| Tasks.NoIncompleteIffAllPass | ralph_loop/tasks.py:50-53 | the count is 0 exactly when every task has `passes` true |
| Tasks.IncompleteKeepsExactly | ralph_loop/tasks.py:55-58 | `get_incomplete_tasks` keeps every task with `passes` false, as often as it occurs, and no other |
| Tasks.IncompleteOfConcat | ralph_loop/tasks.py:55-58 | the filter preserves order: filtering a concatenation concatenates the filtered parts |
| Tasks.CountIncomplete | ralph_loop/tasks.py:50-53 | fails exactly when `read_tasks` fails, with its error; otherwise the number of tasks with `passes` false |
| Tasks.IncompleteCount | ralph_loop/tasks.py:50-53 | the number of tasks with `passes` false; its properties are `Tasks.IncompleteCountIsLength` and `Tasks.NoIncompleteIffAllPass` |
| Tasks.Incomplete | ralph_loop/tasks.py:55-58 | the tasks with `passes` false, in order; its properties are `Tasks.IncompleteKeepsExactly` and `Tasks.IncompleteOfConcat` |
| Tasks.GetIncompleteTasks | ralph_loop/tasks.py:55-58 | fails exactly when `read_tasks` fails, with its error; otherwise the tasks with `passes` false, in order |
| Config.Default | ralph_loop/config.py:35-102 | the default configuration file path and the three default agent commands |
| Config.DefaultPaths | ralph_loop/config.py:27-38 | the default paths read `.ralph/tasks_list.json`, `.ralph/progress_tasks.txt` and `.ralph/ralph_config.json` |
| Config.DefaultCommands | ralph_loop/config.py:41-102 | the default commands start with `claude`, `agent` and `opencode`; the cursor agent's contains `--output-format` |
| Config.GetAgentConfig | ralph_loop/config.py:124-131 | the section for `claude`, `cursor-agent` or `opencode`; `Config.AgentSection` states which saved key each one is |
| Config.AgentSection | ralph_loop/config.py:124-131 | `get_agent_config` selects a distinct section per agent name (`claude`, `cursor_agent`, `opencode`), the one saved under that key |
| Config.Save | ralph_loop/config.py:133-146 | `save` writes the configuration, with paths as strings, to the given path or else to `config_file`, and changes no other file |
| Config.ToJson | ralph_loop/config.py:139-143 | the saved dict: the three paths as strings and each agent section under its key; `Config.AgentSection` and `Config.LoadSaveRoundTrip` state what reading it back gives |
| Config.ConvertPathsErrSticks | ralph_loop/config.py:158-161 | once a key fails to convert to a path, the later keys do not change the outcome |
| Config.ConvertPathsErrors | ralph_loop/config.py:158-161 | converting the path keys fails only with a TypeError (a non-string value) |
| Config.Construct | ralph_loop/config.py:163 | `RalphConfig(**config_dict)` fails only with a validation error, and an empty dict gives the defaults |
| Config.Load | ralph_loop/config.py:148-163 | the key loop and the validation compute `LoadSpec`: defaults for a missing file, a decode error, a TypeError for a non-object, or the validated configuration |
| Config.LoadMissingGivesDefaults | ralph_loop/config.py:151-153 | a missing file gives the defaults, even at an explicitly given path |
| Config.GetConfig | ralph_loop/config.py:166-173 | the three branches of `get_config`: an explicit path, the existing default path, or the defaults |
| Config.GetConfigIsLoad | ralph_loop/config.py:166-173 | `get_config(p)` agrees with `load(p)` on every file system |
| Config.LoadErrors | ralph_loop/config.py:148-173 | loading fails only with a decode error, a TypeError or a validation error, all caught by `except Exception` |
| Config.AgentRoundTrip | ralph_loop/config.py:139-163 | a saved agent section validates back to the same command and instructions |
| Config.ConvertSavedPaths | ralph_loop/config.py:141-161 | the saved path strings convert back to the original paths |
| Config.LoadSaveRoundTrip | ralph_loop/config.py:133-163 | loading from the path just saved to gives back the saved configuration |
| Stream.Step | ralph_loop/runner.py:64-122 | a value that is not a dict raises AttributeError; a dict event never raises when it is neither `assistant` nor `tool_call` `started`/`completed`, or when its nested values have the documented shapes (`WellShaped`); any exception is a shape error; otherwise the tool count rises by one exactly for `tool_call`/`started`, the text becomes the old text followed by `AssistantText` of the event, and every displayed character count equals the new text length |
| Stream.Interpret | ralph_loop/runner.py:54-122 | the read loop over the decoded lines, stopping at the first exception; its properties are the `Stream` lemmas below |
| Stream.InterpretAppend | ralph_loop/runner.py:54-122 | the stream is processed line by line: interpreting `a + b` is interpreting `b` after `a` |
| Stream.CrashIsFinal | ralph_loop/runner.py:53-129 | after an exception no further line is interpreted |
| Stream.CrashesAreShapeErrors | ralph_loop/runner.py:64-115 | the only exceptions events raise are TypeError, AttributeError, KeyError and IndexError |
| Stream.SkippedLineIsInvisible | ralph_loop/runner.py:35-62 | a line that is not JSON, or decodes to a falsy value, changes nothing |
| Stream.ToolCountIsStartedEvents | ralph_loop/runner.py:82-84 | without an exception, the tool count rises by the number of `tool_call`/`started` events |
| Stream.TextIsAssistantTexts | ralph_loop/runner.py:71-80 | without an exception, the accumulated text becomes the old text followed by the `content[0]["text"]` of each `assistant` event, in order |
| Stream.StateAtCrash | ralph_loop/runner.py:53-122 | an exception leaves the counters as they were after the lines before it, and the stream is exception-free exactly when every line is read cleanly |
| Stream.StreamCounters | ralph_loop/runner.py:71-84 | with or without an exception, the text is the old text followed by the `assistant` texts and the tool count rises by the `tool_call`/`started` events, over the lines read before the exception |
| Stream.WellShapedStream | ralph_loop/runner.py:54-122 | a stream of well-shaped events is read to its end without an exception, the text growing by every `assistant` text and the tool count by every `tool_call`/`started` event |
| Stream.ShownCountsNeverDecrease | ralph_loop/runner.py:71-122 | the displayed character counts never decrease and never exceed the accumulated text length |
| Runner.Command | ralph_loop/runner.py:140 | the command is the configured command with the instructions as its single last argument |
| Runner.IsStreaming | ralph_loop/runner.py:143 | streaming mode is the cursor agent with `--output-format` in its command; `Runner.DefaultStreamingAgents` states it for the defaults |
| Runner.DefaultStreamingAgents | ralph_loop/runner.py:143 | with the default configuration exactly the cursor agent runs in streaming mode |
| Runner.InterruptStopsReading | ralph_loop/runner.py:54-57 | an interrupt before line k stops the loop there: lines from k on do not matter, and the process is terminated |
| Runner.StreamExitStatus | ralph_loop/runner.py:131-134 | an exception from an event propagates as it is; otherwise a non-zero exit status raises CalledProcessError with the command exactly when not interrupted, and the status is returned |
| Runner.StreamStats | ralph_loop/runner.py:71-122 | after the whole stream, the final text is the concatenated `assistant` texts and the tool count the number of `tool_call`/`started` events, over the lines before an exception if one was raised |
| Runner.WellShapedStreamStats | ralph_loop/runner.py:54-134 | for a stream of well-shaped events read to its end, a zero exit status is returned and a non-zero one raises CalledProcessError, and the final text and tool count cover every line |
| Runner.StreamSkipsNoise | ralph_loop/runner.py:59-62 | a non-JSON line in the stream changes nothing in the outcome |
| Runner.AgentErrors | ralph_loop/runner.py:164-170 | `_run_agent` turns a missing executable into a RuntimeError naming `command[0]`; any error it raises is a RuntimeError or a shape error |
| Runner.AgentSpec | ralph_loop/runner.py:136-170 | one `_run_agent` call on the process started with `Runner.Command`: streaming or not, with the error mapping; its properties are `Runner.AgentErrors` and `Runner.AgentFailureCarriesCode` |
| Runner.AgentFailureCarriesCode | ralph_loop/runner.py:158-170 | a failing exit status, without an interrupt, becomes a RuntimeError with that code, in both modes, unless a streamed event raised first, whose exception then propagates |
| Runner.IterateShape | ralph_loop/runner.py:210-220 | the loop invokes iterations i, i+1, … in order, at most n+1-i of them; completed is the number invoked minus one if an error ended it; without error or interrupt all of them run |
| Runner.IterateAllSucceed | ralph_loop/runner.py:211-217 | with every invocation succeeding, iterations i..n all run and complete |
| Runner.IterateStopsAtFailure | ralph_loop/runner.py:211-217 | an error in iteration f ends the loop with that error after f-i completions |
| Runner.IterateStopsAfterInterrupt | ralph_loop/runner.py:211-213 | an interrupt during iteration s lets it complete and stops the loop before s+1 |
| Runner.IterateFailures | ralph_loop/runner.py:210-220 | the loop ends only with a RuntimeError or a shape error |
| Runner.IterateCongruent | ralph_loop/runner.py:210-220 | the loop depends only on the outcomes of the iterations it can reach |
| Runner.RunSpec | ralph_loop/runner.py:172-227 | `run` as a function of the configuration, the flag, the agent, the count, the tasks file and the processes; its properties are the `Runner.Run…` lemmas |
| Runner.RunStartsConfiguredCommand | ralph_loop/runner.py:136-216 | every process `run` starts is the configured command with the instructions appended: process behaviours that agree on that argument vector give the same run |
| Runner.RunErrors | ralph_loop/runner.py:172-227 | `run` fails only with FileNotFoundError, a ValueError, a RuntimeError or a shape error |
| Runner.RunChecksTasksFileFirst | ralph_loop/runner.py:179-183 | a missing tasks file is reported before anything else, whatever the iteration count |
| Runner.RunNothingToDo | ralph_loop/runner.py:186-193 | with no incomplete task, `run` returns without invoking the agent, whatever the iteration count |
| Runner.RunRejectsNonPositive | ralph_loop/runner.py:196-199 | with work to do, an explicit count <= 0 raises ValueError before any invocation |
| Runner.RunAllSucceed | ralph_loop/runner.py:195-220 | with succeeding invocations, iterations 1..N run and complete, where N is the explicit count or else the number of incomplete tasks |
| Runner.RunStopsAtFirstFailure | ralph_loop/runner.py:210-220 | an error in iteration f ends `run` with that error after f-1 completions |
| Runner.LoopRunner.constructor | ralph_loop/runner.py:17-22 | a new runner has the configuration, zero completions and the flag clear |
| Runner.LoopRunner.SignalHandler | ralph_loop/runner.py:29-33 | the handler runs only while installed, and sets the interrupted flag |
| Runner.LoopRunner.HandleStreamingOutput | ralph_loop/runner.py:42-134 | with the handlers installed, the line loop computes `StreamSpec`, and the flag afterwards is set exactly when it was set before or a signal arrived |
| Runner.LoopRunner.RunAgent | ralph_loop/runner.py:136-170 | with the handlers installed, one invocation starts the process for `Runner.Command(acfg, instructions)` and computes `AgentSpec` on it, including the flag afterwards |
| Runner.LoopRunner.Invoke | ralph_loop/runner.py:216 | with the handlers installed, the `_run_agent` call of iteration i yields the outcome recorded for that iteration, and sets the flag as that outcome says |
| Runner.LoopRunner.Iterations | ralph_loop/runner.py:210-220 | the loop runs with the handlers installed and leaves them installed; it computes `Iterate` from iteration 1 and adds its completions to `completed` |
| Runner.LoopRunner.Run | ralph_loop/runner.py:172-227 | `run` computes `RunSpec`: result, invoked iterations, completions added and the final flag; the handlers are installed once when the loop is reached, stay installed for the whole loop (the requires of `Iterations`), and are restored on every way out |
| Cli.ValidateAgent | ralph_loop/cli.py:20-25 | accepts exactly `claude`, `cursor-agent` and `opencode` and returns the name unchanged; anything else is a bad parameter |
| Cli.ValidateAgentText | ralph_loop/cli.py:20-25 | every agent name is accepted and gives itself back |
| Cli.ExitFor | ralph_loop/cli.py:61-74 | exit 1 exactly for FileNotFoundError, a ValueError or a RuntimeError; 130 exactly for KeyboardInterrupt; any other exception escapes |
| Cli.UnknownAgentRejectedFirst | ralph_loop/cli.py:45 | an unknown agent is a usage error before iterations are checked or the configuration is loaded |
| Cli.NonPositiveIterationsExitOne | ralph_loop/cli.py:48-50 | a count <= 0 exits with 1 before the configuration is loaded or a runner is built |
| Cli.ConfigErrorExitsOne | ralph_loop/cli.py:53-57 | a configuration that fails to load exits with 1 and no runner is called |
| Cli.CliRun | ralph_loop/cli.py:28-74 | the `run` command: agent check, count check, configuration, then the runner, with the exit-code mapping; its properties are the `Cli` lemmas below |
| Cli.RunnerOutcome | ralph_loop/cli.py:59-74 | the runner is called once with the loaded configuration, the agent and the count as given; exit 130 exactly when the run was interrupted; otherwise exit 0 exactly when it returns, and 1 on its errors except an escaping shape error |
| Cli.ExitStatuses | ralph_loop/cli.py:28-74 | the command ends only with exit 0, 1 or 130, a usage error, or an escaping shape error |

## Left out

- Processes and the operating system are inputs, not modelled. This covers
  `Popen` and `run`, pipes, `terminate`, `wait` and `poll`.
- Signal registration is recorded only in the ghost fields `handlersInstalled`
  and `installations`.
- Runner.LoopRunner.SignalHandler: sets the flag but does not print or call
  `sys.exit(130)`. In the runner model the interrupted iteration therefore
  finishes and counts as completed, and the loop stops at its next flag check,
  whereas the program itself ends with SystemExit(130) as soon as the signal
  arrives. The command's exit status is
  modelled (`Cli.CliRun` exits 130 for an interrupted run); the runner's state
  after the exit is not.
- Runner.LoopRunner.HandleStreamingOutput: a KeyboardInterrupt raised while
  reading the stream (terminate, wait, re-raise) is not modelled. Interrupts
  arrive only through the handler.
- Output is not modelled. Printed text, emoji and colours become the `Display`
  values of the stream interpreter, or are dropped.
- Wall-clock timing is not modelled: `time.time()` and the elapsed seconds.
- JSON decoding and encoding are not modelled. Files and stream lines are
  already-decoded values, or marked undecodable.
- JSON numbers are integers; floats are not represented.
- Pydantic's lax coercion is not modelled. Validation is a strict field-type
  check, and unknown keys are ignored.
- The `RALPH_` environment-variable overrides of the settings class are not modelled.
- File I/O is the file-system map. Creating parent directories in `save` is not modelled.
- The `config` subcommand (ralph_loop/cli.py:77-106) only prints messages
  around `save` and an existence test; it is not modelled.
- Cli.CliRun: the exit status of a rejected agent name is left to the
  command-line framework. It is modelled as the outcome `UsageError`.
- Cli.CliRun: a KeyboardInterrupt from the runner would exit with 130
  (`Cli.ExitFor`). The modelled runner never raises one, because interrupts
  arrive through the handler; the handler's own exit with 130 is what
  `Cli.CliRun` maps an interrupted run to.
- Paths.Parse: POSIX's special case of exactly two leading slashes (`//x`) is
  read as a single root.
- The agents' instruction texts are opaque placeholder strings. Only their
  identity matters to the model.
