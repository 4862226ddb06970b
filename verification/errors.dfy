/** The Python exceptions the core raises, catches or lets escape. */
module Errors {
  import opened Paths

  /** Why a `ValueError` was raised. */
  datatype ValueReason =
    | NotAList                 // the tasks file holds something other than a list
    | InvalidTask(index: nat)  // the element at `index` is not a valid task record
    | IterationsNotPositive    // an explicit iteration count <= 0

  /** Why a `RuntimeError` was raised. */
  datatype RuntimeReason =
    | AgentNotFound(executable: string)  // the first element of the configured command
    | AgentFailed(exitCode: int)
    | StdoutUnavailable

  datatype Exc =
    | FileNotFoundError(path: Path)
    | JSONDecodeError
    | ValueError(why: ValueReason)
    | ValidationError
    | RuntimeError(cause: RuntimeReason)
    | CalledProcessError(returncode: int, cmd: seq<string>)
    | TypeError
    | AttributeError
    | KeyError
    | IndexError
    | KeyboardInterrupt

  /** `except ValueError` also catches `json.JSONDecodeError` and pydantic's `ValidationError`. */
  predicate IsValueError(e: Exc)
  {
    e.JSONDecodeError? || e.ValueError? || e.ValidationError?
  }

  /** The exceptions Python raises when decoded data has an unexpected shape. */
  predicate IsShapeError(e: Exc)
  {
    e.TypeError? || e.AttributeError? || e.KeyError? || e.IndexError?
  }

  /** `except Exception` catches everything here except `KeyboardInterrupt`. */
  predicate IsException(e: Exc)
  {
    !e.KeyboardInterrupt?
  }
}
