# A model of the coding agent's tool loop and script runner

The program is a small command-line coding agent. It holds a conversation with a
language model. On each user turn it sends the whole history to the model and records
the candidates the model answers with. It then carries out the function calls the
model asks for, through a dispatcher over four file operations, and appends one tool
message per call. This repeats until the model answers without calls or until 20 tool
calls have been made in the turn. Then it asks the user for the next prompt, and `/q`
ends the program.

Only one of the four operations is modelled in full: running a Python script inside
the working directory. It resolves the requested path lexically, the way Python's
`posixpath.abspath` does. It refuses paths outside the working directory, missing
paths and names that do not end in `.py`. Otherwise it runs the interpreter with a
30-second limit and renders the outcome as text.

Modules:

- `Wrappers`: `Option` and `Result`.
- `PosixPath`: `join`, `split('/')`, `normpath` and `abspath`. The current directory is
  a parameter. `normpath` is modelled as a fold over segments and includes the POSIX
  rule that exactly two leading slashes are kept.
- `PyText`: `bytes.strip` and `str.strip`, and decimal rendering of integers.
- `RunPython`: `run_python_file` over a `Host`. The host supplies the process's current
  directory, an existence test and the interpreter's outcome for a script.
- `Dispatch`: `call_function`. The listing, reading and writing operations are given
  functions that return a text or raise.
- `Agent`: the turn loop (`RunTurn`) and the session loop (`Converse`). Each is a
  method proved equal to a recursive specification function (`UserTurn`, `Session`).
  The lemmas are proved about those functions. The model service and the user's input
  are parameters: a function from history to response, and a sequence of prompts.

The guard at `functions/run_python.py:10` tests a bare string prefix. So a sibling
directory whose name extends the working directory's name passes it.
`RunPython.SiblingDirectoryPassesGuard` proves this.

## Model

| member | source | states |
|---|---|---|
| PosixPath.Join | functions/run_python.py:7 | `os.path.join`: an absolute second part replaces the first; otherwise the result starts with the first part and ends with the second |
| PosixPath.IsAbs | functions/run_python.py:7 | definition of `posixpath.isabs`: the path starts with a slash; used by `Join` and `AbsPath` |
| PosixPath.Split | functions/run_python.py:7 | `split('/')` yields at least one segment, and no segment holds a separator |
| PosixPath.SplitCount | functions/run_python.py:7 | `split('/')` yields one segment more than there are separators |
| PosixPath.JoinSplit | functions/run_python.py:7 | joining the segments of `split('/')` with `/` gives the path back |
| PosixPath.SplitJoin | functions/run_python.py:7 | splitting the join of separator-free segments gives the segments back |
| PosixPath.Push | functions/run_python.py:5-7 | definition of one step of `normpath`'s loop over components: drop empty and `.` components, let `..` pop a name, keep a `..` with nothing to pop in a relative path and drop it at the root; its properties are stated by `FoldCanonical` and `FoldNameParent` |
| PosixPath.Fold | functions/run_python.py:5-7 | definition of `normpath`'s loop over components; its properties are stated by `FoldCanonical`, `FoldAppend` and `FoldNoParent` |
| PosixPath.NormPath | functions/run_python.py:5-7 | definition of `posixpath.normpath`; its properties are stated by `NormPathShape` and `NormPathIdempotent` |
| PosixPath.AbsPath | functions/run_python.py:5-7 | definition of `posixpath.abspath` with the current directory as a parameter; its properties are stated by `AbsPathAbsolute`, `AbsPathIdempotent`, `AbsPathRelative` and `NoParentStaysBelow` |
| PosixPath.RootSlashes | functions/run_python.py:5-7 | `normpath` keeps at most two leading slashes, and keeps some exactly when the path is absolute |
| PosixPath.FoldCanonical | functions/run_python.py:5-7 | the `normpath` fold over segments leaves no empty, `.` or (below the root) `..` segment |
| PosixPath.FoldAppend | functions/run_python.py:5-7 | the fold over a concatenation is the fold of the first part continued over the second |
| PosixPath.NormPathShape | functions/run_python.py:5-7 | the components `normpath` keeps are canonical |
| PosixPath.NormPathIdempotent | functions/run_python.py:5-7 | `normpath(normpath(p)) == normpath(p)` |
| PosixPath.AbsPathAbsolute | functions/run_python.py:5-7 | `abspath` yields an absolute path |
| PosixPath.AbsPathIdempotent | functions/run_python.py:5-7 | `abspath(abspath(p)) == abspath(p)` |
| PosixPath.AbsoluteReplacesBase | functions/run_python.py:7 | an absolute `file_path` ignores the working directory: the result is `normpath(file_path)` |
| PosixPath.AbsPathRelative | functions/run_python.py:5-7 | a relative path is resolved against the current directory, through a single separator |
| PosixPath.DotSegmentVanishes | functions/run_python.py:7 | a leading `./` does not change where a relative path resolves |
| PosixPath.ParentFolds | functions/run_python.py:7 | `name/../p` resolves where `p` does |
| PosixPath.SiblingPath | functions/run_python.py:7 | from `/d`, `./../<d+t>/f` resolves to `/<d+t>/f` |
| PosixPath.DotOneLevel | functions/run_python.py:5 | from `/d`, `abspath(".")` is `/d` |
| PosixPath.NoParentStaysBelow | functions/run_python.py:5-10 | a relative path without `..` segments resolves to a path that starts with the working directory's absolute path |
| PyText.Strip | functions/run_python.py:31-32 | `strip()` returns a contiguous slice of its input, removing exactly the leading and trailing whitespace |
| PyText.NatToString | functions/run_python.py:34 | decimal rendering: nonempty, digits only, no leading zero |
| PyText.ParseNatToString | functions/run_python.py:34 | reading back the decimal rendering gives the number |
| PyText.IntToString | functions/run_python.py:34 | negative codes are rendered with a minus sign before the magnitude |
| PyText.ParseIntToString | functions/run_python.py:34 | the exit code's rendering is a numeral, and reading it back gives the code |
| PyText.IntToStringInjective | functions/run_python.py:34 | different exit codes are rendered differently |
| RunPython.WorkingDirAbs | functions/run_python.py:5 | definition of `os.path.abspath(working_directory)` |
| RunPython.ResolvedPath | functions/run_python.py:7 | definition of `os.path.abspath(os.path.join(working_directory, file_path))`; where it lands is stated by `TrailingDotResolves` and the guard lemmas |
| RunPython.Inside | functions/run_python.py:10 | definition of the guard as a bare string prefix; its consequences are stated by `RelativeWithoutParentPassesGuard`, `SiblingDirectoryPassesGuard` and `AbsoluteElsewhereRejected` |
| RunPython.Check | functions/run_python.py:10-18 | the three refusals in order: outside the working directory (bare prefix), then missing, then not ending in `.py`. Each holds exactly when the earlier tests passed. Otherwise the script to run is the resolved path |
| RunPython.StreamLine | functions/run_python.py:31-32 | `STDOUT: ` or `STDERR: ` with the stripped text, or `No STDOUT from script` / `No STDERR from script` when the stream is empty |
| RunPython.Report | functions/run_python.py:31-43 | the exact text for a non-zero exit (both streams and the code), for output on a zero exit, for no output, for a timeout after 30 seconds and for a failed launch |
| RunPython.RunPythonFile | functions/run_python.py:4-43 | each refusal's exact error text; otherwise the report of the interpreter run on the resolved path from the working directory |
| RunPython.NoLaunchWhenRejected | functions/run_python.py:10-18 | a refused request gives the same text whatever the interpreter would do, so nothing is run |
| RunPython.LaunchOnResolvedPath | functions/run_python.py:23-29 | an accepted request consults the interpreter only on the resolved absolute path with the working directory as current directory: any interpreter that agrees there gives the same result |
| RunPython.ErrorPrefix | functions/run_python.py:11-18 | every refusal text starts with `Error: ` |
| RunPython.ReportErrorPrefix | functions/run_python.py:31-43 | a report starts with `Error: ` exactly when the script did not run to an exit |
| RunPython.ErrorPrefixExactlyOnFailure | functions/run_python.py:4-43 | the result starts with `Error: ` exactly when the request was refused or the run timed out or failed to launch |
| RunPython.RelativeWithoutParentPassesGuard | functions/run_python.py:7-11 | a relative path with no `..` segment is never refused as outside |
| RunPython.SiblingDirectoryPassesGuard | functions/run_python.py:7-11 | `../<d+t>/f` from directory `/d` passes the guard although it resolves outside `/d` |
| RunPython.AbsoluteElsewhereRejected | functions/run_python.py:7-11 | from `/d`, an absolute one-name path `/e` whose first letter differs from `d`'s is refused as outside |
| RunPython.TrailingDotResolves | functions/run_python.py:7 | `n/.` resolves to the same path as `n` |
| RunPython.ExtensionTestedOnRequestedPath | functions/run_python.py:17-18 | `n/.` with `n` ending in `.py` resolves to a `.py` file yet is refused as not a Python file, because the test reads the requested path |
| Dispatch.Get | main.py:24-31 | `args.get(key)` is the value under the key, or `None` when the key is missing |
| Dispatch.RunScript | main.py:29 | `run_python_file(".", file_path)`; a missing `file_path` raises the `TypeError` of `posixpath.join` (`join() argument must be str, bytes, or os.PathLike object, not 'NoneType'`) |
| Dispatch.IsFalsy | main.py:24 | definition of Python truthiness for the arguments: absent or empty is false |
| Dispatch.Invoke | main.py:21-31 | each known name calls its operation with working directory `"."` and its arguments. `get_files_info` passes `directory` only when the arguments are truthy. The other three raise `AttributeError` when the arguments are absent |
| Dispatch.CallFunction | main.py:16-50 | an unknown name gives a tool message with `{"error": "Unknown function: <name>"}`; a known name gives `{"result": output}`; an exception propagates unchanged. Every message returned is a tool message with one response part for the called name |
| Dispatch.UnknownNameCallsNothing | main.py:32-41 | for an unknown name, the result does not depend on the operations |
| Dispatch.ResponseNeverMissing | main.py:42-50 | every message returned carries a response |
| Dispatch.RunScriptRequest | main.py:28-29 | a `run_python_file` call with a `file_path` gets back exactly the script runner's text for that path under `"."` |
| Agent.Handle | main.py:210 | definition: the loop's handler is `call_function` on the operations; its properties are stated by `HandleReplies` and `NoResponseCheckNeverFires` |
| Agent.NoResponse | main.py:211 | definition of the missing-response test on a tool message |
| Agent.Calls | main.py:206 | missing function calls count as none |
| Agent.ModelMessages | main.py:201-202 | one model message per candidate, in order, with the candidate's parts |
| Agent.HaltOf | main.py:210-213 | a call stops the loop exactly when it raised or its message has no response |
| Agent.DispatchAll | main.py:207-218 | calls are handled in order, one tool message each. The first call that stops the loop ends the dispatch, with no message for it |
| Agent.AppendCandidates | main.py:201-202 | the history grows by exactly the candidates' model messages |
| Agent.DispatchCalls | main.py:207-218 | the history grows by the dispatched messages; the counter grows by one per call attempted, including the one that stopped the loop |
| Agent.Turn | main.py:190-223 | definition of the inner loop from a given state; its properties are stated by `TurnExtends`, `TurnRequests`, `TurnEnding`, `TurnOvershoot`, `TurnCountsToolMessages`, `TurnAddsNoUser` and `TurnNeverMissing` |
| Agent.UserTurn | main.py:186-223 | definition of a whole turn: the inner loop entered with the counter reset to 0; `RunTurn` is proved to compute it |
| Agent.TurnNeverMissing | main.py:207-213 | with a handler that answers with tool messages carrying a response, a turn stops only on an exception |
| Agent.Step | main.py:190-223 | one pass of the inner loop either ends the turn with the turn's result or continues with a larger counter and the same remaining turn |
| Agent.RunTurn | main.py:186-223 | the inner loop computes exactly the turn `UserTurn` defines |
| Agent.TurnExtends | main.py:190-223 | a turn only appends to the history |
| Agent.TurnRequests | main.py:190-198 | a turn entered under the budget asks the model at least once and at most once per remaining call of budget |
| Agent.TurnEnding | main.py:190-227 | the counter never decreases; a turn ends on the budget exactly when it did not stop and the counter reached 20, which is the notice's condition |
| Agent.TurnOvershoot | main.py:190-209 | the budget is tested only before asking the model, so the counter may pass 20, but by less than the calls of the last response |
| Agent.TurnCountsToolMessages | main.py:209-218 | the counter rises by the number of tool messages appended, plus one when a call stopped the loop |
| Agent.TurnAddsNoUser | main.py:190-223 | a turn appends no user message |
| Agent.HandleReplies | main.py:210 | the dispatcher, used as the loop's handler, answers with tool messages that carry a response |
| Agent.DispatchOnlyRaises | main.py:210-213 | with such a handler, only an exception stops a dispatch |
| Agent.NoResponseCheckNeverFires | main.py:211-213 | with the real dispatcher, a turn never stops through the missing-response check: `sys.exit(1)` there is unreachable |
| Agent.UserMessage | main.py:239 | a prompt is recorded as a user message with a single text part |
| Agent.Session | main.py:185-239 | definition of the outer loop over the prompts; its properties are stated by `SessionStops`, `SessionEnds`, `SessionGoesOn` and `SessionNeverRecordsQuit`, and `Converse` is proved to compute it |
| Agent.SessionStops | main.py:185-239 | a turn that stops the program ends the session |
| Agent.SessionEnds | main.py:225-236 | after a finished turn, the end of input or a prompt that strips to `/q` ends the session with that turn's notice |
| Agent.SessionGoesOn | main.py:225-239 | any other prompt is recorded and the next turn starts with the counter reset |
| Agent.SessionNeverRecordsQuit | main.py:233-239 | a session only appends, and every user message it adds is a single text that does not strip to `/q` |
| Agent.TurnThenPrompt | main.py:185-239 | one pass of the outer loop either ends the session with its result, or leaves the turn's history plus the recorded prompt, from which the remaining prompts complete the same session |
| Agent.Converse | main.py:185-239 | the outer loop computes exactly the session `Session` defines: the final history, one notice flag per finished turn, and how it ended |

## Left out

- The Gemini client, the system prompt, the tool schemas, the model name and the API key are left out. The model's answers are a function of the history passed to the loop.
- Command-line arguments, `.env` loading, the `--verbose` output and token counts are left out. So are all printing, including the notice text and the final answer. The budget notice is modelled as a flag per finished turn.
- `input()` is modelled as a finite sequence of prompts. Running out of prompts ends the session (`InputExhausted`), where Python would raise `EOFError`.
- The first prompt is taken from the history the loop starts with. Building it from `sys.argv` or a first `input()` before line 185 is left out.
- `get_files_info`, `get_file_content` and `write_file` are not part of this model. They enter only as given functions that return a text or raise.
- The file system, the subprocess and the clock are not modelled. They enter through `RunPython.Host`: the process's current directory, an existence test on absolute paths, and the interpreter's outcome (exit code and streams, timeout, or launch failure).
- Symbolic links are not resolved, as in `os.path.abspath`.
- RunPython.StreamLine: the streams are modelled as text. Python formats the stripped `bytes` with its `b'...'` representation, and that rendering is not modelled.
- Agent.HaltOf: a message whose first part is not a function response is treated like a missing response. In Python that access would raise instead. `call_function` never builds such a message (`Dispatch.CallFunction`, `Agent.HandleReplies`).
- Argument values are modelled as strings. Non-string values the model might send are left out.
- The model service always answers. An exception from `generate_content` (main.py:191), a response whose `candidates` is `None` (iterated at main.py:201 without a check), and a candidate without `content` (main.py:202) would each end the program. None of these ways to end is modelled: `Agent.Service` is total and every candidate carries its parts.
- Concurrency and the program's exit status are left out.
