/**
 * `call_function(function_call_part)`: look the requested name up among the
 * four operations, call it with working directory `"."`, and wrap what it
 * returns as a tool message.  Exceptions raised on the way are not caught.
 */
module Dispatch {
  import opened Wrappers
  import RunPython

  /** Who a message in the conversation comes from. */
  datatype Role = User | Model | Tool

  /** A function call the model asks for; `args` is absent when the model sent none. */
  datatype FunctionCall = FunctionCall(name: string, args: Option<map<string, string>>)

  /** One part of a message: text, a call from the model, or the response to a call. */
  datatype Part =
    | Text(text: string)
    | CallPart(call: FunctionCall)
    | FunctionResponse(name: string, response: Option<map<string, string>>)

  /** One message of the conversation. */
  datatype Content = Content(role: Role, parts: seq<Part>)

  /** A Python exception: its class and message. */
  datatype Fault = Fault(kind: string, message: string)

  /** What an operation came to: a returned text, or an exception it raised. */
  datatype OpResult = Returned(value: string) | Raised(fault: Fault)

  /** The `directory` keyword of `get_files_info`: left out, or passed (possibly as `None`). */
  datatype DirectoryArg = Omitted | Passed(directory: Option<string>)

  /**
   * The operations the dispatcher can call.  Listing, reading and writing live in
   * modules that are not part of this model and are taken as given functions; the
   * script runner is the model of `run_python_file` on the host `host`.
   */
  datatype Operations = Operations(
    getFilesInfo: (string, DirectoryArg) -> OpResult,
    getFileContent: (string, Option<string>) -> OpResult,
    writeFile: (string, Option<string>, Option<string>) -> OpResult,
    host: RunPython.Host)

  /** Every operation is called with this working directory. */
  const WorkingDirectory: string := "."

  /** The names the dispatcher recognises. */
  predicate IsKnown(name: string) {
    name == "get_files_info" || name == "get_file_content" || name == "run_python_file" || name == "write_file"
  }

  /** `args.get(key)` */
  function Get(args: map<string, string>, key: string): (v: Option<string>)
    ensures v.Some? <==> key in args
    ensures v.Some? ==> v.value == args[key]
  {
    if key in args then Some(args[key]) else None
  }

  /** Python truthiness of the arguments: `None` and `{}` are false. */
  predicate IsFalsy(args: Option<map<string, string>>) {
    args.None? || args.value == map[]
  }

  /** What `args.get(...)` raises when the model sent no arguments at all. */
  const NoArgsFault: Fault := Fault("AttributeError", "'NoneType' object has no attribute 'get'")

  /** What `posixpath.join` raises inside `run_python_file` when `file_path` is `None`. */
  const NoPathFault: Fault :=
    Fault("TypeError", "join() argument must be str, bytes, or os.PathLike object, not 'NoneType'")

  /** `run_python_file(".", file_path)`, including the exception for a missing `file_path`. */
  function RunScript(host: RunPython.Host, fp: Option<string>): (r: OpResult)
    ensures fp.None? ==> r == Raised(NoPathFault)
    ensures fp.Some? ==> r == Returned(RunPython.RunPythonFile(host, WorkingDirectory, fp.value))
  {
    match fp
    case None => Raised(NoPathFault)
    case Some(p) => Returned(RunPython.RunPythonFile(host, WorkingDirectory, p))
  }

  /** The `match` on the name: which operation runs, with which arguments. */
  function Invoke(ops: Operations, call: FunctionCall): (r: OpResult)
    requires IsKnown(call.name)
    ensures call.name == "get_files_info" ==>
      r == ops.getFilesInfo(WorkingDirectory,
                            if IsFalsy(call.args) then Omitted else Passed(Get(call.args.value, "directory")))
    ensures call.name != "get_files_info" && call.args.None? ==> r == Raised(NoArgsFault)
    ensures call.name == "get_file_content" && call.args.Some? ==>
      r == ops.getFileContent(WorkingDirectory, Get(call.args.value, "file_path"))
    ensures call.name == "run_python_file" && call.args.Some? ==>
      r == RunScript(ops.host, Get(call.args.value, "file_path"))
    ensures call.name == "write_file" && call.args.Some? ==>
      r == ops.writeFile(WorkingDirectory, Get(call.args.value, "file_path"), Get(call.args.value, "content"))
  {
    if call.name == "get_files_info" then
      ops.getFilesInfo(WorkingDirectory,
                       if IsFalsy(call.args) then Omitted else Passed(Get(call.args.value, "directory")))
    else if call.args.None? then Raised(NoArgsFault)
    else
      var args := call.args.value;
      if call.name == "get_file_content" then ops.getFileContent(WorkingDirectory, Get(args, "file_path"))
      else if call.name == "run_python_file" then RunScript(ops.host, Get(args, "file_path"))
      else ops.writeFile(WorkingDirectory, Get(args, "file_path"), Get(args, "content"))
  }

  /** The tool message carrying one response for the call named `name`. */
  function ToolMessage(name: string, response: map<string, string>): Content {
    Content(Tool, [FunctionResponse(name, Some(response))])
  }

  /** A tool message the dispatcher builds: one function-response part, with a response. */
  predicate IsToolMessage(m: Content, name: string) {
    m.role == Tool && |m.parts| == 1 && m.parts[0].FunctionResponse? &&
    m.parts[0].name == name && m.parts[0].response.Some?
  }

  /**
   * `call_function`: an unknown name gives an error response and calls nothing; a known
   * name gives `{"result": output}` with exactly what the operation returned; an exception
   * the operation raises comes out unchanged.
   */
  function CallFunction(ops: Operations, call: FunctionCall): (r: Result<Content, Fault>)
    ensures r.Ok? ==> IsToolMessage(r.value, call.name)
    ensures !IsKnown(call.name) ==>
      r == Ok(ToolMessage(call.name, map["error" := "Unknown function: " + call.name]))
    ensures IsKnown(call.name) && Invoke(ops, call).Returned? ==>
      r == Ok(ToolMessage(call.name, map["result" := Invoke(ops, call).value]))
    ensures IsKnown(call.name) && Invoke(ops, call).Raised? ==> r == Err(Invoke(ops, call).fault)
  {
    if !IsKnown(call.name) then
      Ok(ToolMessage(call.name, map["error" := "Unknown function: " + call.name]))
    else
      match Invoke(ops, call)
      case Returned(output) => Ok(ToolMessage(call.name, map["result" := output]))
      case Raised(fault) => Err(fault)
  }

  /** An unknown name calls no operation: the result is the same whatever the operations are. */
  lemma UnknownNameCallsNothing(ops1: Operations, ops2: Operations, call: FunctionCall)
    requires !IsKnown(call.name)
    ensures CallFunction(ops1, call) == CallFunction(ops2, call)
  {
  }

  /** The dispatcher never returns a message without a response, so the loop's `None` check never fires. */
  lemma ResponseNeverMissing(ops: Operations, call: FunctionCall)
    ensures CallFunction(ops, call).Ok? ==> CallFunction(ops, call).value.parts[0].response.Some?
  {
  }

  /** Requests to run a script reach the runner with working directory `"."` and the requested path. */
  lemma RunScriptRequest(ops: Operations, call: FunctionCall, fp: string)
    requires call.name == "run_python_file" && call.args.Some? && Get(call.args.value, "file_path") == Some(fp)
    ensures CallFunction(ops, call) ==
      Ok(ToolMessage(call.name, map["result" := RunPython.RunPythonFile(ops.host, ".", fp)]))
  {
  }
}
