/**
 * `run_python_file(working_directory, file_path)`: the sandboxed script runner.
 * Three checks in a fixed order (containment, existence, extension), then one
 * run of the interpreter, whose outcome is flattened into a single text.
 */
module RunPython {
  import opened PosixPath
  import opened PyText

  /** What the run of the interpreter came to: a normal exit, the 30 second timeout, or any other exception. */
  datatype ProcessOutcome =
    | Exited(returncode: int, stdout: string, stderr: string)
    | TimedOut
    | LaunchFailed(message: string)

  /**
   * The machine the runner sees: the process working directory (`os.getcwd()`),
   * which paths exist (`os.path.exists`), and what running `python <script>` in a
   * given directory comes to.
   */
  datatype Host = Host(cwd: string, pathExists: string -> bool, python: (string, string) -> ProcessOutcome)

  /** `os.path.abspath(working_directory)` */
  function WorkingDirAbs(host: Host, wd: string): string {
    AbsPath(host.cwd, wd)
  }

  /** `os.path.abspath(os.path.join(working_directory, file_path))` */
  function ResolvedPath(host: Host, wd: string, fp: string): string {
    AbsPath(host.cwd, Join(wd, fp))
  }

  /** The guard: a bare string-prefix test, with no separator required after the prefix. */
  predicate Inside(host: Host, wd: string, fp: string) {
    StartsWith(ResolvedPath(host, wd, fp), WorkingDirAbs(host, wd))
  }

  /** Every failure the runner reports is a text with this prefix. */
  function Error(detail: string): string {
    "Error: " + detail
  }

  /** Which of the checks stopped the request, or the script that is run. */
  datatype Verdict = Outside | NotFound | NotPython | Run(script: string)

  /** The three checks, in the order the runner makes them. */
  function Check(host: Host, wd: string, fp: string): (v: Verdict)
    ensures v == Outside <==> !Inside(host, wd, fp)
    ensures v == NotFound <==> Inside(host, wd, fp) && !host.pathExists(ResolvedPath(host, wd, fp))
    ensures v == NotPython <==>
      Inside(host, wd, fp) && host.pathExists(ResolvedPath(host, wd, fp)) && !EndsWith(fp, ".py")
    ensures v.Run? ==> v.script == ResolvedPath(host, wd, fp)
  {
    var path := ResolvedPath(host, wd, fp);
    if !Inside(host, wd, fp) then Outside
    else if !host.pathExists(path) then NotFound
    else if !EndsWith(fp, ".py") then NotPython
    else Run(path)
  }

  /** One captured stream: labelled and stripped when it holds anything, a placeholder otherwise. */
  function StreamLine(name: string, data: string): (line: string)
    ensures data != "" ==> line == name + ": " + Strip(Bytes, data)
    ensures data == "" ==> line == "No " + name + " from script"
  {
    if data != "" then name + ": " + Strip(Bytes, data) else "No " + name + " from script"
  }

  /** Both captured streams, one line each, standard output first. */
  function StreamLines(out: string, err: string): (r: string)
    ensures r != "" && (r[0] == 'S' || r[0] == 'N')
  {
    var o := StreamLine("STDOUT", out);
    assert o[0] == 'S' || o[0] == 'N';
    o + "\n" + StreamLine("STDERR", err)
  }

  /** The text a finished, timed-out or failed run is reported as. */
  function Report(fp: string, outcome: ProcessOutcome): (r: string)
    ensures r != ""
    ensures outcome.Exited? && outcome.returncode != 0 ==>
      r == StreamLines(outcome.stdout, outcome.stderr) + "\n Process exited with code " + IntToString(outcome.returncode)
    ensures outcome.Exited? && outcome.returncode == 0 && (outcome.stdout != "" || outcome.stderr != "") ==>
      r == StreamLines(outcome.stdout, outcome.stderr)
    ensures outcome.Exited? && outcome.returncode == 0 && outcome.stdout == "" && outcome.stderr == "" ==>
      r == "No output produced"
    ensures outcome.TimedOut? ==> r == Error("Execution of \"" + fp + "\" timed out after 30 seconds")
    ensures outcome.LaunchFailed? ==> r == Error("executing Python file: " + outcome.message)
  {
    match outcome
    case Exited(code, out, err) =>
      if code != 0 then StreamLines(out, err) + "\n Process exited with code " + IntToString(code)
      else if out != "" || err != "" then StreamLines(out, err)
      else "No output produced"
    case TimedOut =>
      Error("Execution of \"" + fp + "\" timed out after 30 seconds")
    case LaunchFailed(msg) =>
      Error("executing Python file: " + msg)
  }

  /** `run_python_file(working_directory, file_path)`: always a text, never an exception. */
  function RunPythonFile(host: Host, wd: string, fp: string): (r: string)
    ensures r != ""
    ensures !Inside(host, wd, fp) ==>
      r == Error("Cannot execute \"" + fp + "\" as it is outside the permitted working directory")
    ensures Check(host, wd, fp) == NotFound ==> r == Error("File \"" + fp + "\" not found")
    ensures Check(host, wd, fp) == NotPython ==> r == Error("File \"" + fp + "\" is not a Python file")
    ensures Check(host, wd, fp).Run? ==> r == Report(fp, host.python(ResolvedPath(host, wd, fp), wd))
  {
    match Check(host, wd, fp)
    case Outside => Error("Cannot execute \"" + fp + "\" as it is outside the permitted working directory")
    case NotFound => Error("File \"" + fp + "\" not found")
    case NotPython => Error("File \"" + fp + "\" is not a Python file")
    case Run(script) => Report(fp, host.python(script, wd))
  }

  // ---------------------------------------------------------------------
  // What the runner promises
  // ---------------------------------------------------------------------

  /** A request that fails a check never reaches the interpreter: the result does not depend on it. */
  lemma NoLaunchWhenRejected(host: Host, wd: string, fp: string, other: (string, string) -> ProcessOutcome)
    requires !Check(host, wd, fp).Run?
    ensures RunPythonFile(host.(python := other), wd, fp) == RunPythonFile(host, wd, fp)
  {
    assert Check(host.(python := other), wd, fp) == Check(host, wd, fp);
  }

  /**
   * A request that passes consults the interpreter once, on the resolved path in the given
   * working directory: any interpreter that agrees there gives the same result.
   */
  lemma LaunchOnResolvedPath(host: Host, wd: string, fp: string, other: (string, string) -> ProcessOutcome)
    requires Check(host, wd, fp).Run?
    requires other(ResolvedPath(host, wd, fp), wd) == host.python(ResolvedPath(host, wd, fp), wd)
    ensures RunPythonFile(host.(python := other), wd, fp) == RunPythonFile(host, wd, fp)
  {
    assert Check(host.(python := other), wd, fp) == Check(host, wd, fp);
  }

  lemma ErrorPrefix(detail: string)
    ensures StartsWith(Error(detail), "Error: ")
  {
  }

  /** A text that starts with neither `E` nor anything at all is no error. */
  lemma NotErrorPrefix(r: string)
    requires r != "" && r[0] != 'E'
    ensures !StartsWith(r, "Error: ")
  {
    assert "Error: "[0] == 'E';
  }

  /** A report starts with `Error: ` exactly when the interpreter did not exit normally. */
  lemma ReportErrorPrefix(fp: string, outcome: ProcessOutcome)
    ensures StartsWith(Report(fp, outcome), "Error: ") <==> !outcome.Exited?
  {
    var r := Report(fp, outcome);
    match outcome
    case Exited(code, out, err) =>
      if code == 0 && out == "" && err == "" {
        assert r[0] == 'N';
      } else {
        assert r[0] == StreamLines(out, err)[0];
      }
      NotErrorPrefix(r);
    case TimedOut =>
      ErrorPrefix("Execution of \"" + fp + "\" timed out after 30 seconds");
    case LaunchFailed(msg) =>
      ErrorPrefix("executing Python file: " + msg);
  }

  /**
   * The flattened error channel: a result starts with `Error: ` exactly when a check
   * rejected the request or the run timed out or could not be started.
   */
  lemma ErrorPrefixExactlyOnFailure(host: Host, wd: string, fp: string)
    ensures StartsWith(RunPythonFile(host, wd, fp), "Error: ") <==>
      !Check(host, wd, fp).Run? || !host.python(ResolvedPath(host, wd, fp), wd).Exited?
  {
    var r := RunPythonFile(host, wd, fp);
    match Check(host, wd, fp)
    case Outside => ErrorPrefix("Cannot execute \"" + fp + "\" as it is outside the permitted working directory");
    case NotFound => ErrorPrefix("File \"" + fp + "\" not found");
    case NotPython => ErrorPrefix("File \"" + fp + "\" is not a Python file");
    case Run(script) => ReportErrorPrefix(fp, host.python(script, wd));
  }

  /** A relative path without `..` components is never rejected as outside the working directory. */
  lemma RelativeWithoutParentPassesGuard(host: Host, fp: string)
    requires IsAbs(host.cwd) && !IsAbs(fp) && NoParent(Split(fp))
    ensures Check(host, ".", fp) != Outside
  {
    NoParentStaysBelow(host.cwd, fp);
  }

  /**
   * The guard is a bare string prefix: under `/d`, the sibling `../<d+t>/f` passes it
   * although it lies neither at nor below `/d/`.
   */
  lemma SiblingDirectoryPassesGuard(host: Host, d: string, t: string, f: string)
    requires host.cwd == "/" + d && IsName(d) && t != "" && NoSep(t) && IsName(f)
    ensures Check(host, ".", "../" + (d + t) + "/" + f) != Outside
    ensures var p := ResolvedPath(host, ".", "../" + (d + t) + "/" + f);
      p != "/" + d && !StartsWith(p, "/" + d + "/")
  {
    SiblingPath(d, t, f);
    DotOneLevel(d);
    SiblingPrefix(d, t, f);
  }

  /** `/dt/f` starts with `/d`, but is neither `/d` nor below `/d/`. */
  lemma SiblingPrefix(d: string, t: string, f: string)
    requires t != "" && NoSep(t)
    ensures var p := "/" + (d + t) + "/" + f;
      StartsWith(p, "/" + d) && p != "/" + d && !StartsWith(p, "/" + d + "/")
  {
    var p := "/" + (d + t) + "/" + f;
    assert p[..|"/" + d|] == "/" + d;
    assert p[|"/" + d|] == t[0] && t[0] != '/';
  }

  /** `/e` normalises to itself. */
  lemma NormPathRootName(e: string)
    requires IsName(e)
    ensures NormPath("/" + e) == "/" + e
  {
    var p := "/" + e;
    assert p[0] == '/' && p[1] == e[0] && e[0] != '/';
    assert p[..2] != "//";
    BaseName(e);
    FoldRootName(e);
    assert JoinSegments([e]) == e;
  }

  /** An absolute path elsewhere (`/e` beside `/d`) replaces the working directory and is rejected. */
  lemma AbsoluteElsewhereRejected(host: Host, d: string, e: string)
    requires host.cwd == "/" + d && IsName(d) && IsName(e) && e[0] != d[0]
    ensures Check(host, ".", "/" + e) == Outside
  {
    NormPathRootName(e);
    DotOneLevel(d);
    assert ("/" + e)[1] != ("/" + d)[1];
  }

  /** Under `d`, the components `n, .` fold to `d, n`. */
  lemma FoldNameDot(d: string, n: string)
    requires IsName(n)
    ensures Fold(true, [d], [n, "."]) == [d, n]
  {
    FoldCons(true, [d], n, ["."]);
    assert Push(true, [d], n) == [d, n];
    FoldCons(true, [d, n], ".", []);
    assert [n, "."] == [n] + ["."] && ["."] == ["."] + [];
  }

  /** Under `/d`, `n/.` resolves to `/d/n`. */
  lemma TrailingDotResolves(d: string, n: string)
    requires IsName(d) && IsName(n)
    ensures AbsPath("/" + d, Join(".", n + "/.")) == "/" + d + "/" + n
  {
    var fp := n + "/.";
    assert fp[0] == n[0];
    assert Join(".", fp) == "./" + fp;
    DotSegmentVanishes("/" + d, fp);
    AbsPathOneLevel(d, fp);
    RootOne(d, fp);
    assert fp == n + "/" + ".";
    SplitTwo(n, ".");
    FoldNameDot(d, n);
    RenderTwo(d, n);
  }

  /** A child `/d/n` starts with its directory and ends as its name does. */
  lemma ChildPath(d: string, n: string)
    requires n != ""
    ensures StartsWith("/" + d + "/" + n, "/" + d)
    ensures EndsWith(n, ".py") ==> EndsWith("/" + d + "/" + n, ".py")
  {
    var p := "/" + d + "/" + n;
    assert p[..|"/" + d|] == "/" + d;
    assert |n| >= 3 ==> p[|p| - 3..] == n[|n| - 3..];
  }

  /** A path that ends in `/.` does not end in `.py`. */
  lemma DotNotPython(n: string)
    ensures !EndsWith(n + "/.", ".py")
  {
    var fp := n + "/.";
    assert fp[|fp| - 2] == '/';
  }

  /**
   * The extension is tested on the path as requested, not as resolved: `n/.` resolves
   * to `/d/n`, which ends in `.py`, yet is refused as not a Python file.
   */
  lemma ExtensionTestedOnRequestedPath(host: Host, d: string, n: string)
    requires host.cwd == "/" + d && IsName(d) && IsName(n) && EndsWith(n, ".py")
    requires host.pathExists("/" + d + "/" + n)
    ensures EndsWith(ResolvedPath(host, ".", n + "/."), ".py")
    ensures Check(host, ".", n + "/.") == NotPython
  {
    TrailingDotResolves(d, n);
    DotOneLevel(d);
    ChildPath(d, n);
    DotNotPython(n);
  }
}
