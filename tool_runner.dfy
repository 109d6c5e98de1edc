/** The tool runner (run_cmake_tool.py): per-file dispatch of cmake-format
    and cmake-lint, the guard chains of the two subcommands, and the
    subcommand syntax it accepts.

    Every external process is answered by the oracle `run`, which maps the
    argument vector of a call to how that call ended. */
module ToolRunner {
  import opened Wrappers
  import opened Discovery

  const FormatTool := "cmake-format"
  const LintTool := "cmake-lint"

  /** The `--log-level` choices of the lint subcommand and their default. */
  const LogLevelChoices := ["error", "warning", "info", "debug"]
  const DefaultLogLevel := "warning"

  /** How one external call ended: with an exit code, or by raising. */
  datatype Outcome = Exited(code: int) | Raised

  predicate Failed(o: Outcome)
  {
    o.Raised? || o.code != 0
  }

  /** The argument vectors of the per-file calls and of the version query. */
  function CheckCommand(file: string): seq<string> { [FormatTool, "--check", file] }
  function FormatCommand(file: string): seq<string> { [FormatTool, file, "-o", file] }
  function LintCommand(level: string, file: string): seq<string> { [LintTool, "--log-level", level, file] }
  function VersionCommand(tool: string): seq<string> { [tool, "--version"] }

  /** One call per file, in file order, each with the file's command vector. */
  predicate IssuedForEach(issued: seq<seq<string>>, files: seq<string>, command: string -> seq<string>)
  {
    |issued| == |files| && forall i :: 0 <= i < |files| ==> issued[i] == command(files[i])
  }

  /** Some file's call exited non-zero or raised. */
  predicate AnyFailed(files: seq<string>, command: string -> seq<string>, run: seq<string> -> Outcome)
  {
    exists i :: 0 <= i < |files| && Failed(run(command(files[i])))
  }

  /** The aggregate flag never clears: a failure among some files remains a
      failure once more files are processed after them. */
  lemma {:induction false} FailureFlagMonotone(files: seq<string>, more: seq<string>,
                                              command: string -> seq<string>, run: seq<string> -> Outcome)
    requires AnyFailed(files, command, run)
    ensures AnyFailed(files + more, command, run)
  {
    var i :| 0 <= i < |files| && Failed(run(command(files[i])));
    assert (files + more)[i] == files[i];
  }

  /** `check_files_formatted`: run `cmake-format --check` on every file, with
      no early exit, and report whether any file is not formatted. */
  method CheckFilesFormatted(cmakeFiles: seq<string>, run: seq<string> -> Outcome)
    returns (notFormatted: bool, issued: seq<seq<string>>)
    ensures IssuedForEach(issued, cmakeFiles, CheckCommand)
    ensures notFormatted <==> AnyFailed(cmakeFiles, CheckCommand, run)
  {
    notFormatted := false;
    issued := [];
    for i := 0 to |cmakeFiles|
      invariant IssuedForEach(issued, cmakeFiles[..i], CheckCommand)
      invariant notFormatted <==> exists k :: 0 <= k < i && Failed(run(CheckCommand(cmakeFiles[k])))
    {
      var command := CheckCommand(cmakeFiles[i]);
      issued := issued + [command];
      match run(command) {
        case Exited(code) =>
          if code != 0 {
            notFormatted := true;
          }
        case Raised =>
          notFormatted := true;
      }
    }
  }

  /** `format_cmake_files`: rewrite every file in place with cmake-format,
      with no early exit, and report whether any call failed. */
  method FormatCMakeFiles(cmakeFiles: seq<string>, run: seq<string> -> Outcome)
    returns (haveErrors: bool, issued: seq<seq<string>>)
    ensures IssuedForEach(issued, cmakeFiles, FormatCommand)
    ensures haveErrors <==> AnyFailed(cmakeFiles, FormatCommand, run)
  {
    haveErrors := false;
    issued := [];
    for i := 0 to |cmakeFiles|
      invariant IssuedForEach(issued, cmakeFiles[..i], FormatCommand)
      invariant haveErrors <==> exists k :: 0 <= k < i && Failed(run(FormatCommand(cmakeFiles[k])))
    {
      var command := FormatCommand(cmakeFiles[i]);
      issued := issued + [command];
      match run(command) {
        case Exited(code) =>
          if code != 0 {
            haveErrors := true;
          }
        case Raised =>
          haveErrors := true;
      }
    }
  }

  /** `lint_cmake_files`: lint every file at the given level, with no early
      exit, and report whether any call failed. */
  method LintCMakeFiles(cmakeFiles: seq<string>, logLevel: string, run: seq<string> -> Outcome)
    returns (haveErrors: bool, issued: seq<seq<string>>)
    ensures IssuedForEach(issued, cmakeFiles, f => LintCommand(logLevel, f))
    ensures forall i :: 0 <= i < |issued| ==> issued[i][2] == logLevel
    ensures haveErrors <==> AnyFailed(cmakeFiles, f => LintCommand(logLevel, f), run)
  {
    haveErrors := false;
    issued := [];
    for i := 0 to |cmakeFiles|
      invariant IssuedForEach(issued, cmakeFiles[..i], f => LintCommand(logLevel, f))
      invariant haveErrors <==> exists k :: 0 <= k < i && Failed(run(LintCommand(logLevel, cmakeFiles[k])))
    {
      var command := LintCommand(logLevel, cmakeFiles[i]);
      issued := issued + [command];
      match run(command) {
        case Exited(code) =>
          if code != 0 {
            haveErrors := true;
          }
        case Raised =>
          haveErrors := true;
      }
    }
  }

  /** The environment queries and calls a runner makes, in order. */
  datatype Step =
    | StatDirectory(path: string)
    | FindTool(tool: string)
    | WalkTree(path: string)
    | Spawn(argv: seq<string>)

  function Spawns(cmds: seq<seq<string>>): (steps: seq<Step>)
    ensures |steps| == |cmds|
    ensures forall i :: 0 <= i < |cmds| ==> steps[i] == Spawn(cmds[i])
  {
    if cmds == [] then [] else [Spawn(cmds[0])] + Spawns(cmds[1..])
  }

  /** The guard chain shared by both subcommands, as the trace it leaves and
      the code it returns when a guard fails: not a directory, tool not on the
      search path, no CMakeLists.txt found, version query failed. Every failure
      returns 1 and stops before any later step. */
  ghost predicate GuardChain(tool: string, path: string, isDir: bool, toolFound: bool, files: seq<string>,
                             version: Outcome, c: Completion, trace: seq<Step>)
  {
    && |trace| >= 1 && trace[0] == StatDirectory(path)
    && (!isDir ==> c == Returns(1) && |trace| == 1)
    && (isDir ==> |trace| >= 2 && trace[1] == FindTool(tool))
    && (isDir && !toolFound ==> c == Returns(1) && |trace| == 2)
    && (isDir && toolFound ==> |trace| >= 3 && trace[2] == WalkTree(path))
    && (isDir && toolFound && files == [] ==> c == Returns(1) && |trace| == 3)
    && (isDir && toolFound && files != [] ==> |trace| >= 4 && trace[3] == Spawn(VersionCommand(tool)))
    && (isDir && toolFound && files != [] && version.Raised? ==> c == Raises && |trace| == 4)
    && (isDir && toolFound && files != [] && version.Exited? && version.code != 0 ==> c == Returns(1) && |trace| == 4)
  }

  /** After the guards pass: one call per file follows the version query, and
      the code is 0 exactly when no call failed, 1 otherwise. */
  ghost predicate Dispatched(files: seq<string>, command: string -> seq<string>, run: seq<string> -> Outcome,
                             c: Completion, trace: seq<Step>)
  {
    && |trace| == 4 + |files|
    && (forall i :: 0 <= i < |files| ==> trace[4 + i] == Spawn(command(files[i])))
    && c == Returns(if AnyFailed(files, command, run) then 1 else 0)
  }

  /** `run_cmake_format`: the guard chain, then the in-place formatter when
      `apply` is set and the check otherwise. */
  method RunCMakeFormat(path: string, apply: bool, isDir: bool, toolFound: bool, tree: Dir,
                        run: seq<string> -> Outcome)
    returns (c: Completion, trace: seq<Step>)
    ensures GuardChain(FormatTool, path, isDir, toolFound, Found(Walk(path, tree)),
                       run(VersionCommand(FormatTool)), c, trace)
    ensures isDir && toolFound && Found(Walk(path, tree)) != [] && run(VersionCommand(FormatTool)) == Exited(0) ==>
              Dispatched(Found(Walk(path, tree)), if apply then FormatCommand else CheckCommand, run, c, trace)
    ensures c.Returns? ==> c.code == 0 || c.code == 1
  {
    trace := [StatDirectory(path)];
    if !isDir {
      return Returns(1), trace;
    }
    trace := [StatDirectory(path), FindTool(FormatTool)];
    if !toolFound {
      return Returns(1), trace;
    }
    var cmakeFiles := GetCMakeFiles(path, tree);
    trace := [StatDirectory(path), FindTool(FormatTool), WalkTree(path)];
    if cmakeFiles == [] {
      return Returns(1), trace;
    }
    trace := [StatDirectory(path), FindTool(FormatTool), WalkTree(path), Spawn(VersionCommand(FormatTool))];
    match run(VersionCommand(FormatTool)) {
      case Raised =>
        return Raises, trace;
      case Exited(code) =>
        if code != 0 {
          return Returns(1), trace;
        }
    }
    var failed, issued;
    if apply {
      failed, issued := FormatCMakeFiles(cmakeFiles, run);
    } else {
      failed, issued := CheckFilesFormatted(cmakeFiles, run);
    }
    trace := trace + Spawns(issued);
    c := if failed then Returns(1) else Returns(0);
  }

  /** `run_cmake_lint`: the guard chain, then cmake-lint on every file at the
      given level. */
  method RunCMakeLint(path: string, logLevel: string, isDir: bool, toolFound: bool, tree: Dir,
                      run: seq<string> -> Outcome)
    returns (c: Completion, trace: seq<Step>)
    ensures GuardChain(LintTool, path, isDir, toolFound, Found(Walk(path, tree)),
                       run(VersionCommand(LintTool)), c, trace)
    ensures isDir && toolFound && Found(Walk(path, tree)) != [] && run(VersionCommand(LintTool)) == Exited(0) ==>
              Dispatched(Found(Walk(path, tree)), f => LintCommand(logLevel, f), run, c, trace)
    ensures c.Returns? ==> c.code == 0 || c.code == 1
  {
    trace := [StatDirectory(path)];
    if !isDir {
      return Returns(1), trace;
    }
    trace := [StatDirectory(path), FindTool(LintTool)];
    if !toolFound {
      return Returns(1), trace;
    }
    var cmakeFiles := GetCMakeFiles(path, tree);
    trace := [StatDirectory(path), FindTool(LintTool), WalkTree(path)];
    if cmakeFiles == [] {
      return Returns(1), trace;
    }
    trace := [StatDirectory(path), FindTool(LintTool), WalkTree(path), Spawn(VersionCommand(LintTool))];
    match run(VersionCommand(LintTool)) {
      case Raised =>
        return Raises, trace;
      case Exited(code) =>
        if code != 0 {
          return Returns(1), trace;
        }
    }
    var failed, issued := LintCMakeFiles(cmakeFiles, logLevel, run);
    trace := trace + Spawns(issued);
    c := if failed then Returns(1) else Returns(0);
  }

  /** The arguments of the runner's two subcommands after parsing. */
  datatype RunnerArgs =
    | FormatArgs(path: string, apply: bool)
    | LintArgs(path: string, logLevel: string)

  datatype CliError =
    | MissingCommand
    | InvalidChoice(arg: string)
    | MissingPath
    | UnrecognizedArgument(arg: string)
    | ExpectedOneArgument

  /** A token the parser reads as an option rather than as a value. */
  predicate OptionLike(s: string)
  {
    |s| >= 2 && s[0] == '-' && ' ' !in s
  }

  /** The runner's command line: `format <path> [--apply]` or
      `lint <path> [--log-level {error,warning,info,debug}]`. */
  function ParseRunnerArgs(argv: seq<string>): (r: Result<RunnerArgs, CliError>)
    ensures r.Success? ==> |argv| > 0
    ensures r.Success? && r.value.FormatArgs? ==> argv[0] == "format"
    ensures r.Success? && r.value.LintArgs? ==> argv[0] == "lint" && r.value.logLevel in LogLevelChoices
    ensures r.Success? ==> r.value.path in argv[1..] && !OptionLike(r.value.path)
  {
    if |argv| == 0 then Failure(MissingCommand)
    else if argv[0] == "format" then ParseFormatArgs(argv[1..], None, false)
    else if argv[0] == "lint" then ParseLintArgs(argv[1..], None, DefaultLogLevel)
    else Failure(InvalidChoice(argv[0]))
  }

  /** Reads the tokens after `format`; `path` and `apply` hold what earlier
      tokens set. */
  function ParseFormatArgs(rest: seq<string>, path: Option<string>, apply: bool): (r: Result<RunnerArgs, CliError>)
    requires path.Some? ==> !OptionLike(path.value)
    ensures r.Success? ==> r.value.FormatArgs? && !OptionLike(r.value.path)
    ensures r.Success? ==> (path.Some? && r.value.path == path.value) || r.value.path in rest
    ensures r.Success? && apply ==> r.value.apply
    decreases |rest|
  {
    if rest == [] then
      if path.None? then Failure(MissingPath) else Success(FormatArgs(path.value, apply))
    else if rest[0] == "--apply" then ParseFormatArgs(rest[1..], path, true)
    else if OptionLike(rest[0]) || path.Some? then Failure(UnrecognizedArgument(rest[0]))
    else ParseFormatArgs(rest[1..], Some(rest[0]), apply)
  }

  /** Reads the tokens after `lint`; `path` and `level` hold what earlier
      tokens set, the level starting at its default. */
  function ParseLintArgs(rest: seq<string>, path: Option<string>, level: string): (r: Result<RunnerArgs, CliError>)
    requires path.Some? ==> !OptionLike(path.value)
    requires level in LogLevelChoices
    ensures r.Success? ==> r.value.LintArgs? && r.value.logLevel in LogLevelChoices && !OptionLike(r.value.path)
    ensures r.Success? ==> (path.Some? && r.value.path == path.value) || r.value.path in rest
    decreases |rest|
  {
    if rest == [] then
      if path.None? then Failure(MissingPath) else Success(LintArgs(path.value, level))
    else if rest[0] == "--log-level" then
      if |rest| < 2 || OptionLike(rest[1]) then Failure(ExpectedOneArgument)
      else if rest[1] !in LogLevelChoices then Failure(InvalidChoice(rest[1]))
      else ParseLintArgs(rest[2..], path, rest[1])
    else if OptionLike(rest[0]) || path.Some? then Failure(UnrecognizedArgument(rest[0]))
    else ParseLintArgs(rest[1..], Some(rest[0]), level)
  }

  /** Without `--log-level` the lint level is "warning". */
  lemma LintLevelDefault(path: string)
    requires !OptionLike(path)
    ensures ParseRunnerArgs(["lint", path]) == Success(LintArgs(path, DefaultLogLevel))
  {
    assert path != "--log-level" by { assert OptionLike("--log-level"); }
    assert ["lint", path][1..] == [path];
    assert [path][1..] == [];
    assert ParseLintArgs([], Some(path), DefaultLogLevel) == Success(LintArgs(path, DefaultLogLevel));
  }

  /** An explicit `--log-level` is kept exactly when it is one of the four
      choices, and rejected otherwise. */
  lemma LintLevelChoice(path: string, level: string)
    requires !OptionLike(path)
    ensures ParseRunnerArgs(["lint", "--log-level", level, path]) ==
            if OptionLike(level) then Failure(ExpectedOneArgument)
            else if level in LogLevelChoices then Success(LintArgs(path, level))
            else Failure(InvalidChoice(level))
  {
    assert path != "--log-level" by { assert OptionLike("--log-level"); }
    assert ["lint", "--log-level", level, path][1..] == ["--log-level", level, path];
    assert ["--log-level", level, path][2..] == [path];
    assert [path][1..] == [];
    if !OptionLike(level) && level in LogLevelChoices {
      assert ParseLintArgs([path], None, level) == ParseLintArgs([], Some(path), level);
    }
  }

  /** `--apply` sets the flag and its absence leaves it unset. */
  lemma FormatApplyFlag(path: string, apply: bool)
    requires !OptionLike(path)
    ensures ParseRunnerArgs(if apply then ["format", "--apply", path] else ["format", path]) ==
            Success(FormatArgs(path, apply))
  {
    assert path != "--apply" by { assert OptionLike("--apply"); }
    assert ["format", "--apply", path][1..] == ["--apply", path];
    assert ["--apply", path][1..] == [path];
    assert ["format", path][1..] == [path];
    assert [path][1..] == [];
    assert ParseFormatArgs([path], None, apply) == ParseFormatArgs([], Some(path), apply);
  }
}
