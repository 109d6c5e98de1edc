/** The entrypoint (github_action_entrypoint.py): it accepts the four
    positional values of the CI step, converts them into the tool runner's
    subcommand syntax, and launches the runner script, passing its exit code
    through. */
module Entrypoint {
  import opened Wrappers
  import opened Strings
  import ToolRunner

  const RunCMakeToolScriptName := "run_cmake_tool.py"

  /** Exit codes of the entrypoint's own failures. */
  const ToolScriptNotFound := 101
  const FailedToRunToolScript := 102

  datatype Command = Format | Lint
  {
    function Value(): string
    {
      match this
      case Format => "format"
      case Lint => "lint"
    }
  }

  datatype LogLevel = Debug | Info | Warning | Error
  {
    function Value(): string
    {
      match this
      case Debug => "debug"
      case Info => "info"
      case Warning => "warning"
      case Error => "error"
    }
  }

  datatype ParseError =
    | InvalidCommand(arg: string)
    | InvalidBoolean(arg: string)
    | InvalidLogLevel(arg: string)

  /** The `command` positional: accepted only as one of the two values. */
  function ParseCommand(s: string): (r: Result<Command, ParseError>)
    ensures r.Success? <==> s == "format" || s == "lint"
    ensures r.Success? ==> r.value.Value() == s
    ensures r.Failure? ==> r.error == InvalidCommand(s)
  {
    if s == "format" then Success(Format)
    else if s == "lint" then Success(Lint)
    else Failure(InvalidCommand(s))
  }

  /** The `log_level` positional: accepted only as one of the four values. */
  function ParseLogLevel(s: string): (r: Result<LogLevel, ParseError>)
    ensures r.Success? <==> s in ["debug", "info", "warning", "error"]
    ensures r.Success? ==> r.value.Value() == s
    ensures r.Failure? ==> r.error == InvalidLogLevel(s)
  {
    match s
    case "debug" => Success(Debug)
    case "info" => Success(Info)
    case "warning" => Success(Warning)
    case "error" => Success(Error)
    case _ => Failure(InvalidLogLevel(s))
  }

  /** Every command and level is accepted back from its own value. */
  lemma EnumValuesRoundTrip(c: Command, l: LogLevel)
    ensures ParseCommand(c.Value()) == Success(c)
    ensures ParseLogLevel(l.Value()) == Success(l)
  {
  }

  const TrueWords := ["true", "yes", "1"]
  const FalseWords := ["false", "no", "0"]

  /** `convert_bool_argument`: the lower-cased input must be one of the three
      true words or the three false words; anything else is an error. */
  function ConvertBool(arg: string): (r: Result<bool, ParseError>)
    ensures r.Failure? ==> r.error == InvalidBoolean(arg)
  {
    if Lower(arg) in TrueWords then Success(true)
    else if Lower(arg) in FalseWords then Success(false)
    else Failure(InvalidBoolean(arg))
  }

  lemma LowerOfLowerWords()
    ensures forall w :: w in TrueWords + FalseWords ==> Lower(w) == w
  {
  }

  /** A word is read as true exactly when it spells "true", "yes" or "1" in
      any mix of letter case. */
  lemma ConvertBoolTrue(arg: string)
    ensures ConvertBool(arg) == Success(true) <==> exists w :: w in TrueWords && EqualIgnoringCase(arg, w)
  {
    LowerOfLowerWords();
    forall w | w in TrueWords
      ensures EqualIgnoringCase(arg, w) <==> Lower(arg) == w
    {
      EqualIgnoringCaseIsEqualLower(arg, w);
    }
  }

  /** A word is read as false exactly when it spells "false", "no" or "0" in
      any mix of letter case. */
  lemma ConvertBoolFalse(arg: string)
    ensures ConvertBool(arg) == Success(false) <==> exists w :: w in FalseWords && EqualIgnoringCase(arg, w)
  {
    LowerOfLowerWords();
    forall w | w in TrueWords + FalseWords
      ensures EqualIgnoringCase(arg, w) <==> Lower(arg) == w
    {
      EqualIgnoringCaseIsEqualLower(arg, w);
    }
  }

  /** Any other word is an error; there is no default. */
  lemma ConvertBoolRejects(arg: string)
    ensures ConvertBool(arg).Failure? <==>
            forall w :: w in TrueWords + FalseWords ==> !EqualIgnoringCase(arg, w)
  {
    LowerOfLowerWords();
    forall w | w in TrueWords + FalseWords
      ensures EqualIgnoringCase(arg, w) <==> Lower(arg) == w
    {
      EqualIgnoringCaseIsEqualLower(arg, w);
    }
    assert Lower(arg) in TrueWords + FalseWords <==> Lower(arg) in TrueWords || Lower(arg) in FalseWords;
  }

  /** The letter case of the input never changes the outcome. */
  lemma ConvertBoolIgnoresCase(s: string, t: string)
    requires EqualIgnoringCase(s, t)
    ensures ConvertBool(s).Success? <==> ConvertBool(t).Success?
    ensures ConvertBool(s).Success? ==> ConvertBool(s).value == ConvertBool(t).value
  {
    EqualIgnoringCaseIsEqualLower(s, t);
  }

  /** The mixed-case literals tests/test_entrypoint_bool_argument_conversion.py
      expects to be accepted. */
  lemma ConvertBoolAcceptsAnyCase()
    ensures ConvertBool("True") == Success(true) && ConvertBool("TRUE") == Success(true)
    ensures ConvertBool("False") == Success(false) && ConvertBool("FALSE") == Success(false)
  {
    var t, u := Lower("True"), Lower("TRUE");
    assert t[0] == 't' && u[0] == 't' && u[1] == 'r' && u[2] == 'u' && u[3] == 'e';
    assert t == "true" && u == "true";
    var f, g := Lower("False"), Lower("FALSE");
    assert f[0] == 'f' && g[0] == 'f' && g[1] == 'a' && g[2] == 'l' && g[3] == 's' && g[4] == 'e';
    assert f == "false" && g == "false";
  }

  /** The short literals tests/test_entrypoint_bool_argument_conversion.py
      expects to be rejected. */
  lemma ConvertBoolRejectsExamples()
    ensures ConvertBool("").Failure? && ConvertBool("2").Failure? && ConvertBool("11").Failure?
    ensures ConvertBool("00").Failure? && ConvertBool("maybe").Failure?
  {
    assert Lower("2")[0] == '2';
    assert Lower("11")[0] == '1';
    assert Lower("00")[0] == '0';
    assert Lower("maybe")[0] == 'm';
  }

  /** No word longer than "false" is accepted. */
  lemma ConvertBoolRejectsLong(arg: string)
    requires |arg| > |"false"|
    ensures ConvertBool(arg).Failure?
  {
    assert |Lower(arg)| == |arg|;
  }

  /** The two non-words tests/test_entrypoint_bool_argument_conversion.py
      expects to be rejected: "notabool" (its `INVALID_BOOL` constant) and
      "not_a_bool". */
  lemma ConvertBoolRejectsNonWords()
    ensures ConvertBool("notabool").Failure?
    ensures ConvertBool("not_a_bool").Failure?
  {
    ConvertBoolRejectsLong("notabool");
    ConvertBoolRejectsLong("not_a_bool");
  }

  /** The effective logging options. */
  datatype LoggingOptions = LoggingOptions(verbose: bool, quiet: bool)

  /** `LoggingOptions.create`: quiet is kept and overrides verbose. */
  function CreateLoggingOptions(verbose: bool, quiet: bool): (o: LoggingOptions)
    ensures o.quiet == quiet
    ensures !(o.verbose && o.quiet)
    ensures !quiet ==> o.verbose == verbose
  {
    LoggingOptions(verbose && !quiet, quiet)
  }

  /** The parsed command line of the entrypoint. The two flags are kept as
      given; only `CreateLoggingOptions` resolves their collision. */
  datatype EntrypointArgs = EntrypointArgs(command: Command, path: string, apply: bool, logLevel: LogLevel,
                                           verbose: bool, quiet: bool)

  /** The value checks of `create_argument_parser`, in positional order:
      command, then apply, then log level. Every value is checked whatever the
      command, so a bad level fails a format request and a bad boolean fails a
      lint request. */
  function ParseArguments(command: string, path: string, apply: string, logLevel: string,
                          verbose: bool, quiet: bool): (r: Result<EntrypointArgs, ParseError>)
    ensures r.Success? <==>
            ParseCommand(command).Success? && ConvertBool(apply).Success? && ParseLogLevel(logLevel).Success?
    ensures r.Success? ==>
              && r.value.command.Value() == command && r.value.path == path
              && ConvertBool(apply) == Success(r.value.apply) && r.value.logLevel.Value() == logLevel
              && r.value.verbose == verbose && r.value.quiet == quiet
    ensures ParseCommand(command).Failure? ==> r == Failure(InvalidCommand(command))
    ensures ParseCommand(command).Success? && ConvertBool(apply).Failure? ==> r == Failure(InvalidBoolean(apply))
    ensures ParseCommand(command).Success? && ConvertBool(apply).Success? && ParseLogLevel(logLevel).Failure? ==>
              r == Failure(InvalidLogLevel(logLevel))
  {
    match ParseCommand(command)
    case Failure(e) => Failure(e)
    case Success(c) =>
      match ConvertBool(apply)
      case Failure(e) => Failure(e)
      case Success(a) =>
        match ParseLogLevel(logLevel)
        case Failure(e) => Failure(e)
        case Success(l) => Success(EntrypointArgs(c, path, a, l, verbose, quiet))
  }

  /** The argument vector handed to the tool runner for a parsed request. */
  function RunnerArgv(args: EntrypointArgs): (argv: seq<string>)
    ensures 2 <= |argv| <= 4
    ensures argv[0] == args.command.Value() && argv[|argv| - 1] == args.path
    ensures args.command == Format ==> |argv| == (if args.apply then 3 else 2) && (args.apply ==> argv[1] == "--apply")
    ensures args.command == Lint ==> |argv| == 4 && argv[1] == "--log-level" && argv[2] == args.logLevel.Value()
  {
    match args.command
    case Format => if args.apply then ["format", "--apply", args.path] else ["format", args.path]
    case Lint => ["lint", "--log-level", args.logLevel.Value(), args.path]
  }

  /** The log level plays no part in a format request, nor apply in a lint
      request. */
  lemma RunnerArgvIgnoresIrrelevantField(args: EntrypointArgs, level: LogLevel, apply: bool)
    ensures args.command == Format ==> RunnerArgv(args.(logLevel := level)) == RunnerArgv(args)
    ensures args.command == Lint ==> RunnerArgv(args.(apply := apply)) == RunnerArgv(args)
  {
  }

  /** The tool runner reads back exactly the request that was converted,
      provided the path does not look like an option. */
  lemma RunnerArgvRoundTrip(args: EntrypointArgs)
    requires !ToolRunner.OptionLike(args.path)
    ensures ToolRunner.ParseRunnerArgs(RunnerArgv(args)) ==
            match args.command
            case Format => Success(ToolRunner.FormatArgs(args.path, args.apply))
            case Lint => Success(ToolRunner.LintArgs(args.path, args.logLevel.Value()))
  {
    match args.command
    case Format =>
      ToolRunner.FormatApplyFlag(args.path, args.apply);
    case Lint =>
      var level := args.logLevel.Value();
      assert !ToolRunner.OptionLike(level);
      ToolRunner.LintLevelChoice(args.path, level);
  }

  /** The limit of the hand-off: a path that looks like an option (one that
      reached the entrypoint after a `--` separator, say) is converted as is,
      and the tool runner rejects the resulting vector. */
  lemma RunnerArgvRejectsOptionPath(args: EntrypointArgs)
    requires ToolRunner.OptionLike(args.path)
    ensures ToolRunner.ParseRunnerArgs(RunnerArgv(args)).Failure?
  {
  }

  /** Two complete requests: each is parsed and then converted. */
  lemma ConversionScenarios()
    ensures ParseArguments("format", "some/dir/path", "true", "info", false, false).Success?
    ensures RunnerArgv(ParseArguments("format", "some/dir/path", "true", "info", false, false).value) ==
            ["format", "--apply", "some/dir/path"]
    ensures ParseArguments("format", "some/dir/path", "false", "info", false, false).Success?
    ensures RunnerArgv(ParseArguments("format", "some/dir/path", "false", "info", false, false).value) ==
            ["format", "some/dir/path"]
    ensures ParseArguments("lint", "some/dir/path", "false", "error", false, true).Success?
    ensures RunnerArgv(ParseArguments("lint", "some/dir/path", "false", "error", false, true).value) ==
            ["lint", "--log-level", "error", "some/dir/path"]
  {
    LowerOfLowerWords();
  }

  /** `convert_args_to_run_cmake_tool`: builds the runner's argument vector,
      the format vector by appending to a list as
      `convert_args_to_run_cmake_tool` does. */
  method ConvertArgs(args: EntrypointArgs) returns (argv: seq<string>)
    ensures argv == RunnerArgv(args)
  {
    match args.command {
      case Format =>
        argv := ["format"];
        if args.apply {
          argv := argv + ["--apply"];
        }
        argv := argv + [args.path];
      case Lint =>
        argv := ["lint", "--log-level", args.logLevel.Value(), args.path];
    }
  }

  /** `get_run_cmake_tool_script_path`: the script name joined to the value of
      the directory variable, or to "." when it is unset or empty. */
  function ToolScriptPath(envDir: Option<string>): (p: string)
    ensures envDir.None? || envDir == Some("") ==> p == "./" + RunCMakeToolScriptName
    ensures envDir.Some? && envDir.value != "" ==> p == DirPrefix(envDir.value) + RunCMakeToolScriptName
    ensures envDir.Some? && envDir.value != "" ==>
              envDir.value <= p && |p| <= |envDir.value| + 1 + |RunCMakeToolScriptName|
    ensures |p| > |RunCMakeToolScriptName| && p[|p| - |RunCMakeToolScriptName| - 1] == '/'
    ensures p[|p| - |RunCMakeToolScriptName|..] == RunCMakeToolScriptName
  {
    var dir := if envDir.None? || envDir.value == "" then "." else envDir.value;
    assert !IsAbsolute(RunCMakeToolScriptName);
    assert DirPrefix(dir)[|DirPrefix(dir)| - 1] == '/';
    Join(dir, RunCMakeToolScriptName)
  }

  /** How the launch of the runner script ended: with the child's return
      code, with a `subprocess.SubprocessError`, or with any other exception. */
  datatype SpawnResult = Completed(returnCode: int) | SubprocessError | OtherError

  /** The exit code the entrypoint gives for one launch. Only a
      `subprocess.SubprocessError` is caught; any other exception propagates. */
  function LaunchCompletion(r: SpawnResult): Completion
  {
    match r
    case Completed(code) => Returns(code)
    case SubprocessError => Returns(FailedToRunToolScript)
    case OtherError => Raises
  }

  /** `run_cmake_tool_script`: 101 when the script is not a file; otherwise
      launch `[python, path] + commandAndArguments` and pass the child's
      return code through, or 102 when the launch raises a subprocess error. */
  method RunToolScript(commandAndArguments: seq<string>, envDir: Option<string>, isFile: string -> bool,
                       python: string, spawn: seq<string> -> SpawnResult)
    returns (c: Completion, launched: Option<seq<string>>)
    ensures !isFile(ToolScriptPath(envDir)) ==> c == Returns(ToolScriptNotFound) && launched == None
    ensures isFile(ToolScriptPath(envDir)) ==>
              launched == Some([python, ToolScriptPath(envDir)] + commandAndArguments)
    ensures launched.Some? ==> c == LaunchCompletion(spawn(launched.value))
    ensures launched.Some? && spawn(launched.value).Completed? ==> c == Returns(spawn(launched.value).returnCode)
  {
    var scriptPath := ToolScriptPath(envDir);
    if !isFile(scriptPath) {
      return Returns(ToolScriptNotFound), None;
    }
    var argv := [python, scriptPath];
    argv := argv + commandAndArguments;
    launched := Some(argv);
    match spawn(argv) {
      case Completed(code) => c := Returns(code);
      case SubprocessError => c := Returns(FailedToRunToolScript);
      case OtherError => c := Raises;
    }
  }

  /** `execute_tool_command`: convert the request, then launch the runner
      script with the converted vector. */
  method ExecuteToolCommand(args: EntrypointArgs, envDir: Option<string>, isFile: string -> bool,
                            python: string, spawn: seq<string> -> SpawnResult)
    returns (c: Completion, launched: Option<seq<string>>)
    ensures !isFile(ToolScriptPath(envDir)) ==> c == Returns(ToolScriptNotFound) && launched == None
    ensures isFile(ToolScriptPath(envDir)) ==>
              launched == Some([python, ToolScriptPath(envDir)] + RunnerArgv(args))
    ensures launched.Some? ==> c == LaunchCompletion(spawn(launched.value))
  {
    var options := CreateLoggingOptions(args.verbose, args.quiet);
    var commandAndArguments := ConvertArgs(args);
    c, launched := RunToolScript(commandAndArguments, envDir, isFile, python, spawn);
  }
}
