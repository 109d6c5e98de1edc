# run-cmake-format, modelled in Dafny

A model of the two stages of a CMake formatting and linting adapter for CI:

- **Entrypoint** (`github_action_entrypoint.py`) receives four positional values from a CI step: command, path, apply and log level. It checks them and turns them into the tool runner's subcommand syntax, then launches the runner script and passes the runner's exit code through.
- **Tool runner** (`run_cmake_tool.py`) walks a directory tree for `CMakeLists.txt` files. It first runs a fixed chain of guards. It then runs `cmake-format` (check or in place) or `cmake-lint` once per file. It folds the per-file results into one failure flag and exits with 0 or 1.

Files (all `.dfy` files are verified together):

- `wrappers.dfy`: `Option`, `Result`, and `Completion`. A `Completion` says whether a Python function returns a code or lets an exception escape.
- `strings.dfy`: ASCII `str.lower()` and POSIX `os.path.join`.
- `discovery.dfy`: the directory tree, the top-down walk `os.walk` performs over it, and `get_cmake_files`.
- `tool_runner.dfy`: the three per-file loops, the guard chains of both subcommands, and the runner's subcommand parser.
- `entrypoint.dfy`: the enums, the boolean parser, the logging options, argument conversion, the script path, and the script launch.

The model stands in for the outside world as follows:

- A directory tree is a value (`Discovery.Dir`).
- `os.path.isdir` and `shutil.which` become boolean parameters.
- `os.path.isfile` becomes a predicate parameter.
- The environment variable becomes an `Option<string>` parameter.
- Every external process is an oracle function. It maps the argument vector of a call to how that call ended.
- The runner methods return the trace of queries and calls they make. That trace is how guard order and full fan-out are stated.

Facts about the code that shape the model:

- Both runners return 1 on every early failure: a path that is not a directory, the tool missing, no files found, and a failed version query (`run_cmake_tool.py:109`, `:113`, `:118`, `:128`, and in the lint runner `:156`, `:160`, `:165`, `:175`). No other non-zero code is ever returned.
- The entrypoint catches only `subprocess.SubprocessError` (`github_action_entrypoint.py:119`). So only that error becomes 102. Any other exception raised while launching, such as `OSError`, propagates out. The model represents that as `Completion.Raises`.
- The runner's `--version` query is not inside a `try`. An exception there also propagates (`Raises`).

## Model

| member | source | states |
|---|---|---|
| `Strings.Lower` | github_action_entrypoint.py:202-204 | lower-casing keeps the length and maps each character on its own (ASCII letters only) |
| `Strings.Join` | run_cmake_tool.py:13 | `os.path.join`: an absolute second part replaces the first; otherwise the result is the first part, then a `/` only when the first part is non-empty and does not already end in one, then the second part |
| `Discovery.Walk` | run_cmake_tool.py:11 | the top-down walk visits the start directory first, with its own files, and visits every directory of the tree exactly once (as many visits as `Count` directories; the roots are distinct by `WalkDistinct`) |
| `Discovery.Found` | run_cmake_tool.py:9-14 | the marker paths of a walk never outnumber the visited directories |
| `Discovery.FoundMembers` | run_cmake_tool.py:11-13 | a path is found exactly when it is `join(root, "CMakeLists.txt")` for a visited root whose files contain that name |
| `Discovery.FoundDistinct` | run_cmake_tool.py:9-14 | when no two visited roots share a directory prefix, no marker path occurs twice |
| `Discovery.WalkDistinct` | run_cmake_tool.py:11 | on a tree with valid, sibling-distinct names, the roots of the top-down walk have pairwise distinct directory prefixes |
| `Discovery.GetCMakeFiles` | run_cmake_tool.py:9-14 | the loop yields exactly the marker paths of the walk, in walk order; there are at most as many as the tree has directories, each visited marker is included, each entry comes from a visited marker, and there are no duplicates on a real tree |
| `ToolRunner.FailureFlagMonotone` | run_cmake_tool.py:26-47 | once some file has failed, the aggregate flag stays set whatever files follow |
| `ToolRunner.CheckFilesFormatted` | run_cmake_tool.py:22-47 | one `cmake-format --check f` per file, in order, with no early exit; the flag is set iff some call exited non-zero or raised |
| `ToolRunner.FormatCMakeFiles` | run_cmake_tool.py:49-74 | one `cmake-format f -o f` per file, in order, with no early exit; the flag is set iff some call exited non-zero or raised |
| `ToolRunner.LintCMakeFiles` | run_cmake_tool.py:76-101 | one `cmake-lint --log-level L f` per file, in order, with L passed unchanged; the flag is set iff some call exited non-zero or raised |
| `ToolRunner.RunCMakeFormat` | run_cmake_tool.py:103-147 | guards run in order (directory, tool, files, version query), and each failure returns 1 before any later step; once they pass, the in-place formatter runs iff `apply`, otherwise the check runs; the code is 0 iff no file failed, else 1 |
| `ToolRunner.RunCMakeLint` | run_cmake_tool.py:149-186 | the same guard chain for `cmake-lint`; then every file is linted at the given level, and the code is 0 iff no file failed, else 1 |
| `ToolRunner.ParseRunnerArgs` | run_cmake_tool.py:195-205 | a parse succeeds only for `format` or `lint`; a lint level is always one of the four choices; the path is one of the given tokens |
| `ToolRunner.ParseFormatArgs` | run_cmake_tool.py:197-199 | after `format`, a successful parse yields a non-option path, and `--apply` once seen stays set |
| `ToolRunner.ParseLintArgs` | run_cmake_tool.py:202-204 | after `lint`, a successful parse yields a level among the four choices |
| `ToolRunner.LintLevelDefault` | run_cmake_tool.py:204 | without `--log-level` the level is "warning" |
| `ToolRunner.LintLevelChoice` | run_cmake_tool.py:204 | an explicit level is kept iff it is one of error, warning, info or debug, and is otherwise rejected |
| `ToolRunner.FormatApplyFlag` | run_cmake_tool.py:199 | `--apply` present gives apply true, and absent gives false |
| `Entrypoint.ParseCommand` | github_action_entrypoint.py:228-233 | the command is accepted iff it is exactly "format" or "lint", and the accepted value round-trips |
| `Entrypoint.ParseLogLevel` | github_action_entrypoint.py:250-258 | the level is accepted iff it is one of "debug", "info", "warning" or "error", and the accepted value round-trips |
| `Entrypoint.EnumValuesRoundTrip` | github_action_entrypoint.py:38-51 | every command and level is accepted back from its own string value |
| `Entrypoint.ConvertBool` | github_action_entrypoint.py:191-209 | a rejection names the rejected argument |
| `Entrypoint.ConvertBoolTrue` | github_action_entrypoint.py:202-203 | true iff the input spells "true", "yes" or "1" in any letter case |
| `Entrypoint.ConvertBoolFalse` | github_action_entrypoint.py:204-205 | false iff the input spells "false", "no" or "0" in any letter case |
| `Entrypoint.ConvertBoolRejects` | github_action_entrypoint.py:206-209 | an error iff the input matches none of the six words in any case; there is no default |
| `Entrypoint.ConvertBoolIgnoresCase` | github_action_entrypoint.py:202-205 | inputs equal up to letter case are accepted alike and give the same value |
| `Entrypoint.ConvertBoolAcceptsAnyCase` | github_action_entrypoint.py:202-205 | "True" and "TRUE" give true; "False" and "FALSE" give false |
| `Entrypoint.ConvertBoolRejectsExamples` | github_action_entrypoint.py:206-209 | "", "2", "11", "00" and "maybe" are all rejected |
| `Entrypoint.ConvertBoolRejectsLong` | github_action_entrypoint.py:202-209 | any input longer than "false", the longest accepted word, is rejected |
| `Entrypoint.ConvertBoolRejectsNonWords` | github_action_entrypoint.py:206-209 | "notabool" and "not_a_bool" are rejected |
| `Entrypoint.CreateLoggingOptions` | github_action_entrypoint.py:61-69 | quiet is kept; verbose is kept when not quiet; the two are never both set |
| `Entrypoint.ParseArguments` | github_action_entrypoint.py:228-258 | a request parses iff the command, the boolean and the level are each valid, whatever the command; fields and raw flags are kept, and errors are reported in positional order: the command's, else the boolean's, else the level's |
| `Entrypoint.RunnerArgv` | github_action_entrypoint.py:143-165 | the vector starts with the command and ends with the path; for format it has three elements with `--apply` second when apply, and is exactly `format <path>` otherwise; for lint it is `lint --log-level <level> <path>` |
| `Entrypoint.RunnerArgvIgnoresIrrelevantField` | github_action_entrypoint.py:144-165 | the level does not affect a format vector, and apply does not affect a lint vector |
| `Entrypoint.RunnerArgvRoundTrip` | github_action_entrypoint.py:150-163 | the runner's parser reads back the converted request exactly: path and apply for format, path and level for lint |
| `Entrypoint.RunnerArgvRejectsOptionPath` | github_action_entrypoint.py:143-165 | a path that looks like an option is passed through unchanged, and the runner's parser rejects every such converted request |
| `Entrypoint.ConversionScenarios` | github_action_entrypoint.py:143-165 | "format some/dir/path true info" converts to `format --apply some/dir/path`; the same with apply "false" converts to `format some/dir/path`; "lint some/dir/path false error" converts to `lint --log-level error some/dir/path` |
| `Entrypoint.ConvertArgs` | github_action_entrypoint.py:125-169 | the list built by appending equals the conversion `RunnerArgv` |
| `Entrypoint.ToolScriptPath` | github_action_entrypoint.py:72-84 | unset or empty directory gives `./run_cmake_tool.py`; otherwise the path is exactly `os.path.join(dir, "run_cmake_tool.py")`: the directory, a `/` only when it does not already end in one, then the script name |
| `Entrypoint.RunToolScript` | github_action_entrypoint.py:87-122 | 101 and no launch when the script is not a file; otherwise launches `[python, path] + args` and returns the child's code unchanged, 102 on a subprocess error, or lets any other exception escape |
| `Entrypoint.ExecuteToolCommand` | github_action_entrypoint.py:172-188 | the launched vector is the interpreter, the script path and the converted request, and the exit code follows `RunToolScript` |

## Left out

- Printing is not modelled. This covers every `print`, the echo of a child's stdout and stderr (`print_process_output`), and `shlex.join`. All of it is logging only.
- `Entrypoint.ExecuteToolCommand`: the logging options it creates only decide what is printed, so they have no effect in the model.
- Real process execution, `shutil.which`, `os.path.isdir`, `os.path.isfile` and the environment are inputs, not modelled. The outcome oracle is a function of the argument vector, so two identical calls in one run cannot end differently. No run issues the same per-file call twice, because a real tree yields no duplicate files.
- The text of the version query's output is not modelled; only its exit code or exception matters.
- `os.walk` symlink handling, permission errors and its error callback are not modelled. A tree is a value that already holds what the walk would list.
- The argument-parsing library itself is not modelled. For the entrypoint, only the value checks of the four positionals and the two raw flags are modelled. Parse failures become `Failure` values instead of the exit with status 2.
- `ToolRunner.ParseRunnerArgs` models the runner's subcommands only for these token forms: option names written in full, `--log-level` followed by a separate value, and a token read as an option when it starts with `-`, has at least two characters and no space. Not modelled: abbreviated options, the `--opt=value` form, the `--` separator, `-h`, and the rule that reads negative numbers as values. So the round trip in `Entrypoint.RunnerArgvRoundTrip` assumes a path that does not look like an option. For an option-like path, `Entrypoint.RunnerArgvRejectsOptionPath` states the opposite: the converted request is rejected, because the conversion adds no `--` before the path.
- The `main` functions, `sys.exit`, the dispatch through `args.func`, and the Python version check are left out.
- Lower-casing is ASCII only. Python's `str.lower()` also folds non-ASCII letters, but no non-ASCII letter lower-cases to a letter of the six accepted words. So the accepted inputs are the same.
