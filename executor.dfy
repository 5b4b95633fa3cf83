/**
 * `inc-lib/src/exec/executor.rs`: running an external command. The command and its
 * arguments are joined with spaces into one command line for `sh -c`; the child's
 * environment is the computed `PATH`, overridden by the process's own variables,
 * overridden by the caller's extra variables; a spawn or wait failure is error 10 and
 * an exit without a code counts as 0.
 *
 * The process environment, the computed `PATH` (`build_path`) and the child process
 * itself are inputs: `spawn` says what running a command line in an environment gave.
 */
module Executor {
  import opened Wrappers
  import opened RustStr
  import opened RustPath
  import opened Process

  datatype CliError = CliError(code: int, message: string)

  datatype CliParseError = CliParseError(fatal: bool, message: string)

  /** `From<CliParseError> for CliError`: code 101, the message kept. */
  function FromParseError(e: CliParseError): (r: CliError)
    ensures r.code == 101 && r.message == e.message
  {
    CliError(101, e.message)
  }

  // ----- The command line -----

  /** The command followed by a space and each argument, in order. */
  function CommandLine(cmd: string, args: seq<string>): string
    decreases |args|
  {
    if |args| == 0 then cmd else CommandLine(cmd, args[..|args| - 1]) + " " + args[|args| - 1]
  }

  /** The loop of `run_command` that assembles the command line with `push_str`. */
  method BuildCommandString(cmd: string, args: seq<string>) returns (commandString: string)
    ensures commandString == CommandLine(cmd, args)
  {
    commandString := "";
    commandString := commandString + cmd;
    var i := 0;
    while i < |args|
      invariant 0 <= i <= |args|
      invariant commandString == CommandLine(cmd, args[..i])
    {
      assert args[..i + 1][..i] == args[..i];
      commandString := commandString + " ";
      commandString := commandString + args[i];
      i := i + 1;
    }
    assert args[..|args|] == args;
  }

  /** When no piece holds a space, splitting the command line on spaces gives the command
      and the arguments back: the line loses nothing. */
  lemma {:induction false} CommandLineSplits(cmd: string, args: seq<string>)
    requires ' ' !in cmd
    requires forall k :: 0 <= k < |args| ==> ' ' !in args[k]
    ensures Split(CommandLine(cmd, args), ' ') == [cmd] + args
    decreases |args|
  {
    if |args| == 0 {
      SplitNoSep(cmd, ' ');
    } else {
      var init := args[..|args| - 1];
      var last := args[|args| - 1];
      CommandLineSplits(cmd, init);
      assert CommandLine(cmd, args) == CommandLine(cmd, init) + [' '] + last;
      SplitAppend(CommandLine(cmd, init), last, ' ');
      SplitNoSep(last, ' ');
      assert [cmd] + init + [last] == [cmd] + args;
    }
  }

  // ----- The environment -----

  /** The environment `build_env_updates` gives the child: each later map overrides the
      earlier ones. */
  function EnvUpdates(path: string, processVars: map<string, string>, extraEnv: map<string, string>): map<string, string> {
    map["PATH" := path] + processVars + extraEnv
  }

  /** Extra variables override process variables, which override the computed `PATH`;
      nothing else is in the environment. */
  lemma EnvPrecedence(path: string, processVars: map<string, string>, extraEnv: map<string, string>)
    ensures var env := EnvUpdates(path, processVars, extraEnv);
            && env.Keys == {"PATH"} + processVars.Keys + extraEnv.Keys
            && (forall k :: k in extraEnv ==> env[k] == extraEnv[k])
            && (forall k :: k in processVars && k !in extraEnv ==> env[k] == processVars[k])
            && ("PATH" !in processVars && "PATH" !in extraEnv ==> env["PATH"] == path)
  {
  }

  /** Insert every entry of `updates` into `results`, one key at a time. */
  method InsertAll(results: map<string, string>, updates: map<string, string>) returns (r: map<string, string>)
    ensures r == results + updates
  {
    r := results;
    var todo := updates.Keys;
    while todo != {}
      invariant todo <= updates.Keys
      invariant r == results + map k | k in updates.Keys - todo :: updates[k]
      decreases todo
    {
      var key :| key in todo;
      r := r[key := updates[key]];
      todo := todo - {key};
    }
    assert updates.Keys - todo == updates.Keys;
    assert (map k | k in updates.Keys :: updates[k]) == updates;
  }

  /** `build_env_updates`: `PATH` first, then the process's variables, then the extra
      ones, each inserted over what is there. */
  method BuildEnvUpdates(path: string, processVars: map<string, string>, extraEnv: map<string, string>)
    returns (results: map<string, string>)
    ensures results == EnvUpdates(path, processVars, extraEnv)
  {
    results := map[];
    results := results["PATH" := path];
    results := InsertAll(results, processVars);
    results := InsertAll(results, extraEnv);
  }

  // ----- Running -----

  /** `{:?}` of a string: in double quotes, with quotes, backslashes and the common
      control characters escaped. */
  function DebugQuote(s: string): string {
    "\"" + DebugEscape(s) + "\""
  }

  /** A character `{:?}` cannot print as it is: an ASCII control character or DEL. */
  predicate IsAsciiControl(c: char) {
    c < ' ' || c == '\U{7F}'
  }

  /** The lower-case hexadecimal digits of `n`, without leading zeros. */
  function LowerHex(n: nat): (r: string)
    ensures |r| > 0
    ensures forall i :: 0 <= i < |r| ==> r[i] in "0123456789abcdef"
    decreases n
  {
    var d := ["0123456789abcdef"[n % 16]];
    if n < 16 then d else LowerHex(n / 16) + d
  }

  /** How `{:?}` writes one character: `\0`, `\t`, `\r`, `\n`, `\"` and `\\` by
      name, every other control character as `\u{..}` in lower-case hexadecimal, and
      anything else as it is. */
  function EscapeChar(c: char): (r: string)
    ensures |r| > 0
    ensures forall i :: 0 <= i < |r| ==> !IsAsciiControl(r[i])
    ensures !IsAsciiControl(c) && c != '"' && c != '\\' <==> r == [c]
  {
    if c == '"' then "\\\"" else if c == '\\' then "\\\\"
    else if c == '\n' then "\\n" else if c == '\r' then "\\r" else if c == '\t' then "\\t"
    else if c == '\0' then "\\0"
    else if IsAsciiControl(c) then "\\u{" + LowerHex(c as nat) + "}"
    else [c]
  }

  /** The characters of `{:?}` of a string between its quotes; no control character
      is left in it. */
  function DebugEscape(s: string): (r: string)
    ensures forall i :: 0 <= i < |r| ==> !IsAsciiControl(r[i])
    decreases |s|
  {
    if |s| == 0 then ""
    else
      var e := EscapeChar(s[0]);
      var rest := DebugEscape(s[1..]);
      assert forall i :: 0 <= i < |e| + |rest| ==> (e + rest)[i] == if i < |e| then e[i] else rest[i - |e|];
      e + rest
  }

  /** Text with no control character, quote or backslash is written between the quotes
      exactly as it is. */
  lemma {:induction false} PlainTextUnchanged(s: string)
    requires forall i :: 0 <= i < |s| ==> !IsAsciiControl(s[i]) && s[i] != '"' && s[i] != '\\'
    ensures DebugEscape(s) == s
    decreases |s|
  {
    if |s| > 0 {
      PlainTextUnchanged(s[1..]);
      assert [s[0]] + s[1..] == s;
    }
  }

  /** A command with a bell character in it is written `"a\u{7}b"`. */
  lemma BellIsEscaped()
    ensures DebugQuote("a\U{7}b") == "\"a\\u{7}b\""
  {
    assert EscapeChar('\U{7}') == "\\u{7}";
  }

  /** `{:?}` of a list of strings. */
  function DebugList(items: seq<string>): string {
    "[" + DebugItems(items) + "]"
  }

  function DebugItems(items: seq<string>): string
    decreases |items|
  {
    if |items| == 0 then ""
    else if |items| == 1 then DebugQuote(items[0])
    else DebugQuote(items[0]) + ", " + DebugItems(items[1..])
  }

  /** What `run_command` returns for a child outcome: the captured output (empty unless it
      is captured) and the exit code, 0 for an exit without one; a failed spawn or wait
      is error 10. */
  function RunResult(outcome: ChildOutcome, args: seq<string>, captureOutput: bool): (r: (string, string, Result<int, CliError>))
    ensures r.2.Failure? <==> !outcome.Exited?
    ensures r.2.Failure? ==> r.2.error.code == 10 && r.0 == "" && r.1 == ""
    ensures outcome.Exited? ==> r.2 == Success(outcome.code.GetOr(0))
    ensures outcome.Exited? && captureOutput ==> r.0 == outcome.stdout && r.1 == outcome.stderr
  {
    match outcome
    case SpawnFailed(m) => ("", "", Failure(CliError(10, "Unable to execute command: " + m)))
    case WaitFailed(m) => ("", "", Failure(CliError(10, "Unable to run " + DebugList(args) + " it returned " + m)))
    case Exited(out, err, code) =>
      if captureOutput then (out, err, Success(code.GetOr(0)))
      else ("", "", Success(code.GetOr(0)))
  }

  /** `run_command`: the command line and the environment are built, then the child is
      run with them. */
  method RunCommand(cmd: string, args: seq<string>, extraEnv: map<string, string>, captureOutput: bool,
                    path: string, processVars: map<string, string>,
                    spawn: (string, map<string, string>) -> ChildOutcome)
    returns (stdout: string, stderr: string, result: Result<int, CliError>)
    ensures (stdout, stderr, result) ==
              RunResult(spawn(CommandLine(cmd, args), EnvUpdates(path, processVars, extraEnv)), args, captureOutput)
  {
    var commandString := BuildCommandString(cmd, args);
    var envMap := BuildEnvUpdates(path, processVars, extraEnv);
    var r := RunResult(spawn(commandString, envMap), args, captureOutput);
    stdout, stderr, result := r.0, r.1, r.2;
  }

  /** `execute_external_command`: the command is written with `{:?}` (quoted), output is
      not captured, and only the code or the error is returned. */
  method ExecuteExternalCommand(cmd: string, args: seq<string>, extraEnv: map<string, string>,
                                path: string, processVars: map<string, string>,
                                spawn: (string, map<string, string>) -> ChildOutcome)
    returns (r: Result<int, CliError>)
    ensures r == RunResult(spawn(CommandLine(DebugQuote(cmd), args), EnvUpdates(path, processVars, extraEnv)), args, false).2
  {
    var _, _, result := RunCommand(DebugQuote(cmd), args, extraEnv, false, path, processVars, spawn);
    r := result;
  }

  /** `execute_external_command_for_output`: output is captured and, on success, the
      standard output is returned trimmed. */
  method ExecuteExternalCommandForOutput(cmd: string, args: seq<string>, extraEnv: map<string, string>,
                                         path: string, processVars: map<string, string>,
                                         spawn: (string, map<string, string>) -> ChildOutcome)
    returns (r: Result<string, CliError>)
    ensures var o := spawn(CommandLine(cmd, args), EnvUpdates(path, processVars, extraEnv));
            && (o.Exited? ==> r == Success(Trim(o.stdout)))
            && (!o.Exited? ==> r.Failure? && r.error.code == 10)
  {
    var stdout, _, result := RunCommand(cmd, args, extraEnv, true, path, processVars, spawn);
    match result {
      case Success(_) => r := Success(Trim(stdout));
      case Failure(err) => r := Failure(err);
    }
  }
}
