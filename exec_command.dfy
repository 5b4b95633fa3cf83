/**
 * `inc-commands/src/exec.rs`: `inc exec`. A command of the merged project
 * configuration is a list of steps; each step is split on spaces into a program and
 * its arguments and run with the step's environment (plus `INC_PROJECT_DIR`, the
 * directory of the file that defined the command), and the first step that fails
 * ends the run. `--list-commands` describes every command instead.
 *
 * Steps are run by `execute_external_command` (`Executor`), so the child outcome, the
 * `PATH` and the process environment are inputs. The parsed command line is
 * `listCommands` and `command`; clap requires the command unless listing.
 */
module ExecCommand {
  import opened Wrappers
  import opened RustStr
  import opened RustPath
  import opened Sorting
  import opened Process
  import opened YamlConfig
  import opened Executor

  /** What one step asks `execute_external_command` for. */
  datatype StepCall = StepCall(program: string, args: seq<string>, env: map<string, string>)

  /** The environment of a step: its own variables, then `INC_PROJECT_DIR` set to the
      directory holding the defining file, when that file is known (a file with no
      parent panics). */
  function ExtraEnv(commandEnv: map<string, string>, definedIn: Option<Path>): (r: Fallible<map<string, string>>)
    ensures definedIn.None? ==> r == Done(commandEnv)
    ensures definedIn.Some? && definedIn.value == [] ==> r.Panic?
    ensures definedIn.Some? && definedIn.value != [] ==>
              && r.Done?
              && r.value.Keys == commandEnv.Keys + {"INC_PROJECT_DIR"}
              && r.value["INC_PROJECT_DIR"] == PathString(Parent(definedIn.value).value)
              && forall k :: k in commandEnv && k != "INC_PROJECT_DIR" ==> r.value[k] == commandEnv[k]
  {
    match definedIn
    case None => Done(commandEnv)
    case Some(path) =>
      match Parent(path)
      case None => Panic("called `Option::unwrap()` on a `None` value")
      case Some(dir) => Done(commandEnv["INC_PROJECT_DIR" := PathString(dir)])
  }

  /** A step as a call: the first space-separated word is the program and the rest, in
      order, its arguments. */
  function StepCallOf(step: CommandAndEnv, definedIn: Option<Path>): (r: Fallible<StepCall>)
    ensures r.Done? <==> ExtraEnv(step.commandEnv, definedIn).Done?
    ensures r.Done? ==> [r.value.program] + r.value.args == Split(step.command, ' ')
                        && r.value.env == ExtraEnv(step.commandEnv, definedIn).value
  {
    var commandList := Split(step.command, ' ');
    match ExtraEnv(step.commandEnv, definedIn)
    case Panic(m) => Panic(m)
    case Done(env) =>
      assert commandList == [commandList[0]] + commandList[1..];
      Done(StepCall(commandList[0], commandList[1..], env))
  }

  /** Text without spaces is run as the whole program with no arguments; words joined
      by single spaces are run as the first word with the rest as arguments. */
  lemma StepWords(program: string, args: seq<string>, env: map<string, string>)
    requires ' ' !in program && forall k :: 0 <= k < |args| ==> ' ' !in args[k]
    ensures StepCallOf(CommandAndEnv(CommandLine(program, args), env), None) == Done(StepCall(program, args, env))
  {
    CommandLineSplits(program, args);
  }

  /** The step runner: `execute_external_command` for the call. */
  function ExternalRunner(path: string, processVars: map<string, string>,
                          spawn: (string, map<string, string>) -> ChildOutcome): StepCall -> Result<int, CliError> {
    (c: StepCall) => RunExternal(path, processVars, spawn, c)
  }

  /** A call run through the executor: the program quoted, the process environment
      updated with the call's variables, output not captured. */
  function RunExternal(path: string, processVars: map<string, string>,
                       spawn: (string, map<string, string>) -> ChildOutcome, c: StepCall): Result<int, CliError> {
    RunResult(spawn(CommandLine(DebugQuote(c.program), c.args), EnvUpdates(path, processVars, c.env)), c.args, false).2
  }

  /** The calls made and the outcome of running steps in order. */
  datatype Trace = Trace(calls: seq<StepCall>, outcome: Fallible<int>)

  /** One step: no call when its environment cannot be built (a panic), otherwise its
      call and that call's code, 17 when the program could not be run. */
  function StepTrace(step: CommandAndEnv, definedIn: Option<Path>, runStep: StepCall -> Result<int, CliError>)
    : (t: Trace)
    ensures StepCallOf(step, definedIn).Panic? <==> t.calls == []
    ensures t.outcome.Panic? <==> t.calls == []
    ensures t.calls != [] ==> t.calls == [StepCallOf(step, definedIn).value]
  {
    match StepCallOf(step, definedIn)
    case Panic(m) => Trace([], Panic(m))
    case Done(call) =>
      match runStep(call)
      case Failure(_) => Trace([call], Done(17))
      case Success(value) => Trace([call], Done(value))
  }

  /** The traces of the steps from position `i` on, chained: each step's calls, up to
      the first step whose outcome is not a 0 code, whose outcome ends the chain; when
      every step gives 0 the outcome is 0. */
  function Chain(ts: seq<Trace>, i: nat): Trace
    requires i <= |ts|
    decreases |ts| - i
  {
    if i == |ts| then Trace([], Done(0))
    else if ts[i].outcome != Done(0) then ts[i]
    else
      var rest := Chain(ts, i + 1);
      Trace(ts[i].calls + rest.calls, rest.outcome)
  }

  /** What each step would do if it were reached. */
  function StepTraces(steps: seq<CommandAndEnv>, definedIn: Option<Path>, runStep: StepCall -> Result<int, CliError>)
    : (ts: seq<Trace>)
    ensures |ts| == |steps|
  {
    seq(|steps|, k requires 0 <= k < |steps| => StepTrace(steps[k], definedIn, runStep))
  }

  /** Steps run in order until one gives a non-zero code (that code), fails to run (17)
      or panics; when all give 0 the outcome is 0. */
  function RunSteps(steps: seq<CommandAndEnv>, definedIn: Option<Path>, runStep: StepCall -> Result<int, CliError>)
    : Trace
  {
    Chain(StepTraces(steps, definedIn, runStep), 0)
  }

  /** Chaining from a position of `p + s` inside `s` is chaining `s` from there. */
  lemma {:induction false} ChainShift(p: seq<Trace>, s: seq<Trace>, j: nat)
    requires j <= |s|
    ensures Chain(p + s, |p| + j) == Chain(s, j)
    decreases |s| - j
  {
    if j < |s| {
      assert (p + s)[|p| + j] == s[j];
      ChainShift(p, s, j + 1);
    }
  }

  lemma AppendAssoc<T>(a: seq<T>, b: seq<T>, c: seq<T>)
    ensures (a + b) + c == a + (b + c)
  {
  }

  /** One step of the chain, seen from the calls already made: a step that does not give 0
      ends the chain with its own outcome; one that gives 0 adds its calls and goes on. */
  lemma ChainStep(ts: seq<Trace>, i: nat, calls: seq<StepCall>, whole: Trace)
    requires i < |ts| && whole == Trace(calls + Chain(ts, i).calls, Chain(ts, i).outcome)
    ensures ts[i].outcome != Done(0) ==> whole == Trace(calls + ts[i].calls, ts[i].outcome)
    ensures ts[i].outcome == Done(0) ==>
              whole == Trace((calls + ts[i].calls) + Chain(ts, i + 1).calls, Chain(ts, i + 1).outcome)
  {
    if ts[i].outcome == Done(0) {
      AppendAssoc(calls, ts[i].calls, Chain(ts, i + 1).calls);
    }
  }

  /** Chaining `a + b` from a position inside `a` chains the rest of `a`, and then `b`
      only when all of it gave 0. */
  lemma {:induction false} ChainAppend(a: seq<Trace>, b: seq<Trace>, i: nat)
    requires i <= |a|
    ensures var ra := Chain(a, i);
            var rb := Chain(b, 0);
            Chain(a + b, i) == if ra.outcome == Done(0) then Trace(ra.calls + rb.calls, rb.outcome) else ra
    decreases |a| - i
  {
    var rb := Chain(b, 0);
    if i == |a| {
      ChainShift(a, b, 0);
      assert [] + rb.calls == rb.calls;
    } else {
      assert (a + b)[i] == a[i];
      if a[i].outcome == Done(0) {
        ChainAppend(a, b, i + 1);
        AppendAssoc(a[i].calls, Chain(a, i + 1).calls, rb.calls);
      }
    }
  }

  /** Running `a + b` runs `a`, and then `b` only when all of `a` gave 0. */
  lemma RunStepsAppend(a: seq<CommandAndEnv>, b: seq<CommandAndEnv>, definedIn: Option<Path>,
                       runStep: StepCall -> Result<int, CliError>)
    ensures var ra := RunSteps(a, definedIn, runStep);
            var rb := RunSteps(b, definedIn, runStep);
            RunSteps(a + b, definedIn, runStep) ==
              if ra.outcome == Done(0) then Trace(ra.calls + rb.calls, rb.outcome) else ra
  {
    assert StepTraces(a + b, definedIn, runStep) == StepTraces(a, definedIn, runStep) + StepTraces(b, definedIn, runStep);
    ChainAppend(StepTraces(a, definedIn, runStep), StepTraces(b, definedIn, runStep), 0);
  }

  /** A step giving a non-zero code ends the run with that code, whatever follows. */
  lemma StopsAtFirstNonzero(done: seq<CommandAndEnv>, step: CommandAndEnv, later: seq<CommandAndEnv>,
                            definedIn: Option<Path>, runStep: StepCall -> Result<int, CliError>)
    requires RunSteps(done, definedIn, runStep).outcome == Done(0)
    requires StepCallOf(step, definedIn).Done?
    requires runStep(StepCallOf(step, definedIn).value).Success?
    requires runStep(StepCallOf(step, definedIn).value).value != 0
    ensures RunSteps(done + [step] + later, definedIn, runStep).outcome
            == Done(runStep(StepCallOf(step, definedIn).value).value)
    ensures RunSteps(done + [step] + later, definedIn, runStep).calls
            == RunSteps(done, definedIn, runStep).calls + [StepCallOf(step, definedIn).value]
  {
    RunStepsAppend(done, [step] + later, definedIn, runStep);
    assert done + [step] + later == done + ([step] + later);
  }

  /** The line logged as a step begins. */
  function ExecutingLine(step: CommandAndEnv): string {
    "** Executing `" + step.command + "`"
  }

  /** The `** Executing` log lines of a run that began `begun` steps, built step by step:
      one per step begun, in order, naming its command, and none at all for a command of
      a single step. */
  function ExecutingLog(steps: seq<CommandAndEnv>, begun: nat): (lines: seq<string>)
    requires begun <= |steps|
    ensures |steps| <= 1 ==> lines == []
    ensures |steps| > 1 ==> |lines| == begun && forall k :: 0 <= k < begun ==> lines[k] == ExecutingLine(steps[k])
    decreases begun
  {
    if |steps| <= 1 || begun == 0 then []
    else ExecutingLog(steps, begun - 1) + [ExecutingLine(steps[begun - 1])]
  }

  /** The environment a step is given: its own variables, inserted one by one, then the
      project directory. */
  method BuildExtraEnv(commandEnv: map<string, string>, definedIn: Option<Path>) returns (extraEnv: map<string, string>)
    requires definedIn.None? || definedIn.value != []
    ensures ExtraEnv(commandEnv, definedIn) == Done(extraEnv)
  {
    extraEnv := InsertAll(map[], commandEnv);
    assert extraEnv == commandEnv;
    if definedIn.Some? {
      extraEnv := extraEnv["INC_PROJECT_DIR" := PathString(Parent(definedIn.value).value)];
    }
  }

  /** One step: its words become the program and its arguments, its environment gets the
      project directory, and the program runs through the executor. */
  method ExecuteStep(commandEntry: CommandAndEnv, definedIn: Option<Path>, path: string,
                     processVars: map<string, string>, spawn: (string, map<string, string>) -> ChildOutcome)
    returns (t: Trace)
    ensures t == StepTrace(commandEntry, definedIn, ExternalRunner(path, processVars, spawn))
  {
    var call := StepCallOf(commandEntry, definedIn);
    if call.Panic? {
      return Trace([], Panic(call.reason));
    }
    var commandExec := call.value.program;
    var commandList := call.value.args;
    var extraEnv := BuildExtraEnv(commandEntry.commandEnv, definedIn);
    var result := ExecuteExternalCommand(commandExec, commandList, extraEnv, path, processVars, spawn);
    assert result == ExternalRunner(path, processVars, spawn)(call.value);
    match result {
      case Success(value) => t := Trace([call.value], Done(value));
      case Failure(_) => t := Trace([call.value], Done(17));
    }
  }

  /** Step `i` of a command, run: its trace among those of all the steps. */
  method ExecuteStepAt(steps: seq<CommandAndEnv>, i: nat, definedIn: Option<Path>, path: string,
                       processVars: map<string, string>, spawn: (string, map<string, string>) -> ChildOutcome)
    returns (t: Trace)
    requires i < |steps|
    ensures t == StepTraces(steps, definedIn, ExternalRunner(path, processVars, spawn))[i]
    ensures |t.calls| == if t.outcome.Panic? then 0 else 1
  {
    t := ExecuteStep(steps[i], definedIn, path, processVars, spawn);
  }

  /** Step `i` begins: with more than one step, its `** Executing` line is logged. */
  method LogBegin(steps: seq<CommandAndEnv>, i: nat, log: seq<string>) returns (log': seq<string>)
    requires i < |steps| && log == ExecutingLog(steps, i)
    ensures log' == ExecutingLog(steps, i + 1)
  {
    log' := log;
    if |steps| > 1 {
      log' := log' + [ExecutingLine(steps[i])];
    }
  }

  /** The step loop of `execute`: the calls and the outcome are those of `RunSteps`,
      `begun` counts the steps started, and `log` holds the line each of them wrote. */
  method RunCommandSteps(steps: seq<CommandAndEnv>, definedIn: Option<Path>, path: string,
                         processVars: map<string, string>, spawn: (string, map<string, string>) -> ChildOutcome)
    returns (begun: nat, calls: seq<StepCall>, r: Fallible<int>, log: seq<string>)
    ensures var t := RunSteps(steps, definedIn, ExternalRunner(path, processVars, spawn));
            calls == t.calls && r == t.outcome
    ensures begun == |calls| + (if r.Panic? then 1 else 0) <= |steps|
    ensures log == ExecutingLog(steps, begun)
  {
    ghost var runStep := ExternalRunner(path, processVars, spawn);
    ghost var traces := StepTraces(steps, definedIn, runStep);
    ghost var whole := Chain(traces, 0);
    begun, calls, log := 0, [], [];
    var i := 0;
    assert [] + whole.calls == whole.calls;
    while i < |steps|
      invariant 0 <= i <= |steps| && |calls| == i
      invariant whole == Trace(calls + Chain(traces, i).calls, Chain(traces, i).outcome)
      invariant begun == i
      invariant log == ExecutingLog(steps, i)
    {
      log := LogBegin(steps, i, log);
      begun := begun + 1;
      var step := ExecuteStepAt(steps, i, definedIn, path, processVars, spawn);
      ChainStep(traces, i, calls, whole);
      calls := calls + step.calls;
      assert |calls| + (if step.outcome.Panic? then 1 else 0) == i + 1;
      if step.outcome != Done(0) {
        return begun, calls, step.outcome, log;
      }
      i := i + 1;
    }
    assert calls + [] == calls;
    r := Done(0);
  }

  /** `execute`: the listing, or the named command's steps; a command that is not in the
      merged configuration is error 2 and runs nothing. */
  method Execute(listCommands: bool, command: string, config: ConfigContainer,
                 showEnv: map<string, string> -> string, path: string,
                 processVars: map<string, string>, spawn: (string, map<string, string>) -> ChildOutcome)
    returns (listing: Option<string>, calls: seq<StepCall>, r: Fallible<Result<int, CliError>>)
    ensures var ec := Merge(config.projectConfig);
            && (listCommands ==> r == Done(Success(0)) && listing.Some? && calls == []
                                 && (exists keys :: StrictlyAscending(keys) && (forall k :: k in keys <==> k in ec.commands)
                                                    && listing.value == ListText(keys, ec.commands, showEnv)))
            && (!listCommands && command !in ec.commands ==>
                  listing.None? && calls == []
                  && r == Done(Failure(CliError(2, "Unable to find command list for " + command + "! Failing!"))))
            && (!listCommands && command in ec.commands ==>
                  var t := RunSteps(Steps(ec.commands[command]),
                                    if command in ec.commandDefinitions then Some(ec.commandDefinitions[command]) else None,
                                    ExternalRunner(path, processVars, spawn));
                  && listing.None? && calls == t.calls
                  && (t.outcome.Panic? <==> r.Panic?)
                  && (t.outcome.Done? ==> r == Done(Success(t.outcome.value))))
  {
    var execConfigs := GetExecConfigs(config);
    calls := [];
    if listCommands {
      var keys, text := GenerateListOptions(execConfigs, showEnv);
      listing := Some(text);
      r := Done(Success(0));
      return;
    }
    listing := None;
    if command !in execConfigs.commands {
      r := Done(Failure(CliError(2, "Unable to find command list for " + command + "! Failing!")));
      return;
    }
    var commandConfig := execConfigs.commands[command];
    var commandDefinedIn := if command in execConfigs.commandDefinitions then Some(execConfigs.commandDefinitions[command]) else None;
    var steps := Steps(commandConfig);
    var begun, outcome, log;
    begun, calls, outcome, log := RunCommandSteps(steps, commandDefinedIn, path, processVars, spawn);
    match outcome {
      case Panic(m) => r := Panic(m);
      case Done(code) => r := Done(Success(code));
    }
  }

  /** The steps of a command, normalised. */
  function Steps(c: ExecCommandConfig): (r: seq<CommandAndEnv>)
    ensures |r| == |c.commands|
    ensures forall i :: 0 <= i < |r| ==> r[i] == ToCommandAndEnvs(c.commands[i])
  {
    seq(|c.commands|, i requires 0 <= i < |c.commands| => ToCommandAndEnvs(c.commands[i]))
  }

  // ----- The listing -----
  // The listing is written into one buffer; each function below is what a group of
  // `write!` calls appends to the text written so far.

  /** A step's lines: its command and its environment, as `showEnv` writes it (the
      `{:?}` form of the map, whose order is the map's). */
  function WriteStep(list: string, step: CommandAndEnv, showEnv: map<string, string> -> string): string {
    list + "     - command: " + step.command + "\n" + "       env: " + showEnv(step.commandEnv) + "\n"
  }

  function WriteSteps(list: string, steps: seq<CommandAndEnv>, showEnv: map<string, string> -> string): string
    decreases |steps|
  {
    if |steps| == 0 then list else WriteStep(WriteSteps(list, steps[..|steps| - 1], showEnv), steps[|steps| - 1], showEnv)
  }

  /** A command's lines: its name, its description, then its normalised steps. */
  function WriteEntry(list: string, key: string, c: ExecCommandConfig, showEnv: map<string, string> -> string): string {
    WriteSteps(list + " - name: " + key + "\n" + "   description: " + c.description + "\n" + "   commands:\n",
               Steps(c), showEnv)
  }

  function WriteEntries(list: string, keys: seq<string>, commands: map<string, ExecCommandConfig>,
                        showEnv: map<string, string> -> string): string
    requires forall k :: k in keys ==> k in commands
    decreases |keys|
  {
    if |keys| == 0 then list
    else WriteEntry(WriteEntries(list, keys[..|keys| - 1], commands, showEnv), keys[|keys| - 1],
                    commands[keys[|keys| - 1]], showEnv)
  }

  /** The whole listing, with the commands in the order of `keys`. */
  function ListText(keys: seq<string>, commands: map<string, ExecCommandConfig>,
                    showEnv: map<string, string> -> string): string
    requires forall k :: k in keys ==> k in commands
  {
    WriteEntries("Avaliable Commands:\n", keys, commands, showEnv)
  }

  /** The inner loop of `generate_list_options`: a command's steps, one after another. */
  method WriteCommandSteps(header: string, commandList: seq<CommandAndEnv>, showEnv: map<string, string> -> string)
    returns (list: string)
    ensures list == WriteSteps(header, commandList, showEnv)
  {
    list := header;
    for j := 0 to |commandList|
      invariant list == WriteSteps(header, commandList[..j], showEnv)
    {
      assert commandList[..j + 1][..j] == commandList[..j];
      list := list + "     - command: " + commandList[j].command + "\n";
      list := list + "       env: " + showEnv(commandList[j].commandEnv) + "\n";
    }
    assert commandList[..|commandList|] == commandList;
  }

  /** `generate_list_options`: every command, in ascending name order, with its
      description and its normalised steps. */
  method GenerateListOptions(config: ExecConfig, showEnv: map<string, string> -> string)
    returns (commands: seq<string>, list: string)
    ensures StrictlyAscending(commands)
    ensures forall k :: k in commands <==> k in config.commands
    ensures list == ListText(commands, config.commands, showEnv)
  {
    list := "Avaliable Commands:\n";
    var commandMap := config.commands;
    commands := SortStrings(commandMap.Keys);
    for i := 0 to |commands|
      invariant list == WriteEntries("Avaliable Commands:\n", commands[..i], commandMap, showEnv)
    {
      var key := commands[i];
      var value := commandMap[key];
      assert commands[..i + 1][..i] == commands[..i];
      list := list + " - name: " + key + "\n";
      list := list + "   description: " + value.description + "\n";
      list := list + "   commands:\n";
      list := WriteCommandSteps(list, Steps(value), showEnv);
    }
    assert commands[..|commands|] == commands;
  }

  /** With commands `build` and `run`, `build` is described first. */
  lemma BuildListedBeforeRun(keys: seq<string>, commands: map<string, ExecCommandConfig>,
                             showEnv: map<string, string> -> string)
    requires StrictlyAscending(keys)
    requires commands.Keys == {"build", "run"}
    requires forall k :: k in keys <==> k in commands
    ensures ListText(keys, commands, showEnv)
            == WriteEntry(WriteEntry("Avaliable Commands:\n", "build", commands["build"], showEnv),
                          "run", commands["run"], showEnv)
  {
    assert StrictlyAscending(["build", "run"]) by {
      assert LexLess("build", "run");
    }
    AscendingUnique(keys, ["build", "run"]);
    var start := "Avaliable Commands:\n";
    var first := ["build"];
    assert first[..0] == [];
    assert WriteEntries(start, first, commands, showEnv) == WriteEntry(start, "build", commands["build"], showEnv);
    assert keys[..1] == first;
  }
}
