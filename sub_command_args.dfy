/**
 * Splitting the command line of the `inc` entry point into the sub-command to run and
 * the arguments handed to it.
 */
module SubCommandArgs {
  import opened Wrappers
  import opened RustStr

  datatype SubCommandArguments = SubCommandArguments(command: string, arguments: seq<string>)

  /** An argument that is a flag of the entry point itself. */
  predicate IsFlag(argument: string) {
    StartsWith(argument, "-")
  }

  /** Position of the first argument from `from` on that is not a flag. */
  function FirstNonFlag(args: seq<string>, from: nat): (r: Option<nat>)
    requires from <= |args|
    ensures r.Some? ==> from <= r.value < |args| && !IsFlag(args[r.value])
                        && forall k :: from <= k < r.value ==> IsFlag(args[k])
    ensures r.None? ==> forall k :: from <= k < |args| ==> IsFlag(args[k])
    decreases |args| - from
  {
    if from == |args| then None
    else if !IsFlag(args[from]) then Some(from)
    else FirstNonFlag(args, from + 1)
  }

  /** The sub-command is the first argument after the program name that is not a flag;
      every argument after it is passed on, and the flags before it are dropped. */
  function SubCommandOf(args: seq<string>): Result<SubCommandArguments, string> {
    if |args| == 0 then Failure("No command specified")
    else
      match FirstNonFlag(args, 1)
      case None => Failure("No command specified")
      case Some(j) => Success(SubCommandArguments(args[j], args[j + 1..]))
  }

  /** `build_sub_command_args`: one pass over the arguments after the program name,
      remembering whether the sub-command has been seen. */
  method BuildSubCommandArgs(args: seq<string>) returns (r: Result<SubCommandArguments, string>)
    ensures r == SubCommandOf(args)
  {
    var arguments: seq<string> := [];
    var command: Option<string> := None;
    var inSubCommand := false;
    if |args| == 0 {
      // nothing after the program name
      return Failure("No command specified");
    }
    for i := 1 to |args|
      invariant inSubCommand <==> FirstNonFlag(args[..i], 1).Some?
      invariant command.Some? <==> inSubCommand
      invariant inSubCommand ==> var j := FirstNonFlag(args[..i], 1).value;
                                 command.value == args[j] && arguments == args[j + 1..i]
      invariant !inSubCommand ==> arguments == []
    {
      PrefixFirstNonFlag(args, i);
      var argument := args[i];
      if !inSubCommand && !IsFlag(argument) {
        inSubCommand := true;
        command := Some(argument);
        continue;
      }
      if inSubCommand {
        arguments := arguments + [argument];
      }
    }
    assert args[..|args|] == args;
    match command {
      case Some(p) => r := Success(SubCommandArguments(p, arguments));
      case None => r := Failure("No command specified");
    }
  }

  /** Looking at one more argument: the first non-flag of the longer prefix is that of the
      shorter one, or the new argument when the shorter prefix had none. */
  lemma {:induction false} PrefixFirstNonFlag(args: seq<string>, i: nat)
    requires 1 <= i < |args|
    ensures var before := FirstNonFlag(args[..i], 1);
            FirstNonFlag(args[..i + 1], 1) ==
              if before.Some? then before else if IsFlag(args[i]) then None else Some(i)
  {
    var before := FirstNonFlag(args[..i], 1);
    if before.Some? {
      assert args[..i + 1][before.value] == args[..i][before.value];
    } else {
      assert forall k :: 1 <= k < i ==> args[..i + 1][k] == args[..i][k];
    }
  }

  /** The sub-command is never a flag, and everything after it is passed on unchanged. */
  lemma CommandIsFirstNonFlag(args: seq<string>)
    requires SubCommandOf(args).Success?
    ensures var s := SubCommandOf(args).value;
            exists j :: 1 <= j < |args| && args[j] == s.command && !IsFlag(s.command)
                        && (forall k :: 1 <= k < j ==> IsFlag(args[k])) && s.arguments == args[j + 1..]
  {
    var j := FirstNonFlag(args, 1).value;
    assert 1 <= j < |args| && args[j] == SubCommandOf(args).value.command;
  }

  /** The program name is never the sub-command: with only flags after it, there is no
      sub-command to run. */
  lemma OnlyFlagsFail(args: seq<string>)
    requires |args| >= 1
    ensures SubCommandOf(args).Failure? <==> forall k :: 1 <= k < |args| ==> IsFlag(args[k])
  {
    if SubCommandOf(args).Success? {
      CommandIsFirstNonFlag(args);
    }
  }

  /** `inc -v checkout -v repo` runs `checkout` with `-v repo`; the program name, even when
      it does not look like a flag, is never taken. */
  lemma FlagsAfterCommandKept()
    ensures SubCommandOf(["inc", "-v", "checkout", "-v", "repo"])
            == Success(SubCommandArguments("checkout", ["-v", "repo"]))
  {
    var args := ["inc", "-v", "checkout", "-v", "repo"];
    assert IsFlag(args[1]);
    assert args[2][..1] == "c";
    assert FirstNonFlag(args, 1) == Some(2);
  }
}
