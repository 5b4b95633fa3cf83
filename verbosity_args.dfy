/**
 * The verbosity flags of the command line: `--verbose`/`-v` raise the level by one,
 * `--verbose=N`/`-v=N` set it, and the scan ends at the first argument that is not a
 * flag. The same loop is written out in two crates of the repository.
 */
module VerbosityArgs {
  import opened Wrappers
  import opened RustStr

  const VerboseFlag := "--verbose"
  const ShortFlag := "-v"
  const VerboseSet := "--verbose="
  const ShortSet := "-v="

  /** `--verbose=N` or `-v=N` with a number that parses as a `u64`: the value it sets. */
  function SetValue(argument: string, prefix: string): (r: Option<nat>)
    ensures r.Some? <==> StartsWith(argument, prefix) && ParseU64(argument[|prefix|..]).Some?
    ensures r.Some? ==> r == ParseU64(argument[|prefix|..]) && r.value <= U64Max
  {
    if StartsWith(argument, prefix) then ParseU64(argument[|prefix|..]) else None
  }

  /** What one argument does to the level. */
  function ArgEffect(level: nat, argument: string): nat {
    var raised := if argument == VerboseFlag then level + 1 else level;
    var raisedAgain := if argument == ShortFlag then raised + 1 else raised;
    var setLong := if SetValue(argument, VerboseSet).Some? then SetValue(argument, VerboseSet).value else raisedAgain;
    if SetValue(argument, ShortSet).Some? then SetValue(argument, ShortSet).value else setLong
  }

  /** The level after the arguments from position `i` on, starting from `level`; the
      argument that is not a flag is looked at, and nothing after it. */
  function VerbosityFrom(args: seq<string>, i: nat, level: nat): nat
    decreases |args| - i
  {
    if i >= |args| then level
    else
      var next := ArgEffect(level, args[i]);
      if !StartsWith(args[i], "-") then next else VerbosityFrom(args, i + 1, next)
  }

  /** The level of a command line: 1, changed by the flags after the program name. */
  function Verbosity(args: seq<string>): nat {
    VerbosityFrom(args, 1, 1)
  }

  /** The loop of `parse_from_args`. */
  method ParseVerbosity(args: seq<string>) returns (verboseLevel: nat)
    ensures verboseLevel == Verbosity(args)
  {
    verboseLevel := 1;
    var i := 1;
    while i < |args|
      invariant 1 <= i
      invariant VerbosityFrom(args, i, verboseLevel) == Verbosity(args)
      decreases |args| - i
    {
      var argument := args[i];
      ghost var before := verboseLevel;
      if argument == VerboseFlag {
        verboseLevel := verboseLevel + 1;
      }
      if argument == ShortFlag {
        verboseLevel := verboseLevel + 1;
      }
      if StartsWith(argument, VerboseSet) {
        var count := argument[|VerboseSet|..];
        var value := ParseU64(count);
        if value.Some? {
          verboseLevel := value.value;
        }
      }
      if StartsWith(argument, ShortSet) {
        var count := argument[|ShortSet|..];
        var value := ParseU64(count);
        if value.Some? {
          verboseLevel := value.value;
        }
      }
      assert verboseLevel == ArgEffect(before, argument);
      if !StartsWith(argument, "-") {
        break;
      }
      i := i + 1;
    }
  }

  /** An argument that is not a flag changes nothing. */
  lemma NonFlagKeepsLevel(level: nat, argument: string)
    requires !StartsWith(argument, "-")
    ensures ArgEffect(level, argument) == level
  {
    DashPrefix(argument, VerboseFlag);
    DashPrefix(argument, ShortFlag);
    DashPrefix(argument, VerboseSet);
    DashPrefix(argument, ShortSet);
  }

  /** Text beginning with a prefix that begins with `-` begins with `-`. */
  lemma DashPrefix(argument: string, prefix: string)
    requires |prefix| >= 1 && prefix[0] == '-'
    ensures StartsWith(argument, prefix) ==> StartsWith(argument, "-")
  {
    if StartsWith(argument, prefix) {
      assert argument[..1] == [argument[0]] == [prefix[0]];
    }
  }

  /** Without flags before the first other argument, the level is 1. */
  lemma NoFlagsLevelOne(args: seq<string>)
    requires |args| <= 1 || !StartsWith(args[1], "-")
    ensures Verbosity(args) == 1
  {
    if |args| > 1 {
      NonFlagKeepsLevel(1, args[1]);
    }
  }

  /** Nothing after an argument that is not a flag is read. */
  lemma {:induction false} StopsAtNonFlag(args: seq<string>, i: nat, level: nat, j: nat)
    requires i <= j < |args| && !StartsWith(args[j], "-")
    ensures VerbosityFrom(args, i, level) == VerbosityFrom(args[..j + 1], i, level)
    decreases j - i
  {
    assert args[..j + 1][i] == args[i];
    if i < j {
      StopsAtNonFlag(args, i + 1, ArgEffect(level, args[i]), j);
    }
  }

  /** The command line cut after its first argument that is not a flag, wherever that
      is, gives the same level. */
  lemma IgnoresAfterNonFlag(args: seq<string>, j: nat)
    requires 1 <= j < |args| && !StartsWith(args[j], "-")
    ensures Verbosity(args) == Verbosity(args[..j + 1])
  {
    StopsAtNonFlag(args, 1, 1, j);
  }

  /** Every `-v` and `--verbose` counts once. */
  lemma {:induction false} CountFrom(args: seq<string>, i: nat, level: nat)
    requires 1 <= i <= |args|
    requires forall k :: i <= k < |args| ==> args[k] == ShortFlag || args[k] == VerboseFlag
    ensures VerbosityFrom(args, i, level) == level + (|args| - i)
    decreases |args| - i
  {
    if i < |args| {
      var a := args[i];
      assert StartsWith(a, "-") by { assert a[..1] == "-"; }
      assert !StartsWith(a, VerboseSet) && !StartsWith(a, ShortSet) by {
        if a == ShortFlag {
          assert |a| < |VerboseSet|;
          assert a[..2] == "-v" && |a| < |ShortSet|;
        } else {
          assert |a| < |VerboseSet|;
          assert a[..3] != ShortSet by { assert a[1] == '-'; }
        }
      }
      assert ArgEffect(level, a) == level + 1;
      CountFrom(args, i + 1, level + 1);
    }
  }

  /** A command line of `n` repeated `-v`/`--verbose` flags has level `n + 1`. */
  lemma CountsFlags(args: seq<string>)
    requires |args| >= 1
    requires forall k :: 1 <= k < |args| ==> args[k] == ShortFlag || args[k] == VerboseFlag
    ensures Verbosity(args) == |args|
  {
    CountFrom(args, 1, 1);
  }

  /** `-v=N` sets the level to `N`, whatever came before. */
  lemma SetOverrides(level: nat, digits: string, n: nat)
    requires ParseU64(digits) == Some(n)
    ensures ArgEffect(level, ShortSet + digits) == n
  {
    var a := ShortSet + digits;
    assert StartsWith(a, ShortSet) by { assert a[..|ShortSet|] == ShortSet; }
    assert a[|ShortSet|..] == digits;
    assert !StartsWith(a, VerboseSet) by {
      if |VerboseSet| <= |a| {
        assert a[..|VerboseSet|][1] == 'v';
      }
    }
  }

  /** `--verbose=N` sets the level to `N`, whatever came before. */
  lemma LongSetOverrides(level: nat, digits: string, n: nat)
    requires ParseU64(digits) == Some(n)
    ensures ArgEffect(level, VerboseSet + digits) == n
  {
    var a := VerboseSet + digits;
    assert StartsWith(a, VerboseSet) by { assert a[..|VerboseSet|] == VerboseSet; }
    assert a[|VerboseSet|..] == digits;
    assert !StartsWith(a, ShortSet) by {
      assert a[..|ShortSet|][1] == '-';
    }
  }
}
