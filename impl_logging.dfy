/**
 * The level selection of the shared implementation crate: the verbosity flags of the
 * command line against the level inherited through `ETRAIN_LOG_LEVEL`, as levels of the
 * `slog` crate.
 */
module ImplLogging {
  import opened Wrappers
  import opened RustStr
  import opened VerbosityArgs

  const InheritedLevelVariable := "ETRAIN_LOG_LEVEL"

  /** The `slog` crate's levels, least to most verbose. */
  datatype Level = Critical | Error | Warning | Info | Debug | Trace

  /** `Level::as_usize`: 1 for Critical up to 6 for Trace. */
  function AsUsize(level: Level): nat {
    match level
    case Critical => 1
    case Error => 2
    case Warning => 3
    case Info => 4
    case Debug => 5
    case Trace => 6
  }

  /** `Level::as_str`: the level's name as the `slog` crate spells it. */
  function AsStr(level: Level): string {
    match level
    case Critical => "CRITICAL"
    case Error => "ERROR"
    case Warning => "WARN"
    case Info => "INFO"
    case Debug => "DEBUG"
    case Trace => "TRACE"
  }

  /** `log_level`: no verbosity is Warning, 1 is Info, 2 is Debug and more is Trace. */
  function LogLevel(numberOfVerbose: nat): (r: Level)
    ensures AsUsize(r) >= AsUsize(Warning)
    ensures numberOfVerbose <= 3 ==> AsUsize(r) == numberOfVerbose + 3
    ensures numberOfVerbose >= 3 ==> r == Trace
  {
    match numberOfVerbose
    case 0 => Warning
    case 1 => Info
    case 2 => Debug
    case _ => Trace
  }

  /** `parse_from_args`: the verbosity flags of the command line. */
  method ParseFromArgs(args: seq<string>) returns (level: Level)
    ensures level == LogLevel(Verbosity(args))
  {
    var verboseLevel := ParseVerbosity(args);
    level := LogLevel(verboseLevel);
  }

  /** `parse_from_env`: the inherited level by name, else by number, else Info. */
  function ParseFromEnv(inherited: Option<string>): Level {
    match inherited
    case None => Info
    case Some(value) =>
      if AsStr(Critical) == value then Critical
      else if AsStr(Error) == value then Error
      else if AsStr(Warning) == value then Warning
      else if AsStr(Info) == value then Info
      else if AsStr(Debug) == value then Debug
      else if AsStr(Trace) == value then Trace
      else
        match ParseU64(value)
        case Some(n) => LogLevel(n)
        case None => Info
  }

  /** A level's name selects that level. */
  lemma NameSelectsLevel(level: Level)
    ensures ParseFromEnv(Some(AsStr(level))) == level
  {
  }

  /** A number selects the level that many verbosity flags would, and no name is a
      number; anything else, or nothing, is Info. */
  lemma NumberOrInfo(value: string)
    requires forall l :: AsStr(l) != value
    ensures ParseU64(value).Some? ==> ParseFromEnv(Some(value)) == LogLevel(ParseU64(value).value)
    ensures ParseU64(value).None? ==> ParseFromEnv(Some(value)) == Info
  {
  }

  /** Level names never parse as numbers, so every level has exactly one reading. */
  lemma NamesAreNotNumbers(level: Level)
    ensures ParseU64(AsStr(level)).None?
  {
    var name := AsStr(level);
    assert !IsDigit(name[0]) && name[0] != '+';
    assert |name| > 1 && !IsDigit(name[1]);
  }

  /** The more verbose of the two levels; the inherited one when they are equal. */
  function MoreVerbose(argsLevel: Level, envLevel: Level): (r: Level)
    ensures AsUsize(r) >= AsUsize(argsLevel) && AsUsize(r) >= AsUsize(envLevel)
    ensures r == argsLevel || r == envLevel
  {
    if AsUsize(argsLevel) > AsUsize(envLevel) then argsLevel else envLevel
  }

  /** `get_verbosity_level`: the flags of the command line and the inherited level, the
      more verbose of the two. */
  method GetVerbosityLevel(args: seq<string>, env: map<string, string>) returns (level: Level)
    ensures level == MoreVerbose(LogLevel(Verbosity(args)),
                                 ParseFromEnv(if InheritedLevelVariable in env then Some(env[InheritedLevelVariable]) else None))
  {
    var argsLevel := ParseFromArgs(args);
    var envLevel := ParseFromEnv(if InheritedLevelVariable in env then Some(env[InheritedLevelVariable]) else None);
    if AsUsize(argsLevel) > AsUsize(envLevel) {
      return argsLevel;
    } else {
      return envLevel;
    }
  }

  /** With nothing inherited, the level is at least Info, whatever the flags say. */
  lemma AtLeastInfoUnlessInherited(args: seq<string>)
    ensures AsUsize(MoreVerbose(LogLevel(Verbosity(args)), ParseFromEnv(None))) >= AsUsize(Info)
  {
  }
}
