/**
 * Logging levels of the commands crate: the level chosen on the command line or
 * inherited through the `INC_LOG_LEVEL` environment variable, its text form, and the
 * filter of the `log` crate it selects.
 */
module CommandsLogging {
  import opened Wrappers
  import opened VerbosityArgs
  import CoreLogging

  const LogLevelDefinition := "INC_LOG_LEVEL"

  datatype IncLogLevel = Error | Warn | Info | Debug | Trace

  /** The `Display` form of a level: its name. */
  function Display(level: IncLogLevel): string {
    match level
    case Error => "Error"
    case Warn => "Warn"
    case Info => "Info"
    case Debug => "Debug"
    case Trace => "Trace"
  }

  /** `from_str`: a level's name gives that level; any other text gives Trace (it never
      fails). */
  function FromStr(s: string): (r: IncLogLevel)
    ensures (forall l :: Display(l) != s) ==> r == Trace
    ensures (exists l :: Display(l) == s) ==> Display(r) == s
  {
    if s == "Error" then assert Display(Error) == s; Error
    else if s == "Warn" then assert Display(Warn) == s; Warn
    else if s == "Info" then assert Display(Info) == s; Info
    else if s == "Debug" then assert Display(Debug) == s; Debug
    else Trace
  }

  /** Reading back the text of a level gives the level. */
  lemma FromStrDisplay(level: IncLogLevel)
    ensures FromStr(Display(level)) == level
  {
  }

  /** Position of a level, least to most verbose: `Error` is 0 and `Trace` is 4. */
  function Rank(level: IncLogLevel): nat {
    match level
    case Error => 0
    case Warn => 1
    case Info => 2
    case Debug => 3
    case Trace => 4
  }

  /** `log_level`: no verbosity is Warn, 1 is Info, 2 is Debug and more is Trace; a
      count never selects Error. */
  function LogLevel(numberOfVerbose: nat): (r: IncLogLevel)
    ensures r != Error
    ensures numberOfVerbose <= 3 ==> Rank(r) == numberOfVerbose + 1
    ensures numberOfVerbose >= 3 ==> r == Trace
  {
    match numberOfVerbose
    case 0 => Warn
    case 1 => Info
    case 2 => Debug
    case _ => Trace
  }

  /** `From<IncLogLevel> for LogLevelFilter`: the filter of the same name, so the order of
      levels is kept and `Off` is never selected. */
  function ToFilter(level: IncLogLevel): (r: CoreLogging.LogLevelFilter)
    ensures CoreLogging.FilterRank(r) == Rank(level) + 1
  {
    match level
    case Error => CoreLogging.Error
    case Warn => CoreLogging.Warn
    case Info => CoreLogging.Info
    case Debug => CoreLogging.Debug
    case Trace => CoreLogging.Trace
  }

  /** The level `parse_from_args` chooses: the inherited level when the variable is set,
      the count of verbosity flags otherwise. */
  function ArgsLevel(args: seq<string>, env: map<string, string>): IncLogLevel {
    if LogLevelDefinition in env then FromStr(env[LogLevelDefinition]) else LogLevel(Verbosity(args))
  }

  /** `parse_from_args`. */
  method ParseFromArgs(args: seq<string>, env: map<string, string>) returns (level: IncLogLevel)
    ensures level == ArgsLevel(args, env)
  {
    if LogLevelDefinition in env {
      return FromStr(env[LogLevelDefinition]);
    }
    var verboseLevel := ParseVerbosity(args);
    level := LogLevel(verboseLevel);
  }

  /** With no flags and nothing inherited, the level is Info. */
  lemma DefaultIsInfo(args: seq<string>, env: map<string, string>)
    requires LogLevelDefinition !in env
    requires |args| <= 1 || !RustStr.StartsWith(args[1], "-")
    ensures ArgsLevel(args, env) == Info
  {
    NoFlagsLevelOne(args);
  }

  /** The level `parse_log_level` reads when none is given: the inherited one, or Trace. */
  function EnvLevel(env: map<string, string>): IncLogLevel {
    FromStr(if LogLevelDefinition in env then env[LogLevelDefinition] else "Trace")
  }

  /** `parse_log_level`: a given level is used and published to the environment; without
      one, the environment decides. */
  method ParseLogLevel(loggingLevel: Option<IncLogLevel>, env: map<string, string>)
    returns (level: IncLogLevel, newEnv: map<string, string>)
    ensures loggingLevel.Some? ==> level == loggingLevel.value
                                    && newEnv == env[LogLevelDefinition := Display(level)]
    ensures loggingLevel.None? ==> level == EnvLevel(env) && newEnv == env
  {
    if loggingLevel.Some? {
      level := loggingLevel.value;
      newEnv := env[LogLevelDefinition := Display(level)];
      return;
    }
    newEnv := env;
    var text := if LogLevelDefinition in env then env[LogLevelDefinition] else "Trace";
    level := FromStr(text);
  }

  /** A level published by `parse_log_level` is the one every later reading finds: the
      command-line parse ignores its flags, and `parse_log_level` without a level reads it
      back. */
  lemma PublishedLevelInherited(level: IncLogLevel, env: map<string, string>, args: seq<string>)
    ensures var published := env[LogLevelDefinition := Display(level)];
            ArgsLevel(args, published) == level && EnvLevel(published) == level
  {
    FromStrDisplay(level);
  }
}
