/**
 * The level computation of the core library's `configure_logging`: the `quiet`, `warn`
 * and `verbose` options of the command line become a level filter of the `log` crate.
 */
module CoreLogging {

  /** The `log` crate's level filters, least to most verbose. */
  datatype LogLevelFilter = Off | Error | Warn | Info | Debug | Trace

  /** Position of a filter in the crate's order: `Off` is 0 and `Trace` is 5. */
  function FilterRank(f: LogLevelFilter): nat {
    match f
    case Off => 0
    case Error => 1
    case Warn => 2
    case Info => 3
    case Debug => 4
    case Trace => 5
  }

  /** `log_level`: 0 to 3 select Error, Warn, Info and Debug in turn; every other number,
      negative ones included, selects Trace. */
  function LogLevel(numberOfVerbose: int): (r: LogLevelFilter)
    ensures 0 <= numberOfVerbose <= 3 ==> FilterRank(r) == numberOfVerbose + 1
    ensures !(0 <= numberOfVerbose <= 3) ==> r == Trace
  {
    match numberOfVerbose
    case 0 => Error
    case 1 => Warn
    case 2 => Info
    case 3 => Debug
    case _ => Trace
  }

  /** The number `configure_logging` passes to `log_level`. */
  function LevelNumber(verbose: int, warn: bool, quiet: bool): int {
    if quiet then 0 else if warn then 1 else verbose + 2
  }

  /** The filter `configure_logging` installs. */
  function ConfiguredFilter(verbose: int, warn: bool, quiet: bool): (r: LogLevelFilter)
    ensures quiet ==> r == Error
    ensures !quiet && warn ==> r == Warn
    ensures !quiet && !warn && verbose == 0 ==> r == Info
    ensures r != Off
  {
    LogLevel(LevelNumber(verbose, warn, quiet))
  }

  /** More `verbose` never makes the installed filter less verbose. */
  lemma {:induction false} MoreVerboseNeverQuieter(v1: int, v2: int, warn: bool, quiet: bool)
    requires 0 <= v1 <= v2
    ensures FilterRank(ConfiguredFilter(v1, warn, quiet)) <= FilterRank(ConfiguredFilter(v2, warn, quiet))
  {
    if !quiet && !warn {
      assert LevelNumber(v1, warn, quiet) == v1 + 2 && LevelNumber(v2, warn, quiet) == v2 + 2;
      if v2 + 2 > 3 {
        assert ConfiguredFilter(v2, warn, quiet) == Trace;
      }
    }
  }

  /** `quiet` decides alone: neither `warn` nor any `verbose` count changes the filter. */
  lemma QuietIgnoresTheRest(v1: int, v2: int, w1: bool, w2: bool)
    ensures ConfiguredFilter(v1, w1, true) == ConfiguredFilter(v2, w2, true) == Error
  {
  }
}
