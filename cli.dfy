/** The command line of the newer code (src/cli.rs): its subcommands, and the verbosity
    options with the log level they select. */
module Cli {
  import opened Levels

  datatype Shell = Bash | Zsh

  datatype Command = Hook(shell: Shell) | Load | Unload

  newtype u8 = x: int | 0 <= x < 256

  /** `-v` given `count` times, or `-q`. */
  datatype Verbosity = Verbosity(count: u8, quiet: bool)

  /** `Verbosity::default()`: one `-v`, not quiet. */
  const DefaultVerbosity: Verbosity := Verbosity(1, false)

  function Min(a: int, b: int): int {
    if a <= b then a else b
  }

  /** `Verbosity::to_log_level`: `-q` turns logging off; otherwise each `-v` lets one more
      level through, from errors only up to everything at four or more. */
  function ToLogLevel(v: Verbosity): (f: LevelFilter)
    ensures f == Off <==> v.quiet
    ensures !v.quiet ==> FilterRank(f) == Min(v.count as int, 4) + 1
  {
    if v.quiet then Off
    else
      match v.count
      case 0 => ErrorFilter
      case 1 => WarnFilter
      case 2 => InfoFilter
      case 3 => DebugFilter
      case _ => TraceFilter
  }

  /** The default verbosity logs warnings and errors. */
  lemma DefaultIsWarn()
    ensures ToLogLevel(DefaultVerbosity) == WarnFilter
  {
    FilterRankInjective(ToLogLevel(DefaultVerbosity), WarnFilter);
  }

  /** More `-v` never hides a level. */
  lemma MoreVerboseShowsMore(v: Verbosity, w: Verbosity)
    requires !v.quiet && !w.quiet && v.count <= w.count
    ensures FilterRank(ToLogLevel(v)) <= FilterRank(ToLogLevel(w))
  {
  }

  /** A level is logged under a verbosity exactly when the logger is not quiet and enough
      `-v` were given: none for errors, one for warnings, up to four for traces. */
  lemma VerbosityEnables(v: Verbosity, l: Level)
    ensures LevelLe(l, ToLogLevel(v)) <==> !v.quiet && Rank(l) <= v.count as int + 1
  {
  }

  /** Every filter can be selected from the command line. */
  lemma EveryFilterReachable(f: LevelFilter)
    ensures exists v :: ToLogLevel(v) == f
  {
    if f == Off {
      assert ToLogLevel(Verbosity(0, true)) == f;
    } else {
      var v := Verbosity((FilterRank(f) - 1) as u8, false);
      FilterRankInjective(ToLogLevel(v), f);
    }
  }
}
