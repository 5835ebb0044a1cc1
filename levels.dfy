/** The `log` crate's `Level` and `LevelFilter`, with the order they compare by: `Off` is
    below every level, and `Error < Warn < Info < Debug < Trace`. */
module Levels {
  datatype Level = Error | Warn | Info | Debug | Trace

  datatype LevelFilter = Off | ErrorFilter | WarnFilter | InfoFilter | DebugFilter | TraceFilter

  /** The crate's numeric discriminant of a level (1 for `Error` … 5 for `Trace`). */
  function Rank(l: Level): (n: nat)
    ensures 1 <= n <= 5
  {
    match l
    case Error => 1
    case Warn => 2
    case Info => 3
    case Debug => 4
    case Trace => 5
  }

  function FilterRank(f: LevelFilter): (n: nat)
    ensures n <= 5
    ensures n == 0 <==> f == Off
  {
    match f
    case Off => 0
    case ErrorFilter => 1
    case WarnFilter => 2
    case InfoFilter => 3
    case DebugFilter => 4
    case TraceFilter => 5
  }

  /** The filter that lets exactly the levels up to `l` through. */
  function ToFilter(l: Level): (f: LevelFilter)
    ensures FilterRank(f) == Rank(l)
  {
    match l
    case Error => ErrorFilter
    case Warn => WarnFilter
    case Info => InfoFilter
    case Debug => DebugFilter
    case Trace => TraceFilter
  }

  /** `level <= filter`, the comparison `Log::enabled` uses. */
  predicate LevelLe(l: Level, f: LevelFilter) {
    Rank(l) <= FilterRank(f)
  }

  /** The ranks tell levels and filters apart. */
  lemma RankInjective(a: Level, b: Level)
    requires Rank(a) == Rank(b)
    ensures a == b
  {
  }

  /** Distinct filters have distinct ranks, and `Off` is the one filter of rank 0. */
  lemma FilterRankInjective(f: LevelFilter, g: LevelFilter)
    requires FilterRank(f) == FilterRank(g)
    ensures f == g
    ensures FilterRank(f) == 0 <==> f == Off
  {
  }

  /** `Off` lets nothing through, `Trace` everything, and a filter lets a level through
      exactly when it lets the level's own filter through. */
  lemma LevelLeBounds(l: Level, f: LevelFilter)
    ensures !LevelLe(l, Off)
    ensures LevelLe(l, TraceFilter)
    ensures LevelLe(l, f) <==> FilterRank(ToFilter(l)) <= FilterRank(f)
  {
  }
}
