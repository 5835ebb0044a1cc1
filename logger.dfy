/** The logger of the `denv` binary crate (denv/src/logger.rs). It has the same colours and
    line format as the logger of src/log.rs, which `Format.Line` defines; it differs in that
    `Logger::new` receives the writer, so the output may already hold text. */
module DenvLogger {
  import opened Levels
  import Format = Log

  class Logger {
    const lvl: LevelFilter
    const withColor: bool
    const appName: string
    var out: string

    /** `Logger::new(lvl, with_color, out)` */
    constructor (lvl: LevelFilter, withColor: bool, appName: string, out: string)
      ensures this.lvl == lvl && this.withColor == withColor && this.appName == appName
      ensures this.out == out
    {
      this.lvl := lvl;
      this.withColor := withColor;
      this.appName := appName;
      this.out := out;
    }

    /** `Log::enabled` */
    predicate Enabled(l: Level) {
      LevelLe(l, lvl)
    }

    /** `Log::log`: appends one line, formatted as src/log.rs formats it. */
    method Log(l: Level, msg: string)
      modifies this
      ensures out == old(out) + Format.Line(appName, withColor, l, msg)
    {
      var log := Format.Prefix(appName) + msg;
      if withColor {
        log := Format.Color(l) + log + [Format.Esc];
      }
      out := out + log + "\n";
    }
  }

  /** The text written by successive `log` calls for a sequence of records. */
  function Lines(app: string, withColor: bool, records: seq<(Level, string)>): string {
    if records == [] then []
    else
      var last := records[|records| - 1];
      Lines(app, withColor, records[..|records| - 1]) + Format.Line(app, withColor, last.0, last.1)
  }

  lemma LinesSnoc(app: string, withColor: bool, records: seq<(Level, string)>, r: (Level, string))
    ensures Lines(app, withColor, records + [r]) == Lines(app, withColor, records) + Format.Line(app, withColor, r.0, r.1)
  {
    assert (records + [r])[..|records|] == records;
  }

  /** Both loggers enable the same records for the same level. */
  lemma SameFilter(a: Logger, b: Format.Logger, l: Level)
    requires a.lvl == b.level
    ensures a.Enabled(l) == b.Enabled(l)
  {
  }

  /** A sequence of uncoloured records of messages without newlines is written as those
      messages, each after the `[<app>] ` prefix, one per line: the line count is the record
      count. */
  lemma {:induction false} LinesCount(app: string, records: seq<(Level, string)>)
    requires '\n' !in app
    requires forall k :: 0 <= k < |records| ==> '\n' !in records[k].1
    ensures multiset(Lines(app, false, records))['\n'] == |records|
  {
    if records != [] {
      var init := records[..|records| - 1];
      var last := records[|records| - 1];
      LinesCount(app, init);
      Format.LineHasOneNewline(app, false, last.0, last.1);
      var line := Format.Line(app, false, last.0, last.1);
      assert line == line[..|line| - 1] + ['\n'];
      assert multiset(line[..|line| - 1])['\n'] == 0;
    }
  }
}
