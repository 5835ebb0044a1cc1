/** The logger of the newer code (src/log.rs): every record becomes one line
    `[<app>] <message>` on the output, wrapped in the level's ANSI colour when colours are on.

    The output is the text written so far; the application name (`CARGO_PKG_NAME`) is a
    constructor parameter. */
module Log {
  import opened Results
  import opened Levels
  import opened Text

  const Esc: char := '\U{1b}'
  const DebugColor: string := "\U{1b}[0;34m"
  const ErrorColor: string := "\U{1b}[0;31m"
  const InfoColor: string := "\U{1b}[0;32m"
  const TraceColor: string := "\U{1b}[0;30m"
  const WarnColor: string := "\U{1b}[0;33m"

  function Color(l: Level): (c: string)
    ensures |c| == 7 && c[0] == Esc
  {
    match l
    case Trace => TraceColor
    case Debug => DebugColor
    case Info => InfoColor
    case Warn => WarnColor
    case Error => ErrorColor
  }

  /** The level a colour prefix stands for. */
  function ColorLevel(c: string): (l: Option<Level>)
    ensures l.Some? ==> Color(l.value) == c
  {
    if c == TraceColor then Some(Trace)
    else if c == DebugColor then Some(Debug)
    else if c == InfoColor then Some(Info)
    else if c == WarnColor then Some(Warn)
    else if c == ErrorColor then Some(Error)
    else None
  }

  /** Each level has its own colour. */
  lemma ColorLevelInverse(l: Level)
    ensures ColorLevel(Color(l)) == Some(l)
  {
  }

  function Prefix(app: string): string {
    "[" + app + "] "
  }

  /** What one call of `log` writes: the formatted record and `writeln!`'s newline. */
  function Line(app: string, withColor: bool, l: Level, msg: string): string {
    var plain := Prefix(app) + msg;
    (if withColor then Color(l) + plain + [Esc] else plain) + "\n"
  }

  /** A line read back: the level when it was coloured, and the message. */
  datatype Parsed = Parsed(level: Option<Level>, msg: string)

  /** Reads a line written by `Line` back into its level (when coloured) and message. */
  function ParseLine(app: string, line: string): Option<Parsed> {
    if |line| < 1 || line[|line| - 1] != '\n' then None
    else
      var body := line[..|line| - 1];
      if |body| >= 7 && body[0] == Esc then
        var level := ColorLevel(body[..7]);
        if level.None? || body[|body| - 1] != Esc then None
        else
          var plain := body[7..|body| - 1];
          if StartsWith(plain, Prefix(app)) then Some(Parsed(level, plain[|Prefix(app)|..])) else None
      else if StartsWith(body, Prefix(app)) then Some(Parsed(None, body[|Prefix(app)|..]))
      else None
  }

  /** Every written line can be read back: its message, and its level when coloured. */
  lemma ParseLineRoundTrip(app: string, withColor: bool, l: Level, msg: string)
    ensures ParseLine(app, Line(app, withColor, l, msg)) == Some(Parsed(if withColor then Some(l) else None, msg))
  {
    var line := Line(app, withColor, l, msg);
    var plain := Prefix(app) + msg;
    var body := line[..|line| - 1];
    assert plain[..|Prefix(app)|] == Prefix(app);
    assert plain[|Prefix(app)|..] == msg;
    if withColor {
      assert body == Color(l) + plain + [Esc];
      assert body[..7] == Color(l);
      ColorLevelInverse(l);
      assert body[7..|body| - 1] == plain;
    } else {
      assert body == plain;
      assert body[0] == '[';
    }
  }

  /** A line ends with its only newline when neither the application name nor the message
      holds one. */
  lemma LineHasOneNewline(app: string, withColor: bool, l: Level, msg: string)
    requires '\n' !in app && '\n' !in msg
    ensures var line := Line(app, withColor, l, msg);
      line[|line| - 1] == '\n' && '\n' !in line[..|line| - 1]
  {
    var line := Line(app, withColor, l, msg);
    var plain := Prefix(app) + msg;
    assert '\n' !in plain;
    if withColor {
      assert line[..|line| - 1] == Color(l) + plain + [Esc];
      assert '\n' !in Color(l);
    } else {
      assert line[..|line| - 1] == plain;
    }
  }

  /** `Logger<W>`: the maximum level, the colour switch and the output written so far. */
  class Logger {
    const level: LevelFilter
    const withColor: bool
    const appName: string
    var out: string

    constructor (level: LevelFilter, withColor: bool, appName: string)
      ensures this.level == level && this.withColor == withColor && this.appName == appName
      ensures out == []
    {
      this.level := level;
      this.withColor := withColor;
      this.appName := appName;
      out := [];
    }

    /** `Log::enabled`: the record's level is at most the logger's. */
    predicate Enabled(l: Level) {
      LevelLe(l, level)
    }

    /** `Log::log`: appends one line to the output. */
    method Log(l: Level, msg: string)
      modifies this
      ensures out == old(out) + Line(appName, withColor, l, msg)
    {
      var log := Prefix(appName) + msg;
      if withColor {
        log := Color(l) + log + [Esc];
      }
      out := out + log + "\n";
    }
  }

  /** A logger lets a record through exactly when its level is at most the logger's: a
      logger at `Error` drops a warning and one at `Warn` keeps an error. */
  lemma EnabledIff(logger: Logger, l: Level)
    ensures logger.Enabled(l) <==> logger.level != Off && Rank(l) <= FilterRank(logger.level)
    ensures logger.level == ErrorFilter ==> (logger.Enabled(l) <==> l == Error)
  {
  }
}
