/** The runner of the newer code (src/run.rs): `denv hook <shell>` prints the shell's hook
    script, in which the command line denv was started with (the program and its options) is
    substituted for the load and unload commands.

    The process arguments and the two hook templates are constructor parameters: the
    templates' text is not part of this model. A template is literal text and the three
    placeholders; the substitution lemmas hold when no literal holds a `<` and the command
    line holds none either. Outside that case the three `replace` calls can act on text an
    earlier call inserted, which `InsertedPlaceholderReplacedAgain` shows. */
module Run {
  import opened Results
  import opened Text
  import opened Cli
  import opened Seqs

  const DenvCwdVarName: string := "DENV_CWD"

  const CwdPlaceholder: string := "<denv_cwd_var_name>"
  const LoadPlaceholder: string := "<load_cmd>"
  const UnloadPlaceholder: string := "<unload_cmd>"

  /** The runner's error; an I/O error is represented by its text, which is how it displays. */
  datatype Error = Io(message: string)

  function ErrorMessage(e: Error): (text: string)
    ensures text == e.message
  {
    e.message
  }

  /** `filter(|arg| arg.starts_with('-'))`: the options, in order. */
  function Options(args: seq<string>): (opts: seq<string>)
    ensures |opts| <= |args|
    ensures forall k :: 0 <= k < |opts| ==> StartsWith(opts[k], "-")
    ensures forall k :: 0 <= k < |args| && StartsWith(args[k], "-") ==> args[k] in opts
    ensures forall o :: o in opts ==> o in args
  {
    if args == [] then []
    else (if StartsWith(args[0], "-") then [args[0]] else []) + Options(args[1..])
  }

  /** The filter keeps each argument on its own merits: a single argument is kept iff it
      starts with `-`, and the options of a concatenation are those of each part, in order.
      Together these fix order and multiplicity. */
  lemma OptionsSingle(arg: string)
    ensures Options([arg]) == (if StartsWith(arg, "-") then [arg] else [])
  {
    assert [arg][1..] == [];
  }

  lemma {:induction false} OptionsConcat(a: seq<string>, b: seq<string>)
    ensures Options(a + b) == Options(a) + Options(b)
  {
    if a == [] {
      assert a + b == b;
    } else {
      assert (a + b)[0] == a[0];
      assert (a + b)[1..] == a[1..] + b;
      OptionsConcat(a[1..], b);
    }
  }

  /** `reduce(|cli, arg| format!(" {} {}", cli, arg))` over a non-empty sequence. */
  function FoldOptions(opts: seq<string>): string
    requires opts != []
    decreases |opts|
  {
    if |opts| == 1 then opts[0]
    else " " + FoldOptions(opts[..|opts| - 1]) + " " + opts[|opts| - 1]
  }

  /** The rebuilt command line, as the code computes it: the program followed by the fold
      of the options (nothing when there are none). */
  function CommandLine(args: seq<string>): string
    requires args != []
  {
    var opts := Options(args[1..]);
    args[0] + (if opts == [] then "" else FoldOptions(opts))
  }

  /** The command line with every option after a single space, as the hook's tests expect. */
  function SpacedCommandLine(args: seq<string>): string
    requires args != []
  {
    JoinWith([args[0]] + Options(args[1..]), " ")
  }

  /** The hook script: the three placeholders replaced one after the other. */
  function HookStatement(template: string, cli: string): string {
    var withCwd := ReplaceAll(template, CwdPlaceholder, DenvCwdVarName);
    var withLoad := ReplaceAll(withCwd, LoadPlaceholder, cli);
    ReplaceAll(withLoad, UnloadPlaceholder, cli + " unload")
  }

  /** `Runner<W>`: the process arguments, the hook templates and the output writer. */
  class Runner {
    const args: seq<string>
    const bashTemplate: string
    const zshTemplate: string
    /** The I/O error every write fails with, if the writer fails. */
    const writeFailure: Option<string>
    var out: string

    constructor (args: seq<string>, bashTemplate: string, zshTemplate: string, writeFailure: Option<string>)
      ensures this.args == args && this.bashTemplate == bashTemplate && this.zshTemplate == zshTemplate
      ensures this.writeFailure == writeFailure && out == []
    {
      this.args := args;
      this.bashTemplate := bashTemplate;
      this.zshTemplate := zshTemplate;
      this.writeFailure := writeFailure;
      out := [];
    }

    function Template(shell: Shell): string {
      match shell
      case Bash => bashTemplate
      case Zsh => zshTemplate
    }

    /** `Runner::run`: only the hook command is handled. */
    method Run(cmd: Command) returns (r: Result<(), Error>)
      requires cmd.Hook?
      requires args != []
      modifies this
      ensures writeFailure.Some? ==> r == Failure(Io(writeFailure.value)) && out == old(out)
      ensures writeFailure.None? ==> r.Success? && out == old(out) + HookStatement(Template(cmd.shell), CommandLine(args))
    {
      r := RunHook(cmd.shell);
    }

    /** `Runner::run_hook`: rebuilds the command line, fills the shell's template and writes
        it; a failing write is reported as `Error::Io`. */
    method RunHook(shell: Shell) returns (r: Result<(), Error>)
      requires args != []
      modifies this
      ensures writeFailure.Some? ==> r == Failure(Io(writeFailure.value)) && out == old(out)
      ensures writeFailure.None? ==> r.Success? && out == old(out) + HookStatement(Template(shell), CommandLine(args))
    {
      var program := args[0];
      var opts := Options(args[1..]);
      var cli := program + (if opts == [] then "" else FoldOptions(opts));
      var statement := HookStatement(Template(shell), cli);
      if writeFailure.Some? {
        r := Failure(Io(writeFailure.value));
      } else {
        out := out + statement;
        r := Success(());
      }
    }
  }

  // ---- the rebuilt command line ----

  /** Without options the command line is the program alone. */
  lemma CommandLineWithoutOptions(args: seq<string>)
    requires args != []
    requires forall k :: 1 <= k < |args| ==> !StartsWith(args[k], "-")
    ensures CommandLine(args) == args[0]
  {
    forall o | o in args[1..] ensures !StartsWith(o, "-") {
      var k :| 0 <= k < |args[1..]| && args[1..][k] == o;
      assert o == args[k + 1];
    }
  }

  /** With exactly two options the command line is `program opt1 opt2`. */
  lemma CommandLineWithTwoOptions(args: seq<string>)
    requires args != [] && |Options(args[1..])| == 2
    ensures CommandLine(args) == args[0] + " " + Options(args[1..])[0] + " " + Options(args[1..])[1]
  {
    var opts := Options(args[1..]);
    assert opts[..1] == [opts[0]];
    assert FoldOptions(opts) == " " + FoldOptions([opts[0]]) + " " + opts[1];
  }

  function OptionsLength(opts: seq<string>): nat {
    if opts == [] then 0 else OptionsLength(opts[..|opts| - 1]) + |opts[|opts| - 1]|
  }

  /** The fold puts two spaces per option after the first. */
  lemma {:induction false} FoldOptionsLength(opts: seq<string>)
    requires opts != []
    ensures |FoldOptions(opts)| == OptionsLength(opts) + 2 * (|opts| - 1)
    decreases |opts|
  {
    if |opts| > 1 {
      FoldOptionsLength(opts[..|opts| - 1]);
      assert opts[..1] == [opts[0]];
    } else {
      assert opts[..0] == [];
    }
  }

  lemma {:induction false} OptionsLengthIsTotal(opts: seq<string>)
    ensures OptionsLength(opts) == TotalLength(opts)
    decreases |opts|
  {
    if opts != [] {
      OptionsLengthIsTotal(opts[..|opts| - 1]);
      TotalLengthSnoc(opts[..|opts| - 1], opts[|opts| - 1]);
      assert opts[..|opts| - 1] + [opts[|opts| - 1]] == opts;
    }
  }

  lemma {:induction false} TotalLengthSnoc(parts: seq<string>, last: string)
    ensures TotalLength(parts + [last]) == TotalLength(parts) + |last|
  {
    if parts != [] {
      assert (parts + [last])[1..] == parts[1..] + [last];
      TotalLengthSnoc(parts[1..], last);
    }
  }

  /** The code's command line is the spaced one exactly when there are no options or
      exactly two of them: one option is glued to the program, three or more get extra
      spaces. */
  lemma CommandLineAgreesIff(args: seq<string>)
    requires args != []
    ensures CommandLine(args) == SpacedCommandLine(args) <==> |Options(args[1..])| in {0, 2}
  {
    var opts := Options(args[1..]);
    if opts == [] {
      assert [args[0]] + opts == [args[0]];
    } else if |opts| == 2 {
      TwoOptionsSpaced(args);
    } else {
      OtherCountsDiffer(args);
    }
  }

  /** With two options both renderings are `program opt1 opt2`. */
  lemma TwoOptionsSpaced(args: seq<string>)
    requires args != [] && |Options(args[1..])| == 2
    ensures CommandLine(args) == SpacedCommandLine(args)
  {
    var opts := Options(args[1..]);
    var parts := [args[0]] + opts;
    CommandLineWithTwoOptions(args);
    assert parts[1..] == opts && opts[1..] == [opts[1]];
    assert JoinWith(opts, " ") == opts[0] + " " + opts[1];
    assert JoinWith(parts, " ") == args[0] + " " + JoinWith(opts, " ");
    Associative(args[0] + " ", opts[0], " ");
    Associative(args[0] + " ", opts[0] + " ", opts[1]);
  }

  /** With one option, or three and more, the two renderings differ in length. */
  lemma OtherCountsDiffer(args: seq<string>)
    requires args != [] && |Options(args[1..])| !in {0, 2}
    ensures |CommandLine(args)| != |SpacedCommandLine(args)|
  {
    var opts := Options(args[1..]);
    var parts := [args[0]] + opts;
    JoinWithLength(parts, " ");
    assert TotalLength(parts) == |args[0]| + TotalLength(opts) by {
      assert parts[1..] == opts;
    }
    FoldOptionsLength(opts);
    OptionsLengthIsTotal(opts);
  }

  /** With one option, `denv -v hook bash` is rebuilt as `denv-v`. */
  lemma OneOptionIsGlued()
    ensures CommandLine(["denv", "-v", "hook", "bash"]) == "denv-v"
  {
    assert Options(["-v", "hook", "bash"]) == ["-v"] by {
      assert StartsWith("-v", "-");
      assert "hook"[..1] == "h" && "bash"[..1] == "b";
      assert ["-v", "hook", "bash"][1..] == ["hook", "bash"];
      assert ["hook", "bash"][1..] == ["bash"];
      assert ["bash"][1..] == [];
    }
  }

  /** The spaced command line splits back into the program and its options, in order, when
      none of them holds a space. */
  lemma SpacedCommandLineSplits(args: seq<string>)
    requires args != []
    requires forall k :: 0 <= k < |args| ==> ' ' !in args[k]
    ensures Split(SpacedCommandLine(args), ' ') == [args[0]] + Options(args[1..])
  {
    var parts := [args[0]] + Options(args[1..]);
    forall k | 0 <= k < |parts| ensures ' ' !in parts[k] {
      if k > 0 {
        assert parts[k] in Options(args[1..]);
        assert parts[k] in args[1..];
      }
    }
    SplitJoin(parts, ' ');
  }

  // ---- the template substitution ----

  /** A hook template seen as literal text and placeholders. */
  datatype Piece = Literal(text: string) | CwdVar | LoadCmd | UnloadCmd

  function Placeholder(p: Piece): string
    requires !p.Literal?
  {
    match p
    case CwdVar => CwdPlaceholder
    case LoadCmd => LoadPlaceholder
    case UnloadCmd => UnloadPlaceholder
  }

  function PieceText(p: Piece): string {
    if p.Literal? then p.text else Placeholder(p)
  }

  function Render(pieces: seq<Piece>): string {
    if pieces == [] then [] else PieceText(pieces[0]) + Render(pieces[1..])
  }

  /** The pieces with one kind of placeholder turned into literal text. */
  function Substitute(pieces: seq<Piece>, hole: Piece, rep: string): (r: seq<Piece>)
    requires !hole.Literal?
    ensures |r| == |pieces|
    ensures forall k :: 0 <= k < |r| ==> r[k] == (if pieces[k] == hole then Literal(rep) else pieces[k])
  {
    if pieces == [] then []
    else
      var rest := Substitute(pieces[1..], hole, rep);
      assert forall k :: 1 <= k < |pieces| ==> pieces[1..][k - 1] == pieces[k];
      [if pieces[0] == hole then Literal(rep) else pieces[0]] + rest
  }

  /** What the hook script should read: every placeholder replaced by its value. */
  function Filled(pieces: seq<Piece>, cli: string): string {
    if pieces == [] then []
    else
      var head := match pieces[0]
        case Literal(text) => text
        case CwdVar => DenvCwdVarName
        case LoadCmd => cli
        case UnloadCmd => cli + " unload";
      head + Filled(pieces[1..], cli)
  }

  predicate AngleFree(s: string) {
    '<' !in s
  }

  predicate LiteralsAngleFree(pieces: seq<Piece>) {
    forall k :: 0 <= k < |pieces| ==> pieces[k].Literal? ==> AngleFree(pieces[k].text)
  }

  /** No occurrence of a placeholder starts inside the text of a different piece. */
  lemma NoOccurrenceInside(p: Piece, rest: string, hole: Piece)
    requires !hole.Literal? && p != hole
    requires p.Literal? ==> AngleFree(p.text)
    ensures forall i :: 0 <= i < |PieceText(p)| ==> !StartsWith((PieceText(p) + rest)[i..], Placeholder(hole))
  {
    var head := PieceText(p);
    var pat := Placeholder(hole);
    forall i | 0 <= i < |head| ensures !StartsWith((head + rest)[i..], pat) {
      assert (head + rest)[i..][0] == head[i];
      if i == 0 && !p.Literal? {
        assert (head + rest)[i..][1] == head[1];
      }
    }
  }

  lemma {:induction false} SubstituteAngleFree(pieces: seq<Piece>, hole: Piece, rep: string)
    requires !hole.Literal? && LiteralsAngleFree(pieces) && AngleFree(rep)
    ensures LiteralsAngleFree(Substitute(pieces, hole, rep))
  {
    if pieces != [] {
      assert LiteralsAngleFree(pieces[1..]) by {
        forall k | 0 <= k < |pieces[1..]| ensures pieces[1..][k].Literal? ==> AngleFree(pieces[1..][k].text) {
          assert pieces[1..][k] == pieces[k + 1];
        }
      }
      SubstituteAngleFree(pieces[1..], hole, rep);
      var sub := Substitute(pieces, hole, rep);
      forall k | 0 <= k < |sub| ensures sub[k].Literal? ==> AngleFree(sub[k].text) {
        if k > 0 {
          assert sub[k] == Substitute(pieces[1..], hole, rep)[k - 1];
        }
      }
    }
  }

  /** `replace` of one placeholder turns exactly that placeholder's occurrences into the
      replacement, when no literal text holds a `<`. */
  lemma {:induction false} ReplacePlaceholder(pieces: seq<Piece>, hole: Piece, rep: string)
    requires !hole.Literal? && LiteralsAngleFree(pieces)
    ensures ReplaceAll(Render(pieces), Placeholder(hole), rep) == Render(Substitute(pieces, hole, rep))
  {
    var pat := Placeholder(hole);
    if pieces != [] {
      var head := PieceText(pieces[0]);
      var rest := Render(pieces[1..]);
      assert LiteralsAngleFree(pieces[1..]) by {
        forall k | 0 <= k < |pieces[1..]| ensures pieces[1..][k].Literal? ==> AngleFree(pieces[1..][k].text) {
          assert pieces[1..][k] == pieces[k + 1];
        }
      }
      ReplacePlaceholder(pieces[1..], hole, rep);
      if pieces[0] == hole {
        assert (head + rest)[..|pat|] == pat;
        assert (head + rest)[|pat|..] == rest;
      } else {
        NoOccurrenceInside(pieces[0], rest, hole);
        ReplaceConcat(head, rest, pat, rep);
      }
    }
  }

  lemma {:induction false} RenderLiterals(pieces: seq<Piece>, cli: string)
    ensures Render(Substitute(Substitute(Substitute(pieces, CwdVar, DenvCwdVarName), LoadCmd, cli), UnloadCmd, cli + " unload"))
      == Filled(pieces, cli)
  {
    if pieces != [] {
      RenderLiterals(pieces[1..], cli);
    }
  }

  /** The hook script is the template with every placeholder, wherever and however often it
      occurs, replaced by its value: `DENV_CWD`, the command line, and the command line
      followed by ` unload`. */
  lemma HookFillsTemplate(pieces: seq<Piece>, cli: string)
    requires LiteralsAngleFree(pieces) && AngleFree(cli)
    ensures HookStatement(Render(pieces), cli) == Filled(pieces, cli)
  {
    var p1 := Substitute(pieces, CwdVar, DenvCwdVarName);
    ReplacePlaceholder(pieces, CwdVar, DenvCwdVarName);
    SubstituteAngleFree(pieces, CwdVar, DenvCwdVarName);
    var p2 := Substitute(p1, LoadCmd, cli);
    ReplacePlaceholder(p1, LoadCmd, cli);
    SubstituteAngleFree(p1, LoadCmd, cli);
    ReplacePlaceholder(p2, UnloadCmd, cli + " unload");
    RenderLiterals(pieces, cli);
  }

  /** The three `replace` calls run one after the other on the whole text, so a placeholder
      that the command line brings in is replaced by a later call: the load command
      `<unload_cmd>` comes out as `<unload_cmd> unload`, where filling the template's own
      placeholders gives `<unload_cmd>`. */
  lemma InsertedPlaceholderReplacedAgain()
    ensures HookStatement(Render([LoadCmd]), UnloadPlaceholder) == UnloadPlaceholder + " unload"
    ensures Filled([LoadCmd], UnloadPlaceholder) == UnloadPlaceholder
  {
    assert Render([LoadCmd]) == LoadPlaceholder;
    assert ReplaceAll(LoadPlaceholder, CwdPlaceholder, DenvCwdVarName) == LoadPlaceholder;
    var afterLoad := ReplaceAll(LoadPlaceholder, LoadPlaceholder, UnloadPlaceholder);
    assert LoadPlaceholder[|LoadPlaceholder|..] == [];
    assert afterLoad == UnloadPlaceholder;
    assert UnloadPlaceholder[|UnloadPlaceholder|..] == [];
    assert ReplaceAll(UnloadPlaceholder, UnloadPlaceholder, UnloadPlaceholder + " unload") == UnloadPlaceholder + " unload";
  }

  /** A `<` in literal text that does not begin a placeholder is left alone: a shell test
      such as `[ 1 < 2 ] && <load_cmd>` comes out filled. */
  lemma ComparisonInTemplateKept()
    ensures HookStatement(Render([Literal("1<2 "), LoadCmd]), "denv") == Filled([Literal("1<2 "), LoadCmd], "denv")
  {
    var lit := "1<2 ";
    assert Render([Literal(lit), LoadCmd]) == lit + LoadPlaceholder;
    NoPlaceholderInComparison(LoadPlaceholder, CwdVar);
    NoPlaceholderInComparison(LoadPlaceholder, LoadCmd);
    ReplaceConcat(lit, LoadPlaceholder, CwdPlaceholder, DenvCwdVarName);
    assert ReplaceAll(LoadPlaceholder, CwdPlaceholder, DenvCwdVarName) == LoadPlaceholder;
    ReplaceConcat(lit, LoadPlaceholder, LoadPlaceholder, "denv");
    assert LoadPlaceholder[|LoadPlaceholder|..] == [];
    assert ReplaceAll(LoadPlaceholder, LoadPlaceholder, "denv") == "denv";
    NoPlaceholderInComparison("denv", UnloadCmd);
    ReplaceConcat(lit, "denv", UnloadPlaceholder, "denv unload");
    assert ReplaceAll("denv", UnloadPlaceholder, "denv unload") == "denv";
  }

  /** No placeholder begins inside the literal `1<2 `, whatever follows it. */
  lemma NoPlaceholderInComparison(rest: string, hole: Piece)
    requires !hole.Literal?
    ensures forall i :: 0 <= i < 4 ==> !StartsWith(("1<2 " + rest)[i..], Placeholder(hole))
  {
    var lit := "1<2 ";
    forall i | 0 <= i < 4 ensures !StartsWith((lit + rest)[i..], Placeholder(hole)) {
      assert (lit + rest)[i..][0] == lit[i];
      if i == 1 {
        assert (lit + rest)[i..][1] == '2';
      }
    }
  }
}
