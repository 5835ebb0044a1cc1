/** The environment variables of the older library (denv_lib/src/var.rs) and the shell
    statement that exports one. */
module LibVar {
  import opened Results
  import opened Text
  import opened Seqs

  /** `Var::new(name, value)`; `name()` and `value()` are the fields. Equality is the derived
      one: same name and same value. */
  datatype Var = Var(name: string, value: string)

  const ExportKeyword: string := "export "

  /** `Var::export_statement`: `export NAME="VALUE"`, the value inserted as it is. */
  function ExportStatement(v: Var): string {
    ExportKeyword + v.name + "=\"" + v.value + "\""
  }

  /** Reads an export statement back: the name runs to the first `=`, the value is what lies
      between the quote after it and the final quote. */
  function ParseExport(s: string): Option<Var> {
    if !StartsWith(s, ExportKeyword) then None
    else
      var rest := s[|ExportKeyword|..];
      if '=' !in rest then None
      else
        var i := IndexOf(rest, '=');
        var quoted := rest[i + 1..];
        if |quoted| < 2 || quoted[0] != '"' || quoted[|quoted| - 1] != '"' then None
        else Some(Var(rest[..i], quoted[1..|quoted| - 1]))
  }

  /** Every variable whose name holds no `=` can be read back from its statement, whatever its
      value holds, quotes included: the value is not escaped. */
  lemma ExportRoundTrip(v: Var)
    requires '=' !in v.name
    ensures ParseExport(ExportStatement(v)) == Some(v)
  {
    var quoted := "\"" + v.value + "\"";
    var rest := v.name + ("=" + quoted);
    ExportShape(v);
    Halves(ExportKeyword, rest);
    assert StartsWith(ExportStatement(v), ExportKeyword);
    assert ExportStatement(v)[|ExportKeyword|..] == rest;
    FirstAfter(v.name, '=', quoted);
    AfterFirst(v.name, '=', quoted);
    assert |quoted| >= 2 && quoted[0] == '"' && quoted[|quoted| - 1] == '"';
    assert quoted[1..|quoted| - 1] == v.value;
  }

  lemma AfterFirst(name: string, c: char, tail: string)
    ensures (name + ([c] + tail))[..|name|] == name && (name + ([c] + tail))[|name| + 1..] == tail
  {
    Halves(name, [c] + tail);
    assert ([c] + tail)[1..] == tail;
  }

  /** A character absent from `name` is first found just after it. */
  lemma FirstAfter(name: string, c: char, tail: string)
    requires c !in name
    ensures c in name + ([c] + tail) && IndexOf(name + ([c] + tail), c) == |name|
  {
    var r := name + ([c] + tail);
    assert r[|name|] == c;
    assert forall k :: 0 <= k < |name| ==> r[k] == name[k];
  }

  /** The statement is the keyword, the name, `=` and the quoted value, in that order. */
  lemma ExportShape(v: Var)
    ensures ExportStatement(v) == ExportKeyword + (v.name + ("=" + ("\"" + v.value + "\"")))
  {
    assert "=\"" == "=" + "\"";
    Associative(ExportKeyword + v.name, "=", "\"");
    Associative(ExportKeyword + v.name, "=" + "\"", v.value);
    Associative(ExportKeyword + v.name, "=" + "\"" + v.value, "\"");
    Associative("=", "\"", v.value);
    Associative("=", "\"" + v.value, "\"");
    Associative(ExportKeyword, v.name, "=" + ("\"" + v.value + "\""));
  }

  /** Whatever reads back as a variable is exactly that variable's statement. */
  lemma ParseExportSound(s: string)
    requires ParseExport(s).Some?
    ensures '=' !in ParseExport(s).value.name
    ensures ExportStatement(ParseExport(s).value) == s
  {
    var rest := s[|ExportKeyword|..];
    var i := IndexOf(rest, '=');
    Reassemble(s, rest, i);
  }

  /** The pieces `ParseExport` cuts a statement into put it back together. */
  lemma Reassemble(s: string, rest: string, i: nat)
    requires StartsWith(s, ExportKeyword) && rest == s[|ExportKeyword|..]
    requires i < |rest| && rest[i] == '='
    requires var quoted := rest[i + 1..]; |quoted| >= 2 && quoted[0] == '"' && quoted[|quoted| - 1] == '"'
    ensures var quoted := rest[i + 1..];
      ExportStatement(Var(rest[..i], quoted[1..|quoted| - 1])) == s
  {
    var quoted := rest[i + 1..];
    var v := Var(rest[..i], quoted[1..|quoted| - 1]);
    Framed(quoted);
    Around(rest, i);
    ExportShape(v);
    assert s == ExportKeyword + rest by {
      assert s == s[..|ExportKeyword|] + s[|ExportKeyword|..];
    }
  }

  /** Two variables with `=`-free names have the same statement only when they are equal. */
  lemma ExportStatementInjective(v: Var, w: Var)
    requires '=' !in v.name && '=' !in w.name
    requires ExportStatement(v) == ExportStatement(w)
    ensures v == w
  {
    ExportRoundTrip(v);
    ExportRoundTrip(w);
  }
}
