/** The errors of the older library (denv_lib/src/error.rs) and the text each one displays,
    among them the listing of supported systems an unsupported OS or architecture shows.

    An `io::Error`, a YAML error, a download error and an unzip error are each represented by
    the text they display; `env::consts::OS` and `ARCH` are parameters. */
module LibError {
  import opened Text
  import opened Paths
  import opened Seqs

  /** For each OS, the architectures supported on it. */
  type SupportedSystems = map<string, set<string>>

  datatype ConfigLoadError =
    | FileReadingFailed(io: string)
    | InvalidYaml(yaml: string)
    | InvalidConfig(messages: seq<string>)

  /** `FileSystemError::new(path, source)`; `path()` and `source()` are the fields. */
  datatype FileSystemError = FileSystemError(path: Path, source: string)

  datatype InstallError =
    | UnsupportedOs(supported: SupportedSystems)
    | UnsupportedArch(supported: SupportedSystems)
    | FileSystemWritingFailed(fsError: FileSystemError)
    | DownloadFailed(download: string)
    | UnzipFailed(zipFilepath: Path, filepath: string, unzip: string)

  datatype EnvironmentLoadError =
    | InstallFailed(installErrs: seq<(string, InstallError)>, symlinkErrs: seq<(string, FileSystemError)>)
    | EnvFileWritingFailed(envFsError: FileSystemError)

  // ---- the supported-systems listing ----

  /** The pairs one OS contributes: the OS with each of the given architectures, in order. */
  function ArchPairs(system: string, archs: seq<string>): (r: seq<(string, string)>)
    ensures |r| == |archs|
    ensures forall k :: 0 <= k < |r| ==> r[k] == (system, archs[k])
  {
    seq(|archs|, k requires 0 <= k < |archs| => (system, archs[k]))
  }

  /** The pairs of the given OSes, each with its architectures in increasing order. */
  function PairsOf(ss: SupportedSystems, systems: seq<string>): seq<(string, string)> {
    if systems == [] then []
    else
      var system := systems[|systems| - 1];
      PairsOf(ss, systems[..|systems| - 1])
        + (if system in ss then ArchPairs(system, Sorted(ss[system])) else [])
  }

  /** Every (OS, architecture) pair of the table, OSes in increasing order. */
  function Pairs(ss: SupportedSystems): seq<(string, string)> {
    PairsOf(ss, Sorted(ss.Keys))
  }

  function PairText(p: (string, string)): string {
    p.0 + " " + p.1
  }

  function Texts(pairs: seq<(string, string)>): (r: seq<string>)
    ensures |r| == |pairs|
    ensures forall k :: 0 <= k < |r| ==> r[k] == PairText(pairs[k])
  {
    seq(|pairs|, k requires 0 <= k < |pairs| => PairText(pairs[k]))
  }

  /** The texts one after the other, each followed by `", "`. */
  function Terminated(texts: seq<string>): string {
    if texts == [] then ""
    else Terminated(texts[..|texts| - 1]) + texts[|texts| - 1] + ", "
  }

  /** What `fmt_supported_systems` promises: the pairs `"os arch"` of the table, separated by
      `", "`, between brackets. */
  function SupportedSystemsText(ss: SupportedSystems): string {
    "[" + JoinWith(Texts(Pairs(ss)), ", ") + "]"
  }

  /** `InstallError::fmt_supported_systems`: sorts the OSes, and for each OS its architectures,
      appends `"os arch, "` for each pair, then drops the final separator. */
  method FmtSupportedSystems(ss: SupportedSystems) returns (r: string)
    ensures r == SupportedSystemsText(ss)
  {
    var s := "";
    var systems := Sorted(ss.Keys);
    for i := 0 to |systems|
      invariant s == Terminated(Texts(PairsOf(ss, systems[..i])))
    {
      var system := systems[i];
      assert system in ss.Keys;
      var archs := Sorted(ss[system]);
      s := AppendArchs(s, PairsOf(ss, systems[..i]), system, archs);
      NextSystem(ss, systems, i);
    }
    assert systems[..|systems|] == systems;
    if s == [] {
      r := "[]";
    } else {
      r := "[" + s[..|s| - 2] + "]";
    }
    Trimmed(ss, s, r);
  }

  /** The inner loop: appends `"os arch, "` for each architecture of one OS, in order. */
  method AppendArchs(s0: string, ghost done: seq<(string, string)>, system: string, archs: seq<string>) returns (s: string)
    requires s0 == Terminated(Texts(done))
    ensures s == Terminated(Texts(done + ArchPairs(system, archs[..|archs|])))
  {
    s := s0;
    assert done + ArchPairs(system, archs[..0]) == done;
    for j := 0 to |archs|
      invariant s == Terminated(Texts(done + ArchPairs(system, archs[..j])))
    {
      AppendPair(done, system, archs, j, s);
      s := s + system + " " + archs[j] + ", ";
    }
  }

  /** One step of the outer loop: the pairs of one more OS follow those listed so far. */
  lemma NextSystem(ss: SupportedSystems, systems: seq<string>, i: nat)
    requires i < |systems| && systems[i] in ss
    ensures PairsOf(ss, systems[..i + 1])
      == PairsOf(ss, systems[..i]) + ArchPairs(systems[i], Sorted(ss[systems[i]])[..|ss[systems[i]]|])
  {
    var archs := Sorted(ss[systems[i]]);
    assert archs[..|archs|] == archs;
    assert systems[..i + 1][..i] == systems[..i];
  }

  /** Trimming the terminated listing as the source does yields the bracketed joined listing,
      the empty table included. */
  lemma Trimmed(ss: SupportedSystems, s: string, r: string)
    requires s == Terminated(Texts(Pairs(ss)))
    requires r == if s == [] then "[]" else "[" + s[..|s| - 2] + "]"
    ensures r == SupportedSystemsText(ss)
  {
    TerminatedJoin(Texts(Pairs(ss)));
  }

  /** One step of the inner loop: appending a pair's text extends the listing by that pair. */
  lemma AppendPair(done: seq<(string, string)>, system: string, archs: seq<string>, j: nat, s: string)
    requires j < |archs|
    requires s == Terminated(Texts(done + ArchPairs(system, archs[..j])))
    ensures s + system + " " + archs[j] + ", " == Terminated(Texts(done + ArchPairs(system, archs[..j + 1])))
  {
    var pair := (system, archs[j]);
    var before := done + ArchPairs(system, archs[..j]);
    ArchPairsSnoc(system, archs, j);
    Associative(done, ArchPairs(system, archs[..j]), [pair]);
    TextsSnoc(before, pair);
    TerminatedSnoc(Texts(before), PairText(pair));
    Associative(s, system, " ");
    Associative(s, system + " ", archs[j]);
  }

  lemma ArchPairsSnoc(system: string, archs: seq<string>, j: nat)
    requires j < |archs|
    ensures ArchPairs(system, archs[..j + 1]) == ArchPairs(system, archs[..j]) + [(system, archs[j])]
  {
  }

  lemma TextsSnoc(pairs: seq<(string, string)>, p: (string, string))
    ensures Texts(pairs + [p]) == Texts(pairs) + [PairText(p)]
  {
  }

  lemma TerminatedSnoc(texts: seq<string>, t: string)
    ensures Terminated(texts + [t]) == Terminated(texts) + t + ", "
  {
    assert (texts + [t])[..|texts|] == texts;
  }

  /** A terminated listing is the joined listing with one separator after it; so it is empty
      exactly when there is nothing to list, and dropping its last two characters gives the
      joined listing. */
  lemma {:induction false} TerminatedJoin(texts: seq<string>)
    ensures texts == [] <==> Terminated(texts) == []
    ensures texts != [] ==> Terminated(texts) == JoinWith(texts, ", ") + ", "
    ensures texts != [] ==> Terminated(texts)[..|Terminated(texts)| - 2] == JoinWith(texts, ", ")
  {
    if texts != [] {
      var init := texts[..|texts| - 1];
      var last := texts[|texts| - 1];
      assert texts == init + [last];
      if init != [] {
        TerminatedJoin(init);
        JoinWithSnoc(init, last, ", ");
        assert Terminated(texts) == (JoinWith(init, ", ") + ", " + last) + ", ";
      } else {
        assert texts == [last];
      }
      var t := Terminated(texts);
      assert t[..|t| - 2] == JoinWith(texts, ", ");
    }
  }

  // ---- what the listing holds ----

  /** The pairs of the given OSes are exactly those of an OS among them with one of its
      architectures. */
  lemma {:induction false} PairsOfMembership(ss: SupportedSystems, systems: seq<string>, p: (string, string))
    ensures p in PairsOf(ss, systems) <==> p.0 in systems && p.0 in ss && p.1 in ss[p.0]
  {
    if systems != [] {
      var init := systems[..|systems| - 1];
      var system := systems[|systems| - 1];
      assert systems == init + [system];
      PairsOfMembership(ss, init, p);
      if system in ss {
        var archs := Sorted(ss[system]);
        var tail := ArchPairs(system, archs);
        if p.0 == system && p.1 in ss[system] {
          var k :| 0 <= k < |archs| && archs[k] == p.1;
          assert tail[k] == p;
        }
      }
    }
  }

  /** The listing names every supported (OS, architecture) pair and nothing else. */
  lemma PairsMembership(ss: SupportedSystems, p: (string, string))
    ensures p in Pairs(ss) <==> p.0 in ss && p.1 in ss[p.0]
  {
    PairsOfMembership(ss, Sorted(ss.Keys), p);
  }

  /** The number of architectures of the given OSes, added up. */
  function ArchTotal(ss: SupportedSystems, systems: seq<string>): nat {
    if systems == [] then 0
    else
      var system := systems[|systems| - 1];
      ArchTotal(ss, systems[..|systems| - 1]) + (if system in ss then |ss[system]| else 0)
  }

  lemma {:induction false} PairsOfCount(ss: SupportedSystems, systems: seq<string>)
    ensures |PairsOf(ss, systems)| == ArchTotal(ss, systems)
  {
    if systems != [] {
      PairsOfCount(ss, systems[..|systems| - 1]);
    }
  }

  /** One pair per architecture of each OS: as many pairs as the architecture sets hold, added
      up over the OSes. */
  lemma PairsCount(ss: SupportedSystems)
    ensures |Pairs(ss)| == ArchTotal(ss, Sorted(ss.Keys))
  {
    PairsOfCount(ss, Sorted(ss.Keys));
  }

  /** `p` comes before `q`: by OS, then by architecture. */
  predicate PairLess(p: (string, string), q: (string, string)) {
    (StrLe(p.0, q.0) && p.0 != q.0) || (p.0 == q.0 && StrLe(p.1, q.1) && p.1 != q.1)
  }

  predicate PairsIncreasing(pairs: seq<(string, string)>) {
    forall i, j :: 0 <= i < j < |pairs| ==> PairLess(pairs[i], pairs[j])
  }

  lemma {:induction false} PairsOfIncreasing(ss: SupportedSystems, systems: seq<string>)
    requires SortedStrictly(systems)
    ensures PairsIncreasing(PairsOf(ss, systems))
  {
    if systems != [] {
      var init := systems[..|systems| - 1];
      var system := systems[|systems| - 1];
      assert SortedStrictly(init);
      PairsOfIncreasing(ss, init);
      if system in ss {
        var head := PairsOf(ss, init);
        var tail := ArchPairs(system, Sorted(ss[system]));
        forall p, q | p in head && q in tail ensures PairLess(p, q) {
          HeadBeforeTail(ss, systems, p, q);
        }
        ConcatIncreasing(head, tail);
      }
    }
  }

  /** A pair of the earlier OSes comes before every pair of the last one. */
  lemma HeadBeforeTail(ss: SupportedSystems, systems: seq<string>, p: (string, string), q: (string, string))
    requires SortedStrictly(systems) && systems != []
    requires p in PairsOf(ss, systems[..|systems| - 1])
    requires q.0 == systems[|systems| - 1]
    ensures PairLess(p, q)
  {
    var init := systems[..|systems| - 1];
    PairsOfMembership(ss, init, p);
    var k :| 0 <= k < |init| && init[k] == p.0;
    assert systems[k] == p.0;
  }

  /** The pairs of one OS follow its sorted architectures. */
  lemma ArchPairsIncreasing(system: string, archs: seq<string>)
    requires SortedStrictly(archs)
    ensures PairsIncreasing(ArchPairs(system, archs))
  {
  }

  lemma ConcatIncreasing(head: seq<(string, string)>, tail: seq<(string, string)>)
    requires PairsIncreasing(head) && PairsIncreasing(tail)
    requires forall p, q :: p in head && q in tail ==> PairLess(p, q)
    ensures PairsIncreasing(head + tail)
  {
    var all := head + tail;
    forall i, j | 0 <= i < j < |all| ensures PairLess(all[i], all[j]) {
      if j < |head| {
        assert all[i] == head[i] && all[j] == head[j];
      } else if i >= |head| {
        assert all[i] == tail[i - |head|] && all[j] == tail[j - |head|];
      } else {
        assert all[i] in head && all[j] in tail;
      }
    }
  }

  /** The listing is in increasing order: OSes sorted, architectures sorted within each OS,
      no pair twice. */
  lemma PairsOrdered(ss: SupportedSystems)
    ensures PairsIncreasing(Pairs(ss))
  {
    PairsOfIncreasing(ss, Sorted(ss.Keys));
  }

  /** Nothing to list gives `[]`. */
  lemma EmptyTable()
    ensures SupportedSystemsText(map[]) == "[]"
  {
    var ss: SupportedSystems := map[];
    var keys := ss.Keys;
    assert keys == {};
    assert Sorted(keys) == [];
  }

  // ---- the listing of a table of two OSes ----

  function ExampleTable(): SupportedSystems {
    map["linux" := {"x86", "x86_64"}, "macos" := {"arm", "aarch64"}]
  }

  /** One OS's pairs, as listed for a single OS. */
  lemma PairsOfOne(ss: SupportedSystems, system: string)
    requires system in ss
    ensures PairsOf(ss, [system]) == ArchPairs(system, Sorted(ss[system]))
  {
    var systems := [system];
    assert systems[..0] == [];
  }

  /** Two OSes' pairs: the first's, then the second's. */
  lemma PairsOfTwo(ss: SupportedSystems, first: string, second: string)
    requires second in ss
    ensures PairsOf(ss, [first, second]) == PairsOf(ss, [first]) + ArchPairs(second, Sorted(ss[second]))
  {
    var systems := [first, second];
    assert systems[..1] == [first];
  }

  lemma ArchPairsTwo(system: string, a: string, b: string)
    ensures ArchPairs(system, [a, b]) == [(system, a), (system, b)]
  {
  }

  lemma ExampleSortedKeys()
    ensures Sorted(ExampleTable().Keys) == ["linux", "macos"]
  {
    assert ExampleTable().Keys == {"linux", "macos"};
    assert StrLe("linux", "macos");
    SortedPair("linux", "macos");
  }

  lemma ExampleSortedArchs()
    ensures Sorted(ExampleTable()["linux"]) == ["x86", "x86_64"]
    ensures Sorted(ExampleTable()["macos"]) == ["aarch64", "arm"]
  {
    assert ExampleTable()["linux"] == {"x86", "x86_64"};
    assert ExampleTable()["macos"] == {"aarch64", "arm"};
    assert StrLe("x86", "x86_64") by {
      assert "x86"[1..] == "86" && "x86_64"[1..] == "86_64";
      assert "86"[1..] == "6" && "86_64"[1..] == "6_64";
      assert "6"[1..] == "" ;
    }
    assert "x86" != "x86_64" by {
      assert |"x86"| != |"x86_64"|;
    }
    SortedPair("x86", "x86_64");
    assert StrLe("aarch64", "arm") by {
      assert "aarch64"[1..] == "arch64" && "arm"[1..] == "rm";
    }
    assert "aarch64" != "arm" by {
      assert |"aarch64"| != |"arm"|;
    }
    SortedPair("aarch64", "arm");
  }

  lemma ExampleLinuxPairs()
    ensures PairsOf(ExampleTable(), ["linux"]) == [("linux", "x86"), ("linux", "x86_64")]
  {
    ExampleSortedArchs();
    PairsOfOne(ExampleTable(), "linux");
    ArchPairsTwo("linux", "x86", "x86_64");
  }

  lemma ExamplePairs()
    ensures Pairs(ExampleTable())
      == [("linux", "x86"), ("linux", "x86_64"), ("macos", "aarch64"), ("macos", "arm")]
  {
    ExampleSortedKeys();
    ExampleSortedArchs();
    ExampleLinuxPairs();
    PairsOfTwo(ExampleTable(), "linux", "macos");
    ArchPairsTwo("macos", "aarch64", "arm");
  }

  lemma ExampleTexts()
    ensures Texts([("linux", "x86"), ("linux", "x86_64"), ("macos", "aarch64"), ("macos", "arm")])
      == ["linux x86", "linux x86_64", "macos aarch64", "macos arm"]
  {
    assert PairText(("linux", "x86")) == "linux x86";
    assert PairText(("linux", "x86_64")) == "linux x86_64";
    assert PairText(("macos", "aarch64")) == "macos aarch64";
    assert PairText(("macos", "arm")) == "macos arm";
  }

  /** Four parts joined, between brackets, written out left to right. */
  lemma JoinFour(a: string, b: string, c: string, d: string, sep: string)
    ensures "[" + JoinWith([a, b, c, d], sep) + "]" == "[" + a + sep + b + sep + c + sep + d + "]"
  {
    assert [a, b, c, d][1..] == [b, c, d];
    assert [b, c, d][1..] == [c, d];
    assert [c, d][1..] == [d];
    assert JoinWith([d], sep) == d;
    assert JoinWith([c, d], sep) == c + sep + d;
    assert JoinWith([b, c, d], sep) == b + sep + (c + sep + d);
    assert JoinWith([a, b, c, d], sep) == a + sep + (b + sep + (c + sep + d));
  }

  lemma ExampleLiteral()
    ensures "[" + "linux x86" + ", " + "linux x86_64" + ", " + "macos aarch64" + ", " + "macos arm" + "]"
      == "[linux x86, linux x86_64, macos aarch64, macos arm]"
  {
    assert "[" + "linux x86" == "[linux x86";
    assert "[linux x86" + ", " == "[linux x86, ";
    assert "[linux x86, " + "linux x86_64" == "[linux x86, linux x86_64";
    assert "[linux x86, linux x86_64" + ", " == "[linux x86, linux x86_64, ";
    assert "[linux x86, linux x86_64, " + "macos aarch64" == "[linux x86, linux x86_64, macos aarch64";
    assert "[linux x86, linux x86_64, macos aarch64" + ", " == "[linux x86, linux x86_64, macos aarch64, ";
    assert "[linux x86, linux x86_64, macos aarch64, " + "macos arm"
      == "[linux x86, linux x86_64, macos aarch64, macos arm";
    assert "[linux x86, linux x86_64, macos aarch64, macos arm" + "]"
      == "[linux x86, linux x86_64, macos aarch64, macos arm]";
  }

  /** The table of two OSes with two architectures each lists as
      `[linux x86, linux x86_64, macos aarch64, macos arm]`. */
  lemma ExampleListing()
    ensures SupportedSystemsText(ExampleTable()) == "[linux x86, linux x86_64, macos aarch64, macos arm]"
  {
    ExamplePairs();
    ExampleTexts();
    JoinFour("linux x86", "linux x86_64", "macos aarch64", "macos arm", ", ");
    ExampleLiteral();
  }

  // ---- messages ----

  function ConfigLoadMessage(e: ConfigLoadError): string {
    match e
    case FileReadingFailed(io) => io
    case InvalidYaml(yaml) => "Invalid YAML syntax: " + yaml
    case InvalidConfig(_) => "Invalid configuration file"
  }

  /** `Display for FileSystemError`. */
  function FileSystemMessage(e: FileSystemError): string {
    "I/O failed on " + e.path + ": " + e.source
  }

  /** `Display for InstallError`, the current OS and architecture given. */
  function InstallMessage(e: InstallError, os: string, arch: string): string {
    match e
    case UnsupportedOs(ss) =>
      "OS '" + os + "' is not supported (must be one of " + SupportedSystemsText(ss) + ")"
    case UnsupportedArch(ss) =>
      "Architecture '" + arch + "' is not supported for OS '" + os + "' (must be one of "
        + SupportedSystemsText(ss) + ")"
    case FileSystemWritingFailed(fsError) => FileSystemMessage(fsError)
    case DownloadFailed(download) => download
    case UnzipFailed(zip, file, unzip) => "Unzip " + file + " from " + zip + " failed: " + unzip
  }

  /** `Display for EnvironmentLoadError`. */
  function EnvironmentLoadMessage(e: EnvironmentLoadError): string {
    match e
    case InstallFailed(_, _) => "Unable to install some softwares"
    case EnvFileWritingFailed(fsError) => "Unable to write env file: " + FileSystemMessage(fsError)
  }

  /** A file-system error shows its path and its cause; with a path free of `": "` both can be
      read back from the message. */
  lemma FileSystemMessageParts(e: FileSystemError)
    ensures var m := FileSystemMessage(e); var n := |"I/O failed on "|;
      StartsWith(m, "I/O failed on ")
      && m[n..n + |e.path|] == e.path
      && m[n + |e.path|..n + |e.path| + 2] == ": "
      && m[n + |e.path| + 2..] == e.source
  {
  }

  /** Two file-system errors on the same path display alike exactly when their causes do. */
  lemma FileSystemMessageSamePath(e: FileSystemError, f: FileSystemError)
    requires e.path == f.path
    ensures FileSystemMessage(e) == FileSystemMessage(f) <==> e.source == f.source
  {
    var n := |"I/O failed on "| + |e.path| + 2;
    if FileSystemMessage(e) == FileSystemMessage(f) {
      FileSystemMessageParts(e);
      FileSystemMessageParts(f);
      assert e.source == FileSystemMessage(e)[n..];
    }
  }

  /** Failing to install some softwares shows one constant message, whatever went wrong. */
  lemma InstallFailedMessageConstant(a: EnvironmentLoadError, b: EnvironmentLoadError)
    requires a.InstallFailed? && b.InstallFailed?
    ensures EnvironmentLoadMessage(a) == EnvironmentLoadMessage(b)
  {
  }

  /** The unsupported-system messages carry the listing of the table they hold, after the
      current OS (and architecture), and never read alike. */
  lemma UnsupportedMessages(ss: SupportedSystems, os: string, arch: string)
    ensures var m := InstallMessage(UnsupportedOs(ss), os, arch); var t := SupportedSystemsText(ss);
      |m| > |t| && m[|m| - |t| - 1..|m| - 1] == t && m[4..4 + |os|] == os
    ensures var m := InstallMessage(UnsupportedArch(ss), os, arch); var t := SupportedSystemsText(ss);
      |m| > |t| && m[|m| - |t| - 1..|m| - 1] == t && m[14..14 + |arch|] == arch
    ensures InstallMessage(UnsupportedOs(ss), os, arch) != InstallMessage(UnsupportedArch(ss), os, arch)
  {
    var m := InstallMessage(UnsupportedOs(ss), os, arch);
    var a := InstallMessage(UnsupportedArch(ss), os, arch);
    assert m[0] == 'O' && a[0] == 'A';
  }

  /** An unzip failure names the member and the archive it was taken from. */
  lemma UnzipMessageParts(zip: Path, file: string, unzip: string, os: string, arch: string)
    ensures var m := InstallMessage(UnzipFailed(zip, file, unzip), os, arch);
      m[6..6 + |file|] == file && m[12 + |file|..12 + |file| + |zip|] == zip
  {
  }
}
