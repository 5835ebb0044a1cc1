/** The archive artifact installer of the newer code (src/soft/installer.rs).

    The file system, the downloader and the unarchiver are injected in the source through
    traits. Here they are one `Collaborators` object: it records every call made on it, in
    order, and answers each call from a fixed `Oracle` (which calls fail and with what I/O
    error text, which files exist, which directory and temporary file paths are handed out).
    `Install` is proved against the specification function `InstallRun`, which gives the
    result and the exact sequence of collaborator calls; the lemmas below state what the
    installer promises in terms of that function. */
module Installer {
  import opened Results
  import opened Paths
  import opened Seqs

  /** One symlink of an artifact's plan: `dest` is made to point at `src` inside the
      software directory. */
  datatype Symlink = Symlink(dest: Path, required: bool, src: Path)

  datatype Artifact = Artifact(
    binFilepaths: seq<Path>,
    name: string,
    symlinks: seq<Symlink>,
    url: string,
    version: string)

  /** The software error of src/soft/mod.rs; an I/O error is represented by its text. */
  datatype Error = Io(message: string) | UnsupportedSystem

  function ErrorMessage(e: Error): (text: string)
    ensures e.UnsupportedSystem? ==> text == "This system is not supported"
    ensures e.Io? ==> text == e.message
  {
    match e
    case Io(message) => message
    case UnsupportedSystem => "This system is not supported"
  }

  /** Which unarchiver method `install` is given: `untar` for `install_targz`, `unzip` for
      `install_zip`. */
  datatype Extractor = Untar | Unzip

  /** A call made on one of the injected collaborators. */
  datatype Call =
    | EnsureSoftwareDir(name: string, version: string)
    | FileExists(path: Path)
    | CreateTempFile
    | Download(url: string, file: Path)
    | Extract(extractor: Extractor, archive: Path, dest: Path)
    | MakeExecutable(path: Path)
    | EnsureSymlink(src: Path, dest: Path)

  /** The collaborators' answers: the software directory and temporary file paths they hand
      out, the files that exist, and the calls that fail together with the I/O error text. */
  datatype Oracle = Oracle(
    softDir: Path,
    tempPath: Path,
    present: set<Path>,
    failures: map<Call, string>)

  /** What a run of the installer (or of a part of it) returns, with the calls it made. */
  datatype Run = Run(result: Result<(), Error>, calls: seq<Call>)

  function Done(calls: seq<Call>): Run {
    Run(Success(()), calls)
  }

  /** One fallible call, answered by the oracle. */
  function Step(c: Call, o: Oracle): Run {
    if c in o.failures then Run(Failure(Io(o.failures[c])), [c]) else Done([c])
  }

  /** `first?; next`: the second part runs only when the first succeeded. */
  function Then(first: Run, next: Run): Run {
    if first.result.Failure? then first else Run(next.result, first.calls + next.calls)
  }

  /** Fallible calls made one after the other, stopping at the first failure (`?`). */
  function Sequence(cs: seq<Call>, o: Oracle): Run {
    if cs == [] then Done([]) else Then(Step(cs[0], o), Sequence(cs[1..], o))
  }

  datatype Probe = Probe(calls: seq<Call>, installed: bool)

  /** `bin_filepaths.iter().all(|p| fs.file_exists(&soft.join(p)))`, which stops at the
      first binary that is missing. */
  function ProbeBinaries(soft: Path, bins: seq<Path>, o: Oracle): Probe {
    if bins == [] then Probe([], true)
    else
      var p := Join(soft, bins[0]);
      if p in o.present then
        var rest := ProbeBinaries(soft, bins[1..], o);
        Probe([FileExists(p)] + rest.calls, rest.installed)
      else Probe([FileExists(p)], false)
  }

  function FetchCalls(url: string, soft: Path, x: Extractor, o: Oracle): seq<Call> {
    [CreateTempFile, Download(url, o.tempPath), Extract(x, o.tempPath, soft)]
  }

  function ExecCalls(soft: Path, bins: seq<Path>): (cs: seq<Call>)
    ensures |cs| == |bins|
  {
    if bins == [] then [] else [MakeExecutable(Join(soft, bins[0]))] + ExecCalls(soft, bins[1..])
  }

  /** One `make_executable` per binary, in the binaries' order, under the software directory. */
  lemma {:induction false} ExecCallsIndexed(soft: Path, bins: seq<Path>)
    ensures forall k :: 0 <= k < |bins| ==> ExecCalls(soft, bins)[k] == MakeExecutable(Join(soft, bins[k]))
  {
    if bins != [] {
      ExecCallsIndexed(soft, bins[1..]);
      forall k | 0 <= k < |bins|
        ensures ExecCalls(soft, bins)[k] == MakeExecutable(Join(soft, bins[k]))
      {
        if k > 0 {
          assert bins[1..][k - 1] == bins[k];
        }
      }
    }
  }

  function LinkCall(soft: Path, l: Symlink): Call {
    EnsureSymlink(Join(soft, l.src), l.dest)
  }

  function LinkCalls(soft: Path, links: seq<Symlink>): (cs: seq<Call>)
    ensures |cs| == |links|
    ensures forall k :: 0 <= k < |links| ==> cs[k] == LinkCall(soft, links[k])
  {
    if links == [] then [] else [LinkCall(soft, links[0])] + LinkCalls(soft, links[1..])
  }

  /** A failing required link aborts; a failing optional link is only logged. */
  function LinkStep(soft: Path, l: Symlink, o: Oracle): Run {
    var c := LinkCall(soft, l);
    if c in o.failures && l.required then Run(Failure(Io(o.failures[c])), [c]) else Done([c])
  }

  function UpdateSymlinks(soft: Path, links: seq<Symlink>, o: Oracle): Run {
    if links == [] then Done([]) else Then(LinkStep(soft, links[0], o), UpdateSymlinks(soft, links[1..], o))
  }

  /** One more call of a sequence, after calls that all succeeded. */
  lemma SequenceStep(made: seq<Call>, cs: seq<Call>, o: Oracle)
    requires cs != []
    ensures Step(cs[0], o).result.Failure? ==>
      Then(Done(made), Sequence(cs, o)) == Run(Step(cs[0], o).result, made + [cs[0]])
    ensures Step(cs[0], o).result.Success? ==>
      Then(Done(made), Sequence(cs, o)) == Then(Done(made + [cs[0]]), Sequence(cs[1..], o))
  {
    var rest := Sequence(cs[1..], o);
    assert Sequence(cs, o) == Then(Step(cs[0], o), rest);
    if Step(cs[0], o).result.Success? {
      assert Then(Step(cs[0], o), rest) == Run(rest.result, [cs[0]] + rest.calls);
      assert made + ([cs[0]] + rest.calls) == (made + [cs[0]]) + rest.calls;
    }
  }

  /** One more link of the plan, after links that did not abort. */
  lemma LinkStepThen(linked: seq<Call>, soft: Path, links: seq<Symlink>, o: Oracle)
    requires links != []
    ensures LinkStep(soft, links[0], o).result.Failure? ==>
      Then(Done(linked), UpdateSymlinks(soft, links, o)) == Run(LinkStep(soft, links[0], o).result, linked + [LinkCall(soft, links[0])])
    ensures LinkStep(soft, links[0], o).result.Success? ==>
      Then(Done(linked), UpdateSymlinks(soft, links, o)) == Then(Done(linked + [LinkCall(soft, links[0])]), UpdateSymlinks(soft, links[1..], o))
  {
    var c := LinkCall(soft, links[0]);
    var rest := UpdateSymlinks(soft, links[1..], o);
    assert UpdateSymlinks(soft, links, o) == Then(LinkStep(soft, links[0], o), rest);
    if LinkStep(soft, links[0], o).result.Success? {
      assert Then(LinkStep(soft, links[0], o), rest) == Run(rest.result, [c] + rest.calls);
      assert linked + ([c] + rest.calls) == (linked + [c]) + rest.calls;
    }
  }

  /** The whole of `install`: software directory, presence probe, download and extraction
      when a binary is missing, executable bits, then the symlink plan. */
  function InstallRun(a: Artifact, x: Extractor, o: Oracle): Run {
    var probe := ProbeBinaries(o.softDir, a.binFilepaths, o);
    var finish := Then(Sequence(ExecCalls(o.softDir, a.binFilepaths), o), UpdateSymlinks(o.softDir, a.symlinks, o));
    var unpacked := if probe.installed then finish else Then(Sequence(FetchCalls(a.url, o.softDir, x, o), o), finish);
    Then(Step(EnsureSoftwareDir(a.name, a.version), o), Then(Done(probe.calls), unpacked))
  }

  /** The part of `install` after the software directory and the presence probe. */
  function Unpacked(a: Artifact, x: Extractor, o: Oracle, installed: bool): Run {
    var finish := Then(Sequence(ExecCalls(o.softDir, a.binFilepaths), o), UpdateSymlinks(o.softDir, a.symlinks, o));
    if installed then finish else Then(Sequence(FetchCalls(a.url, o.softDir, x, o), o), finish)
  }

  lemma InstallRunShape(a: Artifact, x: Extractor, o: Oracle)
    requires EnsureSoftwareDir(a.name, a.version) !in o.failures
    ensures var probe := ProbeBinaries(o.softDir, a.binFilepaths, o);
      var rest := Unpacked(a, x, o, probe.installed);
      InstallRun(a, x, o) == Run(rest.result, [EnsureSoftwareDir(a.name, a.version)] + (probe.calls + rest.calls))
  {
  }

  /** The injected file system, downloader and unarchiver. */
  class Collaborators {
    const oracle: Oracle
    var calls: seq<Call>

    constructor (oracle: Oracle)
      ensures this.oracle == oracle && calls == []
    {
      this.oracle := oracle;
      calls := [];
    }

    method Invoke(c: Call) returns (r: Result<(), Error>)
      modifies this
      ensures calls == old(calls) + [c]
      ensures r == Step(c, oracle).result
    {
      calls := calls + [c];
      if c in oracle.failures {
        r := Failure(Io(oracle.failures[c]));
      } else {
        r := Success(());
      }
    }

    /** `fs.ensure_software_dir(name, version)` */
    method EnsureSoftwareDir(name: string, version: string) returns (r: Result<Path, Error>)
      modifies this
      ensures calls == old(calls) + [Call.EnsureSoftwareDir(name, version)]
      ensures r.Failure? == Step(Call.EnsureSoftwareDir(name, version), oracle).result.Failure?
      ensures r.Failure? ==> r.error == Step(Call.EnsureSoftwareDir(name, version), oracle).result.error
      ensures r.Success? ==> r.value == oracle.softDir
    {
      var done := Invoke(Call.EnsureSoftwareDir(name, version));
      if done.Failure? {
        r := Failure(done.error);
      } else {
        r := Success(oracle.softDir);
      }
    }

    /** `fs.file_exists(path)` */
    method FileExists(path: Path) returns (b: bool)
      modifies this
      ensures calls == old(calls) + [Call.FileExists(path)]
      ensures b == (path in oracle.present)
    {
      calls := calls + [Call.FileExists(path)];
      b := path in oracle.present;
    }

    /** `fs.create_temp_file()`, returning the temporary file's path */
    method CreateTempFile() returns (r: Result<Path, Error>)
      modifies this
      ensures calls == old(calls) + [Call.CreateTempFile]
      ensures r.Failure? == Step(Call.CreateTempFile, oracle).result.Failure?
      ensures r.Failure? ==> r.error == Step(Call.CreateTempFile, oracle).result.error
      ensures r.Success? ==> r.value == oracle.tempPath
    {
      var done := Invoke(Call.CreateTempFile);
      if done.Failure? {
        r := Failure(done.error);
      } else {
        r := Success(oracle.tempPath);
      }
    }

    /** `downloader.download(url, file)` */
    method Download(url: string, file: Path) returns (r: Result<(), Error>)
      modifies this
      ensures calls == old(calls) + [Call.Download(url, file)]
      ensures r == Step(Call.Download(url, file), oracle).result
    {
      r := Invoke(Call.Download(url, file));
    }

    /** `unarchiver.untar(archive, dest)` */
    method Untar(archive: Path, dest: Path) returns (r: Result<(), Error>)
      modifies this
      ensures calls == old(calls) + [Extract(Extractor.Untar, archive, dest)]
      ensures r == Step(Extract(Extractor.Untar, archive, dest), oracle).result
    {
      r := Invoke(Extract(Extractor.Untar, archive, dest));
    }

    /** `unarchiver.unzip(archive, dest)` */
    method Unzip(archive: Path, dest: Path) returns (r: Result<(), Error>)
      modifies this
      ensures calls == old(calls) + [Extract(Extractor.Unzip, archive, dest)]
      ensures r == Step(Extract(Extractor.Unzip, archive, dest), oracle).result
    {
      r := Invoke(Extract(Extractor.Unzip, archive, dest));
    }

    /** `fs.make_executable(path)` */
    method MakeExecutable(path: Path) returns (r: Result<(), Error>)
      modifies this
      ensures calls == old(calls) + [Call.MakeExecutable(path)]
      ensures r == Step(Call.MakeExecutable(path), oracle).result
    {
      r := Invoke(Call.MakeExecutable(path));
    }

    /** `fs.ensure_symlink(src, dest)` */
    method EnsureSymlink(src: Path, dest: Path) returns (r: Result<(), Error>)
      modifies this
      ensures calls == old(calls) + [Call.EnsureSymlink(src, dest)]
      ensures r == Step(Call.EnsureSymlink(src, dest), oracle).result
    {
      r := Invoke(Call.EnsureSymlink(src, dest));
    }
  }

  /** The presence probe `bin_filepaths.iter().all(..)`, stopping at the first missing
      binary. */
  method ProbeInstalled(soft: Path, bins: seq<Path>, io: Collaborators) returns (installed: bool)
    modifies io
    ensures io.calls == old(io.calls) + ProbeBinaries(soft, bins, io.oracle).calls
    ensures installed == ProbeBinaries(soft, bins, io.oracle).installed
  {
    ghost var o := io.oracle;
    ghost var probe := ProbeBinaries(soft, bins, o);
    installed := true;
    var i := 0;
    ghost var probed: seq<Call> := [];
    while i < |bins| && installed
      invariant 0 <= i <= |bins|
      invariant io.oracle == o
      invariant io.calls == old(io.calls) + probed
      invariant installed ==> probe == Probe(probed + ProbeBinaries(soft, bins[i..], o).calls, ProbeBinaries(soft, bins[i..], o).installed)
      invariant !installed ==> probe == Probe(probed, false)
    {
      ghost var c := FileExists(Join(soft, bins[i]));
      ProbeFirst(soft, bins[i..], o);
      assert bins[i..][1..] == bins[i + 1..];
      installed := io.FileExists(Join(soft, bins[i]));
      Associative(probed, [c], ProbeBinaries(soft, bins[i + 1..], o).calls);
      probed := probed + [c];
      i := i + 1;
    }
  }

  /** The probe of a non-empty list checks its first binary, then goes on only if it is there. */
  lemma ProbeFirst(soft: Path, bins: seq<Path>, o: Oracle)
    requires bins != []
    ensures var p := Join(soft, bins[0]); var rest := ProbeBinaries(soft, bins[1..], o);
      ProbeBinaries(soft, bins, o)
        == if p in o.present then Probe([FileExists(p)] + rest.calls, rest.installed) else Probe([FileExists(p)], false)
  {
  }

  /** Temporary file, download into it, extraction into the software directory. */
  method FetchArchive(url: string, soft: Path, io: Collaborators, x: Extractor) returns (r: Result<(), Error>)
    modifies io
    ensures io.calls == old(io.calls) + Sequence(FetchCalls(url, soft, x, io.oracle), io.oracle).calls
    ensures r == Sequence(FetchCalls(url, soft, x, io.oracle), io.oracle).result
  {
    ghost var o := io.oracle;
    ghost var cs := FetchCalls(url, soft, x, o);
    assert [cs[2]][1..] == [];
    assert Sequence([cs[2]], o) == Then(Step(cs[2], o), Done([]));
    assert [cs[1], cs[2]][1..] == [cs[2]];
    assert Sequence([cs[1], cs[2]], o) == Then(Step(cs[1], o), Sequence([cs[2]], o));
    assert cs[1..] == [cs[1], cs[2]];
    assert Sequence(cs, o) == Then(Step(cs[0], o), Sequence([cs[1], cs[2]], o));
    var archive := io.CreateTempFile();
    if archive.Failure? {
      return Failure(archive.error);
    }
    var fetched := io.Download(url, archive.value);
    if fetched.Failure? {
      return fetched;
    }
    if x == Untar {
      r := io.Untar(archive.value, soft);
    } else {
      r := io.Unzip(archive.value, soft);
    }
  }

  /** `fs.make_executable(&soft.join(p))?` for every binary, in order. */
  method MakeExecutables(soft: Path, bins: seq<Path>, io: Collaborators) returns (r: Result<(), Error>)
    modifies io
    ensures io.calls == old(io.calls) + Sequence(ExecCalls(soft, bins), io.oracle).calls
    ensures r == Sequence(ExecCalls(soft, bins), io.oracle).result
  {
    ghost var o := io.oracle;
    var j := 0;
    ghost var made: seq<Call> := [];
    assert bins[0..] == bins;
    while j < |bins|
      invariant 0 <= j <= |bins|
      invariant io.calls == old(io.calls) + made
      invariant Sequence(ExecCalls(soft, bins), o) == Then(Done(made), Sequence(ExecCalls(soft, bins[j..]), o))
    {
      ExecStep(made, soft, bins, j, o);
      r := io.MakeExecutable(Join(soft, bins[j]));
      Associative(old(io.calls), made, [MakeExecutable(Join(soft, bins[j]))]);
      made := made + [MakeExecutable(Join(soft, bins[j]))];
      if r.Failure? {
        return;
      }
      j := j + 1;
    }
    r := Success(());
  }

  /** One more binary made executable, as the sequence of `make_executable` calls sees it. */
  lemma ExecStep(made: seq<Call>, soft: Path, bins: seq<Path>, j: nat, o: Oracle)
    requires j < |bins|
    ensures var c := MakeExecutable(Join(soft, bins[j]));
      (Step(c, o).result.Failure? ==>
         Then(Done(made), Sequence(ExecCalls(soft, bins[j..]), o)) == Run(Step(c, o).result, made + [c]))
      && (Step(c, o).result.Success? ==>
         Then(Done(made), Sequence(ExecCalls(soft, bins[j..]), o)) == Then(Done(made + [c]), Sequence(ExecCalls(soft, bins[j + 1..]), o)))
  {
    assert bins[j..][1..] == bins[j + 1..];
    SequenceStep(made, ExecCalls(soft, bins[j..]), o);
  }

  /** The symlink plan, in order: a failing required link returns its error, a failing
      optional one is only logged and the loop continues. */
  method EnsureSymlinks(soft: Path, links: seq<Symlink>, io: Collaborators) returns (r: Result<(), Error>)
    modifies io
    ensures io.calls == old(io.calls) + UpdateSymlinks(soft, links, io.oracle).calls
    ensures r == UpdateSymlinks(soft, links, io.oracle).result
  {
    ghost var o := io.oracle;
    var k := 0;
    ghost var linked: seq<Call> := [];
    while k < |links|
      invariant 0 <= k <= |links|
      invariant io.calls == old(io.calls) + linked
      invariant UpdateSymlinks(soft, links, o) == Then(Done(linked), UpdateSymlinks(soft, links[k..], o))
    {
      assert links[k..][1..] == links[k + 1..];
      LinkStepThen(linked, soft, links[k..], o);
      var l := links[k];
      var s := io.EnsureSymlink(Join(soft, l.src), l.dest);
      linked := linked + [LinkCall(soft, l)];
      if s.Failure? && l.required {
        return s;
      }
      k := k + 1;
    }
    r := Success(());
  }

  /** The executable bits, then the symlink plan: the part of `install` run on both
      branches of the presence probe. */
  method Finish(soft: Path, a: Artifact, io: Collaborators) returns (r: Result<(), Error>)
    modifies io
    ensures io.calls == old(io.calls) + Then(Sequence(ExecCalls(soft, a.binFilepaths), io.oracle), UpdateSymlinks(soft, a.symlinks, io.oracle)).calls
    ensures r == Then(Sequence(ExecCalls(soft, a.binFilepaths), io.oracle), UpdateSymlinks(soft, a.symlinks, io.oracle)).result
  {
    ghost var start := io.calls;
    ghost var execs := Sequence(ExecCalls(soft, a.binFilepaths), io.oracle);
    r := MakeExecutables(soft, a.binFilepaths, io);
    if r.Failure? {
      return;
    }
    r := EnsureSymlinks(soft, a.symlinks, io);
    Associative(start, execs.calls, UpdateSymlinks(soft, a.symlinks, io.oracle).calls);
  }

  /** Download and extraction when a binary is missing, then `Finish`. */
  method Unpack(a: Artifact, soft: Path, installed: bool, io: Collaborators, x: Extractor) returns (r: Result<(), Error>)
    requires soft == io.oracle.softDir
    modifies io
    ensures io.calls == old(io.calls) + Unpacked(a, x, io.oracle, installed).calls
    ensures r == Unpacked(a, x, io.oracle, installed).result
  {
    ghost var o := io.oracle;
    ghost var finish := Then(Sequence(ExecCalls(soft, a.binFilepaths), o), UpdateSymlinks(soft, a.symlinks, o));
    if installed {
      r := Finish(soft, a, io);
      return;
    }
    ghost var fetch := Sequence(FetchCalls(a.url, soft, x, o), o);
    r := FetchArchive(a.url, soft, io, x);
    if r.Failure? {
      return;
    }
    r := Finish(soft, a, io);
    Associative(old(io.calls), fetch.calls, finish.calls);
  }

  /** `DefaultArchiveArtifactInstaller::install`, with the unarchiver method chosen by `x`. */
  method Install(a: Artifact, io: Collaborators, x: Extractor) returns (r: Result<(), Error>)
    modifies io
    ensures io.calls == old(io.calls) + InstallRun(a, x, io.oracle).calls
    ensures r == InstallRun(a, x, io.oracle).result
  {
    ghost var o := io.oracle;
    ghost var start := io.calls;
    var dir := io.EnsureSoftwareDir(a.name, a.version);
    if dir.Failure? {
      return Failure(dir.error);
    }
    InstallRunShape(a, x, o);
    var soft := dir.value;
    var installed := ProbeInstalled(soft, a.binFilepaths, io);
    r := Unpack(a, soft, installed, io, x);
    ghost var first := [EnsureSoftwareDir(a.name, a.version)];
    ghost var probe := ProbeBinaries(soft, a.binFilepaths, o).calls;
    ghost var rest := Unpacked(a, x, o, installed).calls;
    Associative(start, first, probe);
    Associative(start, first + probe, rest);
    Associative(first, probe, rest);
  }

  /** `install_targz`: the installer with the `untar` extractor. */
  method InstallTargz(a: Artifact, io: Collaborators) returns (r: Result<(), Error>)
    modifies io
    ensures io.calls == old(io.calls) + InstallRun(a, Untar, io.oracle).calls
    ensures r == InstallRun(a, Untar, io.oracle).result
  {
    r := Install(a, io, Untar);
  }

  /** `install_zip`: the installer with the `unzip` extractor. */
  method InstallZip(a: Artifact, io: Collaborators) returns (r: Result<(), Error>)
    modifies io
    ensures io.calls == old(io.calls) + InstallRun(a, Unzip, io.oracle).calls
    ensures r == InstallRun(a, Unzip, io.oracle).result
  {
    r := Install(a, io, Unzip);
  }
}
