/** The environment of the older library (denv_lib/src/lib.rs): an id derived from the project
    path, and `load`, which installs every configured software that is missing, links each
    one into the environment directory, and writes the environment file exporting `PATH`.

    The configured softwares are Terraforms, the library's one implementation of `Software`;
    installing one is `Terraform.Install` over the same file system. The hash that makes the id
    is a parameter; the env file's writer is a collaborator that records what it is given. */
module Environment {
  import opened Results
  import opened Paths
  import opened Seqs
  import opened LibError
  import opened LibFs
  import opened LibVar
  import LibSoftware
  import Terraform

  const PathVarname: string := "PATH"

  /** `struct Environment(String)`: the id. */
  datatype Environment = Environment(id: string) {
    function Id(): (r: string)
      ensures r == id
    {
      id
    }

    /** `path(cfg)`: the environment directory of the id. */
    function Path(denv: Paths.Path): Paths.Path {
      EnvDirpath(denv, id)
    }
  }

  /** `Environment::new`: the hash of the project path (SHA-256, hex-encoded, in the source). */
  function New(hash: string -> string, path: Paths.Path): (e: Environment)
    ensures e.Id() == hash(path)
  {
    Environment(hash(path))
  }

  /** The same project path always gives the same environment, and environments of different
      ids have different directories. */
  lemma NewDeterministic(hash: string -> string, p: Paths.Path, q: Paths.Path)
    requires p == q
    ensures New(hash, p) == New(hash, q)
  {
  }

  lemma PathsSeparateEnvironments(denv: Paths.Path, a: Environment, b: Environment)
    requires Base(denv) && Component(a.id) && Component(b.id) && a.id != b.id
    ensures a.Path(denv) != b.Path(denv)
  {
    var base := Join(denv, EnvironmentsDirname);
    assert Component(EnvironmentsDirname);
    JoinComponent(denv, EnvironmentsDirname);
    IdAfterBase(base, a.id);
    IdAfterBase(base, b.id);
  }

  /** The id can be cut back out of the directory joined under `base`. */
  lemma IdAfterBase(base: Paths.Path, id: string)
    requires Base(base) && Component(id)
    ensures Join(base, id)[|base| + 1..] == id
  {
    JoinComponent(base, id);
    Associative(base, "/", id);
    Halves(base, "/" + id);
    assert ("/" + id)[1..] == id;
  }

  /** `PATH={env_dir}:$PATH` */
  function PathVar(envDir: Paths.Path): Var {
    Var(PathVarname, envDir + ":$" + PathVarname)
  }

  /** The one line `load` writes into the env file. */
  function EnvLine(envDir: Paths.Path): string {
    ExportStatement(PathVar(envDir)) + "\n"
  }

  /** The env file's line exports `PATH` with the environment directory in front of the
      previous value, and reads back as exactly that variable. */
  lemma EnvLineExportsPath(envDir: Paths.Path)
    ensures EnvLine(envDir) == "export PATH=\"" + envDir + ":$PATH\"\n"
    ensures ParseExport(EnvLine(envDir)[..|EnvLine(envDir)| - 1]) == Some(Var("PATH", envDir + ":$PATH"))
  {
    var line := EnvLine(envDir);
    assert line[..|line| - 1] == ExportStatement(PathVar(envDir));
    assert PathVar(envDir) == Var("PATH", envDir + ":$PATH");
    ExportRoundTrip(PathVar(envDir));
  }

  /** What happened to one software during the loop. */
  datatype Fate = NotInstalled | NotLinked | Loaded

  /** The loop's state: the disk, the downloader's and unzipper's calls, the two error lists,
      the softwares `install` was called for and each visited software's fate. */
  datatype Progress = Progress(
    disk: Disk,
    calls: seq<Terraform.Call>,
    installErrs: seq<(string, InstallError)>,
    symlinkErrs: seq<(string, FileSystemError)>,
    installedFor: seq<Terraform.Terraform>,
    fates: seq<Fate>)

  /** What `load` works with besides the disk: the id, the build target, the denv and
      temporary directories, and the downloader's and unzipper's answers. */
  datatype Context = Context(id: string, platform: Terraform.Platform, denv: Paths.Path, tmp: Paths.Path, oracle: Terraform.Oracle)

  /** The key a software's errors are listed under: its display string. */
  function Key(s: Terraform.Terraform): string {
    LibSoftware.Display(s.AsSoftware())
  }

  /** The install step of one software: nothing when it is installed already. */
  function InstallStep(c: Context, disk: Disk, s: Terraform.Terraform): Terraform.Run {
    if IsDir(disk, SoftwareDirpath(c.denv, Terraform.SoftwareName, s.version)) then Terraform.Run(Success(()), disk, [])
    else Terraform.InstallSpec(s, c.platform, disk, c.denv, c.tmp, c.oracle)
  }

  /** One pass of the loop: install when missing, then link, each failure listed under the
      software's key and ending its pass. */
  function StepSpec(c: Context, p: Progress, s: Terraform.Terraform): Progress {
    var installed := IsDir(p.disk, SoftwareDirpath(c.denv, Terraform.SoftwareName, s.version));
    var tried := if installed then p.installedFor else p.installedFor + [s];
    LinkStep(c, p, s, InstallStep(c, p.disk, s), tried)
  }

  function LinkStep(c: Context, p: Progress, s: Terraform.Terraform, run: Terraform.Run, tried: seq<Terraform.Terraform>): Progress {
    if run.result.Failure? then
      Progress(run.disk, p.calls + run.calls, p.installErrs + [(Key(s), run.result.error)], p.symlinkErrs, tried, p.fates + [NotInstalled])
    else
      var link := BinSymlinkSpec(run.disk, c.denv, c.id, Terraform.SoftwareName, s.version);
      if link.result.Failure? then
        Progress(link.disk, p.calls + run.calls, p.installErrs, p.symlinkErrs + [(Key(s), link.result.error)], tried, p.fates + [NotLinked])
      else Progress(link.disk, p.calls + run.calls, p.installErrs, p.symlinkErrs, tried, p.fates + [Loaded])
  }

  /** The loop over the softwares, in configuration order. */
  function LoopSpec(c: Context, disk: Disk, softs: seq<Terraform.Terraform>): Progress {
    if softs == [] then Progress(disk, [], [], [], [], [])
    else StepSpec(c, LoopSpec(c, disk, softs[..|softs| - 1]), softs[|softs| - 1])
  }

  /** What `load` returns, the disk after it, the downloader's and unzipper's calls and what
      was written to which file. */
  datatype LoadRun = LoadRun(result: Result<(), EnvironmentLoadError>, disk: Disk, calls: seq<Terraform.Call>, writes: seq<(Paths.Path, string)>)

  /** `Environment::load`: the loop, then either the two lists as the error, or the env file
      opened and its one line written. */
  function LoadSpec(c: Context, disk: Disk, softs: seq<Terraform.Terraform>, writeError: Option<string>): LoadRun {
    var p := LoopSpec(c, disk, softs);
    if p.installErrs != [] || p.symlinkErrs != [] then LoadRun(Failure(InstallFailed(p.installErrs, p.symlinkErrs)), p.disk, p.calls, [])
    else WriteSpec(OpenFileSpec(p.disk, EnvFilepath(c.denv, c.id)), EnvLine(EnvDirpath(c.denv, c.id)), p.calls, writeError)
  }

  function WriteSpec(envFile: Outcome<Paths.Path>, line: string, calls: seq<Terraform.Call>, writeError: Option<string>): LoadRun {
    if envFile.result.Failure? then LoadRun(Failure(EnvFileWritingFailed(envFile.result.error)), envFile.disk, calls, [])
    else
      var path := envFile.result.value;
      LoadRun(
        if writeError.Some? then Failure(EnvFileWritingFailed(FileSystemError(path, writeError.value))) else Success(()),
        envFile.disk, calls, [(path, line)])
  }

  /** The env file's writer: what it was given, and the error writing fails with, if any. */
  class EnvWriter {
    const writeError: Option<string>
    var writes: seq<(Paths.Path, string)>

    constructor (writeError: Option<string>)
      ensures this.writeError == writeError && writes == []
    {
      this.writeError := writeError;
      writes := [];
    }

    /** `writeln!(env_file, ...)`: the line and its newline. */
    method Write(path: Paths.Path, text: string) returns (r: Result<(), string>)
      modifies this
      ensures writes == old(writes) + [(path, text)]
      ensures writeError.Some? ==> r == Failure(writeError.value)
      ensures writeError.None? ==> r == Success(())
    {
      writes := writes + [(path, text)];
      if writeError.Some? {
        r := Failure(writeError.value);
      } else {
        r := Success(());
      }
    }
  }

  // ---- what `load` promises ----

  /** How many visited softwares met the fate `f`. */
  function Count(fates: seq<Fate>, f: Fate): (n: nat)
    ensures n <= |fates|
  {
    if fates == [] then 0
    else Count(fates[..|fates| - 1], f) + (if fates[|fates| - 1] == f then 1 else 0)
  }

  /** The keys of the configured softwares. */
  function Keys(softs: seq<Terraform.Terraform>): set<string> {
    set s | s in softs :: Key(s)
  }

  /** `q` follows `p` by one pass over the software keyed `key`: one more fate, and one more
      entry under `key` in the list that fate names, the other list unchanged. */
  predicate Extends(p: Progress, q: Progress, key: string) {
    |q.fates| == |p.fates| + 1 && q.fates[..|p.fates|] == p.fates
    && (q.fates[|p.fates|] == NotInstalled ==>
          |q.installErrs| == |p.installErrs| + 1 && q.installErrs[..|p.installErrs|] == p.installErrs
          && q.installErrs[|p.installErrs|].0 == key)
    && (q.fates[|p.fates|] != NotInstalled ==> q.installErrs == p.installErrs)
    && (q.fates[|p.fates|] == NotLinked ==>
          |q.symlinkErrs| == |p.symlinkErrs| + 1 && q.symlinkErrs[..|p.symlinkErrs|] == p.symlinkErrs
          && q.symlinkErrs[|p.symlinkErrs|].0 == key)
    && (q.fates[|p.fates|] != NotLinked ==> q.symlinkErrs == p.symlinkErrs)
  }

  lemma LinkStepAccounts(c: Context, p: Progress, s: Terraform.Terraform, run: Terraform.Run, tried: seq<Terraform.Terraform>)
    ensures Extends(p, LinkStep(c, p, s, run, tried), Key(s))
  {
  }

  /** The first components of a list of pairs, in order. */
  function Firsts<A, B>(pairs: seq<(A, B)>): seq<A> {
    if pairs == [] then [] else Firsts(pairs[..|pairs| - 1]) + [pairs[|pairs| - 1].0]
  }

  /** The keys of the softwares that met the fate `f`, in the order they were visited. */
  function FatedKeys(fates: seq<Fate>, softs: seq<Terraform.Terraform>, f: Fate): seq<string>
    requires |fates| == |softs|
  {
    if fates == [] then []
    else
      var n := |fates| - 1;
      FatedKeys(fates[..n], softs[..n], f) + (if fates[n] == f then [Key(softs[n])] else [])
  }

  /** The counts and keys a loop state owes to the softwares visited so far: the software at
      index `i` met `fates[i]`, and each list holds, in visiting order, exactly the keys of
      the softwares that met its fate. */
  predicate Accounted(q: Progress, softs: seq<Terraform.Terraform>) {
    |q.fates| == |softs|
    && Firsts(q.installErrs) == FatedKeys(q.fates, softs, NotInstalled)
    && Firsts(q.symlinkErrs) == FatedKeys(q.fates, softs, NotLinked)
    && |q.installErrs| == Count(q.fates, NotInstalled)
    && |q.symlinkErrs| == Count(q.fates, NotLinked)
    && (forall e :: e in q.installErrs ==> e.0 in Keys(softs))
    && (forall e :: e in q.symlinkErrs ==> e.0 in Keys(softs))
  }

  lemma ExtendsAccounted(p: Progress, q: Progress, init: seq<Terraform.Terraform>, s: Terraform.Terraform)
    requires Accounted(p, init) && Extends(p, q, Key(s))
    ensures Accounted(q, init + [s])
  {
    var softs := init + [s];
    assert q.fates == p.fates + [q.fates[|p.fates|]];
    ExtendsCounts(p, q, init, s);
    FatedKeysSnoc(p.fates, init, q.fates[|p.fates|], s, NotInstalled);
    FatedKeysSnoc(p.fates, init, q.fates[|p.fates|], s, NotLinked);
    if q.fates[|p.fates|] == NotInstalled {
      FirstsSnoc(p.installErrs, q.installErrs[|p.installErrs|]);
      assert q.installErrs == p.installErrs + [q.installErrs[|p.installErrs|]];
    }
    if q.fates[|p.fates|] == NotLinked {
      FirstsSnoc(p.symlinkErrs, q.symlinkErrs[|p.symlinkErrs|]);
      assert q.symlinkErrs == p.symlinkErrs + [q.symlinkErrs[|p.symlinkErrs|]];
    }
  }

  /** The counts and the key membership of `Accounted`, one pass further. */
  lemma ExtendsCounts(p: Progress, q: Progress, init: seq<Terraform.Terraform>, s: Terraform.Terraform)
    requires Accounted(p, init) && Extends(p, q, Key(s))
    ensures |q.installErrs| == Count(q.fates, NotInstalled) && |q.symlinkErrs| == Count(q.fates, NotLinked)
    ensures forall e :: e in q.installErrs ==> e.0 in Keys(init + [s])
    ensures forall e :: e in q.symlinkErrs ==> e.0 in Keys(init + [s])
  {
    var softs := init + [s];
    assert q.fates[..|q.fates| - 1] == p.fates;
    assert Keys(init) <= Keys(softs) && Key(s) in Keys(softs);
    if q.fates[|p.fates|] == NotInstalled {
      assert q.installErrs == p.installErrs + [q.installErrs[|p.installErrs|]];
    }
    if q.fates[|p.fates|] == NotLinked {
      assert q.symlinkErrs == p.symlinkErrs + [q.symlinkErrs[|p.symlinkErrs|]];
    }
  }

  lemma FirstsSnoc<A, B>(pairs: seq<(A, B)>, last: (A, B))
    ensures Firsts(pairs + [last]) == Firsts(pairs) + [last.0]
  {
    assert (pairs + [last])[..|pairs|] == pairs;
  }

  lemma FatedKeysSnoc(fates: seq<Fate>, softs: seq<Terraform.Terraform>, x: Fate, s: Terraform.Terraform, f: Fate)
    requires |fates| == |softs|
    ensures FatedKeys(fates + [x], softs + [s], f) == FatedKeys(fates, softs, f) + (if x == f then [Key(s)] else [])
  {
    assert (fates + [x])[..|fates|] == fates;
    assert (softs + [s])[..|softs|] == softs;
  }

  /** Every software is visited, none twice: each fate is counted once, the install errors
      are listed under the keys of the softwares that could not be installed and the symlink
      errors under those of the softwares that could not be linked, in configuration order. */
  lemma {:induction false} LoopAccounts(c: Context, disk: Disk, softs: seq<Terraform.Terraform>)
    ensures Accounted(LoopSpec(c, disk, softs), softs)
  {
    if softs != [] {
      var init, s := softs[..|softs| - 1], softs[|softs| - 1];
      assert init + [s] == softs;
      var p := LoopSpec(c, disk, init);
      LoopAccounts(c, disk, init);
      var installed := IsDir(p.disk, SoftwareDirpath(c.denv, Terraform.SoftwareName, s.version));
      var tried := if installed then p.installedFor else p.installedFor + [s];
      var run := InstallStep(c, p.disk, s);
      LinkStepAccounts(c, p, s, run, tried);
      assert LoopSpec(c, disk, softs) == StepSpec(c, p, s);
      assert StepSpec(c, p, s) == LinkStep(c, p, s, run, tried);
      ExtendsAccounted(p, LinkStep(c, p, s, run, tried), init, s);
    }
  }

  /** Two softwares, the first failing to install and the second failing to link: each
      list holds one error, under that software's own key. */
  lemma FailuresListedUnderOwnKeys(c: Context, disk: Disk, a: Terraform.Terraform, b: Terraform.Terraform)
    requires LoopSpec(c, disk, [a, b]).fates == [NotInstalled, NotLinked]
    ensures var q := LoopSpec(c, disk, [a, b]);
      |q.installErrs| == 1 && q.installErrs[0].0 == Key(a)
      && |q.symlinkErrs| == 1 && q.symlinkErrs[0].0 == Key(b)
  {
    LoopAccounts(c, disk, [a, b]);
    AccountedTwo(LoopSpec(c, disk, [a, b]), a, b);
  }

  lemma AccountedTwo(q: Progress, a: Terraform.Terraform, b: Terraform.Terraform)
    requires Accounted(q, [a, b]) && q.fates == [NotInstalled, NotLinked]
    ensures |q.installErrs| == 1 && q.installErrs[0].0 == Key(a)
    ensures |q.symlinkErrs| == 1 && q.symlinkErrs[0].0 == Key(b)
  {
    assert [a, b] == [a] + [b] && q.fates == [NotInstalled] + [NotLinked];
    assert [a] == [] + [a] && [NotInstalled] == [] + [NotInstalled];
    FatedKeysSnoc([], [], NotInstalled, a, NotInstalled);
    FatedKeysSnoc([], [], NotInstalled, a, NotLinked);
    FatedKeysSnoc([NotInstalled], [a], NotLinked, b, NotInstalled);
    FatedKeysSnoc([NotInstalled], [a], NotLinked, b, NotLinked);
    assert FatedKeys(q.fates, [a, b], NotInstalled) == [Key(a)];
    assert FatedKeys(q.fates, [a, b], NotLinked) == [Key(b)];
    FirstsOfOne(q.installErrs);
    FirstsOfOne(q.symlinkErrs);
  }

  /** A list of pairs with one first component holds one pair. */
  lemma FirstsOfOne<A, B>(pairs: seq<(A, B)>)
    requires |Firsts(pairs)| == 1
    ensures |pairs| == 1 && Firsts(pairs) == [pairs[0].0]
  {
    if |pairs| > 1 {
      FirstsLength(pairs);
    }
  }

  lemma {:induction false} FirstsLength<A, B>(pairs: seq<(A, B)>)
    ensures |Firsts(pairs)| == |pairs|
  {
    if pairs != [] {
      FirstsLength(pairs[..|pairs| - 1]);
    }
  }

  /** Consequently the two lists and the loaded softwares together number the softwares,
      and the lists are empty exactly when every software was loaded. */
  lemma ListsEmptyIffAllLoaded(c: Context, disk: Disk, softs: seq<Terraform.Terraform>)
    ensures var q := LoopSpec(c, disk, softs);
      |q.installErrs| + |q.symlinkErrs| + Count(q.fates, Loaded) == |softs|
      && (q.installErrs == [] && q.symlinkErrs == [] <==> Count(q.fates, Loaded) == |softs|)
  {
    LoopAccounts(c, disk, softs);
    CountsAddUp(LoopSpec(c, disk, softs).fates);
  }

  lemma {:induction false} CountsAddUp(fates: seq<Fate>)
    ensures Count(fates, NotInstalled) + Count(fates, NotLinked) + Count(fates, Loaded) == |fates|
  {
    if fates != [] {
      CountsAddUp(fates[..|fates| - 1]);
    }
  }

  /** `install` is called only for a software that is not installed at its turn; one that is
      installed causes no download and no unzip. */
  lemma InstallOnlyWhenMissing(c: Context, p: Progress, s: Terraform.Terraform)
    ensures var installed := IsDir(p.disk, SoftwareDirpath(c.denv, Terraform.SoftwareName, s.version));
      var q := StepSpec(c, p, s);
      (installed ==> q.installedFor == p.installedFor && q.calls == p.calls)
      && (!installed ==> q.installedFor == p.installedFor + [s])
  {
    var installed := IsDir(p.disk, SoftwareDirpath(c.denv, Terraform.SoftwareName, s.version));
    var tried := if installed then p.installedFor else p.installedFor + [s];
    LinkStepKeeps(c, p, s, InstallStep(c, p.disk, s), tried);
  }

  /** A pass records the install attempts and the calls it is given. */
  lemma LinkStepKeeps(c: Context, p: Progress, s: Terraform.Terraform, run: Terraform.Run, tried: seq<Terraform.Terraform>)
    ensures LinkStep(c, p, s, run, tried).installedFor == tried
    ensures LinkStep(c, p, s, run, tried).calls == p.calls + run.calls
  {
  }

  /** A software whose installation failed is not linked: the disk is as the installation
      left it and the error is listed under its key. */
  lemma NoSymlinkAfterInstallFailure(c: Context, p: Progress, s: Terraform.Terraform)
    requires InstallStep(c, p.disk, s).result.Failure?
    ensures var q := StepSpec(c, p, s);
      q.disk == InstallStep(c, p.disk, s).disk
      && q.installErrs == p.installErrs + [(Key(s), InstallStep(c, p.disk, s).result.error)]
      && q.symlinkErrs == p.symlinkErrs
  {
  }

  /** Any error in the loop makes `load` fail with both lists, before the env file is opened:
      the disk is as the loop left it and nothing is written. */
  lemma InstallFailedBeforeEnvFile(c: Context, disk: Disk, softs: seq<Terraform.Terraform>, writeError: Option<string>)
    ensures var q := LoopSpec(c, disk, softs); var l := LoadSpec(c, disk, softs, writeError);
      (l.result.Failure? && l.result.error.InstallFailed?) <==> (q.installErrs != [] || q.symlinkErrs != [])
    ensures var q := LoopSpec(c, disk, softs); var l := LoadSpec(c, disk, softs, writeError);
      (q.installErrs != [] || q.symlinkErrs != []) ==>
        l == LoadRun(Failure(InstallFailed(q.installErrs, q.symlinkErrs)), q.disk, q.calls, [])
  {
  }

  /** After a clean loop, the env file of the environment receives exactly one line, the
      `PATH` export, whether or not the write then fails. */
  lemma CleanLoopWritesPathLine(c: Context, disk: Disk, softs: seq<Terraform.Terraform>, writeError: Option<string>)
    requires LoadSpec(c, disk, softs, writeError).writes != []
    ensures LoadSpec(c, disk, softs, writeError).writes == [(EnvFilepath(c.denv, c.id), EnvLine(EnvDirpath(c.denv, c.id)))]
    ensures var q := LoopSpec(c, disk, softs); q.installErrs == [] && q.symlinkErrs == []
  {
  }

  /** `load` succeeds exactly when every software is loaded, the env file opens and the
      write succeeds. */
  lemma LoadSucceeds(c: Context, disk: Disk, softs: seq<Terraform.Terraform>, writeError: Option<string>)
    ensures var q := LoopSpec(c, disk, softs);
      LoadSpec(c, disk, softs, writeError).result.Success? <==>
        Count(q.fates, Loaded) == |softs|
        && OpenFileSpec(q.disk, EnvFilepath(c.denv, c.id)).result.Success?
        && writeError.None?
  {
    ListsEmptyIffAllLoaded(c, disk, softs);
  }

  /** The env file's errors: one it cannot be opened with, or the write's error tagged with
      the env file's path. */
  lemma EnvFileErrors(c: Context, disk: Disk, softs: seq<Terraform.Terraform>, writeError: Option<string>)
    requires var q := LoopSpec(c, disk, softs); q.installErrs == [] && q.symlinkErrs == []
    ensures var q := LoopSpec(c, disk, softs); var o := OpenFileSpec(q.disk, EnvFilepath(c.denv, c.id));
      var l := LoadSpec(c, disk, softs, writeError);
      (o.result.Failure? ==> l.result == Failure(EnvFileWritingFailed(o.result.error)))
      && (o.result.Success? && writeError.Some? ==>
            l.result == Failure(EnvFileWritingFailed(FileSystemError(EnvFilepath(c.denv, c.id), writeError.value))))
  {
  }

  /** `Environment::load(cfg)` over the configured softwares. */
  method Load(env: Environment, softs: seq<Terraform.Terraform>, platform: Terraform.Platform,
              fs: DefaultFileSystem, tools: Terraform.Tools, out: EnvWriter)
    returns (r: Result<(), EnvironmentLoadError>)
    requires fs.Valid()
    modifies fs, tools, out
    ensures fs.Valid()
    ensures var s := LoadSpec(Context(env.id, platform, fs.denvDirpath, fs.tmpDirpath, tools.oracle), old(fs.disk), softs, out.writeError);
      r == s.result && fs.disk == s.disk && tools.calls == old(tools.calls) + s.calls && out.writes == old(out.writes) + s.writes
  {
    ghost var c := Context(env.id, platform, fs.denvDirpath, fs.tmpDirpath, tools.oracle);
    ghost var disk0 := fs.disk;
    ghost var calls0 := tools.calls;
    var installErrs: seq<(string, InstallError)> := [];
    var symlinkErrs: seq<(string, FileSystemError)> := [];
    for i := 0 to |softs|
      invariant fs.Valid()
      invariant var p := LoopSpec(c, disk0, softs[..i]);
        fs.disk == p.disk && tools.calls == calls0 + p.calls && installErrs == p.installErrs && symlinkErrs == p.symlinkErrs
      invariant out.writes == old(out.writes)
    {
      ghost var p := LoopSpec(c, disk0, softs[..i]);
      assert softs[..i + 1][..i] == softs[..i];
      assert LoopSpec(c, disk0, softs[..i + 1]) == StepSpec(c, p, softs[i]);
      StepCalls(c, p, softs[i]);
      ghost var before := tools.calls;
      installErrs, symlinkErrs := LoadOne(env, softs[i], platform, fs, tools, p, installErrs, symlinkErrs);
      assert tools.calls == before + InstallStep(c, p.disk, softs[i]).calls;
      Associative(calls0, p.calls, InstallStep(c, p.disk, softs[i]).calls);
    }
    assert softs[..|softs|] == softs;
    ghost var p := LoopSpec(c, disk0, softs);
    if installErrs != [] || symlinkErrs != [] {
      return Failure(InstallFailed(installErrs, symlinkErrs));
    }
    r := WriteEnvFile(env, fs, out, p.calls);
  }

  /** One pass of the loop for the software `s`, from the state `p`. */
  method LoadOne(env: Environment, s: Terraform.Terraform, platform: Terraform.Platform,
                 fs: DefaultFileSystem, tools: Terraform.Tools, ghost p: Progress,
                 installErrs: seq<(string, InstallError)>, symlinkErrs: seq<(string, FileSystemError)>)
    returns (ie: seq<(string, InstallError)>, se: seq<(string, FileSystemError)>)
    requires fs.Valid() && fs.disk == p.disk && installErrs == p.installErrs && symlinkErrs == p.symlinkErrs
    modifies fs, tools
    ensures fs.Valid()
    ensures var c := Context(env.id, platform, fs.denvDirpath, fs.tmpDirpath, tools.oracle); var q := StepSpec(c, p, s);
      fs.disk == q.disk && ie == q.installErrs && se == q.symlinkErrs
      && tools.calls == old(tools.calls) + InstallStep(c, p.disk, s).calls
  {
    ie, se := installErrs, symlinkErrs;
    var installed := fs.IsInstalledSoftware(Terraform.SoftwareName, s.version);
    if !installed {
      var res := Terraform.Install(s, platform, fs, tools);
      if res.Failure? {
        ie := ie + [(Key(s), res.error)];
        return;
      }
    }
    var link := fs.CreateBinSymlink(env.id, Terraform.SoftwareName, s.version);
    if link.Failure? {
      se := se + [(Key(s), link.error)];
    }
  }

  /** The pass's downloader and unzipper calls are those of its install step. */
  lemma StepCalls(c: Context, p: Progress, s: Terraform.Terraform)
    ensures StepSpec(c, p, s).calls == p.calls + InstallStep(c, p.disk, s).calls
  {
  }

  /** The end of `load` once both lists are empty: the env file opened, its line written. */
  method WriteEnvFile(env: Environment, fs: DefaultFileSystem, out: EnvWriter, ghost calls: seq<Terraform.Call>)
    returns (r: Result<(), EnvironmentLoadError>)
    requires fs.Valid()
    modifies fs, out
    ensures fs.Valid()
    ensures var w := WriteSpec(OpenFileSpec(old(fs.disk), EnvFilepath(fs.denvDirpath, env.id)), EnvLine(EnvDirpath(fs.denvDirpath, env.id)), calls, out.writeError);
      r == w.result && fs.disk == w.disk && out.writes == old(out.writes) + w.writes
  {
    var envFile := fs.CreateEnvFile(env.id);
    if envFile.Failure? {
      return Failure(EnvFileWritingFailed(envFile.error));
    }
    var written := out.Write(envFile.value, EnvLine(EnvDirpath(fs.denvDirpath, env.id)));
    if written.Failure? {
      return Failure(EnvFileWritingFailed(FileSystemError(envFile.value, written.error)));
    }
    r := Success(());
  }
}
