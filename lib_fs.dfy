/** The on-disk layout and the file-system operations of the older library
    (denv_lib/src/internal/fs.rs).

    The disk is a map from paths to nodes: directories, regular files with their permission
    bits, and symbolic links with their target. The standard-library calls the source makes
    (`create_dir_all`, `OpenOptions::open`, `set_permissions`, `remove_file`, `symlink`) are
    specification functions on that map, each failing with the text of the `io::Error` the
    operating system reports. `DefaultFileSystem` is a class over the disk; each of its methods
    is proved against a specification function of the old disk, and the lemmas state what
    those functions promise. */
module LibFs {
  import opened Results
  import opened Paths
  import opened LibError

  // ---- the layout ----

  const SoftwaresDirname: string := "softwares"
  const EnvironmentsDirname: string := "environments"
  const EnvFilename: string := "env"

  /** `software_dirpath!`: `{denv}/softwares/{name}/{version}`. */
  function SoftwareDirpath(denv: Path, name: string, version: string): Path {
    Join(Join(Join(denv, SoftwaresDirname), name), version)
  }

  /** `software_bin_filepath!`: the software directory joined with the software name. */
  function SoftwareBinFilepath(denv: Path, name: string, version: string): Path {
    Join(SoftwareDirpath(denv, name, version), name)
  }

  /** `env_dirpath!`: `{denv}/environments/{env_id}`. */
  function EnvDirpath(denv: Path, envId: string): Path {
    Join(Join(denv, EnvironmentsDirname), envId)
  }

  function EnvFilepath(denv: Path, envId: string): Path {
    Join(EnvDirpath(denv, envId), EnvFilename)
  }

  /** A single path component: not empty, no separator. */
  predicate Component(s: string) {
    s != [] && '/' !in s
  }

  /** A directory path components can be joined to with one separator. */
  predicate Base(p: Path) {
    p != [] && p[|p| - 1] != '/'
  }

  lemma JoinComponent(base: Path, c: string)
    requires Base(base) && Component(c)
    ensures Join(base, c) == base + "/" + c
    ensures Base(Join(base, c))
    ensures Parent(Join(base, c)) == Some(base)
  {
    var p := base + "/" + c;
    assert !IsAbsolute(c) by { assert c[0] in c; }
    assert p[|base|] == '/';
    assert p[|base| + 1..] == c;
    assert p[|p| - 1] == c[|c| - 1] by { assert c[|c| - 1] in c; }
    LastSlashAfter(base, c);
  }

  /** With plain components, the layout is the one the source describes, and the binary, the
      env file and the symlink sit directly in the directory they belong to. */
  lemma LayoutShape(denv: Path, name: string, version: string, envId: string)
    requires Base(denv) && Component(name) && Component(version) && Component(envId)
    ensures SoftwareDirpath(denv, name, version)
      == denv + "/" + SoftwaresDirname + "/" + name + "/" + version
    ensures EnvDirpath(denv, envId) == denv + "/" + EnvironmentsDirname + "/" + envId
    ensures Parent(SoftwareBinFilepath(denv, name, version)) == Some(SoftwareDirpath(denv, name, version))
    ensures Parent(EnvFilepath(denv, envId)) == Some(EnvDirpath(denv, envId))
    ensures Parent(Join(EnvDirpath(denv, envId), name)) == Some(EnvDirpath(denv, envId))
  {
    assert Component(SoftwaresDirname) && Component(EnvironmentsDirname) && Component(EnvFilename);
    JoinComponent(denv, SoftwaresDirname);
    JoinComponent(denv + "/" + SoftwaresDirname, name);
    JoinComponent(denv + "/" + SoftwaresDirname + "/" + name, version);
    var soft := SoftwareDirpath(denv, name, version);
    JoinComponent(soft, name);
    JoinComponent(denv, EnvironmentsDirname);
    JoinComponent(denv + "/" + EnvironmentsDirname, envId);
    var env := EnvDirpath(denv, envId);
    JoinComponent(env, EnvFilename);
    JoinComponent(env, name);
  }

  /** Software directories and environment directories never meet: they sit under two
      different directories of the denv directory, so no symlink an environment holds is a
      software's binary. */
  lemma LayoutDisjoint(denv: Path, name: string, version: string, envId: string, entry: string)
    requires Base(denv) && Component(name) && Component(version) && Component(envId)
    requires Component(entry)
    ensures SoftwareDirpath(denv, name, version) != EnvDirpath(denv, envId)
    ensures SoftwareBinFilepath(denv, name, version) != Join(EnvDirpath(denv, envId), entry)
  {
    LayoutShape(denv, name, version, envId);
    var soft := SoftwareDirpath(denv, name, version);
    var env := EnvDirpath(denv, envId);
    var n := |denv| + 1;
    var softPrefix := denv + "/" + SoftwaresDirname;
    var envPrefix := denv + "/" + EnvironmentsDirname;
    assert softPrefix[n] == 's' && envPrefix[n] == 'e';
    assert soft[n] == 's';
    assert env[n] == 'e';
    JoinComponent(soft, name);
    JoinComponent(env, entry);
    assert SoftwareBinFilepath(denv, name, version)[n] == 's';
    assert Join(env, entry)[n] == 'e';
  }

  // ---- paths and parents ----

  /** The position of the last `c` in `s`. */
  function LastIndex(s: string, c: char): (i: nat)
    requires c in s
    ensures i < |s| && s[i] == c && c !in s[i + 1..]
  {
    if s[|s| - 1] == c then |s| - 1
    else
      assert c in s[..|s| - 1] by {
        var k :| 0 <= k < |s| && s[k] == c;
        assert s[..|s| - 1][k] == c;
      }
      var i := LastIndex(s[..|s| - 1], c);
      assert s[i + 1..] == s[..|s| - 1][i + 1..] + [s[|s| - 1]];
      i
  }

  /** `Path::parent` on a path written without `.`, `..` or repeated separators: nothing for
      the root and the empty path, the empty path (the working directory) for a single
      relative component, otherwise everything before the last separator. */
  function Parent(p: Path): Option<Path> {
    if p == "" || p == "/" then None
    else if '/' !in p then Some("")
    else
      var i := LastIndex(p, '/');
      if i == 0 then Some("/") else Some(p[..i])
  }

  /** The parent is shorter than the path; only the empty path and the root have none. */
  lemma ParentShape(p: Path)
    ensures Parent(p).Some? ==> |Parent(p).value| < |p|
    ensures Parent(p).None? <==> p == "" || p == "/"
  {
  }

  lemma LastSlashAfter(base: Path, c: string)
    requires Base(base) && Component(c)
    ensures Parent(base + "/" + c) == Some(base)
  {
    var p := base + "/" + c;
    assert '/' in p by { assert p[|base|] == '/'; }
    assert p[|base| + 1..] == c;
    LastIndexIs(p, '/', |base|);
    assert p[..|base|] == base;
  }

  /** The last `c` is the one with no `c` after it. */
  lemma LastIndexIs(s: string, c: char, k: nat)
    requires k < |s| && s[k] == c && c !in s[k + 1..]
    ensures LastIndex(s, c) == k
  {
  }

  // ---- the disk ----

  /** Permission bits: 0o755 (`rwxr-xr-x`) and 0o644 (`rw-r--r--`, what a new file gets
      under the usual umask). */
  const ExecutableMode: nat := 493
  const NewFileMode: nat := 420

  datatype Node = Dir | File(mode: nat) | Link(target: Path)

  type Disk = map<Path, Node>

  const NotFound: string := "No such file or directory (os error 2)"
  const FileExists: string := "File exists (os error 17)"
  const NotADirectory: string := "Not a directory (os error 20)"
  const IsADirectory: string := "Is a directory (os error 21)"
  const WholeTreeFailed: string := "failed to create whole tree"

  predicate IsDir(disk: Disk, p: Path) {
    p in disk && disk[p].Dir?
  }

  /** A parent new entries can be made in: a directory, or the working directory. */
  predicate Ready(disk: Disk, q: Path) {
    q == "" || IsDir(disk, q)
  }

  /** Every disk the operations see: the root is a directory and every other entry sits in a
      directory. */
  predicate WellFormed(disk: Disk) {
    IsDir(disk, "/")
    && forall p :: p in disk && p != "/" ==> Parent(p).Some? && Ready(disk, Parent(p).value)
  }

  /** The outcome of a standard-library call: the error text if it failed, and the disk after. */
  datatype Io = Io(error: Option<string>, disk: Disk)

  /** Making a new entry at `p` (`mkdir`, `open` with `create`, `symlink`): it fails when `p`
      exists or its parent is missing or not a directory. */
  function Create(disk: Disk, p: Path, node: Node): (io: Io)
    ensures io.error.None? <==> p !in disk && Parent(p).Some? && Ready(disk, Parent(p).value)
    ensures io.error.None? ==> io.disk == disk[p := node]
    ensures io.error.Some? ==> io.disk == disk
  {
    if p in disk then Io(Some(FileExists), disk)
    else match Parent(p)
      case None => Io(Some(NotFound), disk)
      case Some(q) =>
        if Ready(disk, q) then Io(None, disk[p := node])
        else if q in disk then Io(Some(NotADirectory), disk)
        else Io(Some(NotFound), disk)
  }

  /** `std::fs::create_dir_all`: nothing to do for the empty path; otherwise `mkdir`, and when
      that reports a missing parent, create the parent the same way and `mkdir` again; a
      failed `mkdir` is forgiven when the path is a directory by then. */
  function DirAll(disk: Disk, p: Path): Io
    decreases |p|
  {
    if p == "" then Io(None, disk)
    else
      var m := Create(disk, p, Dir);
      if m.error.None? then m
      else if m.error != Some(NotFound) then Forgive(disk, p, m)
      else match Parent(p)
        case None => Io(Some(WholeTreeFailed), disk)
        case Some(q) => Retry(DirAll(disk, q), p)
  }

  /** The second `mkdir`, once the parent was made. */
  function Retry(parent: Io, p: Path): Io {
    if parent.error.Some? then parent else Forgive(parent.disk, p, Create(parent.disk, p, Dir))
  }

  /** `Err(_) if path.is_dir() => Ok(())`. */
  function Forgive(disk: Disk, p: Path, m: Io): Io {
    if m.error.Some? && IsDir(disk, p) then Io(None, disk) else m
  }

  /** `p` cannot be made a directory: it, or one of its ancestors, exists and is not a
      directory. */
  predicate Blocked(disk: Disk, p: Path)
    decreases |p|
  {
    (p in disk && !disk[p].Dir?) || (Parent(p).Some? && Blocked(disk, Parent(p).value))
  }

  /** On a directory `create_dir_all` changes nothing: `ensure_dir!`'s own check only saves
      the call. */
  lemma DirAllOnDir(disk: Disk, p: Path)
    requires IsDir(disk, p)
    ensures DirAll(disk, p) == Io(None, disk)
  {
  }

  /** `after` keeps every entry of `before` and adds only directories whose paths are at most
      `n` long. */
  predicate Grows(before: Disk, after: Disk, n: nat) {
    (forall x :: x in before ==> x in after && after[x] == before[x])
    && (forall x :: x in after && x !in before ==> after[x] == Dir && |x| <= n)
  }

  lemma GrowsTrans(a: Disk, b: Disk, c: Disk, n: nat, m: nat)
    requires Grows(a, b, n) && Grows(b, c, m) && n <= m
    ensures Grows(a, c, m)
  {
  }

  lemma GrowsRefl(disk: Disk, n: nat)
    ensures Grows(disk, disk, n)
  {
  }

  /** A `mkdir` adds at most the directory it makes. */
  lemma CreateDirGrows(disk: Disk, p: Path)
    ensures Grows(disk, Create(disk, p, Dir).disk, |p|)
  {
    var m := Create(disk, p, Dir);
    if m.error.None? {
      assert m.disk == disk[p := Dir];
      assert forall x :: x in m.disk && x !in disk ==> x == p;
    } else {
      GrowsRefl(disk, |p|);
    }
  }

  /** A forgiven `mkdir` keeps the disk of the call or the one before it. */
  lemma ForgiveGrows(disk: Disk, p: Path)
    ensures Grows(disk, Forgive(disk, p, Create(disk, p, Dir)).disk, |p|)
  {
    CreateDirGrows(disk, p);
    GrowsRefl(disk, |p|);
  }

  lemma RetryGrows(disk: Disk, a: Io, p: Path, n: nat)
    requires Grows(disk, a.disk, n) && n <= |p|
    ensures Grows(disk, Retry(a, p).disk, |p|)
  {
    if a.error.None? {
      ForgiveGrows(a.disk, p);
      GrowsTrans(disk, a.disk, Retry(a, p).disk, n, |p|);
    }
  }

  /** `create_dir_all` only adds directories, the path and directories above it. */
  lemma {:induction false} DirAllExtends(disk: Disk, p: Path)
    ensures Grows(disk, DirAll(disk, p).disk, |p|)
    decreases |p|
  {
    var m := Create(disk, p, Dir);
    if p == "" || (m.error == Some(NotFound) && Parent(p).None?) {
      GrowsRefl(disk, |p|);
    } else if m.error == Some(NotFound) {
      var q := Parent(p).value;
      assert DirAll(disk, p) == Retry(DirAll(disk, q), p);
      DirAllExtends(disk, q);
      RetryGrows(disk, DirAll(disk, q), p, |q|);
    } else {
      assert DirAll(disk, p) == Forgive(disk, p, m);
      ForgiveGrows(disk, p);
    }
  }

  /** A failed `create_dir_all` changes nothing: once the parent is made, the second `mkdir`
      cannot fail. */
  lemma {:induction false} DirAllFailureUnchanged(disk: Disk, p: Path)
    requires DirAll(disk, p).error.Some?
    ensures DirAll(disk, p).disk == disk
    decreases |p|
  {
    if p != "" {
      var m := Create(disk, p, Dir);
      if m.error == Some(NotFound) && Parent(p).Some? {
        var q := Parent(p).value;
        var a := DirAll(disk, q);
        if a.error.Some? {
          DirAllFailureUnchanged(disk, q);
        } else {
          DirAllExtends(disk, q);
          if q != "" {
            DirAllMakesDir(disk, q);
          }
          assert false;
        }
      }
    }
  }

  /** On success the path is a directory. */
  lemma {:induction false} DirAllMakesDir(disk: Disk, p: Path)
    requires p != ""
    requires DirAll(disk, p).error.None?
    ensures IsDir(DirAll(disk, p).disk, p)
    decreases |p|
  {
  }

  /** `create_dir_all` keeps the disk well formed. */
  lemma {:induction false} DirAllWellFormed(disk: Disk, p: Path)
    requires WellFormed(disk)
    ensures WellFormed(DirAll(disk, p).disk)
    decreases |p|
  {
    if p != "" {
      var m := Create(disk, p, Dir);
      if m.error.None? {
        CreateWellFormed(disk, p, Dir);
      } else if m.error == Some(NotFound) && Parent(p).Some? {
        var q := Parent(p).value;
        DirAllWellFormed(disk, q);
        CreateWellFormed(DirAll(disk, q).disk, p, Dir);
      }
    }
  }

  lemma CreateWellFormed(disk: Disk, p: Path, node: Node)
    requires WellFormed(disk)
    ensures WellFormed(Create(disk, p, node).disk)
  {
  }

  /** On a well-formed disk, an entry's ancestors are all directories. */
  lemma {:induction false} EntryNotBlocked(disk: Disk, p: Path)
    requires WellFormed(disk) && IsDir(disk, p)
    ensures !Blocked(disk, p)
    decreases |p|
  {
    if p != "/" {
      var q := Parent(p).value;
      if q != "" {
        EntryNotBlocked(disk, q);
      }
    }
  }

  lemma NothingBlocksWorkingDir(disk: Disk)
    requires WellFormed(disk)
    ensures !Blocked(disk, "")
  {
    assert "" !in disk;
  }

  /** `create_dir_all` succeeds exactly when neither the path nor any of its ancestors exists
      as something other than a directory. */
  lemma {:induction false} DirAllSucceeds(disk: Disk, p: Path)
    requires WellFormed(disk)
    ensures DirAll(disk, p).error.None? <==> !Blocked(disk, p)
    decreases |p|
  {
    if p == "" {
      NothingBlocksWorkingDir(disk);
    } else if p in disk {
      if disk[p].Dir? {
        EntryNotBlocked(disk, p);
      }
    } else {
      var q := Parent(p).value;
      if q == "" {
        NothingBlocksWorkingDir(disk);
      } else if IsDir(disk, q) {
        EntryNotBlocked(disk, q);
      } else if q !in disk {
        DirAllSucceeds(disk, q);
        if DirAll(disk, q).error.None? {
          DirAllMakesDir(disk, q);
          DirAllExtends(disk, q);
        }
      }
    }
  }

  /** `OpenOptions::new().create(true).write(true).open(p)`: an existing file (or link) is
      opened as it is, a directory cannot be, and a missing file is made the way `Create`
      makes entries. */
  function Open(disk: Disk, p: Path): (io: Io)
    ensures io.error.Some? ==> io.disk == disk
    ensures io.disk == disk || (p !in disk && io.disk == disk[p := File(NewFileMode)])
  {
    if p in disk then (if disk[p].Dir? then Io(Some(IsADirectory), disk) else Io(None, disk))
    else Create(disk, p, File(NewFileMode))
  }

  /** `metadata` followed by `set_permissions`: the mode of a regular file. A link's target is
      outside the model and keeps its mode. */
  function Chmod(disk: Disk, p: Path, mode: nat): Disk {
    if p in disk && disk[p].File? then disk[p := File(mode)] else disk
  }

  /** What an operation of the file system returns, with the disk after it. */
  datatype Outcome<T> = Outcome(result: Result<T, FileSystemError>, disk: Disk)

  /** `ensure_dir!`: `create_dir_all`, its error tagged with the directory. */
  function EnsureDirSpec(disk: Disk, p: Path): Outcome<()> {
    var io := DirAll(disk, p);
    Outcome(if io.error.Some? then Failure(FileSystemError(p, io.error.value)) else Success(()), io.disk)
  }

  /** `open_file!`: the parent directory ensured first, then the file opened; each failure is
      tagged with the path that failed. */
  function OpenFileSpec(disk: Disk, p: Path): Outcome<Path> {
    var e := if Parent(p).Some? then EnsureDirSpec(disk, Parent(p).value) else Outcome(Success(()), disk);
    if e.result.Failure? then Outcome(Failure(e.result.error), e.disk)
    else
      var io := Open(e.disk, p);
      Outcome(if io.error.Some? then Failure(FileSystemError(p, io.error.value)) else Success(p), io.disk)
  }

  /** `create_bin_file`: the binary opened, then made executable. */
  function BinFileSpec(disk: Disk, denv: Path, name: string, version: string): Outcome<Path> {
    var path := SoftwareBinFilepath(denv, name, version);
    var o := OpenFileSpec(disk, path);
    if o.result.Failure? then o else Outcome(Success(path), Chmod(o.disk, path, ExecutableMode))
  }

  /** `create_bin_symlink`: the environment directory ensured, a link already at
      `{env_dir}/{name}` removed, then the link to the binary made. */
  function BinSymlinkSpec(disk: Disk, denv: Path, envId: string, name: string, version: string): Outcome<()> {
    var src := SoftwareBinFilepath(denv, name, version);
    var destDir := EnvDirpath(denv, envId);
    var e := EnsureDirSpec(disk, destDir);
    if e.result.Failure? then e
    else
      var dest := Join(destDir, name);
      var cleared := if dest in e.disk && e.disk[dest].Link? then e.disk - {dest} else e.disk;
      var io := Create(cleared, dest, Link(src));
      Outcome(if io.error.Some? then Failure(FileSystemError(dest, io.error.value)) else Success(()), io.disk)
  }

  /** `DefaultFileSystem`: the denv directory and the temporary directory it was built with,
      over the disk it changes. */
  class DefaultFileSystem {
    const denvDirpath: Path
    const tmpDirpath: Path
    var disk: Disk

    predicate Valid()
      reads this
    {
      WellFormed(disk)
    }

    /** `DefaultFileSystem::new`; `denv_dirpath()` and `tmp_dirpath()` return what it was
        given. */
    constructor (denvDirpath: Path, tmpDirpath: Path, disk: Disk)
      requires WellFormed(disk)
      ensures Valid()
      ensures this.denvDirpath == denvDirpath && this.tmpDirpath == tmpDirpath && this.disk == disk
    {
      this.denvDirpath := denvDirpath;
      this.tmpDirpath := tmpDirpath;
      this.disk := disk;
    }

    /** `ensure_dir!`: nothing when the path is a directory already, `create_dir_all`
        otherwise. */
    method EnsureDir(p: Path) returns (r: Result<(), FileSystemError>)
      requires Valid()
      modifies this
      ensures Valid()
      ensures r == EnsureDirSpec(old(disk), p).result && disk == EnsureDirSpec(old(disk), p).disk
    {
      if IsDir(disk, p) {
        DirAllOnDir(disk, p);
        r := Success(());
      } else {
        var io := DirAll(disk, p);
        DirAllWellFormed(disk, p);
        disk := io.disk;
        if io.error.Some? {
          r := Failure(FileSystemError(p, io.error.value));
        } else {
          r := Success(());
        }
      }
    }

    /** `open_file!`. */
    method OpenFile(p: Path) returns (r: Result<Path, FileSystemError>)
      requires Valid()
      modifies this
      ensures Valid()
      ensures r == OpenFileSpec(old(disk), p).result && disk == OpenFileSpec(old(disk), p).disk
    {
      var parent := Parent(p);
      if parent.Some? {
        var e := EnsureDir(parent.value);
        if e.Failure? {
          return Failure(e.error);
        }
      }
      var io := Open(disk, p);
      OpenWellFormed(disk, p);
      disk := io.disk;
      if io.error.Some? {
        r := Failure(FileSystemError(p, io.error.value));
      } else {
        r := Success(p);
      }
    }

    /** `create_bin_file`. */
    method CreateBinFile(name: string, version: string) returns (r: Result<Path, FileSystemError>)
      requires Valid()
      modifies this
      ensures Valid()
      ensures r == BinFileSpec(old(disk), denvDirpath, name, version).result
      ensures disk == BinFileSpec(old(disk), denvDirpath, name, version).disk
    {
      var path := SoftwareBinFilepath(denvDirpath, name, version);
      r := OpenFile(path);
      if r.Failure? {
        return;
      }
      disk := Chmod(disk, path, ExecutableMode);
    }

    /** `create_bin_symlink`. */
    method CreateBinSymlink(envId: string, name: string, version: string) returns (r: Result<(), FileSystemError>)
      requires Valid()
      modifies this
      ensures Valid()
      ensures r == BinSymlinkSpec(old(disk), denvDirpath, envId, name, version).result
      ensures disk == BinSymlinkSpec(old(disk), denvDirpath, envId, name, version).disk
    {
      var src := SoftwareBinFilepath(denvDirpath, name, version);
      var destDir := EnvDirpath(denvDirpath, envId);
      r := EnsureDir(destDir);
      if r.Failure? {
        return;
      }
      var dest := Join(destDir, name);
      if dest in disk && disk[dest].Link? {
        RemoveLinkWellFormed(disk, dest);
        disk := disk - {dest};
      }
      var io := Create(disk, dest, Link(src));
      CreateWellFormed(disk, dest, Link(src));
      disk := io.disk;
      if io.error.Some? {
        r := Failure(FileSystemError(dest, io.error.value));
      }
    }

    /** `create_env_file`: `{env_dir}/env`. */
    method CreateEnvFile(envId: string) returns (r: Result<Path, FileSystemError>)
      requires Valid()
      modifies this
      ensures Valid()
      ensures r == OpenFileSpec(old(disk), EnvFilepath(denvDirpath, envId)).result
      ensures disk == OpenFileSpec(old(disk), EnvFilepath(denvDirpath, envId)).disk
    {
      r := OpenFile(EnvFilepath(denvDirpath, envId));
    }

    /** `create_tmp_file`: `{tmp_dir}/{filename}`. */
    method CreateTmpFile(filename: string) returns (r: Result<Path, FileSystemError>)
      requires Valid()
      modifies this
      ensures Valid()
      ensures r == OpenFileSpec(old(disk), Join(tmpDirpath, filename)).result
      ensures disk == OpenFileSpec(old(disk), Join(tmpDirpath, filename)).disk
    {
      r := OpenFile(Join(tmpDirpath, filename));
    }

    /** `is_installed_software`: the software directory is a directory. */
    method IsInstalledSoftware(name: string, version: string) returns (b: bool)
      ensures b <==> IsDir(disk, SoftwareDirpath(denvDirpath, name, version))
    {
      b := IsDir(disk, SoftwareDirpath(denvDirpath, name, version));
    }
  }

  lemma OpenWellFormed(disk: Disk, p: Path)
    requires WellFormed(disk)
    ensures WellFormed(Open(disk, p).disk)
  {
    if p !in disk {
      CreateWellFormed(disk, p, File(NewFileMode));
    }
  }

  /** A link has nothing under it, so removing it keeps the disk well formed. */
  lemma RemoveLinkWellFormed(disk: Disk, p: Path)
    requires WellFormed(disk) && p in disk && disk[p].Link?
    ensures WellFormed(disk - {p})
  {
  }

  /** `open_file!` keeps the disk well formed, whatever it answers. */
  lemma OpenFileWellFormed(disk: Disk, p: Path)
    requires WellFormed(disk)
    ensures WellFormed(OpenFileSpec(disk, p).disk)
  {
    if Parent(p).Some? {
      DirAllWellFormed(disk, Parent(p).value);
      OpenWellFormed(DirAll(disk, Parent(p).value).disk, p);
    } else {
      OpenWellFormed(disk, p);
    }
  }

  // ---- what the operations promise ----

  /** Once the parent is a directory, opening creates or keeps the file, and fails only on a
      directory. */
  lemma OpenInReadyParent(disk: Disk, d: Disk, p: Path)
    requires Parent(p).Some? && Ready(d, Parent(p).value)
    requires Grows(disk, d, |Parent(p).value|)
    ensures p in disk <==> p in d
    ensures Open(d, p).error.None? <==> !IsDir(disk, p)
    ensures Open(d, p).error.None? ==> p in Open(d, p).disk && !Open(d, p).disk[p].Dir?
    ensures IsDir(disk, p) ==> Open(d, p).error == Some(IsADirectory)
  {
    ParentShape(p);
    GrowsOnlyShort(disk, d, p, |Parent(p).value|);
  }

  /** `open_file!` succeeds exactly when the path names something other than a directory
      and no ancestor of it is in the way; it then leaves a file (or the link that was there)
      at the path. */
  lemma OpenFileSucceeds(disk: Disk, p: Path)
    requires WellFormed(disk) && p != "" && p != "/"
    ensures var o := OpenFileSpec(disk, p);
      o.result.Success? <==> !IsDir(disk, p) && !Blocked(disk, Parent(p).value)
    ensures var o := OpenFileSpec(disk, p);
      o.result.Success? ==> o.result.value == p && p in o.disk && !o.disk[p].Dir?
  {
    var q := Parent(p).value;
    DirAllSucceeds(disk, q);
    OpenFileSteps(disk, p);
    var a := DirAll(disk, q);
    if a.error.None? {
      ParentMade(disk, q);
      OpenInReadyParent(disk, a.disk, p);
    }
  }

  /** `open_file!` as its two steps: the parent made, then the file opened. */
  lemma OpenFileSteps(disk: Disk, p: Path)
    requires Parent(p).Some?
    ensures var a := DirAll(disk, Parent(p).value); var o := OpenFileSpec(disk, p);
      (o.result.Success? <==> a.error.None? && Open(a.disk, p).error.None?)
      && (o.result.Success? ==> o.result.value == p && o.disk == Open(a.disk, p).disk)
  {
  }

  /** Opening a directory reports `EISDIR` on that path. */
  lemma OpenFileOnDirectory(disk: Disk, p: Path)
    requires WellFormed(disk) && IsDir(disk, p) && p != "/"
    ensures OpenFileSpec(disk, p).result == Failure(FileSystemError(p, IsADirectory))
  {
    var q := Parent(p).value;
    EntryNotBlocked(disk, p);
    assert !Blocked(disk, q);
    DirAllSucceeds(disk, q);
    var a := DirAll(disk, q);
    ParentMade(disk, q);
    OpenInReadyParent(disk, a.disk, p);
    OpenAfterDirAll(disk, p);
  }

  /** Once the parent is ensured, `open_file!` reports what opening the path reports. */
  lemma OpenAfterDirAll(disk: Disk, p: Path)
    requires Parent(p).Some? && DirAll(disk, Parent(p).value).error.None?
    ensures var io := Open(DirAll(disk, Parent(p).value).disk, p);
      io.error.Some? ==> OpenFileSpec(disk, p).result == Failure(FileSystemError(p, io.error.value))
  {
  }

  lemma ParentMade(disk: Disk, q: Path)
    requires DirAll(disk, q).error.None?
    ensures Ready(DirAll(disk, q).disk, q) && Grows(disk, DirAll(disk, q).disk, |q|)
  {
    DirAllExtends(disk, q);
    if q != "" {
      DirAllMakesDir(disk, q);
    }
  }

  /** The binary of a software sits in the software's directory. */
  lemma BinInSoftwareDir(denv: Path, name: string, version: string)
    requires Base(denv) && Component(name) && Component(version)
    ensures var bin := SoftwareBinFilepath(denv, name, version);
      bin != "" && bin != "/" && Parent(bin) == Some(SoftwareDirpath(denv, name, version))
  {
    LayoutShape(denv, name, version, "e");
  }

  /** A successful `create_bin_file` returns the binary's path and leaves the software
      installed: its directory exists, and a binary it made is executable (0o755). */
  lemma BinFileInstalls(disk: Disk, denv: Path, name: string, version: string)
    requires WellFormed(disk)
    requires Base(denv) && Component(name) && Component(version)
    requires BinFileSpec(disk, denv, name, version).result.Success?
    ensures var bin := SoftwareBinFilepath(denv, name, version); var o := BinFileSpec(disk, denv, name, version);
      o.result.value == bin
      && IsDir(o.disk, SoftwareDirpath(denv, name, version))
      && (bin !in disk ==> o.disk[bin] == File(ExecutableMode))
  {
    var bin := SoftwareBinFilepath(denv, name, version);
    BinInSoftwareDir(denv, name, version);
    ExecutableIn(disk, bin, SoftwareDirpath(denv, name, version));
  }

  /** Opening a file and making it executable, the file's directory made on the way. */
  lemma ExecutableIn(disk: Disk, bin: Path, dir: Path)
    requires Parent(bin) == Some(dir)
    requires OpenFileSpec(disk, bin).result.Success?
    ensures var o := OpenFileSpec(disk, bin); var d := Chmod(o.disk, bin, ExecutableMode);
      o.result.value == bin && (dir != "" ==> IsDir(d, dir)) && (bin !in disk ==> d[bin] == File(ExecutableMode))
  {
    OpenedIn(disk, bin, dir);
    if dir != "" {
      ChmodElsewhere(OpenFileSpec(disk, bin).disk, bin, ExecutableMode, dir);
    }
  }

  /** A successful `open_file!` leaves the file's directory a directory, and a new file at
      the path. */
  lemma OpenedIn(disk: Disk, p: Path, dir: Path)
    requires Parent(p) == Some(dir)
    requires OpenFileSpec(disk, p).result.Success?
    ensures var o := OpenFileSpec(disk, p);
      o.result.value == p && (dir != "" ==> IsDir(o.disk, dir)) && (p !in disk ==> o.disk[p] == File(NewFileMode))
  {
    OpenFileSteps(disk, p);
    var a := DirAll(disk, dir);
    ParentMade(disk, dir);
    OpenInDir(disk, a.disk, p, dir);
  }

  lemma OpenInDir(disk: Disk, d: Disk, p: Path, dir: Path)
    requires Parent(p) == Some(dir) && Ready(d, dir) && Grows(disk, d, |dir|)
    requires Open(d, p).error.None?
    ensures dir != "" ==> IsDir(Open(d, p).disk, dir)
    ensures p !in disk ==> Open(d, p).disk[p] == File(NewFileMode)
  {
    ParentShape(p);
    OpenKeepsDir(d, p, dir);
    GrowsOnlyShort(disk, d, p, |dir|);
  }

  lemma OpenKeepsDir(d: Disk, p: Path, dir: Path)
    requires |dir| < |p| && Ready(d, dir)
    requires Open(d, p).error.None?
    ensures dir != "" ==> IsDir(Open(d, p).disk, dir)
  {
  }

  /** An entry longer than the bound was there before the disk grew. */
  lemma GrowsOnlyShort(disk: Disk, d: Disk, p: Path, n: nat)
    requires Grows(disk, d, n) && n < |p|
    ensures p in d <==> p in disk
  {
  }

  lemma ChmodElsewhere(disk: Disk, p: Path, mode: nat, x: Path)
    requires x != p
    ensures x in Chmod(disk, p, mode) <==> x in disk
    ensures x in disk ==> Chmod(disk, p, mode)[x] == disk[x]
  {
  }

  /** When the denv directory is a regular file nothing can be installed: `create_bin_file`
      fails and the disk is left as it was. */
  lemma BinFileUnderFile(disk: Disk, denv: Path, name: string, version: string)
    requires WellFormed(disk)
    requires Base(denv) && Component(name) && Component(version)
    requires denv in disk && disk[denv].File?
    ensures BinFileSpec(disk, denv, name, version).result.Failure?
    ensures BinFileSpec(disk, denv, name, version).disk == disk
  {
    var bin := SoftwareBinFilepath(denv, name, version);
    var dir := SoftwareDirpath(denv, name, version);
    SoftwareDirUnderDenv(disk, denv, name, version);
    BinInSoftwareDir(denv, name, version);
    BlockedFails(disk, bin, dir);
  }

  /** A software directory is blocked by a denv directory that is not one. */
  lemma SoftwareDirUnderDenv(disk: Disk, denv: Path, name: string, version: string)
    requires Base(denv) && Component(name) && Component(version)
    requires denv in disk && disk[denv].File?
    ensures Blocked(disk, SoftwareDirpath(denv, name, version))
  {
    var softs := denv + "/" + SoftwaresDirname;
    var named := softs + "/" + name;
    assert Component(SoftwaresDirname);
    JoinComponent(denv, SoftwaresDirname);
    JoinComponent(softs, name);
    JoinComponent(named, version);
    assert Blocked(disk, denv);
    assert Blocked(disk, softs);
    assert Blocked(disk, named);
  }

  /** Opening a file whose directory is blocked fails and changes nothing. */
  lemma BlockedFails(disk: Disk, p: Path, dir: Path)
    requires WellFormed(disk) && Parent(p) == Some(dir) && Blocked(disk, dir)
    ensures OpenFileSpec(disk, p).result.Failure? && OpenFileSpec(disk, p).disk == disk
  {
    DirAllSucceeds(disk, dir);
    DirAllFailureUnchanged(disk, dir);
  }

  /** A successful `create_bin_symlink` leaves `{env_dir}/{name}` a link to the binary. */
  lemma BinSymlinkLinks(disk: Disk, denv: Path, envId: string, name: string, version: string)
    requires BinSymlinkSpec(disk, denv, envId, name, version).result.Success?
    ensures var dest := Join(EnvDirpath(denv, envId), name);
      BinSymlinkSpec(disk, denv, envId, name, version).disk
        == BinSymlinkSpec(disk, denv, envId, name, version).disk[dest := Link(SoftwareBinFilepath(denv, name, version))]
    ensures var dest := Join(EnvDirpath(denv, envId), name); var d := BinSymlinkSpec(disk, denv, envId, name, version).disk;
      dest in d && d[dest] == Link(SoftwareBinFilepath(denv, name, version))
  {
  }

  /** A link already at `{env_dir}/{name}`, whatever its target, is replaced by the link to
      the binary. */
  lemma BinSymlinkReplacesLink(disk: Disk, denv: Path, envId: string, name: string, version: string)
    requires WellFormed(disk)
    requires var dest := Join(EnvDirpath(denv, envId), name);
      IsDir(disk, EnvDirpath(denv, envId)) && dest in disk && disk[dest].Link?
    ensures var dest := Join(EnvDirpath(denv, envId), name);
      BinSymlinkSpec(disk, denv, envId, name, version)
        == Outcome(Success(()), disk[dest := Link(SoftwareBinFilepath(denv, name, version))])
  {
    var destDir := EnvDirpath(denv, envId);
    var dest := Join(destDir, name);
    DirAllOnDir(disk, destDir);
    assert dest != "/";
    var q := Parent(dest).value;
    assert q != dest;
    assert Ready(disk - {dest}, q);
    assert (disk - {dest})[dest := Link(SoftwareBinFilepath(denv, name, version))]
      == disk[dest := Link(SoftwareBinFilepath(denv, name, version))];
  }

  /** `create_bin_symlink` can be repeated: after it succeeds, running it again succeeds and
      changes nothing. */
  lemma BinSymlinkRepeatable(disk: Disk, denv: Path, envId: string, name: string, version: string)
    requires WellFormed(disk)
    requires BinSymlinkSpec(disk, denv, envId, name, version).result.Success?
    ensures var d := BinSymlinkSpec(disk, denv, envId, name, version).disk;
      BinSymlinkSpec(d, denv, envId, name, version) == Outcome(Success(()), d)
  {
    var destDir := EnvDirpath(denv, envId);
    var dest := Join(destDir, name);
    var e := EnsureDirSpec(disk, destDir);
    assert destDir != "";
    DirAllMakesDir(disk, destDir);
    DirAllWellFormed(disk, destDir);
    var cleared := if dest in e.disk && e.disk[dest].Link? then e.disk - {dest} else e.disk;
    assert dest != destDir;
    var d := BinSymlinkSpec(disk, denv, envId, name, version).disk;
    BinSymlinkLinks(disk, denv, envId, name, version);
    assert d == cleared[dest := Link(SoftwareBinFilepath(denv, name, version))];
    CreateWellFormed(cleared, dest, Link(SoftwareBinFilepath(denv, name, version)));
    assert WellFormed(cleared) by {
      if dest in e.disk && e.disk[dest].Link? {
        RemoveLinkWellFormed(e.disk, dest);
      }
    }
    BinSymlinkReplacesLink(d, denv, envId, name, version);
  }

  /** A regular file at `{env_dir}/{name}` is not removed: `create_bin_symlink` reports
      `EEXIST` on that path and changes nothing. */
  lemma BinSymlinkRefusesFile(disk: Disk, denv: Path, envId: string, name: string, version: string)
    requires WellFormed(disk)
    requires var dest := Join(EnvDirpath(denv, envId), name);
      IsDir(disk, EnvDirpath(denv, envId)) && dest in disk && disk[dest].File?
    ensures var dest := Join(EnvDirpath(denv, envId), name);
      BinSymlinkSpec(disk, denv, envId, name, version)
        == Outcome(Failure(FileSystemError(dest, FileExists)), disk)
  {
    DirAllOnDir(disk, EnvDirpath(denv, envId));
  }

  /** A successful `create_env_file` leaves the environment directory in place and the env
      file in it. */
  lemma EnvFileCreated(disk: Disk, denv: Path, envId: string)
    requires WellFormed(disk)
    requires Base(denv) && Component(envId)
    requires OpenFileSpec(disk, EnvFilepath(denv, envId)).result.Success?
    ensures var o := OpenFileSpec(disk, EnvFilepath(denv, envId));
      IsDir(o.disk, EnvDirpath(denv, envId)) && EnvFilepath(denv, envId) in o.disk
      && !o.disk[EnvFilepath(denv, envId)].Dir?
  {
    var file := EnvFilepath(denv, envId);
    LayoutShape(denv, "n", "v", envId);
    OpenFileSucceeds(disk, file);
    OpenedIn(disk, file, EnvDirpath(denv, envId));
  }
}
