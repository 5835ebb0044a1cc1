/** Terraform, the one software of the older library (denv_lib/src/software/terraform.rs): the
    release archive chosen for the build target, downloaded into a temporary file, and the
    `terraform` binary unzipped from it into the software's executable file.

    The file system is the library's `DefaultFileSystem` over its disk; the downloader and the
    unzipper are collaborators whose failures come from an oracle and whose calls are recorded.
    Neither writes anything the disk model tracks: file contents are not modelled. */
module Terraform {
  import opened Results
  import opened Paths
  import opened LibError
  import opened LibFs
  import LibSoftware
  import Text

  const SoftwareName: string := "terraform"

  /** `std::env::consts::OS` and `std::env::consts::ARCH` of the build target. */
  datatype Platform = Platform(os: string, arch: string)

  /** `supported_systems!`: the table both unsupported-system errors carry. */
  const SupportedTable: SupportedSystems :=
    map["linux" := {"x86", "x86_64", "arm", "aarch64"}, "macos" := {"x86_64", "aarch64"}]

  /** `arch!`: the release's name of the architecture. */
  function Arch(arch: string): (r: Result<string, InstallError>)
    ensures r.Success? <==> arch in {"x86", "x86_64", "arm", "aarch64"}
    ensures r.Failure? ==> r.error == UnsupportedArch(SupportedTable)
  {
    match arch
    case "x86" => Success("386")
    case "x86_64" => Success("amd64")
    case "arm" => Success("arm")
    case "aarch64" => Success("arm64")
    case _ => Failure(UnsupportedArch(SupportedTable))
  }

  /** `os!`: the release's name of the operating system. */
  function Os(os: string): (r: Result<string, InstallError>)
    ensures r.Success? <==> os in {"macos", "linux"}
    ensures r.Failure? ==> r.error == UnsupportedOs(SupportedTable)
  {
    match os
    case "macos" => Success("darwin")
    case "linux" => Success("linux")
    case _ => Failure(UnsupportedOs(SupportedTable))
  }

  /** Distinct supported targets get distinct release names. */
  lemma ArchInjective(a: string, b: string)
    requires Arch(a).Success? && Arch(b).Success? && a != b
    ensures Arch(a).value != Arch(b).value
  {
  }

  lemma OsInjective(a: string, b: string)
    requires Os(a).Success? && Os(b).Success? && a != b
    ensures Os(a).value != Os(b).value
  {
  }

  /** Every system the table lists is accepted by `os!` and `arch!`; the converse fails:
      macOS on x86 and on arm is accepted without being listed. */
  lemma ListedSystemsAccepted(os: string, arch: string)
    requires os in SupportedTable && arch in SupportedTable[os]
    ensures Os(os).Success? && Arch(arch).Success?
  {
  }

  lemma AcceptedBeyondTable()
    ensures Os("macos").Success? && Arch("x86").Success? && "x86" !in SupportedTable["macos"]
    ensures Os("macos").Success? && Arch("arm").Success? && "arm" !in SupportedTable["macos"]
  {
  }

  /** `terraform_{version}_{os}_{arch}.zip` */
  function Filename(version: string, os: string, arch: string): string {
    "terraform_" + version + "_" + os + "_" + arch + ".zip"
  }

  /** The HashiCorp release URL of an archive. */
  function Url(version: string, filename: string): string {
    "https://releases.hashicorp.com/terraform/" + version + "/" + filename
  }

  /** The URL lies in the version's HashiCorp release directory and ends with the archive's
      file name, after a separator. */
  lemma UrlNamesArchive(version: string, filename: string)
    ensures Text.StartsWith(Url(version, filename), "https://releases.hashicorp.com/terraform/" + version + "/")
    ensures var u := Url(version, filename);
      |u| > |filename| && u[|u| - |filename|..] == filename && u[|u| - |filename| - 1] == '/'
  {
    var dir := "https://releases.hashicorp.com/terraform/" + version + "/";
    assert Url(version, filename) == dir + filename;
    assert (dir + filename)[..|dir|] == dir;
  }

  /** For one version, the archive name tells the supported targets apart. */
  lemma FilenameDistinguishesTargets(version: string, a: Platform, b: Platform)
    requires Os(a.os).Success? && Arch(a.arch).Success?
    requires Os(b.os).Success? && Arch(b.arch).Success?
    requires Filename(version, Os(a.os).value, Arch(a.arch).value) == Filename(version, Os(b.os).value, Arch(b.arch).value)
    ensures a == b
  {
    var o1, a1 := Os(a.os).value, Arch(a.arch).value;
    var o2, a2 := Os(b.os).value, Arch(b.arch).value;
    NamesAfterVersion(version, o1, a1, o2, a2);
    if a.os != b.os {
      OsInjective(a.os, b.os);
    }
    if a.arch != b.arch {
      ArchInjective(a.arch, b.arch);
    }
  }

  /** The part of the archive name after the version determines the release names. */
  lemma NamesAfterVersion(version: string, o1: string, a1: string, o2: string, a2: string)
    requires o1 in {"darwin", "linux"} && o2 in {"darwin", "linux"}
    requires Filename(version, o1, a1) == Filename(version, o2, a2)
    ensures o1 == o2 && a1 == a2
  {
    var k := |"terraform_" + version + "_"|;
    var t1, t2 := o1 + "_" + a1 + ".zip", o2 + "_" + a2 + ".zip";
    assert Filename(version, o1, a1)[k..] == t1;
    assert Filename(version, o2, a2)[k..] == t2;
    assert t1[0] == o1[0] && t2[0] == o2[0];
    var n := |o1| + 1;
    assert t1[n..] == a1 + ".zip";
    assert t2[n..] == a2 + ".zip";
    assert a1 == t1[n..][..|t1[n..]| - 4];
    assert a2 == t2[n..][..|t2[n..]| - 4];
  }

  /** `struct Terraform(String)`: the version. */
  datatype Terraform = Terraform(version: string) {
    /** `name()` and `version()`. */
    function Name(): (n: string)
      ensures n == SoftwareName
    {
      SoftwareName
    }

    function Version(): (v: string)
      ensures v == version
    {
      version
    }

    /** The software as the library sees it behind `dyn Software`. */
    function AsSoftware(): (s: LibSoftware.Software)
      ensures s.name == SoftwareName && s.version == version
      ensures LibSoftware.Display(s) == "terraform v" + version
    {
      LibSoftware.Software(Name(), Version())
    }
  }

  /** Two Terraforms are equal as softwares exactly when their versions are. */
  lemma SameSoftwareIffSameVersion(a: Terraform, b: Terraform)
    ensures LibSoftware.Same(a.AsSoftware(), b.AsSoftware()) <==> a == b
  {
  }

  /** The calls to the downloader and to the unzipper; the file each writes into is named by
      its path. */
  datatype Call =
    | Download(url: string, out: Path)
    | Unzip(zip: Path, filename: string, out: Path)

  /** The calls that fail, with the text of their error. */
  datatype Oracle = Oracle(failures: map<Call, string>)

  /** What `install` returns, the disk after it and the calls it made. */
  datatype Run = Run(result: Result<(), InstallError>, disk: Disk, calls: seq<Call>)

  /** `Terraform::install`: target, temporary archive, download, binary file, unzip; each
      failure ends the call with its own error. */
  function InstallSpec(t: Terraform, platform: Platform, disk: Disk, denv: Path, tmp: Path, o: Oracle): Run {
    var os := Os(platform.os);
    var arch := Arch(platform.arch);
    if os.Failure? then Run(Failure(os.error), disk, [])
    else if arch.Failure? then Run(Failure(arch.error), disk, [])
    else
      var filename := Filename(t.version, os.value, arch.value);
      FetchSpec(t, Url(t.version, filename), OpenFileSpec(disk, Join(tmp, filename)), denv, o)
  }

  /** Once the temporary archive is opened (or not): the download, then the binary. */
  function FetchSpec(t: Terraform, url: string, zip: Outcome<Path>, denv: Path, o: Oracle): Run {
    if zip.result.Failure? then Run(Failure(FileSystemWritingFailed(zip.result.error)), zip.disk, [])
    else
      var download := Download(url, zip.result.value);
      if download in o.failures then Run(Failure(DownloadFailed(o.failures[download])), zip.disk, [download])
      else
        var bin := BinFileSpec(zip.disk, denv, SoftwareName, t.version);
        ExtractSpec(zip.result.value, download, bin, o)
  }

  /** Once the binary file is created (or not): the unzip. */
  function ExtractSpec(zip: Path, download: Call, bin: Outcome<Path>, o: Oracle): Run {
    if bin.result.Failure? then Run(Failure(FileSystemWritingFailed(bin.result.error)), bin.disk, [download])
    else
      var unzip := Unzip(zip, SoftwareName, bin.result.value);
      if unzip in o.failures then
        Run(Failure(UnzipFailed(zip, SoftwareName, o.failures[unzip])), bin.disk, [download, unzip])
      else Run(Success(()), bin.disk, [download, unzip])
  }

  /** `cfg.downloader` and `cfg.unzipper`. */
  class Tools {
    const oracle: Oracle
    var calls: seq<Call>

    constructor (oracle: Oracle)
      ensures this.oracle == oracle && calls == []
    {
      this.oracle := oracle;
      calls := [];
    }

    /** `download(url, out)` */
    method Download(url: string, out: Path) returns (r: Result<(), string>)
      modifies this
      ensures calls == old(calls) + [Call.Download(url, out)]
      ensures Call.Download(url, out) in oracle.failures ==> r == Failure(oracle.failures[Call.Download(url, out)])
      ensures Call.Download(url, out) !in oracle.failures ==> r == Success(())
    {
      calls := calls + [Call.Download(url, out)];
      if Call.Download(url, out) in oracle.failures {
        r := Failure(oracle.failures[Call.Download(url, out)]);
      } else {
        r := Success(());
      }
    }

    /** `unzip(zip_filepath, filename, out)` */
    method Unzip(zip: Path, filename: string, out: Path) returns (r: Result<(), string>)
      modifies this
      ensures calls == old(calls) + [Call.Unzip(zip, filename, out)]
      ensures Call.Unzip(zip, filename, out) in oracle.failures ==> r == Failure(oracle.failures[Call.Unzip(zip, filename, out)])
      ensures Call.Unzip(zip, filename, out) !in oracle.failures ==> r == Success(())
    {
      calls := calls + [Call.Unzip(zip, filename, out)];
      if Call.Unzip(zip, filename, out) in oracle.failures {
        r := Failure(oracle.failures[Call.Unzip(zip, filename, out)]);
      } else {
        r := Success(());
      }
    }
  }

  /** `Terraform::install(cfg)` on the build target `platform`. */
  method Install(t: Terraform, platform: Platform, fs: DefaultFileSystem, tools: Tools) returns (r: Result<(), InstallError>)
    requires fs.Valid()
    modifies fs, tools
    ensures fs.Valid()
    ensures var s := InstallSpec(t, platform, old(fs.disk), fs.denvDirpath, fs.tmpDirpath, tools.oracle);
      r == s.result && fs.disk == s.disk && tools.calls == old(tools.calls) + s.calls
  {
    var os := Os(platform.os);
    if os.Failure? {
      return Failure(os.error);
    }
    var arch := Arch(platform.arch);
    if arch.Failure? {
      return Failure(arch.error);
    }
    var filename := Filename(t.version, os.value, arch.value);
    var url := Url(t.version, filename);
    var zip := fs.CreateTmpFile(filename);
    if zip.Failure? {
      return Failure(FileSystemWritingFailed(zip.error));
    }
    r := Fetch(t, url, zip.value, fs, tools);
  }

  /** The rest of `install` once the temporary archive is open: the download, then the
      binary. */
  method Fetch(t: Terraform, url: string, zip: Path, fs: DefaultFileSystem, tools: Tools) returns (r: Result<(), InstallError>)
    requires fs.Valid()
    modifies fs, tools
    ensures fs.Valid()
    ensures var s := FetchSpec(t, url, Outcome(Success(zip), old(fs.disk)), fs.denvDirpath, tools.oracle);
      r == s.result && fs.disk == s.disk && tools.calls == old(tools.calls) + s.calls
  {
    var downloaded := tools.Download(url, zip);
    if downloaded.Failure? {
      return Failure(DownloadFailed(downloaded.error));
    }
    r := Extract(t, zip, Download(url, zip), fs, tools);
  }

  /** The binary file, then the unzip into it. */
  method Extract(t: Terraform, zip: Path, download: Call, fs: DefaultFileSystem, tools: Tools) returns (r: Result<(), InstallError>)
    requires fs.Valid()
    modifies fs, tools
    ensures fs.Valid()
    ensures var s := ExtractSpec(zip, download, BinFileSpec(old(fs.disk), fs.denvDirpath, SoftwareName, t.version), tools.oracle);
      r == s.result && fs.disk == s.disk && tools.calls == old(tools.calls) + s.calls[1..]
  {
    var bin := fs.CreateBinFile(SoftwareName, t.version);
    if bin.Failure? {
      return Failure(FileSystemWritingFailed(bin.error));
    }
    var unzipped := tools.Unzip(zip, SoftwareName, bin.value);
    if unzipped.Failure? {
      return Failure(UnzipFailed(zip, SoftwareName, unzipped.error));
    }
    r := Success(());
  }

  // ---- what `install` promises ----

  /** The operating system is checked before the architecture and before anything is
      touched: on an unsupported one, nothing is called and the disk is unchanged, whatever
      the architecture. */
  lemma UnsupportedOsFirst(t: Terraform, platform: Platform, disk: Disk, denv: Path, tmp: Path, o: Oracle)
    requires platform.os !in {"macos", "linux"}
    ensures var s := InstallSpec(t, platform, disk, denv, tmp, o);
      s == Run(Failure(UnsupportedOs(SupportedTable)), disk, [])
  {
  }

  lemma UnsupportedArchSecond(t: Terraform, platform: Platform, disk: Disk, denv: Path, tmp: Path, o: Oracle)
    requires platform.os in {"macos", "linux"} && platform.arch !in {"x86", "x86_64", "arm", "aarch64"}
    ensures var s := InstallSpec(t, platform, disk, denv, tmp, o);
      s == Run(Failure(UnsupportedArch(SupportedTable)), disk, [])
  {
  }

  /** The archive for the target is downloaded from its release URL into the temporary file
      `{tmp}/{filename}`, and the binary is unzipped from that same file into the software's
      binary: whenever the unzipper is called, these are the calls made. */
  lemma ArchiveFlow(t: Terraform, platform: Platform, disk: Disk, denv: Path, tmp: Path, o: Oracle)
    requires |InstallSpec(t, platform, disk, denv, tmp, o).calls| == 2
    ensures Os(platform.os).Success? && Arch(platform.arch).Success?
    ensures var filename := Filename(t.version, Os(platform.os).value, Arch(platform.arch).value);
      var zip := Join(tmp, filename);
      InstallSpec(t, platform, disk, denv, tmp, o).calls
        == [Download(Url(t.version, filename), zip), Unzip(zip, SoftwareName, SoftwareBinFilepath(denv, SoftwareName, t.version))]
  {
    TargetChecked(t, platform, disk, denv, tmp, o);
    var filename := Filename(t.version, Os(platform.os).value, Arch(platform.arch).value);
    var zip := OpenFileSpec(disk, Join(tmp, filename));
    OpenFileNamesPath(disk, Join(tmp, filename));
    FetchCalls(t, Url(t.version, filename), zip, denv, o);
  }

  /** Before anything is touched the target is checked: an unsupported one ends the call with
      nothing done, a supported one hands over to the fetch. */
  lemma TargetChecked(t: Terraform, platform: Platform, disk: Disk, denv: Path, tmp: Path, o: Oracle)
    ensures var s := InstallSpec(t, platform, disk, denv, tmp, o);
      if Os(platform.os).Failure? || Arch(platform.arch).Failure? then
        s.calls == [] && s.result.Failure? && (s.result.error.UnsupportedOs? || s.result.error.UnsupportedArch?)
      else
        var filename := Filename(t.version, Os(platform.os).value, Arch(platform.arch).value);
        s == FetchSpec(t, Url(t.version, filename), OpenFileSpec(disk, Join(tmp, filename)), denv, o)
  {
  }

  /** What the fetch calls: the download into the archive and, once the binary exists, the
      unzip from that archive into it. */
  lemma FetchCalls(t: Terraform, url: string, zip: Outcome<Path>, denv: Path, o: Oracle)
    ensures var s := FetchSpec(t, url, zip, denv, o);
      |s.calls| == 2 ==>
        zip.result.Success? && BinFileSpec(zip.disk, denv, SoftwareName, t.version).result.Success?
        && s.calls == [Download(url, zip.result.value),
                       Unzip(zip.result.value, SoftwareName, BinFileSpec(zip.disk, denv, SoftwareName, t.version).result.value)]
    ensures var s := FetchSpec(t, url, zip, denv, o);
      s.result.Failure? && s.result.error.UnzipFailed? ==>
        zip.result.Success? && s.result.error.zipFilepath == zip.result.value && s.result.error.filepath == SoftwareName
  {
  }

  /** A file that `open_file!` opens is returned under the path it was asked for. */
  lemma OpenFileNamesPath(disk: Disk, p: Path)
    ensures OpenFileSpec(disk, p).result.Success? ==> OpenFileSpec(disk, p).result.value == p
  {
  }

  /** A temporary file that cannot be created ends the installation with that file
      system error, before anything is downloaded. */
  lemma TmpFileFailureStops(t: Terraform, platform: Platform, disk: Disk, denv: Path, tmp: Path, o: Oracle)
    requires Os(platform.os).Success? && Arch(platform.arch).Success?
    requires OpenFileSpec(disk, Join(tmp, Filename(t.version, Os(platform.os).value, Arch(platform.arch).value))).result.Failure?
    ensures var zip := OpenFileSpec(disk, Join(tmp, Filename(t.version, Os(platform.os).value, Arch(platform.arch).value)));
      InstallSpec(t, platform, disk, denv, tmp, o) == Run(Failure(FileSystemWritingFailed(zip.result.error)), zip.disk, [])
  {
  }

  /** A failed download ends the installation before the binary file is created: the disk is
      as the temporary file left it and the unzipper is not called. */
  lemma DownloadFailureStops(t: Terraform, platform: Platform, disk: Disk, denv: Path, tmp: Path, o: Oracle)
    requires InstallSpec(t, platform, disk, denv, tmp, o).result.Failure?
    requires InstallSpec(t, platform, disk, denv, tmp, o).result.error.DownloadFailed?
    ensures Os(platform.os).Success? && Arch(platform.arch).Success?
    ensures var filename := Filename(t.version, Os(platform.os).value, Arch(platform.arch).value);
      var s := InstallSpec(t, platform, disk, denv, tmp, o);
      s.disk == OpenFileSpec(disk, Join(tmp, filename)).disk
      && |s.calls| == 1 && s.calls[0].Download? && s.calls[0] in o.failures
      && s.result.error.download == o.failures[s.calls[0]]
  {
    TargetChecked(t, platform, disk, denv, tmp, o);
    var filename := Filename(t.version, Os(platform.os).value, Arch(platform.arch).value);
    FetchDownloadFailure(t, Url(t.version, filename), OpenFileSpec(disk, Join(tmp, filename)), denv, o);
  }

  lemma FetchDownloadFailure(t: Terraform, url: string, zip: Outcome<Path>, denv: Path, o: Oracle)
    ensures var s := FetchSpec(t, url, zip, denv, o);
      s.result.Failure? && s.result.error.DownloadFailed? ==>
        s.disk == zip.disk && |s.calls| == 1 && s.calls[0].Download? && s.calls[0] in o.failures
        && s.result.error.download == o.failures[s.calls[0]]
  {
  }

  /** An unzip failure names the temporary archive and the `terraform` entry. */
  lemma UnzipFailureNamesArchive(t: Terraform, platform: Platform, disk: Disk, denv: Path, tmp: Path, o: Oracle)
    requires InstallSpec(t, platform, disk, denv, tmp, o).result.Failure?
    requires InstallSpec(t, platform, disk, denv, tmp, o).result.error.UnzipFailed?
    ensures Os(platform.os).Success? && Arch(platform.arch).Success?
    ensures var e := InstallSpec(t, platform, disk, denv, tmp, o).result.error;
      e.zipFilepath == Join(tmp, Filename(t.version, Os(platform.os).value, Arch(platform.arch).value))
      && e.filepath == SoftwareName
  {
    TargetChecked(t, platform, disk, denv, tmp, o);
    var filename := Filename(t.version, Os(platform.os).value, Arch(platform.arch).value);
    OpenFileNamesPath(disk, Join(tmp, filename));
    FetchCalls(t, Url(t.version, filename), OpenFileSpec(disk, Join(tmp, filename)), denv, o);
  }

  /** The installation succeeds exactly when the target is supported, both files can be
      created and neither collaborator fails. */
  lemma InstallSucceeds(t: Terraform, platform: Platform, disk: Disk, denv: Path, tmp: Path, o: Oracle)
    ensures var s := InstallSpec(t, platform, disk, denv, tmp, o);
      s.result.Success? <==>
        Os(platform.os).Success? && Arch(platform.arch).Success?
        && |s.calls| == 2 && s.calls[0] !in o.failures && s.calls[1] !in o.failures
  {
    if Os(platform.os).Success? && Arch(platform.arch).Success? {
      var filename := Filename(t.version, Os(platform.os).value, Arch(platform.arch).value);
      FetchSucceeds(t, Url(t.version, filename), OpenFileSpec(disk, Join(tmp, filename)), denv, o);
    }
  }

  lemma FetchSucceeds(t: Terraform, url: string, zip: Outcome<Path>, denv: Path, o: Oracle)
    ensures var s := FetchSpec(t, url, zip, denv, o);
      s.result.Success? <==> |s.calls| == 2 && s.calls[0] !in o.failures && s.calls[1] !in o.failures
  {
  }

  /** After a successful installation the library finds Terraform installed: its software
      directory is a directory, which is what `is_installed_software` asks. */
  lemma InstalledAfterSuccess(t: Terraform, platform: Platform, disk: Disk, denv: Path, tmp: Path, o: Oracle)
    requires WellFormed(disk) && Base(denv) && Component(t.version)
    requires InstallSpec(t, platform, disk, denv, tmp, o).result.Success?
    ensures IsDir(InstallSpec(t, platform, disk, denv, tmp, o).disk, SoftwareDirpath(denv, SoftwareName, t.version))
  {
    var filename := Filename(t.version, Os(platform.os).value, Arch(platform.arch).value);
    OpenFileWellFormed(disk, Join(tmp, filename));
    FetchInstalled(t, Url(t.version, filename), OpenFileSpec(disk, Join(tmp, filename)), denv, o);
  }

  lemma FetchInstalled(t: Terraform, url: string, zip: Outcome<Path>, denv: Path, o: Oracle)
    requires WellFormed(zip.disk) && Base(denv) && Component(t.version)
    requires FetchSpec(t, url, zip, denv, o).result.Success?
    ensures IsDir(FetchSpec(t, url, zip, denv, o).disk, SoftwareDirpath(denv, SoftwareName, t.version))
  {
    FetchLeavesBin(t, url, zip, denv, o);
    BinFileInstalls(zip.disk, denv, SoftwareName, t.version);
  }

  /** A successful fetch leaves the disk as the successful creation of the binary left it. */
  lemma FetchLeavesBin(t: Terraform, url: string, zip: Outcome<Path>, denv: Path, o: Oracle)
    requires FetchSpec(t, url, zip, denv, o).result.Success?
    ensures BinFileSpec(zip.disk, denv, SoftwareName, t.version).result.Success?
    ensures FetchSpec(t, url, zip, denv, o).disk == BinFileSpec(zip.disk, denv, SoftwareName, t.version).disk
  {
    var bin := BinFileSpec(zip.disk, denv, SoftwareName, t.version);
    ExtractKeepsBin(zip.result.value, Download(url, zip.result.value), bin, o);
  }

  /** The unzip leaves the disk as the binary file's creation left it. */
  lemma ExtractKeepsBin(zip: Path, download: Call, bin: Outcome<Path>, o: Oracle)
    ensures ExtractSpec(zip, download, bin, o).disk == bin.disk
    ensures ExtractSpec(zip, download, bin, o).result.Success? ==> bin.result.Success?
  {
  }
}
