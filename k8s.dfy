/** The chart-testing software of the newer code (src/soft/k8s.rs): it picks the release
    archive for the build target, plans three symlinks (the `ct` binary into the project's
    environment directory, two configuration files under `~/.ct`) and hands the artifact to
    its injected archive installer.

    The artifact is modelled as k8s.rs builds it: its symlinks carry no `required` flag and it
    lists no binaries, unlike the `Artifact` of installer.rs; the injected installer is a
    collaborator whose answer comes from the oracle. */
module K8s {
  import opened Results
  import opened Paths
  import opened Text
  import Installer

  type Error = Installer.Error

  const CtBinName: string := "ct"
  const CtSoftName: string := "chart-testing"

  /** `std::env::consts::OS` and `std::env::consts::ARCH` of the build target. */
  datatype Platform = Platform(os: string, arch: string)

  /** The release archive's architecture name. */
  function Arch(arch: string): (r: Result<string, Error>)
    ensures r.Success? <==> arch in ["x86_64", "arm", "aarch64"]
    ensures r.Failure? ==> r.error == Installer.UnsupportedSystem
  {
    match arch
    case "x86_64" => Success("amd64")
    case "arm" => Success("armv6")
    case "aarch64" => Success("arm64")
    case _ => Failure(Installer.UnsupportedSystem)
  }

  /** The release archive's operating system name. */
  function Os(os: string): (r: Result<string, Error>)
    ensures r.Success? <==> os in ["macos", "linux"]
    ensures r.Failure? ==> r.error == Installer.UnsupportedSystem
  {
    match os
    case "macos" => Success("darwin")
    case "linux" => Success("linux")
    case _ => Failure(Installer.UnsupportedSystem)
  }

  /** Distinct supported targets get distinct archives. */
  lemma ArchInjective(a: string, b: string)
    requires Arch(a).Success? && Arch(b).Success? && a != b
    ensures Arch(a).value != Arch(b).value
  {
  }

  lemma OsInjective(a: string, b: string)
    requires Os(a).Success? && Os(b).Success? && a != b
    ensures Os(a).value != Os(b).value
  {
  }

  datatype CtSymlink = CtSymlink(dest: Path, src: Path)

  datatype CtArtifact = CtArtifact(name: string, symlinks: seq<CtSymlink>, url: string, version: string)

  /** The GitHub release URL for a version and a target. */
  function ReleaseUrl(version: string, os: string, arch: string): string {
    "https://github.com/helm/chart-testing/releases/download/v" + version
      + "/chart-testing_" + version + "_" + os + "_" + arch + ".tar.gz"
  }

  function ChartTestingArtifact(envDir: Path, homeDir: Path, version: string, os: string, arch: string): CtArtifact {
    CtArtifact(
      CtSoftName,
      [ CtSymlink(Join(envDir, CtBinName), CtBinName),
        CtSymlink(Join(homeDir, ".ct/chart_schema.yaml"), "etc/chart-schema.yaml"),
        CtSymlink(Join(homeDir, ".ct/lintconf.yaml"), "etc/lintconf.yaml") ],
      ReleaseUrl(version, os, arch),
      version)
  }

  /** `ChartTesting { installer, version }`; the installer is the collaborator of `Install`. */
  datatype ChartTesting = ChartTesting(version: string) {
    function Name(): (n: string)
      ensures n == CtSoftName
    {
      CtSoftName
    }

    function Version(): (v: string)
      ensures v == version
    {
      version
    }
  }

  datatype Call =
    | EnsureEnvDirIsPresent(project: Path)
    | HomeDirpath
    | InstallTargz(artifact: CtArtifact)

  /** The collaborators' answers: the environment and home directories, the build target,
      the calls that fail with an I/O error, and what the archive installer returns. */
  datatype Oracle = Oracle(
    envDir: Path,
    homeDir: Path,
    platform: Platform,
    failures: map<Call, string>,
    installed: Result<(), Error>)

  datatype Run = Run(result: Result<(), Error>, calls: seq<Call>)

  /** `ChartTesting::install`: environment directory, home directory, target, then the
      installer, each failure ending the call. */
  function InstallRun(soft: ChartTesting, project: Path, o: Oracle): Run {
    var env := EnsureEnvDirIsPresent(project);
    if env in o.failures then Run(Failure(Installer.Io(o.failures[env])), [env])
    else if HomeDirpath in o.failures then Run(Failure(Installer.Io(o.failures[HomeDirpath])), [env, HomeDirpath])
    else if Os(o.platform.os).Failure? then Run(Failure(Os(o.platform.os).error), [env, HomeDirpath])
    else if Arch(o.platform.arch).Failure? then Run(Failure(Arch(o.platform.arch).error), [env, HomeDirpath])
    else
      var artifact := ChartTestingArtifact(o.envDir, o.homeDir, soft.version, Os(o.platform.os).value, Arch(o.platform.arch).value);
      Run(o.installed, [env, HomeDirpath, InstallTargz(artifact)])
  }

  /** The file system and the archive installer given to `install`. */
  class Collaborators {
    const oracle: Oracle
    var calls: seq<Call>

    constructor (oracle: Oracle)
      ensures this.oracle == oracle && calls == []
    {
      this.oracle := oracle;
      calls := [];
    }

    /** `fs.ensure_env_dir_is_present(project_dirpath)` */
    method EnsureEnvDirIsPresent(project: Path) returns (r: Result<Path, Error>)
      modifies this
      ensures calls == old(calls) + [Call.EnsureEnvDirIsPresent(project)]
      ensures Call.EnsureEnvDirIsPresent(project) in oracle.failures ==>
        r == Failure(Installer.Io(oracle.failures[Call.EnsureEnvDirIsPresent(project)]))
      ensures Call.EnsureEnvDirIsPresent(project) !in oracle.failures ==> r == Success(oracle.envDir)
    {
      calls := calls + [Call.EnsureEnvDirIsPresent(project)];
      if Call.EnsureEnvDirIsPresent(project) in oracle.failures {
        r := Failure(Installer.Io(oracle.failures[Call.EnsureEnvDirIsPresent(project)]));
      } else {
        r := Success(oracle.envDir);
      }
    }

    /** `fs.home_dirpath()` */
    method HomeDirpath() returns (r: Result<Path, Error>)
      modifies this
      ensures calls == old(calls) + [Call.HomeDirpath]
      ensures Call.HomeDirpath in oracle.failures ==> r == Failure(Installer.Io(oracle.failures[Call.HomeDirpath]))
      ensures Call.HomeDirpath !in oracle.failures ==> r == Success(oracle.homeDir)
    {
      calls := calls + [Call.HomeDirpath];
      if Call.HomeDirpath in oracle.failures {
        r := Failure(Installer.Io(oracle.failures[Call.HomeDirpath]));
      } else {
        r := Success(oracle.homeDir);
      }
    }

    /** `installer.install_targz(&artifact, fs)` */
    method InstallTargz(artifact: CtArtifact) returns (r: Result<(), Error>)
      modifies this
      ensures calls == old(calls) + [Call.InstallTargz(artifact)]
      ensures r == oracle.installed
    {
      calls := calls + [Call.InstallTargz(artifact)];
      r := oracle.installed;
    }
  }

  method Install(soft: ChartTesting, project: Path, io: Collaborators) returns (r: Result<(), Error>)
    modifies io
    ensures io.calls == old(io.calls) + InstallRun(soft, project, io.oracle).calls
    ensures r == InstallRun(soft, project, io.oracle).result
  {
    var envDir := io.EnsureEnvDirIsPresent(project);
    if envDir.Failure? {
      return Failure(envDir.error);
    }
    var homeDir := io.HomeDirpath();
    if homeDir.Failure? {
      return Failure(homeDir.error);
    }
    var os := Os(io.oracle.platform.os);
    if os.Failure? {
      return Failure(os.error);
    }
    var arch := Arch(io.oracle.platform.arch);
    if arch.Failure? {
      return Failure(arch.error);
    }
    var artifact := ChartTestingArtifact(envDir.value, homeDir.value, soft.version, os.value, arch.value);
    r := io.InstallTargz(artifact);
  }

  /** The archive installer is reached only when both directories are available and the
      target is supported; it is the last call, it receives the chart-testing artifact for
      that target, and its answer is returned unchanged. */
  lemma InstallerReachedIff(soft: ChartTesting, project: Path, o: Oracle)
    ensures var run := InstallRun(soft, project, o);
      (exists a :: InstallTargz(a) in run.calls) <==>
        (EnsureEnvDirIsPresent(project) !in o.failures && HomeDirpath !in o.failures
         && Os(o.platform.os).Success? && Arch(o.platform.arch).Success?)
    ensures var run := InstallRun(soft, project, o);
      run.calls[|run.calls| - 1].InstallTargz? ==>
        run.result == o.installed
        && run.calls[|run.calls| - 1].artifact
           == ChartTestingArtifact(o.envDir, o.homeDir, soft.version, Os(o.platform.os).value, Arch(o.platform.arch).value)
  {
    var run := InstallRun(soft, project, o);
    if EnsureEnvDirIsPresent(project) !in o.failures && HomeDirpath !in o.failures
       && Os(o.platform.os).Success? && Arch(o.platform.arch).Success? {
      assert InstallTargz(run.calls[2].artifact) in run.calls;
    }
  }

  /** An unsupported target is reported as `UnsupportedSystem`, after the environment and
      home directories were asked for (the target is checked while formatting the URL). */
  lemma UnsupportedTargetAfterDirectories(soft: ChartTesting, project: Path, o: Oracle)
    requires EnsureEnvDirIsPresent(project) !in o.failures && HomeDirpath !in o.failures
    requires o.platform.os !in ["macos", "linux"] || o.platform.arch !in ["x86_64", "arm", "aarch64"]
    ensures InstallRun(soft, project, o) == Run(Failure(Installer.UnsupportedSystem), [EnsureEnvDirIsPresent(project), HomeDirpath])
  {
  }

  /** The release URL names the version in the tag and the file name, and the file is a
      gzipped tarball. */
  lemma ReleaseUrlShape(version: string, os: string, arch: string)
    ensures var url := ReleaseUrl(version, os, arch);
      StartsWith(url, "https://github.com/helm/chart-testing/releases/download/v" + version + "/chart-testing_" + version + "_")
      && url[|url| - 7..] == ".tar.gz"
  {
    var url := ReleaseUrl(version, os, arch);
    var prefix := "https://github.com/helm/chart-testing/releases/download/v" + version + "/chart-testing_" + version + "_";
    assert url == prefix + (os + "_" + arch + ".tar.gz");
    assert url[..|prefix|] == prefix;
  }

  /** The chart-testing artifact of a version and target: its name, version and release URL;
      the `ct` binary of the archive is linked into the project's environment directory, and
      the two configuration files of its `etc` directory into `~/.ct`: every source is relative to the unpacked
      archive, and the two configuration links never share a destination. */
  lemma ArtifactLinks(envDir: Path, homeDir: Path, version: string, os: string, arch: string)
    ensures var a := ChartTestingArtifact(envDir, homeDir, version, os, arch);
      a.name == CtSoftName && a.version == version && a.url == ReleaseUrl(version, os, arch)
    ensures var links := ChartTestingArtifact(envDir, homeDir, version, os, arch).symlinks;
      |links| == 3
      && (forall k :: 0 <= k < |links| ==> !IsAbsolute(links[k].src))
      && links[0].src == CtBinName
      && links[1].src == "etc/chart-schema.yaml"
      && links[2].src == "etc/lintconf.yaml"
      && (envDir != [] && envDir[|envDir| - 1] != '/' ==> links[0].dest == envDir + "/ct")
      && (homeDir != [] && homeDir[|homeDir| - 1] != '/' ==>
            links[1].dest == homeDir + "/.ct/chart_schema.yaml" && links[2].dest == homeDir + "/.ct/lintconf.yaml")
      && links[1].dest != links[2].dest
  {
    var links := ChartTestingArtifact(envDir, homeDir, version, os, arch).symlinks;
    assert !IsAbsolute(CtBinName) && !IsAbsolute(".ct/chart_schema.yaml") && !IsAbsolute(".ct/lintconf.yaml");
    assert |".ct/chart_schema.yaml"| != |".ct/lintconf.yaml"|;
    assert |links[1].dest| != |links[2].dest|;
  }
}

