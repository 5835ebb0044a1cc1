# denv, modelled in Dafny

denv gives each project directory its own set of command-line tools. The tools are
Terraform and chart-testing. denv downloads and unpacks each release once into a shared
directory. It then links the binaries into a per-project environment directory, and it
prints a shell hook that loads that environment when the shell enters the project.

The repository holds two generations of this code. The model keeps them as separate
modules and does not reconcile them.

**Newer code (`src/`)**
- `Levels`, `Cli`: the log levels and the `-v`/`-q` verbosity options (`src/cli.rs`).
- `Log`: the coloured, levelled logger (`src/log.rs`).
- `Run`: the `hook` command, which rebuilds the command line and fills the shell template (`src/run.rs`).
- `Installer`, `InstallerProperties`: the archive-artifact installer (`src/soft/installer.rs`).
  - It probes for the binaries, downloads, unpacks, makes the binaries executable and updates the symlinks.
  - The file system, downloader and unarchiver it is given are a class, `Installer.Collaborators`.
  - That class records every call in `calls` and answers from a fixed oracle.
  - Each method is proved equal to a pure function that returns the result and the calls made.
- `K8s`: the chart-testing software (`src/soft/k8s.rs`).
- `Json`, `Cfg`: the YAML/JSON configuration loader (`src/cfg.rs`) over a JSON value model.

**Twin logger (`denv/src/logger.rs`)**
- `DenvLogger`: the same logger written against a generic writer. It is proved to produce the same lines as `Log`.

**Older library (`denv_lib`)**
- `LibVar`: variables and their `export` statement (`var.rs`).
- `LibSoftware`: software identity and display (`software/mod.rs`).
- `LibError`: the error types and their messages, including the sorted listing of supported systems (`error.rs`).
- `LibFs`: the default file system (`internal/fs.rs`).
  - It works on an in-memory disk, a map from path to directory, file (with mode) or link.
  - `LibFs.DefaultFileSystem` is a class whose methods update that disk in place.
- `Terraform`: Terraform's installer (`software/terraform.rs`).
- `Environment`: `Environment::load` (`lib.rs`). It installs what is missing, links every binary and writes the env file holding the `PATH` export.

**Shared helpers**
- `Results`: the result type.
- `Paths`: `Path::join`.
- `Text`: strings, splitting, joining, integer printing, sorting.

## Model

| member | source | states |
|---|---|---|
| Levels.ToFilter | src/log.rs:42-44 | a level and the filter of the same name have the same rank, so "level ≤ filter" compares ranks |
| Levels.RankInjective | src/log.rs:42-44 | distinct levels have distinct ranks |
| Levels.FilterRankInjective | src/log.rs:42-44 | distinct filters have distinct ranks, and a filter has rank 0 iff it is `Off` |
| Levels.LevelLeBounds | src/log.rs:42-44 | `Off` lets nothing through and `Trace` lets everything through |
| Cli.ToLogLevel | src/cli.rs:83-95 | `-q` gives `Off` and nothing else does; otherwise `n` times `-v` lets `min(n,4)+1` levels through |
| Cli.DefaultIsWarn | src/cli.rs:73-80 | the default verbosity logs warnings and errors |
| Cli.MoreVerboseShowsMore | src/cli.rs:83-95 | more `-v` never shows fewer levels, for the same `-q` |
| Cli.VerbosityEnables | src/cli.rs:83-95 | a level is shown iff not quiet and its rank is at most the `-v` count plus one |
| Cli.EveryFilterReachable | src/cli.rs:83-95 | every filter is selected by some verbosity |
| Log.Color | src/log.rs:14-18 | every colour is a 7-character escape sequence |
| Log.ColorLevelInverse | src/log.rs:51-57 | the colour identifies the level: reading the colour back gives the level |
| Log.ParseLineRoundTrip | src/log.rs:58-63 | a written line parses back into its level (when coloured) and its message |
| Log.LineHasOneNewline | src/log.rs:63 | a record whose message has no newline writes exactly one line |
| Log.Logger.Log | src/log.rs:48-65 | every record it is given is appended as one line: the optional colour, `[app] `, the message, a newline; `log` itself does not filter: the log macros drop records above the maximum level that `init` sets with `set_max_level` (src/log.rs:37), which is the level `enabled` compares against |
| Log.EnabledIff | src/log.rs:42-44 | a level is enabled iff the filter is not `Off` and the level's rank is within it |
| DenvLogger.Logger.Log | denv/src/logger.rs:45-62 | the twin logger appends the same line as the newer logger |
| DenvLogger.SameFilter | denv/src/logger.rs:41-43 | both loggers enable the same levels for the same filter |
| DenvLogger.LinesSnoc | denv/src/logger.rs:45-62 | logging one more record appends exactly that record's line |
| DenvLogger.LinesCount | denv/src/logger.rs:45-62 | `n` uncoloured records write `n` newlines |
| Run.Options | src/run.rs:62-63 | every option starts with `-`, every argument starting with `-` is an option, and no more options than arguments |
| Run.OptionsSingle | src/run.rs:63 | one argument is kept iff it starts with `-` |
| Run.OptionsConcat | src/run.rs:62-63 | the options of a concatenation are the options of each part, in order; with `Run.OptionsSingle` this keeps order and multiplicity |
| Run.Runner.Run | src/run.rs:52-56 | the hook command writes the filled hook, or fails with `Io` and writes nothing |
| Run.Runner.RunHook | src/run.rs:59-77 | the output gains the template with the command line substituted, or the write error is returned as `Io` |
| Run.CommandLineWithoutOptions | src/run.rs:62-66 | without options the command line is the program alone |
| Run.CommandLineWithTwoOptions | src/run.rs:62-66 | with two options the command line is `program opt1 opt2` |
| Run.FoldOptionsLength | src/run.rs:64 | the fold adds exactly two characters per option after the first |
| Run.CommandLineAgreesIff | src/run.rs:62-66 | the code's command line equals the single-spaced one iff there are zero or two options |
| Run.OneOptionIsGlued | src/run.rs:64-66 | a single option is glued to the program (`denv-v`) |
| Run.SpacedCommandLineSplits | src/run.rs:62-66 | the single-spaced command line splits on spaces back into program and options |
| Run.ReplacePlaceholder | src/run.rs:71-74 | for a template whose literal text holds no `<`, replacing a placeholder in the rendered template equals rendering with that hole substituted |
| Run.HookFillsTemplate | src/run.rs:71-74 | when neither the template's literal text nor the command line holds a `<`, the hook is the template with the working-directory variable, the load command and `<cli> unload` in place |
| Run.InsertedPlaceholderReplacedAgain | src/run.rs:71-74 | the chained `replace` calls also act on inserted text: the command line `<unload_cmd>` in a `<load_cmd>` template comes out as `<unload_cmd> unload`, not as the filled template `<unload_cmd>` |
| Run.ComparisonInTemplateKept | src/run.rs:71-74 | a literal `<` that does not begin a placeholder is left alone: the template `1<2 <load_cmd>` with command line `denv` comes out as the filled template |
| Run.Substitute | src/run.rs:71-74 | substitution keeps the number of template pieces, turns each occurrence of the hole into the replacement text and leaves every other piece as it was |
| Installer.ErrorMessage | src/soft/mod.rs:27-40 | an I/O error prints its own text; an unsupported system prints its fixed message |
| Installer.ExecCallsIndexed | src/soft/installer.rs:83-86 | one `make_executable` per binary, in order, under the software directory |
| Installer.LinkCalls | src/soft/installer.rs:87-89 | one `ensure_symlink` per symlink, in order, from under the software directory |
| Installer.InstallRunShape | src/soft/installer.rs:57-107 | after the software directory, the probe comes first and then the unpack step |
| Installer.Collaborators.Invoke | src/soft/installer.rs:63-104 | a call is recorded and answers as the oracle says |
| Installer.ProbeInstalled | src/soft/installer.rs:66-69 | the probe's calls and answer match its specification |
| Installer.FetchArchive | src/soft/installer.rs:77-81 | temp file, download and unpack run in order and stop at the first failure |
| Installer.MakeExecutables | src/soft/installer.rs:83-86 | the binaries are made executable in order, stopping at the first failure |
| Installer.EnsureSymlinks | src/soft/installer.rs:87-104 | the symlinks are updated in order; a required one stops the install, an optional one does not |
| Installer.Install | src/soft/installer.rs:57-107 | the installer's calls and result are those of its specification |
| Installer.InstallTargz | src/soft/installer.rs:111-115 | the tar.gz variant is the installer with the untar unpacker |
| Installer.InstallZip | src/soft/installer.rs:117-121 | the zip variant is the installer with the unzip unpacker |
| InstallerProperties.ThenBlames | src/soft/installer.rs:57-107 | chaining two steps keeps "a failure is the last call's error" |
| InstallerProperties.SequenceBlames | src/soft/installer.rs:83-86 | a failing sequence ends with the failing call and reports its error |
| InstallerProperties.UpdateSymlinksBlames | src/soft/installer.rs:87-104 | a failing symlink update ends with the failing required link |
| InstallerProperties.InstallFailureIsLastCall | src/soft/installer.rs:57-107 | a failed install stops at the call that failed and returns that call's I/O error |
| InstallerProperties.SequenceSucceedsIff | src/soft/installer.rs:83-86 | a sequence succeeds iff none of its calls fails, and it then makes all of them |
| InstallerProperties.SequenceFirstFailure | src/soft/installer.rs:83-86 | the first failing call ends the sequence with its error and nothing after it runs |
| InstallerProperties.ProbeInstalledIff | src/soft/installer.rs:66-69 | "installed" iff every binary exists under the software directory; the probe only asks `file_exists` |
| InstallerProperties.ProbeStopsAtFirstMissing | src/soft/installer.rs:66-69 | the probe stops at the first missing binary |
| InstallerProperties.FileExistsCalls | src/soft/installer.rs:66-69 | one existence check per binary, joined to the software directory |
| InstallerProperties.UpdateSymlinksSucceedsIff | src/soft/installer.rs:87-104 | the symlinks step succeeds iff no required link fails, and it then tries every link |
| InstallerProperties.OptionalLinkFailureContinues | src/soft/installer.rs:91-101 | an optional link's failure is passed over and the rest still runs |
| InstallerProperties.SoftwareDirFailureStops | src/soft/installer.rs:63-65 | a software directory that cannot be made ends the install at once with its error |
| InstallerProperties.SequenceCallsFrom | src/soft/installer.rs:83-86 | a sequence makes only calls from its list |
| InstallerProperties.UpdateSymlinksCallsAreLinks | src/soft/installer.rs:87-104 | the symlink step calls only `ensure_symlink` |
| InstallerProperties.InstalledSkipsDownload | src/soft/installer.rs:70-75 | when every binary is present, nothing is downloaded or unpacked |
| InstallerProperties.MissingBinaryFetches | src/soft/installer.rs:75-82 | when a binary is missing, the temp file is created right after the probe |
| InstallerProperties.InstallSucceedsIff | src/soft/installer.rs:57-107 | the install succeeds iff no fatal call fails |
| InstallerProperties.SuccessMadeEveryBinaryExecutable | src/soft/installer.rs:83-86 | after a successful install, every binary was made executable |
| K8s.Arch | src/soft/k8s.rs:31-38 | exactly x86_64, arm and aarch64 are supported; any other is `UnsupportedSystem` |
| K8s.Os | src/soft/k8s.rs:41-47 | exactly macos and linux are supported; any other is `UnsupportedSystem` |
| K8s.ArchInjective | src/soft/k8s.rs:31-38 | distinct supported architectures get distinct release names |
| K8s.OsInjective | src/soft/k8s.rs:41-47 | distinct supported systems get distinct release names |
| K8s.ChartTesting.Name | src/soft/k8s.rs:83-85 | the name is `chart-testing` |
| K8s.ChartTesting.Version | src/soft/k8s.rs:87-89 | the version is the configured one |
| K8s.Install | src/soft/k8s.rs:51-77 | the calls and result are those of its specification |
| K8s.InstallerReachedIff | src/soft/k8s.rs:51-77 | the tar.gz installer is reached iff both directories resolve and the target is supported; its result and artifact are then returned |
| K8s.UnsupportedTargetAfterDirectories | src/soft/k8s.rs:51-73 | an unsupported target fails only after both directories were asked for |
| K8s.ReleaseUrlShape | src/soft/k8s.rs:70-73 | the URL is under the version's GitHub release and ends in `.tar.gz` |
| K8s.ArtifactLinks | src/soft/k8s.rs:56-77 | the artifact is named `chart-testing`, carries the version and the release URL, and has three symlinks with sources relative to the archive: `ct` into the env directory, and `etc/chart-schema.yaml` and `etc/lintconf.yaml` under `~/.ct` at distinct destinations |
| Json.GetFound | src/cfg.rs:21-32 | a key is found iff the object has a member with that key, and the value found is that member's |
| Json.Lookup | src/cfg.rs:137-155 | a lookup finds a member with the key, or reports that no member has it |
| Json.LookupCons | src/cfg.rs:137-155 | the first member with the key wins |
| Json.EscapeChar | src/cfg.rs:53-54 | exactly the quote, the backslash and control characters are escaped |
| Json.HexValue | src/cfg.rs:53-54 | a hex digit reads back to its position among the digits |
| Json.UnicodeEscape | src/cfg.rs:53-54 | a `\u00XX` escape decodes only control characters |
| Json.UnescapeChar | src/cfg.rs:53-54 | decoding an escaped character gives the character back |
| Json.UnescapeEscape | src/cfg.rs:53-54 | decoding an escaped string gives the string back |
| Json.RenderStrRoundTrip | src/cfg.rs:53-54 | a printed string is quoted and its contents decode back to the string |
| Json.RenderNumberRoundTrip | src/cfg.rs:53-54 | a printed number parses back to the number |
| Cfg.InvalidNumberVersionMessage | src/cfg.rs:53-54 | version 1 is reported as `1 is not a valid configuration version` |
| Cfg.VersionMessagesDistinct | src/cfg.rs:52-56 | two invalid versions give the same message iff they print alike; a missing version reads differently |
| Cfg.IntoSoftware | src/cfg.rs:89-96 | each definition becomes the software of its kind with its version |
| Cfg.IntoSoftwareRoundTrip | src/cfg.rs:89-96 | definitions and softwares correspond one to one |
| Cfg.IntoVar | src/cfg.rs:104-110 | a variable keeps its definition's name and value |
| Cfg.ValueText | src/cfg.rs:156-161 | booleans print as `true`/`false`, strings as themselves, integers as text that parses back and floats as their printed text |
| Cfg.VarDefsConcat | src/cfg.rs:151-169 | the variables of two item lists are those of each, in order |
| Cfg.UnvaluedEntriesDropped | src/cfg.rs:155-167 | entries without a `value` define no variable |
| Cfg.ValuedEntriesKept | src/cfg.rs:151-169 | every entry with a value defines one variable, in order, with its name and printed value |
| Cfg.SoftDefsOrder | src/cfg.rs:137-150 | at most chart-testing then Terraform, each present iff its key is under `softwares`, with that version |
| Cfg.SoftDefsVersions | src/cfg.rs:137-150 | at most two software definitions, chart-testing before Terraform, each with the version written under its key |
| Cfg.SoftDefsKind | src/cfg.rs:137-150 | a kind is defined iff its key is present under `softwares` |
| Cfg.LoadSoftwares | src/cfg.rs:137-150 | the `softwares` step of `load_v1` yields exactly the definitions `Cfg.SoftDefsOrder` describes |
| Cfg.LoadVars | src/cfg.rs:151-169 | the loop over `set` yields the definitions of the entries in array order, those of `Cfg.VarDefsConcat`, `Cfg.UnvaluedEntriesDropped` and `Cfg.ValuedEntriesKept` |
| Cfg.LoadVar | src/cfg.rs:154-167 | one entry yields its printed value under its name, or nothing without a value |
| Cfg.LoadV1 | src/cfg.rs:125-171 | schema errors give `Config` with those errors; otherwise the configuration read from the document |
| Cfg.Load | src/cfg.rs:174-187 | I/O, YAML and version errors in that order; success iff the version is the string `v1` and the schema holds |
| Cfg.ExampleLookups | src/cfg.rs:380-393 | in a document holding the test's expected softwares and variables, the keys are found with their values |
| Cfg.ExampleVarDefs | src/cfg.rs:394-411 | the four `set` entries give `VAR_STR = "value"`, `VAR_INT = "1"`, `VAR_NB = "1.1"` and `VAR_BOOL = "true"`, in that order, as the v1 test expects |
| Cfg.ExampleDocument | src/cfg.rs:380-414 | the document loads into exactly the configuration the v1 test expects: chart-testing 3.7.0, Terraform 1.2.3 and the four variables |
| LibVar.ExportRoundTrip | denv_lib/src/var.rs:12-14 | an export statement parses back to its variable |
| LibVar.ParseExportSound | denv_lib/src/var.rs:12-14 | whatever parses is exactly the export statement of what it parses to |
| LibVar.ExportStatementInjective | denv_lib/src/var.rs:12-14 | distinct variables (names without `=`) give distinct statements |
| LibSoftware.SameIsIdentity | denv_lib/src/software/mod.rs:20-24 | two softwares are equal iff name and version match, and equal ones display alike |
| LibSoftware.DisplayDeterminesVersion | denv_lib/src/software/mod.rs:14-18 | for one name, the display identifies the version |
| LibSoftware.DisplayAmbiguousAcrossNames | denv_lib/src/software/mod.rs:14-18 | across names, two different softwares can display alike |
| LibError.FmtSupportedSystems | denv_lib/src/error.rs:116-133 | the loop builds the bracketed, comma-separated listing of sorted (system, arch) pairs |
| LibError.TerminatedJoin | denv_lib/src/error.rs:116-133 | trimming the final `, ` leaves the pairs joined by `, `; nothing is trimmed when empty |
| LibError.ArchPairs | denv_lib/src/error.rs:121-127 | one pair per architecture of the system, in order |
| LibError.PairsMembership | denv_lib/src/error.rs:116-133 | a pair is listed iff the table supports it |
| LibError.PairsCount | denv_lib/src/error.rs:116-133 | as many pairs as supported architectures in all |
| LibError.PairsOrdered | denv_lib/src/error.rs:116-133 | pairs are strictly increasing by system, then architecture |
| LibError.EmptyTable | denv_lib/src/error.rs:116-133 | an empty table lists as `[]` |
| LibError.ExampleListing | denv_lib/src/error.rs:380-403 | the test table lists as `[linux x86, linux x86_64, macos aarch64, macos arm]` |
| LibError.FileSystemMessageParts | denv_lib/src/error.rs:136-163 | a file system error names its path and then its cause |
| LibError.FileSystemMessageSamePath | denv_lib/src/error.rs:136-163 | two file system errors on the same path print alike iff their causes are the same |
| LibError.InstallFailedMessageConstant | denv_lib/src/error.rs:136-163 | an install-failed error prints the same whatever it holds |
| LibError.UnsupportedMessages | denv_lib/src/error.rs:136-163 | the unsupported-OS and unsupported-arch messages name the system and the listing, and differ |
| LibError.UnzipMessageParts | denv_lib/src/error.rs:136-163 | an unzip error names the file, the archive and the cause |
| LibFs.LayoutShape | denv_lib/src/internal/fs.rs:21-60 | the software, binary, env directory and env file paths and their parents |
| LibFs.LayoutDisjoint | denv_lib/src/internal/fs.rs:21-60 | a software directory is never an environment directory, and a binary is never an environment entry |
| LibFs.ParentShape | denv_lib/src/internal/fs.rs:29-41 | a parent is shorter; only the empty path and `/` have none |
| LibFs.Create | denv_lib/src/internal/fs.rs:9-19 | creating succeeds iff the path is free and its parent is a directory, and then adds exactly that entry |
| LibFs.DirAllSucceeds | denv_lib/src/internal/fs.rs:9-19 | making a directory with its parents succeeds iff no existing non-directory is in the way |
| LibFs.DirAllMakesDir | denv_lib/src/internal/fs.rs:9-19 | after success the path is a directory |
| LibFs.DirAllFailureUnchanged | denv_lib/src/internal/fs.rs:9-19 | a failure leaves the disk as it was |
| LibFs.DirAllExtends | denv_lib/src/internal/fs.rs:9-19 | only new directories are added, none removed or changed |
| LibFs.DirAllWellFormed | denv_lib/src/internal/fs.rs:9-19 | every entry keeps a directory as its parent |
| LibFs.Open | denv_lib/src/internal/fs.rs:29-41 | opening changes nothing, or adds a new file with the default mode |
| LibFs.DefaultFileSystem.EnsureDir | denv_lib/src/internal/fs.rs:9-19 | result and new disk are those of its specification |
| LibFs.DefaultFileSystem.OpenFile | denv_lib/src/internal/fs.rs:29-41 | result and new disk are those of its specification |
| LibFs.DefaultFileSystem.CreateBinFile | denv_lib/src/internal/fs.rs:97-108 | result and new disk are those of its specification |
| LibFs.DefaultFileSystem.CreateBinSymlink | denv_lib/src/internal/fs.rs:110-127 | result and new disk are those of its specification |
| LibFs.DefaultFileSystem.CreateEnvFile | denv_lib/src/internal/fs.rs:129-131 | opens the env file of the environment |
| LibFs.DefaultFileSystem.CreateTmpFile | denv_lib/src/internal/fs.rs:133-135 | opens the file under the temporary directory |
| LibFs.DefaultFileSystem.IsInstalledSoftware | denv_lib/src/internal/fs.rs:145-147 | installed iff the software directory is a directory |
| LibFs.OpenFileSucceeds | denv_lib/src/internal/fs.rs:29-41 | opening succeeds iff the path is not a directory and nothing blocks its parent; a non-directory is then there |
| LibFs.OpenFileSteps | denv_lib/src/internal/fs.rs:29-41 | the parent is made first, then the file opened |
| LibFs.OpenFileOnDirectory | denv_lib/src/internal/fs.rs:29-41 | opening a directory fails with `EISDIR` on that path |
| LibFs.OpenFileWellFormed | denv_lib/src/internal/fs.rs:29-41 | opening keeps every entry under a directory |
| LibFs.BinFileInstalls | denv_lib/src/internal/fs.rs:97-108 | a created binary is at its path, its directory exists, and a new one is executable |
| LibFs.BinFileUnderFile | denv_lib/src/internal/fs.rs:97-108 | a file in place of the denv directory makes it fail and change nothing |
| LibFs.BinSymlinkLinks | denv_lib/src/internal/fs.rs:110-127 | after success the env entry links to the binary |
| LibFs.BinSymlinkReplacesLink | denv_lib/src/internal/fs.rs:110-127 | a link already there is replaced by the link to the binary |
| LibFs.BinSymlinkRepeatable | denv_lib/src/internal/fs.rs:110-127 | running it again after success succeeds and changes nothing |
| LibFs.BinSymlinkRefusesFile | denv_lib/src/internal/fs.rs:110-127 | a regular file there is kept and `EEXIST` is reported on it |
| LibFs.EnvFileCreated | denv_lib/src/internal/fs.rs:129-131 | a created env file lies in an existing environment directory |
| Terraform.Arch | denv_lib/src/software/terraform.rs:5-15 | exactly x86, x86_64, arm and aarch64 are accepted; any other gives `UnsupportedArch` with the table |
| Terraform.Os | denv_lib/src/software/terraform.rs:17-25 | exactly macos and linux are accepted; any other gives `UnsupportedOs` with the table |
| Terraform.ArchInjective | denv_lib/src/software/terraform.rs:5-15 | distinct accepted architectures get distinct release names |
| Terraform.OsInjective | denv_lib/src/software/terraform.rs:17-25 | distinct accepted systems get distinct release names |
| Terraform.ListedSystemsAccepted | denv_lib/src/software/terraform.rs:27-34 | every pair in the supported table is accepted |
| Terraform.AcceptedBeyondTable | denv_lib/src/software/terraform.rs:5-34 | macos with x86 or arm is accepted although the table does not list it |
| Terraform.UrlNamesArchive | denv_lib/src/software/terraform.rs:45-49 | the URL starts with `https://releases.hashicorp.com/terraform/<version>/` and ends with `/` and the archive name |
| Terraform.FilenameDistinguishesTargets | denv_lib/src/software/terraform.rs:45 | distinct targets get distinct archive names |
| Terraform.Terraform.Name | denv_lib/src/software/terraform.rs:70-72 | the name is `terraform` |
| Terraform.Terraform.Version | denv_lib/src/software/terraform.rs:74-76 | the version is the configured one |
| Terraform.Terraform.AsSoftware | denv_lib/src/software/mod.rs:14-18 | it displays as `terraform v<version>` |
| Terraform.SameSoftwareIffSameVersion | denv_lib/src/software/mod.rs:20-24 | two Terraforms are the same software iff their versions match |
| Terraform.Tools.Download | denv_lib/src/software/terraform.rs:54-56 | a download is recorded and fails as the oracle says |
| Terraform.Tools.Unzip | denv_lib/src/software/terraform.rs:62-64 | an unzip is recorded and fails as the oracle says |
| Terraform.Install | denv_lib/src/software/terraform.rs:41-68 | target, temporary archive, download, binary file, unzip in that order, each failure ending the call with its own error; the disk and the calls are what those steps leave |
| Terraform.TargetChecked | denv_lib/src/software/terraform.rs:43-45 | an unsupported target fails with nothing called; a supported one hands over to the temp file, download and unzip |
| Terraform.UnsupportedOsFirst | denv_lib/src/software/terraform.rs:43 | an unsupported system fails before anything is touched, whatever the architecture |
| Terraform.UnsupportedArchSecond | denv_lib/src/software/terraform.rs:44 | on a supported system, an unsupported architecture fails before anything is touched |
| Terraform.ArchiveFlow | denv_lib/src/software/terraform.rs:45-64 | the archive is downloaded to the temp file, and the binary is unzipped from that file |
| Terraform.TmpFileFailureStops | denv_lib/src/software/terraform.rs:50-53 | a temp file that cannot be made fails before any download |
| Terraform.DownloadFailureStops | denv_lib/src/software/terraform.rs:54-56 | a failed download stops before the binary file is made |
| Terraform.UnzipFailureNamesArchive | denv_lib/src/software/terraform.rs:62-64 | an unzip failure names the temporary archive and the `terraform` entry |
| Terraform.InstallSucceeds | denv_lib/src/software/terraform.rs:41-68 | success iff the target is supported, both files can be made and neither tool fails |
| Terraform.InstalledAfterSuccess | denv_lib/src/software/terraform.rs:41-68 | after success the library sees Terraform as installed |
| Environment.New | denv_lib/src/lib.rs:19-24 | the id is the hash of the project path |
| Environment.NewDeterministic | denv_lib/src/lib.rs:19-24 | the same path gives the same environment |
| Environment.PathsSeparateEnvironments | denv_lib/src/lib.rs:71-73 | distinct environments have distinct directories |
| Environment.EnvLineExportsPath | denv_lib/src/lib.rs:57-68 | the env file line is `export PATH="<env dir>:$PATH"` and parses back to that variable |
| Environment.EnvWriter.Write | denv_lib/src/lib.rs:66-68 | a write is recorded and fails as configured |
| Environment.LoopAccounts | denv_lib/src/lib.rs:33-50 | each software gets one fate, in configuration order; the install list holds exactly the keys of the softwares that failed to install, and the symlink list exactly those that failed to link, each in configuration order; the lengths match the fate counts |
| Environment.FailuresListedUnderOwnKeys | denv_lib/src/lib.rs:108-165 | with the first software failing to install and the second failing to link, each list holds one error under that software's own key, as the source's test expects |
| Environment.ListsEmptyIffAllLoaded | denv_lib/src/lib.rs:33-56 | both lists are empty iff every software was loaded, and the counts add up |
| Environment.InstallOnlyWhenMissing | denv_lib/src/lib.rs:37-39 | install runs only for a software not installed at its turn |
| Environment.NoSymlinkAfterInstallFailure | denv_lib/src/lib.rs:39-43 | a failed install lists its error and skips the symlink |
| Environment.InstallFailedBeforeEnvFile | denv_lib/src/lib.rs:51-56 | any loop error fails with both lists before the env file is opened |
| Environment.CleanLoopWritesPathLine | denv_lib/src/lib.rs:57-68 | only after a clean loop is the env file written, with the single `PATH` line |
| Environment.LoadSucceeds | denv_lib/src/lib.rs:30-69 | load succeeds iff every software loads, the env file opens and the write succeeds |
| Environment.EnvFileErrors | denv_lib/src/lib.rs:62-68 | an open failure or a write failure tagged with the env file's path |
| Environment.Load | denv_lib/src/lib.rs:30-69 | result, disk, calls and writes are those of its specification |

## Left out

- Hook templates: the shell scripts are resource files not available here. They are constructor parameters of `Run.Runner`.
- `Run.Runner.Run`: requires `cmd.Hook?`. The source's match handles only `Hook`, and `load`/`unload` are declared but not implemented.
- `Run.Runner.RunHook`: requires a non-empty argument list. The source unwraps the first argument.
- The `Mutex` around the writers: only for thread safety. Outputs are strings that are appended to. A poisoned lock and the panic on a failed log write are not modelled.
- Logger registration (`init`, `set_boxed_logger`, `set_max_level`): global process state. `APP_NAME` is a constructor parameter.
- The process environment (`env::consts::OS`/`ARCH`, home directory, current directory): these are parameters or oracle fields.
- JSON floats: a float is carried by the text serde_json prints for it. Float arithmetic and the shortest-decimal printing are not modelled.
- Object member order and duplicate keys: members are a list, and the first match wins.
- YAML parsing: the loader's input is a source that is unreadable, not YAML, or a JSON document.
- The JSON schema validator: it is represented by the list of messages it would produce. The schema file is not part of this model.
- `Run.ReplacePlaceholder`: requires that no literal text of the template holds a `<`. A literal `<` next to other text could combine with it into a placeholder, and that case is not covered in general; `Run.ComparisonInTemplateKept` shows one template with a `<` that comes out right.
- `Run.HookFillsTemplate`: requires, as well, that the command line holds no `<`. Since the three `replace` calls act one after the other on the whole text, a placeholder inside the command line is replaced again (`Run.InsertedPlaceholderReplacedAgain`); the lemma does not describe the output in that case.
- `Cfg.LoadV1`: requires that a document without schema messages has the v1 shape (`set` an array of objects with a string `name` and a boolean, number or string `value`). The source relies on the schema for this and panics otherwise (`unwrap` and `unreachable!` in src/cfg.rs:151-160). Those panics are not modelled.
- `Cfg.Load`: requires `SchemaSound`, the same assumption on the validator, for the same reason.
- `src/fs.rs`, `src/soft/tf.rs`, `src/var/mod.rs`, `src/net.rs`, `src/archive.rs`, `src/main.rs`, `denv/src/main.rs`, `denv_lib/src/cfg.rs`, `denv_lib/src/internal/downloader.rs` and `denv_lib/src/internal/unzip.rs` are not part of this model. Their effects are collaborator calls whose answers come from an oracle.
- `Environment.Load`: the configured softwares are Terraform values, the library's only software.
- Download and unzip errors, and `io::Error`: represented by their display text.
- SHA-256 and hex encoding in `Environment::new`: a hash function parameter.
- The installer's and loaders' `debug!`/`info!`/`warn!`/`error!` logging is not modelled.
- `LibFs`: file contents are not modelled (downloads and unzips do not write into the disk model). Links are not followed. Paths are not normalised.
- `LibFs`: there are no permissions on directories, no read-only media and no full disks. `mkdir`, `open` and `symlink` fail only with EEXIST, ENOENT, ENOTDIR or EISDIR; EACCES, EROFS and ENOSPC are not modelled. `remove_file` of an existing link always succeeds. `LibFs.DirAllSucceeds` and `LibFs.OpenFileSucceeds` are iff statements under this restriction.
- `LibFs`: the umask is taken as the default mode 0o644. Failures of `metadata` and `set_permissions` after a successful open are not modelled. The mode printed by `create_bin_file` is not modelled.

## Findings

| source | as written | input that shows it | evidently intended | confidence | as-written member | corrected member |
|---|---|---|---|---|---|---|
| src/run.rs:62-66 | options are folded with `format!(" {} {}", acc, arg)`, so a single option is glued to the program and three or more get extra spaces | arguments `denv -v hook bash` rebuild the command line `denv-v` | each option after one space: `denv -v` | high, not executed | Run.OneOptionIsGlued | Run.SpacedCommandLineSplits |

`Run.CommandLineAgreesIff` shows the two command lines agree exactly when there are zero or two options, the cases the source's tests cover. `Run.Runner` keeps the as-written rebuild, since that is what the hook prints.
