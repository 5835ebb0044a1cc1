/** What `install` of src/soft/installer.rs promises, stated on the specification function
    `Installer.InstallRun` (and so, through `Installer.Install`'s postcondition, on the
    installer itself). */
module InstallerProperties {
  import opened Results
  import opened Paths
  import opened Installer

  /** A run blames its failure on the last call it made: the error is that call's I/O error,
      and nothing was called after it. */
  predicate BlamesLastCall(r: Run, o: Oracle) {
    r.result.Failure? ==>
      r.calls != [] && r.calls[|r.calls| - 1] in o.failures
      && r.result.error == Io(o.failures[r.calls[|r.calls| - 1]])
  }

  predicate IsFetchCall(c: Call) {
    c.CreateTempFile? || c.Download? || c.Extract?
  }

  /** Every file in the artifact's binary list exists under the software directory. */
  predicate AllPresent(soft: Path, bins: seq<Path>, o: Oracle) {
    forall k :: 0 <= k < |bins| ==> Join(soft, bins[k]) in o.present
  }

  predicate NoneFails(cs: seq<Call>, o: Oracle) {
    forall k :: 0 <= k < |cs| ==> cs[k] !in o.failures
  }

  /** No link whose failure aborts the installation fails. */
  predicate RequiredLinksHold(soft: Path, links: seq<Symlink>, o: Oracle) {
    forall k :: 0 <= k < |links| ==> links[k].required ==> LinkCall(soft, links[k]) !in o.failures
  }

  /** When `install` succeeds: the software directory, the download and extraction when
      they are needed, every executable bit and every required link. */
  predicate NoFatalFailure(a: Artifact, x: Extractor, o: Oracle) {
    EnsureSoftwareDir(a.name, a.version) !in o.failures
    && (AllPresent(o.softDir, a.binFilepaths, o) || NoneFails(FetchCalls(a.url, o.softDir, x, o), o))
    && NoneFails(ExecCalls(o.softDir, a.binFilepaths), o)
    && RequiredLinksHold(o.softDir, a.symlinks, o)
  }

  lemma ThenBlames(first: Run, next: Run, o: Oracle)
    requires BlamesLastCall(first, o) && BlamesLastCall(next, o)
    requires first.result.Success? && next.result.Failure? ==> next.calls != []
    ensures BlamesLastCall(Then(first, next), o)
  {
    if first.result.Success? && next.result.Failure? {
      var all := first.calls + next.calls;
      assert all[|all| - 1] == next.calls[|next.calls| - 1];
    }
  }

  /** Calls made one after the other stop at the first failure, which is reported. */
  lemma {:induction false} SequenceBlames(cs: seq<Call>, o: Oracle)
    ensures BlamesLastCall(Sequence(cs, o), o)
  {
    if cs != [] {
      SequenceBlames(cs[1..], o);
      ThenBlames(Step(cs[0], o), Sequence(cs[1..], o), o);
    }
  }

  lemma {:induction false} UpdateSymlinksBlames(soft: Path, links: seq<Symlink>, o: Oracle)
    ensures BlamesLastCall(UpdateSymlinks(soft, links, o), o)
  {
    if links != [] {
      UpdateSymlinksBlames(soft, links[1..], o);
      ThenBlames(LinkStep(soft, links[0], o), UpdateSymlinks(soft, links[1..], o), o);
    }
  }

  /** A failed installation returns `Error::Io` with the error of the collaborator call that
      failed, and that call is the last one made: every later step is skipped. */
  lemma InstallFailureIsLastCall(a: Artifact, x: Extractor, o: Oracle)
    ensures BlamesLastCall(InstallRun(a, x, o), o)
  {
    var soft := o.softDir;
    var probe := ProbeBinaries(soft, a.binFilepaths, o);
    var execs := Sequence(ExecCalls(soft, a.binFilepaths), o);
    var links := UpdateSymlinks(soft, a.symlinks, o);
    var fetch := Sequence(FetchCalls(a.url, soft, x, o), o);
    SequenceBlames(ExecCalls(soft, a.binFilepaths), o);
    SequenceBlames(FetchCalls(a.url, soft, x, o), o);
    UpdateSymlinksBlames(soft, a.symlinks, o);
    var finish := Then(execs, links);
    ThenBlames(execs, links, o);
    var unpacked := Unpacked(a, x, o, probe.installed);
    if !probe.installed {
      ThenBlames(fetch, finish, o);
    }
    ThenBlames(Done(probe.calls), unpacked, o);
    ThenBlames(Step(EnsureSoftwareDir(a.name, a.version), o), Then(Done(probe.calls), unpacked), o);
  }

  /** Fallible calls in sequence succeed exactly when none of them fails, and then every one
      of them was made. */
  lemma {:induction false} SequenceSucceedsIff(cs: seq<Call>, o: Oracle)
    ensures Sequence(cs, o).result.Success? <==> NoneFails(cs, o)
    ensures NoneFails(cs, o) ==> Sequence(cs, o).calls == cs
  {
    if cs != [] {
      SequenceSucceedsIff(cs[1..], o);
      if NoneFails(cs, o) {
        assert NoneFails(cs[1..], o) by {
          forall k | 0 <= k < |cs[1..]| ensures cs[1..][k] !in o.failures {
            assert cs[1..][k] == cs[k + 1];
          }
        }
        assert [cs[0]] + cs[1..] == cs;
      } else if cs[0] !in o.failures {
        assert !NoneFails(cs[1..], o) by {
          var k :| 0 <= k < |cs| && cs[k] in o.failures;
          assert cs[1..][k - 1] == cs[k];
        }
      }
    }
  }

  /** The first failing call of a sequence ends it, with that call's error. */
  lemma {:induction false} SequenceFirstFailure(cs: seq<Call>, o: Oracle, k: nat)
    requires k < |cs| && cs[k] in o.failures && NoneFails(cs[..k], o)
    ensures Sequence(cs, o) == Run(Failure(Io(o.failures[cs[k]])), cs[..k + 1])
  {
    if k == 0 {
      assert cs[..1] == [cs[0]];
    } else {
      assert cs[0] == cs[..k][0];
      assert cs[1..][..k - 1] == cs[..k][1..];
      var tail := cs[1..][..k - 1];
      assert NoneFails(tail, o) by {
        forall j | 0 <= j < |tail| ensures tail[j] !in o.failures {
          assert tail[j] == cs[..k][j + 1];
        }
      }
      SequenceFirstFailure(cs[1..], o, k - 1);
      assert [cs[0]] + cs[1..][..k] == cs[..k + 1];
    }
  }

  /** The probe answers "installed" exactly when every binary exists. */
  lemma {:induction false} ProbeInstalledIff(soft: Path, bins: seq<Path>, o: Oracle)
    ensures ProbeBinaries(soft, bins, o).installed <==> AllPresent(soft, bins, o)
    ensures forall c :: c in ProbeBinaries(soft, bins, o).calls ==> c.FileExists?
  {
    if bins != [] {
      ProbeInstalledIff(soft, bins[1..], o);
      if AllPresent(soft, bins, o) {
        assert AllPresent(soft, bins[1..], o) by {
          forall k | 0 <= k < |bins[1..]| ensures Join(soft, bins[1..][k]) in o.present {
            assert bins[1..][k] == bins[k + 1];
          }
        }
      } else if Join(soft, bins[0]) in o.present {
        assert !AllPresent(soft, bins[1..], o) by {
          var k :| 0 <= k < |bins| && Join(soft, bins[k]) !in o.present;
          assert bins[1..][k - 1] == bins[k];
        }
      }
    }
  }

  /** The probe stops at the first missing binary: it has looked at that one and at the
      binaries before it, and no further. */
  lemma {:induction false} ProbeStopsAtFirstMissing(soft: Path, bins: seq<Path>, o: Oracle, k: nat)
    requires k < |bins| && Join(soft, bins[k]) !in o.present
    requires AllPresent(soft, bins[..k], o)
    ensures ProbeBinaries(soft, bins, o) == Probe(FileExistsCalls(soft, bins[..k + 1]), false)
  {
    if k == 0 {
      assert bins[..1] == [bins[0]];
    } else {
      assert bins[0] == bins[..k][0];
      assert bins[1..][..k - 1] == bins[..k][1..];
      var tail := bins[1..][..k - 1];
      assert AllPresent(soft, tail, o) by {
        forall j | 0 <= j < |tail| ensures Join(soft, tail[j]) in o.present {
          assert tail[j] == bins[..k][j + 1];
        }
      }
      ProbeStopsAtFirstMissing(soft, bins[1..], o, k - 1);
      assert bins[1..][..k] == bins[..k + 1][1..];
    }
  }

  function FileExistsCalls(soft: Path, bins: seq<Path>): (cs: seq<Call>)
    ensures |cs| == |bins|
    ensures forall k :: 0 <= k < |bins| ==> cs[k] == FileExists(Join(soft, bins[k]))
  {
    if bins == [] then [] else [FileExists(Join(soft, bins[0]))] + FileExistsCalls(soft, bins[1..])
  }

  /** The link plan aborts only on a required link: it succeeds exactly when every required
      link can be made, and then every link of the plan was attempted, in order, whatever
      happened to the optional ones. */
  lemma {:induction false} UpdateSymlinksSucceedsIff(soft: Path, links: seq<Symlink>, o: Oracle)
    ensures UpdateSymlinks(soft, links, o).result.Success? <==> RequiredLinksHold(soft, links, o)
    ensures RequiredLinksHold(soft, links, o) ==> UpdateSymlinks(soft, links, o).calls == LinkCalls(soft, links)
  {
    if links != [] {
      UpdateSymlinksSucceedsIff(soft, links[1..], o);
      if RequiredLinksHold(soft, links, o) {
        assert RequiredLinksHold(soft, links[1..], o) by {
          forall k | 0 <= k < |links[1..]| && links[1..][k].required
            ensures LinkCall(soft, links[1..][k]) !in o.failures
          {
            assert links[1..][k] == links[k + 1];
          }
        }
      } else if !(links[0].required && LinkCall(soft, links[0]) in o.failures) {
        assert !RequiredLinksHold(soft, links[1..], o) by {
          var k :| 0 <= k < |links| && links[k].required && LinkCall(soft, links[k]) in o.failures;
          assert links[1..][k - 1] == links[k];
        }
      }
    }
  }

  /** A failing optional link does not stop the plan: the following links are still made. */
  lemma OptionalLinkFailureContinues(soft: Path, links: seq<Symlink>, o: Oracle)
    requires links != [] && !links[0].required && LinkCall(soft, links[0]) in o.failures
    ensures UpdateSymlinks(soft, links, o).calls == [LinkCall(soft, links[0])] + UpdateSymlinks(soft, links[1..], o).calls
    ensures UpdateSymlinks(soft, links, o).result == UpdateSymlinks(soft, links[1..], o).result
  {
  }

  /** `install` fails on the software directory before anything else is called. */
  lemma SoftwareDirFailureStops(a: Artifact, x: Extractor, o: Oracle)
    requires EnsureSoftwareDir(a.name, a.version) in o.failures
    ensures InstallRun(a, x, o) == Run(Failure(Io(o.failures[EnsureSoftwareDir(a.name, a.version)])), [EnsureSoftwareDir(a.name, a.version)])
  {
  }

  lemma {:induction false} SequenceCallsFrom(cs: seq<Call>, o: Oracle)
    ensures forall c :: c in Sequence(cs, o).calls ==> c in cs
  {
    if cs != [] {
      SequenceCallsFrom(cs[1..], o);
    }
  }

  lemma {:induction false} UpdateSymlinksCallsAreLinks(soft: Path, links: seq<Symlink>, o: Oracle)
    ensures forall c :: c in UpdateSymlinks(soft, links, o).calls ==> c.EnsureSymlink?
  {
    if links != [] {
      UpdateSymlinksCallsAreLinks(soft, links[1..], o);
    }
  }

  /** When every binary is already present the archive is neither downloaded nor
      extracted: no temporary file, no download, no extraction call is made. */
  lemma InstalledSkipsDownload(a: Artifact, x: Extractor, o: Oracle)
    requires AllPresent(o.softDir, a.binFilepaths, o)
    ensures forall c :: c in InstallRun(a, x, o).calls ==> !IsFetchCall(c)
  {
    if EnsureSoftwareDir(a.name, a.version) !in o.failures {
      var soft := o.softDir;
      var cs := ExecCalls(soft, a.binFilepaths);
      ExecCallsIndexed(soft, a.binFilepaths);
      ProbeInstalledIff(soft, a.binFilepaths, o);
      InstallRunShape(a, x, o);
      SequenceCallsFrom(cs, o);
      UpdateSymlinksCallsAreLinks(soft, a.symlinks, o);
      assert forall c :: c in cs ==> c.MakeExecutable? by {
        forall c | c in cs ensures c.MakeExecutable? {
          var k :| 0 <= k < |cs| && cs[k] == c;
        }
      }
      var finish := Then(Sequence(cs, o), UpdateSymlinks(soft, a.symlinks, o));
      assert Unpacked(a, x, o, true) == finish;
      assert forall c :: c in finish.calls ==> c.MakeExecutable? || c.EnsureSymlink?;
    }
  }

  /** When some binary is missing (and the software directory could be ensured), the
      installer downloads the archive right after the probe: the next call creates the
      temporary file. */
  lemma MissingBinaryFetches(a: Artifact, x: Extractor, o: Oracle)
    requires EnsureSoftwareDir(a.name, a.version) !in o.failures
    requires !AllPresent(o.softDir, a.binFilepaths, o)
    ensures var n := 1 + |ProbeBinaries(o.softDir, a.binFilepaths, o).calls|;
      n < |InstallRun(a, x, o).calls| && InstallRun(a, x, o).calls[n] == CreateTempFile
  {
    var probe := ProbeBinaries(o.softDir, a.binFilepaths, o);
    ProbeInstalledIff(o.softDir, a.binFilepaths, o);
    InstallRunShape(a, x, o);
    var cs := FetchCalls(a.url, o.softDir, x, o);
    assert Sequence(cs, o).calls[0] == CreateTempFile;
  }

  /** `install` succeeds exactly when no fatal step fails; a failing optional link or a
      skipped download does not make it fail. */
  lemma InstallSucceedsIff(a: Artifact, x: Extractor, o: Oracle)
    ensures InstallRun(a, x, o).result.Success? <==> NoFatalFailure(a, x, o)
  {
    var soft := o.softDir;
    ProbeInstalledIff(soft, a.binFilepaths, o);
    SequenceSucceedsIff(FetchCalls(a.url, soft, x, o), o);
    SequenceSucceedsIff(ExecCalls(soft, a.binFilepaths), o);
    UpdateSymlinksSucceedsIff(soft, a.symlinks, o);
    if EnsureSoftwareDir(a.name, a.version) !in o.failures {
      InstallRunShape(a, x, o);
    }
  }

  /** On success every binary has been made executable, whether the archive was fetched
      or was already there. */
  lemma SuccessMadeEveryBinaryExecutable(a: Artifact, x: Extractor, o: Oracle)
    requires InstallRun(a, x, o).result.Success?
    ensures forall k :: 0 <= k < |a.binFilepaths| ==>
      MakeExecutable(Join(o.softDir, a.binFilepaths[k])) in InstallRun(a, x, o).calls
  {
    var soft := o.softDir;
    var cs := ExecCalls(soft, a.binFilepaths);
    ExecCallsIndexed(soft, a.binFilepaths);
    InstallSucceedsIff(a, x, o);
    SequenceSucceedsIff(cs, o);
    InstallRunShape(a, x, o);
    var probe := ProbeBinaries(soft, a.binFilepaths, o);
    var rest := Unpacked(a, x, o, probe.installed);
    var finish := Then(Sequence(cs, o), UpdateSymlinks(soft, a.symlinks, o));
    SequenceSucceedsIff(FetchCalls(a.url, soft, x, o), o);
    assert forall c :: c in cs ==> c in finish.calls;
    assert forall c :: c in finish.calls ==> c in rest.calls;
    forall k | 0 <= k < |a.binFilepaths|
      ensures MakeExecutable(Join(soft, a.binFilepaths[k])) in InstallRun(a, x, o).calls
    {
      assert cs[k] in cs;
    }
  }
}
