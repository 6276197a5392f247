/**
 * Removing local config files. The older `Run` removes, per driver version, either
 * the whole config folder (no target given) or the configs whose names match the
 * target; the newer file cleaner removes every config the filesystem looper visits.
 * The filesystem is the sequence of its file paths, in the lexical order a glob
 * returns them; whether a removal fails is an oracle.
 */
module Cleanup {
  import opened Wrappers
  import opened Strings
  import opened Errors
  import opened Matching
  import opened Root
  import opened Validate

  /** The file paths on disk. */
  type Files = seq<String>

  /** The errors `os.Remove` and `os.RemoveAll` would return for a path. */
  datatype Disk = Disk(removeFails: String -> Option<Error>, removeAllFails: String -> Option<Error>)

  /** The files after removing one path. */
  function Without(files: Files, p: String): (r: Files)
    ensures forall q :: q in r <==> q in files && q != p
    decreases |files|
  {
    if files == [] then []
    else
      var rest := Without(files[1..], p);
      assert forall q :: q in files <==> q == files[0] || q in files[1..];
      if files[0] == p then rest else [files[0]] + rest
  }

  /** The files after removing a folder and everything under it. */
  function OutsideFolder(files: Files, folder: String): (r: Files)
    ensures forall q :: q in r <==> q in files && !HasPrefix(q, folder)
    decreases |files|
  {
    if files == [] then []
    else
      var rest := OutsideFolder(files[1..], folder);
      assert forall q :: q in files <==> q == files[0] || q in files[1..];
      if HasPrefix(files[0], folder) then rest else [files[0]] + rest
  }

  /** The files left and the error returned. */
  datatype Removal = Removal(files: Files, err: Option<Error>)

  // ---------------------------------------------------------------------------
  // The older Run (pkg/cleanup/cleanup.go)

  predicate NoTarget(t: Target) {
    t.kernelVersion == "" && t.kernelRelease == "" && t.distro == ""
  }

  /** The folder of one driver version, with the architecture as given. */
  function FolderOf(opts: Options, dv: String): String {
    LegacyConfigPath(opts, dv, "")
  }

  /** The glob of the configs the target names, inside one driver version's folder. */
  function PatternOf(opts: Options, dv: String): String {
    LegacyConfigPath(opts, dv, ConfGlobFromDistro(opts.target))
  }

  /** `cleanupFolder`: nothing in dry-run, otherwise `os.RemoveAll` of the folder. */
  function CleanupFolder(opts: Options, disk: Disk, dv: String, files: Files): (r: Removal)
    ensures opts.dryRun ==> r == Removal(files, None)
    ensures !opts.dryRun ==> r.err == disk.removeAllFails(FolderOf(opts, dv))
    ensures r.err.Some? ==> r.files == files
    ensures !opts.dryRun && r.err.None? ==>
              forall q :: q in r.files <==> q in files && !HasPrefix(q, FolderOf(opts, dv))
  {
    var folder := FolderOf(opts, dv);
    if opts.dryRun then Removal(files, None)
    else if disk.removeAllFails(folder).Some? then Removal(files, disk.removeAllFails(folder))
    else Removal(OutsideFolder(files, folder), None)
  }

  /** The loop over matched files: skipped in dry-run, the first failing removal stops it. */
  function RemoveEach(dryRun: bool, disk: Disk, matches: seq<String>, files: Files): Removal
    decreases |matches|
  {
    if matches == [] || dryRun then Removal(files, None)
    else if disk.removeFails(matches[0]).Some? then Removal(files, disk.removeFails(matches[0]))
    else RemoveEach(dryRun, disk, matches[1..], Without(files, matches[0]))
  }

  /** `cleanupMatchingConfigs`: a malformed glob is returned, otherwise each match is removed. */
  function MatchingRemoval(opts: Options, g: GlobEngine, disk: Disk, dv: String, files: Files): Removal {
    match Glob(g, PatternOf(opts, dv), files)
    case Failure(e) => Removal(files, Some(e))
    case Success(matches) => RemoveEach(opts.dryRun, disk, matches, files)
  }

  /** The mode is chosen by the target: all three fields empty removes the whole folder. */
  function VersionRemoval(opts: Options, g: GlobEngine, disk: Disk, dv: String, files: Files): Removal {
    if NoTarget(opts.target) then CleanupFolder(opts, disk, dv, files)
    else MatchingRemoval(opts, g, disk, dv, files)
  }

  /** `Run`: the driver versions in order, the first error stopping the rest. */
  function RunRemoval(opts: Options, g: GlobEngine, disk: Disk, versions: seq<String>, files: Files): Removal
    decreases |versions|
  {
    if versions == [] then Removal(files, None)
    else
      var r := VersionRemoval(opts, g, disk, versions[0], files);
      if r.err.Some? then r else RunRemoval(opts, g, disk, versions[1..], r.files)
  }

  method CleanupMatchingConfigs(opts: Options, g: GlobEngine, disk: Disk, dv: String, files0: Files)
    returns (files: Files, err: Option<Error>)
    ensures Removal(files, err) == MatchingRemoval(opts, g, disk, dv, files0)
  {
    files := files0;
    var res := Glob(g, PatternOf(opts, dv), files);
    if res.Failure? {
      return files, Some(res.error);
    }
    var matches := res.value;
    var i := 0;
    while i < |matches|
      invariant 0 <= i <= |matches|
      invariant MatchingRemoval(opts, g, disk, dv, files0) == RemoveEach(opts.dryRun, disk, matches[i..], files)
    {
      assert matches[i..][0] == matches[i] && matches[i..][1..] == matches[i + 1..];
      if opts.dryRun {
        i := i + 1;
        continue;
      }
      err := disk.removeFails(matches[i]);
      if err.Some? {
        return files, err;
      }
      files := Without(files, matches[i]);
      i := i + 1;
    }
    err := None;
  }

  method Run(opts: Options, g: GlobEngine, disk: Disk, files0: Files) returns (files: Files, err: Option<Error>)
    ensures Removal(files, err) == RunRemoval(opts, g, disk, opts.driverVersions, files0)
  {
    var versions := opts.driverVersions;
    files := files0;
    var i := 0;
    while i < |versions|
      invariant 0 <= i <= |versions|
      invariant RunRemoval(opts, g, disk, versions, files0) == RunRemoval(opts, g, disk, versions[i..], files)
    {
      assert versions[i..][0] == versions[i] && versions[i..][1..] == versions[i + 1..];
      if NoTarget(opts.target) {
        var r := CleanupFolder(opts, disk, versions[i], files);
        files, err := r.files, r.err;
      } else {
        files, err := CleanupMatchingConfigs(opts, g, disk, versions[i], files);
      }
      if err.Some? {
        return;
      }
      i := i + 1;
    }
    err := None;
  }

  // ---------------------------------------------------------------------------
  // Properties of the older Run

  /** Running over `a + b` runs over `a`, then, unless that failed, over `b`. */
  lemma {:induction false} RunRemovalAppend(opts: Options, g: GlobEngine, disk: Disk,
                                            a: seq<String>, b: seq<String>, files: Files)
    ensures var r := RunRemoval(opts, g, disk, a, files);
      RunRemoval(opts, g, disk, a + b, files) == if r.err.Some? then r else RunRemoval(opts, g, disk, b, r.files)
    decreases |a|
  {
    if a == [] {
      assert a + b == b;
    } else {
      assert (a + b)[0] == a[0] && (a + b)[1..] == a[1..] + b;
      var r := VersionRemoval(opts, g, disk, a[0], files);
      if r.err.None? {
        RunRemovalAppend(opts, g, disk, a[1..], b, r.files);
      }
    }
  }

  /** Removing the matches, when none fails: exactly the matched files are gone. */
  lemma {:induction false} RemoveEachExact(disk: Disk, matches: seq<String>, files: Files)
    requires forall i :: 0 <= i < |matches| ==> disk.removeFails(matches[i]).None?
    ensures var r := RemoveEach(false, disk, matches, files);
      r.err.None? && forall q :: q in r.files <==> q in files && q !in matches
    decreases |matches|
  {
    if matches != [] {
      RemoveEachExact(disk, matches[1..], Without(files, matches[0]));
      assert forall q :: q in matches <==> q == matches[0] || q in matches[1..];
    }
  }

  /**
   * The first failing removal is returned; the matches before it are gone and the
   * later ones are left in place.
   */
  lemma {:induction false} RemoveEachStopsAtFailure(disk: Disk, matches: seq<String>, files: Files, k: nat)
    requires k < |matches| && disk.removeFails(matches[k]).Some?
    requires forall i :: 0 <= i < k ==> disk.removeFails(matches[i]).None?
    ensures var r := RemoveEach(false, disk, matches, files);
      r.err == disk.removeFails(matches[k]) &&
      forall q :: q in r.files <==> q in files && q !in matches[..k]
    decreases k
  {
    if k > 0 {
      assert matches[1..][k - 1] == matches[k];
      RemoveEachStopsAtFailure(disk, matches[1..], Without(files, matches[0]), k - 1);
      assert forall q :: q in matches[..k] <==> q == matches[0] || q in matches[1..][..k - 1];
    }
  }

  /** In dry-run no file is removed, in either mode; only a malformed glob is an error. */
  lemma {:induction false} DryRunRemovesNothing(opts: Options, g: GlobEngine, disk: Disk,
                                                versions: seq<String>, files: Files)
    requires opts.dryRun
    ensures var r := RunRemoval(opts, g, disk, versions, files);
      r.files == files && (r.err.Some? ==> r.err == Some(BadPattern))
    ensures NoTarget(opts.target) ==> RunRemoval(opts, g, disk, versions, files) == Removal(files, None)
    decreases |versions|
  {
    if versions != [] {
      DryRunStep(opts, g, disk, versions[0], files);
      DryRunRemovesNothing(opts, g, disk, versions[1..], files);
    }
  }

  lemma DryRunStep(opts: Options, g: GlobEngine, disk: Disk, dv: String, files: Files)
    requires opts.dryRun
    ensures var r := VersionRemoval(opts, g, disk, dv, files);
      r.files == files && (r.err.Some? ==> r.err == Some(BadPattern)) &&
      (NoTarget(opts.target) ==> r.err.None?)
  {
    if !NoTarget(opts.target) {
      match Glob(g, PatternOf(opts, dv), files)
      case Failure(e) =>
      case Success(matches) =>
        if matches != [] {
          assert RemoveEach(true, disk, matches, files) == Removal(files, None);
        }
    }
  }

  /**
   * With no target and no failing removal, every requested version's folder is removed
   * and nothing else.
   */
  lemma {:induction false} FolderModeExact(opts: Options, g: GlobEngine, disk: Disk,
                                           versions: seq<String>, files: Files)
    requires NoTarget(opts.target) && !opts.dryRun
    requires forall dv :: dv in versions ==> disk.removeAllFails(FolderOf(opts, dv)).None?
    ensures var r := RunRemoval(opts, g, disk, versions, files);
      r.err.None? &&
      forall q :: q in r.files <==> q in files && forall dv :: dv in versions ==> !HasPrefix(q, FolderOf(opts, dv))
    decreases |versions|
  {
    if versions != [] {
      var r1 := CleanupFolder(opts, disk, versions[0], files);
      FolderModeExact(opts, g, disk, versions[1..], r1.files);
      assert forall dv :: dv in versions <==> dv == versions[0] || dv in versions[1..];
    }
  }

  /** The paths a version's step may remove: its folder, or the matches of its glob. */
  predicate Touches(opts: Options, g: GlobEngine, dv: String, q: String) {
    if NoTarget(opts.target) then HasPrefix(q, FolderOf(opts, dv)) else g.matches(PatternOf(opts, dv), q)
  }

  /** No file is created, and a file no requested version touches survives. */
  lemma {:induction false} UntouchedSurvive(opts: Options, g: GlobEngine, disk: Disk,
                                            versions: seq<String>, files: Files)
    ensures var r := RunRemoval(opts, g, disk, versions, files);
      (forall q :: q in r.files ==> q in files) &&
      (forall q :: q in files && (forall dv :: dv in versions ==> !Touches(opts, g, dv, q)) ==> q in r.files)
    decreases |versions|
  {
    if versions != [] {
      var dv := versions[0];
      var r1 := VersionRemoval(opts, g, disk, dv, files);
      VersionRemovalBounds(opts, g, disk, dv, files);
      UntouchedSurvive(opts, g, disk, versions[1..], r1.files);
    }
  }

  lemma VersionRemovalBounds(opts: Options, g: GlobEngine, disk: Disk, dv: String, files: Files)
    ensures var r := VersionRemoval(opts, g, disk, dv, files);
      (forall q :: q in r.files ==> q in files) &&
      (forall q :: q in files && !Touches(opts, g, dv, q) ==> q in r.files)
  {
    if !NoTarget(opts.target) {
      match Glob(g, PatternOf(opts, dv), files)
      case Failure(e) =>
      case Success(matches) =>
        RemoveEachBounds(opts.dryRun, disk, matches, files);
    }
  }

  lemma {:induction false} RemoveEachBounds(dryRun: bool, disk: Disk, matches: seq<String>, files: Files)
    ensures var r := RemoveEach(dryRun, disk, matches, files);
      (forall q :: q in r.files ==> q in files) && (forall q :: q in files && q !in matches ==> q in r.files)
    decreases |matches|
  {
    if matches != [] && !dryRun && disk.removeFails(matches[0]).None? {
      RemoveEachBounds(dryRun, disk, matches[1..], Without(files, matches[0]));
    }
  }

  /**
   * Removing one version's whole folder leaves the configs of every other version:
   * folders of different versions are disjoint.
   */
  lemma OtherVersionSurvives(opts: Options, g: GlobEngine, disk: Disk, versions: seq<String>,
                             files: Files, other: String, name: String)
    requires NoTarget(opts.target) && NoSlash(other) && other !in versions
    requires forall dv :: dv in versions ==> NoSlash(dv)
    requires LegacyConfigPath(opts, other, name) in files
    ensures LegacyConfigPath(opts, other, name) in RunRemoval(opts, g, disk, versions, files).files
  {
    var archOpts := opts.(nonDebArchitecture := opts.architecture);
    forall dv | dv in versions
      ensures !Touches(opts, g, dv, LegacyConfigPath(opts, other, name))
    {
      ConfigFoldersDisjoint(archOpts, dv, other, name);
    }
    UntouchedSurvive(opts, g, disk, versions, files);
  }

  // ---------------------------------------------------------------------------
  // The file cleaner (pkg/cleanup/cleaner_file.go)

  const FileCleanerInfo: String := "cleaning up local config files"

  /** The looper callback: remove the visited config. */
  function RemoveWorker(disk: Disk): (Files, String, String) -> Step<Files> {
    (files: Files, dv: String, p: String) =>
      if disk.removeFails(p).Some? then Step(files, disk.removeFails(p)) else Step(Without(files, p), None)
  }

  /** `fileCleaner.Cleanup`: the filesystem looper, globbing the files as they are now. */
  method FileCleanup(opts: Options, g: GlobEngine, disk: Disk, files0: Files) returns (files: Files, err: Option<Error>)
    ensures var r := VersionsRun(opts, g, BuildConfigPath, (f: Files) => f, RemoveWorker(disk),
                                 opts.driverVersions, files0);
      files == r.state && err == ErrorOf(r.flow)
  {
    files, err := LoopFiltered(opts, g, BuildConfigPath, (f: Files) => f, RemoveWorker(disk), files0);
  }

  predicate NotVisited(visits: seq<Visit>, q: String) {
    forall i :: 0 <= i < |visits| ==> visits[i].path != q
  }

  /**
   * Replaying the removals: with no error every visited path is gone and nothing else;
   * an error is the removal error of some visit, after which only the visits before it
   * have been removed.
   */
  lemma {:induction false} ReplayRemovals(disk: Disk, files: Files, visits: seq<Visit>)
    ensures var st := Replay(RemoveWorker(disk), files, visits);
      (st.err.None? ==> forall q :: q in st.state <==> q in files && NotVisited(visits, q)) &&
      (st.err.Some? ==>
         exists k ::
           && 0 <= k < |visits|
           && st.err == disk.removeFails(visits[k].path)
           && forall q :: q in st.state <==> q in files && NotVisited(visits[..k], q))
    decreases |visits|
  {
    if visits != [] {
      var p := visits[0].path;
      var rest := visits[1..];
      if disk.removeFails(p).None? {
        var files1 := Without(files, p);
        assert Replay(RemoveWorker(disk), files, visits) == Replay(RemoveWorker(disk), files1, rest);
        ReplayRemovals(disk, files1, rest);
        var st := Replay(RemoveWorker(disk), files1, rest);
        forall q ensures NotVisited(visits, q) <==> q != p && NotVisited(rest, q) {
          NotVisitedCons(visits, q);
        }
        if st.err.Some? {
          var k :| && 0 <= k < |rest|
                   && st.err == disk.removeFails(rest[k].path)
                   && forall q :: q in st.state <==> q in files1 && NotVisited(rest[..k], q);
          assert visits[..k + 1][1..] == rest[..k];
          forall q ensures NotVisited(visits[..k + 1], q) <==> q != p && NotVisited(rest[..k], q) {
            NotVisitedCons(visits[..k + 1], q);
          }
          assert rest[k] == visits[k + 1];
          assert forall q :: q in st.state <==> q in files && NotVisited(visits[..k + 1], q);
        }
      } else {
        assert Replay(RemoveWorker(disk), files, visits) == Step(files, disk.removeFails(p));
        assert visits[..0] == [];
        assert forall q :: q in files <==> q in files && NotVisited(visits[..0], q);
      }
    }
  }

  lemma NotVisitedCons(visits: seq<Visit>, q: String)
    requires visits != []
    ensures NotVisited(visits, q) <==> q != visits[0].path && NotVisited(visits[1..], q)
  {
    if NotVisited(visits[1..], q) && q != visits[0].path {
      forall i | 0 <= i < |visits| ensures visits[i].path != q {
        if i > 0 {
          assert visits[i] == visits[1..][i - 1];
        }
      }
    }
  }

  /**
   * Outside dry-run, the cleaner removes the visited configs and nothing else: a nil
   * result means every visited path is gone; a failed removal is the error returned,
   * with only the visits before it removed; any other failure is a malformed glob.
   */
  lemma FileCleanupRemovesVisited(opts: Options, g: GlobEngine, disk: Disk, files0: Files)
    requires !opts.dryRun
    ensures var r := VersionsRun(opts, g, BuildConfigPath, (f: Files) => f, RemoveWorker(disk),
                                 opts.driverVersions, files0);
      (r.flow.Next? ==> forall q :: q in r.state <==> q in files0 && NotVisited(r.visits, q)) &&
      (r.flow.Fail? ==>
         r.flow.e == BadPattern ||
         exists k ::
           && 0 <= k < |r.visits|
           && Some(r.flow.e) == disk.removeFails(r.visits[k].path)
           && forall q :: q in r.state <==> q in files0 && NotVisited(r.visits[..k], q))
  {
    var w := RemoveWorker(disk);
    RunReplays(opts, g, BuildConfigPath, (f: Files) => f, w, opts.driverVersions, files0);
    var r := VersionsRun(opts, g, BuildConfigPath, (f: Files) => f, w, opts.driverVersions, files0);
    ReplayRemovals(disk, files0, r.visits);
  }

  /** In dry-run the cleaner removes nothing. */
  lemma FileCleanupDryRun(opts: Options, g: GlobEngine, disk: Disk, files0: Files)
    requires opts.dryRun
    ensures VersionsRun(opts, g, BuildConfigPath, (f: Files) => f, RemoveWorker(disk),
                        opts.driverVersions, files0).state == files0
  {
    DryRunCallsNothing(opts, g, BuildConfigPath, (f: Files) => f, RemoveWorker(disk),
                       opts.driverVersions, files0, []);
  }
}
