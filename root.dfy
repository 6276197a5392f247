/**
 * The shared engine of every command: the supported-distro table, the target and its
 * filters, the config/output path builders, and the filesystem looper that visits the
 * config files of each driver version matching the target.
 */
module Root {
  import opened Wrappers
  import opened Strings
  import opened Errors
  import opened Matching
  import NameCodec

  // ---------------------------------------------------------------------------
  // Supported distros (pkg/root/distro.go)

  /** Driverkit builder type to kernel-crawler distro name. */
  const SupportedDistros: map<String, String> := map[
    "almalinux" := "AlmaLinux",
    "amazonlinux" := "AmazonLinux",
    "amazonlinux2" := "AmazonLinux2",
    "amazonlinux2022" := "AmazonLinux2022",
    "amazonlinux2023" := "AmazonLinux2023",
    "bottlerocket" := "BottleRocket",
    "centos" := "CentOS",
    "debian" := "Debian",
    "fedora" := "Fedora",
    "minikube" := "Minikube",
    "photon" := "PhotonOS",
    "talos" := "Talos",
    "ubuntu" := "Ubuntu"
  ]

  /** The keys of the table in the order they are written; used to search it. */
  const DistroKeys: seq<String> := [
    "almalinux", "amazonlinux", "amazonlinux2", "amazonlinux2022", "amazonlinux2023",
    "bottlerocket", "centos", "debian", "fedora", "minikube", "photon", "talos", "ubuntu"
  ]

  predicate Distinct(s: seq<String>) {
    forall i, j :: 0 <= i < j < |s| ==> s[i] != s[j]
  }

  lemma {:induction false} DistinctCardinality(s: seq<String>)
    requires Distinct(s)
    ensures |set x | x in s| == |s|
  {
    if s != [] {
      DistinctCardinality(s[1..]);
      assert (set x | x in s) == (set x | x in s[1..]) + {s[0]};
      assert s[0] !in s[1..];
    }
  }

  lemma DistroKeysAreTheKeys()
    ensures SupportedDistros.Keys == set k | k in DistroKeys
    ensures Distinct(DistroKeys)
  {
  }

  /** The table has exactly 13 entries. */
  lemma DistroTableSize()
    ensures |SupportedDistros| == 13
  {
    DistroKeysAreTheKeys();
    DistinctCardinality(DistroKeys);
  }

  /** No two keys share a kernel-crawler name, so the reverse lookup is a function. */
  lemma DistroNamesDistinct()
    ensures forall a, b ::
      (a in SupportedDistros && b in SupportedDistros && SupportedDistros[a] == SupportedDistros[b]) ==> a == b
  {
  }

  /** The first of `keys` whose table value is `kc`, or "". */
  function FindDistroKey(keys: seq<String>, kc: String): (dk: String)
    requires forall k :: k in keys ==> k in SupportedDistros
    ensures dk == "" || (dk in keys && SupportedDistros[dk] == kc)
    ensures dk == "" <==> forall k :: k in keys ==> SupportedDistros[k] != kc
  {
    if keys == [] then ""
    else if SupportedDistros[keys[0]] == kc then keys[0]
    else FindDistroKey(keys[1..], kc)
  }

  /**
   * `ToDriverkitDistro`: the driverkit type whose kernel-crawler name is `kc`, or "" when
   * there is none. Go iterates over the map; since the names are distinct the result does
   * not depend on the iteration order.
   */
  function ToDriverkitDistro(kc: String): (dk: String)
    ensures dk != "" ==> dk in SupportedDistros && SupportedDistros[dk] == kc
    ensures dk == "" <==> forall k :: k in SupportedDistros ==> SupportedDistros[k] != kc
  {
    DistroKeysAreTheKeys();
    FindDistroKey(DistroKeys, kc)
  }

  /** Translating a table value back gives its key. */
  lemma ToDriverkitDistroRoundTrip(k: String)
    requires k in SupportedDistros
    ensures ToDriverkitDistro(SupportedDistros[k]) == k
  {
    DistroNamesDistinct();
  }

  /** The lookup is case-sensitive: a driverkit name is not a kernel-crawler name. */
  lemma ToDriverkitDistroCaseSensitive(name: String)
    requires name == "centos"
    ensures ToDriverkitDistro(name) == ""
  {
    assert forall k :: k in SupportedDistros ==> SupportedDistros[k] != name;
  }

  /** A name outside the table translates to "". */
  lemma ToDriverkitDistroUnknown(name: String)
    requires name == "WRONG_DISTRO"
    ensures ToDriverkitDistro(name) == ""
  {
    assert forall k :: k in SupportedDistros ==> SupportedDistros[k] != name;
  }

  /**
   * `init`: the keys of the table appended in map-iteration order (any order), then
   * sorted. The slice holds every key exactly once, in ascending order.
   */
  method InitSupportedDistroSlice() returns (slice: seq<String>)
    ensures Sorted(slice)
    ensures forall k :: multiset(slice)[k] == if k in SupportedDistros then 1 else 0
    ensures |slice| == 13
  {
    var remaining := SupportedDistros.Keys;
    var acc: seq<String> := [];
    while remaining != {}
      invariant remaining <= SupportedDistros.Keys
      invariant forall k :: multiset(acc)[k] == if k in SupportedDistros && k !in remaining then 1 else 0
      invariant |acc| + |remaining| == |SupportedDistros|
      decreases remaining
    {
      var k :| k in remaining;
      acc := acc + [k];
      remaining := remaining - {k};
    }
    slice := Sort(acc);
    DistroTableSize();
  }

  // ---------------------------------------------------------------------------
  // Target and filters (pkg/root/types.go)

  /** A pattern field: "" means "any". */
  function Wildcard(field: String): String {
    if field == "" then "*" else field
  }

  datatype Target = Target(distro: String, kernelRelease: String, kernelVersion: String) {
    predicate IsSet() {
      distro != "" && kernelRelease != "" && kernelVersion != ""
    }

    /** `toGlob`: each empty field becomes "*", then `{d}_{kr}_{kv}.*`. */
    function ToGlob(): (glob: String)
      ensures glob == NameCodec.Encode(NameCodec.Identity(Wildcard(distro),
        Wildcard(kernelRelease), Wildcard(kernelVersion))) + ".*"
    {
      Wildcard(distro) + "_" + Wildcard(kernelRelease) + "_" + Wildcard(kernelVersion) + ".*"
    }
  }

  /** A fully set target globs exactly the encoded name, with any extension. */
  lemma ToGlobOfSetTarget(t: Target)
    requires t.IsSet()
    ensures t.ToGlob() == NameCodec.Encode(NameCodec.Identity(t.distro, t.kernelRelease, t.kernelVersion)) + ".*"
  {
  }

  lemma ToGlobOfEmptyTarget()
    ensures Target("", "", "").ToGlob() == "*_*_*.*"
  {
  }

  /**
   * The options every command shares. `architecture` is the driverkit architecture in
   * deb naming (its `String()`), `nonDebArchitecture` what its `ToNonDeb()` returns.
   */
  datatype Options = Options(
    dryRun: bool,
    repoRoot: String,
    architecture: String,
    nonDebArchitecture: String,
    driverName: String,
    driverVersions: seq<String>,
    target: Target)
  {
    predicate DistroFilter(re: RegexEngine, driverkitDistro: String) {
      MatchString(re, target.distro, driverkitDistro) && driverkitDistro in SupportedDistros
    }

    predicate KernelReleaseFilter(re: RegexEngine, kernelRelease: String) {
      MatchString(re, target.kernelRelease, kernelRelease)
    }

    predicate KernelVersionFilter(re: RegexEngine, kernelVersion: String) {
      MatchString(re, target.kernelVersion, kernelVersion)
    }

    /** All three filters accept a decoded identity. */
    predicate Accepts(re: RegexEngine, id: NameCodec.Identity) {
      DistroFilter(re, id.distro) && KernelReleaseFilter(re, id.kernelRelease) &&
      KernelVersionFilter(re, id.kernelVersion)
    }
  }

  /**
   * The distro filter needs table membership whatever the pattern: with an empty
   * pattern it accepts exactly the supported driverkit distros.
   */
  lemma DistroFilterNeedsSupport(opts: Options, re: RegexEngine, d: String)
    ensures opts.DistroFilter(re, d) ==> d in SupportedDistros
    ensures opts.target.distro == "" ==> (opts.DistroFilter(re, d) <==> d in SupportedDistros)
  {
    if opts.target.distro == "" {
      EmptyPatternMatchesAll(re, d);
    }
  }

  /**
   * The release and version filters are unanchored: an empty pattern accepts every
   * value, and a literal pattern accepts any value containing it ("1" accepts "13").
   */
  lemma ReleaseVersionFiltersUnanchored(opts: Options, re: RegexEngine, before: String, after: String)
    ensures opts.target.kernelRelease == "" ==> opts.KernelReleaseFilter(re, before)
    ensures opts.target.kernelVersion == "" ==> opts.KernelVersionFilter(re, before)
    ensures IsLiteral(opts.target.kernelRelease) ==>
      opts.KernelReleaseFilter(re, before + opts.target.kernelRelease + after)
    ensures IsLiteral(opts.target.kernelVersion) ==>
      opts.KernelVersionFilter(re, before + opts.target.kernelVersion + after)
  {
    EmptyPatternMatchesAll(re, before);
    if IsLiteral(opts.target.kernelRelease) {
      LiteralIsUnanchored(re, before, opts.target.kernelRelease, after);
    }
    if IsLiteral(opts.target.kernelVersion) {
      LiteralIsUnanchored(re, before, opts.target.kernelVersion, after);
    }
  }

  lemma LiteralReleaseExample(opts: Options, re: RegexEngine)
    requires opts.target.kernelRelease == "1"
    ensures opts.KernelReleaseFilter(re, "13")
  {
    assert "13" == "" + "1" + "3";
    ReleaseVersionFiltersUnanchored(opts, re, "", "3");
  }

  // ---------------------------------------------------------------------------
  // Paths (pkg/root/utils.go, pkg/root/constants.go)

  /** `{root}/driverkit/config/{dv}/{nonDebArch}/{configName}`. */
  function BuildConfigPath(opts: Options, driverVersion: String, configName: String): String {
    opts.repoRoot + "/driverkit/config/" + driverVersion + "/" + opts.nonDebArchitecture + "/" + configName
  }

  /**
   * `{root}/driverkit/output/{dv}/{nonDebArch}/{driver}_{outputName}`; an empty
   * `outputName` gives the folder path, ending in '/', without the driver prefix.
   */
  function BuildOutputPath(opts: Options, driverVersion: String, outputName: String): String {
    var fullName := if outputName != "" then opts.driverName + "_" + outputName else "";
    opts.repoRoot + "/driverkit/output/" + driverVersion + "/" + opts.nonDebArchitecture + "/" + fullName
  }

  /**
   * The older revision's exported `ConfigPathFmt`, which its callers format with the
   * architecture as given rather than its non-Debian name.
   */
  function LegacyConfigPath(opts: Options, driverVersion: String, configName: String): (path: String)
    ensures path == BuildConfigPath(opts.(nonDebArchitecture := opts.architecture), driverVersion, configName)
  {
    opts.repoRoot + "/driverkit/config/" + driverVersion + "/" + opts.architecture + "/" + configName
  }

  /** The config folder of one driver version and architecture. */
  function ConfigFolder(opts: Options, driverVersion: String): String {
    BuildConfigPath(opts, driverVersion, "")
  }

  /** A config path lies in its version's folder and its base name is the config name. */
  lemma ConfigPathShape(opts: Options, dv: String, name: String)
    requires name != "" && NoSlash(name)
    ensures HasPrefix(BuildConfigPath(opts, dv, name), ConfigFolder(opts, dv))
    ensures BuildConfigPath(opts, dv, name) == ConfigFolder(opts, dv) + name
    ensures Base(BuildConfigPath(opts, dv, name)) == name
  {
    var dir := opts.repoRoot + "/driverkit/config/" + dv + "/" + opts.nonDebArchitecture;
    assert BuildConfigPath(opts, dv, name) == dir + "/" + name;
    assert ConfigFolder(opts, dv) == dir + "/";
    BaseOfChild(dir, name);
    HasPrefixOfAppend(ConfigFolder(opts, dv), name);
  }

  /** The folder path ends in '/' and carries no driver-name prefix. */
  lemma OutputFolderPath(opts: Options, dv: String)
    ensures BuildOutputPath(opts, dv, "") ==
      opts.repoRoot + "/driverkit/output/" + dv + "/" + opts.nonDebArchitecture + "/"
    ensures HasSuffix(BuildOutputPath(opts, dv, ""), "/")
  {
  }

  /**
   * A named output path lies in the output folder and is named
   * `{driver}_{outputName}`; the same holds with `.ko`/`.o` appended.
   */
  lemma OutputPathShape(opts: Options, dv: String, name: String, ext: String)
    requires name != "" && NoSlash(opts.driverName + "_" + name + ext)
    ensures BuildOutputPath(opts, dv, name) + ext ==
      BuildOutputPath(opts, dv, "") + (opts.driverName + "_" + name + ext)
    ensures Base(BuildOutputPath(opts, dv, name) + ext) == opts.driverName + "_" + name + ext
  {
    var dir := opts.repoRoot + "/driverkit/output/" + dv + "/" + opts.nonDebArchitecture;
    assert BuildOutputPath(opts, dv, name) + ext == dir + "/" + (opts.driverName + "_" + name + ext);
    BaseOfChild(dir, opts.driverName + "_" + name + ext);
  }

  /**
   * Splitting an output path at '/' ends in `output`, the version, the architecture and
   * the file name, provided none of the last three holds a '/'.
   */
  lemma OutputPathLastFour(opts: Options, dv: String, name: String)
    requires NoSlash(dv) && NoSlash(opts.nonDebArchitecture)
    requires name != "" ==> NoSlash(opts.driverName + "_" + name)
    ensures var parts := Split(BuildOutputPath(opts, dv, name));
      var full := if name != "" then opts.driverName + "_" + name else "";
      |parts| >= 4 && parts[|parts| - 4..] == ["output", dv, opts.nonDebArchitecture, full]
  {
    var full := if name != "" then opts.driverName + "_" + name else "";
    var a := opts.nonDebArchitecture;
    var z := opts.repoRoot + "/driverkit";
    assert "/driverkit/output/" == "/driverkit" + "/" + "output" + "/";
    assert BuildOutputPath(opts, dv, name) == z + "/" + "output" + "/" + dv + "/" + a + "/" + full;
    LastFourParts(z, dv, a, full);
  }

  lemma LastFourParts(z: String, dv: String, a: String, full: String)
    requires NoSlash(dv) && NoSlash(a) && NoSlash(full)
    ensures var parts := Split(z + "/" + "output" + "/" + dv + "/" + a + "/" + full);
      |parts| >= 4 && parts[|parts| - 4..] == ["output", dv, a, full]
  {
    var y := z + "/" + "output";
    var x := y + "/" + dv;
    var w := x + "/" + a;
    assert NoSlash("output");
    SplitAppendName(w, full);
    SplitAppendName(x, a);
    SplitAppendName(y, dv);
    SplitAppendName(z, "output");
    var parts := Split(w + "/" + full);
    assert parts == Split(z) + ["output", dv, a, full];
  }

  /** An output path has at least six '/'-separated parts, whatever its components. */
  lemma OutputPathParts(opts: Options, dv: String, name: String)
    ensures |Split(BuildOutputPath(opts, dv, name))| >= 6
  {
    var full := if name != "" then opts.driverName + "_" + name else "";
    var mid := "/driverkit/output/";
    assert SlashCount(mid) == 3 by {
      assert SlashCount("/") == 1;
      SlashCountOfName("driverkit");
      SlashCountOfName("output");
      SlashCountAppend("/", "driverkit");
      SlashCountAppend("/driverkit", "/");
      SlashCountAppend("/driverkit/", "output");
      SlashCountAppend("/driverkit/output", "/");
      assert "/" + "driverkit" == "/driverkit";
      assert "/driverkit" + "/" == "/driverkit/";
      assert "/driverkit/" + "output" == "/driverkit/output";
      assert "/driverkit/output" + "/" == mid;
    }
    var path := BuildOutputPath(opts, dv, name);
    assert path == opts.repoRoot + mid + dv + "/" + opts.nonDebArchitecture + "/" + full;
    SlashCountAppend(opts.repoRoot, mid);
    SlashCountAppend(opts.repoRoot + mid, dv);
    SlashCountAppend(opts.repoRoot + mid + dv, "/");
    SlashCountAppend(opts.repoRoot + mid + dv + "/", opts.nonDebArchitecture);
    SlashCountAppend(opts.repoRoot + mid + dv + "/" + opts.nonDebArchitecture, "/");
    SlashCountAppend(opts.repoRoot + mid + dv + "/" + opts.nonDebArchitecture + "/", full);
    SplitLength(path);
  }

  /**
   * Config folders of different versions are disjoint: no path built for one version
   * lies in another version's folder.
   */
  lemma ConfigFoldersDisjoint(opts: Options, dv1: String, dv2: String, name: String)
    requires dv1 != dv2 && NoSlash(dv1) && NoSlash(dv2)
    ensures !HasPrefix(BuildConfigPath(opts, dv2, name), ConfigFolder(opts, dv1))
  {
    var p := opts.repoRoot + "/driverkit/config/";
    var f := ConfigFolder(opts, dv1);
    var q := BuildConfigPath(opts, dv2, name);
    assert f == p + (dv1 + "/" + opts.nonDebArchitecture + "/");
    assert q == p + (dv2 + "/" + opts.nonDebArchitecture + "/" + name);
    var n := if |dv1| < |dv2| then |dv1| else |dv2|;
    if k :| 0 <= k < n && dv1[k] != dv2[k] {
      assert f[|p| + k] != q[|p| + k];
    } else if |dv1| < |dv2| {
      assert f[|p| + |dv1|] != q[|p| + |dv1|];
    } else if |dv2| < |dv1| {
      assert |q| <= |p| + |dv2| || f[|p| + |dv2|] != q[|p| + |dv2|];
    } else {
      assert false;
    }
  }

  // ---------------------------------------------------------------------------
  // The filesystem looper (FsLooper.LoopFiltered)

  /** One call of the worker: the driver version and the path it was given. */
  datatype Visit = Visit(driverVersion: String, path: String)

  /** What a worker returns: its new state and its error, if any. */
  datatype Step<S> = Step(state: S, err: Option<Error>)

  /** How a loop ended: ran to the end, stopped by dry-run, or failed. */
  datatype Flow = Next | Halt | Fail(e: Error)

  /** The final state, how the loop ended and the worker calls it made, in order. */
  datatype Run<S> = Run(state: S, flow: Flow, visits: seq<Visit>)

  /** The error the loop returns: only a failure is reported; a dry-run stop returns nil. */
  function ErrorOf(f: Flow): (err: Option<Error>)
    ensures err.Some? <==> f.Fail?
  {
    if f.Fail? then Some(f.e) else None
  }

  function Prepend<S>(visits: seq<Visit>, r: Run<S>): Run<S> {
    Run(r.state, r.flow, visits + r.visits)
  }

  lemma PrependPrepend<S>(a: seq<Visit>, b: seq<Visit>, r: Run<S>)
    ensures Prepend(a, Prepend(b, r)) == Prepend(a + b, r)
  {
    assert a + (b + r.visits) == (a + b) + r.visits;
  }

  /**
   * The files of one driver version: in dry-run the loop stops at the first file,
   * otherwise each file goes to the worker and the first error stops the loop.
   */
  function FilesRun<S>(dryRun: bool, worker: (S, String, String) -> Step<S>,
                       dv: String, files: seq<String>, s: S): Run<S>
    decreases |files|
  {
    if files == [] then Run(s, Next, [])
    else if dryRun then Run(s, Halt, [])
    else
      var st := worker(s, dv, files[0]);
      if st.err.Some? then Run(st.state, Fail(st.err.value), [Visit(dv, files[0])])
      else Prepend([Visit(dv, files[0])], FilesRun(dryRun, worker, dv, files[1..], st.state))
  }

  /**
   * The driver versions in order; the files of each are the glob of
   * `builder(opts, dv, toGlob())` over the filesystem as the state holds it then.
   */
  function VersionsRun<S>(opts: Options, g: GlobEngine, builder: (Options, String, String) -> String,
                          listingOf: S -> seq<String>, worker: (S, String, String) -> Step<S>,
                          versions: seq<String>, s: S): Run<S>
    decreases |versions|
  {
    if versions == [] then Run(s, Next, [])
    else
      var dv := versions[0];
      match Glob(g, builder(opts, dv, opts.target.ToGlob()), listingOf(s))
      case Failure(e) => Run(s, Fail(e), [])
      case Success(files) =>
        var r := FilesRun(opts.dryRun, worker, dv, files, s);
        if !r.flow.Next? then r
        else Prepend(r.visits, VersionsRun(opts, g, builder, listingOf, worker, versions[1..], r.state))
  }

  /** `FsLooper.LoopFiltered`: returns the final state and the error the Go code returns. */
  method LoopFiltered<S>(opts: Options, g: GlobEngine, builder: (Options, String, String) -> String,
                         listingOf: S -> seq<String>, worker: (S, String, String) -> Step<S>, s0: S)
    returns (s: S, err: Option<Error>)
    ensures var r := VersionsRun(opts, g, builder, listingOf, worker, opts.driverVersions, s0);
      s == r.state && err == ErrorOf(r.flow)
  {
    var versions := opts.driverVersions;
    var glob := opts.target.ToGlob();
    ghost var spec := VersionsRun(opts, g, builder, listingOf, worker, versions, s0);
    ghost var visits: seq<Visit> := [];
    s := s0;
    var i := 0;
    while i < |versions|
      invariant 0 <= i <= |versions|
      invariant spec == Prepend(visits, VersionsRun(opts, g, builder, listingOf, worker, versions[i..], s))
    {
      var dv := versions[i];
      assert versions[i..][1..] == versions[i + 1..];
      var res := Glob(g, builder(opts, dv, glob), listingOf(s));
      if res.Failure? {
        return s, Some(res.error);
      }
      var files := res.value;
      ghost var inner := FilesRun(opts.dryRun, worker, dv, files, s).visits;
      var flow;
      s, flow := LoopFiles(opts.dryRun, worker, dv, files, s);
      if !flow.Next? {
        return s, ErrorOf(flow);
      }
      PrependPrepend(visits, inner,
        VersionsRun(opts, g, builder, listingOf, worker, versions[i + 1..], s));
      visits := visits + inner;
      i := i + 1;
    }
    err := None;
  }

  /**
   * The file loop of one driver version: dry-run stops at the first file, otherwise
   * each file goes to the worker and the first error stops the loop.
   */
  method LoopFiles<S>(dryRun: bool, worker: (S, String, String) -> Step<S>,
                      dv: String, files: seq<String>, s0: S)
    returns (s: S, flow: Flow)
    ensures var r := FilesRun(dryRun, worker, dv, files, s0);
      s == r.state && flow == r.flow
  {
    ghost var visits: seq<Visit> := [];
    s := s0;
    var j := 0;
    while j < |files|
      invariant 0 <= j <= |files|
      invariant FilesRun(dryRun, worker, dv, files, s0) ==
        Prepend(visits, FilesRun(dryRun, worker, dv, files[j..], s))
    {
      assert files[j..][1..] == files[j + 1..];
      if dryRun {
        return s, Halt;
      }
      var st := worker(s, dv, files[j]);
      if st.err.Some? {
        return st.state, Fail(st.err.value);
      }
      PrependPrepend(visits, [Visit(dv, files[j])],
        FilesRun(dryRun, worker, dv, files[j + 1..], st.state));
      visits := visits + [Visit(dv, files[j])];
      s := st.state;
      j := j + 1;
    }
    flow := Next;
  }

  // ---------------------------------------------------------------------------
  // Properties of the looper

  /** Every glob of the run is well formed. */
  predicate GlobsWellFormed(opts: Options, g: GlobEngine, builder: (Options, String, String) -> String,
                            versions: seq<String>)
  {
    forall dv :: dv in versions ==> g.wellFormed(builder(opts, dv, opts.target.ToGlob()))
  }

  /** The worker calls a run over an unchanging filesystem `listing` would make with no error. */
  function Candidates(opts: Options, g: GlobEngine, builder: (Options, String, String) -> String,
                      listing: seq<String>, versions: seq<String>): seq<Visit>
    decreases |versions|
  {
    if versions == [] then []
    else
      var files := Selected(g, builder(opts, versions[0], opts.target.ToGlob()), listing);
      VisitsOf(versions[0], files) + Candidates(opts, g, builder, listing, versions[1..])
  }

  function VisitsOf(dv: String, files: seq<String>): (v: seq<Visit>)
    ensures |v| == |files|
    ensures forall k :: 0 <= k < |files| ==> v[k] == Visit(dv, files[k])
  {
    if files == [] then [] else [Visit(dv, files[0])] + VisitsOf(dv, files[1..])
  }

  /** Applies the worker to the visits in order, stopping at its first error. */
  function Replay<S>(worker: (S, String, String) -> Step<S>, s: S, visits: seq<Visit>): Step<S>
    decreases |visits|
  {
    if visits == [] then Step(s, None)
    else
      var st := worker(s, visits[0].driverVersion, visits[0].path);
      if st.err.Some? then st else Replay(worker, st.state, visits[1..])
  }

  /** In dry-run the worker is never called and the state is untouched. */
  lemma {:induction false} DryRunFilesCallsNothing<S>(worker: (S, String, String) -> Step<S>,
                                                      dv: String, files: seq<String>, s: S)
    ensures var r := FilesRun(true, worker, dv, files, s);
      r.visits == [] && r.state == s && (r.flow.Halt? <==> files != []) && !r.flow.Fail?
  {
  }

  /**
   * Dry-run: no worker call, state unchanged; with an unchanging filesystem and good
   * patterns the loop stops (returning nil) exactly when some file matches.
   */
  lemma {:induction false} DryRunCallsNothing<S>(opts: Options, g: GlobEngine,
      builder: (Options, String, String) -> String, listingOf: S -> seq<String>,
      worker: (S, String, String) -> Step<S>, versions: seq<String>, s: S, listing: seq<String>)
    requires opts.dryRun
    ensures var r := VersionsRun(opts, g, builder, listingOf, worker, versions, s);
      r.visits == [] && r.state == s
    ensures (forall t :: listingOf(t) == listing) && GlobsWellFormed(opts, g, builder, versions) ==>
      var r := VersionsRun(opts, g, builder, listingOf, worker, versions, s);
      !r.flow.Fail? && (r.flow.Halt? <==> Candidates(opts, g, builder, listing, versions) != [])
    decreases |versions|
  {
    if versions != [] {
      var dv := versions[0];
      var pattern := builder(opts, dv, opts.target.ToGlob());
      match Glob(g, pattern, listingOf(s))
      case Failure(e) =>
      case Success(files) =>
        DryRunFilesCallsNothing(worker, dv, files, s);
        DryRunCallsNothing(opts, g, builder, listingOf, worker, versions[1..], s, listing);
        if (forall t :: listingOf(t) == listing) && GlobsWellFormed(opts, g, builder, versions) {
          assert GlobsWellFormed(opts, g, builder, versions[1..]);
          assert files == Selected(g, pattern, listing);
        }
    }
  }

  /**
   * The files of one version, outside dry-run: the calls made are a prefix of the
   * files, replaying them gives the final state and error, only the last call can have
   * failed, and a run that did not fail called the worker on every file.
   */
  lemma {:induction false} FilesTrace<S>(worker: (S, String, String) -> Step<S>,
                                         dv: String, files: seq<String>, s: S)
    ensures var r := FilesRun(false, worker, dv, files, s);
      var all := VisitsOf(dv, files);
      !r.flow.Halt? && |r.visits| <= |all| && r.visits == all[..|r.visits|] &&
      Replay(worker, s, r.visits) == Step(r.state, ErrorOf(r.flow)) &&
      (r.flow.Next? ==> r.visits == all)
    decreases |files|
  {
    if files != [] {
      var st := worker(s, dv, files[0]);
      if st.err.None? {
        FilesTrace(worker, dv, files[1..], st.state);
        var r := FilesRun(false, worker, dv, files, s);
        var r1 := FilesRun(false, worker, dv, files[1..], st.state);
        assert r.visits == [Visit(dv, files[0])] + r1.visits;
        assert r.visits[1..] == r1.visits;
        assert VisitsOf(dv, files) == [Visit(dv, files[0])] + VisitsOf(dv, files[1..]);
      }
    }
  }

  /** Looping over `a + b` is looping over `a`, then, if that ran to the end, over `b`. */
  lemma {:induction false} FilesRunAppend<S>(dryRun: bool, worker: (S, String, String) -> Step<S>,
                                             dv: String, a: seq<String>, b: seq<String>, s: S)
    ensures var r := FilesRun(dryRun, worker, dv, a, s);
      FilesRun(dryRun, worker, dv, a + b, s) ==
        if r.flow.Next? then Prepend(r.visits, FilesRun(dryRun, worker, dv, b, r.state)) else r
    decreases |a|
  {
    if a == [] {
      assert a + b == b;
    } else {
      assert (a + b)[0] == a[0];
      assert (a + b)[1..] == a[1..] + b;
      var st := worker(s, dv, a[0]);
      if !dryRun && st.err.None? {
        FilesRunAppend(dryRun, worker, dv, a[1..], b, st.state);
        var r1 := FilesRun(dryRun, worker, dv, a[1..], st.state);
        if r1.flow.Next? {
          PrependPrepend([Visit(dv, a[0])], r1.visits, FilesRun(dryRun, worker, dv, b, r1.state));
        }
      }
    }
  }

  lemma ReplayAppend<S>(worker: (S, String, String) -> Step<S>, s: S, a: seq<Visit>, b: seq<Visit>)
    requires Replay(worker, s, a).err.None?
    ensures Replay(worker, s, a + b) == Replay(worker, Replay(worker, s, a).state, b)
    decreases |a|
  {
    if a == [] {
      assert a + b == b;
    } else {
      assert (a + b)[0] == a[0];
      assert (a + b)[1..] == a[1..] + b;
      var st := worker(s, a[0].driverVersion, a[0].path);
      ReplayAppend(worker, st.state, a[1..], b);
    }
  }

  /**
   * Outside dry-run, over an unchanging filesystem with good patterns: the worker is
   * called on a prefix of the candidate files (versions in order, matches in order),
   * replaying those calls yields the final state and error, and a run that returns nil
   * has called the worker on every candidate.
   */
  lemma {:induction false} LoopTrace<S>(opts: Options, g: GlobEngine,
      builder: (Options, String, String) -> String, listingOf: S -> seq<String>,
      worker: (S, String, String) -> Step<S>, versions: seq<String>, s: S, listing: seq<String>)
    requires !opts.dryRun && (forall t :: listingOf(t) == listing)
    requires GlobsWellFormed(opts, g, builder, versions)
    ensures var r := VersionsRun(opts, g, builder, listingOf, worker, versions, s);
      var all := Candidates(opts, g, builder, listing, versions);
      !r.flow.Halt? && |r.visits| <= |all| && r.visits == all[..|r.visits|] &&
      Replay(worker, s, r.visits) == Step(r.state, ErrorOf(r.flow)) &&
      (r.flow.Next? ==> r.visits == all) &&
      (r.flow.Fail? ==> r.visits != [] && !ReplayStopsEarly(worker, s, r.visits))
    decreases |versions|
  {
    if versions != [] {
      var dv := versions[0];
      var files := Selected(g, builder(opts, dv, opts.target.ToGlob()), listing);
      FilesTraced(worker, dv, files, s);
      var r1 := FilesRun(false, worker, dv, files, s);
      var rest := Candidates(opts, g, builder, listing, versions[1..]);
      assert Candidates(opts, g, builder, listing, versions) == VisitsOf(dv, files) + rest;
      if r1.flow.Next? {
        assert GlobsWellFormed(opts, g, builder, versions[1..]);
        LoopTrace(opts, g, builder, listingOf, worker, versions[1..], r1.state, listing);
        var r2 := VersionsRun(opts, g, builder, listingOf, worker, versions[1..], r1.state);
        TracedAppend(worker, s, r1.visits, r1.state, VisitsOf(dv, files), r2.visits, r2.state, r2.flow, rest);
      } else {
        TracedExtend(worker, s, r1.visits, r1.state, r1.flow, VisitsOf(dv, files), rest);
      }
    }
  }

  /**
   * `visits` is a prefix of the candidates `all`, replaying it from `s` gives `state`
   * and the error of `flow`, a run that went on to the end made every call, and a
   * failing run failed at its last call.
   */
  ghost predicate Traced<S>(worker: (S, String, String) -> Step<S>, s: S, visits: seq<Visit>, state: S, flow: Flow,
                      all: seq<Visit>)
  {
    !flow.Halt? && |visits| <= |all| && visits == all[..|visits|] &&
    Replay(worker, s, visits) == Step(state, ErrorOf(flow)) &&
    (flow.Next? ==> visits == all) &&
    (flow.Fail? ==> visits != [] && !ReplayStopsEarly(worker, s, visits))
  }

  /** The file loop of one version, outside dry-run, is traced by that version's files. */
  lemma FilesTraced<S>(worker: (S, String, String) -> Step<S>, dv: String, files: seq<String>, s: S)
    ensures var r := FilesRun(false, worker, dv, files, s);
      Traced(worker, s, r.visits, r.state, r.flow, VisitsOf(dv, files))
  {
    FilesTrace(worker, dv, files, s);
    if FilesRun(false, worker, dv, files, s).flow.Fail? {
      FilesFailAtLast(worker, dv, files, s);
    }
  }

  /** A run that went on to the end, followed by a traced run, is traced by both candidate lists. */
  lemma TracedAppend<S>(worker: (S, String, String) -> Step<S>, s: S, v1: seq<Visit>, s1: S, all1: seq<Visit>,
                        v2: seq<Visit>, s2: S, flow2: Flow, all2: seq<Visit>)
    requires Traced(worker, s, v1, s1, Next, all1)
    requires Traced(worker, s1, v2, s2, flow2, all2)
    ensures Traced(worker, s, v1 + v2, s2, flow2, all1 + all2)
  {
    ReplayAppend(worker, s, v1, v2);
    if flow2.Fail? {
      StopsEarlyAppend(worker, s, v1, v2);
    }
    assert v1 + v2 == (all1 + all2)[..|v1 + v2|];
  }

  /** A run that stopped early is traced by any extension of its candidates. */
  lemma TracedExtend<S>(worker: (S, String, String) -> Step<S>, s: S, v: seq<Visit>, st: S, flow: Flow,
                        all: seq<Visit>, rest: seq<Visit>)
    requires Traced(worker, s, v, st, flow, all) && !flow.Next?
    ensures Traced(worker, s, v, st, flow, all + rest)
  {
    assert (all + rest)[..|v|] == all[..|v|];
  }

  /**
   * Outside dry-run, whatever the filesystem does between globs: replaying the worker
   * calls yields the final state, an error met by a call is the error returned, and a
   * failure no call met is a malformed pattern.
   */
  lemma {:induction false} RunReplays<S>(opts: Options, g: GlobEngine,
      builder: (Options, String, String) -> String, listingOf: S -> seq<String>,
      worker: (S, String, String) -> Step<S>, versions: seq<String>, s: S)
    requires !opts.dryRun
    ensures var r := VersionsRun(opts, g, builder, listingOf, worker, versions, s);
      var st := Replay(worker, s, r.visits);
      st.state == r.state && !r.flow.Halt? &&
      (st.err.Some? ==> r.flow == Fail(st.err.value)) &&
      (st.err.None? && r.flow.Fail? ==> r.flow.e == BadPattern)
    decreases |versions|
  {
    if versions != [] {
      var dv := versions[0];
      match Glob(g, builder(opts, dv, opts.target.ToGlob()), listingOf(s))
      case Failure(e) =>
      case Success(files) =>
        FilesTrace(worker, dv, files, s);
        var r1 := FilesRun(false, worker, dv, files, s);
        if r1.flow.Next? {
          RunReplays(opts, g, builder, listingOf, worker, versions[1..], r1.state);
          var r2 := VersionsRun(opts, g, builder, listingOf, worker, versions[1..], r1.state);
          ReplayAppend(worker, s, r1.visits, r2.visits);
        }
    }
  }

  /** Replay met an error before the last visit. */
  predicate ReplayStopsEarly<S>(worker: (S, String, String) -> Step<S>, s: S, visits: seq<Visit>)
    decreases |visits|
  {
    |visits| > 1 &&
    var st := worker(s, visits[0].driverVersion, visits[0].path);
    st.err.Some? || ReplayStopsEarly(worker, st.state, visits[1..])
  }

  /** A failing run stopped at its last worker call: none of the earlier calls failed. */
  lemma {:induction false} FilesFailAtLast<S>(worker: (S, String, String) -> Step<S>,
                                              dv: String, files: seq<String>, s: S)
    requires FilesRun(false, worker, dv, files, s).flow.Fail?
    ensures !ReplayStopsEarly(worker, s, FilesRun(false, worker, dv, files, s).visits)
    decreases |files|
  {
    var st := worker(s, dv, files[0]);
    if st.err.None? {
      FilesFailAtLast(worker, dv, files[1..], st.state);
    }
  }

  lemma {:induction false} StopsEarlyAppend<S>(worker: (S, String, String) -> Step<S>, s: S,
                                               a: seq<Visit>, b: seq<Visit>)
    requires Replay(worker, s, a).err.None? && b != []
    requires !ReplayStopsEarly(worker, Replay(worker, s, a).state, b)
    ensures !ReplayStopsEarly(worker, s, a + b)
    decreases |a|
  {
    if a == [] {
      assert a + b == b;
    } else {
      assert (a + b)[0] == a[0];
      assert (a + b)[1..] == a[1..] + b;
      var st := worker(s, a[0].driverVersion, a[0].path);
      StopsEarlyAppend(worker, st.state, a[1..], b);
    }
  }
  // ---------------------------------------------------------------------------
  // Workers that only check

  /** A worker that never changes the state: it only decides whether a path passes. */
  ghost predicate Stateless<S(!new)>(worker: (S, String, String) -> Step<S>) {
    forall t, dv, p :: worker(t, dv, p).state == t
  }

  predicate Passes<S>(worker: (S, String, String) -> Step<S>, s: S, v: Visit) {
    worker(s, v.driverVersion, v.path).err.None?
  }

  /**
   * Replaying a checking worker: no error iff every visit passes, and an error found
   * only at the last visit is that visit's error.
   */
  lemma {:induction false} ReplayStateless<S(!new)>(worker: (S, String, String) -> Step<S>, s: S,
                                              visits: seq<Visit>)
    requires Stateless(worker)
    ensures Replay(worker, s, visits).state == s
    ensures Replay(worker, s, visits).err.None? <==>
      forall i :: 0 <= i < |visits| ==> Passes(worker, s, visits[i])
    ensures Replay(worker, s, visits).err.Some? && !ReplayStopsEarly(worker, s, visits) ==>
      visits != [] &&
      worker(s, visits[|visits| - 1].driverVersion, visits[|visits| - 1].path).err ==
        Replay(worker, s, visits).err &&
      forall i :: 0 <= i < |visits| - 1 ==> Passes(worker, s, visits[i])
    decreases |visits|
  {
    if visits != [] {
      var st := worker(s, visits[0].driverVersion, visits[0].path);
      assert st.state == s;
      ReplayStateless(worker, s, visits[1..]);
      assert forall i :: 1 <= i < |visits| ==> visits[i] == visits[1..][i - 1];
    }
  }

  /**
   * A loop whose worker only checks, outside dry-run over an unchanging filesystem with
   * good patterns, returns nil iff every candidate passes; otherwise it returns the
   * error of the first candidate that fails.
   */
  lemma StatelessLoop<S(!new)>(opts: Options, g: GlobEngine, builder: (Options, String, String) -> String,
                         listingOf: S -> seq<String>, worker: (S, String, String) -> Step<S>,
                         versions: seq<String>, s: S, listing: seq<String>)
    requires !opts.dryRun && (forall t :: listingOf(t) == listing)
    requires GlobsWellFormed(opts, g, builder, versions) && Stateless(worker)
    ensures var r := VersionsRun(opts, g, builder, listingOf, worker, versions, s);
      var all := Candidates(opts, g, builder, listing, versions);
      r.state == s && !r.flow.Halt? &&
      (r.flow.Next? <==> forall i :: 0 <= i < |all| ==> Passes(worker, s, all[i])) &&
      (r.flow.Fail? ==>
         exists k :: 0 <= k < |all| &&
                     worker(s, all[k].driverVersion, all[k].path).err == Some(r.flow.e) &&
                     forall i :: 0 <= i < k ==> Passes(worker, s, all[i]))
  {
    var r := VersionsRun(opts, g, builder, listingOf, worker, versions, s);
    var all := Candidates(opts, g, builder, listing, versions);
    LoopTrace(opts, g, builder, listingOf, worker, versions, s, listing);
    ReplayStateless(worker, s, r.visits);
    if r.flow.Fail? {
      var k := |r.visits| - 1;
      assert all[k] == r.visits[k];
      assert forall i :: 0 <= i < k ==> all[i] == r.visits[i];
      assert !Passes(worker, s, all[k]);
    }
  }
}
