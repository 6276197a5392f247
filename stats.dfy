/**
 * Driver statistics: how many kernel modules and eBPF probes exist per driver version,
 * counted either from the local config files (an output set in a config counts) or
 * from the object store (a key ending in `.ko` or `.o` counts), and the table of one
 * row per requested driver version plus a totals row.
 */
module Stats {
  import opened Wrappers
  import opened Strings
  import opened Errors
  import opened Matching
  import opened Root
  import opened Validate
  import S3Utils

  datatype DriverStats = DriverStats(numProbes: int, numModules: int, numHeaders: int, numKernelConfigDatas: int)

  const ZeroStats: DriverStats := DriverStats(0, 0, 0, 0)

  type StatsByVersion = map<String, DriverStats>

  /** A map lookup with Go's zero value for a missing version. */
  function StatsOf(m: StatsByVersion, dv: String): DriverStats {
    if dv in m then m[dv] else ZeroStats
  }

  const FileStatterInfo: String := "gathering stats for local config files"
  const S3StatterInfo: String := "gathering stats for remote drivers"

  // ---------------------------------------------------------------------------
  // The file statter (pkg/stats/statter_file.go)

  /**
   * `getConfigStats`: a read error or a parse error (with the config path as context)
   * leaves the stats as they were; a parsed config adds one probe if it names a probe
   * output and one module if it names a module output.
   */
  function ConfigStats(st: DriverStats, configPath: String, load: Load): (r: Step<DriverStats>)
    ensures load.Unreadable? ==> r == Step(st, Some(load.e))
    ensures load.Unparsable? ==> r == Step(st, Some(WithMessage("config: " + configPath, load.e)))
    ensures load.Parsed? ==>
              && r.err.None?
              && r.state.numProbes == st.numProbes + (if load.dy.output.probe != "" then 1 else 0)
              && r.state.numModules == st.numModules + (if load.dy.output.kernelModule != "" then 1 else 0)
              && r.state.numHeaders == st.numHeaders
              && r.state.numKernelConfigDatas == st.numKernelConfigDatas
  {
    match load
    case Unreadable(e) => Step(st, Some(e))
    case Unparsable(e) => Step(st, Some(WithMessage("config: " + configPath, e)))
    case Parsed(dy) =>
      var withProbe := if dy.output.probe != "" then st.(numProbes := st.numProbes + 1) else st;
      var withModule := if dy.output.kernelModule != "" then withProbe.(numModules := withProbe.numModules + 1)
                        else withProbe;
      Step(withModule, None)
  }

  /**
   * The looper callback: the version's stats are read (zero if absent), updated and
   * stored back, also when the update fails.
   */
  function FileWorker(loads: String -> Load): (StatsByVersion, String, String) -> Step<StatsByVersion> {
    (m: StatsByVersion, dv: String, path: String) =>
      var st := ConfigStats(StatsOf(m, dv), path, loads(path));
      Step(m[dv := st.state], st.err)
  }

  /** A failing config still stores its version's entry, with the stats unchanged. */
  lemma FailureStoresEntry(loads: String -> Load, m: StatsByVersion, dv: String, path: String)
    requires !loads(path).Parsed?
    ensures var st := FileWorker(loads)(m, dv, path);
      st.err.Some? && dv in st.state && st.state[dv] == StatsOf(m, dv) &&
      forall v :: v != dv ==> StatsOf(st.state, v) == StatsOf(m, v)
  {
  }

  /** `fileStatter.GetDriverStats`: the filesystem looper over config paths with the counting callback. */
  method FileDriverStats(opts: Options, g: GlobEngine, listing: seq<String>, loads: String -> Load)
    returns (stats: StatsByVersion, err: Option<Error>)
    ensures var r := VersionsRun(opts, g, BuildConfigPath, (m: StatsByVersion) => listing, FileWorker(loads),
                                 opts.driverVersions, map[]);
      stats == r.state && err == ErrorOf(r.flow)
  {
    stats, err := LoopFiltered(opts, g, BuildConfigPath, (m: StatsByVersion) => listing, FileWorker(loads), map[]);
  }

  /** The visits of `dv` whose config parses and names a probe output. */
  function CountProbes(visits: seq<Visit>, dv: String, loads: String -> Load): nat
    decreases |visits|
  {
    if visits == [] then 0
    else
      var v := visits[0];
      (if v.driverVersion == dv && loads(v.path).Parsed? && loads(v.path).dy.output.probe != "" then 1 else 0)
      + CountProbes(visits[1..], dv, loads)
  }

  /** The visits of `dv` whose config parses and names a module output. */
  function CountModules(visits: seq<Visit>, dv: String, loads: String -> Load): nat
    decreases |visits|
  {
    if visits == [] then 0
    else
      var v := visits[0];
      (if v.driverVersion == dv && loads(v.path).Parsed? && loads(v.path).dy.output.kernelModule != "" then 1 else 0)
      + CountModules(visits[1..], dv, loads)
  }

  /**
   * Replaying the callback over configs that all parse: no error, each version's counts
   * grow by its visits' probe and module outputs, and a version with no visit keeps its
   * absence from the map.
   */
  lemma {:induction false} ReplayFileCounts(loads: String -> Load, m: StatsByVersion, visits: seq<Visit>)
    requires forall i :: 0 <= i < |visits| ==> loads(visits[i].path).Parsed?
    ensures var st := Replay(FileWorker(loads), m, visits);
      st.err.None? &&
      (forall dv :: StatsOf(st.state, dv).numProbes == StatsOf(m, dv).numProbes + CountProbes(visits, dv, loads)) &&
      (forall dv :: StatsOf(st.state, dv).numModules == StatsOf(m, dv).numModules + CountModules(visits, dv, loads)) &&
      (forall dv :: dv !in m && (forall i :: 0 <= i < |visits| ==> visits[i].driverVersion != dv) ==>
        dv !in st.state)
    decreases |visits|
  {
    if visits != [] {
      var v := visits[0];
      var step := FileWorker(loads)(m, v.driverVersion, v.path);
      assert loads(v.path).Parsed?;
      ReplayFileCounts(loads, step.state, visits[1..]);
      var st := Replay(FileWorker(loads), m, visits);
      forall dv | dv !in m && (forall i :: 0 <= i < |visits| ==> visits[i].driverVersion != dv)
        ensures dv !in st.state
      {
        assert visits[0].driverVersion != dv;
        forall i | 0 <= i < |visits[1..]| ensures visits[1..][i].driverVersion != dv {
          assert visits[1..][i] == visits[i + 1];
        }
      }
    }
  }

  /**
   * Outside dry-run, with good patterns and every selected config parsing, the file
   * statter returns nil, and each version's counts are the number of its selected
   * configs naming a probe, and naming a module; a version with no config is absent,
   * so its stats are zero.
   */
  lemma FileStatsCount(opts: Options, g: GlobEngine, listing: seq<String>, loads: String -> Load)
    requires !opts.dryRun && GlobsWellFormed(opts, g, BuildConfigPath, opts.driverVersions)
    requires var all := Candidates(opts, g, BuildConfigPath, listing, opts.driverVersions);
      forall i :: 0 <= i < |all| ==> loads(all[i].path).Parsed?
    ensures var r := VersionsRun(opts, g, BuildConfigPath, (m: StatsByVersion) => listing, FileWorker(loads),
                                 opts.driverVersions, map[]);
      var all := Candidates(opts, g, BuildConfigPath, listing, opts.driverVersions);
      r.flow.Next? &&
      (forall dv :: StatsOf(r.state, dv).numProbes == CountProbes(all, dv, loads)) &&
      (forall dv :: StatsOf(r.state, dv).numModules == CountModules(all, dv, loads)) &&
      (forall dv :: (forall i :: 0 <= i < |all| ==> all[i].driverVersion != dv) ==> StatsOf(r.state, dv) == ZeroStats)
  {
    var listingOf := (m: StatsByVersion) => listing;
    var w := FileWorker(loads);
    LoopTrace(opts, g, BuildConfigPath, listingOf, w, opts.driverVersions, map[], listing);
    var r := VersionsRun(opts, g, BuildConfigPath, listingOf, w, opts.driverVersions, map[]);
    var all := Candidates(opts, g, BuildConfigPath, listing, opts.driverVersions);
    assert forall i :: 0 <= i < |r.visits| ==> r.visits[i] == all[i];
    ReplayFileCounts(loads, map[], r.visits);
    assert r.flow.Next?;
  }

  // ---------------------------------------------------------------------------
  // The object-store statter (pkg/stats/statter_s3.go)

  /** A key ending in `.ko` is a module; otherwise one ending in `.o` is a probe. */
  function KeyStats(st: DriverStats, key: String): (r: DriverStats)
    ensures HasSuffix(key, ".ko") ==> r == st.(numModules := st.numModules + 1)
    ensures !HasSuffix(key, ".ko") && HasSuffix(key, ".o") ==> r == st.(numProbes := st.numProbes + 1)
    ensures !HasSuffix(key, ".ko") && !HasSuffix(key, ".o") ==> r == st
  {
    if HasSuffix(key, ".ko") then st.(numModules := st.numModules + 1)
    else if HasSuffix(key, ".o") then st.(numProbes := st.numProbes + 1)
    else st
  }

  /** The callback never fails. */
  function S3Worker(): (StatsByVersion, String, String) -> Step<StatsByVersion> {
    (m: StatsByVersion, dv: String, key: String) => Step(m[dv := KeyStats(StatsOf(m, dv), key)], None)
  }

  /** `s3Statter.GetDriverStats`: the object-store looper with the suffix-counting callback. */
  method S3DriverStats(opts: Options, re: RegexEngine, pagesOf: String -> seq<S3Utils.Page>)
    returns (stats: StatsByVersion, err: Option<Error>)
    ensures var r := S3Utils.BucketRun(opts, re, pagesOf, S3Worker(), opts.driverVersions, map[]);
      stats == r.state && err == ErrorOf(r.flow)
  {
    stats, err := S3Utils.LoopFiltered(opts, re, pagesOf, S3Worker(), map[]);
  }

  function CountSuffix(visits: seq<Visit>, dv: String, ext: String): nat
    decreases |visits|
  {
    if visits == [] then 0
    else
      var v := visits[0];
      (if v.driverVersion == dv && HasSuffix(v.path, ext) then 1 else 0) + CountSuffix(visits[1..], dv, ext)
  }

  /** Keys ending in `.o` but not in `.ko`: what counts as a probe. */
  function CountProbeKeys(visits: seq<Visit>, dv: String): nat
    decreases |visits|
  {
    if visits == [] then 0
    else
      var v := visits[0];
      (if v.driverVersion == dv && !HasSuffix(v.path, ".ko") && HasSuffix(v.path, ".o") then 1 else 0)
      + CountProbeKeys(visits[1..], dv)
  }

  lemma {:induction false} ReplayS3Counts(m: StatsByVersion, visits: seq<Visit>)
    ensures var st := Replay(S3Worker(), m, visits);
      st.err.None? &&
      (forall dv :: StatsOf(st.state, dv).numModules == StatsOf(m, dv).numModules + CountSuffix(visits, dv, ".ko")) &&
      (forall dv :: StatsOf(st.state, dv).numProbes == StatsOf(m, dv).numProbes + CountProbeKeys(visits, dv))
    decreases |visits|
  {
    if visits != [] {
      var v := visits[0];
      var m1 := m[v.driverVersion := KeyStats(StatsOf(m, v.driverVersion), v.path)];
      assert Replay(S3Worker(), m, visits) == Replay(S3Worker(), m1, visits[1..]);
      ReplayS3Counts(m1, visits[1..]);
      forall dv
        ensures StatsOf(m1, dv).numModules ==
                  StatsOf(m, dv).numModules + (if v.driverVersion == dv && HasSuffix(v.path, ".ko") then 1 else 0)
        ensures StatsOf(m1, dv).numProbes ==
                  StatsOf(m, dv).numProbes +
                  (if v.driverVersion == dv && !HasSuffix(v.path, ".ko") && HasSuffix(v.path, ".o") then 1 else 0)
      {
      }
    }
  }

  /**
   * Outside dry-run and with every page fetched, the object-store statter returns nil
   * and counts, per version, the selected keys ending in `.ko` as modules and the
   * others ending in `.o` as probes.
   */
  lemma S3StatsCount(opts: Options, re: RegexEngine, pagesOf: String -> seq<S3Utils.Page>)
    requires !opts.dryRun && S3Utils.PagesFetchable(opts, pagesOf, opts.driverVersions)
    ensures var r := S3Utils.BucketRun(opts, re, pagesOf, S3Worker(), opts.driverVersions, map[]);
      var all := S3Utils.BucketCandidates(opts, re, pagesOf, opts.driverVersions);
      r.flow.Next? &&
      (forall dv :: StatsOf(r.state, dv).numModules == CountSuffix(all, dv, ".ko")) &&
      (forall dv :: StatsOf(r.state, dv).numProbes == CountProbeKeys(all, dv))
  {
    S3Utils.BucketTrace(opts, re, pagesOf, S3Worker(), opts.driverVersions, map[]);
    var r := S3Utils.BucketRun(opts, re, pagesOf, S3Worker(), opts.driverVersions, map[]);
    ReplayS3Counts(map[], r.visits);
  }

  /**
   * The keys of one version in the order `.ko`, `.o`, `.o`, `.ko` give two probes and
   * two modules.
   */
  lemma FourKeys(dv: String, k1: String, k2: String, k3: String, k4: String)
    requires HasSuffix(k1, ".ko") && HasSuffix(k4, ".ko")
    requires HasSuffix(k2, ".o") && !HasSuffix(k2, ".ko") && HasSuffix(k3, ".o") && !HasSuffix(k3, ".ko")
    ensures var st := Replay(S3Worker(), map[], [Visit(dv, k1), Visit(dv, k2), Visit(dv, k3), Visit(dv, k4)]);
      StatsOf(st.state, dv).numProbes == 2 && StatsOf(st.state, dv).numModules == 2
  {
    var vs := [Visit(dv, k1), Visit(dv, k2), Visit(dv, k3), Visit(dv, k4)];
    ReplayS3Counts(map[], vs);
    assert vs[1..] == [Visit(dv, k2), Visit(dv, k3), Visit(dv, k4)];
    assert vs[1..][1..] == [Visit(dv, k3), Visit(dv, k4)];
    assert vs[1..][1..][1..] == [Visit(dv, k4)];
    assert CountSuffix([Visit(dv, k4)], dv, ".ko") == 1;
    assert CountSuffix([Visit(dv, k3), Visit(dv, k4)], dv, ".ko") == 1;
    assert CountSuffix([Visit(dv, k2), Visit(dv, k3), Visit(dv, k4)], dv, ".ko") == 1;
    assert CountSuffix(vs, dv, ".ko") == 2;
    assert CountProbeKeys([Visit(dv, k4)], dv) == 0;
    assert CountProbeKeys([Visit(dv, k3), Visit(dv, k4)], dv) == 1;
    assert CountProbeKeys([Visit(dv, k2), Visit(dv, k3), Visit(dv, k4)], dv) == 2;
    assert CountProbeKeys(vs, dv) == 2;
  }

  /**
   * Four configs of one version, three naming both outputs and one only a module,
   * give three probes and four modules.
   */
  lemma FourConfigs(loads: String -> Load, dv: String, p1: String, p2: String, p3: String, p4: String)
    requires loads(p1).Parsed? && loads(p2).Parsed? && loads(p3).Parsed? && loads(p4).Parsed?
    requires loads(p1).dy.output.probe != "" && loads(p1).dy.output.kernelModule != ""
    requires loads(p2).dy.output.probe != "" && loads(p2).dy.output.kernelModule != ""
    requires loads(p3).dy.output.probe == "" && loads(p3).dy.output.kernelModule != ""
    requires loads(p4).dy.output.probe != "" && loads(p4).dy.output.kernelModule != ""
    ensures var st := Replay(FileWorker(loads), map[], [Visit(dv, p1), Visit(dv, p2), Visit(dv, p3), Visit(dv, p4)]);
      StatsOf(st.state, dv).numProbes == 3 && StatsOf(st.state, dv).numModules == 4
  {
    var vs := [Visit(dv, p1), Visit(dv, p2), Visit(dv, p3), Visit(dv, p4)];
    ReplayFileCounts(loads, map[], vs);
    assert vs[1..] == [Visit(dv, p2), Visit(dv, p3), Visit(dv, p4)];
    assert vs[1..][1..] == [Visit(dv, p3), Visit(dv, p4)];
    assert vs[1..][1..][1..] == [Visit(dv, p4)];
    assert CountProbes([Visit(dv, p4)], dv, loads) == 1;
    assert CountProbes([Visit(dv, p3), Visit(dv, p4)], dv, loads) == 1;
    assert CountProbes([Visit(dv, p2), Visit(dv, p3), Visit(dv, p4)], dv, loads) == 2;
    assert CountProbes(vs, dv, loads) == 3;
    assert CountModules([Visit(dv, p4)], dv, loads) == 1;
    assert CountModules([Visit(dv, p3), Visit(dv, p4)], dv, loads) == 2;
    assert CountModules([Visit(dv, p2), Visit(dv, p3), Visit(dv, p4)], dv, loads) == 3;
    assert CountModules(vs, dv, loads) == 4;
  }

  // ---------------------------------------------------------------------------
  // The table (pkg/stats/stats.go)

  /** A table row: the label and the two counts in decimal. */
  datatype Row = Row(version: String, modules: String, probes: String)

  function RowOf(title: String, st: DriverStats): Row {
    Row(title, IntToString(st.numModules), IntToString(st.numProbes))
  }

  /** The module and probe totals over the listed versions, a version listed twice counting twice. */
  function Totals(m: StatsByVersion, versions: seq<String>): (t: DriverStats)
    ensures t.numHeaders == 0 && t.numKernelConfigDatas == 0
    decreases |versions|
  {
    if versions == [] then ZeroStats
    else
      var rest := Totals(m, versions[1..]);
      rest.(numModules := StatsOf(m, versions[0]).numModules + rest.numModules,
            numProbes := StatsOf(m, versions[0]).numProbes + rest.numProbes)
  }

  /** The rows `Run` appends: one per listed version, in order, then the totals. */
  function Table(m: StatsByVersion, versions: seq<String>): (rows: seq<Row>)
    ensures |rows| == |versions| + 1
    ensures forall i :: 0 <= i < |versions| ==> rows[i] == RowOf(versions[i], StatsOf(m, versions[i]))
    ensures rows[|versions|] == RowOf("TOTALS", Totals(m, versions))
  {
    seq(|versions|, i requires 0 <= i < |versions| => RowOf(versions[i], StatsOf(m, versions[i])))
      + [RowOf("TOTALS", Totals(m, versions))]
  }

  /**
   * `Run`: a statter error is returned with no row; otherwise the rows are built
   * version by version while the totals accumulate.
   */
  method Run(opts: Options, stats: Result<StatsByVersion, Error>) returns (rows: seq<Row>, err: Option<Error>)
    ensures stats.Failure? ==> rows == [] && err == Some(stats.error)
    ensures stats.Success? ==> err.None? && rows == Table(stats.value, opts.driverVersions)
  {
    if stats.Failure? {
      return [], Some(stats.error);
    }
    var m := stats.value;
    var versions := opts.driverVersions;
    var totalModules, totalProbes := 0, 0;
    rows := [];
    var i := 0;
    while i < |versions|
      invariant 0 <= i <= |versions|
      invariant rows == Table(m, versions[..i])[..i]
      invariant totalModules == Totals(m, versions[..i]).numModules
      invariant totalProbes == Totals(m, versions[..i]).numProbes
    {
      var stat := StatsOf(m, versions[i]);
      rows := rows + [RowOf(versions[i], stat)];
      TotalsSnoc(m, versions[..i], versions[i]);
      assert versions[..i + 1] == versions[..i] + [versions[i]];
      totalModules := totalModules + stat.numModules;
      totalProbes := totalProbes + stat.numProbes;
      i := i + 1;
    }
    assert versions[..i] == versions;
    rows := rows + [RowOf("TOTALS", DriverStats(totalProbes, totalModules, 0, 0))];
    err := None;
  }

  lemma {:induction false} TotalsSnoc(m: StatsByVersion, versions: seq<String>, dv: String)
    ensures Totals(m, versions + [dv]).numModules == Totals(m, versions).numModules + StatsOf(m, dv).numModules
    ensures Totals(m, versions + [dv]).numProbes == Totals(m, versions).numProbes + StatsOf(m, dv).numProbes
    decreases |versions|
  {
    if versions == [] {
      assert [] + [dv] == [dv];
    } else {
      assert (versions + [dv])[1..] == versions[1..] + [dv];
      TotalsSnoc(m, versions[1..], dv);
    }
  }

  /** Totals add up over concatenation, so a version listed twice is counted twice. */
  lemma {:induction false} TotalsAppend(m: StatsByVersion, a: seq<String>, b: seq<String>)
    ensures Totals(m, a + b).numModules == Totals(m, a).numModules + Totals(m, b).numModules
    ensures Totals(m, a + b).numProbes == Totals(m, a).numProbes + Totals(m, b).numProbes
    decreases |a|
  {
    if a == [] {
      assert a + b == b;
    } else {
      assert (a + b)[1..] == a[1..] + b;
      TotalsAppend(m, a[1..], b);
    }
  }

  lemma DuplicateCountedTwice(m: StatsByVersion, dv: String)
    ensures Totals(m, [dv, dv]).numModules == 2 * StatsOf(m, dv).numModules
    ensures Totals(m, [dv, dv]).numProbes == 2 * StatsOf(m, dv).numProbes
  {
    TotalsAppend(m, [dv], [dv]);
    assert [dv] + [dv] == [dv, dv];
  }

  /** A version missing from the statter's map shows zeros and adds nothing to the totals. */
  lemma MissingVersionIsZero(m: StatsByVersion, dv: String, versions: seq<String>)
    requires dv !in m
    ensures RowOf(dv, StatsOf(m, dv)) == RowOf(dv, ZeroStats)
    ensures Totals(m, versions + [dv]).numModules == Totals(m, versions).numModules
    ensures Totals(m, versions + [dv]).numProbes == Totals(m, versions).numProbes
  {
    TotalsSnoc(m, versions, dv);
  }
}
