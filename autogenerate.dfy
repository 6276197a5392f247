/**
 * The older config generator, `generateConfigs`: a target distro in kernel-crawler
 * naming (or "*" for all, or "" for the distro kernel-crawler last ran against), a fixed
 * list of supported distros, and one config per selected kernel and driver version with
 * both outputs always set. The output and config path formats it uses are not part of
 * this model's sources; the output path is an input, the config path is taken to be the
 * filesystem layout with the architecture as given.
 */
module Autogenerate {
  import opened Wrappers
  import opened Strings
  import opened Errors
  import opened Root
  import opened Validate
  import opened Generate
  import Utils

  /** The distros configs can be generated for, in kernel-crawler naming. */
  const AutogenDistros: seq<String> := ["AlmaLinux", "AmazonLinux", "AmazonLinux2", "AmazonLinux2022",
    "AmazonLinux2023", "BottleRocket", "CentOS", "Debian", "Fedora", "Minikube", "Talos", "Ubuntu"]

  const LastDistroUrl: String :=
    "https://raw.githubusercontent.com/falcosecurity/kernel-crawler/kernels/last_run_distro.txt"

  /** The list has twelve distros and leaves PhotonOS out. */
  lemma AutogenDistrosFacts()
    ensures |AutogenDistros| == 12 && "PhotonOS" !in AutogenDistros
  {
  }

  /**
   * A kernel of the feed. Its config name comes with it: the type's own
   * `ToConfigName` is not part of this model.
   */
  datatype KernelEntry = KernelEntry(kernelVersion: String, kernelRelease: String, target: String,
                                     headers: seq<String>, kernelConfigData: String, configName: String)

  /** The output path format, by (driver version, architecture, driver name, target, release, version). */
  type OutputPathFmt = (String, String, String, String, String, String) -> String

  /**
   * The autogenerate options embed the root options and add a driver name and a target.
   * The added driver name shadows the embedded one: it is the one the entries use, and
   * the two may differ (the embedded one is commonly left empty).
   */
  datatype AutoOptions = AutoOptions(opts: Options, driverName: String, target: String)

  /** `loadLastRunDistro`: the downloaded name with one trailing newline removed. */
  function LoadLastRunDistro(fetch: String -> Result<String, Error>): (r: Result<String, Error>)
    ensures fetch(LastDistroUrl).Failure? ==> r == Failure(fetch(LastDistroUrl).error)
    ensures fetch(LastDistroUrl).Success? ==>
      r.Success? &&
      (HasSuffix(fetch(LastDistroUrl).value, "\n") ==> r.value + "\n" == fetch(LastDistroUrl).value) &&
      (!HasSuffix(fetch(LastDistroUrl).value, "\n") ==> r.value == fetch(LastDistroUrl).value)
  {
    match fetch(LastDistroUrl)
    case Failure(e) => Failure(e)
    case Success(body) => Success(TrimSuffix(body, "\n"))
  }

  /** Only one newline goes: "Ubuntu\n\n" becomes "Ubuntu\n". */
  lemma OneNewlineTrimmed(fetch: String -> Result<String, Error>)
    requires fetch(LastDistroUrl) == Success("Ubuntu\n\n")
    ensures LoadLastRunDistro(fetch) == Success("Ubuntu\n")
  {
    assert HasSuffix("Ubuntu\n\n", "\n");
    assert "Ubuntu\n" + "\n" == "Ubuntu\n\n";
  }

  /** The distro fields to read from the feed, in list order. */
  function SelectedDistros(target: String): (ds: seq<String>)
    ensures target == "*" ==> ds == AutogenDistros
    ensures target != "*" && target in AutogenDistros ==> ds == [target]
    ensures target != "*" && target !in AutogenDistros ==> ds == []
  {
    AutogenDistrosDistinct();
    FilterDistros(AutogenDistros, target)
  }

  /** The first letters of the distro names, in list order. */
  const DistroInitials: String := "AAAAABCDFMTU"

  lemma AutogenInitials()
    ensures |AutogenDistros| == |DistroInitials|
    ensures forall i :: 0 <= i < |AutogenDistros| ==> |AutogenDistros[i]| > 0 && AutogenDistros[i][0] == DistroInitials[i]
  {
  }

  /** The five names starting with "A" differ pairwise. */
  lemma AutogenANamesDistinct()
    ensures forall i, j :: 0 <= i < j < 5 ==> AutogenDistros[i] != AutogenDistros[j]
  {
    var ds := AutogenDistros;
    assert ds[0][1] == 'l' && ds[1][1] == 'm' && ds[2][1] == 'm' && ds[3][1] == 'm' && ds[4][1] == 'm';
    assert |ds[1]| == 11 && |ds[2]| == 12 && |ds[3]| == 15 && |ds[4]| == 15;
    assert ds[3][14] == '2' && ds[4][14] == '3';
  }

  /** No distro is listed twice: the names differ in their first letter or, among the "A" names, pairwise. */
  lemma AutogenDistrosDistinct()
    ensures forall i, j :: 0 <= i < j < |AutogenDistros| ==> AutogenDistros[i] != AutogenDistros[j]
  {
    AutogenInitials();
    AutogenANamesDistinct();
    forall i, j | 0 <= i < j < |AutogenDistros| && 5 <= j ensures AutogenDistros[i] != AutogenDistros[j] {
      assert DistroInitials[i] != DistroInitials[j];
    }
  }

  function FilterDistros(ds: seq<String>, target: String): (r: seq<String>)
    requires forall i, j :: 0 <= i < j < |ds| ==> ds[i] != ds[j]
    ensures target == "*" ==> r == ds
    ensures target != "*" && target in ds ==> r == [target]
    ensures target != "*" && target !in ds ==> r == []
    decreases |ds|
  {
    if ds == [] then []
    else (if target == "*" || ds[0] == target then [ds[0]] else []) + FilterDistros(ds[1..], target)
  }


  /**
   * The record written for an entry and a driver version: the entry's kernel fields,
   * the Debian name of the architecture, and both outputs regardless of what the
   * kernel release supports.
   */
  function EntryRecord(a: AutoOptions, fmt: OutputPathFmt, entry: KernelEntry, dv: String): (dy: DriverkitYaml)
    ensures dy.kernelVersion == entry.kernelVersion && dy.kernelRelease == entry.kernelRelease
    ensures dy.target == entry.target && dy.kernelUrls == entry.headers
    ensures dy.kernelConfigData == entry.kernelConfigData
    ensures dy.architecture == Utils.ToDebArch(a.opts.architecture)
    ensures var out := fmt(dv, a.opts.architecture, a.driverName, entry.target, entry.kernelRelease,
                           entry.kernelVersion);
      dy.output.kernelModule == out + ".ko" && dy.output.probe == out + ".o"
  {
    var out := fmt(dv, a.opts.architecture, a.driverName, entry.target, entry.kernelRelease, entry.kernelVersion);
    DriverkitYaml(entry.kernelVersion, entry.kernelRelease, entry.target, Utils.ToDebArch(a.opts.architecture),
                  Outputs(out + ".ko", out + ".o"), entry.headers, entry.kernelConfigData)
  }

  /** One entry: one config per driver version, stopping at the first error. */
  function EntryRun(a: AutoOptions, fmt: OutputPathFmt, io: Io, entry: KernelEntry, versions: seq<String>,
                    files: map<String, String>): Outcome
    decreases |versions|
  {
    if versions == [] then Outcome(files, None)
    else
      var dv := versions[0];
      match io.marshal(EntryRecord(a, fmt, entry, dv))
      case Failure(e) => Outcome(files, Some(e))
      case Success(data) =>
        var path := LegacyConfigPath(a.opts, dv, entry.configName);
        var dir := ConfigDir(a.opts.(nonDebArchitecture := a.opts.architecture), dv);
        if io.mkdirAll(dir).Some? then Outcome(files, io.mkdirAll(dir))
        else if io.openFile(path).Some? then Outcome(files, io.openFile(path))
        else
          var prior := if path in files then Some(files[path]) else None;
          EntryRun(a, fmt, io, entry, versions[1..], files[path := WriteAt(prior, data, io.writeFails(path))])
  }

  /** One distro's goroutine: its entries in order, stopping at the first error. */
  function GroupRun(a: AutoOptions, fmt: OutputPathFmt, io: Io, entries: seq<KernelEntry>,
                    files: map<String, String>): Outcome
    decreases |entries|
  {
    if entries == [] then Outcome(files, None)
    else
      var r := EntryRun(a, fmt, io, entries[0], a.opts.driverVersions, files);
      if r.err.Some? then r else GroupRun(a, fmt, io, entries[1..], r.files)
  }

  /**
   * The distro goroutines one after another; dry-run skips every group. Each group runs
   * to its own first error, and the first error in this order is returned.
   */
  function GroupsRun(a: AutoOptions, fmt: OutputPathFmt, io: Io, feed: map<String, seq<KernelEntry>>,
                     distros: seq<String>, files: map<String, String>): Outcome
    decreases |distros|
  {
    if distros == [] then Outcome(files, None)
    else
      var entries := if distros[0] in feed then feed[distros[0]] else [];
      var r := if a.opts.dryRun then Outcome(files, None) else GroupRun(a, fmt, io, entries, files);
      var rest := GroupsRun(a, fmt, io, feed, distros[1..], r.files);
      Outcome(rest.files, if r.err.Some? then r.err else rest.err)
  }

  /** The target as given, or the last-run distro when none is given. */
  function ResolveTarget(a: AutoOptions, fetch: String -> Result<String, Error>): (r: Result<String, Error>)
    ensures a.target != "" ==> r == Success(a.target)
    ensures a.target == "" ==> r == LoadLastRunDistro(fetch)
  {
    if a.target == "" then LoadLastRunDistro(fetch) else Success(a.target)
  }

  /** A target other than "*" must be one of the listed distros. */
  function CheckTarget(target: String): (err: Option<Error>)
    ensures err.None? <==> target == "*" || target in AutogenDistros
    ensures err.Some? ==> err == Some(UnsupportedTargetDistro(target, AutogenDistros))
  {
    if target != "*" && target !in AutogenDistros then Some(UnsupportedTargetDistro(target, AutogenDistros))
    else None
  }

  /**
   * `generateConfigs`: resolve the target, reject one that is neither "*" nor supported,
   * parse the feed for the selected distros, then run their groups.
   */
  function GenerateSpec(a: AutoOptions, fmt: OutputPathFmt, io: Io, fetch: String -> Result<String, Error>,
                        parse: seq<String> -> Result<map<String, seq<KernelEntry>>, Error>,
                        files: map<String, String>): Outcome
  {
    match ResolveTarget(a, fetch)
    case Failure(e) => Outcome(files, Some(e))
    case Success(target) => TargetRun(a, fmt, io, parse, target, files)
  }

  /** `generateConfigs` once the target is known. */
  function TargetRun(a: AutoOptions, fmt: OutputPathFmt, io: Io,
                     parse: seq<String> -> Result<map<String, seq<KernelEntry>>, Error>,
                     target: String, files: map<String, String>): Outcome
  {
    if CheckTarget(target).Some? then Outcome(files, CheckTarget(target))
    else
      var distros := SelectedDistros(target);
      match parse(distros)
      case Failure(e) => Outcome(files, Some(e))
      case Success(feed) => GroupsRun(a, fmt, io, feed, distros, files)
  }

  method EntryConfigs(a: AutoOptions, fmt: OutputPathFmt, io: Io, entry: KernelEntry, files0: map<String, String>)
    returns (files: map<String, String>, err: Option<Error>)
    ensures Outcome(files, err) == EntryRun(a, fmt, io, entry, a.opts.driverVersions, files0)
  {
    files, err := files0, None;
    var archOpts := a.opts.(nonDebArchitecture := a.opts.architecture);
    var versions := a.opts.driverVersions;
    var i := 0;
    while i < |versions|
      invariant 0 <= i <= |versions| && err.None?
      invariant EntryRun(a, fmt, io, entry, versions, files0) == EntryRun(a, fmt, io, entry, versions[i..], files)
    {
      assert versions[i..][0] == versions[i] && versions[i..][1..] == versions[i + 1..];
      var dv := versions[i];
      var dy := EntryRecord(a, fmt, entry, dv);
      var yamlData := io.marshal(dy);
      if yamlData.Failure? {
        return files, Some(yamlData.error);
      }
      var configPath := LegacyConfigPath(a.opts, dv, entry.configName);
      err := io.mkdirAll(ConfigDir(archOpts, dv));
      if err.Some? {
        return;
      }
      err := io.openFile(configPath);
      if err.Some? {
        return;
      }
      var prior := if configPath in files then Some(files[configPath]) else None;
      files := files[configPath := WriteAt(prior, yamlData.value, io.writeFails(configPath))];
      i := i + 1;
    }
  }

  method DistroGroup(a: AutoOptions, fmt: OutputPathFmt, io: Io, entries: seq<KernelEntry>,
                     files0: map<String, String>)
    returns (files: map<String, String>, err: Option<Error>)
    ensures Outcome(files, err) == GroupRun(a, fmt, io, entries, files0)
  {
    files, err := files0, None;
    var j := 0;
    while j < |entries|
      invariant 0 <= j <= |entries|
      invariant GroupRun(a, fmt, io, entries, files0) == GroupRun(a, fmt, io, entries[j..], files)
    {
      assert entries[j..][0] == entries[j] && entries[j..][1..] == entries[j + 1..];
      var e;
      files, e := EntryConfigs(a, fmt, io, entries[j], files);
      if e.Some? {
        return files, e;
      }
      j := j + 1;
    }
  }

  method GenerateConfigs(a: AutoOptions, fmt: OutputPathFmt, io: Io, fetch: String -> Result<String, Error>,
                         parse: seq<String> -> Result<map<String, seq<KernelEntry>>, Error>,
                         files0: map<String, String>)
    returns (files: map<String, String>, err: Option<Error>)
    ensures Outcome(files, err) == GenerateSpec(a, fmt, io, fetch, parse, files0)
  {
    var target := a.target;
    if target == "" {
      var loaded := LoadLastRunDistro(fetch);
      if loaded.Failure? {
        return files0, Some(loaded.error);
      }
      target := loaded.value;
    }
    assert GenerateSpec(a, fmt, io, fetch, parse, files0) == TargetRun(a, fmt, io, parse, target, files0);
    files, err := RunTarget(a, fmt, io, parse, target, files0);
  }

  /** The rest of `generateConfigs` once the target is resolved. */
  method RunTarget(a: AutoOptions, fmt: OutputPathFmt, io: Io,
                   parse: seq<String> -> Result<map<String, seq<KernelEntry>>, Error>,
                   target: String, files0: map<String, String>)
    returns (files: map<String, String>, err: Option<Error>)
    ensures Outcome(files, err) == TargetRun(a, fmt, io, parse, target, files0)
  {
    var bad := CheckTarget(target);
    if bad.Some? {
      return files0, bad;
    }
    var distros := SelectedDistros(target);
    var parsed := parse(distros);
    if parsed.Failure? {
      return files0, Some(parsed.error);
    }
    files, err := RunGroups(a, fmt, io, parsed.value, distros, files0);
  }

  /** The goroutine launch loop; dry-run skips each group with `continue`. */
  method RunGroups(a: AutoOptions, fmt: OutputPathFmt, io: Io, feed: map<String, seq<KernelEntry>>,
                   distros: seq<String>, files0: map<String, String>)
    returns (files: map<String, String>, err: Option<Error>)
    ensures Outcome(files, err) == GroupsRun(a, fmt, io, feed, distros, files0)
  {
    files, err := files0, None;
    var i := 0;
    while i < |distros|
      invariant 0 <= i <= |distros|
      invariant var rest := GroupsRun(a, fmt, io, feed, distros[i..], files);
        GroupsRun(a, fmt, io, feed, distros, files0) == Outcome(rest.files, if err.Some? then err else rest.err)
    {
      assert distros[i..][0] == distros[i] && distros[i..][1..] == distros[i + 1..];
      var distro := distros[i];
      i := i + 1;
      if a.opts.dryRun {
        continue;
      }
      var kernelEntries := if distro in feed then feed[distro] else [];
      var e;
      files, e := DistroGroup(a, fmt, io, kernelEntries, files);
      if err.None? {
        err := e;
      }
    }
  }

  /**
   * A target that, once resolved, is neither "*" nor a supported distro is an error
   * naming the supported list, and nothing is written.
   */
  lemma UnsupportedTargetWritesNothing(a: AutoOptions, fmt: OutputPathFmt, io: Io,
      fetch: String -> Result<String, Error>, parse: seq<String> -> Result<map<String, seq<KernelEntry>>, Error>,
      files: map<String, String>)
    requires a.target != "" && a.target != "*" && a.target !in AutogenDistros
    ensures GenerateSpec(a, fmt, io, fetch, parse, files) ==
      Outcome(files, Some(UnsupportedTargetDistro(a.target, AutogenDistros)))
  {
  }

  /** "WRONG_TARGET" is rejected, "CentOS" selects exactly CentOS. */
  lemma TargetExamples()
    ensures "WRONG_TARGET" !in AutogenDistros
    ensures SelectedDistros("CentOS") == ["CentOS"]
  {
    assert "WRONG_TARGET" !in AutogenDistros by {
      AutogenInitials();
      assert 'W' !in DistroInitials;
    }
    assert "CentOS" in AutogenDistros by {
      assert AutogenDistros[6] == "CentOS";
    }
  }

  /** In dry-run every group is skipped: nothing is written and no group error is possible. */
  lemma {:induction false} DryRunWritesNothing(a: AutoOptions, fmt: OutputPathFmt, io: Io,
      feed: map<String, seq<KernelEntry>>, distros: seq<String>, files: map<String, String>)
    requires a.opts.dryRun
    ensures GroupsRun(a, fmt, io, feed, distros, files) == Outcome(files, None)
    decreases |distros|
  {
    if distros != [] {
      DryRunWritesNothing(a, fmt, io, feed, distros[1..], files);
    }
  }

  /** The config paths of one entry, one per driver version. */
  function EntryPaths(opts: Options, entry: KernelEntry): set<String> {
    VersionPaths(opts, entry.configName, opts.driverVersions)
  }

  /** The older-layout config paths of one config name, one per listed version. */
  function VersionPaths(opts: Options, name: String, versions: seq<String>): set<String> {
    set dv | dv in versions :: LegacyConfigPath(opts, dv, name)
  }

  lemma VersionPathsCons(opts: Options, name: String, versions: seq<String>)
    requires versions != []
    ensures VersionPaths(opts, name, versions) ==
      {LegacyConfigPath(opts, versions[0], name)} + VersionPaths(opts, name, versions[1..])
  {
    assert versions == [versions[0]] + versions[1..];
  }

  /** The files after one version of an entry is written with reliable file operations. */
  ghost function EntryStepFiles(a: AutoOptions, fmt: OutputPathFmt, io: Io, entry: KernelEntry, dv: String,
      files: map<String, String>): map<String, String>
    requires Reliable(io)
  {
    var path := LegacyConfigPath(a.opts, dv, entry.configName);
    var prior := if path in files then Some(files[path]) else None;
    files[path := WriteAt(prior, io.marshal(EntryRecord(a, fmt, entry, dv)).value, io.writeFails(path))]
  }

  /** With reliable file operations the first version adds its config path and the loop goes on. */
  lemma EntryRunStep(a: AutoOptions, fmt: OutputPathFmt, io: Io, entry: KernelEntry,
      versions: seq<String>, files: map<String, String>)
    requires Reliable(io) && versions != []
    ensures var files1 := EntryStepFiles(a, fmt, io, entry, versions[0], files);
      EntryRun(a, fmt, io, entry, versions, files) == EntryRun(a, fmt, io, entry, versions[1..], files1) &&
      files1.Keys == files.Keys + {LegacyConfigPath(a.opts, versions[0], entry.configName)}
  {
    var dv := versions[0];
    var path := LegacyConfigPath(a.opts, dv, entry.configName);
    var dir := ConfigDir(a.opts.(nonDebArchitecture := a.opts.architecture), dv);
    assert io.marshal(EntryRecord(a, fmt, entry, dv)).Success?;
    assert io.mkdirAll(dir).None? && io.openFile(path).None?;
  }

  lemma {:induction false} EntryRunKeys(a: AutoOptions, fmt: OutputPathFmt, io: Io, entry: KernelEntry,
      versions: seq<String>, files: map<String, String>)
    requires Reliable(io)
    ensures var r := EntryRun(a, fmt, io, entry, versions, files);
      r.err.None? && r.files.Keys == files.Keys + VersionPaths(a.opts, entry.configName, versions)
    decreases |versions|
  {
    if versions != [] {
      EntryRunStep(a, fmt, io, entry, versions, files);
      EntryRunKeys(a, fmt, io, entry, versions[1..], EntryStepFiles(a, fmt, io, entry, versions[0], files));
      VersionPathsCons(a.opts, entry.configName, versions);
    }
  }

  /** The config paths of a group's entries, one per entry and driver version. */
  function GroupPaths(opts: Options, entries: seq<KernelEntry>): set<String>
    decreases |entries|
  {
    if entries == [] then {} else EntryPaths(opts, entries[0]) + GroupPaths(opts, entries[1..])
  }

  /** A path belongs to a group iff it is the config path of one of its entries for some driver version. */
  lemma {:induction false} GroupPathsMembers(opts: Options, entries: seq<KernelEntry>, p: String)
    ensures p in GroupPaths(opts, entries) <==>
      exists e, dv :: e in entries && dv in opts.driverVersions && p == LegacyConfigPath(opts, dv, e.configName)
    decreases |entries|
  {
    if entries != [] {
      GroupPathsMembers(opts, entries[1..], p);
      assert entries == [entries[0]] + entries[1..];
    }
  }

  /**
   * With reliable file operations, a group returns nil and creates exactly the config
   * paths of its entries, one per driver version.
   */
  lemma {:induction false} GroupRunKeys(a: AutoOptions, fmt: OutputPathFmt, io: Io, entries: seq<KernelEntry>,
      files: map<String, String>)
    requires Reliable(io)
    ensures var r := GroupRun(a, fmt, io, entries, files);
      r.err.None? && r.files.Keys == files.Keys + GroupPaths(a.opts, entries)
    decreases |entries|
  {
    if entries != [] {
      EntryRunKeys(a, fmt, io, entries[0], a.opts.driverVersions, files);
      var r := EntryRun(a, fmt, io, entries[0], a.opts.driverVersions, files);
      GroupRunKeys(a, fmt, io, entries[1..], r.files);
    }
  }

  /**
   * With "*" every listed distro is read from the feed; with a fetched last-run distro
   * the name is used after trimming one newline.
   */
  lemma StarSelectsAll(a: AutoOptions, fmt: OutputPathFmt, io: Io, fetch: String -> Result<String, Error>,
      parse: seq<String> -> Result<map<String, seq<KernelEntry>>, Error>, files: map<String, String>)
    requires a.target == "*" && parse(AutogenDistros).Success?
    ensures GenerateSpec(a, fmt, io, fetch, parse, files) ==
      GroupsRun(a, fmt, io, parse(AutogenDistros).value, AutogenDistros, files)
  {
    var t := a.target;
    assert GenerateSpec(a, fmt, io, fetch, parse, files) == TargetRun(a, fmt, io, parse, t, files);
    assert CheckTarget(t).None? && SelectedDistros(t) == AutogenDistros;
    TargetRunSelected(a, fmt, io, parse, t, files);
  }

  /** An accepted target whose feed parses runs the groups of exactly the selected distros. */
  lemma TargetRunSelected(a: AutoOptions, fmt: OutputPathFmt, io: Io,
      parse: seq<String> -> Result<map<String, seq<KernelEntry>>, Error>, target: String, files: map<String, String>)
    requires CheckTarget(target).None? && parse(SelectedDistros(target)).Success?
    ensures TargetRun(a, fmt, io, parse, target, files) ==
      GroupsRun(a, fmt, io, parse(SelectedDistros(target)).value, SelectedDistros(target), files)
  {
  }

  lemma LastRunDistroUsed(a: AutoOptions, fmt: OutputPathFmt, io: Io, fetch: String -> Result<String, Error>,
      parse: seq<String> -> Result<map<String, seq<KernelEntry>>, Error>, files: map<String, String>)
    requires a.target == "" && fetch(LastDistroUrl) == Success("CentOS\n")
    requires parse(["CentOS"]).Success?
    ensures GenerateSpec(a, fmt, io, fetch, parse, files) ==
      GroupsRun(a, fmt, io, parse(["CentOS"]).value, ["CentOS"], files)
  {
    assert HasSuffix("CentOS\n", "\n");
    assert "CentOS" + "\n" == "CentOS\n";
    assert LoadLastRunDistro(fetch) == Success("CentOS");
  }
}
