/**
 * The config generator: either every kernel of the kernel-crawler feed that the target
 * filters select (auto mode), or the one kernel the target names (single mode). Each
 * selected kernel becomes one config file per driver version. The filesystem is a map
 * from path to contents; driverkit, the feed download and YAML marshalling are inputs.
 */
module Generate {
  import opened Wrappers
  import opened Strings
  import opened Errors
  import opened Matching
  import opened Root
  import opened Validate

  /** The kernel-crawler feed of one architecture. */
  function FeedUrl(arch: String): String {
    "https://raw.githubusercontent.com/falcosecurity/kernel-crawler/kernels/" + arch + "/list.json"
  }

  datatype GenOptions = GenOptions(opts: Options, auto: bool)

  /** The file operations `dumpConfig` performs, each of which may fail. */
  datatype Io = Io(
    marshal: DriverkitYaml -> Result<String, Error>,
    mkdirAll: String -> Option<Error>,
    openFile: String -> Option<Error>,
    writeFails: String -> bool)

  /** Every operation whose error the generator returns succeeds. */
  ghost predicate Reliable(io: Io) {
    (forall dy :: io.marshal(dy).Success?) &&
    (forall p :: io.mkdirAll(p).None?) && (forall p :: io.openFile(p).None?)
  }

  /** The files after a run and the error it returned. */
  datatype Outcome = Outcome(files: map<String, String>, err: Option<Error>)

  // ---------------------------------------------------------------------------
  // dumpConfig

  /** The folder `filepath.Dir` gives for a config path. */
  function ConfigDir(opts: Options, driverVersion: String): String {
    opts.repoRoot + "/driverkit/config/" + driverVersion + "/" + opts.nonDebArchitecture
  }

  lemma ConfigDirOfPath(opts: Options, dv: String, name: String)
    ensures BuildConfigPath(opts, dv, name) == ConfigDir(opts, dv) + "/" + name
  {
  }

  /**
   * Writing `data` to a file opened with O_CREATE|O_RDWR and no O_TRUNC: the bytes
   * written replace a prefix of what was there and a longer old tail survives. A
   * failed write leaves the (possibly just created, empty) file as it was.
   */
  function WriteAt(prior: Option<String>, data: String, fails: bool): (contents: String)
    ensures fails ==> contents == prior.GetOr("")
    ensures !fails ==> HasPrefix(contents, data) && |contents| == Max(|data|, |prior.GetOr("")|)
    ensures !fails ==> contents[|data|..] == prior.GetOr("")[Min(|data|, |prior.GetOr("")|)..]
  {
    var base := prior.GetOr("");
    if fails then base
    else if |base| > |data| then data + base[|data|..]
    else data
  }

  function Max(a: int, b: int): int { if a < b then b else a }
  function Min(a: int, b: int): int { if a < b then a else b }

  /** Writing the same data again changes nothing; a longer old file keeps its tail. */
  lemma WriteAtProperties(prior: String, data: String)
    ensures WriteAt(None, data, false) == data
    ensures WriteAt(Some(data), data, false) == data
    ensures |prior| > |data| ==> WriteAt(Some(prior), data, false) != data
  {
  }

  /** The record `dumpConfig` fills: the options' architecture and sorted header URLs. */
  function Prepared(opts: Options, dy: DriverkitYaml): (r: DriverkitYaml)
    ensures r.architecture == opts.architecture
    ensures Sorted(r.kernelUrls) && multiset(r.kernelUrls) == multiset(dy.kernelUrls)
    ensures r == dy.(architecture := r.architecture, kernelUrls := r.kernelUrls)
  {
    dy.(architecture := opts.architecture, kernelUrls := Sort(dy.kernelUrls))
  }

  /**
   * The per-version loop of `dumpConfig`: the record is filled in place, so each
   * version starts from the previous version's outputs.
   */
  function VersionsDump(opts: Options, caps: KernelCaps, io: Io, dy: DriverkitYaml,
                        versions: seq<String>, files: map<String, String>): Outcome
    decreases |versions|
  {
    if versions == [] then Outcome(files, None)
    else
      var dv := versions[0];
      var filled := FillOutputs(dy, dv, opts, caps);
      match io.marshal(filled)
      case Failure(e) => Outcome(files, Some(e))
      case Success(data) =>
        var path := BuildConfigPath(opts, dv, filled.ToConfigName());
        if io.mkdirAll(ConfigDir(opts, dv)).Some? then Outcome(files, io.mkdirAll(ConfigDir(opts, dv)))
        else if io.openFile(path).Some? then Outcome(files, io.openFile(path))
        else
          var prior := if path in files then Some(files[path]) else None;
          VersionsDump(opts, caps, io, filled, versions[1..],
                       files[path := WriteAt(prior, data, io.writeFails(path))])
  }

  /** `dumpConfig`: nothing in dry-run, otherwise one file per driver version. */
  function Dump(opts: Options, caps: KernelCaps, io: Io, dy: DriverkitYaml, files: map<String, String>)
    : Outcome
  {
    if opts.dryRun then Outcome(files, None)
    else VersionsDump(opts, caps, io, Prepared(opts, dy), opts.driverVersions, files)
  }

  method DumpConfig(opts: Options, caps: KernelCaps, io: Io, dy0: DriverkitYaml, files0: map<String, String>)
    returns (files: map<String, String>, err: Option<Error>)
    ensures Outcome(files, err) == Dump(opts, caps, io, dy0, files0)
  {
    files, err := files0, None;
    if opts.dryRun {
      return;
    }
    var dy := dy0.(architecture := opts.architecture);
    dy := dy.(kernelUrls := Sort(dy.kernelUrls));
    var versions := opts.driverVersions;
    var i := 0;
    while i < |versions|
      invariant 0 <= i <= |versions|
      invariant err.None?
      invariant Dump(opts, caps, io, dy0, files0) == VersionsDump(opts, caps, io, dy, versions[i..], files)
    {
      var dv := versions[i];
      assert versions[i..][0] == dv && versions[i..][1..] == versions[i + 1..];
      dy := FillOutputs(dy, dv, opts, caps);
      var yamlData := io.marshal(dy);
      if yamlData.Failure? {
        err := Some(yamlData.error);
        return;
      }
      var configPath := BuildConfigPath(opts, dv, dy.ToConfigName());
      err := io.mkdirAll(ConfigDir(opts, dv));
      if err.Some? {
        return;
      }
      err := io.openFile(configPath);
      if err.Some? {
        return;
      }
      var prior := if configPath in files then Some(files[configPath]) else None;
      files := files[configPath := WriteAt(prior, yamlData.value, io.writeFails(configPath))];
      i := i + 1;
    }
  }

  /** In dry-run `dumpConfig` writes nothing and returns nil. */
  lemma DumpDryRun(opts: Options, caps: KernelCaps, io: Io, dy: DriverkitYaml, files: map<String, String>)
    requires opts.dryRun
    ensures Dump(opts, caps, io, dy, files) == Outcome(files, None)
  {
  }

  /** The config paths of one record, one per driver version. */
  function DumpPaths(opts: Options, dy: DriverkitYaml, versions: seq<String>): set<String> {
    set dv | dv in versions :: BuildConfigPath(opts, dv, dy.ToConfigName())
  }

  /** The data `dumpConfig` writes for one driver version. */
  function VersionData(opts: Options, caps: KernelCaps, io: Io, dy: DriverkitYaml, dv: String): String
    requires Reliable(io)
  {
    io.marshal(FillOutputs(dy, dv, opts, caps)).value
  }

  /** Two driver versions share a config path only if they are the same version. */
  lemma ConfigPathInjective(opts: Options, dv1: String, dv2: String, name: String)
    requires BuildConfigPath(opts, dv1, name) == BuildConfigPath(opts, dv2, name)
    ensures dv1 == dv2
  {
    var p := opts.repoRoot + "/driverkit/config/";
    var t := "/" + opts.nonDebArchitecture + "/" + name;
    assert BuildConfigPath(opts, dv1, name) == p + dv1 + t;
    assert BuildConfigPath(opts, dv2, name) == p + dv2 + t;
    CancelAround(p, dv1, dv2, t);
  }

  /** A common prefix and suffix cancel. */
  lemma CancelAround(p: String, x: String, y: String, t: String)
    requires p + x + t == p + y + t
    ensures x == y
  {
    assert |x| == |y|;
    assert (p + x + t)[|p|..|p| + |x|] == x;
    assert (p + y + t)[|p|..|p| + |y|] == y;
  }

  /** Filling an already filled record gives what filling `b` gives, for every version. */
  lemma FillAgain(opts: Options, caps: KernelCaps, b: DriverkitYaml, dy: DriverkitYaml, dv: String)
    requires forall v :: FillOutputs(dy, v, opts, caps) == FillOutputs(b, v, opts, caps)
    ensures forall v :: FillOutputs(FillOutputs(dy, dv, opts, caps), v, opts, caps) == FillOutputs(b, v, opts, caps)
  {
    forall v ensures FillOutputs(FillOutputs(dy, dv, opts, caps), v, opts, caps) == FillOutputs(b, v, opts, caps) {
      assert FillOutputs(FillOutputs(dy, dv, opts, caps), v, opts, caps) == FillOutputs(dy, v, opts, caps);
    }
  }

  /** `DumpPaths` of a non-empty version list: the first version's path and the rest's. */
  lemma DumpPathsCons(opts: Options, b: DriverkitYaml, versions: seq<String>)
    requires versions != []
    ensures DumpPaths(opts, b, versions) ==
      {BuildConfigPath(opts, versions[0], b.ToConfigName())} + DumpPaths(opts, b, versions[1..])
  {
    assert versions == [versions[0]] + versions[1..];
  }

  /**
   * With reliable file operations the version loop returns nil, adds exactly the config
   * path of every version (a failed write still leaves the created file) and leaves
   * every other file as it was.
   */
  lemma {:induction false} VersionsDumpKeys(opts: Options, caps: KernelCaps, io: Io, b: DriverkitYaml,
      dy: DriverkitYaml, versions: seq<String>, files: map<String, String>)
    requires Reliable(io)
    requires forall dv :: FillOutputs(dy, dv, opts, caps) == FillOutputs(b, dv, opts, caps)
    ensures var r := VersionsDump(opts, caps, io, dy, versions, files);
      r.err.None? && r.files.Keys == files.Keys + DumpPaths(opts, b, versions) &&
      (forall p :: p in files && p !in DumpPaths(opts, b, versions) ==> r.files[p] == files[p])
    decreases |versions|
  {
    if versions != [] {
      var dv := versions[0];
      var filled := FillOutputs(dy, dv, opts, caps);
      assert filled == FillOutputs(b, dv, opts, caps);
      assert filled.ToConfigName() == b.ToConfigName();
      var data := io.marshal(filled).value;
      var path := BuildConfigPath(opts, dv, filled.ToConfigName());
      assert io.mkdirAll(ConfigDir(opts, dv)).None? && io.openFile(path).None?;
      var prior := if path in files then Some(files[path]) else None;
      var files1 := files[path := WriteAt(prior, data, io.writeFails(path))];
      FillAgain(opts, caps, b, dy, dv);
      VersionsDumpKeys(opts, caps, io, b, filled, versions[1..], files1);
      DumpPathsCons(opts, b, versions);
      assert VersionsDump(opts, caps, io, dy, versions, files) ==
             VersionsDump(opts, caps, io, filled, versions[1..], files1);
    }
  }

  /**
   * With reliable file operations and no failed write, every version's config path
   * ends up holding that version's data, provided each such path that already existed
   * held exactly that data.
   */
  lemma {:induction false} VersionsDumpContents(opts: Options, caps: KernelCaps, io: Io, b: DriverkitYaml,
      dy: DriverkitYaml, versions: seq<String>, files: map<String, String>)
    requires Reliable(io) && forall p :: !io.writeFails(p)
    requires forall dv :: FillOutputs(dy, dv, opts, caps) == FillOutputs(b, dv, opts, caps)
    requires forall dv :: dv in versions && BuildConfigPath(opts, dv, b.ToConfigName()) in files ==>
      files[BuildConfigPath(opts, dv, b.ToConfigName())] == VersionData(opts, caps, io, b, dv)
    ensures var r := VersionsDump(opts, caps, io, dy, versions, files);
      forall dv :: dv in versions ==>
        BuildConfigPath(opts, dv, b.ToConfigName()) in r.files &&
        r.files[BuildConfigPath(opts, dv, b.ToConfigName())] == VersionData(opts, caps, io, b, dv)
    decreases |versions|
  {
    if versions != [] {
      var name := b.ToConfigName();
      var dv := versions[0];
      var rest := versions[1..];
      var filled := FillOutputs(dy, dv, opts, caps);
      var path := BuildConfigPath(opts, dv, name);
      var data := VersionData(opts, caps, io, b, dv);
      var files1 := files[path := data];
      DumpFirst(opts, caps, io, b, dy, versions, files);
      ContentsKeptForRest(opts, caps, io, b, versions, files);
      FillAgain(opts, caps, b, dy, dv);
      VersionsDumpContents(opts, caps, io, b, filled, rest, files1);
      VersionsDumpKeys(opts, caps, io, b, filled, rest, files1);
      ContentsOfFirst(opts, caps, io, b, versions, files1, VersionsDump(opts, caps, io, filled, rest, files1));
    }
  }

  /** Writing the first version's data keeps the contents premise for the other versions. */
  lemma ContentsKeptForRest(opts: Options, caps: KernelCaps, io: Io, b: DriverkitYaml,
      versions: seq<String>, files: map<String, String>)
    requires Reliable(io) && versions != []
    requires forall dv :: dv in versions && BuildConfigPath(opts, dv, b.ToConfigName()) in files ==>
      files[BuildConfigPath(opts, dv, b.ToConfigName())] == VersionData(opts, caps, io, b, dv)
    ensures var files1 := files[BuildConfigPath(opts, versions[0], b.ToConfigName()) :=
                                VersionData(opts, caps, io, b, versions[0])];
      forall dv :: dv in versions[1..] && BuildConfigPath(opts, dv, b.ToConfigName()) in files1 ==>
        files1[BuildConfigPath(opts, dv, b.ToConfigName())] == VersionData(opts, caps, io, b, dv)
  {
    var name := b.ToConfigName();
    var path := BuildConfigPath(opts, versions[0], name);
    var files1 := files[path := VersionData(opts, caps, io, b, versions[0])];
    forall dv | dv in versions[1..] && BuildConfigPath(opts, dv, name) in files1
      ensures files1[BuildConfigPath(opts, dv, name)] == VersionData(opts, caps, io, b, dv)
    {
      if BuildConfigPath(opts, dv, name) == path {
        ConfigPathInjective(opts, versions[0], dv, name);
      } else {
        assert dv in versions;
      }
    }
  }

  /**
   * The first version's data survives the rest of the loop, which only touches the
   * other versions' paths; the other versions' paths hold their own data.
   */
  lemma ContentsOfFirst(opts: Options, caps: KernelCaps, io: Io, b: DriverkitYaml,
      versions: seq<String>, files1: map<String, String>, r: Outcome)
    requires Reliable(io) && versions != []
    requires BuildConfigPath(opts, versions[0], b.ToConfigName()) in files1 &&
      files1[BuildConfigPath(opts, versions[0], b.ToConfigName())] == VersionData(opts, caps, io, b, versions[0])
    requires r.files.Keys == files1.Keys + DumpPaths(opts, b, versions[1..])
    requires forall p :: p in files1 && p !in DumpPaths(opts, b, versions[1..]) ==> r.files[p] == files1[p]
    requires forall dv :: dv in versions[1..] ==>
      BuildConfigPath(opts, dv, b.ToConfigName()) in r.files &&
      r.files[BuildConfigPath(opts, dv, b.ToConfigName())] == VersionData(opts, caps, io, b, dv)
    ensures forall dv :: dv in versions ==>
      BuildConfigPath(opts, dv, b.ToConfigName()) in r.files &&
      r.files[BuildConfigPath(opts, dv, b.ToConfigName())] == VersionData(opts, caps, io, b, dv)
  {
    var name := b.ToConfigName();
    var dv := versions[0];
    var rest := versions[1..];
    var path := BuildConfigPath(opts, dv, name);
    assert versions == [dv] + rest;
    if dv !in rest {
      assert path !in DumpPaths(opts, b, rest) by {
        if path in DumpPaths(opts, b, rest) {
          var w :| w in rest && BuildConfigPath(opts, w, name) == path;
          ConfigPathInjective(opts, w, dv, name);
        }
      }
    }
  }

  /**
   * One step of the version loop when nothing fails and the first version's config path
   * is new or already holds that version's data: the path then holds exactly that data.
   */
  lemma DumpFirst(opts: Options, caps: KernelCaps, io: Io, b: DriverkitYaml,
      dy: DriverkitYaml, versions: seq<String>, files: map<String, String>)
    requires Reliable(io) && forall p :: !io.writeFails(p)
    requires forall dv :: FillOutputs(dy, dv, opts, caps) == FillOutputs(b, dv, opts, caps)
    requires versions != []
    requires BuildConfigPath(opts, versions[0], b.ToConfigName()) in files ==>
      files[BuildConfigPath(opts, versions[0], b.ToConfigName())] == VersionData(opts, caps, io, b, versions[0])
    ensures VersionsDump(opts, caps, io, dy, versions, files) ==
      VersionsDump(opts, caps, io, FillOutputs(dy, versions[0], opts, caps), versions[1..],
                   files[BuildConfigPath(opts, versions[0], b.ToConfigName()) := VersionData(opts, caps, io, b, versions[0])])
  {
    var dv := versions[0];
    var filled := FillOutputs(dy, dv, opts, caps);
    assert filled == FillOutputs(b, dv, opts, caps);
    assert filled.ToConfigName() == b.ToConfigName();
    var data := io.marshal(filled).value;
    var path := BuildConfigPath(opts, dv, filled.ToConfigName());
    assert io.mkdirAll(ConfigDir(opts, dv)).None? && io.openFile(path).None?;
    var prior := if path in files then Some(files[path]) else None;
    WriteAtProperties("", data);
    assert WriteAt(prior, data, io.writeFails(path)) == data;
  }


  /**
   * `dumpConfig` with reliable file operations returns nil, creates exactly the config
   * path of each driver version and touches no other file.
   */
  lemma DumpKeys(opts: Options, caps: KernelCaps, io: Io, dy: DriverkitYaml, files: map<String, String>)
    requires !opts.dryRun && Reliable(io)
    ensures var r := Dump(opts, caps, io, dy, files);
      r.err.None? && r.files.Keys == files.Keys + DumpPaths(opts, dy, opts.driverVersions) &&
      (forall p :: p in files && p !in DumpPaths(opts, dy, opts.driverVersions) ==> r.files[p] == files[p])
  {
    var b := Prepared(opts, dy);
    assert b.ToConfigName() == dy.ToConfigName();
    assert DumpPaths(opts, b, opts.driverVersions) == DumpPaths(opts, dy, opts.driverVersions);
    VersionsDumpKeys(opts, caps, io, b, b, opts.driverVersions, files);
  }

  /**
   * When none of the config paths existed and no write fails, each holds the marshalled
   * record filled for its version.
   */
  lemma DumpContents(opts: Options, caps: KernelCaps, io: Io, dy: DriverkitYaml, files: map<String, String>)
    requires !opts.dryRun && Reliable(io) && forall p :: !io.writeFails(p)
    requires forall dv :: dv in opts.driverVersions ==> BuildConfigPath(opts, dv, dy.ToConfigName()) !in files
    ensures var r := Dump(opts, caps, io, dy, files);
      forall dv :: dv in opts.driverVersions ==>
        BuildConfigPath(opts, dv, dy.ToConfigName()) in r.files &&
        r.files[BuildConfigPath(opts, dv, dy.ToConfigName())] == VersionData(opts, caps, io, Prepared(opts, dy), dv)
  {
    var b := Prepared(opts, dy);
    assert b.ToConfigName() == dy.ToConfigName();
    VersionsDumpContents(opts, caps, io, b, b, opts.driverVersions, files);
  }

  /**
   * Each record `dumpConfig` writes for a feed entry with no outputs validates at the
   * path it is written to, when the path components hold no '/' and the config data is
   * empty or base64.
   */
  lemma DumpedRecordValid(opts: Options, caps: KernelCaps, dy: DriverkitYaml, dv: String)
    requires dv != "" && NoSlash(dv) && opts.nonDebArchitecture != "" && NoSlash(opts.nonDebArchitecture)
    requires NoSlash(opts.driverName) && NoSlash(dy.ToName())
    requires dy.output == Outputs("", "") && ConfigDataOk(dy)
    ensures var filled := FillOutputs(Prepared(opts, dy), dv, opts, caps);
      Valid(opts, dv, BuildConfigPath(opts, dv, filled.ToConfigName()), filled)
  {
    var b := Prepared(opts, dy);
    assert b.ToName() == dy.ToName();
    FilledRecordValid(opts, caps, dv, b);
  }

  // ---------------------------------------------------------------------------
  // generateSingleConfig and loadKernelHeadersFromDk

  /** A driverkit builder: its minimum URL count, if it declares one, and its URL lookup. */
  datatype Builder = Builder(minimumURLs: Option<int>,
                             urls: (String, String) -> Result<seq<String>, Error>)

  /** Driverkit: the builder factory by target type, and the URL reachability check. */
  datatype Driverkit = Driverkit(factory: String -> Option<Builder>,
                                 resolving: seq<String> -> Result<seq<String>, Error>)

  function MinimumURLs(b: Builder): int {
    b.minimumURLs.GetOr(1)
  }

  /**
   * `loadKernelHeadersFromDk`: an unknown target type is `UnsupportedTargetErr`; the
   * builder's URLs for (release, architecture) are checked for reachability and there
   * must be at least the builder's minimum, 1 by default.
   */
  function LoadKernelHeaders(opts: Options, dk: Driverkit): (r: Result<seq<String>, Error>)
    ensures dk.factory(opts.target.distro).None? ==> r == Failure(UnsupportedTarget(opts.target.distro))
    ensures r.Success? ==>
      var b := dk.factory(opts.target.distro).value;
      b.urls(opts.target.kernelRelease, opts.architecture).Success? &&
      dk.resolving(b.urls(opts.target.kernelRelease, opts.architecture).value) == Success(r.value) &&
      |r.value| >= MinimumURLs(b)
    ensures dk.factory(opts.target.distro).Some? ==>
      var b := dk.factory(opts.target.distro).value;
      var urls := b.urls(opts.target.kernelRelease, opts.architecture);
      (urls.Failure? ==> r == Failure(urls.error)) &&
      (urls.Success? && dk.resolving(urls.value).Failure? ==> r == Failure(dk.resolving(urls.value).error)) &&
      (urls.Success? && dk.resolving(urls.value).Success? && |dk.resolving(urls.value).value| < MinimumURLs(b) ==>
        r == Failure(NotEnoughHeaders(MinimumURLs(b), |dk.resolving(urls.value).value|)))
  {
    match dk.factory(opts.target.distro)
    case None => Failure(UnsupportedTarget(opts.target.distro))
    case Some(b) =>
      match b.urls(opts.target.kernelRelease, opts.architecture)
      case Failure(e) => Failure(e)
      case Success(headers) =>
        match dk.resolving(headers)
        case Failure(e) => Failure(e)
        case Success(resolved) =>
          if |resolved| < MinimumURLs(b) then Failure(NotEnoughHeaders(MinimumURLs(b), |resolved|))
          else Success(resolved)
  }

  /** The record of single mode: the target's fields and the headers found, if any. */
  function SingleRecord(opts: Options, headers: seq<String>): DriverkitYaml {
    DriverkitYaml(opts.target.kernelVersion, opts.target.kernelRelease, opts.target.distro, "",
                  Outputs("", ""), headers, "")
  }

  /**
   * `generateSingleConfig`: an unsupported target is returned; any other header error
   * is only a warning and the config is written without headers.
   */
  function Single(opts: Options, dk: Driverkit, caps: KernelCaps, io: Io, files: map<String, String>)
    : Outcome
  {
    match LoadKernelHeaders(opts, dk)
    case Failure(e) =>
      if e.UnsupportedTarget? then Outcome(files, Some(e))
      else Dump(opts, caps, io, SingleRecord(opts, []), files)
    case Success(headers) => Dump(opts, caps, io, SingleRecord(opts, headers), files)
  }

  method GenerateSingleConfig(opts: Options, dk: Driverkit, caps: KernelCaps, io: Io,
                              files0: map<String, String>)
    returns (files: map<String, String>, err: Option<Error>)
    ensures Outcome(files, err) == Single(opts, dk, caps, io, files0)
  {
    var headers := LoadKernelHeaders(opts, dk);
    var kernelUrls: seq<String> := [];
    if headers.Failure? {
      if headers.error.UnsupportedTarget? {
        return files0, Some(headers.error);
      }
    } else {
      kernelUrls := headers.value;
    }
    files, err := DumpConfig(opts, caps, io, SingleRecord(opts, kernelUrls), files0);
  }

  /**
   * Single mode fails without writing exactly when driverkit has no builder for the
   * target (or the lookup itself reports one); any other header problem still writes.
   */
  lemma SingleErrorPolicy(opts: Options, dk: Driverkit, caps: KernelCaps, io: Io, files: map<String, String>)
    ensures dk.factory(opts.target.distro).None? ==>
      Single(opts, dk, caps, io, files) == Outcome(files, Some(UnsupportedTarget(opts.target.distro)))
    ensures LoadKernelHeaders(opts, dk).Failure? && !LoadKernelHeaders(opts, dk).error.UnsupportedTarget? ==>
      Single(opts, dk, caps, io, files) == Dump(opts, caps, io, SingleRecord(opts, []), files)
    ensures dk.factory(opts.target.distro).Some? ==>
      var b := dk.factory(opts.target.distro).value;
      var urls := b.urls(opts.target.kernelRelease, opts.architecture);
      urls.Success? && dk.resolving(urls.value).Success? &&
      |dk.resolving(urls.value).value| < MinimumURLs(b) ==>
      Single(opts, dk, caps, io, files) == Dump(opts, caps, io, SingleRecord(opts, []), files)
  {
  }

  // ---------------------------------------------------------------------------
  // autogenerateConfigs

  /** One key of the feed: a kernel-crawler distro name and its kernels, in feed order. */
  datatype FeedDistro = FeedDistro(name: String, entries: seq<DriverkitYaml>)

  predicate EntryAccepted(opts: Options, re: RegexEngine, e: DriverkitYaml) {
    opts.KernelReleaseFilter(re, e.kernelRelease) && opts.KernelVersionFilter(re, e.kernelVersion)
  }

  predicate DistroSelected(opts: Options, re: RegexEngine, d: FeedDistro) {
    opts.DistroFilter(re, ToDriverkitDistro(d.name))
  }

  /** One distro's goroutine: dump each accepted entry in order, stopping at the first error. */
  function EntriesRun(opts: Options, re: RegexEngine, caps: KernelCaps, io: Io, entries: seq<DriverkitYaml>,
                      files: map<String, String>): Outcome
    decreases |entries|
  {
    if entries == [] then Outcome(files, None)
    else if !EntryAccepted(opts, re, entries[0]) then EntriesRun(opts, re, caps, io, entries[1..], files)
    else
      var r := Dump(opts, caps, io, entries[0], files);
      if r.err.Some? then r else EntriesRun(opts, re, caps, io, entries[1..], r.files)
  }

  /**
   * The distro goroutines, run one after another: each selected distro runs to its own
   * first error, and the error returned is the first one in this order.
   */
  function DistrosRun(opts: Options, re: RegexEngine, caps: KernelCaps, io: Io, feed: seq<FeedDistro>,
                      files: map<String, String>): Outcome
    decreases |feed|
  {
    if feed == [] then Outcome(files, None)
    else
      var r := if DistroSelected(opts, re, feed[0]) then EntriesRun(opts, re, caps, io, feed[0].entries, files)
               else Outcome(files, None);
      var rest := DistrosRun(opts, re, caps, io, feed[1..], r.files);
      Outcome(rest.files, if r.err.Some? then r.err else rest.err)
  }

  /** `autogenerateConfigs`: fetch and parse the feed of the architecture, then run the distros. */
  function Auto(opts: Options, re: RegexEngine, caps: KernelCaps, io: Io,
                feedOf: String -> Result<seq<FeedDistro>, Error>, files: map<String, String>): Outcome
  {
    match feedOf(FeedUrl(opts.nonDebArchitecture))
    case Failure(e) => Outcome(files, Some(e))
    case Success(feed) => DistrosRun(opts, re, caps, io, feed, files)
  }

  method GenerateDistro(opts: Options, re: RegexEngine, caps: KernelCaps, io: Io,
                        entries: seq<DriverkitYaml>, files0: map<String, String>)
    returns (files: map<String, String>, err: Option<Error>)
    ensures Outcome(files, err) == EntriesRun(opts, re, caps, io, entries, files0)
  {
    files, err := files0, None;
    var j := 0;
    while j < |entries|
      invariant 0 <= j <= |entries|
      invariant EntriesRun(opts, re, caps, io, entries, files0) == EntriesRun(opts, re, caps, io, entries[j..], files)
    {
      assert entries[j..][0] == entries[j] && entries[j..][1..] == entries[j + 1..];
      var entry := entries[j];
      j := j + 1;
      if !opts.KernelReleaseFilter(re, entry.kernelRelease) {
        continue;
      }
      if !opts.KernelVersionFilter(re, entry.kernelVersion) {
        continue;
      }
      var e;
      files, e := DumpConfig(opts, caps, io, entry, files);
      if e.Some? {
        return files, e;
      }
    }
  }

  method AutogenerateConfigs(opts: Options, re: RegexEngine, caps: KernelCaps, io: Io,
                             feedOf: String -> Result<seq<FeedDistro>, Error>, files0: map<String, String>)
    returns (files: map<String, String>, err: Option<Error>)
    ensures Outcome(files, err) == Auto(opts, re, caps, io, feedOf, files0)
  {
    var fetched := feedOf(FeedUrl(opts.nonDebArchitecture));
    if fetched.Failure? {
      return files0, Some(fetched.error);
    }
    var feed := fetched.value;
    files, err := files0, None;
    var i := 0;
    while i < |feed|
      invariant 0 <= i <= |feed|
      invariant var rest := DistrosRun(opts, re, caps, io, feed[i..], files);
        Auto(opts, re, caps, io, feedOf, files0) == Outcome(rest.files, if err.Some? then err else rest.err)
    {
      assert feed[i..][0] == feed[i] && feed[i..][1..] == feed[i + 1..];
      var distro := feed[i];
      i := i + 1;
      var dkDistro := ToDriverkitDistro(distro.name);
      if !opts.DistroFilter(re, dkDistro) {
        continue;
      }
      var e;
      files, e := GenerateDistro(opts, re, caps, io, distro.entries, files);
      if err.None? {
        err := e;
      }
    }
  }

  /** The entries auto mode dumps, in processing order. */
  function Selected(opts: Options, re: RegexEngine, feed: seq<FeedDistro>): seq<DriverkitYaml>
    decreases |feed|
  {
    if feed == [] then []
    else (if DistroSelected(opts, re, feed[0]) then AcceptedEntries(opts, re, feed[0].entries) else [])
         + Selected(opts, re, feed[1..])
  }

  function AcceptedEntries(opts: Options, re: RegexEngine, entries: seq<DriverkitYaml>): seq<DriverkitYaml>
    decreases |entries|
  {
    if entries == [] then []
    else (if EntryAccepted(opts, re, entries[0]) then [entries[0]] else [])
         + AcceptedEntries(opts, re, entries[1..])
  }

  lemma {:induction false} AcceptedEntriesMembers(opts: Options, re: RegexEngine, entries: seq<DriverkitYaml>)
    ensures forall e :: e in AcceptedEntries(opts, re, entries) <==> e in entries && EntryAccepted(opts, re, e)
    decreases |entries|
  {
    if entries != [] {
      AcceptedEntriesMembers(opts, re, entries[1..]);
      assert entries == [entries[0]] + entries[1..];
    }
  }

  /** Some distro of the feed is selected, holds `e`, and both kernel filters accept `e`. */
  predicate InSelectedDistro(opts: Options, re: RegexEngine, feed: seq<FeedDistro>, e: DriverkitYaml) {
    exists i :: 0 <= i < |feed| && DistroSelected(opts, re, feed[i]) && e in feed[i].entries &&
      EntryAccepted(opts, re, e)
  }

  lemma InSelectedDistroCons(opts: Options, re: RegexEngine, feed: seq<FeedDistro>, e: DriverkitYaml)
    requires feed != []
    ensures InSelectedDistro(opts, re, feed, e) <==>
      (DistroSelected(opts, re, feed[0]) && e in feed[0].entries && EntryAccepted(opts, re, e)) ||
      InSelectedDistro(opts, re, feed[1..], e)
  {
    if InSelectedDistro(opts, re, feed[1..], e) {
      var i :| 0 <= i < |feed[1..]| && DistroSelected(opts, re, feed[1..][i]) && e in feed[1..][i].entries &&
        EntryAccepted(opts, re, e);
      assert feed[1..][i] == feed[i + 1];
    }
    if InSelectedDistro(opts, re, feed, e) {
      var i :| 0 <= i < |feed| && DistroSelected(opts, re, feed[i]) && e in feed[i].entries &&
        EntryAccepted(opts, re, e);
      if i > 0 {
        assert feed[1..][i - 1] == feed[i];
      }
    }
  }

  /**
   * An entry is dumped iff it belongs to a feed distro whose driverkit name passes the
   * distro filter and both kernel filters accept it.
   */
  lemma {:induction false} SelectedMembers(opts: Options, re: RegexEngine, feed: seq<FeedDistro>)
    ensures forall e :: e in Selected(opts, re, feed) <==> InSelectedDistro(opts, re, feed, e)
    decreases |feed|
  {
    if feed != [] {
      SelectedMembers(opts, re, feed[1..]);
      AcceptedEntriesMembers(opts, re, feed[0].entries);
      forall e ensures e in Selected(opts, re, feed) <==> InSelectedDistro(opts, re, feed, e) {
        InSelectedDistroCons(opts, re, feed, e);
      }
    }
  }

  /** A feed key with no driverkit name maps to "", which is not supported: it is skipped. */
  lemma UnknownFeedKeySkipped(opts: Options, re: RegexEngine, d: FeedDistro)
    requires ToDriverkitDistro(d.name) == ""
    ensures !DistroSelected(opts, re, d)
  {
    DistroFilterNeedsSupport(opts, re, "");
    assert "" !in SupportedDistros;
  }

  /** The config paths of a sequence of dumped records. */
  function PathsOf(opts: Options, entries: seq<DriverkitYaml>): set<String>
    decreases |entries|
  {
    if entries == [] then {}
    else DumpPaths(opts, entries[0], opts.driverVersions) + PathsOf(opts, entries[1..])
  }

  lemma PathsOfAppend(opts: Options, a: seq<DriverkitYaml>, b: seq<DriverkitYaml>)
    ensures PathsOf(opts, a + b) == PathsOf(opts, a) + PathsOf(opts, b)
    decreases |a|
  {
    if a == [] {
      assert a + b == b;
    } else {
      assert (a + b)[0] == a[0] && (a + b)[1..] == a[1..] + b;
      PathsOfAppend(opts, a[1..], b);
    }
  }

  lemma {:induction false} EntriesRunWrites(opts: Options, re: RegexEngine, caps: KernelCaps, io: Io,
      entries: seq<DriverkitYaml>, files: map<String, String>)
    requires !opts.dryRun && Reliable(io)
    ensures var r := EntriesRun(opts, re, caps, io, entries, files);
      r.err.None? && r.files.Keys == files.Keys + PathsOf(opts, AcceptedEntries(opts, re, entries))
    decreases |entries|
  {
    if entries != [] {
      var rest := AcceptedEntries(opts, re, entries[1..]);
      if EntryAccepted(opts, re, entries[0]) {
        DumpKeys(opts, caps, io, entries[0], files);
        var r := Dump(opts, caps, io, entries[0], files);
        EntriesRunWrites(opts, re, caps, io, entries[1..], r.files);
        assert AcceptedEntries(opts, re, entries) == [entries[0]] + rest;
        assert ([entries[0]] + rest)[1..] == rest;
      } else {
        EntriesRunWrites(opts, re, caps, io, entries[1..], files);
        assert AcceptedEntries(opts, re, entries) == [] + rest;
        assert [] + rest == rest;
      }
    }
  }

  /**
   * With reliable file operations, the distro loop returns nil and the files created
   * are exactly the config paths of the selected entries, one per driver version.
   */
  lemma {:induction false} DistrosRunWrites(opts: Options, re: RegexEngine, caps: KernelCaps, io: Io,
      feed: seq<FeedDistro>, files: map<String, String>)
    requires !opts.dryRun && Reliable(io)
    ensures var r := DistrosRun(opts, re, caps, io, feed, files);
      r.err.None? && r.files.Keys == files.Keys + PathsOf(opts, Selected(opts, re, feed))
    decreases |feed|
  {
    if feed != [] {
      var first := if DistroSelected(opts, re, feed[0]) then AcceptedEntries(opts, re, feed[0].entries) else [];
      var r := if DistroSelected(opts, re, feed[0]) then EntriesRun(opts, re, caps, io, feed[0].entries, files)
               else Outcome(files, None);
      if DistroSelected(opts, re, feed[0]) {
        EntriesRunWrites(opts, re, caps, io, feed[0].entries, files);
      }
      DistrosRunWrites(opts, re, caps, io, feed[1..], r.files);
      PathsOfAppend(opts, first, Selected(opts, re, feed[1..]));
    }
  }

  /** In dry-run auto mode writes nothing; only a feed error is returned. */
  lemma {:induction false} DistrosDryRun(opts: Options, re: RegexEngine, caps: KernelCaps, io: Io,
      feed: seq<FeedDistro>, files: map<String, String>)
    requires opts.dryRun
    ensures DistrosRun(opts, re, caps, io, feed, files) == Outcome(files, None)
    decreases |feed|
  {
    if feed != [] {
      if DistroSelected(opts, re, feed[0]) {
        EntriesDryRun(opts, re, caps, io, feed[0].entries, files);
      }
      DistrosDryRun(opts, re, caps, io, feed[1..], files);
    }
  }

  lemma {:induction false} EntriesDryRun(opts: Options, re: RegexEngine, caps: KernelCaps, io: Io,
      entries: seq<DriverkitYaml>, files: map<String, String>)
    requires opts.dryRun
    ensures EntriesRun(opts, re, caps, io, entries, files) == Outcome(files, None)
    decreases |entries|
  {
    if entries != [] {
      EntriesDryRun(opts, re, caps, io, entries[1..], files);
    }
  }

  /**
   * A distro goroutine stops at its first error but the others still run: a failing
   * distro early in the feed does not stop a later one from writing.
   */
  lemma ErrorDoesNotStopOtherDistros(opts: Options, re: RegexEngine, caps: KernelCaps, io: Io,
      d: FeedDistro, feed: seq<FeedDistro>, files: map<String, String>)
    requires DistroSelected(opts, re, d)
    requires EntriesRun(opts, re, caps, io, d.entries, files).err.Some?
    ensures var r1 := EntriesRun(opts, re, caps, io, d.entries, files);
      DistrosRun(opts, re, caps, io, [d] + feed, files) ==
        Outcome(DistrosRun(opts, re, caps, io, feed, r1.files).files, r1.err)
  {
    assert ([d] + feed)[0] == d && ([d] + feed)[1..] == feed;
  }

  // ---------------------------------------------------------------------------
  // Run

  datatype Mode = AutoMode | SingleMode | NoMode

  /** `Run`'s dispatch: auto wins, then a fully set target, otherwise an error. */
  function ModeOf(g: GenOptions): (m: Mode)
    ensures m == AutoMode <==> g.auto
    ensures m == SingleMode <==> !g.auto && g.opts.target.IsSet()
    ensures m == NoMode <==> !g.auto && !g.opts.target.IsSet()
  {
    if g.auto then AutoMode else if g.opts.target.IsSet() then SingleMode else NoMode
  }

  function RunSpec(g: GenOptions, re: RegexEngine, dk: Driverkit, caps: KernelCaps, io: Io,
                   feedOf: String -> Result<seq<FeedDistro>, Error>, files: map<String, String>): Outcome
  {
    match ModeOf(g)
    case AutoMode => Auto(g.opts, re, caps, io, feedOf, files)
    case SingleMode => Single(g.opts, dk, caps, io, files)
    case NoMode => Outcome(files, Some(MissingGenerateMode))
  }

  method Run(g: GenOptions, re: RegexEngine, dk: Driverkit, caps: KernelCaps, io: Io,
             feedOf: String -> Result<seq<FeedDistro>, Error>, files0: map<String, String>)
    returns (files: map<String, String>, err: Option<Error>)
    ensures Outcome(files, err) == RunSpec(g, re, dk, caps, io, feedOf, files0)
  {
    if g.auto {
      files, err := AutogenerateConfigs(g.opts, re, caps, io, feedOf, files0);
    } else if g.opts.target.IsSet() {
      files, err := GenerateSingleConfig(g.opts, dk, caps, io, files0);
    } else {
      files, err := files0, Some(MissingGenerateMode);
    }
  }

  /**
   * Neither auto nor a full target: the "either auto or target" error and no file
   * written. A partially set target is not enough for single mode.
   */
  lemma RunNeedsMode(g: GenOptions, re: RegexEngine, dk: Driverkit, caps: KernelCaps, io: Io,
                     feedOf: String -> Result<seq<FeedDistro>, Error>, files: map<String, String>)
    requires !g.auto && (g.opts.target.distro == "" || g.opts.target.kernelRelease == "" ||
                         g.opts.target.kernelVersion == "")
    ensures RunSpec(g, re, dk, caps, io, feedOf, files) == Outcome(files, Some(MissingGenerateMode))
  {
  }

  /**
   * Auto mode with a fetched feed and reliable file operations returns nil, and the files
   * it creates are exactly the config paths of the selected entries.
   */
  lemma AutoWrites(g: GenOptions, re: RegexEngine, dk: Driverkit, caps: KernelCaps, io: Io,
                   feedOf: String -> Result<seq<FeedDistro>, Error>, files: map<String, String>)
    requires g.auto && !g.opts.dryRun && Reliable(io) && feedOf(FeedUrl(g.opts.nonDebArchitecture)).Success?
    ensures var r := RunSpec(g, re, dk, caps, io, feedOf, files);
      var feed := feedOf(FeedUrl(g.opts.nonDebArchitecture)).value;
      r.err.None? && r.files.Keys == files.Keys + PathsOf(g.opts, Selected(g.opts, re, feed))
  {
    DistrosRunWrites(g.opts, re, caps, io, feedOf(FeedUrl(g.opts.nonDebArchitecture)).value, files);
  }
}
