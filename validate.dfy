/**
 * Driverkit config records and the validator. A config lives at
 * `{root}/driverkit/config/{dv}/{nonDebArch}/{target}_{kernelrelease}_{kernelversion}.yaml`
 * and names its outputs `output/{dv}/{nonDebArch}/{driver}_{name}.{ko|o}`, relative to
 * the `driverkit` folder. The validator checks, in a fixed order, that a config agrees
 * with its own path and with the options, and returns the first disagreement.
 */
module Validate {
  import opened Wrappers
  import opened Strings
  import opened Errors
  import opened Matching
  import opened Root
  import NameCodec
  import Base64

  datatype Outputs = Outputs(kernelModule: String, probe: String)

  /** The driverkit config schema. */
  datatype DriverkitYaml = DriverkitYaml(
    kernelVersion: String,
    kernelRelease: String,
    target: String,
    architecture: String,
    output: Outputs,
    kernelUrls: seq<String>,
    kernelConfigData: String)
  {
    /** `{target}_{kernelrelease}_{kernelversion}`: the name codec's encoding. */
    function ToName(): (name: String)
      ensures name == NameCodec.Encode(NameCodec.Identity(target, kernelRelease, kernelVersion))
    {
      target + "_" + kernelRelease + "_" + kernelVersion
    }

    function ToConfigName(): (name: String)
      ensures HasSuffix(name, ".yaml") && name[..|name| - 5] == ToName()
    {
      ToName() + ".yaml"
    }
  }

  /**
   * Driverkit's kernel-release capabilities, for a release string and an architecture
   * (deb naming): whether a kernel module and an eBPF probe can be built.
   */
  datatype KernelCaps = KernelCaps(supportsModule: (String, String) -> bool,
                                   supportsProbe: (String, String) -> bool)

  // ---------------------------------------------------------------------------
  // FillOutputs (pkg/validate/types.go)

  /** The last four '/'-parts of the output path, joined again: `output/{dv}/{arch}/{file}`. */
  function ConfigOutputPath(opts: Options, driverVersion: String, name: String): String {
    var parts := Split(BuildOutputPath(opts, driverVersion, name));
    OutputPathParts(opts, driverVersion, name);
    JoinPath(parts[|parts| - 4..])
  }

  /** With clean components the relative output path is `output/{dv}/{arch}/{driver}_{name}`. */
  lemma ConfigOutputPathShape(opts: Options, dv: String, name: String)
    requires dv != "" && NoSlash(dv) && opts.nonDebArchitecture != "" && NoSlash(opts.nonDebArchitecture)
    requires name != "" && NoSlash(opts.driverName + "_" + name)
    ensures ConfigOutputPath(opts, dv, name) ==
      "output/" + dv + "/" + opts.nonDebArchitecture + "/" + opts.driverName + "_" + name
  {
    var full := opts.driverName + "_" + name;
    OutputPathLastFour(opts, dv, name);
    JoinPathOfFour("output", dv, opts.nonDebArchitecture, full);
  }

  /**
   * `FillOutputs`: the module and probe paths for a release that supports them; a field
   * whose output is not supported keeps its value, and nothing else changes.
   */
  function FillOutputs(dy: DriverkitYaml, driverVersion: String, opts: Options, caps: KernelCaps)
    : (r: DriverkitYaml)
    ensures r.kernelVersion == dy.kernelVersion && r.kernelRelease == dy.kernelRelease
    ensures r.target == dy.target && r.architecture == dy.architecture
    ensures r.kernelUrls == dy.kernelUrls && r.kernelConfigData == dy.kernelConfigData
    ensures r.output.kernelModule ==
      if caps.supportsModule(dy.kernelRelease, opts.architecture)
      then ConfigOutputPath(opts, driverVersion, dy.ToName()) + ".ko" else dy.output.kernelModule
    ensures r.output.probe ==
      if caps.supportsProbe(dy.kernelRelease, opts.architecture)
      then ConfigOutputPath(opts, driverVersion, dy.ToName()) + ".o" else dy.output.probe
  {
    var path := ConfigOutputPath(opts, driverVersion, dy.ToName());
    var m := if caps.supportsModule(dy.kernelRelease, opts.architecture) then path + ".ko"
             else dy.output.kernelModule;
    var p := if caps.supportsProbe(dy.kernelRelease, opts.architecture) then path + ".o"
             else dy.output.probe;
    dy.(output := Outputs(m, p))
  }

  /** Filling twice is filling once: the result depends only on the fields kept. */
  lemma FillOutputsIdempotent(dy: DriverkitYaml, dv: String, opts: Options, caps: KernelCaps)
    ensures FillOutputs(FillOutputs(dy, dv, opts, caps), dv, opts, caps) == FillOutputs(dy, dv, opts, caps)
  {
  }

  // ---------------------------------------------------------------------------
  // ConfGlobFromDistro (pkg/validate/utils.go)

  /**
   * The distro part of the config glob. The older revision this function belongs to
   * keyed its table by kernel-crawler name, so a crawler name is translated to its
   * driverkit type, which is the current table read backwards; any other name is
   * lowercased.
   */
  function GlobDistro(distro: String): (d: String)
    ensures distro == "" ==> d == "*"
    ensures distro != "" ==> forall k :: k in SupportedDistros && SupportedDistros[k] == distro ==> d == k
    ensures distro != "" && (forall k :: k in SupportedDistros ==> SupportedDistros[k] != distro) ==>
              d == ToLower(distro)
  {
    if distro == "" then "*"
    else
      var dk := ToDriverkitDistro(distro);
      if dk != "" then
        DistroNamesDistinct();
        dk
      else ToLower(distro)
  }

  /** `ConfGlobFromDistro`: `{d}_{kr}_{kv}.yaml` with "*" for empty fields. */
  function ConfGlobFromDistro(t: Target): (glob: String)
    ensures glob == NameCodec.Encode(NameCodec.Identity(GlobDistro(t.distro),
      Wildcard(t.kernelRelease), Wildcard(t.kernelVersion))) + ".yaml"
  {
    GlobDistro(t.distro) + "_" + Wildcard(t.kernelRelease) + "_" + Wildcard(t.kernelVersion) + ".yaml"
  }

  /**
   * A kernel-crawler distro name globs the config files of its driverkit type: the
   * glob is the filesystem looper's `toGlob` for that type with `.yaml` for `.*`.
   */
  lemma ConfGlobOfCrawlerName(t: Target, k: String)
    requires k in SupportedDistros && t.distro == SupportedDistros[k]
    ensures ConfGlobFromDistro(t) ==
      NameCodec.Encode(NameCodec.Identity(k, Wildcard(t.kernelRelease), Wildcard(t.kernelVersion))) + ".yaml"
    ensures var g := Target(k, t.kernelRelease, t.kernelVersion).ToGlob();
      ConfGlobFromDistro(t) == g[..|g| - 2] + ".yaml"
  {
    assert SupportedDistros[k] != "";
    assert GlobDistro(t.distro) == k;
    var g := Target(k, t.kernelRelease, t.kernelVersion).ToGlob();
    var body := k + "_" + Wildcard(t.kernelRelease) + "_" + Wildcard(t.kernelVersion);
    assert g == body + ".*";
    assert g[..|g| - 2] == body;
  }

  /** Any other distro is lowercased: "Cent*" gives "cent*". */
  lemma ConfGlobLowercases(t: Target)
    requires t.distro == "Cent*"
    ensures GlobDistro(t.distro) == "cent*"
  {
    assert forall k :: k in SupportedDistros ==> SupportedDistros[k] != t.distro;
    assert ToLower("Cent*") == [LowerChar('C')] + ToLower("ent*");
  }

  lemma ConfGlobOfEmptyTarget()
    ensures ConfGlobFromDistro(Target("", "", "")) == "*_*_*.yaml"
  {
  }

  // ---------------------------------------------------------------------------
  // validateConfig (pkg/validate/validate.go)

  /** The base name every output of a config must carry: `{driver}_{ToName()}`. */
  function OutputBase(opts: Options, driverVersion: String, dy: DriverkitYaml): String {
    Base(BuildOutputPath(opts, driverVersion, dy.ToName()))
  }

  predicate NameOk(configPath: String, dy: DriverkitYaml) {
    Base(configPath) == dy.ToConfigName()
  }

  predicate ArchOk(opts: Options, dy: DriverkitYaml) {
    dy.architecture == opts.architecture
  }

  predicate OutputNameOk(opts: Options, dv: String, dy: DriverkitYaml, path: String, ext: String) {
    path == "" || Base(path) == OutputBase(opts, dv, dy) + ext
  }

  predicate OutputArchOk(opts: Options, path: String) {
    path == "" || Contains(path, opts.nonDebArchitecture)
  }

  predicate ConfigDataOk(dy: DriverkitYaml) {
    |dy.kernelConfigData| == 0 || Base64.IsBase64(dy.kernelConfigData)
  }

  /** Every check that comes before the config data passes. */
  predicate RecordOk(opts: Options, dv: String, configPath: String, dy: DriverkitYaml) {
    NameOk(configPath, dy) && ArchOk(opts, dy) &&
    OutputNameOk(opts, dv, dy, dy.output.probe, ".o") && OutputArchOk(opts, dy.output.probe) &&
    OutputNameOk(opts, dv, dy, dy.output.kernelModule, ".ko") && OutputArchOk(opts, dy.output.kernelModule)
  }

  /** Every check passes. */
  predicate Valid(opts: Options, dv: String, configPath: String, dy: DriverkitYaml) {
    RecordOk(opts, dv, configPath, dy) && ConfigDataOk(dy)
  }

  /** A log line the validator emits without failing. */
  datatype Warning = ProbeOnUnsupportedRelease(kernelRelease: String)
                   | ModuleOnUnsupportedRelease(kernelRelease: String)

  /** The first failed check, if any, and the warnings logged on the way. */
  datatype Verdict = Verdict(err: Option<ValidationError>, warnings: seq<Warning>)

  /**
   * The checks of `validateConfig` on a parsed record, in order: config name, config
   * architecture, probe name, probe architecture, module name, module architecture,
   * base64 config data. An output on a release that does not support it is a warning.
   */
  function CheckRecord(opts: Options, caps: KernelCaps, dv: String, configPath: String, dy: DriverkitYaml)
    : (v: Verdict)
    ensures v.err.None? <==> Valid(opts, dv, configPath, dy)
  {
    var probe, kmod := dy.output.probe, dy.output.kernelModule;
    if !NameOk(configPath, dy) then
      Verdict(Some(WrongConfigName(Base(configPath), dy.ToConfigName())), [])
    else if !ArchOk(opts, dy) then
      Verdict(Some(WrongArchInConfig(configPath, dy.architecture)), [])
    else if !OutputNameOk(opts, dv, dy, probe, ".o") then
      Verdict(Some(WrongOutputProbeName(Base(probe), OutputBase(opts, dv, dy))), [])
    else if !OutputArchOk(opts, probe) then
      Verdict(Some(WrongOutputProbeArch(probe, opts.nonDebArchitecture)), [])
    else
      var pw := if probe != "" && !caps.supportsProbe(dy.kernelRelease, opts.architecture)
                then [ProbeOnUnsupportedRelease(dy.kernelRelease)] else [];
      if !OutputNameOk(opts, dv, dy, kmod, ".ko") then
        Verdict(Some(WrongOutputModuleName(Base(kmod), OutputBase(opts, dv, dy))), pw)
      else if !OutputArchOk(opts, kmod) then
        Verdict(Some(WrongOutputModuleArch(kmod, opts.nonDebArchitecture)), pw)
      else
        var mw := if kmod != "" && !caps.supportsModule(dy.kernelRelease, opts.architecture)
                  then [ModuleOnUnsupportedRelease(dy.kernelRelease)] else [];
        if !ConfigDataOk(dy) then
          Verdict(Some(KernelConfigDataNotBase64), pw + mw)
        else Verdict(None, pw + mw)
  }

  /** Each error is returned exactly when its check fails and every earlier check passes. */
  lemma CheckRecordFirstError(opts: Options, caps: KernelCaps, dv: String, configPath: String, dy: DriverkitYaml)
    ensures var v := CheckRecord(opts, caps, dv, configPath, dy);
      var probe, kmod, outBase := dy.output.probe, dy.output.kernelModule, OutputBase(opts, dv, dy);
      var probeOk := OutputNameOk(opts, dv, dy, probe, ".o") && OutputArchOk(opts, probe);
      (v.err == Some(WrongConfigName(Base(configPath), dy.ToConfigName())) <==> !NameOk(configPath, dy)) &&
      (v.err == Some(WrongArchInConfig(configPath, dy.architecture)) <==>
        NameOk(configPath, dy) && !ArchOk(opts, dy)) &&
      (v.err == Some(WrongOutputProbeName(Base(probe), outBase)) <==>
        NameOk(configPath, dy) && ArchOk(opts, dy) && !OutputNameOk(opts, dv, dy, probe, ".o")) &&
      (v.err == Some(WrongOutputProbeArch(probe, opts.nonDebArchitecture)) <==>
        NameOk(configPath, dy) && ArchOk(opts, dy) && OutputNameOk(opts, dv, dy, probe, ".o") &&
        !OutputArchOk(opts, probe)) &&
      (v.err == Some(WrongOutputModuleName(Base(kmod), outBase)) <==>
        NameOk(configPath, dy) && ArchOk(opts, dy) && probeOk && !OutputNameOk(opts, dv, dy, kmod, ".ko")) &&
      (v.err == Some(WrongOutputModuleArch(kmod, opts.nonDebArchitecture)) <==>
        NameOk(configPath, dy) && ArchOk(opts, dy) && probeOk && OutputNameOk(opts, dv, dy, kmod, ".ko") &&
        !OutputArchOk(opts, kmod)) &&
      (v.err == Some(KernelConfigDataNotBase64) <==> RecordOk(opts, dv, configPath, dy) && !ConfigDataOk(dy))
  {
  }

  /** Each warning is logged exactly when its output is set, passes its checks and is unsupported. */
  lemma CheckRecordWarnings(opts: Options, caps: KernelCaps, dv: String, configPath: String, dy: DriverkitYaml)
    ensures var v := CheckRecord(opts, caps, dv, configPath, dy);
      var probe, kmod := dy.output.probe, dy.output.kernelModule;
      var probeOk := OutputNameOk(opts, dv, dy, probe, ".o") && OutputArchOk(opts, probe);
      (ProbeOnUnsupportedRelease(dy.kernelRelease) in v.warnings <==>
        NameOk(configPath, dy) && ArchOk(opts, dy) && probe != "" && probeOk &&
        !caps.supportsProbe(dy.kernelRelease, opts.architecture)) &&
      (ModuleOnUnsupportedRelease(dy.kernelRelease) in v.warnings <==>
        NameOk(configPath, dy) && ArchOk(opts, dy) && probeOk && kmod != "" &&
        OutputNameOk(opts, dv, dy, kmod, ".ko") && OutputArchOk(opts, kmod) &&
        !caps.supportsModule(dy.kernelRelease, opts.architecture))
  {
  }

  /** What reading and parsing a config file gives. */
  datatype Load = Unreadable(e: Error) | Unparsable(e: Error) | Parsed(dy: DriverkitYaml)

  /**
   * `validateConfig`: a read error is returned as is, a parse error with the config
   * path as context, and a parsed record is checked.
   */
  function ValidateConfig(opts: Options, caps: KernelCaps, dv: String, configPath: String, load: Load)
    : (err: Option<Error>)
    ensures load.Unreadable? ==> err == Some(load.e)
    ensures load.Unparsable? ==> err == Some(WithMessage("config: " + configPath, load.e))
    ensures load.Parsed? ==> (err.None? <==> Valid(opts, dv, configPath, load.dy))
    ensures load.Parsed? && err.Some? ==>
              err.value.Validation? && Some(err.value.v) == CheckRecord(opts, caps, dv, configPath, load.dy).err
  {
    match load
    case Unreadable(e) => Some(e)
    case Unparsable(e) => Some(WithMessage("config: " + configPath, e))
    case Parsed(dy) =>
      match CheckRecord(opts, caps, dv, configPath, dy).err
      case None => None
      case Some(v) => Some(Validation(v))
  }

  /** Warnings never turn into errors: the capabilities do not change the outcome. */
  lemma CapsOnlyWarn(opts: Options, caps1: KernelCaps, caps2: KernelCaps, dv: String, configPath: String,
                     load: Load)
    ensures ValidateConfig(opts, caps1, dv, configPath, load) == ValidateConfig(opts, caps2, dv, configPath, load)
  {
    if load.Parsed? {
      var v1 := CheckRecord(opts, caps1, dv, configPath, load.dy);
      var v2 := CheckRecord(opts, caps2, dv, configPath, load.dy);
      assert v1.err.None? <==> v2.err.None?;
      if v1.err.Some? {
        assert v1.err == v2.err by {
          var dy := load.dy;
          if !NameOk(configPath, dy) {
          } else if !ArchOk(opts, dy) {
          } else if !OutputNameOk(opts, dv, dy, dy.output.probe, ".o") {
          } else if !OutputArchOk(opts, dy.output.probe) {
          } else if !OutputNameOk(opts, dv, dy, dy.output.kernelModule, ".ko") {
          } else if !OutputArchOk(opts, dy.output.kernelModule) {
          }
        }
      }
    }
  }

  /** Empty config data is accepted; any base64 encoder output is accepted too. */
  lemma ConfigDataAccepted(dy: DriverkitYaml, data: seq<Base64.byte>)
    ensures dy.kernelConfigData == "" ==> ConfigDataOk(dy)
    ensures dy.kernelConfigData == Base64.Encode(data) ==> ConfigDataOk(dy)
  {
    Base64.EncodeIsBase64(data);
  }

  /** The base and the relative output path of a record whose name components hold no '/'. */
  lemma FilledPaths(opts: Options, dv: String, dy: DriverkitYaml)
    requires dv != "" && NoSlash(dv) && opts.nonDebArchitecture != "" && NoSlash(opts.nonDebArchitecture)
    requires NoSlash(opts.driverName) && NoSlash(dy.ToName())
    ensures var full := opts.driverName + "_" + dy.ToName();
      NoSlash(full + ".ko") && NoSlash(full + ".o") && OutputBase(opts, dv, dy) == full &&
      ConfigOutputPath(opts, dv, dy.ToName()) ==
        "output/" + dv + "/" + opts.nonDebArchitecture + "/" + full
  {
    var name := dy.ToName();
    var full := opts.driverName + "_" + name;
    NoSlashAppend(opts.driverName, "_");
    NoSlashAppend(opts.driverName + "_", name);
    NoSlashAppend(full, ".ko");
    NoSlashAppend(full, ".o");
    assert name != "" by { assert |name| >= 2; }
    OutputPathShape(opts, dv, name, "");
    assert BuildOutputPath(opts, dv, name) + "" == BuildOutputPath(opts, dv, name);
    assert full + "" == full;
    ConfigOutputPathShape(opts, dv, name);
  }

  /**
   * A record filled by `FillOutputs`, written at the config path of its own name with
   * the options' architecture, passes every check: the generator's configs validate.
   */
  lemma FilledRecordValid(opts: Options, caps: KernelCaps, dv: String, dy: DriverkitYaml)
    requires dv != "" && NoSlash(dv) && opts.nonDebArchitecture != "" && NoSlash(opts.nonDebArchitecture)
    requires NoSlash(opts.driverName) && NoSlash(dy.ToName())
    requires dy.architecture == opts.architecture && dy.output == Outputs("", "")
    requires ConfigDataOk(dy)
    ensures var filled := FillOutputs(dy, dv, opts, caps);
      Valid(opts, dv, BuildConfigPath(opts, dv, filled.ToConfigName()), filled)
  {
    var filled := FillOutputs(dy, dv, opts, caps);
    assert filled.ToName() == dy.ToName();
    NoSlashAppend(dy.ToName(), ".yaml");
    ConfigPathShape(opts, dv, filled.ToConfigName());
    FilledPaths(opts, dv, dy);
    FilledPaths(opts, dv, filled);
    var full := opts.driverName + "_" + dy.ToName();
    var dir := "output/" + dv + "/" + opts.nonDebArchitecture;
    OutputChecks(opts, dv, filled, dir, full, ".ko");
    OutputChecks(opts, dv, filled, dir, full, ".o");
  }

  lemma OutputChecks(opts: Options, dv: String, dy: DriverkitYaml, dir: String, full: String, ext: String)
    requires dir == "output/" + dv + "/" + opts.nonDebArchitecture
    requires NoSlash(full + ext) && full != "" && OutputBase(opts, dv, dy) == full
    ensures OutputNameOk(opts, dv, dy, dir + "/" + full + ext, ext)
    ensures OutputArchOk(opts, dir + "/" + full + ext)
  {
    assert dir + "/" + full + ext == dir + "/" + (full + ext);
    BaseOfChild(dir, full + ext);
    assert dir + "/" + full + ext == ("output/" + dv + "/") + opts.nonDebArchitecture + ("/" + full + ext);
    ContainsOfAppend("output/" + dv + "/", opts.nonDebArchitecture, "/" + full + ext);
  }

  // ---------------------------------------------------------------------------
  // Run

  /** The looper's worker: validate the visited config, never changing the state. */
  function Validator(opts: Options, caps: KernelCaps, loads: String -> Load): ((), String, String) -> Step<()> {
    (s: (), dv: String, path: String) => Step(s, ValidateConfig(opts, caps, dv, path, loads(path)))
  }

  /**
   * `Run`: the filesystem looper over the config paths, validating every visited file.
   * `listing` is the filesystem's paths and `loads` what reading each of them gives.
   */
  method Run(opts: Options, g: GlobEngine, caps: KernelCaps, listing: seq<String>, loads: String -> Load)
    returns (err: Option<Error>)
    ensures err == ErrorOf(VersionsRun(opts, g, BuildConfigPath, (s: ()) => listing,
                                       Validator(opts, caps, loads), opts.driverVersions, ()).flow)
  {
    var s;
    s, err := LoopFiltered(opts, g, BuildConfigPath, (s: ()) => listing, Validator(opts, caps, loads), ());
  }

  /**
   * Outside dry-run and with good patterns, `Run` returns nil iff every config the
   * target selects validates; otherwise it returns the error of the first that fails.
   */
  lemma RunVerdict(opts: Options, g: GlobEngine, caps: KernelCaps, listing: seq<String>, loads: String -> Load)
    requires !opts.dryRun && GlobsWellFormed(opts, g, BuildConfigPath, opts.driverVersions)
    ensures var r := VersionsRun(opts, g, BuildConfigPath, (s: ()) => listing,
                                 Validator(opts, caps, loads), opts.driverVersions, ());
      var all := Candidates(opts, g, BuildConfigPath, listing, opts.driverVersions);
      (r.flow.Next? <==>
        forall i :: 0 <= i < |all| ==>
          ValidateConfig(opts, caps, all[i].driverVersion, all[i].path, loads(all[i].path)).None?) &&
      (r.flow.Fail? ==>
        exists k :: 0 <= k < |all| &&
          ValidateConfig(opts, caps, all[k].driverVersion, all[k].path, loads(all[k].path)) == Some(r.flow.e) &&
          forall i :: 0 <= i < k ==>
            ValidateConfig(opts, caps, all[i].driverVersion, all[i].path, loads(all[i].path)).None?)
  {
    var w := Validator(opts, caps, loads);
    StatelessLoop(opts, g, BuildConfigPath, (s: ()) => listing, w, opts.driverVersions, (), listing);
  }
}
