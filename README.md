# dbg-go core, modelled in Dafny

dbg-go maintains the Falco driver build grid. It keeps driverkit config files under
`{repo-root}/driverkit/config/{driverVersion}/{arch}/`, and driver objects in an object
store under `driver/{driverVersion}/{arch}/`. Its verbs are generate, autogenerate,
validate, stats, cleanup and build. All of them sit on one target filtering and naming
engine:

- the distro and architecture translation tables;
- the `{target}_{kernelrelease}_{kernelversion}` name codec;
- the config, output and object-key path builders;
- the target filters;
- two loopers, one over the local filesystem and one over the object store.

This project models that engine and the verb logic on top of it. It proves what the code
promises, mainly:

- round trips of the tables and of the name codec;
- the shape of every path;
- which candidates a looper hands its worker, in what order, and how dry-run and errors
  stop it;
- the validator's ordered checks, with both directions of every error condition;
- what each verb writes, counts or removes.

Modules (one `.dfy` file each):

| module | models |
|---|---|
| `Wrappers`, `Strings`, `Errors` | option/result types; the string and path helpers (`filepath.Base`, `filepath.Join`, sorting, decimal formatting); the error kinds and their messages |
| `Matching` | the regex and glob engines as oracles |
| `NameCodec` | encoding of names and decoding of object-key basenames by segment position |
| `Base64` | standard padded base64 (RFC 4648, section 4) as `isBase64` accepts it |
| `Root` | `pkg/root`: the distro table, `Target`, the filters, the path builders and `FsLooper.LoopFiltered` |
| `Utils` | `pkg/utils/arch.go` and `SliceDifference` |
| `S3Utils`, `S3Legacy` | the object-store looper of `pkg/utils/s3`, and the older `LoopBucketFiltered` of `pkg/utils/s3.go` |
| `Validate` | the driverkit record, `FillOutputs`, `ConfGlobFromDistro`, `validateConfig` and `Run` |
| `Generate`, `Autogenerate` | feed and single-target generation, `dumpConfig`, and the older autogenerate command |
| `Stats`, `Cleanup`, `Build` | the statters and the stats table; the older cleanup and the file cleaner; `buildConfig`, `publishLoop` and `Run` |

Where a collaborator is outside the core, it is a parameter:

- the regex engine and the glob engine;
- driverkit's `SupportsModule`/`SupportsProbe`, its builder factory and URL resolution,
  and the docker build;
- file reads and parses, removals, and `MkdirAll`/`OpenFile`/write failures;
- the feed download, the object-store pages, head answers and upload failures.

Each looper is written as a method over a worker that transforms a state (the map,
the file set or the queue that the Go closure mutates). A recursive function specifies
each loop, and lemmas are proved about that function.

The snapshot mixes two revisions. Each file is modelled as written:

- The older files (`pkg/cleanup/cleanup.go`, `pkg/autogenerate/autogenerate.go`,
  `pkg/utils/s3.go`) format config paths with the architecture as given. `Root.LegacyConfigPath`
  models this.
- The older `ConfGlobFromDistro` looks a kernel-crawler name up in a table keyed by
  crawler name. `Validate.GlobDistro` does this lookup by reading the current table backwards.
- Where a symbol is missing from the snapshot, it gets an abstract signature:
  - `validate.OutputPathFmt` becomes the `Autogenerate.OutputPathFmt` parameter;
  - `KernelEntry.ToConfigName` becomes the entry's `configName` field.

## Model

| member | source | states |
|---|---|---|
| Root.DistroTableSize | pkg/root/distro.go:25-47 | the driverkit-to-kernel-crawler table has exactly 13 entries |
| Root.DistroNamesDistinct | pkg/root/distro.go:25-47 | no two driverkit names share a kernel-crawler name, so the reverse lookup is a function |
| Root.InitSupportedDistroSlice | pkg/root/distro.go:50-56 | the slice built by `init` is sorted, holds every table key exactly once and nothing else, and has length 13 |
| Root.FindDistroKey | pkg/root/distro.go:58-65 | the search returns a key mapped to the crawler name, or "" exactly when no key maps to it |
| Root.ToDriverkitDistro | pkg/root/distro.go:58-65 | a non-empty result is a table key whose value is the given name; "" iff no key has that value |
| Root.ToDriverkitDistroRoundTrip | pkg/root/distro.go:25-65 | `ToDriverkitDistro(SupportedDistros[k]) == k` for every key k |
| Root.ToDriverkitDistroCaseSensitive | pkg/root/distro.go:58-65 | the lookup is case-sensitive: "centos" gives "" |
| Root.ToDriverkitDistroUnknown | pkg/root/distro.go:58-65 | an unknown name such as "WRONG_DISTRO" gives "" |
| Utils.IsArchSupported | pkg/utils/arch.go:3-13 | true exactly for "x86_64" and "aarch64" |
| Utils.ToDebArch | pkg/utils/arch.go:15-17 | x86_64→amd64, aarch64→arm64, "" for anything else |
| Utils.FromDebArch | pkg/utils/arch.go:19-26 | amd64→x86_64, arm64→aarch64, "" for anything else |
| Utils.ArchRoundTrip | pkg/utils/arch.go:3-26 | `FromDebArch(ToDebArch(a)) == a` for every supported a |
| Utils.DebArchRoundTrip | pkg/utils/arch.go:3-26 | `ToDebArch(FromDebArch(d)) == d` for amd64 and arm64 |
| Utils.UnsupportedArchIsEmpty | pkg/utils/arch.go:15-17 | an unsupported architecture maps to "" and back to "" |
| Utils.SupportedArchList | pkg/utils/arch.go:28-36 | the list has length 2 and is a permutation of the supported architectures |
| Utils.KeysSlice | pkg/utils/arch.go:29-35 | the slice has one slot per key and, after the index loop, holds every key exactly once and nothing else |
| Utils.SliceDifference | pkg/utils/test.go:63-76 | the loop returns the elements of a that are not in b, in order |
| Utils.DifferenceCounts | pkg/utils/test.go:63-76 | each element keeps its multiplicity in a when not in b, and drops to zero when in b |
| Utils.DifferenceMembers | pkg/utils/test.go:63-76 | x is in the result iff x is in a and not in b |
| Utils.DifferenceAppend | pkg/utils/test.go:70-74 | the difference distributes over concatenation of a, so a's order is kept |
| Utils.DifferenceOnlyMembersOfB | pkg/utils/test.go:64-69 | only the set of b matters, not its duplicates or order |
| Utils.DifferenceEdges | pkg/utils/test.go:64-76 | an empty a gives empty, and an empty b gives a |
| Root.Target.ToGlob | pkg/root/types.go:52-64 | the glob is `{d}_{kr}_{kv}.*`, with each empty field replaced by "*" |
| Root.ToGlobOfSetTarget | pkg/root/types.go:52-64 | a fully set target is copied verbatim into the glob |
| Root.ToGlobOfEmptyTarget | pkg/root/types.go:52-64 | the empty target gives `*_*_*.*` |
| Root.DistroFilterNeedsSupport | pkg/root/types.go:66-74 | the distro filter accepts only supported distros, and with an empty pattern it accepts exactly those |
| Root.ReleaseVersionFiltersUnanchored | pkg/root/types.go:76-84 | empty patterns accept everything, and a literal pattern accepts any string containing it |
| Root.LiteralReleaseExample | pkg/root/types.go:76-79 | the release pattern "1" accepts "13" |
| Matching.EmptyPatternMatchesAll | pkg/root/types.go:76-84 | the empty regex pattern accepts every string |
| Matching.LiteralIsUnanchored | pkg/root/types.go:76-84 | a metacharacter-free pattern is found anywhere inside a string |
| Matching.BrokenPatternMatchesNothing | pkg/root/types.go:67-84 | a pattern that does not compile rejects everything, because the error is discarded |
| Matching.Glob | pkg/root/utils.go:26-29 | a malformed pattern is `ErrBadPattern`; otherwise the result is exactly the listed paths that match |
| Root.LegacyConfigPath | pkg/cleanup/cleanup.go:29-33 | the older config path is the current builder with the architecture in place of its non-Debian name |
| Root.ConfigPathShape | pkg/root/utils.go:46-52 | a config path is the version's config folder plus the name, and its base name is the name |
| Root.OutputFolderPath | pkg/root/utils.go:54-67 | with an empty name the output path is the folder, ending in "/", with no driver prefix |
| Root.OutputPathShape | pkg/root/utils.go:54-67 | a named output, with its extension, is the output folder followed by `{driver}_{name}{ext}`, and that is its base name |
| Root.OutputPathLastFour | pkg/root/utils.go:54-67 | the last four '/'-components of an output path are `output`, the version, the architecture and the file name |
| Root.ConfigFoldersDisjoint | pkg/root/utils.go:46-52 | no config path of one driver version lies in another version's folder |
| Root.LoopFiltered | pkg/root/utils.go:22-44 | the nested loop returns the state and error of `VersionsRun`: versions in order, glob matches in order, dry-run returns nil at the first match, and the first error aborts |
| Root.LoopFiles | pkg/root/utils.go:30-41 | the file loop of one version returns the state and flow of `FilesRun`: files in order, dry-run stops at the first file, the first worker error aborts |
| Root.DryRunCallsNothing | pkg/root/utils.go:33-36 | in dry-run the worker is never called and the state is untouched; the run stops, returning nil, exactly when some file matches |
| Root.LoopTrace | pkg/root/utils.go:22-44 | outside dry-run, the worker calls are a prefix of the candidates; replaying them gives the final state and error; nil means every candidate was visited; a failure is the last call's error |
| Root.RunReplays | pkg/root/utils.go:22-44 | with a filesystem that changes during the run, replaying the calls still gives the final state; a worker error is the returned error, and any other failure is a bad pattern |
| Root.StatelessLoop | pkg/root/utils.go:22-44 | a checking worker returns nil iff every candidate passes, and otherwise the error of the first failing candidate |
| NameCodec.DecodeEncode | pkg/utils/s3/s3utils.go:35 | for a driver name without regex metacharacters, decoding `{driver}_{encoded}.o/.ko` gives back the identity when the distro is a distro name, the kernel version has no '_', and neither release nor version has a newline |
| NameCodec.DecodeCaptures | pkg/utils/s3/s3utils.go:35 | the captures of a decoded key: the distro is a run of letters, digits, '-' and '.', the kernel version has no '_', and neither release nor version has a newline |
| NameCodec.DecodeShape | pkg/utils/s3/s3utils.go:35 | a decoded key starts with the driver prefix and the re-encoded identity, which is followed by `.o` or `.ko` |
| NameCodec.RestShape | pkg/utils/s3/s3utils.go:35 | after the `{driver}_` prefix, the match starts with the re-encoded identity followed by an extension, and its captures have the shape of `DecodeCaptures` |
| NameCodec.LineShape | pkg/utils/s3/s3utils.go:35 | the release and version split off the first line of the text after the distro's '_' hold no newline, the version holds no '_', and they sit before an extension |
| NameCodec.DecodeRestEncode | pkg/utils/s3/s3utils.go:35 | the match after the `{driver}_` prefix recovers an encoded identity under the conditions of `DecodeEncode` |
| NameCodec.EncodeNotInjective | pkg/validate/types.go:46-48 | two identities can encode to the same name; decoding, being greedy, picks the later '_' split |
| NameCodec.UnderscoreMoves | pkg/validate/types.go:46-48 | a '_' at the end of the kernel release and one at the start of the kernel version give the same name |
| NameCodec.BottlerocketKey | pkg/utils/s3/s3utils.go:35 | a Bottlerocket key whose release contains '_' decodes with that '_' kept inside the release |
| S3Utils.ObjectKeyShape | pkg/utils/s3/s3utils.go:105-107 | head and put address `driver/{dv}/{nonDebArch}/{key}` |
| S3Utils.LoopFiltered | pkg/utils/s3/s3utils.go:38-103 | the loop over versions, pages and keys returns the state and error of `BucketRun` |
| S3Utils.LoopPages | pkg/utils/s3/s3utils.go:55-100 | the page loop of one version: skips nil and malformed keys, filters, stops in dry-run, aborts on a page or worker error |
| S3Utils.LoopKeys | pkg/utils/s3/s3utils.go:61-99 | the key loop of one page returns the state and flow of `KeysRun`: nil and malformed keys and filtered-out keys are skipped, dry-run stops at the first kept key, a worker error aborts |
| S3Utils.AcceptedPathsAreAccepted | pkg/utils/s3/s3utils.go:62-95 | each path handed to the worker is `prefix/basename` of a non-nil key whose captures pass all three filters |
| S3Utils.EncodedKeyAccepted | pkg/utils/s3/s3utils.go:66-89 | a well-formed key (driver name without regex metacharacters, newline-free release and version) decodes to its identity, and is accepted iff the filters accept that identity |
| S3Utils.PageErrorAborts | pkg/utils/s3/s3utils.go:57-60 | a page-fetch error after good pages is returned, and no later key is visited |
| S3Utils.BucketDryRun | pkg/utils/s3/s3utils.go:91-94 | in dry-run the worker is never called, and the run stops exactly when some key passes the filters |
| S3Utils.BucketTrace | pkg/utils/s3/s3utils.go:38-103 | outside dry-run, the calls are a prefix of the accepted keys in order; replay gives the result; nil means all were visited |
| S3Utils.HeadDriver | pkg/utils/s3/s3utils.go:105-113 | true iff the head request for the object key finds an object; errors count as absent |
| S3Utils.PutObject | pkg/utils/s3/s3utils.go:125-137 | a successful put stores the body under the object key and leaves other keys alone |
| S3Utils.PutThenHead | pkg/utils/s3/s3utils.go:105-137 | after a put, a head answered from the bucket finds the driver |
| S3Legacy.LegacyOptions | pkg/utils/s3.go:40-49 | the distro is rewritten to driverkit naming, the driver prefix is hard-coded to `falco`, and dry-run is off |
| S3Legacy.LegacyPrefixShape | pkg/utils/s3.go:49 | the listing prefix is `driver/{dv}/{arch}`, with the architecture used verbatim |
| S3Legacy.LoopBucketFiltered | pkg/utils/s3.go:40-102 | one version's page loop with the rewritten options; the processor gets the path only |
| S3Legacy.LegacyDistroPattern | pkg/utils/s3.go:45-47 | a crawler name selects its driverkit distro; an unknown one becomes "", the empty pattern |
| S3Legacy.LegacyNeverHalts | pkg/utils/s3.go:40-102 | there is no dry-run stop in the older loop |
| S3Legacy.LegacyTrace | pkg/utils/s3.go:40-102 | with fetchable pages, the processor calls are a prefix of the accepted keys, and replay gives the result |
| Base64.EncodeIsBase64 | pkg/validate/validate.go:37-40 | every standard padded encoding is accepted |
| Base64.NewlinesIgnored | pkg/validate/validate.go:37-40 | CR and LF anywhere do not change acceptance, as in the Go decoder |
| Base64.QuantaLength | pkg/validate/validate.go:37-40 | a string made of whole 4-character quanta, as the decoder demands once newlines are dropped, has a length that is a multiple of 4 |
| Base64.PaddingOnlyAtEnd | pkg/validate/validate.go:37-40 | in such a string, '=' occurs only in the last two positions |
| Errors.ModuleNameMessageSaysDotO | pkg/validate/errors.go:42-62 | both the probe and the module name errors append ".o" to the expected name |
| Errors.WithMessageKeepsCause | pkg/validate/validate.go:49-51 | a wrapped error's message starts with the context and ends with the cause |
| Validate.DriverkitYaml.ToName | pkg/validate/types.go:46-48 | the name is `{target}_{kernelrelease}_{kernelversion}` |
| Validate.DriverkitYaml.ToConfigName | pkg/validate/types.go:50-52 | the config name is `ToName()` followed by ".yaml" |
| Validate.ConfigOutputPathShape | pkg/validate/types.go:55-60 | the path written into a config is `output/{dv}/{nonDebArch}/{driver}_{name}` |
| Validate.FillOutputs | pkg/validate/types.go:54-70 | module ← path+".ko" iff modules are supported, probe ← path+".o" iff probes are supported; otherwise unchanged; no other field changes |
| Validate.FillOutputsIdempotent | pkg/validate/types.go:54-70 | filling twice is filling once |
| Validate.GlobDistro | pkg/validate/utils.go:11-22 | empty gives "*"; a kernel-crawler name gives the driverkit type it belongs to; anything else has its ASCII letters lowercased |
| Validate.ConfGlobFromDistro | pkg/validate/utils.go:9-30 | the glob is `{d}_{kr}_{kv}.yaml`, with empty release and version replaced by "*" |
| Validate.ConfGlobOfCrawlerName | pkg/validate/utils.go:14-17 | a crawler name gives the same glob as the driverkit target with ".yaml" |
| Validate.ConfGlobLowercases | pkg/validate/utils.go:18-21 | "Cent*" becomes "cent*" |
| Validate.ConfGlobOfEmptyTarget | pkg/validate/utils.go:23-29 | the empty target gives `*_*_*.yaml` |
| Validate.CheckRecord | pkg/validate/validate.go:60-117 | nil exactly when every check passes |
| Validate.CheckRecordFirstError | pkg/validate/validate.go:60-117 | each of the seven errors is returned iff its check fails and every earlier one passes |
| Validate.CheckRecordWarnings | pkg/validate/validate.go:79-111 | each warning appears iff its output is set, passes its checks and is on a release that does not support it |
| Validate.ValidateConfig | pkg/validate/validate.go:42-120 | a read error is returned as is, a parse error is wrapped with "config: path", and a parsed record gives nil iff valid |
| Validate.CapsOnlyWarn | pkg/validate/validate.go:89-111 | the release-support oracle never changes the error |
| Validate.ConfigDataAccepted | pkg/validate/validate.go:114-117 | empty config data and any standard encoding pass the base64 check |
| Validate.FilledPaths | pkg/validate/types.go:54-70 | filled outputs have the expected base names and contain the architecture |
| Validate.FilledRecordValid | pkg/generate/generate_test.go:280-283 | a record filled by `FillOutputs` with clean components passes validation |
| Validate.OutputChecks | pkg/validate/validate.go:72-105 | an output at `output/{dv}/{arch}/{driver}_{name}{ext}` passes both its name and arch checks |
| Validate.Run | pkg/validate/validate.go:29-35 | validation runs the filesystem looper over config paths with the checking worker |
| Validate.RunVerdict | pkg/validate/validate.go:29-35 | outside dry-run, nil iff every candidate config validates; otherwise the first failing config's error |
| Generate.ConfigDirOfPath | pkg/generate/generate.go:193-196 | the config path is the folder `dumpConfig` creates, plus the name |
| Generate.WriteAt | pkg/generate/generate.go:200-205 | writing without truncation overwrites a prefix and keeps any longer stale tail; a failed write changes nothing |
| Generate.WriteAtProperties | pkg/generate/generate.go:200-205 | a fresh file holds exactly the data; rewriting the same data changes nothing; a longer stale file keeps extra bytes |
| Generate.Prepared | pkg/generate/generate.go:181-184 | the architecture is set and the URLs are sorted, as a permutation; nothing else changes |
| Generate.DumpConfig | pkg/generate/generate.go:171-208 | the method's files and error are those of `Dump` |
| Generate.DumpDryRun | pkg/generate/generate.go:176-179 | dry-run writes nothing and returns nil |
| Generate.ConfigPathInjective | pkg/root/utils.go:46-52 | different versions give different config paths |
| Generate.DumpKeys | pkg/generate/generate.go:186-206 | with reliable I/O the call returns nil, the written keys are exactly the per-version config paths, and no other file changes |
| Generate.DumpContents | pkg/generate/generate.go:186-206 | when those paths are new and no write fails, each holds that version's filled record |
| Generate.DumpedRecordValid | pkg/generate/generate_test.go:280-283 | a dumped record passes the output checks of validation |
| Generate.LoadKernelHeaders | pkg/generate/generate.go:115-151 | an unknown builder is `UnsupportedTargetErr`; fewer than `minimumURLs` (default 1) resolving URLs is an error; URL and resolution errors are returned |
| Generate.GenerateSingleConfig | pkg/generate/generate.go:153-169 | the method's result is that of `Single` |
| Generate.SingleErrorPolicy | pkg/generate/generate.go:153-169 | only `UnsupportedTargetErr` aborts; any other header error still writes a config, with no URLs |
| Generate.GenerateDistro | pkg/generate/generate.go:97-110 | one distro's worker dumps each accepted entry in feed order and stops at the first error |
| Generate.AutogenerateConfigs | pkg/generate/generate.go:49-113 | feed generation runs every selected distro, and the first error wins |
| Generate.AcceptedEntriesMembers | pkg/generate/generate.go:98-104 | an entry is dumped iff the release and version filters both accept it |
| Generate.SelectedMembers | pkg/generate/generate.go:84-104 | an entry is generated iff its distro passes the distro filter and the entry passes both kernel filters |
| Generate.UnknownFeedKeySkipped | pkg/generate/generate.go:87-94 | a feed key with no driverkit name is never selected |
| Generate.DistrosRunWrites | pkg/generate/generate.go:49-113 | with reliable I/O the written paths are exactly those of the selected entries |
| Generate.DistrosDryRun | pkg/generate/generate.go:176-179 | feed generation in dry-run writes nothing |
| Generate.ErrorDoesNotStopOtherDistros | pkg/generate/generate.go:82-112 | a failing distro's error is returned, but later distros still run |
| Generate.ModeOf | pkg/generate/generate.go:38-46 | Auto selects the feed; otherwise a fully set target selects single mode; otherwise no mode |
| Generate.Run | pkg/generate/generate.go:38-46 | the dispatch's result is that of `RunSpec` |
| Generate.RunNeedsMode | pkg/generate/generate.go:38-46 | without auto and without a full target, the error is the missing-mode error and nothing is written |
| Generate.AutoWrites | pkg/generate/generate.go:38-113 | auto mode writes exactly the selected feed entries' config paths |
| Autogenerate.AutogenDistrosFacts | pkg/autogenerate/constants.go:12-25 | the older distro list has 12 names, and PhotonOS is not one of them |
| Autogenerate.LoadLastRunDistro | pkg/autogenerate/autogenerate.go:19-25 | a fetch error is returned; otherwise the body with one trailing "\n" trimmed |
| Autogenerate.OneNewlineTrimmed | pkg/autogenerate/autogenerate.go:19-25 | only one newline is trimmed |
| Autogenerate.ResolveTarget | pkg/autogenerate/autogenerate.go:43-50 | an empty target is replaced by the last-run distro |
| Autogenerate.CheckTarget | pkg/autogenerate/autogenerate.go:51-53 | nil iff the target is "*" or a listed distro; otherwise the unsupported-target-distro error |
| Autogenerate.SelectedDistros | pkg/autogenerate/autogenerate.go:58-64 | "*" selects every distro; otherwise exactly the named one |
| Autogenerate.EntryRecord | pkg/autogenerate/autogenerate.go:86-108 | the record copies the entry's kernel fields and headers; the architecture is `ToDebArch`; module and probe are the output path plus ".ko" and ".o", always |
| Autogenerate.EntryConfigs | pkg/autogenerate/autogenerate.go:97-131 | the per-version loop of one entry matches `EntryRun` |
| Autogenerate.DistroGroup | pkg/autogenerate/autogenerate.go:84-134 | one distro's goroutine matches `GroupRun` |
| Autogenerate.GenerateConfigs | pkg/autogenerate/autogenerate.go:41-137 | the command's result is that of `GenerateSpec` |
| Autogenerate.RunTarget | pkg/autogenerate/autogenerate.go:51-137 | once the target is resolved the result is that of `TargetRun`: an unsupported target or a parse error stops before any group runs |
| Autogenerate.TargetRunSelected | pkg/autogenerate/autogenerate.go:51-76 | an accepted target whose feed parses runs the groups of exactly the selected distros, in list order |
| Autogenerate.RunGroups | pkg/autogenerate/autogenerate.go:73-136 | the per-distro loop matches `GroupsRun` |
| Autogenerate.UnsupportedTargetWritesNothing | pkg/autogenerate/autogenerate.go:51-53 | an unsupported target returns its error before any file is written |
| Autogenerate.DryRunWritesNothing | pkg/autogenerate/autogenerate.go:76-81 | in dry-run every distro is skipped and nothing is written |
| Autogenerate.EntryRunKeys | pkg/autogenerate/autogenerate.go:97-131 | with reliable I/O an entry writes exactly one config per driver version, at the older config path with the entry's config name |
| Autogenerate.EntryRunStep | pkg/autogenerate/autogenerate.go:97-131 | with reliable I/O one driver version adds exactly its config path and the loop continues with the rest |
| Autogenerate.GroupRunKeys | pkg/autogenerate/autogenerate.go:84-134 | a distro group writes exactly its entries' config paths |
| Autogenerate.StarSelectsAll | pkg/autogenerate/autogenerate.go:58-64 | "*" runs the groups of all twelve distros |
| Autogenerate.LastRunDistroUsed | pkg/autogenerate/autogenerate.go:43-50 | an empty target fetched as "CentOS\n" runs only the CentOS group |
| Stats.ConfigStats | pkg/stats/statter_file.go:50-70 | a read error is returned; a parse error is wrapped with the path; a parsed config adds one probe iff a probe is set and one module iff a module is set |
| Stats.FailureStoresEntry | pkg/stats/statter_file.go:39-48 | a failing config still stores its version's entry, unchanged, and no other version is affected |
| Stats.FileDriverStats | pkg/stats/statter_file.go:39-48 | the file statter runs the filesystem looper with the counting callback |
| Stats.ReplayFileCounts | pkg/stats/statter_file.go:39-70 | each version's counts grow by its visits' probe and module outputs, and a version with no visits stays absent |
| Stats.FileStatsCount | pkg/stats/statter_file.go:39-70 | outside dry-run with parseable configs: nil, per-version counts of probes and modules over the candidates, and zero for versions without configs |
| Stats.FourConfigs | pkg/stats/stats_test.go:35-131 | three configs with both outputs and one with a module only give 3 probes and 4 modules |
| Stats.KeyStats | pkg/stats/statter_s3.go:47-51 | ".ko" counts a module; otherwise ".o" counts a probe; anything else counts nothing |
| Stats.S3DriverStats | pkg/stats/statter_s3.go:41-56 | the object-store statter runs the bucket looper with the suffix-counting callback |
| Stats.ReplayS3Counts | pkg/stats/statter_s3.go:41-56 | the callback never fails, and counts `.ko` keys as modules and the other `.o` keys as probes, per version |
| Stats.S3StatsCount | pkg/stats/statter_s3.go:41-56 | with fetchable pages: nil, and per-version counts over the accepted keys |
| Stats.FourKeys | pkg/stats/stats_test.go:228-256 | keys `.ko`, `.o`, `.o`, `.ko` of one version give 2 probes and 2 modules |
| Stats.Totals | pkg/stats/stats.go:37-50 | the totals carry no header or config-data counts |
| Stats.Table | pkg/stats/stats.go:42-55 | one row per listed version in order, with zeros for missing versions, then a "TOTALS" row |
| Stats.Run | pkg/stats/stats.go:25-59 | a statter error is returned with no rows; otherwise the rows are the table |
| Stats.TotalsAppend | pkg/stats/stats.go:37-50 | the totals add over concatenation of the version list |
| Stats.DuplicateCountedTwice | pkg/stats/stats.go:42-51 | a version listed twice is counted twice |
| Stats.MissingVersionIsZero | pkg/stats/stats.go:42-51 | a version missing from the map shows zeros and adds nothing to the totals |
| Cleanup.Without | pkg/cleanup/cleanup.go:62-64 | removing a file leaves every other file |
| Cleanup.OutsideFolder | pkg/cleanup/cleanup.go:39-40 | removing a folder leaves exactly the files outside it |
| Cleanup.CleanupFolder | pkg/cleanup/cleanup.go:28-41 | dry-run removes nothing and returns nil; otherwise the `RemoveAll` error, or the folder is gone |
| Cleanup.CleanupMatchingConfigs | pkg/cleanup/cleanup.go:43-67 | the glob-and-remove loop matches `MatchingRemoval` |
| Cleanup.Run | pkg/cleanup/cleanup.go:12-26 | the per-version loop matches `RunRemoval` |
| Cleanup.RunRemovalAppend | pkg/cleanup/cleanup.go:15-25 | the first error aborts the remaining driver versions |
| Cleanup.RemoveEachExact | pkg/cleanup/cleanup.go:56-66 | when no removal fails, exactly the matched files are gone |
| Cleanup.RemoveEachStopsAtFailure | pkg/cleanup/cleanup.go:62-64 | the first failing removal is returned, with the matches before it removed and the rest kept |
| Cleanup.DryRunRemovesNothing | pkg/cleanup/cleanup.go:34-38 | in dry-run no file is removed in either mode; only a bad pattern is an error |
| Cleanup.FolderModeExact | pkg/cleanup/cleanup.go:15-20 | with no target, every requested version's folder is removed and nothing else |
| Cleanup.UntouchedSurvive | pkg/cleanup/cleanup.go:12-67 | no file is created, and a file that no requested version's folder or glob touches survives |
| Cleanup.OtherVersionSurvives | pkg/cleanup/cleanup_test.go:64-72 | removing one version's folder keeps every other version's configs |
| Cleanup.FileCleanup | pkg/cleanup/cleaner_file.go:35-39 | the file cleaner runs the filesystem looper with the removing callback, globbing the current files |
| Cleanup.ReplayRemovals | pkg/cleanup/cleaner_file.go:35-39 | replayed removals delete exactly the visited paths, or stop at a failing one |
| Cleanup.FileCleanupRemovesVisited | pkg/cleanup/cleaner_file.go:35-39 | outside dry-run: nil means every visited config is gone and nothing else; a failed removal is returned with only earlier visits removed |
| Cleanup.FileCleanupDryRun | pkg/root/utils.go:33-36 | in dry-run the cleaner removes nothing |
| Build.ResolveOutput | pkg/build/build.go:113-119 | relative outputs are joined under `{repoRoot}/driverkit`, and absolute ones are kept |
| Build.ResolveRelative | pkg/build/build.go:113-119 | an empty output becomes `{repoRoot}/driverkit` itself |
| Build.Unbuilt | pkg/build/build.go:125-139 | with SkipExisting, an output is cleared iff the bucket has its base name |
| Build.RequestOf | pkg/build/build.go:103-123 | the request carries the record's kernel fields, the options' architecture and driver name, and the outputs |
| Build.BuildConfig | pkg/build/build.go:83-169 | each config queues at most one value and logs at most one line; a failing config queues nothing |
| Build.SkipAllBuildsNothing | pkg/build/build.go:140-143 | with both outputs already present: nil, nothing changes, and the build is never invoked |
| Build.BuildFailurePolicy | pkg/build/build.go:149-160 | a build error is appended to the redirect file when one is set, and returned unless errors are ignored |
| Build.SuccessQueuesOnce | pkg/build/build.go:162-167 | a successful build with publishing queues exactly one (version, outputs) value |
| Build.IgnoredErrorsNeverFail | pkg/build/build.go:155-158 | with errors ignored, a config that reads and parses, once the root options load, never fails the loop |
| Build.PutDriver | pkg/utils/s3/s3utils.go:115-123 | an open or put error is returned; otherwise the file's contents land under its base name's object key |
| Build.UploadOne | pkg/build/build.go:173-195 | an empty output is skipped; otherwise exactly one attempt is logged, and the bucket only grows |
| Build.PublishLoop | pkg/build/build.go:171-197 | the drain loop matches `PublishAll` |
| Build.PublishLog | pkg/build/build.go:171-197 | one attempt per non-empty output, in queue order, with each module before its probe; failures do not stop later uploads |
| Build.PublishBucketGrows | pkg/build/build.go:171-197 | uploads only add objects: the bucket's keys never shrink |
| Build.PublishedPresent | pkg/build/build.go:171-197 | every upload that can succeed ends up in the bucket |
| Build.PublishedThenSkipped | pkg/build/build.go:125-139 | a published module is skipped by the next build with SkipExisting |
| Build.Run | pkg/build/build.go:35-81 | a redirect-open error is returned first; otherwise the loop runs, its queue is published after it ends, and the loop's error is returned |
| Build.IgnoreErrorsRunSucceeds | pkg/build/build.go:72-80 | with errors ignored and parseable configs, the run returns nil |

## Left out

- Regular expressions and `filepath.Glob` are oracles (`Matching.RegexEngine`, `Matching.GlobEngine`). Only the literal-pattern case is fixed: an unanchored substring search, so the empty pattern matches everything.
- JSON/YAML marshalling, and the dynamic struct built by reflection in autogenerate, are not modelled. Records are used parsed, and a config read is a `Load` value (unreadable, unparsable or parsed).
- `filepath.Join` is modelled without `Clean`: it joins the non-empty elements with '/'. Paths with `.`, `..` or repeated slashes are not normalised.
- Network and transport are not modelled: S3 client creation, HTTP feed downloads, `DeleteObject` in the S3 cleaner, `pkg/publish`, and the fake-S3 test setup. Pages, head answers, feed payloads and upload failures are inputs.
- Driverkit is an oracle: the builder factory, URL resolution, `SupportsModule`/`SupportsProbe`, `Architecture.ToNonDeb` (the `nonDebArchitecture` field) and the docker build processor.
- Concurrency is sequentialised:
  - the errgroups in generate and autogenerate run their distros one after another, and the first error in processing order wins;
  - build's publishing goroutine runs after the build loop, over the queued values in order.
- Build.Run: the buffered channel's blocking, and interleaving between building and uploading, are not modelled.
- Cleanup.CleanupFolder: a `RemoveAll` that fails part-way is modelled as removing nothing.
- Generate.DumpConfig: the ignored `MkdirAll` in build, and folder creation in general, are not modelled. `MkdirAll` and `OpenFile` are failure oracles.
- Autogenerate.EntryRecord: `validate.OutputPathFmt` is not part of this model (it is missing from the snapshot), so the output path is a parameter, and `KernelEntry.ToConfigName` is the entry's `configName` field.
- Stats.Run: table rendering (tablewriter) is not modelled. Rows are produced as strings.
- Logging (slog/pterm), the CLI under `cmd/`, viper option loading (`LoadRootOptions`) and `loadDriverVersions` are not modelled. Neither is the `Info` text of the statters and cleaners beyond constants.
- NameCodec.Decode: the driver name is matched literally. Go places it in the pattern unescaped, so the model agrees with Go only for names without regex metacharacters (`LiteralPattern`; the default `falco` has none). A name with metacharacters can match other text, or not match itself, and a name that is not a valid pattern makes `regexp.MustCompile` panic.
- NameCodec.DecodeEncode: stated only for a driver name without regex metacharacters, and for a kernel release and version without newlines (`.` does not match a newline in the pattern).
- NameCodec.DecodeShape: stated only for a driver name without regex metacharacters, because only then is the model's literal prefix what the pattern matches.
- NameCodec.DecodeCaptures: stated only for a driver name without regex metacharacters, for the same reason.
- S3Utils.EncodedKeyAccepted: stated only for a driver name without regex metacharacters, and for a kernel release and version without newlines, as `DecodeEncode` is.
- Validate.GlobDistro: lowercasing folds ASCII letters only (`Strings.ToLower`); Go's `strings.ToLower` also folds non-ASCII letters.
- The arithmetic in the model is unbounded. The counts in stats never come near Go's `int` limits.
