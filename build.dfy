/**
 * Building drivers from local configs: each config visited by the filesystem looper
 * becomes a driverkit build request, outputs already in the bucket may be skipped,
 * failures may be logged and ignored, and built outputs may be queued for upload.
 * The driverkit build, the config reads, the bucket and the uploaded files are oracles;
 * the publishing goroutine is run after the build loop, in queue order.
 */
module Build {
  import opened Wrappers
  import opened Strings
  import opened Errors
  import opened Matching
  import opened Root
  import opened Validate
  import S3Utils

  datatype BuildOptions = BuildOptions(
    opts: Options,
    skipExisting: bool,
    publish: bool,
    ignoreErrors: bool,
    redirectErrors: String)

  /** What driverkit is asked to build. */
  datatype BuildRequest = BuildRequest(
    architecture: String,
    driverVersion: String,
    kernelVersion: String,
    moduleDriverName: String,
    moduleDeviceName: String,
    kernelRelease: String,
    target: String,
    kernelConfigData: String,
    kernelUrls: seq<String>,
    output: Outputs)

  /**
   * The collaborators of one build: config reads, driverkit's option defaults, the
   * bucket's answer to a head request and the docker build itself.
   */
  datatype Toolchain = Toolchain(
    loads: String -> Load,
    rootOptionsFail: Option<Error>,
    head: String -> S3Utils.HeadResponse,
    build: BuildRequest -> Option<Error>)

  /** One value sent to the publishing goroutine. */
  datatype PublishVal = PublishVal(driverVersion: String, out: Outputs)

  /** The lines written to the redirect file and the values queued for publishing. */
  datatype BuildState = BuildState(redirected: seq<String>, queue: seq<PublishVal>)

  // ---------------------------------------------------------------------------
  // buildConfig

  /** `filepath.IsAbs` on a Unix path. */
  predicate IsAbs(p: String) {
    |p| > 0 && p[0] == '/'
  }

  /** A relative output path is taken relative to `{repoRoot}/driverkit`; an absolute one is kept. */
  function ResolveOutput(repoRoot: String, p: String): (r: String)
    ensures IsAbs(p) ==> r == p
    ensures !IsAbs(p) ==> r == JoinPath([repoRoot, "driverkit", p])
  {
    if IsAbs(p) then p else JoinPath([repoRoot, "driverkit", p])
  }

  /** A relative path lands under the driverkit folder, and the empty path is that folder itself. */
  lemma ResolveRelative(repoRoot: String, p: String)
    requires repoRoot != ""
    ensures p == "" ==> ResolveOutput(repoRoot, p) == repoRoot + "/driverkit"
    ensures p != "" && !IsAbs(p) ==> ResolveOutput(repoRoot, p) == repoRoot + "/driverkit/" + p
  {
    if p == "" {
      JoinPathOfTwo(repoRoot, "driverkit");
      assert [repoRoot, "driverkit", p][..2] == [repoRoot, "driverkit"];
    } else {
      JoinPathOfThree(repoRoot, "driverkit", p);
    }
  }

  /** One output after the skip check: cleared when it is already in the bucket. */
  function Unbuilt(bo: BuildOptions, head: String -> S3Utils.HeadResponse, dv: String, path: String): (r: String)
    ensures r == "" || r == path
    ensures r == "" <==> path == "" || (bo.skipExisting && S3Utils.HeadDriver(bo.opts, head, dv, Base(path)))
  {
    if bo.skipExisting && path != "" && S3Utils.HeadDriver(bo.opts, head, dv, Base(path)) then "" else path
  }

  /** The outputs to build: the record's outputs resolved, then the skip check applied. */
  function ToBuild(bo: BuildOptions, head: String -> S3Utils.HeadResponse, dv: String, dy: DriverkitYaml): Outputs {
    Outputs(Unbuilt(bo, head, dv, ResolveOutput(bo.opts.repoRoot, dy.output.kernelModule)),
            Unbuilt(bo, head, dv, ResolveOutput(bo.opts.repoRoot, dy.output.probe)))
  }

  /** The request for a parsed record: its kernel fields, the options' names and the outputs to build. */
  function RequestOf(bo: BuildOptions, dv: String, dy: DriverkitYaml, out: Outputs): (req: BuildRequest)
    ensures req.architecture == bo.opts.architecture && req.driverVersion == dv
    ensures req.moduleDriverName == bo.opts.driverName && req.moduleDeviceName == bo.opts.driverName
    ensures req.kernelVersion == dy.kernelVersion && req.kernelRelease == dy.kernelRelease
    ensures req.target == dy.target && req.kernelConfigData == dy.kernelConfigData
    ensures req.kernelUrls == dy.kernelUrls && req.output == out
  {
    BuildRequest(bo.opts.architecture, dv, dy.kernelVersion, bo.opts.driverName, bo.opts.driverName,
                 dy.kernelRelease, dy.target, dy.kernelConfigData, dy.kernelUrls, out)
  }

  function RedirectLine(configPath: String, e: Error): String {
    "config: " + configPath + " | error: " + e.Message() + "\n"
  }

  /**
   * `buildConfig`: read and parse the config, build the request, skip what the bucket
   * has, build, and on a build error log it to the redirect file and either ignore it
   * or return it; a successful build is queued for publishing.
   */
  function BuildConfig(bo: BuildOptions, tc: Toolchain, st: BuildState, dv: String, configPath: String)
    : (r: Step<BuildState>)
    ensures |st.queue| <= |r.state.queue| <= |st.queue| + 1 && r.state.queue[..|st.queue|] == st.queue
    ensures |st.redirected| <= |r.state.redirected| <= |st.redirected| + 1
    ensures r.state.redirected[..|st.redirected|] == st.redirected
    ensures r.err.Some? ==> r.state.queue == st.queue
  {
    match tc.loads(configPath)
    case Unreadable(e) => Step(st, Some(e))
    case Unparsable(e) => Step(st, Some(WithMessage("config: " + configPath, e)))
    case Parsed(dy) =>
      if tc.rootOptionsFail.Some? then Step(st, tc.rootOptionsFail)
      else
        var out := ToBuild(bo, tc.head, dv, dy);
        if bo.skipExisting && out.kernelModule == "" && out.probe == "" then Step(st, None)
        else
          var failure := tc.build(RequestOf(bo, dv, dy, out));
          if failure.Some? then
            var logged := if bo.redirectErrors != "" then st.(redirected := st.redirected + [RedirectLine(configPath, failure.value)])
                          else st;
            if bo.ignoreErrors then Step(logged, None) else Step(logged, failure)
          else if bo.publish then Step(st.(queue := st.queue + [PublishVal(dv, out)]), None)
          else Step(st, None)
  }

  function BuildWorker(bo: BuildOptions, tc: Toolchain): (BuildState, String, String) -> Step<BuildState> {
    (st: BuildState, dv: String, path: String) => BuildConfig(bo, tc, st, dv, path)
  }

  /** The toolchain with a different docker build. */
  function WithBuild(tc: Toolchain, build: BuildRequest -> Option<Error>): Toolchain {
    tc.(build := build)
  }

  /**
   * With SkipExisting, a config whose outputs are all in the bucket returns nil and
   * changes nothing, whatever the docker build would do: it is never invoked.
   */
  lemma SkipAllBuildsNothing(bo: BuildOptions, tc: Toolchain, st: BuildState, dv: String, path: String,
                             other: BuildRequest -> Option<Error>)
    requires bo.skipExisting && tc.loads(path).Parsed? && tc.rootOptionsFail.None?
    requires var out := ToBuild(bo, tc.head, dv, tc.loads(path).dy); out.kernelModule == "" && out.probe == ""
    ensures BuildConfig(bo, tc, st, dv, path) == Step(st, None)
    ensures BuildConfig(bo, WithBuild(tc, other), st, dv, path) == BuildConfig(bo, tc, st, dv, path)
  {
  }

  /**
   * A build error is written to the redirect file when one is set, and is returned
   * unless errors are ignored; nothing is queued.
   */
  lemma BuildFailurePolicy(bo: BuildOptions, tc: Toolchain, st: BuildState, dv: String, path: String)
    requires tc.loads(path).Parsed? && tc.rootOptionsFail.None?
    requires var out := ToBuild(bo, tc.head, dv, tc.loads(path).dy);
      !(bo.skipExisting && out.kernelModule == "" && out.probe == "") &&
      tc.build(RequestOf(bo, dv, tc.loads(path).dy, out)).Some?
    ensures var dy := tc.loads(path).dy;
      var e := tc.build(RequestOf(bo, dv, dy, ToBuild(bo, tc.head, dv, dy))).value;
      var r := BuildConfig(bo, tc, st, dv, path);
      r.state.queue == st.queue &&
      r.state.redirected == (if bo.redirectErrors != "" then st.redirected + [RedirectLine(path, e)] else st.redirected) &&
      r.err == (if bo.ignoreErrors then None else Some(e))
  {
  }

  /** A successful build with publishing on queues exactly one value: the version and the built outputs. */
  lemma SuccessQueuesOnce(bo: BuildOptions, tc: Toolchain, st: BuildState, dv: String, path: String)
    requires tc.loads(path).Parsed? && tc.rootOptionsFail.None?
    requires var out := ToBuild(bo, tc.head, dv, tc.loads(path).dy);
      !(bo.skipExisting && out.kernelModule == "" && out.probe == "") &&
      tc.build(RequestOf(bo, dv, tc.loads(path).dy, out)).None?
    ensures var r := BuildConfig(bo, tc, st, dv, path);
      r.err.None? && r.state.redirected == st.redirected &&
      r.state.queue == st.queue + (if bo.publish then [PublishVal(dv, ToBuild(bo, tc.head, dv, tc.loads(path).dy))] else [])
  {
  }

  /** A config that reads and parses never fails the loop when build errors are ignored. */
  lemma IgnoredErrorsNeverFail(bo: BuildOptions, tc: Toolchain, st: BuildState, dv: String, path: String)
    requires bo.ignoreErrors && tc.loads(path).Parsed? && tc.rootOptionsFail.None?
    ensures BuildConfig(bo, tc, st, dv, path).err.None?
  {
  }

  // ---------------------------------------------------------------------------
  // publishLoop

  /** The files to upload and the bucket's behaviour: a file may fail to open, an upload may fail. */
  datatype Store = Store(openFails: String -> Option<Error>, contents: String -> String,
                         putFails: String -> Option<Error>)

  /** One upload attempt: the path and the error logged as a warning, if any. */
  datatype Upload = Upload(path: String, err: Option<Error>)

  /** The bucket after the uploads, and the log of attempts. */
  datatype Published = Published(bucket: map<String, String>, uploads: seq<Upload>)

  /** `PutDriver`: open the file, then put it under its basename's object key. */
  function PutDriver(opts: Options, store: Store, bucket: map<String, String>, dv: String, path: String)
    : (r: Result<map<String, String>, Error>)
    ensures r.Failure? ==> Some(r.error) == (if store.openFails(path).Some? then store.openFails(path)
                                             else store.putFails(S3Utils.ObjectKey(opts, dv, Base(path))))
    ensures r.Failure? <==>
              store.openFails(path).Some? || store.putFails(S3Utils.ObjectKey(opts, dv, Base(path))).Some?
    ensures r.Success? ==> r.value.Keys == bucket.Keys + {S3Utils.ObjectKey(opts, dv, Base(path))}
    ensures r.Success? ==> r.value[S3Utils.ObjectKey(opts, dv, Base(path))] == store.contents(path)
  {
    if store.openFails(path).Some? then Failure(store.openFails(path).value)
    else
      var key := Base(path);
      S3Utils.PutObject(bucket, opts, dv, key, store.contents(path), store.putFails(S3Utils.ObjectKey(opts, dv, key)))
  }

  /** One output's upload: skipped when empty, otherwise attempted and logged; a failure is only logged. */
  function UploadOne(opts: Options, store: Store, p: Published, dv: String, path: String): (r: Published)
    ensures path == "" ==> r == p
    ensures path != "" ==> |r.uploads| == |p.uploads| + 1 && r.uploads[..|p.uploads|] == p.uploads
    ensures path != "" ==> r.uploads[|p.uploads|].path == path
    ensures p.bucket.Keys <= r.bucket.Keys
  {
    if path == "" then p
    else
      match PutDriver(opts, store, p.bucket, dv, path)
      case Failure(e) => Published(p.bucket, p.uploads + [Upload(path, Some(e))])
      case Success(b) => Published(b, p.uploads + [Upload(path, None)])
  }

  /** The queue in order, each value's module before its probe. */
  function PublishAll(opts: Options, store: Store, vals: seq<PublishVal>, p: Published): Published
    decreases |vals|
  {
    if vals == [] then p
    else
      var v := vals[0];
      var afterModule := UploadOne(opts, store, p, v.driverVersion, v.out.kernelModule);
      PublishAll(opts, store, vals[1..], UploadOne(opts, store, afterModule, v.driverVersion, v.out.probe))
  }

  /** `publishLoop`: drains the queue, uploading each value's module, then its probe. */
  method PublishLoop(opts: Options, store: Store, vals: seq<PublishVal>, bucket0: map<String, String>)
    returns (bucket: map<String, String>, uploads: seq<Upload>)
    ensures Published(bucket, uploads) == PublishAll(opts, store, vals, Published(bucket0, []))
  {
    bucket, uploads := bucket0, [];
    var i := 0;
    while i < |vals|
      invariant 0 <= i <= |vals|
      invariant PublishAll(opts, store, vals, Published(bucket0, [])) ==
                PublishAll(opts, store, vals[i..], Published(bucket, uploads))
    {
      assert vals[i..][0] == vals[i] && vals[i..][1..] == vals[i + 1..];
      var v := vals[i];
      if v.out.kernelModule != "" {
        var res := PutDriver(opts, store, bucket, v.driverVersion, v.out.kernelModule);
        if res.Failure? {
          uploads := uploads + [Upload(v.out.kernelModule, Some(res.error))];
        } else {
          bucket, uploads := res.value, uploads + [Upload(v.out.kernelModule, None)];
        }
      }
      if v.out.probe != "" {
        var res := PutDriver(opts, store, bucket, v.driverVersion, v.out.probe);
        if res.Failure? {
          uploads := uploads + [Upload(v.out.probe, Some(res.error))];
        } else {
          bucket, uploads := res.value, uploads + [Upload(v.out.probe, None)];
        }
      }
      i := i + 1;
    }
  }

  /** The non-empty outputs of the queue, in order, each module before its probe. */
  function OutputsOf(vals: seq<PublishVal>): seq<String>
    decreases |vals|
  {
    if vals == [] then []
    else
      PairOutputs(vals[0].out) + OutputsOf(vals[1..])
  }

  /** `after` is `before` followed by one attempt per path, in order. */
  predicate Logged(before: seq<Upload>, after: seq<Upload>, paths: seq<String>) {
    |after| == |before| + |paths| && after[..|before|] == before &&
    forall i :: 0 <= i < |paths| ==> after[|before| + i].path == paths[i]
  }

  /**
   * Every non-empty output gets exactly one attempt, in queue order with each module
   * before its probe, whether or not earlier uploads failed.
   */
  lemma {:induction false} PublishLog(opts: Options, store: Store, vals: seq<PublishVal>, p: Published)
    ensures Logged(p.uploads, PublishAll(opts, store, vals, p).uploads, OutputsOf(vals))
    decreases |vals|
  {
    if vals != [] {
      var v := vals[0];
      var m := UploadOne(opts, store, p, v.driverVersion, v.out.kernelModule);
      var q := UploadOne(opts, store, m, v.driverVersion, v.out.probe);
      UploadPairLog(opts, store, p, v);
      PublishLog(opts, store, vals[1..], q);
      assert OutputsOf(vals) == PairOutputs(v.out) + OutputsOf(vals[1..]);
      var r := PublishAll(opts, store, vals, p);
      assert r == PublishAll(opts, store, vals[1..], q);
      ComposeLog(p.uploads, q.uploads, r.uploads, PairOutputs(v.out), OutputsOf(vals[1..]));
    }
  }

  /** Uploads only add objects: the bucket's keys never shrink. */
  lemma {:induction false} PublishBucketGrows(opts: Options, store: Store, vals: seq<PublishVal>, p: Published)
    ensures p.bucket.Keys <= PublishAll(opts, store, vals, p).bucket.Keys
    decreases |vals|
  {
    if vals != [] {
      var v := vals[0];
      var m := UploadOne(opts, store, p, v.driverVersion, v.out.kernelModule);
      var q := UploadOne(opts, store, m, v.driverVersion, v.out.probe);
      PublishBucketGrows(opts, store, vals[1..], q);
    }
  }

  /** Two logged stretches of attempts, one after the other, log their paths in order. */
  lemma ComposeLog(pu: seq<Upload>, qu: seq<Upload>, ru: seq<Upload>, head: seq<String>, rest: seq<String>)
    requires Logged(pu, qu, head) && Logged(qu, ru, rest)
    ensures Logged(pu, ru, head + rest)
  {
    assert ru[..|pu|] == ru[..|qu|][..|pu|];
    forall i | 0 <= i < |head + rest| ensures ru[|pu| + i].path == (head + rest)[i] {
      if i < |head| {
        assert ru[|pu| + i] == ru[..|qu|][|pu| + i];
      } else {
        assert ru[|pu| + i] == ru[|qu| + (i - |head|)];
      }
    }
  }

  /** The outputs of one queue value, module first. */
  function PairOutputs(out: Outputs): seq<String> {
    (if out.kernelModule != "" then [out.kernelModule] else []) + (if out.probe != "" then [out.probe] else [])
  }

  /** The module then probe upload of one value appends one attempt per non-empty output. */
  lemma UploadPairLog(opts: Options, store: Store, p: Published, v: PublishVal)
    ensures var q := UploadOne(opts, store, UploadOne(opts, store, p, v.driverVersion, v.out.kernelModule),
                               v.driverVersion, v.out.probe);
      Logged(p.uploads, q.uploads, PairOutputs(v.out))
  {
    var m := UploadOne(opts, store, p, v.driverVersion, v.out.kernelModule);
    var q := UploadOne(opts, store, m, v.driverVersion, v.out.probe);
    assert q.uploads[..|m.uploads|] == m.uploads;
    assert q.uploads[..|p.uploads|] == q.uploads[..|m.uploads|][..|p.uploads|];
  }

  predicate Uploadable(opts: Options, store: Store, dv: String, path: String) {
    store.openFails(path).None? && store.putFails(S3Utils.ObjectKey(opts, dv, Base(path))).None?
  }

  /** The object keys the queue's uploads address. */
  predicate Lands(opts: Options, store: Store, vals: seq<PublishVal>, key: String) {
    exists i :: 0 <= i < |vals| &&
      ((vals[i].out.kernelModule != "" && Uploadable(opts, store, vals[i].driverVersion, vals[i].out.kernelModule) &&
        key == S3Utils.ObjectKey(opts, vals[i].driverVersion, Base(vals[i].out.kernelModule))) ||
       (vals[i].out.probe != "" && Uploadable(opts, store, vals[i].driverVersion, vals[i].out.probe) &&
        key == S3Utils.ObjectKey(opts, vals[i].driverVersion, Base(vals[i].out.probe))))
  }

  /** Every upload that can succeed ends up in the bucket. */
  lemma {:induction false} PublishedPresent(opts: Options, store: Store, vals: seq<PublishVal>, p: Published)
    ensures forall key :: Lands(opts, store, vals, key) ==> key in PublishAll(opts, store, vals, p).bucket
    decreases |vals|
  {
    if vals != [] {
      var v := vals[0];
      var m := UploadOne(opts, store, p, v.driverVersion, v.out.kernelModule);
      var q := UploadOne(opts, store, m, v.driverVersion, v.out.probe);
      PublishedPresent(opts, store, vals[1..], q);
      PublishBucketGrows(opts, store, vals[1..], q);
      forall key | Lands(opts, store, vals, key) ensures key in PublishAll(opts, store, vals, p).bucket {
        var i :| 0 <= i < |vals| &&
          ((vals[i].out.kernelModule != "" && Uploadable(opts, store, vals[i].driverVersion, vals[i].out.kernelModule) &&
            key == S3Utils.ObjectKey(opts, vals[i].driverVersion, Base(vals[i].out.kernelModule))) ||
           (vals[i].out.probe != "" && Uploadable(opts, store, vals[i].driverVersion, vals[i].out.probe) &&
            key == S3Utils.ObjectKey(opts, vals[i].driverVersion, Base(vals[i].out.probe))));
        if i > 0 {
          assert vals[1..][i - 1] == vals[i];
          assert Lands(opts, store, vals[1..], key);
        }
      }
    }
  }

  /**
   * A driver that was published is skipped by the next build with SkipExisting, when
   * the head requests are answered from the bucket.
   */
  lemma PublishedThenSkipped(bo: BuildOptions, store: Store, vals: seq<PublishVal>, bucket: map<String, String>,
                             head: String -> S3Utils.HeadResponse, i: nat)
    requires bo.skipExisting && i < |vals| && vals[i].out.kernelModule != ""
    requires Uploadable(bo.opts, store, vals[i].driverVersion, vals[i].out.kernelModule)
    requires var r := PublishAll(bo.opts, store, vals, Published(bucket, []));
      forall k :: head(k) == S3Utils.Found <==> k in r.bucket
    ensures Unbuilt(bo, head, vals[i].driverVersion, vals[i].out.kernelModule) == ""
  {
    var v := vals[i];
    assert Lands(bo.opts, store, vals, S3Utils.ObjectKey(bo.opts, v.driverVersion, Base(v.out.kernelModule)));
    PublishedPresent(bo.opts, store, vals, Published(bucket, []));
  }

  // ---------------------------------------------------------------------------
  // Run

  datatype BuildResult = BuildResult(state: BuildState, published: Published, err: Option<Error>)

  /**
   * `Run`: a redirect file that cannot be opened is returned before anything is built;
   * otherwise the looper builds every config, the queue is published once the loop
   * ends, whether or not it failed, and the loop's error is returned.
   */
  function RunSpec(bo: BuildOptions, g: GlobEngine, tc: Toolchain, store: Store, listing: seq<String>,
                   bucket: map<String, String>, redirectOpenFails: Option<Error>): BuildResult
  {
    var empty := BuildState([], []);
    if bo.redirectErrors != "" && redirectOpenFails.Some? then
      BuildResult(empty, Published(bucket, []), redirectOpenFails)
    else
      var r := VersionsRun(bo.opts, g, BuildConfigPath, (s: BuildState) => listing, BuildWorker(bo, tc),
                           bo.opts.driverVersions, empty);
      var p := if bo.publish then PublishAll(bo.opts, store, r.state.queue, Published(bucket, []))
               else Published(bucket, []);
      BuildResult(r.state, p, ErrorOf(r.flow))
  }

  method Run(bo: BuildOptions, g: GlobEngine, tc: Toolchain, store: Store, listing: seq<String>,
             bucket0: map<String, String>, redirectOpenFails: Option<Error>) returns (res: BuildResult)
    ensures res == RunSpec(bo, g, tc, store, listing, bucket0, redirectOpenFails)
  {
    var empty := BuildState([], []);
    if bo.redirectErrors != "" && redirectOpenFails.Some? {
      return BuildResult(empty, Published(bucket0, []), redirectOpenFails);
    }
    var st, err := LoopFiltered(bo.opts, g, BuildConfigPath, (s: BuildState) => listing, BuildWorker(bo, tc), empty);
    var bucket, uploads := bucket0, [];
    if bo.publish {
      bucket, uploads := PublishLoop(bo.opts, store, st.queue, bucket0);
    }
    res := BuildResult(st, Published(bucket, uploads), err);
  }

  /**
   * With errors ignored, configs that all read and parse and good patterns, the run
   * returns nil: every candidate config went through the build step.
   */
  lemma IgnoreErrorsRunSucceeds(bo: BuildOptions, g: GlobEngine, tc: Toolchain, store: Store, listing: seq<String>,
                                bucket: map<String, String>, redirectOpenFails: Option<Error>)
    requires !bo.opts.dryRun && bo.ignoreErrors && tc.rootOptionsFail.None?
    requires bo.redirectErrors == "" || redirectOpenFails.None?
    requires GlobsWellFormed(bo.opts, g, BuildConfigPath, bo.opts.driverVersions)
    requires var all := Candidates(bo.opts, g, BuildConfigPath, listing, bo.opts.driverVersions);
      forall i :: 0 <= i < |all| ==> tc.loads(all[i].path).Parsed?
    ensures RunSpec(bo, g, tc, store, listing, bucket, redirectOpenFails).err.None?
  {
    var w := BuildWorker(bo, tc);
    var empty := BuildState([], []);
    var listingOf := (s: BuildState) => listing;
    LoopTrace(bo.opts, g, BuildConfigPath, listingOf, w, bo.opts.driverVersions, empty, listing);
    var r := VersionsRun(bo.opts, g, BuildConfigPath, listingOf, w, bo.opts.driverVersions, empty);
    if r.flow.Fail? {
      var all := Candidates(bo.opts, g, BuildConfigPath, listing, bo.opts.driverVersions);
      assert forall i :: 0 <= i < |r.visits| ==> r.visits[i] == all[i];
      ReplayIgnoring(bo, tc, empty, r.visits);
    }
  }

  lemma {:induction false} ReplayIgnoring(bo: BuildOptions, tc: Toolchain, st: BuildState, visits: seq<Visit>)
    requires bo.ignoreErrors && tc.rootOptionsFail.None?
    requires forall i :: 0 <= i < |visits| ==> tc.loads(visits[i].path).Parsed?
    ensures Replay(BuildWorker(bo, tc), st, visits).err.None?
    decreases |visits|
  {
    if visits != [] {
      var s1 := BuildConfig(bo, tc, st, visits[0].driverVersion, visits[0].path);
      ReplayIgnoring(bo, tc, s1.state, visits[1..]);
    }
  }
}
