/**
 * The older object-store looper, `LoopBucketFiltered`: one driver version per call, a
 * pattern hard-coded to the `falco_` driver prefix, the target distro given in
 * kernel-crawler naming and rewritten to driverkit naming first, the architecture
 * used verbatim in the prefix, and no dry-run handling.
 */
module S3Legacy {
  import opened Wrappers
  import opened Strings
  import opened Errors
  import opened Matching
  import opened Root
  import opened S3Utils

  /** `driver/{dv}/{arch}`, with the architecture as given. */
  function LegacyPrefix(opts: Options, driverVersion: String): String {
    JoinPath(["driver", driverVersion, opts.architecture])
  }

  /**
   * The options the key loop runs with: the distro pattern rewritten to driverkit
   * naming, the driver name fixed to `falco`, and dry-run never consulted.
   */
  function LegacyOptions(opts: Options): (o: Options)
    ensures o.target.distro == ToDriverkitDistro(opts.target.distro)
    ensures o.driverName == "falco" && !o.dryRun
    ensures o.target.kernelRelease == opts.target.kernelRelease
    ensures o.target.kernelVersion == opts.target.kernelVersion
  {
    opts.(target := opts.target.(distro := ToDriverkitDistro(opts.target.distro)),
          driverName := "falco", dryRun := false)
  }

  /** The processor only sees the path; the driver version is fixed by the call. */
  function PathWorker<S>(processor: (S, String) -> Step<S>): (S, String, String) -> Step<S> {
    (s: S, dv: String, path: String) => processor(s, path)
  }

  /** `LoopBucketFiltered`: returns the processor's final state and the error returned. */
  method LoopBucketFiltered<S>(opts: Options, re: RegexEngine, pagesOf: String -> seq<Page>,
                               driverVersion: String, processor: (S, String) -> Step<S>, s0: S)
    returns (s: S, err: Option<Error>)
    ensures var prefix := LegacyPrefix(opts, driverVersion);
      var r := PagesRun(LegacyOptions(opts), re, PathWorker(processor), driverVersion, prefix,
                        pagesOf(prefix), s0);
      s == r.state && err == ErrorOf(r.flow)
  {
    var o := opts;
    var dk := ToDriverkitDistro(o.target.distro);
    o := o.(target := o.target.(distro := dk));
    o := o.(driverName := "falco", dryRun := false);
    var prefix := LegacyPrefix(o, driverVersion);
    var flow;
    s, flow := LoopPages(o, re, PathWorker(processor), driverVersion, prefix, pagesOf(prefix), s0);
    err := ErrorOf(flow);
  }

  /** With non-empty components the prefix is `driver/{dv}/{arch}`, arch untranslated. */
  lemma LegacyPrefixShape(opts: Options, dv: String)
    requires dv != "" && opts.architecture != ""
    ensures LegacyPrefix(opts, dv) == "driver/" + dv + "/" + opts.architecture
  {
    JoinPathOfThree("driver", dv, opts.architecture);
  }

  /**
   * A kernel-crawler distro name selects its driverkit type; any other distro pattern,
   * including one in driverkit naming or a regular expression, becomes "" and so lets
   * every supported distro through.
   */
  lemma LegacyDistroPattern(opts: Options, re: RegexEngine, d: String)
    ensures forall k :: k in SupportedDistros && opts.target.distro == SupportedDistros[k] ==>
      LegacyOptions(opts).target.distro == k
    ensures ToDriverkitDistro(opts.target.distro) == "" ==>
      (LegacyOptions(opts).DistroFilter(re, d) <==> d in SupportedDistros)
  {
    forall k | k in SupportedDistros && opts.target.distro == SupportedDistros[k]
      ensures LegacyOptions(opts).target.distro == k
    {
      ToDriverkitDistroRoundTrip(k);
    }
    DistroFilterNeedsSupport(LegacyOptions(opts), re, d);
  }

  /** Without dry-run handling the loop never stops early on a match. */
  lemma {:induction false} LegacyNeverHalts<S>(opts: Options, re: RegexEngine,
      worker: (S, String, String) -> Step<S>, dv: String, prefix: String, pages: seq<Page>, s: S)
    ensures !PagesRun(LegacyOptions(opts), re, worker, dv, prefix, pages, s).flow.Halt?
    decreases |pages|
  {
    var o := LegacyOptions(opts);
    if pages != [] && pages[0].Page? {
      KeysRunIsFilesRun(o, re, worker, dv, prefix, pages[0].keys, s);
      FilesTrace(worker, dv, AcceptedPaths(o, re, prefix, pages[0].keys), s);
      var r := KeysRun(o, re, worker, dv, prefix, pages[0].keys, s);
      if r.flow.Next? {
        LegacyNeverHalts(opts, re, worker, dv, prefix, pages[1..], r.state);
      }
    }
  }

  /**
   * With every page fetched, the processor is called on a prefix of the accepted
   * paths in listing order, replaying those calls gives the final state and error,
   * and a run that returns nil processed every accepted path.
   */
  lemma LegacyTrace<S>(opts: Options, re: RegexEngine, pagesOf: String -> seq<Page>, dv: String,
                       processor: (S, String) -> Step<S>, s: S)
    requires NoPageError(pagesOf(LegacyPrefix(opts, dv)))
    ensures var prefix := LegacyPrefix(opts, dv);
      var o := LegacyOptions(opts);
      var r := PagesRun(o, re, PathWorker(processor), dv, prefix, pagesOf(prefix), s);
      var all := VisitsOf(dv, PagesPaths(o, re, prefix, pagesOf(prefix)));
      !r.flow.Halt? && |r.visits| <= |all| && r.visits == all[..|r.visits|] &&
      Replay(PathWorker(processor), s, r.visits) == Step(r.state, ErrorOf(r.flow)) &&
      (r.flow.Next? ==> r.visits == all)
  {
    var prefix := LegacyPrefix(opts, dv);
    var o := LegacyOptions(opts);
    PagesRunIsFilesRun(o, re, PathWorker(processor), dv, prefix, pagesOf(prefix), s);
    FilesTrace(PathWorker(processor), dv, PagesPaths(o, re, prefix, pagesOf(prefix)), s);
  }
}
