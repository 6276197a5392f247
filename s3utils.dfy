/**
 * The object-store looper and key addressing. Built drivers live under
 * `driver/{driverVersion}/{nonDebArch}/{driver}_{distro}_{kernelrelease}_{kernelversion}.{ko|o}`;
 * the looper lists each version's prefix page by page, decodes every key's basename,
 * filters the captures with the target and hands the survivors to a worker.
 * The bucket is an input: the pages listed under each prefix, and the answers of
 * `HeadObject`.
 */
module S3Utils {
  import opened Wrappers
  import opened Strings
  import opened Errors
  import opened Matching
  import opened Root
  import NameCodec

  /** One page of `ListObjectsV2`, or the error fetching it returned. Keys may be nil. */
  datatype Page = Page(keys: seq<Option<String>>) | PageError(e: Error)

  /** `driver/{dv}/{nonDebArch}`, the listing prefix of one driver version. */
  function Prefix(opts: Options, driverVersion: String): String {
    JoinPath(["driver", driverVersion, opts.nonDebArchitecture])
  }

  /** `driver/{dv}/{nonDebArch}/{key}`, the key `HeadDriver` and `putObject` address. */
  function ObjectKey(opts: Options, driverVersion: String, key: String): String {
    JoinPath([Prefix(opts, driverVersion), key])
  }

  /** With non-empty components the object key is the four components joined by '/'. */
  lemma ObjectKeyShape(opts: Options, dv: String, key: String)
    requires dv != "" && opts.nonDebArchitecture != "" && key != ""
    ensures ObjectKey(opts, dv, key) == "driver/" + dv + "/" + opts.nonDebArchitecture + "/" + key
    ensures NoSlash(key) ==> Base(ObjectKey(opts, dv, key)) == key
  {
    var p := Prefix(opts, dv);
    JoinPathOfThree("driver", dv, opts.nonDebArchitecture);
    JoinPathOfTwo(p, key);
    if NoSlash(key) {
      BaseOfChild(p, key);
    }
  }

  /** The captures of a listed key's basename under the `{driver}_` pattern, if it matches. */
  function KeyIdentity(opts: Options, objectKey: String): Option<NameCodec.Identity> {
    NameCodec.Decode(opts.driverName, Base(objectKey))
  }

  /** The key's basename matches and all three filters accept its captures. */
  predicate KeyAccepted(opts: Options, re: RegexEngine, objectKey: String) {
    var id := KeyIdentity(opts, objectKey);
    id.Some? && opts.Accepts(re, id.value)
  }

  /** The paths the worker would receive for a page's keys: the accepted ones, in order. */
  function AcceptedPaths(opts: Options, re: RegexEngine, prefix: String, keys: seq<Option<String>>)
    : (paths: seq<String>)
    ensures |paths| <= |keys|
  {
    if keys == [] then []
    else
      var rest := AcceptedPaths(opts, re, prefix, keys[1..]);
      if keys[0].Some? && KeyAccepted(opts, re, keys[0].value)
      then [JoinPath([prefix, Base(keys[0].value)])] + rest
      else rest
  }

  /**
   * The keys of one page, as the key loop treats them: nil, malformed and filtered-out
   * keys are skipped; an accepted key stops the loop in dry-run and otherwise goes to
   * the worker as `{prefix}/{basename}`, whose first error stops the loop.
   */
  function KeysRun<S>(opts: Options, re: RegexEngine, worker: (S, String, String) -> Step<S>,
                      dv: String, prefix: String, keys: seq<Option<String>>, s: S): Run<S>
    decreases |keys|
  {
    if keys == [] then Run(s, Next, [])
    else if keys[0].None? || !KeyAccepted(opts, re, keys[0].value) then
      KeysRun(opts, re, worker, dv, prefix, keys[1..], s)
    else if opts.dryRun then Run(s, Halt, [])
    else
      var path := JoinPath([prefix, Base(keys[0].value)]);
      var st := worker(s, dv, path);
      if st.err.Some? then Run(st.state, Fail(st.err.value), [Visit(dv, path)])
      else Prepend([Visit(dv, path)], KeysRun(opts, re, worker, dv, prefix, keys[1..], st.state))
  }

  /** The pages of one prefix in order; a page error stops the loop. */
  function PagesRun<S>(opts: Options, re: RegexEngine, worker: (S, String, String) -> Step<S>,
                       dv: String, prefix: String, pages: seq<Page>, s: S): Run<S>
    decreases |pages|
  {
    if pages == [] then Run(s, Next, [])
    else match pages[0]
      case PageError(e) => Run(s, Fail(e), [])
      case Page(keys) =>
        var r := KeysRun(opts, re, worker, dv, prefix, keys, s);
        if !r.flow.Next? then r
        else Prepend(r.visits, PagesRun(opts, re, worker, dv, prefix, pages[1..], r.state))
  }

  /** The driver versions in order, each listed under its own prefix. */
  function BucketRun<S>(opts: Options, re: RegexEngine, pagesOf: String -> seq<Page>,
                        worker: (S, String, String) -> Step<S>, versions: seq<String>, s: S): Run<S>
    decreases |versions|
  {
    if versions == [] then Run(s, Next, [])
    else
      var prefix := Prefix(opts, versions[0]);
      var r := PagesRun(opts, re, worker, versions[0], prefix, pagesOf(prefix), s);
      if !r.flow.Next? then r
      else Prepend(r.visits, BucketRun(opts, re, pagesOf, worker, versions[1..], r.state))
  }

  /**
   * The paginated key loop over one prefix, which both object-store loopers run: for
   * each page, for each key. Returns the final worker state and how the loop ended,
   * so the caller can return at once on a dry-run stop or an error.
   */
  method LoopPages<S>(opts: Options, re: RegexEngine, worker: (S, String, String) -> Step<S>,
                      dv: String, prefix: String, pages: seq<Page>, s0: S)
    returns (s: S, flow: Flow)
    ensures var r := PagesRun(opts, re, worker, dv, prefix, pages, s0);
      s == r.state && flow == r.flow
  {
    ghost var spec := PagesRun(opts, re, worker, dv, prefix, pages, s0);
    ghost var visits: seq<Visit> := [];
    s := s0;
    var p := 0;
    while p < |pages|
      invariant 0 <= p <= |pages|
      invariant spec == Prepend(visits, PagesRun(opts, re, worker, dv, prefix, pages[p..], s))
    {
      assert pages[p..][1..] == pages[p + 1..];
      if pages[p].PageError? {
        return s, Fail(pages[p].e);
      }
      var keys := pages[p].keys;
      ghost var onPage := KeysRun(opts, re, worker, dv, prefix, keys, s).visits;
      var flow';
      s, flow' := LoopKeys(opts, re, worker, dv, prefix, keys, s);
      if !flow'.Next? {
        return s, flow';
      }
      PrependPrepend(visits, onPage, PagesRun(opts, re, worker, dv, prefix, pages[p + 1..], s));
      visits := visits + onPage;
      p := p + 1;
    }
    flow := Next;
  }

  /**
   * The key loop of one page: nil, malformed and filtered-out keys are skipped, dry-run
   * stops at the first accepted key, and the first worker error stops the loop.
   */
  method LoopKeys<S>(opts: Options, re: RegexEngine, worker: (S, String, String) -> Step<S>,
                     dv: String, prefix: String, keys: seq<Option<String>>, s0: S)
    returns (s: S, flow: Flow)
    ensures var r := KeysRun(opts, re, worker, dv, prefix, keys, s0);
      s == r.state && flow == r.flow
  {
    ghost var visits: seq<Visit> := [];
    s := s0;
    var k := 0;
    while k < |keys|
      invariant 0 <= k <= |keys|
      invariant KeysRun(opts, re, worker, dv, prefix, keys, s0) ==
        Prepend(visits, KeysRun(opts, re, worker, dv, prefix, keys[k..], s))
    {
      assert keys[k..][1..] == keys[k + 1..];
      if keys[k].None? || !KeyAccepted(opts, re, keys[k].value) {
        k := k + 1;
        continue;
      }
      if opts.dryRun {
        return s, Halt;
      }
      var path := JoinPath([prefix, Base(keys[k].value)]);
      var st := worker(s, dv, path);
      if st.err.Some? {
        return st.state, Fail(st.err.value);
      }
      PrependPrepend(visits, [Visit(dv, path)],
        KeysRun(opts, re, worker, dv, prefix, keys[k + 1..], st.state));
      visits := visits + [Visit(dv, path)];
      s := st.state;
      k := k + 1;
    }
    flow := Next;
  }

  /**
   * `Client.LoopFiltered`: for each driver version, the paginated key loop over its
   * prefix; returns the final worker state and the error the Go code returns.
   */
  method LoopFiltered<S>(opts: Options, re: RegexEngine, pagesOf: String -> seq<Page>,
                         worker: (S, String, String) -> Step<S>, s0: S)
    returns (s: S, err: Option<Error>)
    ensures var r := BucketRun(opts, re, pagesOf, worker, opts.driverVersions, s0);
      s == r.state && err == ErrorOf(r.flow)
  {
    var versions := opts.driverVersions;
    ghost var spec := BucketRun(opts, re, pagesOf, worker, versions, s0);
    ghost var visits: seq<Visit> := [];
    s := s0;
    var i := 0;
    while i < |versions|
      invariant 0 <= i <= |versions|
      invariant spec == Prepend(visits, BucketRun(opts, re, pagesOf, worker, versions[i..], s))
    {
      var dv := versions[i];
      assert versions[i..][1..] == versions[i + 1..];
      var prefix := Prefix(opts, dv);
      ghost var r := PagesRun(opts, re, worker, dv, prefix, pagesOf(prefix), s);
      var flow;
      s, flow := LoopPages(opts, re, worker, dv, prefix, pagesOf(prefix), s);
      if !flow.Next? {
        return s, ErrorOf(flow);
      }
      PrependPrepend(visits, r.visits, BucketRun(opts, re, pagesOf, worker, versions[i + 1..], s));
      visits := visits + r.visits;
      i := i + 1;
    }
    err := None;
  }

  // ---------------------------------------------------------------------------
  // Properties of the looper

  /**
   * The key loop is the file loop over the accepted paths: skipping rejected keys is
   * filtering them out first.
   */
  lemma {:induction false} KeysRunIsFilesRun<S>(opts: Options, re: RegexEngine,
      worker: (S, String, String) -> Step<S>, dv: String, prefix: String,
      keys: seq<Option<String>>, s: S)
    ensures KeysRun(opts, re, worker, dv, prefix, keys, s) ==
      FilesRun(opts.dryRun, worker, dv, AcceptedPaths(opts, re, prefix, keys), s)
    decreases |keys|
  {
    if keys != [] {
      if keys[0].None? || !KeyAccepted(opts, re, keys[0].value) {
        KeysRunIsFilesRun(opts, re, worker, dv, prefix, keys[1..], s);
      } else if !opts.dryRun {
        var path := JoinPath([prefix, Base(keys[0].value)]);
        var st := worker(s, dv, path);
        KeysRunIsFilesRun(opts, re, worker, dv, prefix, keys[1..], st.state);
        assert AcceptedPaths(opts, re, prefix, keys)[1..] == AcceptedPaths(opts, re, prefix, keys[1..]);
      }
    }
  }

  predicate NoPageError(pages: seq<Page>) {
    forall i :: 0 <= i < |pages| ==> pages[i].Page?
  }

  /** The accepted paths of all pages, in listing order. */
  function PagesPaths(opts: Options, re: RegexEngine, prefix: String, pages: seq<Page>): seq<String>
    decreases |pages|
  {
    if pages == [] then []
    else match pages[0]
      case PageError(_) => PagesPaths(opts, re, prefix, pages[1..])
      case Page(keys) => AcceptedPaths(opts, re, prefix, keys) + PagesPaths(opts, re, prefix, pages[1..])
  }

  /** With every page fetched, the page loop is the file loop over all accepted paths. */
  lemma {:induction false} PagesRunIsFilesRun<S>(opts: Options, re: RegexEngine,
      worker: (S, String, String) -> Step<S>, dv: String, prefix: String, pages: seq<Page>, s: S)
    requires NoPageError(pages)
    ensures PagesRun(opts, re, worker, dv, prefix, pages, s) ==
      FilesRun(opts.dryRun, worker, dv, PagesPaths(opts, re, prefix, pages), s)
    decreases |pages|
  {
    if pages != [] {
      assert pages[0].Page?;
      var keys := pages[0].keys;
      var a := AcceptedPaths(opts, re, prefix, keys);
      var b := PagesPaths(opts, re, prefix, pages[1..]);
      KeysRunIsFilesRun(opts, re, worker, dv, prefix, keys, s);
      FilesRunAppend(opts.dryRun, worker, dv, a, b, s);
      var r := FilesRun(opts.dryRun, worker, dv, a, s);
      if r.flow.Next? {
        assert NoPageError(pages[1..]);
        PagesRunIsFilesRun(opts, re, worker, dv, prefix, pages[1..], r.state);
      }
    }
  }

  /**
   * A page error stops the loop: after a run of good pages that ran to the end, the
   * error is returned, and no key of that page or of a later one reaches the worker.
   */
  lemma {:induction false} PageErrorAborts<S>(opts: Options, re: RegexEngine,
      worker: (S, String, String) -> Step<S>, dv: String, prefix: String,
      good: seq<Page>, e: Error, rest: seq<Page>, s: S)
    requires NoPageError(good)
    requires PagesRun(opts, re, worker, dv, prefix, good, s).flow.Next?
    ensures var r := PagesRun(opts, re, worker, dv, prefix, good, s);
      PagesRun(opts, re, worker, dv, prefix, good + [PageError(e)] + rest, s) ==
        Run(r.state, Fail(e), r.visits)
    decreases |good|
  {
    var all := good + [PageError(e)] + rest;
    if good == [] {
      assert all[0] == PageError(e);
    } else {
      assert all[0] == good[0];
      assert all[1..] == good[1..] + [PageError(e)] + rest;
      var r1 := KeysRun(opts, re, worker, dv, prefix, good[0].keys, s);
      assert NoPageError(good[1..]);
      PageErrorAborts(opts, re, worker, dv, prefix, good[1..], e, rest, r1.state);
    }
  }

  /** Every prefix the run lists can be fetched completely. */
  predicate PagesFetchable(opts: Options, pagesOf: String -> seq<Page>, versions: seq<String>) {
    forall dv :: dv in versions ==> NoPageError(pagesOf(Prefix(opts, dv)))
  }

  /** The worker calls a run without page or worker errors would make, in order. */
  function BucketCandidates(opts: Options, re: RegexEngine, pagesOf: String -> seq<Page>,
                            versions: seq<String>): seq<Visit>
    decreases |versions|
  {
    if versions == [] then []
    else
      var prefix := Prefix(opts, versions[0]);
      VisitsOf(versions[0], PagesPaths(opts, re, prefix, pagesOf(prefix))) +
      BucketCandidates(opts, re, pagesOf, versions[1..])
  }

  /**
   * Dry-run: the worker is never called and the state is untouched; when every page
   * can be fetched, the loop returns nil and it stops early exactly when some key
   * passes the filters.
   */
  lemma {:induction false} BucketDryRun<S>(opts: Options, re: RegexEngine, pagesOf: String -> seq<Page>,
      worker: (S, String, String) -> Step<S>, versions: seq<String>, s: S)
    requires opts.dryRun
    ensures var r := BucketRun(opts, re, pagesOf, worker, versions, s);
      r.visits == [] && r.state == s
    ensures PagesFetchable(opts, pagesOf, versions) ==>
      var r := BucketRun(opts, re, pagesOf, worker, versions, s);
      !r.flow.Fail? && (r.flow.Halt? <==> BucketCandidates(opts, re, pagesOf, versions) != [])
    decreases |versions|
  {
    if versions != [] {
      var dv := versions[0];
      var prefix := Prefix(opts, dv);
      DryRunPages(opts, re, worker, dv, prefix, pagesOf(prefix), s);
      BucketDryRun(opts, re, pagesOf, worker, versions[1..], s);
      if PagesFetchable(opts, pagesOf, versions) {
        assert NoPageError(pagesOf(prefix));
        assert PagesFetchable(opts, pagesOf, versions[1..]);
        PagesRunIsFilesRun(opts, re, worker, dv, prefix, pagesOf(prefix), s);
        DryRunFilesCallsNothing(worker, dv, PagesPaths(opts, re, prefix, pagesOf(prefix)), s);
      }
    }
  }

  lemma {:induction false} DryRunPages<S>(opts: Options, re: RegexEngine,
      worker: (S, String, String) -> Step<S>, dv: String, prefix: String, pages: seq<Page>, s: S)
    requires opts.dryRun
    ensures var r := PagesRun(opts, re, worker, dv, prefix, pages, s);
      r.visits == [] && r.state == s
    decreases |pages|
  {
    if pages != [] && pages[0].Page? {
      KeysRunIsFilesRun(opts, re, worker, dv, prefix, pages[0].keys, s);
      DryRunFilesCallsNothing(worker, dv, AcceptedPaths(opts, re, prefix, pages[0].keys), s);
      DryRunPages(opts, re, worker, dv, prefix, pages[1..], s);
    }
  }

  /**
   * Outside dry-run, with every page fetchable: the worker is called on a prefix of the
   * accepted keys (versions, then pages, then keys, in order), replaying those calls
   * gives the final state and error, a run returning nil called it on every accepted
   * key, and a failing run stopped at its first worker error.
   */
  lemma {:induction false} BucketTrace<S>(opts: Options, re: RegexEngine, pagesOf: String -> seq<Page>,
      worker: (S, String, String) -> Step<S>, versions: seq<String>, s: S)
    requires !opts.dryRun && PagesFetchable(opts, pagesOf, versions)
    ensures var r := BucketRun(opts, re, pagesOf, worker, versions, s);
      var all := BucketCandidates(opts, re, pagesOf, versions);
      !r.flow.Halt? && |r.visits| <= |all| && r.visits == all[..|r.visits|] &&
      Replay(worker, s, r.visits) == Step(r.state, ErrorOf(r.flow)) &&
      (r.flow.Next? ==> r.visits == all) &&
      (r.flow.Fail? ==> r.visits != [] && !ReplayStopsEarly(worker, s, r.visits))
    decreases |versions|
  {
    if versions != [] {
      var dv := versions[0];
      var prefix := Prefix(opts, dv);
      var files := PagesPaths(opts, re, prefix, pagesOf(prefix));
      assert NoPageError(pagesOf(prefix));
      PagesRunIsFilesRun(opts, re, worker, dv, prefix, pagesOf(prefix), s);
      FilesTraced(worker, dv, files, s);
      var r1 := FilesRun(false, worker, dv, files, s);
      var rest := BucketCandidates(opts, re, pagesOf, versions[1..]);
      assert BucketCandidates(opts, re, pagesOf, versions) == VisitsOf(dv, files) + rest;
      if r1.flow.Next? {
        assert PagesFetchable(opts, pagesOf, versions[1..]);
        BucketTrace(opts, re, pagesOf, worker, versions[1..], r1.state);
        var r2 := BucketRun(opts, re, pagesOf, worker, versions[1..], r1.state);
        TracedAppend(worker, s, r1.visits, r1.state, VisitsOf(dv, files), r2.visits, r2.state, r2.flow, rest);
      } else {
        TracedExtend(worker, s, r1.visits, r1.state, r1.flow, VisitsOf(dv, files), rest);
      }
    }
  }

  /** Only keys whose captures pass all three filters reach the worker. */
  lemma {:induction false} AcceptedPathsAreAccepted(opts: Options, re: RegexEngine, prefix: String,
                                                    keys: seq<Option<String>>)
    ensures forall p :: p in AcceptedPaths(opts, re, prefix, keys) ==>
      exists k :: Some(k) in keys && KeyAccepted(opts, re, k) && p == JoinPath([prefix, Base(k)])
    decreases |keys|
  {
    if keys != [] {
      AcceptedPathsAreAccepted(opts, re, prefix, keys[1..]);
      forall p | p in AcceptedPaths(opts, re, prefix, keys)
        ensures exists k :: Some(k) in keys && KeyAccepted(opts, re, k) && p == JoinPath([prefix, Base(k)])
      {
        if p !in AcceptedPaths(opts, re, prefix, keys[1..]) {
          assert Some(keys[0].value) == keys[0];
        } else {
          var k :| Some(k) in keys[1..] && KeyAccepted(opts, re, k) && p == JoinPath([prefix, Base(k)]);
          assert Some(k) in keys;
        }
      }
    }
  }

  /**
   * A key stored under any folder with the basename of a built driver,
   * `{driver}_{Encode(id)}{.o|.ko}`, decodes back to `id`, and it is accepted exactly
   * when the target's filters accept `id`; stated for a driver name without regex
   * metacharacters and for newline-free release and version.
   */
  lemma EncodedKeyAccepted(opts: Options, re: RegexEngine, dir: String, id: NameCodec.Identity, ext: String)
    requires NameCodec.LiteralPattern(opts.driverName)
    requires NameCodec.IsExtension(ext) && NameCodec.IsDistroName(id.distro)
    requires NoChar(id.kernelVersion, '_')
    requires NoChar(id.kernelRelease, '\n') && NoChar(id.kernelVersion, '\n')
    requires NoSlash(opts.driverName + "_" + NameCodec.Encode(id) + ext)
    ensures KeyIdentity(opts, dir + "/" + opts.driverName + "_" + NameCodec.Encode(id) + ext) == Some(id)
    ensures KeyAccepted(opts, re, dir + "/" + opts.driverName + "_" + NameCodec.Encode(id) + ext)
      <==> opts.Accepts(re, id)
  {
    var base := opts.driverName + "_" + NameCodec.Encode(id) + ext;
    assert dir + "/" + opts.driverName + "_" + NameCodec.Encode(id) + ext == dir + "/" + base;
    BaseOfChild(dir, base);
    NameCodec.DecodeEncode(opts.driverName, id, ext);
  }

  // ---------------------------------------------------------------------------
  // HeadDriver and putObject

  /** What `HeadObject` answers for a key. */
  datatype HeadResponse = Found | NotFound | HeadError(e: Error)

  /** `HeadDriver`: true iff a non-nil object comes back; errors count as absent. */
  function HeadDriver(opts: Options, head: String -> HeadResponse, driverVersion: String, key: String)
    : (found: bool)
    ensures found <==> head(ObjectKey(opts, driverVersion, key)) == Found
  {
    head(ObjectKey(opts, driverVersion, key)).Found?
  }

  /**
   * `putObject` on a bucket holding `objects`: the body is stored under the object key,
   * or the upload fails with `failure` and the bucket is unchanged.
   */
  function PutObject(objects: map<String, String>, opts: Options, driverVersion: String, key: String,
                     body: String, failure: Option<Error>): (r: Result<map<String, String>, Error>)
    ensures failure.Some? <==> r.Failure?
    ensures r.Success? ==> r.value.Keys == objects.Keys + {ObjectKey(opts, driverVersion, key)}
    ensures r.Success? ==> r.value[ObjectKey(opts, driverVersion, key)] == body
    ensures r.Success? ==> forall k :: k in objects && k != ObjectKey(opts, driverVersion, key) ==>
      r.value[k] == objects[k]
  {
    if failure.Some? then Failure(failure.value)
    else Success(objects[ObjectKey(opts, driverVersion, key) := body])
  }

  /**
   * `HeadDriver` finds what `putObject` stored: both address the same object key, so
   * after a successful upload a head answered from the bucket reports it present.
   */
  lemma PutThenHead(objects: map<String, String>, opts: Options, dv: String, key: String, body: String,
                    head: String -> HeadResponse)
    requires var r := PutObject(objects, opts, dv, key, body, None);
      forall k :: head(k) == Found <==> k in r.value
    ensures HeadDriver(opts, head, dv, key)
  {
  }

  /** The path the looper hands the worker is the object key of the key's basename. */
  lemma WorkerPathIsObjectKey(opts: Options, dv: String, objectKey: String)
    ensures JoinPath([Prefix(opts, dv), Base(objectKey)]) == ObjectKey(opts, dv, Base(objectKey))
  {
  }
}
