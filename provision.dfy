/** The provisioning run of the action (src/main.ts): read the inputs,
    resolve the WordPress version, look both artifacts up in the tool cache
    and the remote cache, download what is missing, write the test
    configuration and publish the locations.

    The process state the run changes is a `Runner`: the inputs record
    (which `resolveSemVer` updates in place), the `GITHUB_WORKSPACE`
    variable, the saved state handed to the post step, the paths that exist
    under the work directory, and the log of effects in the order they
    happen.  Everything that talks to the outside world (the feed, the
    caches, downloads, checkouts, `coerce`) is a parameter carrying its
    outcome. */
module Provision {

  import opened Wrappers
  import opened Text
  import WpApi
  import WpUtils
  import Template

  // ---------------------------------------------------------------------
  // Inputs
  // ---------------------------------------------------------------------

  /** What `getInputs` reads: the trimmed text inputs, the temporary
      directory, and the environment facts behind the two cache flags. */
  datatype Given = Given(
    version: string, cachePrefix: string, dir: string,
    dbUser: string, dbPassword: string, dbName: string, dbHost: string,
    tmpdir: string,
    cacheFeature: bool,               // cache.isFeatureAvailable()
    ghes: bool,                       // isGHES()
    runnerToolCache: Option<string>)  // process.env.RUNNER_TOOL_CACHE

  /** The `Inputs` record of src/main.ts. */
  datatype Inputs = Inputs(
    version: string, dir: string, cachePrefix: string,
    dbUser: string, dbPassword: string, dbName: string, dbHost: string,
    hasCache: bool, hasToolcache: bool,
    semver: Option<string>)

  /** `s || fallback` on strings: the empty string is falsy. */
  function Or(s: string, fallback: string): string {
    if s == "" then fallback else s
  }

  /** `getInputs`. */
  function GetInputs(g: Given): (i: Inputs)
    ensures i.version != "" && i.dbUser != "" && i.dbPassword != "" && i.dbName != "" && i.dbHost != ""
    ensures i.hasCache <==> g.cacheFeature && !g.ghes
    ensures i.hasToolcache <==> g.runnerToolCache.Some?
    ensures i.semver == None
  {
    Inputs(
      version := Or(g.version, "latest"),
      dir := Or(g.dir, g.tmpdir),
      cachePrefix := Or(g.cachePrefix, ""),
      dbUser := Or(g.dbUser, "wordpress"),
      dbPassword := Or(g.dbPassword, "wordpress"),
      dbName := Or(g.dbName, "wordpress_test"),
      dbHost := Or(g.dbHost, "127.0.0.1"),
      hasCache := g.cacheFeature && !g.ghes,
      hasToolcache := g.runnerToolCache.Some?,
      semver := None)
  }

  /** Each empty input falls back to its default; a non-empty one is kept verbatim. */
  lemma InputDefaults(g: Given)
    ensures var i := GetInputs(g);
            (g.version == "" ==> i.version == "latest") && (g.version != "" ==> i.version == g.version) &&
            i.cachePrefix == g.cachePrefix &&
            (g.dir == "" ==> i.dir == g.tmpdir) && (g.dir != "" ==> i.dir == g.dir) &&
            (g.dbUser == "" ==> i.dbUser == "wordpress") && (g.dbUser != "" ==> i.dbUser == g.dbUser) &&
            (g.dbPassword == "" ==> i.dbPassword == "wordpress") && (g.dbPassword != "" ==> i.dbPassword == g.dbPassword) &&
            (g.dbName == "" ==> i.dbName == "wordpress_test") && (g.dbName != "" ==> i.dbName == g.dbName) &&
            (g.dbHost == "" ==> i.dbHost == "127.0.0.1") && (g.dbHost != "" ==> i.dbHost == g.dbHost)
  {
  }

  // ---------------------------------------------------------------------
  // The semver policy
  // ---------------------------------------------------------------------

  /** A semver value JavaScript treats as true: defined and not empty. */
  predicate Truthy(semver: Option<string>) {
    semver.Some? && semver.value != ""
  }

  /** `coerce(version)?.format()`; `coerce` of undefined is null. */
  function CoercedSemVer(version: Option<string>, coerce: string -> Option<string>): Option<string> {
    match version
    case None => None
    case Some(v) => coerce(v)
  }

  /** `resolveSemVer` on the record: store the semver, and without one
      switch both caches off. */
  function WithSemVer(i: Inputs, semver: Option<string>): (r: Inputs)
    ensures r.semver == semver
    ensures r.hasCache ==> Truthy(semver)
    ensures r.hasToolcache ==> Truthy(semver)
    ensures Truthy(semver) ==> r.hasCache == i.hasCache && r.hasToolcache == i.hasToolcache
    ensures r.(hasCache := i.hasCache, hasToolcache := i.hasToolcache, semver := i.semver) == i
  {
    var r := i.(semver := semver);
    if Truthy(semver) then r else r.(hasCache := false, hasToolcache := false)
  }

  /** The flags can only be on together with a semver. */
  predicate CachingNeedsSemVer(i: Inputs) {
    (i.hasCache || i.hasToolcache) ==> Truthy(i.semver)
  }

  /** Resolving a semver establishes the policy, whatever the flags were. */
  lemma SemVerPolicy(i: Inputs, semver: Option<string>)
    ensures CachingNeedsSemVer(WithSemVer(i, semver))
    ensures !Truthy(semver) ==> !WithSemVer(i, semver).hasCache && !WithSemVer(i, semver).hasToolcache
  {
  }

  // ---------------------------------------------------------------------
  // Cache keys, saved state, paths
  // ---------------------------------------------------------------------

  const WordPressTool := "wordpress"
  const TestLibraryTool := "wordpress-tests-lib"

  /** `1:${cache_prefix}:${tool}:${semver}`. */
  function CacheKey(prefix: string, tool: string, semver: Option<string>): (key: string)
    ensures StartsWith(key, "1:" + prefix + ":" + tool + ":")
    ensures key[|"1:" + prefix + ":" + tool + ":"|..] == Rendered(semver)
  {
    var head := "1:" + prefix + ":" + tool + ":";
    var key := head + Rendered(semver);
    assert key[..|head|] == head;
    assert key[|head|..] == Rendered(semver);
    key
  }

  /** Two releases of the same tool never share a cache entry: the key
      determines the rendered semver. */
  lemma KeySeparatesVersions(prefix: string, tool: string, a: Option<string>, b: Option<string>)
    requires CacheKey(prefix, tool, a) == CacheKey(prefix, tool, b)
    ensures Rendered(a) == Rendered(b)
  {
  }

  /** The two artifacts' keys share prefix and semver but never coincide. */
  lemma ToolKeysDiffer(prefix: string, semver: Option<string>)
    ensures CacheKey(prefix, WordPressTool, semver) != CacheKey(prefix, TestLibraryTool, semver)
  {
    var n := |"1:" + prefix + ":" + WordPressTool|;
    assert CacheKey(prefix, WordPressTool, semver)[n] == ':';
    assert CacheKey(prefix, TestLibraryTool, semver)[n] == '-';
  }

  /** The saved-state names `dir_<tool>` and `cache_key_<tool>`. */
  function DirState(tool: string): string { "dir_" + tool }
  function KeyState(tool: string): string { "cache_key_" + tool }

  /** Removing the archive leaves the unpacked directory beside it alone. */
  lemma ArchiveApart(dir: string)
    ensures PathJoin(dir, WordPressTool) != PathJoin(dir, "wordpress.zip")
    ensures !StartsWith(PathJoin(dir, WordPressTool), PathJoin(dir, "wordpress.zip") + "/")
  {
    assert |PathJoin(dir, WordPressTool)| < |PathJoin(dir, "wordpress.zip")|;
  }

  /** Both checkouts of the test library exist, without their `.svn` directories. */
  predicate CheckedOutClean(paths: set<string>, dir: string) {
    var lib := PathJoin(dir, TestLibraryTool);
    PathJoin(lib, "includes") in paths && PathJoin(lib, "data") in paths &&
    PathJoin(PathJoin(lib, "includes"), ".svn") !in paths &&
    PathJoin(PathJoin(lib, "data"), ".svn") !in paths
  }

  /** Removing either checkout's `.svn` leaves both checkouts alone. */
  lemma LibraryApart(lib: string)
    ensures var includes, data := PathJoin(lib, "includes"), PathJoin(lib, "data");
            forall svn :: svn in {PathJoin(includes, ".svn"), PathJoin(data, ".svn")} ==>
              includes != svn && data != svn &&
              !StartsWith(includes, svn + "/") && !StartsWith(data, svn + "/")
  {
    var includes, data := PathJoin(lib, "includes"), PathJoin(lib, "data");
    assert includes[|lib| + 1] == 'i' && PathJoin(data, ".svn")[|lib| + 1] == 'd';
  }

  /** `rmRF(p)`: p and everything below it is gone. */
  function Removed(paths: set<string>, p: string): (r: set<string>)
    ensures p !in r && r <= paths
  {
    set q | q in paths && q != p && !StartsWith(q, p + "/")
  }

  /** Nothing below a removed path survives. */
  lemma RemovedBelow(paths: set<string>, p: string, q: string)
    requires StartsWith(q, p + "/")
    ensures q !in Removed(paths, p)
  {
  }

  /** A path that is neither the removed one nor below it survives. */
  lemma RemovedKeeps(paths: set<string>, p: string, q: string)
    requires q in paths && q != p && !StartsWith(q, p + "/")
    ensures q in Removed(paths, p)
  {
  }

  /** Removing both `.svn` directories of fresh checkouts leaves the checkouts clean. */
  lemma SvnRemoved(paths: set<string>, dir: string)
    requires var lib := PathJoin(dir, TestLibraryTool);
             PathJoin(lib, "includes") in paths && PathJoin(lib, "data") in paths
    ensures var lib := PathJoin(dir, TestLibraryTool);
            CheckedOutClean(Removed(Removed(paths, PathJoin(PathJoin(lib, "includes"), ".svn")),
                                    PathJoin(PathJoin(lib, "data"), ".svn")), dir)
  {
    var lib := PathJoin(dir, TestLibraryTool);
    var includes, data := PathJoin(lib, "includes"), PathJoin(lib, "data");
    LibraryApart(lib);
    RemovedKeeps(paths, PathJoin(includes, ".svn"), includes);
    RemovedKeeps(paths, PathJoin(includes, ".svn"), data);
    var once := Removed(paths, PathJoin(includes, ".svn"));
    RemovedKeeps(once, PathJoin(data, ".svn"), includes);
    RemovedKeeps(once, PathJoin(data, ".svn"), data);
  }

  /** `p` is `root` or lies below it. */
  predicate Within(p: string, root: string) {
    p == root || StartsWith(p, root + "/")
  }

  /** From one state to the next nothing outside `root` appeared or vanished. */
  ghost predicate KeptOutside(before: set<string>, after: set<string>, root: string) {
    forall p :: !Within(p, root) ==> (p in after <==> p in before)
  }

  /** Nothing outside the three locations `run` clears and fills changed:
      the WordPress directory, the test library and the archive. */
  ghost predicate KeptApartFromArtifacts(before: set<string>, after: set<string>, dir: string) {
    forall p ::
      (!Within(p, PathJoin(dir, WordPressTool)) && !Within(p, PathJoin(dir, TestLibraryTool)) &&
       !Within(p, PathJoin(dir, "wordpress.zip"))) ==> (p in after <==> p in before)
  }

  /** The file `configureWordPress` writes. */
  function ConfigFile(dir: string): string {
    PathJoin(PathJoin(dir, TestLibraryTool), "wp-tests-config.php")
  }

  /** What a successful run leaves in the work directory: both artifacts
      and the configuration, and no archive. */
  predicate Provisioned(paths: set<string>, dir: string) {
    PathJoin(dir, WordPressTool) in paths && PathJoin(dir, TestLibraryTool) in paths &&
    ConfigFile(dir) in paths && PathJoin(dir, "wordpress.zip") !in paths
  }

  /** The configuration `configureWordPress` writes for a sample. */
  function Configured(i: Inputs, sample: string): string
    requires Template.Literal(i.dbName) && Template.Literal(i.dbUser)
    requires Template.Literal(i.dbPassword) && Template.Literal(i.dbHost)
    requires Template.Literal(i.dir)
  {
    Template.Configure(sample, i.dbName, i.dbUser, i.dbPassword, i.dbHost, i.dir)
  }

  /** A name joined to a directory lies below it. */
  lemma JoinWithin(root: string, name: string)
    ensures Within(PathJoin(root, name), root)
  {
    assert PathJoin(root, name)[..|root + "/"|] == root + "/";
  }

  /** What lies below something below `root` lies below `root`. */
  lemma WithinTrans(p: string, q: string, root: string)
    requires Within(p, q) && Within(q, root)
    ensures Within(p, root)
  {
    if p != q && q != root {
      assert p[..|q + "/"|] == q + "/";
      assert q[..|root + "/"|] == root + "/";
      assert p[..|root + "/"|] == q[..|root + "/"|];
    } else if p != q {
      assert p[..|root + "/"|] == root + "/";
    }
  }

  /** The WordPress directory and the archive lie outside the test library,
      the configuration file inside it. */
  lemma ArtifactsApart(dir: string)
    ensures !Within(PathJoin(dir, WordPressTool), PathJoin(dir, TestLibraryTool))
    ensures !Within(PathJoin(dir, "wordpress.zip"), PathJoin(dir, TestLibraryTool))
    ensures !Within(PathJoin(dir, WordPressTool), PathJoin(dir, "wordpress.zip"))
    ensures Within(ConfigFile(dir), PathJoin(dir, TestLibraryTool))
  {
    JoinWithin(PathJoin(dir, TestLibraryTool), "wp-tests-config.php");
  }

  /** Adding paths below `root` keeps everything outside it. */
  lemma AddedWithin(paths: set<string>, extra: set<string>, root: string)
    requires forall e :: e in extra ==> Within(e, root)
    ensures KeptOutside(paths, paths + extra, root)
  {
  }

  /** Removing a path below `root` keeps everything outside it. */
  lemma RemovedWithin(paths: set<string>, q: string, root: string)
    requires Within(q, root)
    ensures KeptOutside(paths, Removed(paths, q), root)
  {
    forall p | !Within(p, root) && p in paths
      ensures p in Removed(paths, q)
    {
      if Within(p, q) {
        WithinTrans(p, q, root);
      }
    }
  }

  /** Everything a checkout creates lies inside the test library. */
  lemma CheckoutsWithin(paths: set<string>, lib: string)
    ensures var includes, data := PathJoin(lib, "includes"), PathJoin(lib, "data");
            KeptOutside(paths, paths + {lib, includes, PathJoin(includes, ".svn"), data, PathJoin(data, ".svn")}, lib)
  {
    var includes, data := PathJoin(lib, "includes"), PathJoin(lib, "data");
    JoinWithin(lib, "includes");
    JoinWithin(lib, "data");
    JoinWithin(includes, ".svn");
    JoinWithin(data, ".svn");
    WithinTrans(PathJoin(includes, ".svn"), includes, lib);
    WithinTrans(PathJoin(data, ".svn"), data, lib);
    AddedWithin(paths, {lib, includes, PathJoin(includes, ".svn"), data, PathJoin(data, ".svn")}, lib);
  }

  /** Removing both `.svn` directories keeps everything outside the test
      library, and the library itself. */
  lemma SvnRemovedWithin(paths: set<string>, lib: string)
    requires lib in paths
    ensures var includes, data := PathJoin(lib, "includes"), PathJoin(lib, "data");
            var after := Removed(Removed(paths, PathJoin(includes, ".svn")), PathJoin(data, ".svn"));
            KeptOutside(paths, after, lib) && lib in after
  {
    var includes, data := PathJoin(lib, "includes"), PathJoin(lib, "data");
    var once := Removed(paths, PathJoin(includes, ".svn"));
    JoinWithin(lib, "includes");
    JoinWithin(lib, "data");
    JoinWithin(includes, ".svn");
    JoinWithin(data, ".svn");
    WithinTrans(PathJoin(includes, ".svn"), includes, lib);
    WithinTrans(PathJoin(data, ".svn"), data, lib);
    RemovedWithin(paths, PathJoin(includes, ".svn"), lib);
    RemovedWithin(once, PathJoin(data, ".svn"), lib);
    KeptOutsideChain(paths, once, Removed(once, PathJoin(data, ".svn")), lib);
    assert |lib| < |PathJoin(includes, ".svn")| && |lib| < |PathJoin(data, ".svn")|;
  }

  /** Steps that each keep what is outside `root` together keep it. */
  lemma KeptOutsideChain(a: set<string>, b: set<string>, c: set<string>, root: string)
    requires KeptOutside(a, b, root) && KeptOutside(b, c, root)
    ensures KeptOutside(a, c, root)
  {
  }

  /** Removing the archive from a state that gained at most the archive and
      the WordPress directory: everything outside the archive is kept, and
      at most the WordPress directory is new. */
  lemma RemovedBounds(before: set<string>, mid: set<string>, zip: string, wpdir: string)
    requires before <= mid <= before + {zip, wpdir}
    requires !Within(wpdir, zip)
    ensures Removed(before, zip) <= Removed(mid, zip) <= Removed(before, zip) + {wpdir}
  {
  }

  /** Downloading WordPress, bounded as above, touches no other artifact
      and leaves no archive. */
  lemma WordPressStepKept(before: set<string>, after: set<string>, dir: string)
    requires var zip, wpdir := PathJoin(dir, "wordpress.zip"), PathJoin(dir, WordPressTool);
             Removed(before, zip) <= after <= Removed(before, zip) + {wpdir}
    ensures KeptApartFromArtifacts(before, after, dir)
    ensures PathJoin(dir, "wordpress.zip") !in after
  {
  }

  /** A step confined to the test library keeps the other artifacts as they were. */
  lemma LibraryStepKept(before: set<string>, after: set<string>, dir: string)
    requires KeptOutside(before, after, PathJoin(dir, TestLibraryTool))
    ensures KeptApartFromArtifacts(before, after, dir)
    ensures PathJoin(dir, WordPressTool) in after <==> PathJoin(dir, WordPressTool) in before
    ensures PathJoin(dir, "wordpress.zip") in after <==> PathJoin(dir, "wordpress.zip") in before
  {
    ArtifactsApart(dir);
  }

  /** Writing the configuration into a state holding both artifacts and no
      archive provisions the work directory and keeps everything else. */
  lemma ConfigStepKept(before: set<string>, mid: set<string>, dir: string, checkedOut: bool)
    requires KeptApartFromArtifacts(before, mid, dir)
    requires PathJoin(dir, WordPressTool) in mid && PathJoin(dir, TestLibraryTool) in mid
    requires PathJoin(dir, "wordpress.zip") !in mid
    requires checkedOut ==> CheckedOutClean(mid, dir)
    ensures var after := mid + {ConfigFile(dir)};
            KeptApartFromArtifacts(before, after, dir) && Provisioned(after, dir) &&
            (checkedOut ==> CheckedOutClean(after, dir))
  {
    var after := mid + {ConfigFile(dir)};
    ArtifactsApart(dir);
    AddedWithin(mid, {ConfigFile(dir)}, PathJoin(dir, TestLibraryTool));
    LibraryStepKept(mid, after, dir);
    if checkedOut {
      ConfigKeepsClean(mid, dir);
    }
  }

  /** Steps that each keep what lies apart from the artifacts together keep it. */
  lemma KeptApartChain(a: set<string>, b: set<string>, c: set<string>, dir: string)
    requires KeptApartFromArtifacts(a, b, dir) && KeptApartFromArtifacts(b, c, dir)
    ensures KeptApartFromArtifacts(a, c, dir)
  {
  }

  /** Writing the configuration leaves clean checkouts clean. */
  lemma ConfigKeepsClean(paths: set<string>, dir: string)
    requires CheckedOutClean(paths, dir)
    ensures CheckedOutClean(paths + {ConfigFile(dir)}, dir)
  {
  }

  // ---------------------------------------------------------------------
  // Effects, in the order they happen
  // ---------------------------------------------------------------------

  datatype Event =
    | DirChecked(path: string)                            // isDir(inputs.dir)
    | FeedFetched                                         // the version-check request
    | Output(name: string, value: string)                 // core.setOutput
    | Export(name: string, value: string)                 // core.exportVariable
    | Failed(message: string)                             // core.setFailed
    | ToolCacheFind(tool: string, version: string)        // tc.find
    | Linked(target: string, link: string)                // symlink
    | CacheRestore(tool: string, key: string, workspace: Option<string>)  // cache.restoreCache, with GITHUB_WORKSPACE as it is then
    | Deleted(path: string)                               // rmRF
    | Downloaded(url: string, dest: string)               // tc.downloadTool
    | Extracted(archive: string, into: string)            // tc.extractZip
    | ToolCacheAdd(source: string, tool: string, version: string)  // tc.cacheDir
    | MadeDir(path: string)                               // mkdirP
    | CheckedOut(url: string, dest: string)               // SVN checkout
    | ConfigFetched(url: string)                          // downloadAsText
    | Written(path: string, contents: string)             // writeFile
  {
    /** An effect of looking up or fetching an artifact. */
    predicate Acquires() {
      ToolCacheFind? || Linked? || CacheRestore? || Downloaded? || Extracted? ||
      ToolCacheAdd? || MadeDir? || CheckedOut? || ConfigFetched? || Written?
    }

    /** An effect that publishes the run's result. */
    predicate Reports() {
      Output? || Export? || Failed?
    }
  }

  /** The events of a step between the version and the outputs. */
  predicate Quiet(es: seq<Event>) {
    forall k :: 0 <= k < |es| ==> !es[k].Reports() && !es[k].DirChecked? && !es[k].FeedFetched?
  }

  /** `core.setOutput` writes undefined as the empty string. */
  function OutputText(v: Option<string>): string {
    match v
    case Some(s) => s
    case None => ""
  }

  /** `setFailed('❌ ' + message)`. */
  function FailureReport(message: string): Event {
    Failed("\U{274C} " + message)
  }

  // ---------------------------------------------------------------------
  // External outcomes
  // ---------------------------------------------------------------------

  /** What `cache.restoreCache` does. */
  datatype Restore = Hit | Miss | Throws(message: string)

  /** Where downloading WordPress stops, if it fails. */
  datatype Transfer = Completes | DownloadFails(message: string) | ExtractFails(message: string)
                    | CacheDirFails(message: string)

  /** Where fetching the test library stops, if it fails. */
  datatype Checkout = CheckoutCompletes | IncludesFails(message: string) | DataFails(message: string)
                    | LibraryCacheDirFails(message: string)

  /** Everything the run learns from outside. */
  datatype Outside = Outside(
    dirExists: bool,
    feed: WpApi.Feed,
    coerce: string -> Option<string>,
    wpToolCache: ToolCacheAnswer, wpRestore: Restore, wpTransfer: Transfer,
    libToolCache: ToolCacheAnswer, libRestore: Restore, libCheckout: Checkout,
    sample: Result<string>)

  /** Line 58 as written, `!inputs.has_toolcache && inputs.semver`: the
      tool cache is consulted when it is NOT available and a semver is set. */
  predicate QueriesToolCache(i: Inputs) {
    !i.hasToolcache && Truthy(i.semver)
  }

  /** What `tc.find` does when it is called: it answers with a path (empty
      when the tool is not cached), or it throws. */
  datatype ToolCacheAnswer = Answer(path: string) | FindThrows(message: string)

  /** `findCached` returns from the tool-cache branch with a copy found. */
  predicate ToolCacheHit(i: Inputs, find: ToolCacheAnswer) {
    QueriesToolCache(i) && find.Answer? && find.path != ""
  }

  /** The tool-cache branch settles the outcome: `tc.find` threw, or found
      a copy.  Only otherwise is the remote cache asked. */
  predicate ToolCacheDecides(i: Inputs, find: ToolCacheAnswer) {
    QueriesToolCache(i) && (find.FindThrows? || find.path != "")
  }

  /** The outcome of `findCached` for given lookups: a throw of `tc.find`
      propagates before the remote cache is asked. */
  function FindCachedResult(i: Inputs, find: ToolCacheAnswer, restore: Restore): (r: Result<bool>)
    ensures r.Err? <==> (QueriesToolCache(i) && find.FindThrows?) ||
                        (!ToolCacheDecides(i, find) && i.hasCache && restore.Throws?)
    ensures r == Ok(true) <==> ToolCacheHit(i, find) || (!ToolCacheDecides(i, find) && i.hasCache && restore == Hit)
  {
    if QueriesToolCache(i) && find.FindThrows? then Err(find.message)
    else if ToolCacheHit(i, find) then Ok(true)
    else if !i.hasCache then Ok(false)
    else match restore
      case Hit => Ok(true)
      case Miss => Ok(false)
      case Throws(m) => Err(m)
  }

  /** The effects of `findCached`, in order. */
  function FindCachedEvents(i: Inputs, tool: string, find: ToolCacheAnswer): (es: seq<Event>)
    ensures |es| <= 2
    ensures QueriesToolCache(i) <==> |es| > 0 && es[0].ToolCacheFind?
    ensures ToolCacheHit(i, find) ==> |es| == 2 && es[1] == Linked(find.path, PathJoin(i.dir, tool))
    ensures forall k :: 0 <= k < |es| && es[k].CacheRestore? ==> !ToolCacheDecides(i, find) && i.hasCache
  {
    (if QueriesToolCache(i) then [ToolCacheFind(tool, i.semver.value)] else []) +
    (if ToolCacheHit(i, find) then [Linked(find.path, PathJoin(i.dir, tool))]
     else if !ToolCacheDecides(i, find) && i.hasCache
     then [CacheRestore(tool, CacheKey(i.cachePrefix, tool, i.semver), Some(i.dir))]
     else [])
  }

  /** GITHUB_WORKSPACE after `findCached`: unchanged unless the remote cache
      was asked, and then the text of what it was before. */
  function WorkspaceAfter(i: Inputs, find: ToolCacheAnswer, w: Option<string>): (r: Option<string>)
    ensures w.Some? ==> r == w
    ensures r.None? ==> w.None?
  {
    if !ToolCacheDecides(i, find) && i.hasCache then Some(Rendered(w)) else w
  }

  /** The two downloads run under `Promise.all`.  When both ask the remote
      cache and the test library's lookup starts while WordPress's restore
      is still pending, it saves the work directory as the prior value and
      writes it back last: GITHUB_WORKSPACE then ends as the work directory,
      where one lookup after the other puts back the value it had. */
  lemma OverlappedRestoresLeaveWorkDir(i: Inputs, wpFind: ToolCacheAnswer, libFind: ToolCacheAnswer,
                                       w: Option<string>)
    requires i.hasCache && !ToolCacheDecides(i, wpFind) && !ToolCacheDecides(i, libFind)
    requires w.Some? && w != Some(i.dir)
    ensures WorkspaceAfter(i, libFind, Some(i.dir)) == Some(i.dir) != w
    ensures WorkspaceAfter(i, libFind, WorkspaceAfter(i, wpFind, w)) == w
  {
  }

  /** The paths after `findCached`: on a hit of either cache the tool's
      directory is in place (a link to the tool-cache copy, or the
      directory the remote cache restored into the work directory). */
  function PathsAfter(i: Inputs, tool: string, find: ToolCacheAnswer, restore: Restore,
                      paths: set<string>): (r: set<string>)
    ensures paths <= r <= paths + {PathJoin(i.dir, tool)}
    ensures PathJoin(i.dir, tool) in r <==> PathJoin(i.dir, tool) in paths || FindCachedResult(i, find, restore) == Ok(true)
  {
    if FindCachedResult(i, find, restore) == Ok(true) then paths + {PathJoin(i.dir, tool)} else paths
  }

  /** Tool-cache entries are only ever seeded under the resolved semver,
      and only with the tool cache on. */
  predicate SeedsUnderSemVer(es: seq<Event>, i: Inputs) {
    forall k :: 0 <= k < |es| && es[k].ToolCacheAdd? ==>
      i.hasToolcache && i.semver.Some? && es[k].version == i.semver.value
  }

  /** Appending keeps the log and lets what was appended be read back. */
  lemma Appended(a: seq<Event>, b: seq<Event>)
    ensures (a + b)[..|a|] == a && (a + b)[|a|..] == b
  {
  }

  /** Two appends in a row: the start is kept and the two parts follow it. */
  lemma AppendedTwice(start: seq<Event>, a: seq<Event>, b: seq<Event>, now: seq<Event>)
    requires now == start + a + b
    ensures |now| >= |start| && now[..|start|] == start && now[|start|..] == a + b
  {
    assert now == start + (a + b);
  }

  /** Appending parts one by one appends them together. */
  lemma Regrouped(a: seq<Event>, b: seq<Event>, c: seq<Event>, d: seq<Event>)
    ensures a + b + c == a + (b + c)
    ensures a + b + c + d == a + (b + c + d)
  {
  }

  /** Both properties of appended effects survive concatenation. */
  lemma QuietJoin(es: seq<Event>, a: seq<Event>, b: seq<Event>, i: Inputs)
    requires Quiet(a) && Quiet(b) && SeedsUnderSemVer(a, i) && SeedsUnderSemVer(b, i)
    requires es == a + b
    ensures Quiet(es) && SeedsUnderSemVer(es, i)
  {
    forall k | 0 <= k < |es|
      ensures es[k] == if k < |a| then a[k] else b[k - |a|]
    {
    }
  }

  /** Two steps that each only append quiet effects together only append
      quiet effects. */
  lemma LogGrew(start: seq<Event>, mid: seq<Event>, now: seq<Event>, i: Inputs)
    requires |start| <= |mid| <= |now|
    requires mid[..|start|] == start && now[..|mid|] == mid
    requires Quiet(mid[|start|..]) && SeedsUnderSemVer(mid[|start|..], i)
    requires Quiet(now[|mid|..]) && SeedsUnderSemVer(now[|mid|..], i)
    ensures now[..|start|] == start
    ensures Quiet(now[|start|..]) && SeedsUnderSemVer(now[|start|..], i)
  {
    assert now[..|start|] == mid[..|start|];
    QuietJoin(now[|start|..], mid[|start|..], now[|mid|..], i);
  }

  /** `findCached` reports nothing and seeds nothing; the restore runs with
      GITHUB_WORKSPACE on the work directory, and a workspace that was set
      is put back as it was.  Unless `tc.find` threw, the outcome is known,
      and it depends on the remote cache exactly when that was asked. */
  lemma FindCachedEffects(i: Inputs, tool: string, find: ToolCacheAnswer, w: Option<string>)
    ensures Quiet(FindCachedEvents(i, tool, find))
    ensures SeedsUnderSemVer(FindCachedEvents(i, tool, find), i)
    ensures forall e :: e in FindCachedEvents(i, tool, find) && e.CacheRestore? ==>
              e.workspace == Some(i.dir) && e.key == CacheKey(i.cachePrefix, tool, i.semver)
    ensures w.Some? ==> WorkspaceAfter(i, find, w) == w
    ensures !(QueriesToolCache(i) && find.FindThrows?) ==>
              FindCachedResult(i, find, Hit).Ok? && FindCachedResult(i, find, Miss).Ok?
    ensures FindCachedResult(i, find, Hit) != FindCachedResult(i, find, Miss) <==>
            !ToolCacheDecides(i, find) && i.hasCache
  {
  }

  /** The state `findCached` leaves for the post step: recorded only on a
      remote-cache miss. */
  function Recorded(saved: map<string, string>, i: Inputs, tool: string, find: ToolCacheAnswer,
                    restore: Restore): (r: map<string, string>)
    ensures r.Keys <= saved.Keys + {DirState(tool), KeyState(tool)}
    ensures forall n :: n in saved && n != DirState(tool) && n != KeyState(tool) ==> n in r && r[n] == saved[n]
  {
    if !ToolCacheDecides(i, find) && i.hasCache && restore == Miss
    then saved[DirState(tool) := i.dir][KeyState(tool) := CacheKey(i.cachePrefix, tool, i.semver)]
    else saved
  }

  /** A recorded miss leaves both entries non-empty, with the artifact's key:
      exactly what the post step needs to save it. */
  lemma MissRecordsKey(saved: map<string, string>, i: Inputs, tool: string, restore: Restore, find: ToolCacheAnswer)
    requires i.hasCache && restore == Miss && !ToolCacheDecides(i, find)
    ensures var s := Recorded(saved, i, tool, find, restore);
            DirState(tool) in s && s[DirState(tool)] == i.dir &&
            KeyState(tool) in s && s[KeyState(tool)] == CacheKey(i.cachePrefix, tool, i.semver) &&
            s[KeyState(tool)] != ""
  {
    assert DirState(tool) != KeyState(tool) by {
      assert DirState(tool)[0] == 'd' && KeyState(tool)[0] == 'c';
    }
  }

  /** Nothing is recorded on a hit of either cache, on an error, or with the
      remote cache off. */
  lemma NothingRecordedUnlessMiss(saved: map<string, string>, i: Inputs, tool: string, find: ToolCacheAnswer,
                                  restore: Restore)
    requires FindCachedResult(i, find, restore) != Ok(false) || !i.hasCache
    ensures Recorded(saved, i, tool, find, restore) == saved
  {
  }

  /** The evidently intended reading of line 58: the tool cache is
      consulted when it is available and a semver is set. */
  predicate QueriesToolCacheCorrected(i: Inputs) {
    i.hasToolcache && Truthy(i.semver)
  }

  /** The outcome of `findCached` with the corrected guard.  The lookup then
      runs only with RUNNER_TOOL_CACHE set, where `tc.find` answers with a
      path (empty when the tool is not cached). */
  function FindCachedResultCorrected(i: Inputs, path: string, restore: Restore): (r: Result<bool>)
    ensures r.Err? <==> !(QueriesToolCacheCorrected(i) && path != "") && i.hasCache && restore.Throws?
    ensures r == Ok(true) <==> (QueriesToolCacheCorrected(i) && path != "") || (i.hasCache && restore == Hit)
  {
    if QueriesToolCacheCorrected(i) && path != "" then Ok(true)
    else if !i.hasCache then Ok(false)
    else match restore
      case Hit => Ok(true)
      case Miss => Ok(false)
      case Throws(m) => Err(m)
  }

  /** The effects of `findCached` with the corrected guard, in order. */
  function FindCachedEventsCorrected(i: Inputs, tool: string, path: string): (es: seq<Event>)
    ensures |es| <= 2
    ensures QueriesToolCacheCorrected(i) <==> |es| > 0 && es[0].ToolCacheFind?
    ensures forall k :: 0 <= k < |es| && es[k].CacheRestore? ==>
              !(QueriesToolCacheCorrected(i) && path != "") && i.hasCache
  {
    (if QueriesToolCacheCorrected(i) then [ToolCacheFind(tool, i.semver.value)] else []) +
    (if QueriesToolCacheCorrected(i) && path != "" then [Linked(path, PathJoin(i.dir, tool))]
     else if i.hasCache then [CacheRestore(tool, CacheKey(i.cachePrefix, tool, i.semver), Some(i.dir))]
     else [])
  }

  /** As written, a copy this action seeded is never read back: seeding
      needs the tool cache available (lines 103-104 and 130-131), and then
      the lookup is skipped, so its answer never decides anything. */
  lemma ToolCacheIgnoredWhenAvailable(i: Inputs, tool: string, find: ToolCacheAnswer, restore: Restore)
    requires i.hasToolcache
    ensures !QueriesToolCache(i)
    ensures FindCachedResult(i, find, restore) == FindCachedResult(i, Answer(""), restore)
    ensures FindCachedEvents(i, tool, find) == FindCachedEvents(i, tool, Answer(""))
  {
  }

  /** A concrete run: tool cache available, WordPress 5.9.9 seeded there by
      an earlier run, remote cache off.  As written the copy is ignored and
      the archive is downloaded again; with the corrected guard it is used. */
  lemma SeededCopyIgnoredAsWritten(i: Inputs, path: string)
    requires i.hasToolcache && !i.hasCache && i.semver == Some("5.9.9")
    requires path == "/opt/hostedtoolcache/wordpress/5.9.9/x64"
    ensures FindCachedResult(i, Answer(path), Miss) == Ok(false)
    ensures FindCachedResultCorrected(i, path, Miss) == Ok(true)
  {
  }

  /** As written, after `getInputs` and `resolveSemVer` the tool cache is
      queried exactly when RUNNER_TOOL_CACHE is unset and a semver exists:
      the one situation in which `tc.find` has no cache directory to look
      in.  A throw of `tc.find` then fails the lookup, and with it the run. */
  lemma LookupRunsOnlyWithoutToolCache(g: Given, semver: Option<string>, m: string, restore: Restore)
    ensures var i := WithSemVer(GetInputs(g), semver);
            QueriesToolCache(i) <==> g.runnerToolCache.None? && Truthy(semver)
    ensures var i := WithSemVer(GetInputs(g), semver);
            g.runnerToolCache.None? && Truthy(semver) ==>
              FindCachedResult(i, FindThrows(m), restore) == Err(m)
  {
  }

  /** With the corrected guard the lookup runs only where RUNNER_TOOL_CACHE
      is set, so `tc.find` always has its cache directory. */
  lemma CorrectedLookupNeedsToolCache(g: Given, semver: Option<string>)
    ensures var i := WithSemVer(GetInputs(g), semver);
            QueriesToolCacheCorrected(i) <==> g.runnerToolCache.Some? && Truthy(semver)
  {
  }

  /** With the corrected guard the tool cache is read exactly when it is
      available, under the tool and version seeding writes, and a copy found
      there is linked into the work directory without asking the remote
      cache. */
  lemma ToolCacheUsedWhenAvailable(i: Inputs, tool: string, path: string, restore: Restore)
    requires CachingNeedsSemVer(i)
    ensures QueriesToolCacheCorrected(i) <==> i.hasToolcache
    ensures i.hasToolcache ==> FindCachedEventsCorrected(i, tool, path)[0] == ToolCacheFind(tool, i.semver.value)
    ensures i.hasToolcache && path != "" ==>
              FindCachedResultCorrected(i, path, restore) == Ok(true) &&
              FindCachedEventsCorrected(i, tool, path) ==
                [ToolCacheFind(tool, i.semver.value), Linked(path, PathJoin(i.dir, tool))]
  {
  }

  // ---------------------------------------------------------------------
  // The shape of a run
  // ---------------------------------------------------------------------

  /** `downloadWordPress` succeeds: a cache had it, or it was fetched and
      (with the tool cache on) seeded. */
  predicate WordPressProvided(i: Inputs, find: ToolCacheAnswer, restore: Restore, transfer: Transfer) {
    FindCachedResult(i, find, restore) == Ok(true) ||
    (FindCachedResult(i, find, restore) == Ok(false) &&
     (transfer.Completes? || (transfer.CacheDirFails? && !i.hasToolcache)))
  }

  /** `downloadTestLibrary` succeeds. */
  predicate LibraryProvided(i: Inputs, find: ToolCacheAnswer, restore: Restore, checkout: Checkout) {
    FindCachedResult(i, find, restore) == Ok(true) ||
    (FindCachedResult(i, find, restore) == Ok(false) &&
     (checkout.CheckoutCompletes? || (checkout.LibraryCacheDirFails? && !i.hasToolcache)))
  }

  /** The version the run settles on, from the inputs and the feed. */
  function Resolution(i: Inputs, o: Outside): Result<Option<string>> {
    WpUtils.ResolveWordPressVersion(i.version, o.feed)
  }

  /** Only "latest" and "<prefix>.x" query the feed. */
  function FeedQuery(version: string): seq<Event> {
    var c := WpUtils.Classify(version);
    if c.AskLatest? || c.AskBranch? then [FeedFetched] else []
  }

  /** The leftovers of an earlier run, removed before anything is fetched. */
  function StalePaths(dir: string): seq<string> {
    [PathJoin(dir, WordPressTool), PathJoin(dir, TestLibraryTool), PathJoin(dir, "wordpress.zip")]
  }

  /** What a run does before any artifact is looked up. */
  function Preamble(i: Inputs, v: Option<string>): (es: seq<Event>)
    ensures |es| > 0 && es[0] == DirChecked(i.dir)
    ensures forall k :: 0 <= k < |es| ==> !es[k].Acquires() && !es[k].Failed?
  {
    var stale := StalePaths(i.dir);
    [DirChecked(i.dir)] + FeedQuery(i.version) + [Output("wp_version", OutputText(v))] +
    [Deleted(stale[0]), Deleted(stale[1]), Deleted(stale[2])]
  }

  /** The success report: the test library exported, both directories published. */
  function Publication(dir: string): (es: seq<Event>)
    ensures |es| == 3 && forall k :: 0 <= k < 3 ==> es[k].Reports() && !es[k].Failed?
  {
    [Export("WP_TESTS_DIR", PathJoin(dir, TestLibraryTool)),
     Output("wp_directory", PathJoin(dir, WordPressTool)),
     Output("wptl_directory", PathJoin(dir, TestLibraryTool))]
  }

  /** The run ends with the success report. */
  predicate Published(es: seq<Event>, dir: string) {
    |es| >= 3 && es[|es| - 3..] == Publication(dir)
  }

  /** No artifact is looked up or fetched before every leftover is removed. */
  predicate ClearedFirst(es: seq<Event>, dir: string) {
    forall k :: 0 <= k < |es| && es[k].Acquires() ==>
      forall p :: p in StalePaths(dir) ==> Deleted(p) in es[..k]
  }

  /** A failure is reported at most once, as the last effect. */
  predicate FailsLast(es: seq<Event>) {
    forall k :: 0 <= k < |es| - 1 ==> !es[k].Failed?
  }

  /** The order every run keeps: leftovers removed before any lookup, and
      a single report at the end, either a failure or the publication. */
  predicate Orderly(es: seq<Event>, dir: string) {
    |es| > 0 && ClearedFirst(es, dir) && FailsLast(es) && (es[|es| - 1].Failed? || Published(es, dir))
  }

  /** A run ends either with a failure or with the success report, and it
      is published exactly when it ends with the report. */
  lemma Concluded(front: seq<Event>, last: seq<Event>, dir: string)
    requires (|last| == 1 && last[0].Failed?) || last == Publication(dir)
    ensures (front + last)[|front + last| - 1].Failed? || Published(front + last, dir)
    ensures Published(front + last, dir) <==> last == Publication(dir)
  {
    var es := front + last;
    if last == Publication(dir) {
      assert es[|es| - 3..] == last;
    } else {
      assert es[|es| - 1] == last[0];
    }
  }

  /** A run that stops before the lookups has nothing to order. */
  lemma StoppedEarly(es: seq<Event>, head: seq<Event>, m: string, dir: string)
    requires forall k :: 0 <= k < |head| ==> !head[k].Acquires() && !head[k].Failed?
    requires es == head + [FailureReport(m)]
    ensures Orderly(es, dir) && !Published(es, dir)
  {
    assert es[|es| - 1].Failed?;
    if |es| >= 3 {
      assert es[|es| - 3..][2] == es[|es| - 1];
    }
    forall k | 0 <= k < |es| - 1
      ensures es[k] == head[k]
    {
    }
  }

  /** A run whose work directory is missing checks it, fails, and does
      nothing else. */
  lemma MissingDirectoryOrderly(dir: string)
    ensures var es := [DirChecked(dir), FailureReport("Directory " + dir + " does not exist")];
            Orderly(es, dir) && !Published(es, dir)
  {
    StoppedEarly([DirChecked(dir), FailureReport("Directory " + dir + " does not exist")], [DirChecked(dir)],
                 "Directory " + dir + " does not exist", dir);
  }

  /** A run whose version cannot be resolved fails before any lookup. */
  lemma UnresolvedOrderly(i: Inputs, m: string)
    ensures var es := [DirChecked(i.dir)] + FeedQuery(i.version) + [FailureReport(m)];
            Orderly(es, i.dir) && !Published(es, i.dir)
  {
    var head := [DirChecked(i.dir)] + FeedQuery(i.version);
    StoppedEarly(head + [FailureReport(m)], head, m, i.dir);
  }

  /** Whatever follows the preamble, every leftover is removed before the
      first lookup: the preamble removes them all and looks nothing up. */
  lemma ClearedByPreamble(i: Inputs, v: Option<string>, rest: seq<Event>)
    ensures ClearedFirst(Preamble(i, v) + rest, i.dir)
  {
    var head := Preamble(i, v);
    var es := head + rest;
    var n := |head|;
    var stale := StalePaths(i.dir);
    assert forall k :: 0 <= k < n ==> es[k] == head[k] && !head[k].Acquires();
    forall k | 0 <= k < |es| && es[k].Acquires()
      ensures forall p :: p in stale ==> Deleted(p) in es[..k]
    {
      assert k >= n;
      forall p | p in stale
        ensures Deleted(p) in es[..k]
      {
        var j :| 0 <= j < 3 && stale[j] == p;
        assert es[..k][n - 3 + j] == head[n - 3 + j] == Deleted(p);
      }
    }
  }

  /** A run whose steps before the end report nothing fails, if at all, last. */
  lemma FailsOnlyLast(head: seq<Event>, middle: seq<Event>, last: seq<Event>, dir: string)
    requires forall k :: 0 <= k < |head| ==> !head[k].Failed?
    requires Quiet(middle)
    requires (|last| == 1 && last[0].Failed?) || last == Publication(dir)
    ensures FailsLast(head + middle + last)
  {
    var es := head + middle + last;
    var n := |head|;
    forall k | 0 <= k < |es| - 1
      ensures !es[k].Failed?
    {
      if k < n {
        assert es[k] == head[k];
      } else if k < n + |middle| {
        assert es[k] == middle[k - n];
      } else {
        assert last == Publication(dir);
        assert es[k] == last[k - n - |middle|];
      }
    }
  }

  /** A run that got past the preamble removed the leftovers before its
      first lookup, reports a failure only at its end, and is published
      exactly when it ends with the publication. */
  lemma ProvidedRunOrderly(i: Inputs, v: Option<string>, middle: seq<Event>, last: seq<Event>)
    requires Quiet(middle)
    requires (|last| == 1 && last[0].Failed?) || last == Publication(i.dir)
    ensures Orderly(Preamble(i, v) + middle + last, i.dir)
    ensures Published(Preamble(i, v) + middle + last, i.dir) <==> last == Publication(i.dir)
  {
    var head := Preamble(i, v);
    assert head + middle + last == head + (middle + last);
    ClearedByPreamble(i, v, middle + last);
    FailsOnlyLast(head, middle, last, i.dir);
    Concluded(head + middle, last, i.dir);
  }

  // ---------------------------------------------------------------------
  // The run
  // ---------------------------------------------------------------------

  class Runner {
    var inputs: Inputs
    var workspace: Option<string>   // process.env.GITHUB_WORKSPACE
    var saved: map<string, string>  // core.saveState
    var paths: set<string>          // what exists on disk
    var log: seq<Event>

    /** The process as it starts: inputs read, nothing logged. */
    constructor(g: Given, workspace0: Option<string>, saved0: map<string, string>, paths0: set<string>)
      ensures inputs == GetInputs(g) && workspace == workspace0 && saved == saved0
      ensures paths == paths0 && log == []
    {
      inputs := GetInputs(g);
      workspace := workspace0;
      saved := saved0;
      paths := paths0;
      log := [];
    }

    /** `resolveSemVer`. */
    method ResolveSemVer(version: Option<string>, coerce: string -> Option<string>)
      modifies this
      ensures inputs == WithSemVer(old(inputs), CoercedSemVer(version, coerce))
      ensures CachingNeedsSemVer(inputs)
      ensures workspace == old(workspace) && saved == old(saved) && paths == old(paths) && log == old(log)
    {
      var semver := CoercedSemVer(version, coerce);
      inputs := inputs.(semver := semver);
      if !Truthy(semver) {
        inputs := inputs.(hasCache := false, hasToolcache := false);
      }
    }

    /** `findCached`: the tool cache under the guard of line 58 as written,
        where a throw of `tc.find` propagates, then the remote cache with
        GITHUB_WORKSPACE pointed at the work directory for the restore and
        put back afterwards on every path. */
    method FindCached(tool: string, find: ToolCacheAnswer, restore: Restore) returns (r: Result<bool>)
      modifies this
      ensures inputs == old(inputs)
      ensures r == FindCachedResult(inputs, find, restore)
      ensures saved == Recorded(old(saved), inputs, tool, find, restore)
      ensures log == old(log) + FindCachedEvents(inputs, tool, find)
      ensures workspace == WorkspaceAfter(inputs, find, old(workspace))
      ensures paths == PathsAfter(inputs, tool, find, restore, old(paths))
    {
      if !inputs.hasToolcache && Truthy(inputs.semver) {
        log := log + [ToolCacheFind(tool, inputs.semver.value)];
        match find
        case FindThrows(m) => return Err(m);
        case Answer(cachePath) =>
          if cachePath != "" {
            var link := PathJoin(inputs.dir, tool);
            paths := paths + {link};
            log := log + [Linked(cachePath, link)];
            return Ok(true);
          }
      }
      if inputs.hasCache {
        var key := CacheKey(inputs.cachePrefix, tool, inputs.semver);
        var prior := workspace;
        workspace := Some(inputs.dir);
        log := log + [CacheRestore(tool, key, workspace)];
        // finally: assigning a possibly undefined value to process.env stores its text
        workspace := Some(Rendered(prior));
        match restore
        case Hit =>
          paths := paths + {PathJoin(inputs.dir, tool)};
          return Ok(true);
        case Throws(m) => return Err(m);
        case Miss =>
        saved := saved[DirState(tool) := inputs.dir][KeyState(tool) := key];
      }
      return Ok(false);
    }

    /** `downloadWordPress`: the `try` block, then, on every path, failures
        included, the removal of the archive. */
    method DownloadWordPress(url: string, find: ToolCacheAnswer, restore: Restore, transfer: Transfer)
      returns (r: Result<()>)
      requires CachingNeedsSemVer(inputs)
      modifies this
      ensures inputs == old(inputs)
      ensures |log| > |old(log)| && log[..|old(log)|] == old(log)
      ensures PathJoin(inputs.dir, "wordpress.zip") !in paths
      ensures Quiet(log[|old(log)|..]) && SeedsUnderSemVer(log[|old(log)|..], inputs)
      ensures saved == Recorded(old(saved), inputs, WordPressTool, find, restore)
      ensures workspace == WorkspaceAfter(inputs, find, old(workspace))
      ensures FindCachedResult(inputs, find, restore) == Ok(false) && r.Ok? ==>
                PathJoin(inputs.dir, WordPressTool) in paths
      ensures r.Ok? ==> PathJoin(inputs.dir, WordPressTool) in paths
      ensures var zip := PathJoin(inputs.dir, "wordpress.zip");
              Removed(old(paths), zip) <= paths <= Removed(old(paths), zip) + {PathJoin(inputs.dir, WordPressTool)}
      ensures r.Ok? <==> WordPressProvided(inputs, find, restore, transfer)
      ensures FindCachedResult(inputs, find, restore).Err? ==> r == Err(FindCachedResult(inputs, find, restore).message)
    {
      var dest := PathJoin(inputs.dir, "wordpress.zip");
      r := TryDownloadWordPress(url, dest, find, restore, transfer);
      // finally
      ArchiveApart(inputs.dir);
      ArtifactsApart(inputs.dir);
      if PathJoin(inputs.dir, WordPressTool) in paths {
        RemovedKeeps(paths, dest, PathJoin(inputs.dir, WordPressTool));
      }
      RemovedBounds(old(paths), paths, dest, PathJoin(inputs.dir, WordPressTool));
      paths := Removed(paths, dest);
      ghost var before := log;
      log := log + [Deleted(dest)];
      Appended(before, [Deleted(dest)]);
      LogGrew(old(log), before, log, inputs);
    }

    /** The `try` block of `downloadWordPress`: the cache lookup, and
        unless it found the artifact, the download. */
    method TryDownloadWordPress(url: string, dest: string, find: ToolCacheAnswer, restore: Restore,
                                transfer: Transfer) returns (r: Result<()>)
      requires CachingNeedsSemVer(inputs)
      requires dest == PathJoin(inputs.dir, "wordpress.zip")
      modifies this
      ensures inputs == old(inputs)
      ensures |log| >= |old(log)| && log[..|old(log)|] == old(log)
      ensures Quiet(log[|old(log)|..]) && SeedsUnderSemVer(log[|old(log)|..], inputs)
      ensures saved == Recorded(old(saved), inputs, WordPressTool, find, restore)
      ensures workspace == WorkspaceAfter(inputs, find, old(workspace))
      ensures FindCachedResult(inputs, find, restore) == Ok(false) && r.Ok? ==>
                PathJoin(inputs.dir, WordPressTool) in paths
      ensures r.Ok? ==> PathJoin(inputs.dir, WordPressTool) in paths
      ensures old(paths) <= paths <= old(paths) + {dest, PathJoin(inputs.dir, WordPressTool)}
      ensures r.Ok? <==> WordPressProvided(inputs, find, restore, transfer)
      ensures FindCachedResult(inputs, find, restore).Err? ==> r == Err(FindCachedResult(inputs, find, restore).message)
    {
      var found := FindCached(WordPressTool, find, restore);
      FindCachedEffects(inputs, WordPressTool, find, old(workspace));
      ghost var looked := FindCachedEvents(inputs, WordPressTool, find);
      var steps;
      r, steps := DownloadUnlessFound(found, url, dest, transfer);
      log := log + steps;
      AppendedTwice(old(log), looked, steps, log);
      QuietJoin(log[|old(log)|..], looked, steps, inputs);
    }

    /** The rest of the `try` block: a failed lookup fails, a found artifact
        is used, and otherwise the archive is fetched. */
    method DownloadUnlessFound(found: Result<bool>, url: string, dest: string, transfer: Transfer)
      returns (r: Result<()>, steps: seq<Event>)
      requires CachingNeedsSemVer(inputs)
      requires dest == PathJoin(inputs.dir, "wordpress.zip")
      modifies this`paths
      ensures Quiet(steps) && SeedsUnderSemVer(steps, inputs)
      ensures found != Ok(false) ==> steps == [] && paths == old(paths)
      ensures found.Err? ==> r == Err(found.message)
      ensures found == Ok(false) && r.Ok? ==> PathJoin(inputs.dir, WordPressTool) in paths
      ensures old(paths) <= paths <= old(paths) + {dest, PathJoin(inputs.dir, WordPressTool)}
      ensures r.Ok? <==> found == Ok(true) ||
                         (found == Ok(false) && (transfer.Completes? || (transfer.CacheDirFails? && !inputs.hasToolcache)))
    {
      steps := [];
      if found.Err? {
        r := Err(found.message);
      } else if found.value {
        r := Ok(());
      } else {
        r, steps := FetchWordPress(url, dest, transfer);
      }
    }

    /** The download itself, past the cache lookup:
        download the archive to dest, unpack it next to it and, with the
        tool cache on, seed the tool cache.  Returns the effects in order. */
    method FetchWordPress(url: string, dest: string, transfer: Transfer) returns (r: Result<()>, steps: seq<Event>)
      requires CachingNeedsSemVer(inputs)
      requires dest == PathJoin(inputs.dir, "wordpress.zip")
      modifies this`paths
      ensures Quiet(steps) && SeedsUnderSemVer(steps, inputs)
      ensures |steps| > 0 && steps[0] == Downloaded(url, dest)
      ensures |steps| == 1 <==> transfer.DownloadFails?
      ensures |steps| >= 2 ==> steps[1] == Extracted(dest, inputs.dir)
      ensures |steps| <= 3
      ensures |steps| == 3 <==> !transfer.DownloadFails? && !transfer.ExtractFails? && inputs.hasToolcache
      ensures |steps| == 3 ==>
                steps[2] == ToolCacheAdd(PathJoin(inputs.dir, WordPressTool), WordPressTool, inputs.semver.value)
      ensures r.Ok? <==> transfer.Completes? || (transfer.CacheDirFails? && !inputs.hasToolcache)
      ensures old(paths) <= paths <= old(paths) + {dest, PathJoin(inputs.dir, WordPressTool)}
      ensures !transfer.DownloadFails? && !transfer.ExtractFails? ==> PathJoin(inputs.dir, WordPressTool) in paths
    {
      steps := [Downloaded(url, dest)];
      if transfer.DownloadFails? {
        return Err(transfer.message), steps;
      }
      paths := paths + {dest};
      steps := steps + [Extracted(dest, inputs.dir)];
      if transfer.ExtractFails? {
        return Err(transfer.message), steps;
      }
      var target := PathJoin(inputs.dir, WordPressTool);
      paths := paths + {target};
      r := Ok(());
      if inputs.hasToolcache {
        steps := steps + [ToolCacheAdd(target, WordPressTool, inputs.semver.value)];
        if transfer.CacheDirFails? {
          r := Err(transfer.message);
        }
      }
    }

    /** `downloadTestLibrary`: unless cached, check out the test includes
        and data, drop their `.svn` directories and (with the tool cache on)
        seed the tool cache. */
    method DownloadTestLibrary(url: string, find: ToolCacheAnswer, restore: Restore, checkout: Checkout)
      returns (r: Result<()>)
      requires CachingNeedsSemVer(inputs)
      modifies this
      ensures inputs == old(inputs)
      ensures |log| >= |old(log)|
      ensures log[..|old(log)|] == old(log)
      ensures Quiet(log[|old(log)|..]) && SeedsUnderSemVer(log[|old(log)|..], inputs)
      ensures saved == Recorded(old(saved), inputs, TestLibraryTool, find, restore)
      ensures workspace == WorkspaceAfter(inputs, find, old(workspace))
      ensures FindCachedResult(inputs, find, restore) == Ok(false) && r.Ok? ==>
                CheckedOutClean(paths, inputs.dir)
      ensures r.Ok? ==> PathJoin(inputs.dir, TestLibraryTool) in paths
      ensures KeptOutside(old(paths), paths, PathJoin(inputs.dir, TestLibraryTool))
      ensures r.Ok? <==> LibraryProvided(inputs, find, restore, checkout)
      ensures FindCachedResult(inputs, find, restore).Err? ==> r == Err(FindCachedResult(inputs, find, restore).message)
    {
      var found := FindCached(TestLibraryTool, find, restore);
      AddedWithin(old(paths), {PathJoin(inputs.dir, TestLibraryTool)}, PathJoin(inputs.dir, TestLibraryTool));
      ghost var lookedUp := paths;
      FindCachedEffects(inputs, TestLibraryTool, find, old(workspace));
      ghost var looked := FindCachedEvents(inputs, TestLibraryTool, find);
      var steps;
      r, steps := CheckOutUnlessFound(found, url, checkout);
      KeptOutsideChain(old(paths), lookedUp, paths, PathJoin(inputs.dir, TestLibraryTool));
      log := log + steps;
      AppendedTwice(old(log), looked, steps, log);
      QuietJoin(log[|old(log)|..], looked, steps, inputs);
    }

    /** The rest of `downloadTestLibrary` after the lookup: a failed lookup
        fails, a found library is used, and otherwise it is checked out. */
    method CheckOutUnlessFound(found: Result<bool>, url: string, checkout: Checkout)
      returns (r: Result<()>, steps: seq<Event>)
      requires CachingNeedsSemVer(inputs)
      modifies this`paths
      ensures Quiet(steps) && SeedsUnderSemVer(steps, inputs)
      ensures found != Ok(false) ==> steps == [] && paths == old(paths)
      ensures found.Err? ==> r == Err(found.message)
      ensures found == Ok(false) && r.Ok? ==> CheckedOutClean(paths, inputs.dir)
      ensures found == Ok(false) ==> PathJoin(inputs.dir, TestLibraryTool) in paths
      ensures KeptOutside(old(paths), paths, PathJoin(inputs.dir, TestLibraryTool))
      ensures r.Ok? <==> found == Ok(true) ||
                         (found == Ok(false) &&
                          (checkout.CheckoutCompletes? || (checkout.LibraryCacheDirFails? && !inputs.hasToolcache)))
    {
      steps := [];
      if found.Err? {
        r := Err(found.message);
      } else if found.value {
        r := Ok(());
      } else {
        r, steps := CheckOutTestLibrary(url, checkout);
      }
    }

    /** The rest of `downloadTestLibrary` past the cache lookup: create the
        library directory, check out includes and data, remove their `.svn`
        directories and, with the tool cache on, seed the tool cache.
        Returns the effects in order. */
    method CheckOutTestLibrary(url: string, checkout: Checkout) returns (r: Result<()>, steps: seq<Event>)
      requires CachingNeedsSemVer(inputs)
      modifies this`paths
      ensures Quiet(steps) && SeedsUnderSemVer(steps, inputs)
      ensures |steps| >= 3 && steps[1].CheckedOut? && steps[2].CheckedOut?
      ensures r.Ok? <==> checkout.CheckoutCompletes? || (checkout.LibraryCacheDirFails? && !inputs.hasToolcache)
      ensures r.Ok? ==>
                CheckedOutClean(paths, inputs.dir)
      ensures PathJoin(inputs.dir, TestLibraryTool) in paths
      ensures KeptOutside(old(paths), paths, PathJoin(inputs.dir, TestLibraryTool))
    {
      var lib := PathJoin(inputs.dir, TestLibraryTool);
      var includes := PathJoin(lib, "includes");
      var data := PathJoin(lib, "data");
      CheckOut(checkout);
      steps := [MadeDir(lib), CheckedOut(url + "/tests/phpunit/includes/", includes),
                CheckedOut(url + "/tests/phpunit/data/", data)];
      if checkout.IncludesFails? || checkout.DataFails? {
        return Err(checkout.message), steps;
      }
      ghost var checkedOut := paths;
      RemoveSvn();
      KeptOutsideChain(old(paths), checkedOut, paths, lib);
      steps := steps + [Deleted(PathJoin(includes, ".svn")), Deleted(PathJoin(data, ".svn"))];
      r := Ok(());
      if inputs.hasToolcache {
        steps := steps + [ToolCacheAdd(lib, TestLibraryTool, inputs.semver.value)];
        if checkout.LibraryCacheDirFails? {
          r := Err(checkout.message);
        }
      }
    }

    /** `mkdirP` of the library directory, then both checkouts, started
        together; a checkout that fails leaves nothing behind here. */
    method CheckOut(checkout: Checkout)
      modifies this`paths
      ensures var lib := PathJoin(inputs.dir, TestLibraryTool);
              var includes, data := PathJoin(lib, "includes"), PathJoin(lib, "data");
              paths == old(paths) + {lib} +
                       (if checkout.IncludesFails? then {} else {includes, PathJoin(includes, ".svn")}) +
                       (if checkout.DataFails? then {} else {data, PathJoin(data, ".svn")})
      ensures PathJoin(inputs.dir, TestLibraryTool) in paths
      ensures KeptOutside(old(paths), paths, PathJoin(inputs.dir, TestLibraryTool))
    {
      var lib := PathJoin(inputs.dir, TestLibraryTool);
      var includes := PathJoin(lib, "includes");
      var data := PathJoin(lib, "data");
      CheckoutsWithin(paths, lib);
      paths := paths + {lib};
      if !checkout.IncludesFails? {
        paths := paths + {includes, PathJoin(includes, ".svn")};
      }
      if !checkout.DataFails? {
        paths := paths + {data, PathJoin(data, ".svn")};
      }
    }

    /** The removal of both checkouts' `.svn` directories; the two `rmRF`
        calls run together and touch disjoint directories. */
    method RemoveSvn()
      requires var lib := PathJoin(inputs.dir, TestLibraryTool);
               lib in paths && PathJoin(lib, "includes") in paths && PathJoin(lib, "data") in paths
      modifies this`paths
      ensures var lib := PathJoin(inputs.dir, TestLibraryTool);
              paths == Removed(Removed(old(paths), PathJoin(PathJoin(lib, "includes"), ".svn")),
                               PathJoin(PathJoin(lib, "data"), ".svn"))
      ensures CheckedOutClean(paths, inputs.dir)
      ensures PathJoin(inputs.dir, TestLibraryTool) in paths
      ensures KeptOutside(old(paths), paths, PathJoin(inputs.dir, TestLibraryTool))
    {
      var lib := PathJoin(inputs.dir, TestLibraryTool);
      SvnRemoved(paths, inputs.dir);
      SvnRemovedWithin(paths, lib);
      paths := Removed(Removed(paths, PathJoin(PathJoin(lib, "includes"), ".svn")), PathJoin(PathJoin(lib, "data"), ".svn"));
    }

    /** `configureWordPress`: fetch the sample configuration and write it
        with the five replacements applied. */
    method ConfigureWordPress(wptlUrl: string, sample: Result<string>) returns (r: Result<()>)
      requires Template.Literal(inputs.dbName) && Template.Literal(inputs.dbUser)
      requires Template.Literal(inputs.dbPassword) && Template.Literal(inputs.dbHost)
      requires Template.Literal(inputs.dir)
      modifies this
      ensures inputs == old(inputs) && workspace == old(workspace) && saved == old(saved)
      ensures |log| >= |old(log)| && log[..|old(log)|] == old(log)
      ensures Quiet(log[|old(log)|..]) && SeedsUnderSemVer(log[|old(log)|..], inputs)
      ensures r.Ok? <==> sample.Ok?
      ensures sample.Err? ==>
                (r == Err(sample.message) && paths == old(paths) &&
                 log == old(log) + [ConfigFetched(wptlUrl + "/wp-tests-config-sample.php")])
      ensures sample.Ok? ==>
                (var file := PathJoin(PathJoin(inputs.dir, TestLibraryTool), "wp-tests-config.php");
                 var text := Template.Configure(sample.value, inputs.dbName, inputs.dbUser, inputs.dbPassword,
                                                inputs.dbHost, inputs.dir);
                 paths == old(paths) + {file} &&
                 log == old(log) + [ConfigFetched(wptlUrl + "/wp-tests-config-sample.php"), Written(file, text)])
    {
      log := log + [ConfigFetched(wptlUrl + "/wp-tests-config-sample.php")];
      if sample.Err? {
        Appended(old(log), [ConfigFetched(wptlUrl + "/wp-tests-config-sample.php")]);
        return Err(sample.message);
      }
      var config := Template.Configure(sample.value, inputs.dbName, inputs.dbUser, inputs.dbPassword,
                                       inputs.dbHost, inputs.dir);
      var file := PathJoin(PathJoin(inputs.dir, TestLibraryTool), "wp-tests-config.php");
      paths := paths + {file};
      log := log + [Written(file, config)];
      r := Ok(());
      Appended(old(log), [ConfigFetched(wptlUrl + "/wp-tests-config-sample.php"), Written(file, config)]);
    }

    /** The part of `run` before the lookups: check the work directory,
        resolve the version, publish it, resolve the semver and remove the
        leftovers.  An error is returned, not yet reported. */
    method Prepare(outside: Outside) returns (r: Result<Option<string>>)
      modifies this
      ensures r.Ok? <==> outside.dirExists && Resolution(old(inputs), outside).Ok?
      ensures !outside.dirExists ==>
                r == Err("Directory " + old(inputs).dir + " does not exist") &&
                log == old(log) + [DirChecked(old(inputs).dir)] && inputs == old(inputs) && paths == old(paths)
      ensures outside.dirExists && Resolution(old(inputs), outside).Err? ==>
                r == Err(Resolution(old(inputs), outside).message) &&
                log == old(log) + [DirChecked(old(inputs).dir)] + FeedQuery(old(inputs).version) &&
                inputs == old(inputs) && paths == old(paths)
      ensures r.Ok? ==>
                r.value == Resolution(old(inputs), outside).value &&
                log == old(log) + Preamble(old(inputs), r.value) &&
                inputs == WithSemVer(old(inputs), CoercedSemVer(r.value, outside.coerce)) &&
                forall p :: p in StalePaths(inputs.dir) ==> p !in paths
      ensures KeptApartFromArtifacts(old(paths), paths, old(inputs).dir)
      ensures saved == old(saved) && workspace == old(workspace)
    {
      var dir := inputs.dir;
      log := log + [DirChecked(dir)];
      if !outside.dirExists {
        return Err("Directory " + dir + " does not exist");
      }
      log := log + FeedQuery(inputs.version);
      var resolved := WpUtils.ResolveWordPressVersion(inputs.version, outside.feed);
      if resolved.Err? {
        return Err(resolved.message);
      }
      var v := resolved.value;
      log := log + [Output("wp_version", OutputText(v))];
      ResolveSemVer(v, outside.coerce);
      // the three removals run together
      var stale := StalePaths(dir);
      paths := Removed(Removed(Removed(paths, stale[0]), stale[1]), stale[2]);
      log := log + [Deleted(stale[0]), Deleted(stale[1]), Deleted(stale[2])];
      r := Ok(v);
    }

    /** The two downloads of `run` (they run together; WordPress's error is
        the one reported).  Returns the first error. */
    method DownloadArtifacts(wpUrl: string, wptlUrl: string, outside: Outside) returns (failure: Option<string>)
      requires CachingNeedsSemVer(inputs)
      modifies this
      ensures inputs == old(inputs)
      ensures |log| >= |old(log)| && log[..|old(log)|] == old(log)
      ensures Quiet(log[|old(log)|..]) && SeedsUnderSemVer(log[|old(log)|..], inputs)
      ensures saved == Recorded(Recorded(old(saved), inputs, WordPressTool, outside.wpToolCache, outside.wpRestore),
                                inputs, TestLibraryTool, outside.libToolCache, outside.libRestore)
      ensures failure.None? <==>
                WordPressProvided(inputs, outside.wpToolCache, outside.wpRestore, outside.wpTransfer) &&
                LibraryProvided(inputs, outside.libToolCache, outside.libRestore, outside.libCheckout)
      ensures old(workspace).Some? ==> workspace == old(workspace)
      ensures PathJoin(inputs.dir, "wordpress.zip") !in paths
      ensures KeptApartFromArtifacts(old(paths), paths, inputs.dir)
      ensures failure.None? ==>
                PathJoin(inputs.dir, WordPressTool) in paths && PathJoin(inputs.dir, TestLibraryTool) in paths
      ensures failure.None? && FindCachedResult(inputs, outside.libToolCache, outside.libRestore) == Ok(false) ==>
                CheckedOutClean(paths, inputs.dir)
      ensures var found := FindCachedResult(inputs, outside.wpToolCache, outside.wpRestore);
              found.Err? ==> failure == Some(found.message)
    {
      var wp := DownloadWordPress(wpUrl, outside.wpToolCache, outside.wpRestore, outside.wpTransfer);
      FindCachedEffects(inputs, WordPressTool, outside.wpToolCache, old(workspace));
      ghost var afterWp := log;
      ghost var w1 := workspace;
      ghost var p1 := paths;
      WordPressStepKept(old(paths), p1, inputs.dir);
      var lib := DownloadTestLibrary(wptlUrl, outside.libToolCache, outside.libRestore, outside.libCheckout);
      FindCachedEffects(inputs, TestLibraryTool, outside.libToolCache, w1);
      LogGrew(old(log), afterWp, log, inputs);
      LibraryStepKept(p1, paths, inputs.dir);
      KeptApartChain(old(paths), p1, paths, inputs.dir);
      failure := if wp.Err? then Some(wp.message) else if lib.Err? then Some(lib.message) else None;
    }

    /** The part of `run` that provides the artifacts: both downloads, then
        the configuration.  Returns the first error. */
    method Provide(v: Option<string>, outside: Outside) returns (failure: Option<string>)
      requires CachingNeedsSemVer(inputs)
      requires Template.Literal(inputs.dbName) && Template.Literal(inputs.dbUser)
      requires Template.Literal(inputs.dbPassword) && Template.Literal(inputs.dbHost)
      requires Template.Literal(inputs.dir)
      modifies this
      ensures inputs == old(inputs)
      ensures |log| >= |old(log)| && Quiet(log[|old(log)|..])
      ensures log[..|old(log)|] == old(log)
      ensures saved == Recorded(Recorded(old(saved), inputs, WordPressTool, outside.wpToolCache, outside.wpRestore),
                                inputs, TestLibraryTool, outside.libToolCache, outside.libRestore)
      ensures failure.None? <==>
                WordPressProvided(inputs, outside.wpToolCache, outside.wpRestore, outside.wpTransfer) &&
                LibraryProvided(inputs, outside.libToolCache, outside.libRestore, outside.libCheckout) &&
                outside.sample.Ok?
      ensures old(workspace).Some? ==> workspace == old(workspace)
      ensures PathJoin(inputs.dir, "wordpress.zip") !in paths
      ensures KeptApartFromArtifacts(old(paths), paths, inputs.dir)
      ensures failure.None? ==>
                outside.sample.Ok? && Provisioned(paths, inputs.dir) && |log| > |old(log)| &&
                log[|log| - 1] == Written(ConfigFile(inputs.dir), Configured(inputs, outside.sample.value))
      ensures failure.None? && FindCachedResult(inputs, outside.libToolCache, outside.libRestore) == Ok(false) ==>
                CheckedOutClean(paths, inputs.dir)
      ensures var found := FindCachedResult(inputs, outside.wpToolCache, outside.wpRestore);
              found.Err? ==> failure == Some(found.message)
    {
      var wpUrl := WpUtils.DownloadUrl(Rendered(v));
      var wptlUrl := WpUtils.TestLibraryBaseUrl(Rendered(v));
      failure := DownloadArtifacts(wpUrl, wptlUrl, outside);
      if failure.Some? {
        return;
      }
      ghost var beforeConfig := log;
      ghost var p2 := paths;
      var configured := ConfigureWordPress(wptlUrl, outside.sample);
      LogGrew(old(log), beforeConfig, log, inputs);
      if configured.Ok? {
        ConfigStepKept(old(paths), p2, inputs.dir,
                       FindCachedResult(inputs, outside.libToolCache, outside.libRestore) == Ok(false));
      }
      failure := if configured.Err? then Some(configured.message) else None;
    }

    /** What `run` does once prepared: provide the artifacts, then either
        report the first error or publish the locations.  Returns, for the
        proof, what it appended before the ending and the ending itself. */
    method Complete(v: Option<string>, outside: Outside) returns (ghost middle: seq<Event>, ghost last: seq<Event>)
      requires CachingNeedsSemVer(inputs)
      requires Template.Literal(inputs.dbName) && Template.Literal(inputs.dbUser)
      requires Template.Literal(inputs.dbPassword) && Template.Literal(inputs.dbHost)
      requires Template.Literal(inputs.dir)
      modifies this
      ensures inputs == old(inputs)
      ensures log == old(log) + middle + last && Quiet(middle)
      ensures (|last| == 1 && last[0].Failed?) || last == Publication(inputs.dir)
      ensures last == Publication(inputs.dir) <==>
                WordPressProvided(inputs, outside.wpToolCache, outside.wpRestore, outside.wpTransfer) &&
                LibraryProvided(inputs, outside.libToolCache, outside.libRestore, outside.libCheckout) &&
                outside.sample.Ok?
      ensures saved == Recorded(Recorded(old(saved), inputs, WordPressTool, outside.wpToolCache, outside.wpRestore),
                                inputs, TestLibraryTool, outside.libToolCache, outside.libRestore)
      ensures old(workspace).Some? ==> workspace == old(workspace)
      ensures PathJoin(inputs.dir, "wordpress.zip") !in paths
      ensures KeptApartFromArtifacts(old(paths), paths, inputs.dir)
      ensures last == Publication(inputs.dir) ==>
                outside.sample.Ok? && Provisioned(paths, inputs.dir) && |middle| > 0 &&
                middle[|middle| - 1] == Written(ConfigFile(inputs.dir), Configured(inputs, outside.sample.value))
      ensures last == Publication(inputs.dir) &&
              FindCachedResult(inputs, outside.libToolCache, outside.libRestore) == Ok(false) ==>
                CheckedOutClean(paths, inputs.dir)
      ensures var found := FindCachedResult(inputs, outside.wpToolCache, outside.wpRestore);
              found.Err? ==> last == [FailureReport(found.message)]
    {
      var failure := Provide(v, outside);
      middle := log[|old(log)|..];
      assert log == old(log) + middle;
      var ending := if failure.Some? then [FailureReport(failure.value)] else Publication(inputs.dir);
      log := log + ending;
      last := ending;
    }

    /** `run`: check the work directory, resolve the version, clear the
        leftovers, provide both artifacts, write the configuration and
        publish the locations; the first error ends the run with a single
        failure report.  The ghost results name, for the contract, what the
        run appended between the preamble and its ending, and the ending. */
    method Run(outside: Outside) returns (ghost middle: seq<Event>, ghost last: seq<Event>)
      requires Template.Literal(inputs.dbName) && Template.Literal(inputs.dbUser)
      requires Template.Literal(inputs.dbPassword) && Template.Literal(inputs.dbHost)
      requires Template.Literal(inputs.dir)
      modifies this
      ensures !outside.dirExists ==>
                log == old(log) + [DirChecked(old(inputs).dir),
                                   FailureReport("Directory " + old(inputs).dir + " does not exist")] &&
                inputs == old(inputs) && paths == old(paths) && saved == old(saved)
      ensures outside.dirExists && Resolution(old(inputs), outside).Err? ==>
                log == old(log) + ([DirChecked(old(inputs).dir)] + FeedQuery(old(inputs).version) +
                                   [FailureReport(Resolution(old(inputs), outside).message)]) &&
                inputs == old(inputs) && paths == old(paths) && saved == old(saved)
      ensures outside.dirExists && Resolution(old(inputs), outside).Ok? ==>
                (var v := Resolution(old(inputs), outside).value;
                 inputs == WithSemVer(old(inputs), CoercedSemVer(v, outside.coerce)) &&
                 log == old(log) + (Preamble(old(inputs), v) + middle + last) && Quiet(middle) &&
                 ((|last| == 1 && last[0].Failed?) || last == Publication(inputs.dir)) &&
                 (last == Publication(inputs.dir) <==>
                    WordPressProvided(inputs, outside.wpToolCache, outside.wpRestore, outside.wpTransfer) &&
                    LibraryProvided(inputs, outside.libToolCache, outside.libRestore, outside.libCheckout) &&
                    outside.sample.Ok?) &&
                 saved == Recorded(Recorded(old(saved), inputs, WordPressTool, outside.wpToolCache, outside.wpRestore),
                                   inputs, TestLibraryTool, outside.libToolCache, outside.libRestore))
      ensures old(workspace).Some? ==> workspace == old(workspace)
      ensures KeptApartFromArtifacts(old(paths), paths, old(inputs).dir)
      ensures outside.dirExists && Resolution(old(inputs), outside).Ok? ==>
                inputs.dir == old(inputs).dir && PathJoin(inputs.dir, "wordpress.zip") !in paths &&
                (last == Publication(inputs.dir) ==>
                   outside.sample.Ok? && Provisioned(paths, inputs.dir) && |middle| > 0 &&
                   middle[|middle| - 1] == Written(ConfigFile(inputs.dir), Configured(inputs, outside.sample.value))) &&
                (last == Publication(inputs.dir) &&
                 FindCachedResult(inputs, outside.libToolCache, outside.libRestore) == Ok(false) ==>
                   CheckedOutClean(paths, inputs.dir)) &&
                (var found := FindCachedResult(inputs, outside.wpToolCache, outside.wpRestore);
                 found.Err? ==> last == [FailureReport(found.message)])
    {
      var prepared := Prepare(outside);
      ghost var prepPaths := paths;
      ghost var before := log;
      if prepared.Err? {
        var failure := [FailureReport(prepared.message)];
        log := log + failure;
        Regrouped(old(log), [DirChecked(old(inputs).dir)], FeedQuery(old(inputs).version), failure);
        return [], [];
      }
      middle, last := Complete(prepared.value, outside);
      KeptApartChain(old(paths), prepPaths, paths, inputs.dir);
      Regrouped(old(log), Preamble(old(inputs), prepared.value), middle, last);
    }
  }
}
