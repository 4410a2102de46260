/** Turning the `version` input into a concrete WordPress version, and the
    two download locations derived from it (src/wputils.ts). */
module WpUtils {

  import opened Wrappers
  import opened Text
  import WpApi
  import Versions

  // ---------------------------------------------------------------------
  // resolveWordPressVersion
  // ---------------------------------------------------------------------

  /** The four ways a version specifier is handled. */
  datatype Request =
    | Nightly                   // "nightly" or "trunk": the nightly build
    | AskLatest                 // "latest": ask the feed for its first offer
    | AskBranch(prefix: string) // "<prefix>.x": ask the feed for the newest <prefix>* offer
    | Literal(version: string)  // anything else, used as it is

  /** The checks of `resolveWordPressVersion`, in their order. */
  function Classify(spec: string): (r: Request)
    ensures r == Nightly <==> spec == "nightly" || spec == "trunk"
    ensures r == AskLatest <==> spec == "latest"
    ensures r.AskBranch? <==> spec != "nightly" && spec != "trunk" && spec != "latest" && EndsWith(spec, ".x")
    ensures r.AskBranch? ==> r.prefix + ".x" == spec
    ensures r.Literal? ==> r.version == spec
  {
    if spec == "nightly" || spec == "trunk" then Nightly
    else if spec == "latest" then AskLatest
    else if EndsWith(spec, ".x") then
      var p := spec[..|spec| - 2];
      assert p + ".x" == spec;
      AskBranch(p)
    else Literal(spec)
  }

  /** Every "<prefix>.x" asks for branch <prefix>: `slice(0, -2)` undoes the suffix. */
  lemma ClassifyBranch(prefix: string)
    ensures Classify(prefix + ".x") == AskBranch(prefix)
  {
    var s := prefix + ".x";
    assert s[|s| - 2..] == ".x";
    assert s[..|s| - 2] == prefix;
  }

  /** `resolveWordPressVersion` against a given feed answer.  The result is
      `None` when a branch has no offer (the promise resolves to undefined). */
  function ResolveWordPressVersion(spec: string, feed: WpApi.Feed): (r: Result<Option<string>>)
    ensures Classify(spec) == Nightly ==> r == Ok(Some("nightly"))
    ensures Classify(spec).Literal? ==> r == Ok(Some(spec))
    ensures r.Err? ==> Classify(spec).AskLatest? || Classify(spec).AskBranch?
    ensures r.Ok? && r.value.None? ==> Classify(spec).AskBranch?
  {
    match Classify(spec)
    case Nightly => Ok(Some("nightly"))
    case AskLatest =>
      var latest := WpApi.LatestVersion(feed);
      if latest.Ok? then Ok(Some(latest.value)) else Err(latest.message)
    case AskBranch(prefix) =>
      var found := WpApi.LatestBranchVersion(feed, prefix);
      if found.Ok? then Ok(if found.value.Some? then Some(found.value.value) else None)
      else Err(found.message)
    case Literal(v) => Ok(Some(v))
  }

  /** "nightly" and "trunk" resolve to "nightly" and a literal to itself,
      whatever the feed says; only "latest" and "<prefix>.x" depend on it. */
  lemma ResolveWithoutFeed(spec: string, feed1: WpApi.Feed, feed2: WpApi.Feed)
    requires !Classify(spec).AskLatest? && !Classify(spec).AskBranch?
    ensures ResolveWordPressVersion(spec, feed1) == ResolveWordPressVersion(spec, feed2)
    ensures ResolveWordPressVersion(spec, feed1) ==
            Ok(Some(if spec == "nightly" || spec == "trunk" then "nightly" else spec))
  {
  }

  /** "latest" gives the feed's first offer, or the feed's error. */
  lemma ResolveLatest(feed: WpApi.Feed)
    ensures var r := ResolveWordPressVersion("latest", feed);
            var l := WpApi.LatestVersion(feed);
            (r.Ok? <==> l.Ok?) && (l.Ok? ==> r.value == Some(l.value)) && (l.Err? ==> r == Err(l.message))
  {
  }

  /** "<prefix>.x" gives the newest offer starting with prefix, `None` when
      there is none, or the feed's error. */
  lemma ResolveBranch(prefix: string, feed: WpApi.Feed)
    ensures var r := ResolveWordPressVersion(prefix + ".x", feed);
            var b := WpApi.LatestBranchVersion(feed, prefix);
            (r.Ok? <==> b.Ok?) &&
            (b.Ok? && b.value.Some? ==> r.value == Some(b.value.value)) &&
            (b.Ok? && b.value.None? ==> r.value == None) &&
            (b.Err? ==> r == Err(b.message))
  {
    ClassifyBranch(prefix);
  }

  /** A resolved branch version starts with the requested prefix. */
  lemma ResolvedBranchHasPrefix(prefix: string, feed: WpApi.Feed)
    requires ResolveWordPressVersion(prefix + ".x", feed).Ok?
    requires ResolveWordPressVersion(prefix + ".x", feed).value.Some?
    ensures StartsWith(ResolveWordPressVersion(prefix + ".x", feed).value.value, prefix)
  {
    ClassifyBranch(prefix);
    WpApi.BranchIsMatchingOffer(feed, prefix);
  }

  /** "5.9.9" is newer than "5.5.9". */
  lemma NineNewerThanFive(a: Versions.VersionText, b: Versions.VersionText)
    requires a == "5.9.9" && b == "5.5.9"
    ensures Versions.Compare(a, b) < 0
  {
    Versions.OneDigit("5"); Versions.OneDigit("9");
    Versions.SegmentsOfThree(a, "5", "9", "9");
    Versions.SegmentsOfThree(b, "5", "5", "9");
    assert Versions.Segment(a, 0) == 5 == Versions.Segment(b, 0);
    Versions.FirstDifferenceDecides(a, b, 1);
  }

  /** The offers of the example feed below that start with a prefix. */
  lemma ExampleCandidates(x: Versions.VersionText, y: Versions.VersionText, z: Versions.VersionText, prefix: string)
    ensures WpApi.Candidates([x, y, z], prefix) ==
            (if StartsWith(x, prefix) then [x] else []) +
            (if StartsWith(y, prefix) then [y] else []) +
            (if StartsWith(z, prefix) then [z] else [])
  {
    assert [x, y, z] == [x] + [y] + [z];
    WpApi.CandidatesAppend([x] + [y], [z], prefix);
    WpApi.CandidatesAppend([x], [y], prefix);
    WpApi.CandidatesSingle(x, prefix);
    WpApi.CandidatesSingle(y, prefix);
    WpApi.CandidatesSingle(z, prefix);
  }

  /** Branch 5 of the example feed below is 5.9.9. */
  lemma BranchFiveExample(feed: WpApi.Feed, five: string)
    requires feed == WpApi.Feed(200, Some(["9.9.9", "5.9.9", "5.5.9"]))
    requires five == "5"
    ensures WpApi.LatestBranchVersion(feed, five) == Ok(Some("5.9.9"))
  {
    var x, y, z: Versions.VersionText := "9.9.9", "5.9.9", "5.5.9";
    assert feed.offers.value == [x, y, z];
    ExampleCandidates(x, y, z, five);
    assert x[..1][0] == '9' && y[..1] == five && z[..1] == five;
    assert WpApi.Candidates(feed.offers.value, five) == [y, z];
    NineNewerThanFive(y, z);
    NewerOfTwo(feed, five, y, z);
  }

  /** When exactly two offers match and the first is newer, it is the answer. */
  lemma NewerOfTwo(feed: WpApi.Feed, prefix: string, y: Versions.VersionText, z: Versions.VersionText)
    requires WpApi.Usable(feed)
    requires WpApi.Candidates(feed.offers.value, prefix) == [y, z]
    requires Versions.Compare(y, z) < 0
    ensures WpApi.LatestBranchVersion(feed, prefix) == Ok(Some(y))
  {
    Versions.SortDistinct([y, z], [y, z]);
  }

  /** Branch 5.5 of the example feed below is 5.5.9. */
  lemma BranchFiveFiveExample(feed: WpApi.Feed, fiveFive: string)
    requires feed == WpApi.Feed(200, Some(["9.9.9", "5.9.9", "5.5.9"]))
    requires fiveFive == "5.5"
    ensures WpApi.LatestBranchVersion(feed, fiveFive) == Ok(Some("5.5.9"))
  {
    var x, y, z: Versions.VersionText := "9.9.9", "5.9.9", "5.5.9";
    assert feed.offers.value == [x, y, z];
    ExampleCandidates(x, y, z, fiveFive);
    assert x[..3][0] == '9' && y[..3][2] == '9' && z[..3] == fiveFive;
    assert WpApi.Candidates(feed.offers.value, fiveFive) == [z];
    Versions.SortDistinct([z], [z]);
  }

  /** A feed offering 9.9.9, 5.9.9 and 5.5.9 answers the four specifiers the
      way the mocked API does: "latest" gives 9.9.9, "5.x" gives 5.9.9,
      "5.5.x" gives 5.5.9 and "5.9.9" stays 5.9.9. */
  lemma ResolveExamples(feed: WpApi.Feed)
    requires feed == WpApi.Feed(200, Some(["9.9.9", "5.9.9", "5.5.9"]))
    ensures ResolveWordPressVersion("latest", feed) == Ok(Some("9.9.9"))
    ensures ResolveWordPressVersion("5.x", feed) == Ok(Some("5.9.9"))
    ensures ResolveWordPressVersion("5.5.x", feed) == Ok(Some("5.5.9"))
    ensures ResolveWordPressVersion("5.9.9", feed) == Ok(Some("5.9.9"))
  {
    var five, fiveFive := "5", "5.5";
    BranchFiveExample(feed, five);
    BranchFiveFiveExample(feed, fiveFive);
    assert "5.x" == five + ".x" && "5.5.x" == fiveFive + ".x";
    ResolveBranch(five, feed);
    ResolveBranch(fiveFive, feed);
  }

  // ---------------------------------------------------------------------
  // Download locations
  // ---------------------------------------------------------------------

  const NightlyBuildUrl := "https://wordpress.org/nightly-builds/wordpress-latest.zip"
  const WordPressUrl := "https://wordpress.org/wordpress-"
  const SvnUrl := "https://develop.svn.wordpress.org/"

  /** `getWordPressDownloadUrl`. */
  function DownloadUrl(version: string): (url: string)
    ensures version == "nightly" ==> url == NightlyBuildUrl
    ensures version != "nightly" ==> StartsWith(url, WordPressUrl) && EndsWith(url, ".zip")
  {
    if version == "nightly" then NightlyBuildUrl
    else
      var url := WordPressUrl + version + ".zip";
      assert url[..|WordPressUrl|] == WordPressUrl;
      assert url[|url| - 4..] == ".zip";
      url
  }

  /** Reads the version back out of a download URL. */
  function VersionOfDownloadUrl(url: string): Option<string>
  {
    if url == NightlyBuildUrl then Some("nightly")
    else if |url| >= |WordPressUrl| + 4 && StartsWith(url, WordPressUrl) && EndsWith(url, ".zip")
    then Some(url[|WordPressUrl|..|url| - 4])
    else None
  }

  /** The version is recoverable from its download URL, so distinct versions
      download from distinct URLs. */
  lemma DownloadUrlRoundTrip(version: string)
    ensures VersionOfDownloadUrl(DownloadUrl(version)) == Some(version)
  {
    var url := DownloadUrl(version);
    if version != "nightly" {
      assert url[21] == '/' && url[22] == 'w';
      assert NightlyBuildUrl[22] == 'n';
      assert url[|WordPressUrl|..|url| - 4] == version;
    }
  }

  /** `getWordPressTestLibraryBaseUrl`: the trunk, or the tag of the version. */
  function TestLibraryBaseUrl(version: string): (url: string)
    ensures StartsWith(url, SvnUrl)
    ensures version == "nightly" <==> url == SvnUrl + "trunk"
    ensures version != "nightly" ==> StartsWith(url, SvnUrl + "tags/") && url[|SvnUrl| + 5..] == version
  {
    var tag := if version == "nightly" then "trunk" else "tags/" + version;
    var url := SvnUrl + tag;
    assert url[..|SvnUrl|] == SvnUrl;
    assert version != "nightly" ==>
      url[|SvnUrl| + 1] == 'a' != (SvnUrl + "trunk")[|SvnUrl| + 1] &&
      url[..|SvnUrl| + 5] == SvnUrl + "tags/" && url[|SvnUrl| + 5..] == version;
    url
  }

  /** Reads the version back out of a test-library URL.  The tag "nightly"
      is not read back: that version lives on the trunk. */
  function VersionOfTestLibraryUrl(url: string): Option<string>
  {
    if url == SvnUrl + "trunk" then Some("nightly")
    else if StartsWith(url, SvnUrl + "tags/") && url[|SvnUrl| + 5..] != "nightly" then Some(url[|SvnUrl| + 5..])
    else None
  }

  /** The version is recoverable from its test-library URL. */
  lemma TestLibraryUrlRoundTrip(version: string)
    ensures VersionOfTestLibraryUrl(TestLibraryBaseUrl(version)) == Some(version)
  {
  }

  /** Every URL that reads back as a version is that version's URL, so the
      read-back accepts nothing the function does not produce. */
  lemma TestLibraryUrlReadBack(url: string, version: string)
    requires VersionOfTestLibraryUrl(url) == Some(version)
    ensures TestLibraryBaseUrl(version) == url
  {
    if version != "nightly" {
      var u := TestLibraryBaseUrl(version);
      assert u[..|SvnUrl| + 5] == SvnUrl + "tags/" == url[..|SvnUrl| + 5];
      assert u == u[..|SvnUrl| + 5] + u[|SvnUrl| + 5..];
      assert url == url[..|SvnUrl| + 5] + url[|SvnUrl| + 5..];
    }
  }
}
