/** Selection of a version from the WordPress version-check feed
    (src/wpapi.ts).  The HTTP request is not modelled: the answer of
    `HttpClient.getJson` arrives as a `Feed`.  Either the request resolved,
    with the status code and, when the body parsed, the `version` of each
    offer in feed order; or it rejected, with the client's error message. */
module WpApi {

  import opened Wrappers
  import opened Text
  import Sorting
  import Versions

  type VersionText = Versions.VersionText

  /** The statuses `getJson` resolves with: up to 299, and 404 (with no
      body).  Every other status makes the request reject. */
  type ResolvedStatus = s: nat | s <= 299 || s == 404

  /** The feed's answer: a resolved request with its status and the offers'
      versions, if a body came back; or a rejected request and its message. */
  datatype Feed =
    | Feed(status: ResolvedStatus, offers: Option<seq<VersionText>>)
    | Rejected(message: string)

  /** `json.statusCode === 200 && json.result`. */
  predicate Usable(feed: Feed) {
    feed.Feed? && feed.status == 200 && feed.offers.Some?
  }

  /** The error both lookups throw when the request resolved but the feed is
      not usable. */
  function FetchFailure(status: ResolvedStatus): string {
    "Failed to fetch WordPress versions: error " + Versions.DecimalText(status)
  }

  /** What reading `.version` of the missing `offers[0]` throws. */
  const MissingOffer := "Cannot read properties of undefined (reading 'version')"

  // ---------------------------------------------------------------------
  // getLatestVersion
  // ---------------------------------------------------------------------

  /** `getLatestVersion`: the first offer's version of a usable feed. */
  function LatestVersion(feed: Feed): (r: Result<VersionText>)
    ensures r.Ok? <==> Usable(feed) && |feed.offers.value| > 0
    ensures r.Ok? ==> r.value == feed.offers.value[0]
    ensures Usable(feed) && |feed.offers.value| == 0 ==> r == Err(MissingOffer)
    ensures feed.Feed? && !Usable(feed) ==> r == Err(FetchFailure(feed.status))
    ensures feed.Rejected? ==> r == Err(feed.message)
  {
    match feed
    case Rejected(message) => Err(message)
    case Feed(status, offers) =>
      if status == 200 && offers.Some? then
        if |offers.value| > 0 then Ok(offers.value[0]) else Err(MissingOffer)
      else
        Err(FetchFailure(status))
  }

  // ---------------------------------------------------------------------
  // getLatestBranchVersion
  // ---------------------------------------------------------------------

  /** `offers.filter(o => o.version.startsWith(prefix)).map(o => o.version)`:
      the offers whose version starts with prefix, in feed order. */
  function Candidates(offers: seq<VersionText>, prefix: string): (c: seq<VersionText>)
    ensures |c| <= |offers|
    ensures forall v :: v in c <==> v in offers && StartsWith(v, prefix)
  {
    if offers == [] then []
    else
      var front := Candidates(offers[..|offers| - 1], prefix);
      var last := offers[|offers| - 1];
      assert offers == offers[..|offers| - 1] + [last];
      if StartsWith(last, prefix) then front + [last] else front
  }

  /** `getLatestBranchVersion`: the head of the newest-first sort of the
      candidates; `None` when nothing matched (`sorted[0]` is undefined). */
  function LatestBranchVersion(feed: Feed, prefix: string): (r: Result<Option<VersionText>>)
    ensures r.Ok? <==> Usable(feed)
    ensures feed.Feed? && !Usable(feed) ==> r == Err(FetchFailure(feed.status))
    ensures feed.Rejected? ==> r == Err(feed.message)
  {
    match feed
    case Rejected(message) => Err(message)
    case Feed(status, offers) =>
      if status == 200 && offers.Some? then
        var sorted := Sorting.Sort(Candidates(offers.value, prefix), Versions.Compare);
        if |sorted| == 0 then Ok(None) else Ok(Some(sorted[0]))
      else
        Err(FetchFailure(status))
  }

  /** The filter keeps feed order: it distributes over concatenation. */
  lemma {:induction false} CandidatesAppend(a: seq<VersionText>, b: seq<VersionText>, prefix: string)
    ensures Candidates(a + b, prefix) == Candidates(a, prefix) + Candidates(b, prefix)
    decreases |b|
  {
    if b == [] {
      assert a + b == a;
    } else {
      var b' := b[..|b| - 1];
      assert (a + b)[..|a + b| - 1] == a + b';
      assert (a + b)[|a + b| - 1] == b[|b| - 1];
      CandidatesAppend(a, b', prefix);
    }
  }

  /** A single offer is kept exactly when its version starts with prefix. */
  lemma CandidatesSingle(v: VersionText, prefix: string)
    ensures Candidates([v], prefix) == if StartsWith(v, prefix) then [v] else []
  {
    assert [v][..0] == [];
  }

  /** The sorted candidates are the candidates reordered, newest first. */
  lemma SortedCandidates(offers: seq<VersionText>, prefix: string)
    ensures var c := Candidates(offers, prefix);
            var s := Sorting.Sort(c, Versions.Compare);
            multiset(s) == multiset(c) && Sorting.SortedBy(s, Versions.Compare)
  {
    Versions.CompareIsTotalPreorder();
    var c := Candidates(offers, prefix);
    Sorting.SortPermutes(c, Versions.Compare);
    Sorting.SortIsSorted(c, Versions.Compare);
  }

  /** Nothing is found exactly when no offer starts with prefix; no error is raised then. */
  lemma BranchAbsentIffNoMatch(feed: Feed, prefix: string)
    requires Usable(feed)
    ensures LatestBranchVersion(feed, prefix) == Ok(None) <==>
            forall v :: v in feed.offers.value ==> !StartsWith(v, prefix)
  {
    var c := Candidates(feed.offers.value, prefix);
    Sorting.SortPermutes(c, Versions.Compare);
    if c != [] {
      assert c[0] in c;
    }
  }

  /** A found version is one of the offers and starts with prefix. */
  lemma BranchIsMatchingOffer(feed: Feed, prefix: string)
    requires LatestBranchVersion(feed, prefix).Ok?
    requires LatestBranchVersion(feed, prefix).value.Some?
    ensures var v := LatestBranchVersion(feed, prefix).value.value;
            v in feed.offers.value && StartsWith(v, prefix)
  {
    var c := Candidates(feed.offers.value, prefix);
    var s := Sorting.Sort(c, Versions.Compare);
    SortedCandidates(feed.offers.value, prefix);
    assert s[0] in multiset(s);
  }

  /** A found version is at least as new as every candidate. */
  lemma BranchIsNewest(feed: Feed, prefix: string)
    requires LatestBranchVersion(feed, prefix).Ok?
    requires LatestBranchVersion(feed, prefix).value.Some?
    ensures var v := LatestBranchVersion(feed, prefix).value.value;
            forall w :: w in feed.offers.value && StartsWith(w, prefix) ==> Versions.AtLeast(v, w)
  {
    var c := Candidates(feed.offers.value, prefix);
    var s := Sorting.Sort(c, Versions.Compare);
    SortedCandidates(feed.offers.value, prefix);
    Versions.CompareIsTotalPreorder();
    forall w | w in feed.offers.value && StartsWith(w, prefix)
      ensures Versions.AtLeast(s[0], w)
    {
      assert w in multiset(s);
      var k :| 0 <= k < |s| && s[k] == w;
      if k > 0 {
        assert Versions.Compare(s[0], s[k]) <= 0;
      } else {
        Versions.CompareReflexive(w);
      }
    }
  }

  /** Among equally new candidates the sort is stable, so the one found is
      the earliest of them in feed order. */
  lemma BranchIsFirstNewest(feed: Feed, prefix: string)
    requires LatestBranchVersion(feed, prefix).Ok?
    requires LatestBranchVersion(feed, prefix).value.Some?
    ensures exists k :: Sorting.FirstOfFront(Candidates(feed.offers.value, prefix), k, Versions.Compare) &&
                        Candidates(feed.offers.value, prefix)[k] == LatestBranchVersion(feed, prefix).value.value
  {
    var c := Candidates(feed.offers.value, prefix);
    Versions.CompareIsTotalPreorder();
    Sorting.SortPermutes(c, Versions.Compare);
    assert |c| > 0;
    Sorting.SortFront(c, Versions.Compare);
    var k :| Sorting.FirstOfFront(c, k, Versions.Compare) && c[k] == Sorting.Sort(c, Versions.Compare)[0];
    assert LatestBranchVersion(feed, prefix).value.value == Sorting.Sort(c, Versions.Compare)[0];
  }
}
