# setup-wordpress-test-library, modelled in Dafny

A model of the GitHub Action that provisions the WordPress test library for
plugin tests. The action works in two steps.

- **Provisioning** (`src/main.ts`):
  - Read and default the inputs, then check the work directory.
  - Resolve the requested WordPress version (`nightly`/`trunk`, `latest`, a
    `<branch>.x` specifier, or a literal version) against the WordPress.org
    version feed.
  - Reduce it to a semantic version. Without one, both caches are switched off.
  - Remove the leftovers of an earlier run.
  - Obtain WordPress and the test library: from the runner's tool cache, from
    the remote cache, or by downloading the archive and checking out the
    library. A remote-cache miss records a directory and a key for the post
    step.
  - Write `wp-tests-config.php` from the sample configuration.
  - Publish the locations, or report the first error with a single failure.
- **Post step** (`src/post.ts`): for each of the two tools whose directory and
  key were recorded, save the remote cache from that directory, and turn a
  failure into a warning.

How the pieces are modelled:

- `Versions` and `Sorting` model the version comparator of `sortVersions`
  (`src/utils.ts`). It compares dot-separated numeric segments, with a
  missing segment counting as 0, and puts the newest version first.
  - The comparator is a specification function (`Compare`) plus the loop that
    computes it (`CompareVersions`).
  - The array sort is an in-place insertion sort proved equal to a
    functional insertion sort.
  - The proofs show the comparator is a total preorder, the sort is sorted
    and a permutation, and the sort of distinct versions is unique.
- `WpApi` models the two feed lookups (`src/wpapi.ts`). `WpUtils` models the
  version dispatch and the two download locations (`src/wputils.ts`).
- `Template` models the chain of first-occurrence replacements that turns
  the sample configuration into `wp-tests-config.php`.
- `Provision` models `src/main.ts`.
  - The process state the run changes is a class, `Runner`. Its fields are
    the inputs record that `resolveSemVer` updates in place,
    `GITHUB_WORKSPACE`, the state saved for the post step, the paths under the
    work directory, and the log of visible effects.
  - Every call to the outside world is a parameter carrying its outcome.
- `Finalize` models `src/post.ts` as a class, `Finalizer`. Its loop over the
  two tools is proved against a specification function, `Trace`.
- `Text` and `Wrappers` hold the string predicates and the `Option`/`Result`
  types the others share.

JavaScript behaviour the model keeps:

- A template literal renders `undefined` as the text `undefined`.
- `core.setOutput` writes `undefined` as the empty string.
- `coerce(undefined)` is `null`.
- `sorted[0]` of an empty candidate list is `undefined`, which
  `getLatestBranchVersion` returns instead of failing.
- `offers[0].version` of an empty offer list throws.
- `core.getState` of a name never saved is the empty string.
- Assigning the saved `undefined` back to `GITHUB_WORKSPACE` stores the text
  `undefined`.
- `String.prototype.replace` with a string pattern replaces only the first
  occurrence. Each replacement sees the output of the previous one.
- The guard of the tool-cache lookup at `src/main.ts:58` reads
  `!has_toolcache && semver`, so the tool cache is consulted only when it
  is not available. `Runner.FindCached`, the functions that specify it and
  the whole run follow the line as written. `tc.find` is then called only
  with RUNNER_TOOL_CACHE unset, and its answer is a parameter: a path, or
  a throw that fails the lookup and with it the run. The evidently
  intended guard, `has_toolcache && semver`, is modelled separately by
  `FindCachedResultCorrected` and `FindCachedEventsCorrected`. Only the
  lemmas of "## Findings" use it.

## Model

| member | source | states |
|---|---|---|
| Sorting.Insert | src/utils.ts:11 | one insertion step adds the element and exactly one position |
| Sorting.Sort | src/utils.ts:10-24 | the sort keeps the length of its input (its order, its permutation and its stability are the lemmas below) |
| Sorting.InsertPermutes | src/utils.ts:11 | one insertion step keeps every element and adds exactly the inserted one (multiset) |
| Sorting.SortPermutes | src/utils.ts:10-24 | the sort returns a permutation of its input: same length, same multiset |
| Sorting.SortPrefix | src/utils.ts:11 | sorting one more element is inserting it into the sorted prefix, which is how the in-place pass proceeds |
| Sorting.InsertAt | src/utils.ts:11 | an element lands after everything it does not beat and before the tail it strictly precedes |
| Sorting.InsertSorted | src/utils.ts:11 | under a total preorder, inserting into a sorted sequence keeps it sorted |
| Sorting.SortIsSorted | src/utils.ts:10-24 | under a total preorder, the result is ordered: no element is put after one the comparator ranks below it |
| Sorting.InsertFront | src/utils.ts:11 | the head after an insertion is the new element exactly when it beats every element already there |
| Sorting.SortFront | src/utils.ts:10-24 | the head of the sort is a best element, and the first of the best in input order, so the sort is stable at the front |
| Sorting.ChainStrict | src/utils.ts:10-24 | neighbours that are strictly ordered make the whole sequence strictly ordered |
| Sorting.SortedUnique | src/utils.ts:10-24 | an ordered permutation of a strictly ordered sequence is that sequence, so the result does not depend on the algorithm |
| Sorting.SortInPlace | src/utils.ts:11 | sorting the array in place leaves exactly the functional sort of its old contents |
| Sorting.InsertLast | src/utils.ts:11 | one pass moves a[i] back to its insertion point, shifts the elements it passes by one, and leaves the rest of the array alone |
| Versions.Split | src/utils.ts:12-13 | `split('.')` gives at least one part, none containing a dot, joining back to the input; the parts of a version are numerals |
| Versions.DecimalText | src/wpapi.ts:45 | the decimal rendering of a status code is a non-empty numeral with no leading zero that reads back as the number |
| Versions.CompareFrom | src/utils.ts:14-20 | from segment i on, a non-zero answer comes from a segment within the longer version |
| Versions.Compare | src/utils.ts:11-23 | a non-zero result is `bPart - aPart` at a segment where the two versions differ, with missing segments read as 0 |
| Versions.CompareVersions | src/utils.ts:11-23 | the comparator's loop returns the specification `Compare`: the difference of the first differing segments, else 0 |
| Versions.CompareZeroIff | src/utils.ts:14-22 | the comparator answers 0 exactly when every segment agrees, with missing segments read as 0 |
| Versions.FirstDifferenceDecides | src/utils.ts:17-18 | the first differing segment decides: the result is `bPart - aPart` there, and it is negative exactly when a's segment is larger |
| Versions.CompareReflexive | src/utils.ts:11-23 | every version compares equal to itself |
| Versions.CompareAntisymmetric | src/utils.ts:11-23 | swapping the arguments negates the result |
| Versions.CompareTransitive | src/utils.ts:11-23 | "at least as new" is transitive |
| Versions.CompareIsTotalPreorder | src/utils.ts:11-23 | the comparator is a consistent comparison function: reflexive, antisymmetric and transitive |
| Versions.SplitDotZero | src/utils.ts:12-13 | appending ".0" appends exactly one segment "0" |
| Versions.TrailingZeroSegment | src/utils.ts:15-16 | a trailing ".0" does not change a version's rank (5.9 equals 5.9.0), because a missing segment counts as 0 |
| Versions.LeadingZerosIgnored | src/utils.ts:15-16 | segments compare by numeric value: 5.09 and 5.9 rank equal |
| Versions.NumericNotLexical | test/utils.spec.ts:5-6 | 5.9.10 ranks above 5.9.3: segments compare as numbers, not text |
| Versions.SixNewerThanFiveNineTen | test/utils.spec.ts:5-6 | 6 ranks above 5.9.10: the first segment decides |
| Versions.ThreeNewerThanTwo | test/utils.spec.ts:5-6 | 5.9.3 ranks above 5.9.2 |
| Versions.PatchNewerThanNone | test/utils.spec.ts:5-6 | 5.9.2 ranks above 5.9: the missing patch counts as 0 |
| Versions.NineNewerThanEight | test/utils.spec.ts:5-6 | 5.9 ranks above 5.8 |
| Versions.MinorNewerThanNone | test/utils.spec.ts:5-6 | 5.8 ranks above 5: the missing minor counts as 0 |
| Versions.ExampleNeighbours | test/utils.spec.ts:6 | each neighbour of the expected order is strictly newer than the next |
| Versions.SortDistinct | src/utils.ts:10-24 | versions of pairwise different rank sort to the unique newest-first order, whatever the input order |
| Versions.SortExample | test/utils.spec.ts:4-9 | the tested input sorts to exactly the tested expected output |
| Versions.SortVersions | src/utils.ts:10-24 | `sortVersions` sorts the array in place to the newest-first functional sort of its old contents |
| Versions.SortVersionsNewestFirst | src/utils.ts:10-24 | the sort puts newer versions first and is a permutation of its input |
| WpApi.LatestVersion | src/wpapi.ts:37-46 | a usable feed with an offer yields the first offer; an empty offer list fails; a resolved but unusable feed fails with its status in the message; a rejected request fails with its own message |
| WpApi.Candidates | src/wpapi.ts:60-62 | the candidates are exactly the offered versions that start with the prefix, and no more than there are offers |
| WpApi.LatestBranchVersion | src/wpapi.ts:55-68 | the lookup succeeds exactly on a usable feed; a resolved but unusable feed fails with its status in the message; a rejected request fails with its own message |
| WpApi.CandidatesAppend | src/wpapi.ts:60-62 | the filter keeps feed order: it distributes over concatenation |
| WpApi.SortedCandidates | src/wpapi.ts:60-63 | the sorted candidates are the candidates, newest first |
| WpApi.BranchAbsentIffNoMatch | src/wpapi.ts:60-64 | on a usable feed the answer is `undefined` exactly when no offer starts with the prefix |
| WpApi.BranchIsMatchingOffer | src/wpapi.ts:60-64 | a found version is an offered version that starts with the prefix |
| WpApi.BranchIsNewest | src/wpapi.ts:60-64 | a found version is at least as new as every matching offer |
| WpApi.BranchIsFirstNewest | src/wpapi.ts:63-64 | among equally new matches, the one found is the first in feed order |
| WpUtils.Classify | src/wputils.ts:14-28 | the dispatch: nightly/trunk, then latest, then a ".x" suffix with its prefix, otherwise the literal text |
| WpUtils.ClassifyBranch | src/wputils.ts:23-24 | every "<prefix>.x" asks for branch <prefix> |
| WpUtils.ResolveWordPressVersion | src/wputils.ts:14-28 | nightly and trunk resolve to nightly and a literal to itself; only latest and "<prefix>.x" can fail, and only a branch can find nothing |
| WpUtils.ResolveWithoutFeed | src/wputils.ts:14-28 | nightly, trunk and literal versions resolve without the feed: nightly for the first two, the text itself otherwise |
| WpUtils.ResolveLatest | src/wputils.ts:19-21 | "latest" resolves to the feed's first offer, and fails exactly when that lookup fails, with its message |
| WpUtils.ResolveBranch | src/wputils.ts:23-25 | "<prefix>.x" resolves to the newest matching offer, to `undefined` when nothing matches, and fails with the lookup's message |
| WpUtils.ResolvedBranchHasPrefix | src/wputils.ts:23-25 | a version resolved from "<prefix>.x" starts with the prefix |
| WpUtils.NewerOfTwo | src/wpapi.ts:63-64 | with exactly two matches, the newer one is the answer |
| WpUtils.BranchFiveExample | test/mocks/wpapi.ts:7-8 | a feed of 9.9.9, 5.9.9 and 5.5.9 answers branch 5 with 5.9.9, as the mock does |
| WpUtils.BranchFiveFiveExample | test/mocks/wpapi.ts:9-10 | the same feed answers branch 5.5 with 5.5.9 |
| WpUtils.ResolveExamples | test/wputils.spec.ts:9-19 | latest, 5.x, 5.5.x and 5.9.9 resolve to 9.9.9, 5.9.9, 5.5.9 and 5.9.9 |
| WpUtils.DownloadUrl | src/wputils.ts:36-42 | nightly downloads the nightly build; any other version downloads a `.zip` under the release URL |
| WpUtils.DownloadUrlRoundTrip | src/wputils.ts:36-42 | the version can be read back from its download URL, so distinct versions get distinct URLs |
| WpUtils.TestLibraryBaseUrl | src/wputils.ts:50-53 | the URL is the trunk exactly for nightly; any other version gets `tags/` followed by the version, under the develop SVN repository |
| WpUtils.TestLibraryUrlRoundTrip | src/wputils.ts:50-53 | the version can be read back from its SVN URL (trunk for nightly, a tag otherwise) |
| WpUtils.TestLibraryUrlReadBack | src/wputils.ts:50-53 | a URL that reads back as a version is that version's URL, so the read-back accepts nothing else |
| Template.FindFrom | src/main.ts:137 | the search finds the first occurrence at or after the start, or reports that there is none |
| Template.FindFirst | src/main.ts:137 | the search finds the first occurrence of the marker, or reports that there is none |
| Template.ReplaceFirst | src/main.ts:137 | without the marker the text is unchanged; with it, the length changes by the value's length minus the marker's |
| Template.ReplaceAbsent | src/main.ts:137-141 | without the marker, the text is returned unchanged |
| Template.ReplaceFirstOccurrence | src/main.ts:137 | the first occurrence is replaced by the value; the text before and after it is kept |
| Template.LaterOccurrenceKept | src/main.ts:137-141 | only the first occurrence is replaced: a later one survives, shifted |
| Template.ConfigureWithoutMarkers | src/main.ts:136-141 | a sample with none of the five markers is written back unchanged |
| Template.ReplaceWhole | src/main.ts:137 | a text that is the marker becomes the value |
| Template.Configure | src/main.ts:136-141 | the five replacements in their order add at most the five values to the sample |
| Template.EarlierValueReplacedLater | src/main.ts:137-138 | a database name containing the user marker is itself rewritten by the next replacement, because each replacement sees the previous output |
| Provision.GetInputs | src/main.ts:26-47 | the text inputs are never empty; the remote cache is on exactly when the feature is available off GHES; the tool cache is on exactly when RUNNER_TOOL_CACHE is set; no semver yet |
| Provision.InputDefaults | src/main.ts:32-43 | each empty input falls back to its default (latest, tmpdir, wordpress, wordpress, wordpress_test, 127.0.0.1), and a non-empty one is kept |
| Provision.WithSemVer | src/main.ts:49-55 | the semver is stored; without a truthy semver both caches are off; with one both flags are kept; nothing else changes |
| Provision.SemVerPolicy | src/main.ts:49-55 | after resolving, no cache is on without a semver |
| Provision.CacheKey | src/main.ts:69 | the key is `1:<prefix>:<tool>:` followed by the semver |
| Provision.KeySeparatesVersions | src/main.ts:69 | two keys of one tool are equal only when their semvers render equal |
| Provision.ToolKeysDiffer | src/main.ts:69 | WordPress and the test library never share a cache key |
| Provision.ArchiveApart | src/main.ts:94-107 | removing the archive cannot remove the unpacked WordPress directory |
| Provision.LibraryApart | src/main.ts:125-128 | removing either `.svn` cannot remove either checkout |
| Provision.Removed | src/main.ts:160-164 | `rmRF` removes the path and adds nothing |
| Provision.RemovedBelow | src/main.ts:160-164 | `rmRF` removes everything below the path |
| Provision.RemovedKeeps | src/main.ts:160-164 | `rmRF` keeps every path that is neither the target nor below it |
| Provision.SvnRemoved | src/main.ts:125-128 | after both `.svn` removals, both checkouts remain and neither `.svn` does |
| Provision.FindCachedResult | src/main.ts:57-91 | with the guard of line 58 as written: the lookup fails exactly when `tc.find` runs and throws, or when the remote restore throws and the tool cache settled nothing; it is true exactly on a tool-cache hit or a remote hit the tool cache left to be asked |
| Provision.FindCachedEvents | src/main.ts:58-75 | at most two effects; the first is a tool-cache find exactly when line 58 as written queries it; a tool-cache hit is a find and a link at `dir/<tool>`; a restore happens only with the remote cache on and the tool cache settling nothing |
| Provision.WorkspaceAfter | src/main.ts:70-84 | a set GITHUB_WORKSPACE is put back unchanged; an unset one becomes set only when the remote cache was asked |
| Provision.OverlappedRestoresLeaveWorkDir | src/main.ts:70-83 | when the second lookup starts during the first one's restore, GITHUB_WORKSPACE ends as the work directory; one lookup after the other restores the prior value |
| Provision.PathsAfter | src/main.ts:58-80 | the lookup adds at most `dir/<tool>`, and adds it exactly when a cache had the tool |
| Provision.Recorded | src/main.ts:86-87 | only `dir_<tool>` and `cache_key_<tool>` can be added; every other saved entry is kept |
| Provision.FindCachedEffects | src/main.ts:57-91 | lookups report nothing; a remote restore runs from the work directory with the tool's key; a set workspace is restored; unless `tc.find` threw the outcome is known, and the remote answer matters exactly when the remote cache is asked, that is when the tool cache (under line 58 as written) settled nothing |
| Provision.MissRecordsKey | src/main.ts:86-87 | a remote miss that the tool cache left to be asked records the work directory and the non-empty key for the tool |
| Provision.NothingRecordedUnlessMiss | src/main.ts:68-88 | nothing is recorded on a hit, on an error, or with the remote cache off |
| Provision.ToolCacheIgnoredWhenAvailable | src/main.ts:58-65 | as written, with the tool cache available the lookup is skipped: whatever `tc.find` would answer, a throw included, changes neither the outcome nor the effects |
| Provision.FindCachedResultCorrected | src/main.ts:57-91 | with the evidently intended guard `has_toolcache && semver`: the lookup fails exactly when the remote restore throws with no tool-cache hit, and is true exactly on a tool-cache hit or a remote hit |
| Provision.FindCachedEventsCorrected | src/main.ts:58-75 | with the evidently intended guard: at most two effects, the first a tool-cache find exactly when the tool cache is available and a semver is set; a restore only with no tool-cache hit |
| Provision.SeededCopyIgnoredAsWritten | src/main.ts:58-65 | a concrete run: with WordPress 5.9.9 seeded in an available tool cache and the remote cache off, the line as written misses the copy, and the corrected guard uses it |
| Provision.LookupRunsOnlyWithoutToolCache | src/main.ts:41-59 | as written, after `getInputs` and `resolveSemVer` the tool cache is queried exactly when RUNNER_TOOL_CACHE is unset and a semver exists, and a throw of `tc.find` there fails the lookup |
| Provision.CorrectedLookupNeedsToolCache | src/main.ts:41-59 | with the corrected guard the tool cache is queried exactly when RUNNER_TOOL_CACHE is set and a semver exists |
| Provision.ToolCacheUsedWhenAvailable | src/main.ts:58-65 | with the corrected guard the tool cache is read exactly when available, under the tool and semver that seeding writes; a copy found there is linked at `dir/<tool>` without asking the remote cache |
| Provision.Preamble | src/main.ts:149-164 | the run starts with the directory check, and before the lookups it neither fetches an artifact nor fails |
| Provision.Publication | src/main.ts:176-178 | success is reported by three effects, none a failure |
| Provision.Concluded | src/main.ts:176-182 | a run ends with a failure or with the publication, and it is published exactly when it ends with the publication |
| Provision.StoppedEarly | src/main.ts:180-182 | a run that fails before fetching anything is orderly and unpublished |
| Provision.MissingDirectoryOrderly | src/main.ts:149-151 | a missing directory ends the run with that one failure, unpublished |
| Provision.UnresolvedOrderly | src/main.ts:153-156 | a failed version lookup ends the run with that one failure, unpublished |
| Provision.ClearedByPreamble | src/main.ts:158-171 | every leftover is removed before any artifact is looked up or fetched |
| Provision.FailsOnlyLast | src/main.ts:145-183 | a failure can only be the run's last effect |
| Provision.ProvidedRunOrderly | src/main.ts:145-183 | a run that gets past the version is orderly, and is published exactly when it ends with the publication |
| Provision.Runner.constructor | src/main.ts:147 | the run starts from `getInputs` with an empty log |
| Provision.Runner.ResolveSemVer | src/main.ts:49-55 | updates the inputs in place as `WithSemVer` of the coerced version, so no cache stays on without a semver; nothing else changes |
| Provision.Runner.FindCached | src/main.ts:57-91 | with the guard of line 58 as written: returns `FindCachedResult`, a throw of `tc.find` included; records state only on a remote miss; appends the lookups; restores the workspace; a hit of either cache leaves `dir/<tool>` in place |
| Provision.Runner.DownloadWordPress | src/main.ts:93-109 | succeeds exactly when WordPress is found or downloaded (cacheDir failing only with the tool cache on); the archive is gone afterwards on every path; the paths change only by that removal and at most the WordPress directory; seeds only under the semver; a failed lookup, a throw of `tc.find` included, is its error |
| Provision.Runner.TryDownloadWordPress | src/main.ts:95-105 | the body inside `try`: the same outcome and the same error of a failed lookup, before the archive is removed |
| Provision.Runner.DownloadUnlessFound | src/main.ts:96-105 | nothing happens when found or on error, and a lookup error is passed on; after a miss, success leaves the WordPress directory |
| Provision.Runner.FetchWordPress | src/main.ts:100-105 | the download comes first, the extraction second and, with the tool cache on, the seeding under the semver last; a failed download stops after one step; the outcome and the paths that can appear follow the failing step |
| Provision.Runner.DownloadTestLibrary | src/main.ts:111-133 | succeeds exactly when the library is found or checked out; a fresh checkout leaves both directories without `.svn`; nothing outside the library directory changes; a failed lookup is its error |
| Provision.Runner.CheckOutUnlessFound | src/main.ts:112-132 | nothing happens when found or on error, and a lookup error is passed on; after a miss, success leaves a clean checkout |
| Provision.Runner.CheckOutTestLibrary | src/main.ts:116-132 | both checkouts run; success leaves both directories and no `.svn` |
| Provision.Runner.CheckOut | src/main.ts:117-123 | `mkdirP` adds the library directory, and each checkout that succeeds adds its directory with its `.svn` |
| Provision.Runner.RemoveSvn | src/main.ts:125-128 | both `.svn` directories are removed, both checkouts stay, and nothing outside the library changes |
| Provision.Runner.ConfigureWordPress | src/main.ts:135-143 | fetches the sample; on success writes exactly the substituted text to `wp-tests-config.php`; on failure reports the fetch error and writes nothing |
| Provision.Runner.Prepare | src/main.ts:147-164 | fails on a missing directory or a failed lookup, before any removal; otherwise outputs the version, resolves the semver and removes the three leftovers |
| Provision.Runner.DownloadArtifacts | src/main.ts:169-171 | no failure exactly when both artifacts are provided; the archive is absent; nothing outside the two artifact directories and the archive changes; on success both directories exist; both lookups record what they record; a failed WordPress lookup is the failure |
| Provision.Runner.Provide | src/main.ts:169-174 | no failure exactly when WordPress, the library and the configuration are all provided; then both directories and `wp-tests-config.php` exist, the archive does not, and the last effect writes the substituted sample; nothing outside the artifacts changes; a failed WordPress lookup is the failure |
| Provision.Runner.Complete | src/main.ts:169-178 | ends with the publication exactly when everything was provided, and otherwise with one failure; a published run leaves both directories and the configuration in place and no archive; a failed WordPress lookup, a throw of `tc.find` included, ends it with that one failure |
| Provision.Runner.Run | src/main.ts:145-183 | the whole run: each early failure has its exact log; otherwise preamble, quiet middle, and the publication exactly when everything was provided, after which both directories, `wp-tests-config.php` with the substituted sample, and no archive, exist; with line 58 as written, a failed WordPress lookup, a throw of `tc.find` included, ends the run with that one failure |
| Finalize.Finalizer.constructor | src/post.ts:8-9 | the post step starts from the saved state, the environment and the working directory, with nothing done |
| Finalize.Finalizer.Run | src/post.ts:6-23 | the loop's steps, workspace and working directory are those of the specification `Trace` over both tools |
| Finalize.StepsFor | src/post.ts:8-20 | an iteration does nothing exactly when its tool is not attempted, takes at most two steps, and saves only with its tool's own key from its own directory |
| Finalize.Trace | src/post.ts:7-22 | the loop takes at most two steps per tool |
| Finalize.Attempted | src/post.ts:7-11 | only tools whose directory and key are both non-empty are attempted, at most one per iteration |
| Finalize.WorkspaceAfter | src/post.ts:7-14 | GITHUB_WORKSPACE is either as it was or a non-empty recorded directory |
| Finalize.CwdAfter | src/post.ts:7-15 | the working directory is either as it was or a non-empty recorded directory |
| Finalize.ToolsDistinct | src/post.ts:4 | the two tools are different |
| Finalize.AttemptedExactly | src/post.ts:7-11 | a tool is attempted exactly when its directory and key are both non-empty; each is attempted at most once |
| Finalize.OwnKey | src/post.ts:8-17 | every save is for one attempted tool, with that tool's own key, from that tool's own directory |
| Finalize.SavesMatchAttempts | src/post.ts:11-17 | when no chdir fails, the tools saved are exactly the tools attempted, in order |
| Finalize.SavesWithinAttempts | src/post.ts:11-20 | only attempted tools are saved |
| Finalize.SavedAtMostOnce | src/post.ts:4-17 | no tool is saved twice |
| Finalize.SavedPairDistinct | src/post.ts:4-17 | two saves are one per tool, in order |
| Finalize.SavedOfSteps | src/post.ts:11-20 | one iteration saves its tool exactly when attempted and the chdir succeeds, including when the save throws |
| Finalize.FailureContained | src/post.ts:13-20 | a failure for the first tool does not change what happens for the second |
| Finalize.WorkspaceIsLastAttempted | src/post.ts:14 | GITHUB_WORKSPACE ends as the directory of the last attempted tool |
| Finalize.CwdIsLastSaved | src/post.ts:15 | the working directory ends as the directory of the last tool whose chdir succeeded |
| Finalize.MissLeadsToSave | src/post.ts:8-17 | a remote miss during provisioning, asked because the tool cache (under line 58 as written) settled nothing, leads the post step to save that tool under the same key from the same directory, whenever the directory is non-empty |

## Left out

- Network I/O is not modelled. The version feed, the remote cache, the tool cache, `downloadTool`, `extractZip`, `cacheDir`, the SVN checkouts and `downloadAsText` (src/utils.ts:50-58) are parameters carrying their outcomes. HTTP retries and the text of download errors are carried as given.
- WpApi.LatestVersion: the feed request is either rejected, with the client's message, or resolved with a status of at most 299 or 404, which are the statuses `getJson` resolves with. Which message the client builds for a rejection is not modelled. The same holds for WpApi.LatestBranchVersion.
- `isDir`, `isGHES`, `tmpdir`, `cache.isFeatureAvailable` and `RUNNER_TOOL_CACHE` are parameters. How `isGHES` parses the server URL (src/utils.ts:65-73) is not modelled.
- The internals of `semver`'s `coerce` are not modelled. It is a function parameter.
- `core.info` messages are not modelled. They have no effect the run depends on.
- Versions.Compare: only versions of digits and dots are covered. A segment that is not a number makes `Number` return NaN, which the model excludes by the `VersionText` type. This also applies to WpApi.LatestBranchVersion, whose feed offers are `VersionText`.
- Versions.Compare: segments are unbounded naturals. `Number` loses precision above 2^53, so two segments of 17 or more digits that differ can compare equal in the source but not in the model.
- Sorting.SortInPlace: insertion sort stands in for the engine's `Array.prototype.sort`. Both are stable, and `Sorting.SortedUnique` shows that any ordered permutation of distinct versions is the same sequence. The engine's algorithm itself is not modelled.
- Provision.GetInputs: `path.resolve` of the directory (src/main.ts:45) is not modelled. The directory is kept as given. `path.join` is concatenation with "/", without normalisation.
- Provision.Runner.Run: requires that the database inputs and the directory contain no "$". `String.prototype.replace` would read `$` sequences as replacement patterns, which are not modelled. The same holds for Provision.Runner.Provide, Provision.Runner.Complete, Provision.Runner.ConfigureWordPress and Template.Configure.
- Provision.Runner.DownloadArtifacts: the two downloads run one after the other. The WordPress error is reported when both fail. `Promise.all` runs them concurrently and reports whichever rejection comes first, and interleaving is not modelled. The same holds for Provision.Runner.Provide, Provision.Runner.Complete and Provision.Runner.Run.
- Provision.Runner.Run: the contract that a set GITHUB_WORKSPACE is put back holds only for the order the model uses. When both lookups ask the remote cache and the test library's lookup starts while WordPress's restore is pending, that lookup saves the work directory as the prior value and writes it back last (src/main.ts:70-83), so GITHUB_WORKSPACE ends as the work directory; Provision.OverlappedRestoresLeaveWorkDir shows this. The same holds for Provision.Runner.DownloadArtifacts, Provision.Runner.Provide and Provision.Runner.Complete.
- Provision.Runner.FindCached: a hit of either cache adds the tool's directory `dir/<tool>` to the paths, but not the files below it. `tc.find` is a parameter there: a path ("" when nothing is cached) or a throw. Why it throws, its missing cache directory, belongs to `@actions/tool-cache`, which is not part of this model.
- Provision.Runner.CheckOutTestLibrary: at most one of the two concurrent checkouts fails in the model. When both fail, which error `Promise.all` reports depends on timing, which is not modelled.
- Provision.Runner.DownloadWordPress: states that the archive is absent afterwards, but not that its removal is the last effect.
- Provision.Runner.Provide: states the workspace only when it was set before. When it was unset, the text "undefined" is stored (Provision.WorkspaceAfter), but the contract does not state this.
- `symlink`, `mkdirP`, `rmRF` and `writeFile` are taken to succeed. Their failures are not modelled.
- Finalize.Finalizer.Run: the outcome of each save (`process.chdir` and `cache.saveCache`) is a parameter. The internals of `saveCache` are not modelled.

## Findings

| source | as written | input that shows it | evidently intended | confidence | as-written member | corrected member |
|---|---|---|---|---|---|---|
| src/main.ts:58 | `!inputs.has_toolcache && inputs.semver`: the tool cache is consulted only when it is not available | RUNNER_TOOL_CACHE set, remote cache off, WordPress 5.9.9 seeded in the tool cache by an earlier run: the copy is ignored and the archive is downloaded again | `inputs.has_toolcache && inputs.semver`: consult the tool cache that seeding fills (src/main.ts:103-104, 130-131) | high; not executed | Provision.SeededCopyIgnoredAsWritten | Provision.ToolCacheUsedWhenAvailable |
| src/main.ts:58-59 | `tc.find` is called only when RUNNER_TOOL_CACHE is unset | RUNNER_TOOL_CACHE unset, version 5.9.9: `tc.find` has no cache directory and throws, the throw propagates through `downloadWordPress`, and the run fails | call `tc.find` only when RUNNER_TOOL_CACHE is set | medium; not executed; the throw is the behaviour of `@actions/tool-cache`, which is not part of this model | Provision.LookupRunsOnlyWithoutToolCache | Provision.CorrectedLookupNeedsToolCache |
