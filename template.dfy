/** The test configuration written by `configureWordPress` (src/main.ts):
    five first-occurrence replacements applied one after the other to the
    sample configuration fetched from the test library. */
module Template {

  import opened Wrappers

  /** marker occurs in text starting at index i. */
  predicate OccursAt(text: string, marker: string, i: nat) {
    i + |marker| <= |text| && text[i..i + |marker|] == marker
  }

  /** The first index at or after `from` where marker occurs. */
  function FindFrom(text: string, marker: string, from: nat): (r: Option<nat>)
    requires from <= |text| + 1
    ensures r.Some? ==> from <= r.value && OccursAt(text, marker, r.value)
    ensures r.Some? ==> forall j :: from <= j < r.value ==> !OccursAt(text, marker, j)
    ensures r.None? ==> forall j :: from <= j ==> !OccursAt(text, marker, j)
    decreases |text| + 1 - from
  {
    if from + |marker| > |text| then None
    else if text[from..from + |marker|] == marker then Some(from)
    else FindFrom(text, marker, from + 1)
  }

  /** `text.indexOf(marker)`, or `None` where that is -1. */
  function FindFirst(text: string, marker: string): (r: Option<nat>)
    ensures r.Some? ==> OccursAt(text, marker, r.value)
    ensures r.Some? ==> forall j :: 0 <= j < r.value ==> !OccursAt(text, marker, j)
    ensures r.None? ==> forall j :: 0 <= j ==> !OccursAt(text, marker, j)
  {
    FindFrom(text, marker, 0)
  }

  /** The replacement text holds no `$`, so `replace` inserts it literally. */
  predicate Literal(value: string) {
    '$' !in value
  }

  /** `text.replace(marker, value)` with a string pattern: only the first
      occurrence is replaced; with none, the text is returned as it is. */
  function ReplaceFirst(text: string, marker: string, value: string): (r: string)
    ensures FindFirst(text, marker).None? ==> r == text
    ensures FindFirst(text, marker).Some? ==> |r| == |text| - |marker| + |value|
  {
    match FindFirst(text, marker)
    case None => text
    case Some(i) => text[..i] + value + text[i + |marker|..]
  }

  /** With no occurrence of the marker, the text is unchanged. */
  lemma ReplaceAbsent(text: string, marker: string, value: string)
    requires forall j: nat :: !OccursAt(text, marker, j)
    ensures ReplaceFirst(text, marker, value) == text
  {
  }

  /** The first occurrence is replaced by the value: what comes before it is
      kept and holds no occurrence, the value sits where the marker was, and
      everything after the marker follows unchanged. */
  lemma ReplaceFirstOccurrence(text: string, marker: string, value: string, i: nat)
    requires OccursAt(text, marker, i)
    requires forall j :: 0 <= j < i ==> !OccursAt(text, marker, j)
    ensures var r := ReplaceFirst(text, marker, value);
            |r| == |text| - |marker| + |value| &&
            r[..i] == text[..i] &&
            OccursAt(r, value, i) &&
            r[i + |value|..] == text[i + |marker|..]
  {
    var r := text[..i] + value + text[i + |marker|..];
    assert r[i..i + |value|] == value;
    assert r[i + |value|..] == text[i + |marker|..];
  }

  /** A later occurrence of the marker survives, shifted by the change in length. */
  lemma LaterOccurrenceKept(text: string, marker: string, value: string, i: nat, j: nat)
    requires OccursAt(text, marker, i)
    requires forall k :: 0 <= k < i ==> !OccursAt(text, marker, k)
    requires i + |marker| <= j && OccursAt(text, marker, j)
    ensures OccursAt(ReplaceFirst(text, marker, value), marker, j - |marker| + |value|)
  {
    ReplaceFirstOccurrence(text, marker, value, i);
    var r := ReplaceFirst(text, marker, value);
    var tail := text[i + |marker|..];
    var k := j - |marker| + |value|;
    assert r[i + |value|..] == tail;
    assert r[k..k + |marker|] == tail[j - i - |marker|..j - i] == text[j..j + |marker|];
  }

  // ---------------------------------------------------------------------
  // configureWordPress
  // ---------------------------------------------------------------------

  const DbNameMarker := "youremptytestdbnamehere"
  const DbUserMarker := "yourusernamehere"
  const DbPasswordMarker := "yourpasswordhere"
  const DbHostMarker := "localhost"
  const AbsPathMarker := "dirname( __FILE__ ) . '/src/'"

  /** The PHP string literal that points ABSPATH at the WordPress checkout. */
  function AbsPathValue(dir: string): string {
    "'" + dir + "/wordpress/'"
  }

  /** The five replacements, each applied to the previous one's output. */
  function Configure(sample: string, dbName: string, dbUser: string, dbPassword: string,
                     dbHost: string, dir: string): (config: string)
    requires Literal(dbName) && Literal(dbUser) && Literal(dbPassword)
    requires Literal(dbHost) && Literal(dir)
    ensures |config| <= |sample| + |dbName| + |dbUser| + |dbPassword| + |dbHost| + |AbsPathValue(dir)|
  {
    var s1 := ReplaceFirst(sample, DbNameMarker, dbName);
    var s2 := ReplaceFirst(s1, DbUserMarker, dbUser);
    var s3 := ReplaceFirst(s2, DbPasswordMarker, dbPassword);
    var s4 := ReplaceFirst(s3, DbHostMarker, dbHost);
    ReplaceFirst(s4, AbsPathMarker, AbsPathValue(dir))
  }

  /** A sample holding none of the markers is written out unchanged. */
  lemma ConfigureWithoutMarkers(sample: string, dbName: string, dbUser: string, dbPassword: string,
                                dbHost: string, dir: string)
    requires Literal(dbName) && Literal(dbUser) && Literal(dbPassword)
    requires Literal(dbHost) && Literal(dir)
    requires forall j: nat :: !OccursAt(sample, DbNameMarker, j) && !OccursAt(sample, DbUserMarker, j) &&
                              !OccursAt(sample, DbPasswordMarker, j) && !OccursAt(sample, DbHostMarker, j) &&
                              !OccursAt(sample, AbsPathMarker, j)
    ensures Configure(sample, dbName, dbUser, dbPassword, dbHost, dir) == sample
  {
    ReplaceAbsent(sample, DbNameMarker, dbName);
    ReplaceAbsent(sample, DbUserMarker, dbUser);
    ReplaceAbsent(sample, DbPasswordMarker, dbPassword);
    ReplaceAbsent(sample, DbHostMarker, dbHost);
    ReplaceAbsent(sample, AbsPathMarker, AbsPathValue(dir));
  }

  /** The whole text equal to a marker becomes the value. */
  lemma ReplaceWhole(marker: string, value: string)
    ensures ReplaceFirst(marker, marker, value) == value
  {
    assert OccursAt(marker, marker, 0) by { assert marker[0..|marker|] == marker; }
    ReplaceFirstOccurrence(marker, marker, value, 0);
  }

  /** The steps see each other's output: a database name that spells the
      user marker is itself replaced by the user name in the next step. */
  lemma EarlierValueReplacedLater(sample: string, dbName: string, dbUser: string)
    requires sample == DbNameMarker && dbName == DbUserMarker && Literal(dbUser)
    requires forall j: nat :: !OccursAt(dbUser, DbPasswordMarker, j) && !OccursAt(dbUser, DbHostMarker, j) &&
                              !OccursAt(dbUser, AbsPathMarker, j)
    ensures Configure(sample, dbName, dbUser, "wordpress", "127.0.0.1", "/tmp") == dbUser
  {
    ReplaceWhole(DbNameMarker, dbName);
    ReplaceWhole(DbUserMarker, dbUser);
    ReplaceAbsent(dbUser, DbPasswordMarker, "wordpress");
    ReplaceAbsent(dbUser, DbHostMarker, "127.0.0.1");
    ReplaceAbsent(dbUser, AbsPathMarker, AbsPathValue("/tmp"));
  }
}
