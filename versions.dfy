/** The version comparator and the newest-first sort of `sortVersions`
    (src/utils.ts).  Versions are compared segment by segment after splitting
    on '.', each segment read as a decimal number, a missing segment read as 0;
    the first segment that differs decides, and the comparator returns
    `b - a` of that segment, so that sorting puts newer versions first. */
module Versions {

  import Sorting

  // ---------------------------------------------------------------------
  // Splitting on '.' and reading a segment as a number
  // ---------------------------------------------------------------------

  predicate IsDigit(c: char) { '0' <= c <= '9' }

  /** A text of decimal digits only (possibly empty). */
  predicate IsNumeral(t: string) {
    forall i :: 0 <= i < |t| ==> IsDigit(t[i])
  }

  /** A version text the comparator is defined on: digits and dots only.
      (A segment that is not a number makes `Number` yield NaN, which the
      model does not cover.) */
  predicate IsVersionText(s: string) {
    forall i :: 0 <= i < |s| ==> s[i] == '.' || IsDigit(s[i])
  }

  type VersionText = s: string | IsVersionText(s)

  function Max(x: int, y: int): int { if x < y then y else x }

  /** Joins segments with '.'. */
  function Join(parts: seq<string>): string
    requires |parts| > 0
  {
    if |parts| == 1 then parts[0] else parts[0] + "." + Join(parts[1..])
  }

  /** `s.split('.')`: the dot-free pieces of s in order, which joined with
      '.' give s back; the empty text gives one empty piece. */
  function Split(s: string): (parts: seq<string>)
    ensures |parts| > 0
    ensures forall k :: 0 <= k < |parts| ==> '.' !in parts[k]
    ensures Join(parts) == s
    ensures IsVersionText(s) ==> forall k :: 0 <= k < |parts| ==> IsNumeral(parts[k])
  {
    if s == [] then [""]
    else
      var rest := Split(s[1..]);
      if s[0] == '.' then
        assert ([""] + rest)[1..] == rest;
        [""] + rest
      else
        var parts := [[s[0]] + rest[0]] + rest[1..];
        assert parts[1..] == rest[1..];
        assert s == [s[0]] + s[1..];
        assert IsVersionText(s) ==> IsVersionText(s[1..]) by {
          if IsVersionText(s) {
            forall i | 0 <= i < |s[1..]| ensures s[1..][i] == '.' || IsDigit(s[1..][i]) {
              assert s[1..][i] == s[i + 1];
            }
          }
        }
        parts
  }

  function DigitValue(c: char): nat
    requires IsDigit(c)
  {
    (c as int) - ('0' as int)
  }

  /** `Number(t)` for a numeral: its decimal value; leading zeros do not count. */
  function DecimalValue(t: string): nat
    requires IsNumeral(t)
  {
    if t == [] then 0 else 10 * DecimalValue(t[..|t| - 1]) + DigitValue(t[|t| - 1])
  }

  /** The decimal text of n, as a template literal prints a number: no
      leading zeros, "0" for zero.  Reading it back gives n. */
  function DecimalText(n: nat): (t: string)
    ensures |t| > 0 && IsNumeral(t)
    ensures DecimalValue(t) == n
    ensures |t| > 1 ==> t[0] != '0'
    decreases n
  {
    var last := ['0' + (n % 10) as char];
    if n < 10 then last
    else
      var front := DecimalText(n / 10);
      var t := front + last;
      assert t[..|t| - 1] == front;
      t
  }

  /** The value of segment i of v as the comparator reads it,
      `Number(split[i] || '0')`: a missing or empty segment is 0. */
  function Segment(v: VersionText, i: nat): nat
  {
    PartValue(Split(v), i)
  }

  /** `Number(parts[i] || '0')` for pieces that are all numerals. */
  function PartValue(parts: seq<string>, i: nat): nat
    requires forall k :: 0 <= k < |parts| ==> IsNumeral(parts[k])
  {
    DecimalValue(if i < |parts| && parts[i] != "" then parts[i] else "0")
  }

  /** The number of segments the comparator's loop visits. */
  function Width(a: VersionText, b: VersionText): nat {
    Max(|Split(a)|, |Split(b)|)
  }

  /** The comparator from segment i on. */
  function CompareFrom(a: VersionText, b: VersionText, i: nat): (r: int)
    ensures r != 0 ==> i < Width(a, b)
    decreases Width(a, b) - i
  {
    if i >= Width(a, b) then 0
    else if Segment(a, i) != Segment(b, i) then Segment(b, i) - Segment(a, i)
    else CompareFrom(a, b, i + 1)
  }

  /** The comparator passed to `Array.prototype.sort`: negative when a is
      newer than b (a goes first), positive when older, zero when equal. */
  function Compare(a: VersionText, b: VersionText): (r: int)
    ensures r != 0 ==> exists d: nat :: d < Width(a, b) && Segment(a, d) != Segment(b, d) &&
                                        r == Segment(b, d) - Segment(a, d)
  {
    CompareFromWitness(a, b, 0);
    CompareFrom(a, b, 0)
  }

  /** A non-zero answer from segment i on is the difference at some
      differing segment from i on. */
  lemma {:induction false} CompareFromWitness(a: VersionText, b: VersionText, i: nat)
    ensures CompareFrom(a, b, i) != 0 ==>
              exists d: nat :: i <= d < Width(a, b) && Segment(a, d) != Segment(b, d) &&
                               CompareFrom(a, b, i) == Segment(b, d) - Segment(a, d)
    decreases Width(a, b) - i
  {
    if i < Width(a, b) && Segment(a, i) == Segment(b, i) {
      CompareFromWitness(a, b, i + 1);
    }
  }

  /** a is at least as new as b. */
  predicate AtLeast(a: VersionText, b: VersionText)
  {
    Compare(a, b) <= 0
  }

  // ---------------------------------------------------------------------
  // The comparator as the source runs it: an index loop with early return
  // ---------------------------------------------------------------------

  method CompareVersions(a: VersionText, b: VersionText) returns (c: int)
    ensures c == Compare(a, b)
  {
    var aSplit := Split(a);
    var bSplit := Split(b);
    var i := 0;
    while i < Max(|aSplit|, |bSplit|)
      invariant 0 <= i <= Max(|aSplit|, |bSplit|)
      invariant CompareFrom(a, b, i) == Compare(a, b)
    {
      var aPart: int := PartValue(aSplit, i);
      var bPart: int := PartValue(bSplit, i);
      CompareFromStep(a, b, i);
      if aPart != bPart {
        return bPart - aPart;
      }
      i := i + 1;
    }
    return 0;
  }

  // ---------------------------------------------------------------------
  // Properties of the comparator
  // ---------------------------------------------------------------------

  /** Past the last segment of v every segment reads as 0. */
  lemma SegmentBeyond(v: VersionText, i: nat)
    requires i >= |Split(v)|
    ensures Segment(v, i) == 0
  {
    assert "0"[..0] == [];
  }

  /** One step of the comparator, valid at every index, also past the end. */
  lemma {:induction false} CompareFromStep(a: VersionText, b: VersionText, i: nat)
    ensures CompareFrom(a, b, i) ==
            if Segment(a, i) != Segment(b, i) then Segment(b, i) - Segment(a, i)
            else CompareFrom(a, b, i + 1)
  {
    if i >= Width(a, b) {
      SegmentBeyond(a, i);
      SegmentBeyond(b, i);
    }
  }

  /** The comparator is zero from i on exactly when all segments from i on agree. */
  lemma {:induction false} CompareFromZero(a: VersionText, b: VersionText, i: nat)
    ensures CompareFrom(a, b, i) == 0 <==> forall k: nat :: k >= i ==> Segment(a, k) == Segment(b, k)
    decreases Width(a, b) - i
  {
    if i >= Width(a, b) {
      forall k: nat | k >= i ensures Segment(a, k) == Segment(b, k) {
        SegmentBeyond(a, k);
        SegmentBeyond(b, k);
      }
    } else {
      CompareFromZero(a, b, i + 1);
    }
  }

  /** Two versions compare equal exactly when every segment reads the same. */
  lemma CompareZeroIff(a: VersionText, b: VersionText)
    ensures Compare(a, b) == 0 <==> forall k: nat :: Segment(a, k) == Segment(b, k)
  {
    CompareFromZero(a, b, 0);
  }

  /** The first differing segment, most significant first, decides the result. */
  lemma {:induction false} FirstDifferenceDecidesFrom(a: VersionText, b: VersionText, i: nat, d: nat)
    requires i <= d
    requires forall k :: i <= k < d ==> Segment(a, k) == Segment(b, k)
    requires Segment(a, d) != Segment(b, d)
    ensures CompareFrom(a, b, i) == Segment(b, d) - Segment(a, d)
    decreases d - i
  {
    CompareFromStep(a, b, i);
    if i < d {
      FirstDifferenceDecidesFrom(a, b, i + 1, d);
    }
  }

  lemma FirstDifferenceDecides(a: VersionText, b: VersionText, d: nat)
    requires forall k :: 0 <= k < d ==> Segment(a, k) == Segment(b, k)
    requires Segment(a, d) != Segment(b, d)
    ensures Compare(a, b) == Segment(b, d) - Segment(a, d)
    ensures Compare(a, b) < 0 <==> Segment(a, d) > Segment(b, d)
  {
    FirstDifferenceDecidesFrom(a, b, 0, d);
  }

  lemma {:induction false} CompareFromSelf(a: VersionText, i: nat)
    ensures CompareFrom(a, a, i) == 0
    decreases Width(a, a) - i
  {
    if i < Width(a, a) {
      CompareFromSelf(a, i + 1);
    }
  }

  /** A version compares equal to itself. */
  lemma CompareReflexive(a: VersionText)
    ensures Compare(a, a) == 0
  {
    CompareFromSelf(a, 0);
  }

  lemma {:induction false} CompareFromAntisymmetric(a: VersionText, b: VersionText, i: nat)
    ensures CompareFrom(a, b, i) == -CompareFrom(b, a, i)
    decreases Width(a, b) - i
  {
    assert Width(a, b) == Width(b, a);
    if i < Width(a, b) && Segment(a, i) == Segment(b, i) {
      CompareFromAntisymmetric(a, b, i + 1);
    }
  }

  /** Swapping the arguments negates the result, so the signs are opposite. */
  lemma CompareAntisymmetric(a: VersionText, b: VersionText)
    ensures Compare(a, b) == -Compare(b, a)
  {
    CompareFromAntisymmetric(a, b, 0);
  }

  lemma {:induction false} CompareFromTransitive(a: VersionText, b: VersionText, c: VersionText, i: nat)
    requires CompareFrom(a, b, i) <= 0 && CompareFrom(b, c, i) <= 0
    ensures CompareFrom(a, c, i) <= 0
    decreases Max(Width(a, b), |Split(c)|) - i
  {
    CompareFromStep(a, b, i);
    CompareFromStep(b, c, i);
    CompareFromStep(a, c, i);
    if i >= Max(Width(a, b), |Split(c)|) {
      SegmentBeyond(a, i);
      SegmentBeyond(c, i);
    } else if Segment(a, i) == Segment(b, i) == Segment(c, i) {
      CompareFromTransitive(a, b, c, i + 1);
    }
  }

  /** "At least as new as" is transitive, so the comparator is a total preorder. */
  lemma CompareTransitive(a: VersionText, b: VersionText, c: VersionText)
    requires AtLeast(a, b) && AtLeast(b, c)
    ensures AtLeast(a, c)
  {
    CompareFromTransitive(a, b, c, 0);
  }

  lemma {:induction false} SplitDotZero(v: VersionText)
    ensures Split(v + ".0") == Split(v) + ["0"]
  {
    if v == [] {
      assert Split(".0"[1..]) == ["0"] by {
        assert ".0"[1..] == "0";
        assert Split("0"[1..]) == [""] by { assert "0"[1..] == []; }
      }
    } else {
      assert (v + ".0")[1..] == v[1..] + ".0";
      SplitDotZero(v[1..]);
    }
  }

  /** A missing trailing segment counts as 0: v and v + ".0" compare equal
      (so "5" and "5.0" are the same version to the sort). */
  lemma TrailingZeroSegment(v: VersionText)
    ensures IsVersionText(v + ".0") && Compare(v, v + ".0") == 0
  {
    var w := v + ".0";
    assert IsVersionText(w) by {
      forall i | 0 <= i < |w| ensures w[i] == '.' || IsDigit(w[i]) {
        if i < |v| { assert w[i] == v[i]; }
      }
    }
    SplitDotZero(v);
    forall k: nat ensures Segment(v, k) == Segment(w, k) {
      assert DecimalValue("0") == 0 by {
        assert "0"[..0] == [];
      }
    }
    CompareZeroIff(v, w);
  }

  /** A dot-free text is a single segment. */
  lemma {:induction false} SplitPlain(t: string)
    requires '.' !in t
    ensures Split(t) == [t]
  {
    if t != [] {
      SplitPlain(t[1..]);
      assert [t[0]] + t[1..] == t;
    }
  }

  /** A dot-free leading segment followed by a dot splits off first. */
  lemma {:induction false} SplitDotted(t: string, r: string)
    requires '.' !in t
    ensures Split(t + "." + r) == [t] + Split(r)
  {
    var s := t + "." + r;
    if t == [] {
      assert s == "." + r;
      assert s[1..] == r;
    } else {
      assert s[1..] == t[1..] + "." + r;
      SplitDotted(t[1..], r);
      assert [t[0]] + t[1..] == t;
    }
  }

  /** Two dot-free segments joined by a dot split back into the two. */
  lemma SplitTwo(x: string, y: string)
    requires '.' !in x && '.' !in y
    ensures Split(x + "." + y) == [x, y]
  {
    SplitPlain(y);
    SplitDotted(x, y);
  }

  /** Three dot-free segments joined by dots split back into the three. */
  lemma SplitThree(x: string, y: string, z: string)
    requires '.' !in x && '.' !in y && '.' !in z
    ensures Split(x + "." + y + "." + z) == [x, y, z]
  {
    SplitTwo(y, z);
    assert x + "." + y + "." + z == x + "." + (y + "." + z);
    SplitDotted(x, y + "." + z);
  }

  /** A one-digit numeral is worth its digit. */
  lemma OneDigit(t: string)
    requires |t| == 1 && IsDigit(t[0])
    ensures IsNumeral(t) && DecimalValue(t) == DigitValue(t[0])
  {
    assert t[..0] == "";
  }

  /** The segment values of a version of two numerals. */
  lemma SegmentsOfTwo(v: VersionText, x: string, y: string)
    requires IsNumeral(x) && IsNumeral(y) && x != "" && y != ""
    requires v == x + "." + y
    ensures Segment(v, 0) == DecimalValue(x) && Segment(v, 1) == DecimalValue(y)
    ensures forall k: nat :: k >= 2 ==> Segment(v, k) == 0
  {
    assert '.' !in x && '.' !in y;
    SplitTwo(x, y);
    forall k: nat | k >= 2 ensures Segment(v, k) == 0 {
      SegmentBeyond(v, k);
    }
  }

  /** The segment values of a version of three numerals. */
  lemma SegmentsOfThree(v: VersionText, x: string, y: string, z: string)
    requires IsNumeral(x) && IsNumeral(y) && IsNumeral(z) && x != "" && y != "" && z != ""
    requires v == x + "." + y + "." + z
    ensures Segment(v, 0) == DecimalValue(x) && Segment(v, 1) == DecimalValue(y)
    ensures Segment(v, 2) == DecimalValue(z)
    ensures forall k: nat :: k >= 3 ==> Segment(v, k) == 0
  {
    assert '.' !in x && '.' !in y && '.' !in z;
    SplitThree(x, y, z);
    forall k: nat | k >= 3 ensures Segment(v, k) == 0 {
      SegmentBeyond(v, k);
    }
  }

  /** Segments compare by value, not as text: "5.9.10" is newer than "5.9.3". */
  lemma NumericNotLexical(a: VersionText, b: VersionText)
    requires a == "5.9.10" && b == "5.9.3"
    ensures Compare(a, b) < 0
  {
    OneDigit("5"); OneDigit("9"); OneDigit("3");
    SegmentsOfThree(a, "5", "9", "10");
    SegmentsOfThree(b, "5", "9", "3");
    assert DecimalValue("10") == 10 by {
      assert "10"[..1] == "1" && "1"[..0] == "";
    }
    assert Segment(a, 0) == 5 == Segment(b, 0) && Segment(a, 1) == 9 == Segment(b, 1);
    forall k | 0 <= k < 2 ensures Segment(a, k) == Segment(b, k) {
      if k == 1 { }
    }
    FirstDifferenceDecides(a, b, 2);
  }

  // The neighbours in the expected order of the example below.

  lemma SixNewerThanFiveNineTen(a: VersionText, b: VersionText)
    requires a == "6" && b == "5.9.10"
    ensures Compare(a, b) < 0
  {
    SplitPlain("6");
    SegmentsOfThree(b, "5", "9", "10");
    FirstDifferenceDecides(a, b, 0);
  }

  lemma ThreeNewerThanTwo(a: VersionText, b: VersionText)
    requires a == "5.9.3" && b == "5.9.2"
    ensures Compare(a, b) < 0
  {
    OneDigit("5"); OneDigit("9"); OneDigit("3"); OneDigit("2");
    SegmentsOfThree(a, "5", "9", "3");
    SegmentsOfThree(b, "5", "9", "2");
    assert Segment(a, 0) == 5 == Segment(b, 0) && Segment(a, 1) == 9 == Segment(b, 1);
    forall k | 0 <= k < 2 ensures Segment(a, k) == Segment(b, k) {
      if k == 1 { }
    }
    FirstDifferenceDecides(a, b, 2);
  }

  lemma PatchNewerThanNone(a: VersionText, b: VersionText)
    requires a == "5.9.2" && b == "5.9"
    ensures Compare(a, b) < 0
  {
    OneDigit("5"); OneDigit("9"); OneDigit("2");
    SegmentsOfThree(a, "5", "9", "2");
    SegmentsOfTwo(b, "5", "9");
    assert Segment(a, 0) == 5 == Segment(b, 0) && Segment(a, 1) == 9 == Segment(b, 1);
    forall k | 0 <= k < 2 ensures Segment(a, k) == Segment(b, k) {
      if k == 1 { }
    }
    FirstDifferenceDecides(a, b, 2);
  }

  lemma NineNewerThanEight(a: VersionText, b: VersionText)
    requires a == "5.9" && b == "5.8"
    ensures Compare(a, b) < 0
  {
    OneDigit("5"); OneDigit("9"); OneDigit("8");
    SegmentsOfTwo(a, "5", "9");
    SegmentsOfTwo(b, "5", "8");
    assert Segment(a, 0) == 5 == Segment(b, 0);
    FirstDifferenceDecides(a, b, 1);
  }

  lemma MinorNewerThanNone(a: VersionText, b: VersionText)
    requires a == "5.8" && b == "5"
    ensures Compare(a, b) < 0
  {
    OneDigit("5"); OneDigit("8");
    SegmentsOfTwo(a, "5", "8");
    SplitPlain("5");
    SegmentBeyond(b, 1);
    assert Segment(a, 0) == 5 == Segment(b, 0);
    FirstDifferenceDecides(a, b, 1);
  }

  /** The elements of a sequence of seven, one by one. */
  lemma SevenElements<T>(s: seq<T>)
    requires |s| == 7
    ensures multiset(s) == multiset{s[0]} + multiset{s[1]} + multiset{s[2]} + multiset{s[3]}
                           + multiset{s[4]} + multiset{s[5]} + multiset{s[6]}
  {
    assert s == [s[0]] + [s[1]] + [s[2]] + [s[3]] + [s[4]] + [s[5]] + [s[6]];
  }

  /** The expected order of the example is a reordering of its input. */
  lemma ExampleReordered<T>(s: seq<T>)
    requires |s| == 7
    ensures multiset([s[6], s[4], s[0], s[5], s[3], s[2], s[1]]) == multiset(s)
  {
    SevenElements(s);
    SevenElements([s[6], s[4], s[0], s[5], s[3], s[2], s[1]]);
  }

  /** With no two versions equal, the sort's result is the unique
      newest-first arrangement. */
  lemma SortDistinct(input: seq<VersionText>, expected: seq<VersionText>)
    requires multiset(input) == multiset(expected)
    requires forall i :: 0 <= i < |expected| - 1 ==> Compare(expected[i], expected[i + 1]) < 0
    ensures Sorting.Sort(input, Compare) == expected
  {
    CompareIsTotalPreorder();
    Sorting.ChainStrict(expected, Compare);
    SortVersionsNewestFirst(input);
    Sorting.SortedUnique(Sorting.Sort(input, Compare), expected, Compare);
  }

  /** Each version of the expected order is newer than the next. */
  lemma ExampleNeighbours(expected: seq<VersionText>)
    requires expected == ["6", "5.9.10", "5.9.3", "5.9.2", "5.9", "5.8", "5"]
    ensures forall i :: 0 <= i < |expected| - 1 ==> Compare(expected[i], expected[i + 1]) < 0
  {
    forall i | 0 <= i < |expected| - 1 ensures Compare(expected[i], expected[i + 1]) < 0 {
      if i == 0 {
        SixNewerThanFiveNineTen(expected[0], expected[1]);
      } else if i == 1 {
        NumericNotLexical(expected[1], expected[2]);
      } else if i == 2 {
        ThreeNewerThanTwo(expected[2], expected[3]);
      } else if i == 3 {
        PatchNewerThanNone(expected[3], expected[4]);
      } else if i == 4 {
        NineNewerThanEight(expected[4], expected[5]);
      } else {
        MinorNewerThanNone(expected[5], expected[6]);
      }
    }
  }

  /** The example of the test suite: the seven versions come out newest first. */
  lemma SortExample(input: seq<VersionText>, expected: seq<VersionText>)
    requires input == ["5.9.3", "5", "5.8", "5.9", "5.9.10", "5.9.2", "6"]
    requires expected == ["6", "5.9.10", "5.9.3", "5.9.2", "5.9", "5.8", "5"]
    ensures Sorting.Sort(input, Compare) == expected
  {
    ExampleNeighbours(expected);
    assert expected == [input[6], input[4], input[0], input[5], input[3], input[2], input[1]];
    ExampleReordered(input);
    SortDistinct(input, expected);
  }

  /** Leading zeros do not count: "5.09" and "5.9" compare equal. */
  lemma LeadingZerosIgnored(a: VersionText, b: VersionText)
    requires a == "5.09" && b == "5.9"
    ensures Compare(a, b) == 0
  {
    SegmentsOfTwo(a, "5", "09");
    SegmentsOfTwo(b, "5", "9");
    assert DecimalValue("09") == 9 by {
      assert "09"[..1] == "0" && "0"[..0] == "";
    }
    forall k: nat ensures Segment(a, k) == Segment(b, k) {
    }
    CompareZeroIff(a, b);
  }


  // ---------------------------------------------------------------------
  // Sorting newest first
  // ---------------------------------------------------------------------

  /** The comparator orders version texts as a total preorder. */
  lemma CompareIsTotalPreorder()
    ensures Sorting.TotalPreorder(Compare)
  {
    forall a: VersionText ensures Compare(a, a) == 0 {
      CompareReflexive(a);
    }
    forall a: VersionText, b: VersionText ensures Compare(a, b) == -Compare(b, a) {
      CompareAntisymmetric(a, b);
    }
    forall a: VersionText, b: VersionText, c: VersionText | Compare(a, b) <= 0 && Compare(b, c) <= 0
      ensures Compare(a, c) <= 0
    {
      CompareTransitive(a, b, c);
    }
  }

  /** `sortVersions`: `Array.prototype.sort` with the comparator above,
      reordering the caller's array in place, newest first. */
  method SortVersions(a: array<VersionText>)
    modifies a
    ensures a[..] == Sorting.Sort(old(a[..]), Compare)
  {
    Sorting.SortInPlace(a, Compare);
  }

  /** The sorted array is newest first and holds the same versions. */
  lemma SortVersionsNewestFirst(vs: seq<VersionText>)
    ensures Sorting.SortedBy(Sorting.Sort(vs, Compare), Compare)
    ensures multiset(Sorting.Sort(vs, Compare)) == multiset(vs)
  {
    CompareIsTotalPreorder();
    Sorting.SortIsSorted(vs, Compare);
    Sorting.SortPermutes(vs, Compare);
  }
}
