/** The order `Array.prototype.sort(comparator)` leaves an array in: a stable
    sort, where the comparator's result is negative when its first argument
    goes first.  Modelled as insertion from the back, which for a comparator
    that is a total preorder gives the one stable sorted order. */
module Sorting {

  /** The comparator is reflexive-zero, antisymmetric in value, and its
      "may come first" relation is transitive. */
  ghost predicate TotalPreorder<T(!new)>(cmp: (T, T) -> int) {
    && (forall a :: cmp(a, a) == 0)
    && (forall a, b :: cmp(a, b) == -cmp(b, a))
    && (forall a, b, c :: cmp(a, b) <= 0 && cmp(b, c) <= 0 ==> cmp(a, c) <= 0)
  }

  /** No element is put strictly after a later one. */
  predicate SortedBy<T>(s: seq<T>, cmp: (T, T) -> int) {
    forall i, j :: 0 <= i < j < |s| ==> cmp(s[i], s[j]) <= 0
  }

  /** Inserts x into t the way an insertion pass does: x moves left past
      every element the comparator puts strictly after it, scanning from the back. */
  function Insert<T>(x: T, t: seq<T>, cmp: (T, T) -> int): (r: seq<T>)
    ensures |r| == |t| + 1 && x in r
  {
    if t == [] then [x]
    else if cmp(x, t[|t| - 1]) < 0 then Insert(x, t[..|t| - 1], cmp) + [t[|t| - 1]]
    else t + [x]
  }

  /** The stable sorted order of s. */
  function Sort<T>(s: seq<T>, cmp: (T, T) -> int): (r: seq<T>)
    ensures |r| == |s|
  {
    if s == [] then []
    else Insert(s[|s| - 1], Sort(s[..|s| - 1], cmp), cmp)
  }

  /** Insertion adds exactly x. */
  lemma {:induction false} InsertPermutes<T>(x: T, t: seq<T>, cmp: (T, T) -> int)
    ensures |Insert(x, t, cmp)| == |t| + 1
    ensures multiset(Insert(x, t, cmp)) == multiset(t) + multiset{x}
  {
    if t != [] && cmp(x, t[|t| - 1]) < 0 {
      assert t == t[..|t| - 1] + [t[|t| - 1]];
      InsertPermutes(x, t[..|t| - 1], cmp);
    }
  }

  /** The sort only reorders: the result is a permutation of the input. */
  lemma {:induction false} SortPermutes<T>(s: seq<T>, cmp: (T, T) -> int)
    ensures |Sort(s, cmp)| == |s|
    ensures multiset(Sort(s, cmp)) == multiset(s)
  {
    if s != [] {
      assert s == s[..|s| - 1] + [s[|s| - 1]];
      SortPermutes(s[..|s| - 1], cmp);
      InsertPermutes(s[|s| - 1], Sort(s[..|s| - 1], cmp), cmp);
    }
  }

  /** One more element of the input is one more insertion. */
  lemma SortPrefix<T>(s: seq<T>, i: nat, cmp: (T, T) -> int)
    requires i < |s|
    ensures Sort(s[..i + 1], cmp) == Insert(s[i], Sort(s[..i], cmp), cmp)
  {
    assert s[..i + 1][..i] == s[..i];
  }

  /** Insertion stops in front of position k when x beats every element from
      k on and does not beat the one before k. */
  lemma {:induction false} InsertAt<T>(x: T, t: seq<T>, k: nat, cmp: (T, T) -> int)
    requires k <= |t|
    requires k == 0 || cmp(x, t[k - 1]) >= 0
    requires forall m :: k <= m < |t| ==> cmp(x, t[m]) < 0
    ensures Insert(x, t, cmp) == t[..k] + [x] + t[k..]
  {
    if k < |t| {
      var n := |t| - 1;
      var init := t[..n];
      assert cmp(x, t[n]) < 0;
      assert Insert(x, t, cmp) == Insert(x, init, cmp) + [t[n]];
      assert k == 0 || cmp(x, init[k - 1]) >= 0;
      assert forall m :: k <= m < |init| ==> cmp(x, init[m]) < 0 by {
        forall m | k <= m < |init| ensures cmp(x, init[m]) < 0 {
          assert init[m] == t[m];
        }
      }
      InsertAt(x, init, k, cmp);
      assert init[..k] == t[..k];
      assert t[k..] == init[k..] + [t[n]];
    } else if t != [] {
      assert t[..k] == t && t[k..] == [];
    }
  }

  /** A sequence that agrees with t before j, holds x at j and t shifted by
      one after j is t with x inserted at j. */
  lemma ShiftedInsert<T>(r: seq<T>, t: seq<T>, j: nat, x: T)
    requires j <= |t| && |r| == |t| + 1
    requires forall m :: 0 <= m < j ==> r[m] == t[m]
    requires r[j] == x
    requires forall m :: j < m < |r| ==> r[m] == t[m - 1]
    ensures r == t[..j] + [x] + t[j..]
  {
  }

  lemma AppendLast<T>(s: seq<T>, y: T, cmp: (T, T) -> int)
    requires SortedBy(s, cmp)
    requires forall e :: e in s ==> cmp(e, y) <= 0
    ensures SortedBy(s + [y], cmp)
  {
    var r := s + [y];
    forall i, j | 0 <= i < j < |r| ensures cmp(r[i], r[j]) <= 0 {
      if j < |s| {
        assert r[i] == s[i] && r[j] == s[j];
      } else {
        assert r[i] in s;
      }
    }
  }

  /** Dropping the last element keeps a sequence sorted. */
  lemma SortedInit<T>(t: seq<T>, cmp: (T, T) -> int)
    requires SortedBy(t, cmp) && t != []
    ensures SortedBy(t[..|t| - 1], cmp)
  {
    var init := t[..|t| - 1];
    forall i, j | 0 <= i < j < |init| ensures cmp(init[i], init[j]) <= 0 {
      assert init[i] == t[i] && init[j] == t[j];
    }
  }

  /** x inserted into the prefix, then the last element: still sorted,
      since nothing of the prefix, nor x, comes after the last element. */
  lemma InsertBeforeLast<T(!new)>(x: T, t: seq<T>, cmp: (T, T) -> int)
    requires TotalPreorder(cmp)
    requires SortedBy(t, cmp) && t != [] && cmp(x, t[|t| - 1]) < 0
    requires SortedBy(Insert(x, t[..|t| - 1], cmp), cmp)
    ensures SortedBy(Insert(x, t[..|t| - 1], cmp) + [t[|t| - 1]], cmp)
  {
    var n := |t| - 1;
    var init := t[..n];
    var m := Insert(x, init, cmp);
    InsertPermutes(x, init, cmp);
    forall e | e in m ensures cmp(e, t[n]) <= 0 {
      assert e in multiset(m);
      if e != x {
        var k :| 0 <= k < n && init[k] == e;
        assert t[k] == e;
      }
    }
    AppendLast(m, t[n], cmp);
  }

  /** x appended after a sorted sequence whose last element does not come after it. */
  lemma AppendAfterLast<T(!new)>(x: T, t: seq<T>, cmp: (T, T) -> int)
    requires TotalPreorder(cmp)
    requires SortedBy(t, cmp) && t != [] && cmp(x, t[|t| - 1]) >= 0
    ensures SortedBy(t + [x], cmp)
  {
    var n := |t| - 1;
    forall e | e in t ensures cmp(e, x) <= 0 {
      var k :| 0 <= k < |t| && t[k] == e;
      assert cmp(t[k], t[n]) <= 0 by {
        if k == n { assert cmp(t[n], t[n]) == 0; }
      }
    }
    AppendLast(t, x, cmp);
  }

  /** Inserting into a sorted sequence keeps it sorted. */
  lemma {:induction false} InsertSorted<T(!new)>(x: T, t: seq<T>, cmp: (T, T) -> int)
    requires TotalPreorder(cmp)
    requires SortedBy(t, cmp)
    ensures SortedBy(Insert(x, t, cmp), cmp)
  {
    if t != [] {
      if cmp(x, t[|t| - 1]) < 0 {
        SortedInit(t, cmp);
        InsertSorted(x, t[..|t| - 1], cmp);
        InsertBeforeLast(x, t, cmp);
      } else {
        AppendAfterLast(x, t, cmp);
      }
    }
  }

  /** The result of the sort is sorted. */
  lemma {:induction false} SortIsSorted<T(!new)>(s: seq<T>, cmp: (T, T) -> int)
    requires TotalPreorder(cmp)
    ensures SortedBy(Sort(s, cmp), cmp)
  {
    if s != [] {
      SortIsSorted(s[..|s| - 1], cmp);
      InsertSorted(s[|s| - 1], Sort(s[..|s| - 1], cmp), cmp);
    }
  }

  /** x ends up in front exactly when the comparator puts it strictly before
      every element of t; otherwise the front element of t stays in front. */
  lemma {:induction false} InsertFront<T>(x: T, t: seq<T>, cmp: (T, T) -> int)
    ensures Insert(x, t, cmp)[0] == if forall e :: e in t ==> cmp(x, e) < 0 then x else t[0]
  {
    if t != [] {
      var n := |t| - 1;
      var init := t[..n];
      assert t == init + [t[n]];
      if cmp(x, t[n]) < 0 {
        InsertFront(x, init, cmp);
        if init != [] {
          assert init[0] == t[0];
        }
      } else {
        assert t[n] in t;
      }
    }
  }

  /** s[k] is sorted to the front and is the first such element of s: the
      comparator puts nothing strictly before it, and puts it strictly before
      every element that precedes it in s. */
  ghost predicate FirstOfFront<T>(s: seq<T>, k: int, cmp: (T, T) -> int) {
    && 0 <= k < |s|
    && (forall j :: 0 <= j < |s| ==> cmp(s[k], s[j]) <= 0)
    && (forall j :: 0 <= j < k ==> cmp(s[k], s[j]) < 0)
  }

  /** The new last element goes in front when it beats the whole prefix. */
  lemma FrontIsLast<T(!new)>(init: seq<T>, y: T, cmp: (T, T) -> int)
    requires TotalPreorder(cmp)
    requires forall e :: e in init ==> cmp(y, e) < 0
    ensures FirstOfFront(init + [y], |init|, cmp)
  {
    var s := init + [y];
    forall j | 0 <= j < |s| ensures cmp(s[|init|], s[j]) <= 0 {
      if j < |init| { assert s[j] in init; }
    }
    forall j | 0 <= j < |init| ensures cmp(s[|init|], s[j]) < 0 {
      assert s[j] in init;
    }
  }

  /** Otherwise the front of the prefix stays the front. */
  lemma FrontStays<T(!new)>(init: seq<T>, y: T, k: int, e: T, cmp: (T, T) -> int)
    requires TotalPreorder(cmp)
    requires FirstOfFront(init, k, cmp)
    requires e in init && cmp(y, e) >= 0
    ensures FirstOfFront(init + [y], k, cmp)
  {
    var s := init + [y];
    var m :| 0 <= m < |init| && init[m] == e;
    assert cmp(init[k], y) <= 0 by {
      assert cmp(init[k], e) <= 0;
      assert cmp(e, y) <= 0;
    }
    forall j | 0 <= j < |s| ensures cmp(s[k], s[j]) <= 0 {
      if j < |init| { assert s[j] == init[j]; }
    }
    forall j | 0 <= j < k ensures cmp(s[k], s[j]) < 0 {
      assert s[j] == init[j];
    }
  }

  /** The first element of the sorted order is the first, in input order, of
      the elements sorted to the front. */
  lemma {:induction false} SortFront<T(!new)>(s: seq<T>, cmp: (T, T) -> int)
    requires TotalPreorder(cmp)
    requires |s| > 0
    ensures exists k :: FirstOfFront(s, k, cmp) && s[k] == Sort(s, cmp)[0]
  {
    var n := |s| - 1;
    var init := s[..n];
    var y := s[n];
    assert s == init + [y];
    var sorted := Sort(init, cmp);
    SortPermutes(init, cmp);
    InsertFront(y, sorted, cmp);
    if forall e :: e in sorted ==> cmp(y, e) < 0 {
      forall e | e in init ensures cmp(y, e) < 0 {
        assert e in multiset(sorted);
      }
      FrontIsLast(init, y, cmp);
      assert FirstOfFront(s, n, cmp) && s[n] == Sort(s, cmp)[0];
    } else {
      var e :| e in sorted && cmp(y, e) >= 0;
      assert e in multiset(init);
      SortFront(init, cmp);
      var k :| FirstOfFront(init, k, cmp) && init[k] == sorted[0];
      FrontStays(init, y, k, e, cmp);
      assert FirstOfFront(s, k, cmp) && s[k] == Sort(s, cmp)[0];
    }
  }

  /** Every element is put strictly before every later one. */
  predicate StrictlySortedBy<T>(s: seq<T>, cmp: (T, T) -> int) {
    forall i, j :: 0 <= i < j < |s| ==> cmp(s[i], s[j]) < 0
  }

  /** Strictly ordered neighbours make a strictly ordered sequence. */
  lemma {:induction false} ChainStrict<T(!new)>(s: seq<T>, cmp: (T, T) -> int)
    requires TotalPreorder(cmp)
    requires forall i :: 0 <= i < |s| - 1 ==> cmp(s[i], s[i + 1]) < 0
    ensures StrictlySortedBy(s, cmp)
  {
    if |s| > 1 {
      var t := s[1..];
      assert forall i :: 0 <= i < |t| - 1 ==> cmp(t[i], t[i + 1]) < 0 by {
        forall i | 0 <= i < |t| - 1 ensures cmp(t[i], t[i + 1]) < 0 {
          assert t[i] == s[i + 1] && t[i + 1] == s[i + 2];
        }
      }
      ChainStrict(t, cmp);
      forall i, j | 0 <= i < j < |s| ensures cmp(s[i], s[j]) < 0 {
        if i > 0 {
          assert s[i] == t[i - 1] && s[j] == t[j - 1];
        } else if j > 1 {
          assert s[j] == t[j - 1] && s[1] == t[0];
          assert cmp(s[1], s[j]) < 0;
        }
      }
    }
  }

  /** Sorted and strictly sorted permutations of each other start alike. */
  lemma SameFirst<T(!new)>(r: seq<T>, e: seq<T>, cmp: (T, T) -> int)
    requires TotalPreorder(cmp)
    requires SortedBy(r, cmp) && StrictlySortedBy(e, cmp)
    requires multiset(r) == multiset(e) && |r| > 0
    ensures |e| > 0 && r[0] == e[0]
  {
    assert |e| == |multiset(e)| == |r|;
    assert r[0] in multiset(e);
    var k :| 0 <= k < |e| && e[k] == r[0];
    assert e[0] in multiset(r);
    var m :| 0 <= m < |r| && r[m] == e[0];
  }

  /** Dropping the same first element keeps two permutations permutations. */
  lemma TailPermutes<T>(r: seq<T>, e: seq<T>)
    requires multiset(r) == multiset(e) && |r| > 0 && |e| > 0 && r[0] == e[0]
    ensures multiset(r[1..]) == multiset(e[1..])
  {
    assert r == [r[0]] + r[1..] && e == [e[0]] + e[1..];
    assert multiset(r) == multiset{r[0]} + multiset(r[1..]);
    assert multiset(e) == multiset{e[0]} + multiset(e[1..]);
    assert multiset(r[1..]) == multiset(r) - multiset{r[0]};
    assert multiset(e[1..]) == multiset(e) - multiset{e[0]};
  }

  /** The tail of a (strictly) sorted sequence is (strictly) sorted. */
  lemma SortedTail<T>(s: seq<T>, cmp: (T, T) -> int)
    requires |s| > 0
    ensures SortedBy(s, cmp) ==> SortedBy(s[1..], cmp)
    ensures StrictlySortedBy(s, cmp) ==> StrictlySortedBy(s[1..], cmp)
  {
    forall i, j | 0 <= i < j < |s[1..]|
      ensures s[1..][i] == s[i + 1] && s[1..][j] == s[j + 1]
    {
    }
  }

  /** A sorted permutation of a strictly sorted sequence is that sequence:
      with no ties, the sorted order is unique. */
  lemma {:induction false} SortedUnique<T(!new)>(r: seq<T>, e: seq<T>, cmp: (T, T) -> int)
    requires TotalPreorder(cmp)
    requires SortedBy(r, cmp) && StrictlySortedBy(e, cmp)
    requires multiset(r) == multiset(e)
    ensures r == e
  {
    if |r| == 0 {
      assert |multiset(e)| == 0;
    } else {
      SameFirst(r, e, cmp);
      TailPermutes(r, e);
      SortedTail(r, cmp);
      SortedTail(e, cmp);
      SortedUnique(r[1..], e[1..], cmp);
      assert r == [r[0]] + r[1..] && e == [e[0]] + e[1..];
    }
  }

  // ---------------------------------------------------------------------
  // The sort in place
  // ---------------------------------------------------------------------

  /** Sorts the array in place into the stable order of cmp. */
  method SortInPlace<T>(a: array<T>, cmp: (T, T) -> int)
    modifies a
    ensures a[..] == Sort(old(a[..]), cmp)
  {
    ghost var input := a[..];
    var i := 0;
    while i < a.Length
      invariant 0 <= i <= a.Length
      invariant a[..i] == Sort(input[..i], cmp)
      invariant a[i..] == input[i..]
    {
      SortPrefix(input, i, cmp);
      assert a[i] == input[i] by { assert a[i..][0] == input[i..][0]; }
      assert a[i + 1..] == input[i + 1..] by { assert a[i + 1..] == a[i..][1..]; }
      ghost var t := a[..i];
      var j := InsertLast(a, i, cmp);
      InsertAt(input[i], t, j, cmp);
      i := i + 1;
    }
    assert input[..a.Length] == input;
  }

  /** One pass: moves a[i] left into the prefix a[..i], past every element
      the comparator puts strictly after it, and says where it stopped. */
  method InsertLast<T>(a: array<T>, i: nat, cmp: (T, T) -> int) returns (ghost j: nat)
    requires i < a.Length
    modifies a
    ensures j <= i
    ensures j == 0 || cmp(old(a[i]), old(a[j - 1])) >= 0
    ensures forall m :: j <= m < i ==> cmp(old(a[i]), old(a[m])) < 0
    ensures a[..i + 1] == old(a[..i])[..j] + [old(a[i])] + old(a[..i])[j..]
    ensures a[i + 1..] == old(a[i + 1..])
  {
    ghost var t := a[..i];
    var x := a[i];
    var k := i;
    while k > 0
      invariant 0 <= k <= i
      invariant forall m :: k <= m < i ==> cmp(x, t[m]) < 0
      invariant forall m :: 0 <= m < k ==> a[m] == t[m]
      invariant forall m :: k < m <= i ==> a[m] == t[m - 1]
      invariant forall m :: i < m < a.Length ==> a[m] == old(a[m])
    {
      if cmp(x, a[k - 1]) >= 0 {
        break;
      }
      a[k] := a[k - 1];
      k := k - 1;
    }
    a[k] := x;
    j := k;
    ShiftedInsert(a[..i + 1], t, j, x);
    ghost var rest, rest0 := a[i + 1..], old(a[i + 1..]);
    forall m | 0 <= m < |rest| ensures rest[m] == rest0[m] {
      assert rest[m] == a[i + 1 + m];
    }
  }
}
