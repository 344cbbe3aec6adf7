/**
 * The in-place sort that formatTimeseriesData starts with
 * (index.js:35): `d.sort((a, b) => (a.ts > b.ts) ? 1 : -1)`.
 *
 * The comparator never answers 0, so the relative order of records with equal
 * timestamps is left to the JavaScript engine. This model fixes one choice:
 * a stable insertion sort, first as a function on sequences and then as an
 * in-place method on an array proved to compute exactly that function.
 */
module Sorting {
  import opened Records

  /** Non-decreasing by timestamp. */
  ghost predicate SortedByTs(s: seq<Record>)
  {
    forall i, j :: 0 <= i < j < |s| ==> s[i].ts <= s[j].ts
  }

  /**
   * Inserts x into t from the right: x goes behind every element whose ts is
   * at most x.ts, so equal timestamps keep their input order.
   */
  function Insert(t: seq<Record>, x: Record): seq<Record>
    decreases |t|
  {
    if t == [] || t[|t| - 1].ts <= x.ts then t + [x]
    else Insert(t[..|t| - 1], x) + [t[|t| - 1]]
  }

  /** Insertion sort, one element at a time from the left. */
  function InsertionSort(s: seq<Record>): seq<Record>
  {
    if s == [] then [] else Insert(InsertionSort(s[..|s| - 1]), s[|s| - 1])
  }

  lemma {:induction false} InsertPermutes(t: seq<Record>, x: Record)
    ensures multiset(Insert(t, x)) == multiset(t) + multiset{x}
    decreases |t|
  {
    if t == [] || t[|t| - 1].ts <= x.ts {
    } else {
      var init, y := t[..|t| - 1], t[|t| - 1];
      InsertPermutes(init, x);
      assert t == init + [y];
    }
  }

  lemma {:induction false} InsertSorted(t: seq<Record>, x: Record)
    requires SortedByTs(t)
    ensures SortedByTs(Insert(t, x))
    decreases |t|
  {
    if t == [] || t[|t| - 1].ts <= x.ts {
    } else {
      var init, y := t[..|t| - 1], t[|t| - 1];
      InsertSorted(init, x);
      InsertPermutes(init, x);
      var u := Insert(init, x);
      forall i | 0 <= i < |u| ensures u[i].ts <= y.ts {
        assert u[i] in multiset(u);
        assert u[i] in multiset(init) || u[i] == x;
        if u[i] != x {
          var k :| 0 <= k < |init| && init[k] == u[i];
          assert t[k] == init[k];
        }
      }
    }
  }

  /** The sort yields a non-decreasing permutation of its input. */
  lemma {:induction false} InsertionSortCorrect(s: seq<Record>)
    ensures SortedByTs(InsertionSort(s))
    ensures multiset(InsertionSort(s)) == multiset(s)
    ensures |InsertionSort(s)| == |s|
  {
    if s != [] {
      var init, x := s[..|s| - 1], s[|s| - 1];
      InsertionSortCorrect(init);
      InsertSorted(InsertionSort(init), x);
      InsertPermutes(InsertionSort(init), x);
      assert s == init + [x];
      assert |multiset(InsertionSort(s))| == |s|;
    }
  }

  /** Every element of a sorted permutation already meets a lower bound the input meets. */
  lemma SortKeepsBound(s: seq<Record>, lo: int)
    requires forall i :: 0 <= i < |s| ==> lo <= s[i].ts
    ensures forall i :: 0 <= i < |InsertionSort(s)| ==> lo <= InsertionSort(s)[i].ts
  {
    InsertionSortCorrect(s);
    var u := InsertionSort(s);
    forall i | 0 <= i < |u| ensures lo <= u[i].ts {
      assert u[i] in multiset(u);
      var k :| 0 <= k < |s| && s[k] == u[i];
    }
  }

  /** One step of Insert, peeled from the right of the already-shifted part. */
  lemma InsertShift(p: seq<Record>, j: int, x: Record)
    requires 0 < j <= |p| && p[j - 1].ts > x.ts
    ensures Insert(p[..j], x) + p[j..] == Insert(p[..j - 1], x) + p[j - 1..]
  {
    assert p[..j][..j - 1] == p[..j - 1];
    assert p[j - 1..] == [p[j - 1]] + p[j..];
  }

  /** One more element of s sorted into the prefix: how the outer loop advances. */
  lemma SortStep(s: seq<Record>, i: int)
    requires 0 <= i < |s|
    ensures |InsertionSort(s[..i])| == i
    ensures InsertionSort(s[..i + 1]) == Insert(InsertionSort(s[..i]), s[i])
  {
    InsertionSortCorrect(s[..i]);
    assert s[..i + 1][..i] == s[..i];
  }

  /**
   * The inner step of the sort: the element x at index i is moved left past
   * every element of the sorted prefix p with a larger ts, and those shift
   * one slot right. Afterwards a[..i + 1] is Insert(p, x); the rest of the
   * array is untouched.
   */
  method InsertInto(a: array<Record>, i: int, ghost p: seq<Record>, x: Record)
    requires 0 <= i < a.Length && |p| == i && a[i] == x
    requires forall k :: 0 <= k < i ==> a[k] == p[k]
    modifies a
    ensures |Insert(p, x)| == i + 1
    ensures forall k :: 0 <= k <= i ==> a[k] == Insert(p, x)[k]
    ensures forall k :: i < k < a.Length ==> a[k] == old(a[k])
  {
    var j := i;
    assert p[..j] == p && p[j..] == [];
    while j > 0 && a[j - 1].ts > x.ts
      invariant 0 <= j <= i
      invariant forall k :: 0 <= k < j ==> a[k] == p[k]
      invariant forall k :: j < k <= i ==> a[k] == p[k - 1]
      invariant forall k :: i < k < a.Length ==> a[k] == old(a[k])
      invariant Insert(p, x) == Insert(p[..j], x) + p[j..]
    {
      InsertShift(p, j, x);
      a[j] := a[j - 1];
      j := j - 1;
    }
    a[j] := x;
    InsertPlaced(p, j, x);
  }

  /** Where the shifting stops, x sits at j between the unshifted and the shifted part of p. */
  lemma InsertPlaced(p: seq<Record>, j: int, x: Record)
    requires 0 <= j <= |p| && (j == 0 || p[j - 1].ts <= x.ts)
    requires Insert(p, x) == Insert(p[..j], x) + p[j..]
    ensures |Insert(p, x)| == |p| + 1 && Insert(p, x)[j] == x
    ensures forall k :: 0 <= k < j ==> Insert(p, x)[k] == p[k]
    ensures forall k :: j < k <= |p| ==> Insert(p, x)[k] == p[k - 1]
  {
    assert Insert(p[..j], x) == p[..j] + [x];
    var ins := Insert(p, x);
    assert ins == p[..j] + [x] + p[j..];
    forall k | j < k <= |p| ensures ins[k] == p[k - 1] {
      assert ins[k] == p[j..][k - j - 1];
    }
  }

  /**
   * In-place sort of d (index.js:35), an insertion sort that shifts larger
   * elements one slot to the right. Afterwards the array holds exactly
   * InsertionSort of what it held before.
   */
  method SortByTs(a: array<Record>)
    modifies a
    ensures a[..] == InsertionSort(old(a[..]))
  {
    ghost var s := a[..];
    ghost var done: seq<Record> := [];
    var i := 0;
    while i < a.Length
      invariant 0 <= i <= a.Length && |s| == a.Length
      invariant done == InsertionSort(s[..i]) && |done| == i
      invariant forall k :: 0 <= k < i ==> a[k] == done[k]
      invariant forall k :: i <= k < a.Length ==> a[k] == s[k]
    {
      SortStep(s, i);
      InsertInto(a, i, done, a[i]);
      done := Insert(done, s[i]);
      i := i + 1;
    }
    assert s[..a.Length] == s;
    assert a[..] == done;
  }
}
