/**
 * The ordering `Spectrum.__init__` imposes on its lines: Python's stable
 * `list.sort` keyed on the coordinate. The reference definition is an
 * insertion sort on sequences; the constructor's in-place sort on an array is
 * proved to produce exactly that sequence.
 */
module LineSort {
  import opened Interpolation

  /** Inserts `e` after every element of `t` whose coordinate is not above its own, scanning from the end. */
  function Insert(t: seq<Line>, e: Line): seq<Line>
    decreases |t|
  {
    if |t| == 0 || t[|t| - 1].x <= e.x then
      t + [e]
    else
      Insert(t[..|t| - 1], e) + [t[|t| - 1]]
  }

  /** `sorted(s, key=lambda l: l[0])`, built by inserting the elements one by one. */
  function SortByX(s: seq<Line>): seq<Line>
    decreases |s|
  {
    if |s| == 0 then [] else Insert(SortByX(s[..|s| - 1]), s[|s| - 1])
  }

  /** The samples of `s` at coordinate `k`, in the order they appear in `s`. */
  function WithX(s: seq<Line>, k: real): (r: seq<Line>)
    ensures forall i :: 0 <= i < |r| ==> r[i].x == k
    decreases |s|
  {
    if |s| == 0 then []
    else WithX(s[..|s| - 1], k) + (if s[|s| - 1].x == k then [s[|s| - 1]] else [])
  }

  lemma {:induction false} InsertSorted(t: seq<Line>, e: Line)
    requires Sorted(t)
    ensures Sorted(Insert(t, e))
    ensures |Insert(t, e)| == |t| + 1
    ensures forall i :: 0 <= i < |Insert(t, e)| ==> Insert(t, e)[i] == e || Insert(t, e)[i] in t
    decreases |t|
  {
    if |t| == 0 || t[|t| - 1].x <= e.x {
    } else {
      var u := t[..|t| - 1];
      InsertSorted(u, e);
      var r := Insert(u, e);
      assert forall i :: 0 <= i < |r| ==> r[i].x <= t[|t| - 1].x by {
        forall i | 0 <= i < |r|
          ensures r[i].x <= t[|t| - 1].x
        {
          if r[i] != e {
            assert r[i] in u;
          }
        }
      }
    }
  }

  lemma {:induction false} InsertPermutes(t: seq<Line>, e: Line)
    ensures multiset(Insert(t, e)) == multiset(t) + multiset{e}
    decreases |t|
  {
    if |t| == 0 || t[|t| - 1].x <= e.x {
    } else {
      var u := t[..|t| - 1];
      InsertPermutes(u, e);
      assert t == u + [t[|t| - 1]];
    }
  }

  lemma {:induction false} InsertStable(t: seq<Line>, e: Line, k: real)
    ensures WithX(Insert(t, e), k) == WithX(t, k) + (if e.x == k then [e] else [])
    decreases |t|
  {
    if |t| == 0 || t[|t| - 1].x <= e.x {
      assert (t + [e])[..|t|] == t;
    } else {
      var u := t[..|t| - 1];
      var last := t[|t| - 1];
      InsertStable(u, e, k);
      var r := Insert(u, e);
      assert (r + [last])[..|r|] == r;
    }
  }

  /** The sort orders by coordinate. */
  lemma {:induction false} SortByXSorted(s: seq<Line>)
    ensures Sorted(SortByX(s))
    decreases |s|
  {
    if |s| > 0 {
      SortByXSorted(s[..|s| - 1]);
      InsertSorted(SortByX(s[..|s| - 1]), s[|s| - 1]);
    }
  }

  /** The sort keeps every sample, each as many times as it occurs. */
  lemma {:induction false} SortByXPermutes(s: seq<Line>)
    ensures multiset(SortByX(s)) == multiset(s)
    decreases |s|
  {
    if |s| > 0 {
      SortByXPermutes(s[..|s| - 1]);
      InsertPermutes(SortByX(s[..|s| - 1]), s[|s| - 1]);
      assert s == s[..|s| - 1] + [s[|s| - 1]];
    }
  }

  /** The sort is stable: samples sharing a coordinate keep their relative order. */
  lemma {:induction false} SortByXStable(s: seq<Line>)
    ensures forall k :: WithX(SortByX(s), k) == WithX(s, k)
    decreases |s|
  {
    if |s| > 0 {
      SortByXStable(s[..|s| - 1]);
      forall k
        ensures WithX(SortByX(s), k) == WithX(s, k)
      {
        InsertStable(SortByX(s[..|s| - 1]), s[|s| - 1], k);
      }
    }
  }

  /** Data that is already sorted is left exactly as it is. */
  lemma {:induction false} SortByXKeepsSorted(s: seq<Line>)
    requires Sorted(s)
    ensures SortByX(s) == s
    decreases |s|
  {
    if |s| > 0 {
      var u := s[..|s| - 1];
      assert Sorted(u);
      SortByXKeepsSorted(u);
      if |u| > 0 {
        assert u[|u| - 1].x <= s[|s| - 1].x;
      }
      assert u + [s[|s| - 1]] == s;
    }
  }

  /** An array image with `e` at `j`, `t`'s prefix below it and `t`'s suffix shifted above it. */
  lemma ShiftedInsert(u: seq<Line>, t: seq<Line>, e: Line, j: nat)
    requires |u| == |t| + 1 && j <= |t| && u[j] == e
    requires forall k :: 0 <= k < j ==> u[k] == t[k]
    requires forall k :: j < k < |u| ==> u[k] == t[k - 1]
    ensures u == t[..j] + [e] + t[j..]
  {
    forall k | 0 <= k < |u|
      ensures u[k] == (t[..j] + [e] + t[j..])[k]
    {
    }
  }

  /** Two images that agree at every index above `i` have the same suffix there. */
  lemma SuffixKept(u: seq<Line>, v: seq<Line>, i: nat)
    requires |u| == |v| && i < |u|
    requires forall k :: i < k < |u| ==> u[k] == v[k]
    ensures u[i + 1..] == v[i + 1..]
  {
  }

  /** `e` lands just above the last element not larger than it, with every larger element after it. */
  lemma {:induction false} InsertPosition(t: seq<Line>, e: Line, j: nat)
    requires j <= |t| && (j == 0 || t[j - 1].x <= e.x)
    requires forall k :: j <= k < |t| ==> t[k].x > e.x
    ensures Insert(t, e) == t[..j] + [e] + t[j..]
    decreases |t|
  {
    if j < |t| {
      var u := t[..|t| - 1];
      InsertPosition(u, e, j);
      assert u[..j] == t[..j];
      assert u[j..] + [t[|t| - 1]] == t[j..];
    } else {
      assert t[..j] == t;
    }
  }

  /**
   * One pass of the insertion sort: with `a[..i]` in order, `a[i]` is moved
   * down past every larger element, which shift one slot up.
   */
  method InsertAt(a: array<Line>, i: nat)
    requires i < a.Length
    modifies a
    ensures a[..i + 1] == Insert(old(a[..i]), old(a[i]))
    ensures a[i + 1..] == old(a[i + 1..])
  {
    var e := a[i];
    ghost var before := a[..];
    ghost var t := a[..i];
    var j := ShiftUp(a, i);
    a[j] := e;
    InsertPosition(t, e, j);
    ShiftedInsert(a[..i + 1], t, e, j);
    SuffixKept(a[..], before, i);
  }

  /**
   * The inner loop of a pass: every element of `a[..i]` larger than `a[i]`
   * moves one slot up; `j` is the slot left free, where `a[i]` belongs.
   */
  method ShiftUp(a: array<Line>, i: nat) returns (j: nat)
    requires i < a.Length
    modifies a
    ensures j <= i
    ensures forall k :: 0 <= k < a.Length && (k < j || i < k) ==> a[k] == old(a[k])
    ensures forall k :: j < k <= i ==> a[k] == old(a[k - 1])
    ensures forall k :: j <= k < i ==> old(a[k]).x > old(a[i]).x
    ensures j == 0 || old(a[j - 1]).x <= old(a[i]).x
  {
    var e := a[i];
    j := i;
    while j > 0 && a[j - 1].x > e.x
      invariant 0 <= j <= i
      invariant forall k :: 0 <= k < a.Length && (k < j || i < k) ==> a[k] == old(a[k])
      invariant forall k :: j < k <= i ==> a[k] == old(a[k - 1])
      invariant forall k :: j <= k < i ==> old(a[k]).x > e.x
    {
      a[j] := a[j - 1];
      j := j - 1;
    }
  }

  /**
   * `self.lines.sort(key=lambda x: x[0])`: a stable sort of the array in
   * place.
   */
  method SortInPlace(a: array<Line>)
    modifies a
    ensures a[..] == SortByX(old(a[..]))
  {
    ghost var s := a[..];
    var i := 0;
    while i < a.Length
      invariant 0 <= i <= a.Length
      invariant a[..i] == SortByX(s[..i])
      invariant a[i..] == s[i..]
    {
      InsertAt(a, i);
      assert s[..i + 1][..i] == s[..i];
      i := i + 1;
    }
    assert s[..a.Length] == s;
  }
}
