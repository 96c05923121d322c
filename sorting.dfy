/** A stable sort by a numeric key, highest key first.

    Two places sort: the classifier post-processing sorts the kept
    (label, score) pairs by score, highest first, with Python's stable
    `list.sort(key=..., reverse=True)`; the patient listing asks the database
    for the doctor's patients newest first. Both are modelled by one
    definition, SortDesc, a stable insertion sort, and one in-place method
    proved to compute it. */
module Sorting {

  /** Where x goes when it is inserted into t: after the last element whose
      key is at least x's key. Every element from that place on has a
      strictly smaller key, so elements with a key equal to x's stay before
      it. */
  function InsertPos<T>(t: seq<T>, x: T, key: T -> real): (p: nat)
    ensures p <= |t|
    ensures p > 0 ==> key(t[p - 1]) >= key(x)
    ensures forall k :: p <= k < |t| ==> key(t[k]) < key(x)
  {
    if t == [] || key(t[|t| - 1]) >= key(x) then |t| else InsertPos(t[..|t| - 1], x, key)
  }

  function InsertDesc<T>(t: seq<T>, x: T, key: T -> real): (r: seq<T>)
  {
    var p := InsertPos(t, x, key);
    t[..p] + [x] + t[p..]
  }

  lemma InsertDescPermutes<T>(t: seq<T>, x: T, key: T -> real)
    ensures multiset(InsertDesc(t, x, key)) == multiset(t) + multiset{x}
  {
    var p := InsertPos(t, x, key);
    assert t == t[..p] + t[p..];
  }

  /** The stable sort, highest key first: each element in turn is inserted
      into the sorted prefix. */
  function SortDesc<T>(s: seq<T>, key: T -> real): (r: seq<T>)
    ensures |r| == |s|
  {
    if s == [] then [] else InsertDesc(SortDesc(s[..|s| - 1], key), s[|s| - 1], key)
  }

  ghost predicate SortedDesc<T>(s: seq<T>, key: T -> real) {
    forall i, j :: 0 <= i < j < |s| ==> key(s[i]) >= key(s[j])
  }

  /** Among elements with equal keys, rank increases from left to right. */
  ghost predicate TiesInOrder<T>(s: seq<T>, key: T -> real, rank: T -> int) {
    forall i, j :: 0 <= i < j < |s| && key(s[i]) == key(s[j]) ==> rank(s[i]) < rank(s[j])
  }

  ghost predicate RankIncreasing<T>(s: seq<T>, rank: T -> int) {
    forall i, j :: 0 <= i < j < |s| ==> rank(s[i]) < rank(s[j])
  }

  /** The head of a list sorted with ties in rank order scores at least as
      much as any element, and precedes in rank every element scoring the
      same. */
  lemma HeadDominates<T>(s: seq<T>, key: T -> real, rank: T -> int, x: T)
    requires SortedDesc(s, key) && TiesInOrder(s, key, rank) && x in s
    ensures key(x) <= key(s[0])
    ensures key(x) == key(s[0]) ==> rank(s[0]) <= rank(x)
  {
    var m :| 0 <= m < |s| && s[m] == x;
    if m > 0 {
      assert key(s[0]) >= key(s[m]);
    }
  }

  lemma InsertDescSorted<T>(t: seq<T>, x: T, key: T -> real)
    requires SortedDesc(t, key)
    ensures SortedDesc(InsertDesc(t, x, key), key)
  {
    var p := InsertPos(t, x, key);
    var r := InsertDesc(t, x, key);
    forall i, j | 0 <= i < j < |r| ensures key(r[i]) >= key(r[j]) {
      if i < p && j == p {
        assert key(t[i]) >= key(t[p - 1]);
      }
    }
  }

  /** The sort orders by key, highest first. */
  lemma {:induction false} SortDescSorted<T>(s: seq<T>, key: T -> real)
    ensures SortedDesc(SortDesc(s, key), key)
  {
    if s != [] {
      SortDescSorted(s[..|s| - 1], key);
      InsertDescSorted(SortDesc(s[..|s| - 1], key), s[|s| - 1], key);
    }
  }

  /** The sort neither loses nor invents elements. */
  lemma {:induction false} SortDescPermutes<T>(s: seq<T>, key: T -> real)
    ensures multiset(SortDesc(s, key)) == multiset(s)
  {
    if s != [] {
      var p := s[..|s| - 1];
      SortDescPermutes(p, key);
      InsertDescPermutes(SortDesc(p, key), s[|s| - 1], key);
      assert s == p + [s[|s| - 1]];
    }
  }

  lemma InsertDescTies<T>(t: seq<T>, x: T, key: T -> real, rank: T -> int)
    requires TiesInOrder(t, key, rank)
    requires forall e :: e in t ==> rank(e) < rank(x)
    ensures TiesInOrder(InsertDesc(t, x, key), key, rank)
  {
    var p := InsertPos(t, x, key);
    var r := InsertDesc(t, x, key);
    forall i, j | 0 <= i < j < |r| && key(r[i]) == key(r[j]) ensures rank(r[i]) < rank(r[j]) {
      if i < p && j == p {
        assert r[i] == t[i];
      } else if i < p && j > p {
        assert r[i] == t[i] && r[j] == t[j - 1];
      } else if i > p {
        assert r[i] == t[i - 1] && r[j] == t[j - 1];
      }
    }
  }

  /** Stability: if the input lists elements in increasing rank (for the
      classifier, the label index), then among equal keys the output keeps
      that order. */
  lemma {:induction false} SortDescStable<T>(s: seq<T>, key: T -> real, rank: T -> int)
    requires RankIncreasing(s, rank)
    ensures TiesInOrder(SortDesc(s, key), key, rank)
  {
    if s != [] {
      var p := s[..|s| - 1];
      var x := s[|s| - 1];
      assert RankIncreasing(p, rank);
      SortDescStable(p, key, rank);
      SortDescPermutes(p, key);
      forall e | e in SortDesc(p, key) ensures rank(e) < rank(x) {
        assert e in multiset(p);
        var k :| 0 <= k < |p| && p[k] == e;
        assert s[k] == e;
      }
      InsertDescTies(SortDesc(p, key), x, key, rank);
    }
  }

  /** InsertPos is the place after which every key is smaller than x's and
      before which the key is at least x's. */
  lemma {:induction false} InsertPosAt<T>(t: seq<T>, x: T, key: T -> real, j: nat)
    requires j <= |t| && (j == 0 || key(t[j - 1]) >= key(x))
    requires forall k :: j <= k < |t| ==> key(t[k]) < key(x)
    ensures InsertPos(t, x, key) == j
    decreases |t|
  {
    if j < |t| {
      InsertPosAt(t[..|t| - 1], x, key, j);
    }
  }

  /** A sequence that agrees with t before position p, holds x at p and
      agrees with t shifted one place after p is the insertion of x. */
  lemma ShiftedIsInsert<T>(t: seq<T>, x: T, key: T -> real, s: seq<T>, p: nat)
    requires p == InsertPos(t, x, key) && |s| == |t| + 1
    requires forall k :: 0 <= k < p ==> s[k] == t[k]
    requires s[p] == x
    requires forall k :: p < k < |s| ==> s[k] == t[k - 1]
    ensures s == InsertDesc(t, x, key)
  {
    var r := InsertDesc(t, x, key);
    forall k | 0 <= k < |s| ensures s[k] == r[k] {
      if k < p {
        assert r[k] == t[k];
      } else if k > p {
        assert r[k] == t[k - 1];
      }
    }
  }

  /** The shifting loop of one insertion step: every element of a[..i]
      with a key strictly smaller than x's, counted from the right, moves
      one place to the right. j is the gap left for x, which is where
      InsertPos puts it. */
  method ShiftRight<T>(a: array<T>, i: nat, x: T, key: T -> real) returns (j: nat)
    requires i < a.Length
    modifies a
    ensures j <= i && j == InsertPos(old(a[..i]), x, key)
    ensures forall k :: 0 <= k < j ==> a[k] == old(a[k])
    ensures forall k :: j < k <= i ==> a[k] == old(a[k - 1])
    ensures forall k :: i < k < a.Length ==> a[k] == old(a[k])
  {
    ghost var t := a[..i];
    j := i;
    while j > 0 && key(a[j - 1]) < key(x)
      invariant 0 <= j <= i
      invariant forall k :: 0 <= k < j ==> a[k] == t[k]
      invariant forall k :: j < k <= i ==> a[k] == t[k - 1]
      invariant forall k :: i < k < a.Length ==> a[k] == old(a[k])
      invariant forall k :: j <= k < i ==> key(t[k]) < key(x)
    {
      a[j] := a[j - 1];
      j := j - 1;
    }
    InsertPosAt(t, x, key, j);
  }

  /** One step of the in-place sort: a[..i] is already sorted; a[i] is
      moved left past every element with a strictly smaller key. */
  method InsertInPlace<T>(a: array<T>, i: nat, key: T -> real)
    requires i < a.Length
    modifies a
    ensures a[..i + 1] == InsertDesc(old(a[..i]), old(a[i]), key)
    ensures a[i + 1..] == old(a[i + 1..])
  {
    var x := a[i];
    ghost var t := a[..i];
    var j := ShiftRight(a, i, x, key);
    a[j] := x;
    ShiftedIsInsert(t, x, key, a[..i + 1], j);
  }

  /** In-place insertion sort of an array, highest key first. The result is
      SortDesc of the original contents. */
  method SortInPlace<T>(a: array<T>, key: T -> real)
    modifies a
    ensures a[..] == SortDesc(old(a[..]), key)
  {
    ghost var o := a[..];
    var i := 0;
    while i < a.Length
      invariant 0 <= i <= a.Length
      invariant a[..i] == SortDesc(o[..i], key)
      invariant a[i..] == o[i..]
    {
      InsertInPlace(a, i, key);
      assert o[..i + 1][..i] == o[..i];
      i := i + 1;
    }
    assert a[..] == a[..a.Length];
    assert o == o[..a.Length];
  }
}
