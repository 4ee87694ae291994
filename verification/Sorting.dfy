/**
 Sorted vectors: `partition_point`, insertion after the equals, and the stable
 sort that insertion in arrival order amounts to.
 */
module Sorting {

  /** `le` is a total preorder: equal keys are allowed, incomparable ones are not. */
  ghost predicate TotalPreorder<T(!new)>(le: (T, T) -> bool) {
    && (forall x, y :: le(x, y) || le(y, x))
    && (forall x, y, z :: le(x, y) && le(y, z) ==> le(x, z))
  }

  predicate Sorted<T>(s: seq<T>, le: (T, T) -> bool) {
    forall i, j :: 0 <= i < j < |s| ==> le(s[i], s[j])
  }

  /** `p` holds on a prefix of `s` and on nothing after it. */
  predicate Partitioned<T>(s: seq<T>, p: T -> bool) {
    forall i, j :: 0 <= i < j < |s| && p(s[j]) ==> p(s[i])
  }

  /** Binary search for the length of the prefix on which `p` holds. */
  function Bisect<T>(s: seq<T>, p: T -> bool, lo: nat, hi: nat): (k: nat)
    requires lo <= hi <= |s|
    ensures lo <= k <= hi
    decreases hi - lo
  {
    if lo == hi then lo
    else
      var mid := lo + (hi - lo) / 2;
      if p(s[mid]) then Bisect(s, p, mid + 1, hi) else Bisect(s, p, lo, mid)
  }

  function PartitionPoint<T>(s: seq<T>, p: T -> bool): (k: nat)
    ensures k <= |s|
  {
    Bisect(s, p, 0, |s|)
  }

  lemma {:induction false} BisectSplits<T>(s: seq<T>, p: T -> bool, lo: nat, hi: nat)
    requires Partitioned(s, p) && lo <= hi <= |s|
    requires forall i :: 0 <= i < lo ==> p(s[i])
    requires forall i :: hi <= i < |s| ==> !p(s[i])
    ensures forall i :: 0 <= i < |s| ==> (p(s[i]) <==> i < Bisect(s, p, lo, hi))
    decreases hi - lo
  {
    if lo < hi {
      var mid := lo + (hi - lo) / 2;
      if p(s[mid]) {
        BisectSplits(s, p, mid + 1, hi);
      } else {
        BisectSplits(s, p, lo, mid);
      }
    }
  }

  /** On a partitioned vector the binary search finds the boundary exactly. */
  lemma PartitionPointSplits<T>(s: seq<T>, p: T -> bool)
    requires Partitioned(s, p)
    ensures forall i :: 0 <= i < |s| ==> (p(s[i]) <==> i < PartitionPoint(s, p))
  {
    BisectSplits(s, p, 0, |s|);
  }

  function NotAfter<T>(le: (T, T) -> bool, e: T): T -> bool {
    x => le(x, e)
  }

  /** Insert behind every element that is not greater, as `append_*` does. */
  function Insert<T>(s: seq<T>, e: T, le: (T, T) -> bool): (r: seq<T>)
    ensures |r| == |s| + 1
  {
    var k := PartitionPoint(s, NotAfter(le, e));
    s[..k] + [e] + s[k..]
  }

  /** The vector obtained by inserting `arrivals` one by one. */
  function StableSort<T>(arrivals: seq<T>, le: (T, T) -> bool): (r: seq<T>)
    ensures |r| == |arrivals|
  {
    if arrivals == [] then []
    else Insert(StableSort(arrivals[..|arrivals| - 1], le), arrivals[|arrivals| - 1], le)
  }

  function Filter<T>(s: seq<T>, p: T -> bool): (r: seq<T>)
    ensures |r| <= |s|
  {
    if s == [] then []
    else
      var rest := Filter(s[..|s| - 1], p);
      if p(s[|s| - 1]) then rest + [s[|s| - 1]] else rest
  }

  lemma {:induction false} FilterConcat<T>(a: seq<T>, b: seq<T>, p: T -> bool)
    ensures Filter(a + b, p) == Filter(a, p) + Filter(b, p)
  {
    if b == [] {
      assert a + b == a;
    } else {
      var c := b[..|b| - 1];
      assert (a + b)[..|a + b| - 1] == a + c;
      FilterConcat(a, c, p);
      assert (a + b)[|a + b| - 1] == b[|b| - 1];
      assert Filter(a + b, p) == if p(b[|b| - 1]) then Filter(a + c, p) + [b[|b| - 1]] else Filter(a + c, p);
      assert Filter(b, p) == if p(b[|b| - 1]) then Filter(c, p) + [b[|b| - 1]] else Filter(c, p);
    }
  }

  lemma {:induction false} FilterAll<T>(s: seq<T>, p: T -> bool)
    requires forall i :: 0 <= i < |s| ==> p(s[i])
    ensures Filter(s, p) == s
  {
    if s != [] {
      FilterAll(s[..|s| - 1], p);
    }
  }

  lemma {:induction false} FilterNone<T>(s: seq<T>, p: T -> bool)
    requires forall i :: 0 <= i < |s| ==> !p(s[i])
    ensures Filter(s, p) == []
  {
    if s != [] {
      FilterNone(s[..|s| - 1], p);
    }
  }

  lemma {:induction false} FilterMembers<T>(s: seq<T>, p: T -> bool)
    ensures forall x :: x in Filter(s, p) <==> x in s && p(x)
  {
    if s != [] {
      FilterMembers(s[..|s| - 1], p);
      assert s == s[..|s| - 1] + [s[|s| - 1]];
    }
  }

  lemma {:induction false} FilterAgree<T>(s: seq<T>, p: T -> bool, q: T -> bool)
    requires forall x :: x in s ==> p(x) == q(x)
    ensures Filter(s, p) == Filter(s, q)
  {
    if s != [] {
      FilterAgree(s[..|s| - 1], p, q);
    }
  }

  lemma {:induction false} FilterTwice<T>(s: seq<T>, p: T -> bool, q: T -> bool, both: T -> bool)
    requires forall x :: both(x) == (p(x) && q(x))
    ensures Filter(Filter(s, p), q) == Filter(s, both)
  {
    if s != [] {
      var rest := s[..|s| - 1];
      FilterTwice(rest, p, q, both);
      if p(s[|s| - 1]) {
        FilterConcat(Filter(rest, p), [s[|s| - 1]], q);
        assert Filter([s[|s| - 1]], q) == if q(s[|s| - 1]) then [s[|s| - 1]] else [];
      }
    }
  }

  /** A prefix/suffix split of `s` on which `p` is constant is what `Filter` keeps. */
  lemma FilterPrefix<T>(s: seq<T>, p: T -> bool, k: nat)
    requires k <= |s|
    requires forall i :: 0 <= i < |s| ==> (p(s[i]) <==> i < k)
    ensures Filter(s, p) == s[..k]
  {
    assert s == s[..k] + s[k..];
    FilterConcat(s[..k], s[k..], p);
    FilterAll(s[..k], p);
    FilterNone(s[k..], p);
  }

  /** A window of `s` outside which `p` fails and inside which it holds is what `Filter` keeps. */
  lemma FilterMiddle<T>(s: seq<T>, p: T -> bool, first: nat, last: nat)
    requires first <= last <= |s|
    requires forall i :: 0 <= i < |s| ==> (p(s[i]) <==> first <= i < last)
    ensures Filter(s, p) == s[first..last]
  {
    var a, b, c := s[..first], s[first..last], s[last..];
    assert forall i :: 0 <= i < |a| ==> a[i] == s[i];
    assert forall i :: 0 <= i < |b| ==> b[i] == s[first + i];
    assert forall i :: 0 <= i < |c| ==> c[i] == s[last + i];
    FilterParts(a, b, c, p);
    assert s == (a + b) + c;
  }

  lemma FilterParts<T>(a: seq<T>, b: seq<T>, c: seq<T>, p: T -> bool)
    requires forall i :: 0 <= i < |a| ==> !p(a[i])
    requires forall i :: 0 <= i < |b| ==> p(b[i])
    requires forall i :: 0 <= i < |c| ==> !p(c[i])
    ensures Filter((a + b) + c, p) == b
  {
    FilterConcat(a + b, c, p);
    FilterConcat(a, b, p);
    FilterNone(a, p);
    FilterAll(b, p);
    FilterNone(c, p);
  }

  lemma NotAfterPartitions<T(!new)>(s: seq<T>, e: T, le: (T, T) -> bool)
    requires TotalPreorder(le) && Sorted(s, le)
    ensures Partitioned(s, NotAfter(le, e))
    ensures forall i :: 0 <= i < |s| ==> (le(s[i], e) <==> i < PartitionPoint(s, NotAfter(le, e)))
  {
    PartitionPointSplits(s, NotAfter(le, e));
  }

  lemma InsertSorted<T(!new)>(s: seq<T>, e: T, le: (T, T) -> bool)
    requires TotalPreorder(le) && Sorted(s, le)
    ensures Sorted(Insert(s, e, le), le)
    ensures multiset(Insert(s, e, le)) == multiset(s) + multiset{e}
  {
    NotAfterPartitions(s, e, le);
    var k := PartitionPoint(s, NotAfter(le, e));
    assert s == s[..k] + s[k..];
    var r := Insert(s, e, le);
    forall i, j | 0 <= i < j < |r|
      ensures le(r[i], r[j])
    {
      var x := if i < k then i else i - 1;
      var y := if j <= k then j else j - 1;
      if i == k {
        assert r[j] == s[y];
      } else if j == k {
        assert r[i] == s[i];
      } else {
        assert r[i] == s[x] && r[j] == s[y];
      }
    }
  }

  /** The result is sorted and a permutation of the arrivals. */
  lemma {:induction false} StableSortSpec<T(!new)>(arrivals: seq<T>, le: (T, T) -> bool)
    requires TotalPreorder(le)
    ensures Sorted(StableSort(arrivals, le), le)
    ensures multiset(StableSort(arrivals, le)) == multiset(arrivals)
  {
    if arrivals != [] {
      var init, e := arrivals[..|arrivals| - 1], arrivals[|arrivals| - 1];
      StableSortSpec(init, le);
      InsertSorted(StableSort(init, le), e, le);
      assert arrivals == init + [e];
    }
  }

  lemma PointAt<T>(s: seq<T>, p: T -> bool, k: nat)
    requires k <= |s| && forall i :: 0 <= i < |s| ==> (p(s[i]) <==> i < k)
    ensures PartitionPoint(s, p) == k
  {
    PartitionPointSplits(s, p);
    var r := PartitionPoint(s, p);
    assert r < |s| ==> !p(s[r]);
    assert 0 < r ==> p(s[r - 1]);
  }

  lemma InsertBetween<T>(a: seq<T>, c: seq<T>, e: T, le: (T, T) -> bool)
    requires (forall x :: x in a ==> le(x, e)) && (forall x :: x in c ==> !le(x, e))
    ensures Insert(a + c, e, le) == a + [e] + c
  {
    var s := a + c;
    forall i | 0 <= i < |s|
      ensures NotAfter(le, e)(s[i]) <==> i < |a|
    {
      assert s[i] == if i < |a| then a[i] else c[i - |a|];
    }
    PointAt(s, NotAfter(le, e), |a|);
    assert s[..|a|] == a && s[|a|..] == c;
  }

  /** Filtering and inserting commute, whatever is kept. */
  lemma FilterOfInsert<T(!new)>(s: seq<T>, e: T, le: (T, T) -> bool, p: T -> bool)
    requires TotalPreorder(le) && Sorted(s, le)
    ensures Filter(Insert(s, e, le), p) == if p(e) then Insert(Filter(s, p), e, le) else Filter(s, p)
  {
    NotAfterPartitions(s, e, le);
    var k := PartitionPoint(s, NotAfter(le, e));
    var a, c := s[..k], s[k..];
    assert s == a + c;
    FilterConcat(a, c, p);
    FilterConcat(a + [e], c, p);
    FilterConcat(a, [e], p);
    assert Filter([e], p) == if p(e) then [e] else [];
    FilterMembers(a, p);
    FilterMembers(c, p);
    forall x | x in c
      ensures !le(x, e)
    {
      var i :| 0 <= i < |c| && c[i] == x;
      assert c[i] == s[k + i];
    }
    InsertBetween(Filter(a, p), Filter(c, p), e, le);
  }

  lemma InsertFilter<T(!new)>(s: seq<T>, e: T, le: (T, T) -> bool, p: T -> bool)
    requires TotalPreorder(le) && Sorted(s, le)
    requires p(e) ==> forall x :: x in Filter(s, p) ==> le(x, e)
    ensures Filter(Insert(s, e, le), p) == Filter(s, p) + if p(e) then [e] else []
  {
    FilterOfInsert(s, e, le, p);
    if p(e) {
      InsertBetween(Filter(s, p), [], e, le);
      assert Filter(s, p) + [] == Filter(s, p);
    }
  }

  /** Stability: whatever part of the arrivals is already in order keeps its order. */
  lemma {:induction false} StableSortKeepsOrder<T(!new)>(arrivals: seq<T>, le: (T, T) -> bool, p: T -> bool)
    requires TotalPreorder(le) && Sorted(Filter(arrivals, p), le)
    ensures Filter(StableSort(arrivals, le), p) == Filter(arrivals, p)
  {
    if arrivals != [] {
      var init, e := arrivals[..|arrivals| - 1], arrivals[|arrivals| - 1];
      var kept := Filter(init, p);
      if p(e) {
        assert Filter(arrivals, p) == kept + [e];
        forall i | 0 <= i < |kept|
          ensures le(kept[i], e)
        {
          assert Filter(arrivals, p)[i] == kept[i] && Filter(arrivals, p)[|kept|] == e;
        }
        forall i, j | 0 <= i < j < |kept|
          ensures le(kept[i], kept[j])
        {
          assert Filter(arrivals, p)[i] == kept[i] && Filter(arrivals, p)[j] == kept[j];
        }
      }
      StableSortKeepsOrder(init, le, p);
      StableSortSpec(init, le);
      InsertFilter(StableSort(init, le), e, le, p);
    }
  }

  /** The fast path of `append_*`: an element not before the last one is pushed at the end. */
  lemma InsertAtEnd<T(!new)>(s: seq<T>, e: T, le: (T, T) -> bool)
    requires TotalPreorder(le) && Sorted(s, le)
    requires s == [] || le(s[|s| - 1], e)
    ensures Insert(s, e, le) == s + [e]
  {
    NotAfterPartitions(s, e, le);
    if s != [] {
      assert le(s[|s| - 1], e) ==> |s| - 1 < PartitionPoint(s, NotAfter(le, e));
    }
  }

  /** Re-appending an already sorted vector, row by row, rebuilds it unchanged. */
  lemma {:induction false} ReappendSorted<T(!new)>(s: seq<T>, le: (T, T) -> bool)
    requires TotalPreorder(le) && Sorted(s, le)
    ensures StableSort(s, le) == s
  {
    if s != [] {
      var init, e := s[..|s| - 1], s[|s| - 1];
      ReappendSorted(init, le);
      InsertAtEnd(init, e, le);
    }
  }
}
