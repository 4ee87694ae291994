/**
 The web client's merge of two series of points: the loop over both sorted lists,
 and what the merged list holds at every timestamp, repeated ones included.
 */
module MergePoints {
  import opened Common
  import opened Sorting
  import Store

  type Float = Store.Float

  /** A point as it arrives, and a finite one. */
  datatype RawPoint = RawPoint(t: Float, value: Float)

  datatype Point = Point(t: real, value: real)

  datatype Preference = PreferExisting | PreferIncoming

  function Finite(raw: seq<RawPoint>): seq<Point> {
    if raw == [] then []
    else
      var init, last := Finite(raw[..|raw| - 1]), raw[|raw| - 1];
      if last.t.Num? && last.value.Num? then init + [Point(last.t.r, last.value.r)] else init
  }

  function ByT(): (Point, Point) -> bool {
    (a: Point, b: Point) => a.t <= b.t
  }

  /** The finite points in stable timestamp order. */
  function Prepared(raw: seq<RawPoint>): seq<Point> {
    StableSort(Finite(raw), ByT())
  }

  lemma PreparedSorted(raw: seq<RawPoint>)
    ensures Sorted(Prepared(raw), ByT())
  {
    StableSortSpec(Finite(raw), ByT());
  }

  // ----- what the result holds -----------------------------------------------------------

  function At(t: real): Point -> bool {
    (p: Point) => p.t == t
  }

  /** The values given at `t`, in order. */
  function Given(s: seq<Point>, t: real): seq<Point> {
    Filter(s, At(t))
  }

  function LastValue(s: seq<Point>): Option<real> {
    if s == [] then None else Some(s[|s| - 1].value)
  }

  /**
   The value at one timestamp: the side that gives it more often wins with its last value,
   the preferred side when both give it equally often.
   */
  function Resolved(existing: seq<Point>, incoming: seq<Point>, preference: Preference): Option<real> {
    if |existing| > |incoming| then LastValue(existing)
    else if |incoming| > |existing| then LastValue(incoming)
    else LastValue(if preference.PreferExisting? then existing else incoming)
  }

  function ValueAt(left: seq<Point>, right: seq<Point>, preference: Preference, t: real): Option<real> {
    Resolved(Given(left, t), Given(right, t), preference)
  }

  ghost predicate Increasing(points: seq<Point>) {
    forall i, j :: 0 <= i < j < |points| ==> points[i].t < points[j].t
  }

  function Lookup(points: seq<Point>, t: real): Option<real> {
    LastValue(Given(points, t))
  }

  /** `points` is the merge of the two lists: strictly increasing, with the resolved value at every timestamp. */
  ghost predicate IsMerge(points: seq<Point>, left: seq<Point>, right: seq<Point>, preference: Preference) {
    Increasing(points) && forall t :: Agrees(points, left, right, preference, t)
  }

  predicate Agrees(points: seq<Point>, left: seq<Point>, right: seq<Point>, preference: Preference, t: real) {
    Lookup(points, t) == ValueAt(left, right, preference, t)
  }

  // ----- the loop -----------------------------------------------------------------------------

  function PushDeduped(points: seq<Point>, p: Point): seq<Point> {
    if points != [] && points[|points| - 1].t == p.t then points[|points| - 1 := p] else points + [p]
  }

  /** Every element is at or before `t`. */
  ghost predicate AllAtMost(points: seq<Point>, t: real) {
    forall i :: 0 <= i < |points| ==> points[i].t <= t
  }

  lemma PushIncreasing(points: seq<Point>, p: Point)
    requires Increasing(points) && AllAtMost(points, p.t)
    ensures Increasing(PushDeduped(points, p)) && AllAtMost(PushDeduped(points, p), p.t)
  {
  }

  lemma PushLookup(points: seq<Point>, p: Point, t: real)
    ensures Lookup(PushDeduped(points, p), t) == if t == p.t then Some(p.value) else Lookup(points, t)
  {
    var after := PushDeduped(points, p);
    assert after[..|after| - 1] == if points != [] && points[|points| - 1].t == p.t then points[..|points| - 1] else points;
  }

  lemma GivenNext(s: seq<Point>, i: nat, t: real)
    requires i < |s|
    ensures Given(s[..i + 1], t) == if s[i].t == t then Given(s[..i], t) + [s[i]] else Given(s[..i], t)
  {
    assert s[..i + 1][..i] == s[..i];
  }

  /** Whatever one side has given more often at `t` so far, the other side has no more of. */
  ghost predicate Balanced(left: seq<Point>, i: nat, right: seq<Point>, j: nat, t: real)
    requires i <= |left| && j <= |right|
  {
    && (|Given(left[..i], t)| < |Given(right[..j], t)| ==> i == |left| || t < left[i].t)
    && (|Given(right[..j], t)| < |Given(left[..i], t)| ==> j == |right| || t < right[j].t)
  }

  ghost predicate MergedSoFar(points: seq<Point>, left: seq<Point>, i: nat, right: seq<Point>, j: nat, preference: Preference)
    requires i <= |left| && j <= |right|
  {
    && IsMerge(points, left[..i], right[..j], preference)
    && (i < |left| ==> AllAtMost(points, left[i].t))
    && (j < |right| ==> AllAtMost(points, right[j].t))
    && forall t :: Balanced(left, i, right, j, t)
  }

  lemma HeadsAhead(s: seq<Point>, i: nat, points: seq<Point>)
    requires i < |s| && Sorted(s, ByT()) && AllAtMost(points, s[i].t)
    ensures i + 1 < |s| ==> AllAtMost(points, s[i + 1].t)
  {
    if i + 1 < |s| {
      assert ByT()(s[i], s[i + 1]);
    }
  }

  lemma LeftBalanced(left: seq<Point>, i: nat, right: seq<Point>, j: nat, t: real)
    requires Sorted(left, ByT()) && i < |left| && j <= |right| && Balanced(left, i, right, j, t)
    requires j == |right| || left[i].t < right[j].t
    ensures Balanced(left, i + 1, right, j, t)
  {
    GivenNext(left, i, t);
    assert i + 1 < |left| ==> ByT()(left[i], left[i + 1]);
  }

  lemma LeftValue(points: seq<Point>, left: seq<Point>, i: nat, right: seq<Point>, j: nat, preference: Preference, t: real)
    requires i < |left| && j <= |right| && Balanced(left, i, right, j, t)
    requires Lookup(points, t) == ValueAt(left[..i], right[..j], preference, t)
    ensures Lookup(PushDeduped(points, left[i]), t) == ValueAt(left[..i + 1], right[..j], preference, t)
  {
    PushLookup(points, left[i], t);
    GivenNext(left, i, t);
  }

  lemma RightBalanced(left: seq<Point>, i: nat, right: seq<Point>, j: nat, t: real)
    requires Sorted(right, ByT()) && i <= |left| && j < |right| && Balanced(left, i, right, j, t)
    requires i == |left| || right[j].t < left[i].t
    ensures Balanced(left, i, right, j + 1, t)
  {
    GivenNext(right, j, t);
    assert j + 1 < |right| ==> ByT()(right[j], right[j + 1]);
  }

  lemma RightValue(points: seq<Point>, left: seq<Point>, i: nat, right: seq<Point>, j: nat, preference: Preference, t: real)
    requires i <= |left| && j < |right| && Balanced(left, i, right, j, t)
    requires Lookup(points, t) == ValueAt(left[..i], right[..j], preference, t)
    ensures Lookup(PushDeduped(points, right[j]), t) == ValueAt(left[..i], right[..j + 1], preference, t)
  {
    PushLookup(points, right[j], t);
    GivenNext(right, j, t);
  }

  lemma BothBalanced(left: seq<Point>, i: nat, right: seq<Point>, j: nat, t: real)
    requires Sorted(left, ByT()) && Sorted(right, ByT()) && i < |left| && j < |right| && Balanced(left, i, right, j, t)
    requires left[i].t == right[j].t
    ensures Balanced(left, i + 1, right, j + 1, t)
  {
    GivenNext(left, i, t);
    GivenNext(right, j, t);
    assert i + 1 < |left| ==> ByT()(left[i], left[i + 1]);
    assert j + 1 < |right| ==> ByT()(right[j], right[j + 1]);
  }

  lemma BothValue(points: seq<Point>, left: seq<Point>, i: nat, right: seq<Point>, j: nat, preference: Preference, t: real)
    requires i < |left| && j < |right| && Balanced(left, i, right, j, t) && left[i].t == right[j].t
    requires Lookup(points, t) == ValueAt(left[..i], right[..j], preference, t)
    ensures var p := if preference.PreferExisting? then left[i] else right[j];
            Lookup(PushDeduped(points, p), t) == ValueAt(left[..i + 1], right[..j + 1], preference, t)
  {
    PushLookup(points, if preference.PreferExisting? then left[i] else right[j], t);
    GivenNext(left, i, t);
    GivenNext(right, j, t);
  }

  lemma TakeLeft(points: seq<Point>, left: seq<Point>, i: nat, right: seq<Point>, j: nat, preference: Preference)
    requires Sorted(left, ByT()) && i < |left| && j <= |right|
    requires MergedSoFar(points, left, i, right, j, preference)
    requires j == |right| || left[i].t < right[j].t
    ensures MergedSoFar(PushDeduped(points, left[i]), left, i + 1, right, j, preference)
  {
    PushIncreasing(points, left[i]);
    HeadsAhead(left, i, PushDeduped(points, left[i]));
    var i' := i + 1;
    forall t
      ensures Balanced(left, i', right, j, t)
    {
      LeftBalanced(left, i, right, j, t);
    }
    var after, l, r := PushDeduped(points, left[i]), left[..i + 1], right[..j];
    forall t
      ensures Agrees(after, l, r, preference, t)
    {
      assert Agrees(points, left[..i], right[..j], preference, t);
      LeftValue(points, left, i, right, j, preference, t);
    }
  }

  lemma TakeRight(points: seq<Point>, left: seq<Point>, i: nat, right: seq<Point>, j: nat, preference: Preference)
    requires Sorted(right, ByT()) && i <= |left| && j < |right|
    requires MergedSoFar(points, left, i, right, j, preference)
    requires i == |left| || right[j].t < left[i].t
    ensures MergedSoFar(PushDeduped(points, right[j]), left, i, right, j + 1, preference)
  {
    PushIncreasing(points, right[j]);
    HeadsAhead(right, j, PushDeduped(points, right[j]));
    var j' := j + 1;
    forall t
      ensures Balanced(left, i, right, j', t)
    {
      RightBalanced(left, i, right, j, t);
    }
    var after, l, r := PushDeduped(points, right[j]), left[..i], right[..j + 1];
    forall t
      ensures Agrees(after, l, r, preference, t)
    {
      assert Agrees(points, left[..i], right[..j], preference, t);
      RightValue(points, left, i, right, j, preference, t);
    }
  }

  lemma TakeBoth(points: seq<Point>, left: seq<Point>, i: nat, right: seq<Point>, j: nat, preference: Preference, p: Point)
    requires Sorted(left, ByT()) && Sorted(right, ByT()) && i < |left| && j < |right|
    requires MergedSoFar(points, left, i, right, j, preference)
    requires left[i].t == right[j].t && p == if preference.PreferExisting? then left[i] else right[j]
    ensures MergedSoFar(PushDeduped(points, p), left, i + 1, right, j + 1, preference)
  {
    PushIncreasing(points, p);
    HeadsAhead(left, i, PushDeduped(points, p));
    HeadsAhead(right, j, PushDeduped(points, p));
    var i', j' := i + 1, j + 1;
    forall t
      ensures Balanced(left, i', right, j', t)
    {
      BothBalanced(left, i, right, j, t);
    }
    var after, l, r := PushDeduped(points, p), left[..i + 1], right[..j + 1];
    forall t
      ensures Agrees(after, l, r, preference, t)
    {
      assert Agrees(points, left[..i], right[..j], preference, t);
      BothValue(points, left, i, right, j, preference, t);
    }
  }

  lemma Finished(points: seq<Point>, left: seq<Point>, right: seq<Point>, preference: Preference)
    requires MergedSoFar(points, left, |left|, right, |right|, preference)
    ensures IsMerge(points, left, right, preference)
  {
    assert left[..|left|] == left && right[..|right|] == right;
  }

  lemma NothingMerged(left: seq<Point>, right: seq<Point>, preference: Preference)
    ensures MergedSoFar([], left, 0, right, 0, preference)
  {
  }

  /** `mergePoints`: filter, sort, then the loop. */
  method Merge(existing: seq<RawPoint>, incoming: seq<RawPoint>, preference: Preference) returns (points: seq<Point>)
    ensures IsMerge(points, Prepared(existing), Prepared(incoming), preference)
  {
    PreparedSorted(existing);
    PreparedSorted(incoming);
    points := MergeSorted(Prepared(existing), Prepared(incoming), preference);
  }

  method MergeSorted(left: seq<Point>, right: seq<Point>, preference: Preference) returns (points: seq<Point>)
    requires Sorted(left, ByT()) && Sorted(right, ByT())
    ensures IsMerge(points, left, right, preference)
  {
    points := [];
    var i, j := 0, 0;
    NothingMerged(left, right, preference);
    while i < |left| || j < |right|
      invariant 0 <= i <= |left| && 0 <= j <= |right|
      invariant MergedSoFar(points, left, i, right, j, preference)
      decreases |left| - i + |right| - j
    {
      if j == |right| || (i < |left| && left[i].t < right[j].t) {
        TakeLeft(points, left, i, right, j, preference);
        points := PushDeduped(points, left[i]);
        i := i + 1;
      } else if i == |left| || right[j].t < left[i].t {
        TakeRight(points, left, i, right, j, preference);
        points := PushDeduped(points, right[j]);
        j := j + 1;
      } else {
        var p := if preference.PreferExisting? then left[i] else right[j];
        TakeBoth(points, left, i, right, j, preference, p);
        points := PushDeduped(points, p);
        i := i + 1;
        j := j + 1;
      }
    }
    Finished(points, left, right, preference);
  }

  // ----- what merging means -------------------------------------------------------------------

  lemma GivenIffPresent(s: seq<Point>, t: real)
    ensures Given(s, t) == [] <==> forall p :: p in s ==> p.t != t
  {
    FilterMembers(s, At(t));
    if Given(s, t) != [] {
      assert Given(s, t)[0] in Given(s, t);
    }
  }

  /** The timestamps of a merge are the union of both sides'. */
  lemma MergeIsUnion(points: seq<Point>, left: seq<Point>, right: seq<Point>, preference: Preference, t: real)
    requires IsMerge(points, left, right, preference)
    ensures (exists p :: p in points && p.t == t) <==> (exists p :: p in left && p.t == t) || (exists p :: p in right && p.t == t)
  {
    GivenIffPresent(points, t);
    GivenIffPresent(left, t);
    GivenIffPresent(right, t);
    assert Agrees(points, left, right, preference, t);
  }

  lemma {:induction false} GivenOfIncreasing(points: seq<Point>, k: nat)
    requires Increasing(points) && k < |points|
    ensures Given(points, points[k].t) == [points[k]]
  {
    var init := points[..|points| - 1];
    if k < |points| - 1 {
      GivenOfIncreasing(init, k);
    } else {
      FilterNone(init, At(points[k].t));
    }
  }

  /** An increasing list is determined by its lookups. */
  lemma {:induction false} LookupsDetermine(a: seq<Point>, b: seq<Point>)
    requires Increasing(a) && Increasing(b) && forall t :: Lookup(a, t) == Lookup(b, t)
    ensures a == b
  {
    if a == [] {
      NoLookups(b);
    } else if b == [] {
      NoLookups(a);
    } else {
      LastsAgree(a, b);
      var x := a[|a| - 1];
      var a', b' := a[..|a| - 1], b[..|b| - 1];
      assert a == a' + [x] && b == b' + [x];
      LookupsOfInits(a', b', x);
      LookupsDetermine(a', b');
    }
  }

  lemma SomeLookup(s: seq<Point>) returns (t: real)
    requires Increasing(s) && s != []
    ensures Lookup(s, t).Some?
  {
    t := s[0].t;
    GivenOfIncreasing(s, 0);
  }

  lemma NoLookups(s: seq<Point>)
    requires Increasing(s) && forall t :: Lookup(s, t) == Lookup([], t)
    ensures s == []
  {
    if s != [] {
      var _ := SomeLookup(s);
    }
  }

  lemma LastsAgree(a: seq<Point>, b: seq<Point>)
    requires Increasing(a) && Increasing(b) && a != [] && b != [] && forall t :: Lookup(a, t) == Lookup(b, t)
    ensures a[|a| - 1] == b[|b| - 1]
  {
    var x, y := a[|a| - 1], b[|b| - 1];
    GivenOfIncreasing(a, |a| - 1);
    GivenOfIncreasing(b, |b| - 1);
    assert Lookup(a, x.t) == Lookup(b, x.t) && Lookup(a, y.t) == Lookup(b, y.t);
    FoundIn(b, x.t);
    FoundIn(a, y.t);
  }

  lemma LookupsOfInits(a: seq<Point>, b: seq<Point>, last: Point)
    requires Increasing(a + [last]) && Increasing(b + [last])
    requires forall t :: Lookup(a + [last], t) == Lookup(b + [last], t)
    ensures forall t :: Lookup(a, t) == Lookup(b, t)
  {
    forall t
      ensures Lookup(a, t) == Lookup(b, t)
    {
      if t == last.t {
        NoneGivenYet(a, last);
        NoneGivenYet(b, last);
      } else {
        assert (a + [last])[..|a|] == a && (b + [last])[..|b|] == b;
        assert Lookup(a + [last], t) == Lookup(b + [last], t);
      }
    }
  }

  lemma NoneGivenYet(a: seq<Point>, last: Point)
    requires Increasing(a + [last])
    ensures Given(a, last.t) == []
  {
    forall i | 0 <= i < |a|
      ensures a[i].t != last.t
    {
      assert (a + [last])[i].t < (a + [last])[|a|].t;
    }
    FilterNone(a, At(last.t));
  }

  lemma FoundIn(s: seq<Point>, t: real)
    requires Increasing(s) && Lookup(s, t).Some?
    ensures s != [] && t <= s[|s| - 1].t
  {
    FilterMembers(s, At(t));
    assert Given(s, t)[0] in Given(s, t);
    var i :| 0 <= i < |s| && s[i].t == t;
    assert i < |s| - 1 ==> s[i].t < s[|s| - 1].t;
  }

  /** So the merge of two inputs is unique: the loop has no freedom. */
  lemma MergeUnique(a: seq<Point>, b: seq<Point>, left: seq<Point>, right: seq<Point>, preference: Preference)
    requires IsMerge(a, left, right, preference) && IsMerge(b, left, right, preference)
    ensures a == b
  {
    forall t
      ensures Lookup(a, t) == Lookup(b, t)
    {
      assert Agrees(a, left, right, preference, t) && Agrees(b, left, right, preference, t);
    }
    LookupsDetermine(a, b);
  }

  ghost predicate NoRepeats(s: seq<Point>) {
    forall t :: |Given(s, t)| <= 1
  }

  /** Without repeated timestamps a shared one takes the preferred side's value, any other its only one. */
  lemma SharedTakesPreferred(points: seq<Point>, left: seq<Point>, right: seq<Point>, preference: Preference, t: real)
    requires IsMerge(points, left, right, preference) && NoRepeats(left) && NoRepeats(right)
    ensures var l, r := Lookup(left, t), Lookup(right, t);
            Lookup(points, t) ==
              if l.None? then r else if r.None? then l else if preference.PreferExisting? then l else r
  {
    assert |Given(left, t)| <= 1 && |Given(right, t)| <= 1;
    assert Agrees(points, left, right, preference, t);
  }

  /** The finite points that arrived with timestamp `t`, in their order. */
  function Arrived(raw: seq<RawPoint>, t: real): seq<Point> {
    if raw == [] then []
    else
      var last := raw[|raw| - 1];
      Arrived(raw[..|raw| - 1], t) + (if last.t == Store.Num(t) && last.value.Num? then [Point(t, last.value.r)] else [])
  }

  lemma {:induction false} FiniteAt(raw: seq<RawPoint>, t: real)
    ensures Given(Finite(raw), t) == Arrived(raw, t)
  {
    if raw != [] {
      var init, last := raw[..|raw| - 1], raw[|raw| - 1];
      FiniteAt(init, t);
      if last.t.Num? && last.value.Num? {
        FilterConcat(Finite(init), [Point(last.t.r, last.value.r)], At(t));
        assert Given(Finite(raw), t) == Given(Finite(init), t) + Filter([Point(last.t.r, last.value.r)], At(t));
      }
    }
  }

  lemma PreparedAt(raw: seq<RawPoint>, t: real)
    ensures Given(Prepared(raw), t) == Arrived(raw, t)
  {
    var here := Filter(Finite(raw), At(t));
    FilterMembers(Finite(raw), At(t));
    forall i, j | 0 <= i < j < |here|
      ensures ByT()(here[i], here[j])
    {
      assert here[i] in here && here[j] in here;
    }
    StableSortKeepsOrder(Finite(raw), ByT(), At(t));
    FiniteAt(raw, t);
  }

  /**
   In terms of the points as they arrived, finite or not and in whatever order: at every timestamp the merge has the
   value the finite points there resolve to, and a point there exactly when one of them is.
   */
  lemma MergedAsArrived(points: seq<Point>, existing: seq<RawPoint>, incoming: seq<RawPoint>, preference: Preference, t: real)
    requires IsMerge(points, Prepared(existing), Prepared(incoming), preference)
    ensures Lookup(points, t) == Resolved(Arrived(existing, t), Arrived(incoming, t), preference)
    ensures (exists p :: p in points && p.t == t) <==> Arrived(existing, t) != [] || Arrived(incoming, t) != []
  {
    PreparedAt(existing, t);
    PreparedAt(incoming, t);
    assert Agrees(points, Prepared(existing), Prepared(incoming), preference, t);
    GivenIffPresent(points, t);
  }

  // ----- merging the same list again --------------------------------------------------------------

  /** Merging again leaves `t` alone: no repetition takes the value from the side it was resolved to. */
  predicate StableAt(existing: seq<Point>, incoming: seq<Point>, preference: Preference) {
    || incoming == []
    || (|incoming| == 1 && preference.PreferExisting?)
    || |incoming| > |existing|
    || (|incoming| == |existing| && preference.PreferIncoming?)
    || LastValue(existing) == LastValue(incoming)
  }

  lemma AgainAt(merged: seq<Point>, left: seq<Point>, right: seq<Point>, preference: Preference, t: real)
    requires IsMerge(merged, left, right, preference)
    ensures ValueAt(merged, right, preference, t) == Lookup(merged, t) <==> StableAt(Given(left, t), Given(right, t), preference)
  {
    assert Agrees(merged, left, right, preference, t);
    if Given(merged, t) != [] {
      FilterMembers(merged, At(t));
      assert Given(merged, t)[0] in Given(merged, t);
      var k :| 0 <= k < |merged| && merged[k].t == t;
      GivenOfIncreasing(merged, k);
    }
  }

  /** Merging the same incoming list again changes nothing, exactly when no repeated timestamp upsets the balance. */
  lemma MergeAgainIff(merged: seq<Point>, again: seq<Point>, left: seq<Point>, right: seq<Point>, preference: Preference)
    requires IsMerge(merged, left, right, preference) && IsMerge(again, merged, right, preference)
    ensures again == merged <==> forall t :: StableAt(Given(left, t), Given(right, t), preference)
  {
    if forall t :: StableAt(Given(left, t), Given(right, t), preference) {
      forall t
        ensures Lookup(again, t) == Lookup(merged, t)
      {
        AgainAt(merged, left, right, preference, t);
        assert Agrees(again, merged, right, preference, t);
      }
      LookupsDetermine(again, merged);
    } else {
      var t :| !StableAt(Given(left, t), Given(right, t), preference);
      AgainAt(merged, left, right, preference, t);
      assert Agrees(again, merged, right, preference, t);
    }
  }

  /** In particular when neither list repeats a timestamp. */
  lemma MergeIdempotent(merged: seq<Point>, again: seq<Point>, left: seq<Point>, right: seq<Point>, preference: Preference)
    requires IsMerge(merged, left, right, preference) && IsMerge(again, merged, right, preference)
    requires NoRepeats(left) && NoRepeats(right)
    ensures again == merged
  {
    forall t
      ensures StableAt(Given(left, t), Given(right, t), preference)
    {
      assert |Given(left, t)| <= 1 && |Given(right, t)| <= 1;
    }
    MergeAgainIff(merged, again, left, right, preference);
  }

  /** For example, a timestamp the existing list repeats flips to the incoming value the second time. */
  lemma RepeatedFlips(merged: seq<Point>, again: seq<Point>)
    requires IsMerge(merged, [Point(0.0, 1.0), Point(0.0, 2.0)], [Point(0.0, 3.0)], PreferIncoming)
    requires IsMerge(again, merged, [Point(0.0, 3.0)], PreferIncoming)
    ensures Lookup(merged, 0.0) == Some(2.0) && again != merged
  {
    var left, right := [Point(0.0, 1.0), Point(0.0, 2.0)], [Point(0.0, 3.0)];
    FilterAll(left, At(0.0));
    FilterAll(right, At(0.0));
    assert !StableAt(Given(left, 0.0), Given(right, 0.0), PreferIncoming);
    assert Agrees(merged, left, right, PreferIncoming, 0.0);
    MergeAgainIff(merged, again, left, right, PreferIncoming);
  }

  // ----- statistics -----------------------------------------------------------------------------

  datatype Stats = Stats(min: real, max: real, last: real, start: real, end: real)

  ghost predicate Describes(stats: Stats, points: seq<Point>)
    requires points != []
  {
    && (forall p :: p in points ==> stats.min <= p.value <= stats.max)
    && (exists p :: p in points && p.value == stats.min)
    && (exists p :: p in points && p.value == stats.max)
    && stats.last == points[|points| - 1].value
    && stats.start == points[0].t && stats.end == points[|points| - 1].t
  }

  /** `computeStats`, and the management service's `stats`: both fold from the infinities. */
  method ComputeStats(points: seq<Point>) returns (stats: Option<Stats>)
    ensures stats.None? <==> points == []
    ensures stats.Some? ==> Describes(stats.value, points)
  {
    if points == [] {
      return None;
    }
    var min, max: Float := Store.PosInf, Store.NegInf;
    for i := 0 to |points|
      invariant i == 0 ==> min == Store.PosInf && max == Store.NegInf
      invariant i > 0 ==> min.Num? && max.Num?
      invariant i > 0 ==> forall k :: 0 <= k < i ==> min.r <= points[k].value <= max.r
      invariant i > 0 ==> exists k :: 0 <= k < i && points[k].value == min.r
      invariant i > 0 ==> exists k :: 0 <= k < i && points[k].value == max.r
    {
      var value := points[i].value;
      if min.PosInf? || (min.Num? && value < min.r) {
        min := Store.Num(value);
      }
      if max.NegInf? || (max.Num? && max.r < value) {
        max := Store.Num(value);
      }
    }
    var first, last := points[0], points[|points| - 1];
    stats := Some(Stats(min.r, max.r, last.value, first.t, last.t));
  }
}
