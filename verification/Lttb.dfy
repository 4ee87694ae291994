/**
 Largest-triangle-three-buckets downsampling, with an exact bucket width.
 The management service and the web client hold the same algorithm.
 */
module Lttb {
  import opened Common

  datatype Point = Point(x: real, y: real)

  // ----- bucket bounds ----------------------------------------------------------------

  /** The bucket width `every`. */
  function Width(n: nat, threshold: nat): real
    requires threshold >= 3
  {
    ((n - 2) as real) / ((threshold - 2) as real)
  }

  /** `(k as f64 * every).floor() as usize + 1`, for the counts a call can have. */
  function Cut(n: nat, threshold: nat, k: nat): int
    requires threshold >= 3
  {
    (k as real * Width(n, threshold)).Floor + 1
  }

  lemma WidthOverOne(n: nat, threshold: nat)
    requires n > threshold >= 3
    ensures Width(n, threshold) > 1.0
    ensures (threshold - 2) as real * Width(n, threshold) == (n - 2) as real
  {
    var m, w := (threshold - 2) as real, Width(n, threshold);
    assert m * w == (n - 2) as real;
    if w <= 1.0 {
      ProductAtMost(m, w);
    }
  }

  lemma ProductAtMost(m: real, w: real)
    requires m >= 0.0 && w <= 1.0
    ensures m * w <= m
  {
    assert m * (1.0 - w) >= 0.0;
  }

  lemma NextMultiple(k: nat, w: real)
    ensures (k + 1) as real * w == k as real * w + w
  {
  }

  /** Consecutive cuts are strictly increasing, from 1 to n - 1. */
  lemma CutsIncrease(n: nat, threshold: nat, k: nat)
    requires n > threshold >= 3
    ensures Cut(n, threshold, k) < Cut(n, threshold, k + 1)
    ensures Cut(n, threshold, 0) == 1 && Cut(n, threshold, threshold - 2) == n - 1
  {
    WidthOverOne(n, threshold);
    NextMultiple(k, Width(n, threshold));
  }

  lemma {:induction false} CutsOrdered(n: nat, threshold: nat, j: nat, k: nat)
    requires n > threshold >= 3 && j <= k
    ensures Cut(n, threshold, j) + (k - j) <= Cut(n, threshold, k)
    decreases k - j
  {
    if j < k {
      CutsOrdered(n, threshold, j, k - 1);
      CutsIncrease(n, threshold, k - 1);
    }
  }

  /** The cuts of a call, as one function. */
  function CutsOf(n: nat, threshold: nat): nat -> int
    requires threshold >= 3
  {
    (k: nat) => Cut(n, threshold, k)
  }

  /** What the choice of points needs to know about the cuts. */
  ghost predicate Proper(cut: nat -> int, n: nat, threshold: nat) {
    && n > threshold >= 3
    && cut(0) == 1 && cut(threshold - 2) == n - 1
    && forall j: nat, k: nat :: j < k ==> cut(j) < cut(k)
  }

  lemma CutsProper(n: nat, threshold: nat)
    requires n > threshold >= 3
    ensures Proper(CutsOf(n, threshold), n, threshold)
  {
    CutsIncrease(n, threshold, 0);
    var cut := CutsOf(n, threshold);
    forall j: nat, k: nat | j < k
      ensures cut(j) < cut(k)
    {
      CutsOrdered(n, threshold, j, k);
    }
  }

  // ----- one bucket ----------------------------------------------------------------------

  /** First index of the bucket's candidates, and the index after the last. */
  function RangeStart(cut: nat -> int, bucket: nat): int {
    cut(bucket)
  }

  function RangeEnd(cut: nat -> int, n: nat, bucket: nat): int {
    Min(cut(bucket + 1), n - 1)
  }

  /** The slice averaged for a bucket: the next bucket, or the last point. */
  function AverageStart(cut: nat -> int, n: nat, bucket: nat): int {
    Min(cut(bucket + 1), n)
  }

  function AverageEnd(cut: nat -> int, n: nat, bucket: nat): int {
    Min(cut(bucket + 2), n)
  }

  /**
   Every index a call reads is in range: the candidates of a bucket are a non-empty range inside
   1..n-2, the averaged slice a non-empty range right behind it, so neither the clamps on an index
   nor the fallback for an empty slice is ever taken.
   */
  lemma BucketInRange(cut: nat -> int, n: nat, threshold: nat, bucket: nat)
    requires Proper(cut, n, threshold) && bucket < threshold - 2
    ensures 1 <= RangeStart(cut, bucket) < RangeEnd(cut, n, bucket) <= n - 1
    ensures RangeEnd(cut, n, bucket) == cut(bucket + 1) == AverageStart(cut, n, bucket)
    ensures AverageStart(cut, n, bucket) < AverageEnd(cut, n, bucket) <= n
    ensures bucket + 1 < threshold - 2 ==> AverageEnd(cut, n, bucket) == RangeEnd(cut, n, bucket + 1)
    ensures bucket + 1 == threshold - 2 ==> AverageStart(cut, n, bucket) == n - 1 && AverageEnd(cut, n, bucket) == n
  {
    assert bucket > 0 ==> cut(0) < cut(bucket);
    assert bucket + 1 < threshold - 2 ==> cut(bucket + 1) < cut(threshold - 2);
    assert bucket + 2 < threshold - 2 ==> cut(bucket + 2) < cut(threshold - 2);
    assert cut(bucket) < cut(bucket + 1) < cut(bucket + 2);
  }

  predicate InBucket(cut: nat -> int, n: nat, bucket: nat, index: nat) {
    RangeStart(cut, bucket) <= index < RangeEnd(cut, n, bucket)
  }

  /** The candidate ranges partition 1..n-2: every inner index lies in exactly one bucket. */
  lemma BucketsPartition(n: nat, threshold: nat, index: nat) returns (bucket: nat)
    requires n > threshold >= 3 && 1 <= index <= n - 2
    ensures bucket < threshold - 2 && InBucket(CutsOf(n, threshold), n, bucket, index)
    ensures forall other: nat :: other < threshold - 2 && InBucket(CutsOf(n, threshold), n, other, index) ==> other == bucket
  {
    CutsProper(n, threshold);
    bucket := BucketOf(CutsOf(n, threshold), n, threshold, index);
  }

  lemma BucketOf(cut: nat -> int, n: nat, threshold: nat, index: nat) returns (bucket: nat)
    requires Proper(cut, n, threshold) && 1 <= index <= n - 2
    ensures bucket < threshold - 2 && InBucket(cut, n, bucket, index)
    ensures forall other: nat :: other < threshold - 2 && InBucket(cut, n, other, index) ==> other == bucket
  {
    bucket := 0;
    while cut(bucket + 1) <= index
      invariant bucket < threshold - 2 && cut(bucket) <= index
      decreases threshold - bucket
    {
      bucket := bucket + 1;
    }
    BucketInRange(cut, n, threshold, bucket);
    forall other: nat | other < threshold - 2 && other != bucket
      ensures !InBucket(cut, n, other, index)
    {
      BucketInRange(cut, n, threshold, other);
      assert other < bucket ==> other + 1 == bucket || cut(other + 1) < cut(bucket);
      assert bucket < other ==> bucket + 1 == other || cut(bucket + 1) < cut(other);
    }
  }

  // ----- the choice -----------------------------------------------------------------------

  function Abs(r: real): real { if r < 0.0 then -r else r }

  /** Twice the area of the triangle over the anchor, the candidate and the average. */
  function Area(anchor: Point, average: Point, p: Point): real {
    Abs((anchor.x - average.x) * (p.y - anchor.y) - (anchor.x - p.x) * (average.y - anchor.y))
  }

  function Sum(points: seq<Point>): Point {
    if points == [] then Point(0.0, 0.0)
    else
      var init := Sum(points[..|points| - 1]);
      Point(init.x + points[|points| - 1].x, init.y + points[|points| - 1].y)
  }

  function Mean(points: seq<Point>): Point
    requires points != []
  {
    Point(Sum(points).x / (|points| as real), Sum(points).y / (|points| as real))
  }

  /** `k` is the first index of lo..hi whose point spans the largest area. */
  ghost predicate IsFirstLargest(points: seq<Point>, anchor: Point, average: Point, lo: int, hi: int, k: nat)
    requires 0 <= lo < hi <= |points|
  {
    && lo <= k < hi
    && (forall i :: lo <= i < hi ==> Area(anchor, average, points[i]) <= Area(anchor, average, points[k]))
    && (forall i :: lo <= i < k ==> Area(anchor, average, points[i]) < Area(anchor, average, points[k]))
  }

  function FirstLargest(points: seq<Point>, anchor: Point, average: Point, lo: nat, hi: nat): (k: nat)
    requires lo < hi <= |points|
    ensures lo <= k < hi
    decreases hi - lo
  {
    if hi == lo + 1 then lo
    else
      var best := FirstLargest(points, anchor, average, lo, hi - 1);
      if Area(anchor, average, points[hi - 1]) > Area(anchor, average, points[best]) then hi - 1 else best
  }

  lemma {:induction false} FirstLargestSpec(points: seq<Point>, anchor: Point, average: Point, lo: nat, hi: nat)
    requires lo < hi <= |points|
    ensures IsFirstLargest(points, anchor, average, lo, hi, FirstLargest(points, anchor, average, lo, hi))
    decreases hi - lo
  {
    if hi > lo + 1 {
      FirstLargestSpec(points, anchor, average, lo, hi - 1);
    }
  }

  function BucketMean(points: seq<Point>, threshold: nat, cut: nat -> int, bucket: nat): Point
    requires Proper(cut, |points|, threshold) && bucket < threshold - 2
  {
    BucketInRange(cut, |points|, threshold, bucket);
    Mean(points[AverageStart(cut, |points|, bucket)..AverageEnd(cut, |points|, bucket)])
  }

  /** The source index of output point `k`, for all but the last. */
  function Chosen(points: seq<Point>, threshold: nat, cut: nat -> int, k: nat): (index: nat)
    requires Proper(cut, |points|, threshold) && k < threshold - 1
    ensures k == 0 ==> index == 0
    ensures k > 0 ==> InBucket(cut, |points|, k - 1, index)
    ensures index < |points| - 1
  {
    if k == 0 then 0
    else
      BucketInRange(cut, |points|, threshold, k - 1);
      FirstLargest(points, points[Chosen(points, threshold, cut, k - 1)], BucketMean(points, threshold, cut, k - 1),
                   RangeStart(cut, k - 1), RangeEnd(cut, |points|, k - 1))
  }

  /** The source index of every output point. */
  function SourceIndex(points: seq<Point>, threshold: nat, cut: nat -> int, k: nat): (index: nat)
    requires Proper(cut, |points|, threshold) && k < threshold
    ensures index < |points|
  {
    if k == threshold - 1 then |points| - 1 else Chosen(points, threshold, cut, k)
  }

  function Picked(points: seq<Point>, threshold: nat, cut: nat -> int): (r: seq<Point>)
    requires Proper(cut, |points|, threshold)
    ensures |r| == threshold
  {
    seq(threshold, k requires 0 <= k < threshold => points[SourceIndex(points, threshold, cut, k)])
  }

  /** Every output point is the source point of its index. */
  lemma PickedAt(points: seq<Point>, threshold: nat, cut: nat -> int, k: nat)
    requires Proper(cut, |points|, threshold) && k < threshold
    ensures Picked(points, threshold, cut)[k] == points[SourceIndex(points, threshold, cut, k)]
  {
  }

  /** What downsampling returns. */
  function Sampled(points: seq<Point>, threshold: nat): seq<Point> {
    if |points| <= threshold || threshold < 3 then points
    else
      CutsProper(|points|, threshold);
      Picked(points, threshold, CutsOf(|points|, threshold))
  }

  // ----- the loops --------------------------------------------------------------------------

  method AverageOf(points: seq<Point>, start: nat, end: nat) returns (average: Point)
    requires points != [] && start <= end <= |points|
    ensures average == if start < end then Mean(points[start..end]) else points[Min(Max(start - 1, 0), |points| - 1)]
  {
    if start == end {
      return points[Min(Max(start - 1, 0), |points| - 1)];
    }
    var sum := Point(0.0, 0.0);
    ghost var slice := points[start..end];
    for i := start to end
      invariant sum == Sum(slice[..i - start])
    {
      assert slice[..i + 1 - start][..i - start] == slice[..i - start];
      sum := Point(sum.x + points[i].x, sum.y + points[i].y);
    }
    assert slice[..end - start] == slice;
    average := Point(sum.x / ((end - start) as real), sum.y / ((end - start) as real));
  }

  /** The candidate loop: strictly larger areas replace the choice, starting below any area. */
  method Pick(points: seq<Point>, anchor: Point, average: Point, rangeStart: nat, rangeEnd: nat) returns (next: nat)
    requires 1 <= rangeStart < rangeEnd <= |points| - 1
    ensures next == FirstLargest(points, anchor, average, rangeStart, rangeEnd)
  {
    var maxArea := -1.0;
    next := rangeStart;
    for index := rangeStart to Max(rangeEnd, rangeStart + 1)
      invariant index == rangeStart ==> maxArea == -1.0 && next == rangeStart
      invariant index > rangeStart ==>
                  next == FirstLargest(points, anchor, average, rangeStart, index) && maxArea == Area(anchor, average, points[next])
    {
      var candidate := Min(index, |points| - 2);
      var area := Area(anchor, average, points[candidate]);
      if area > maxArea {
        maxArea := area;
        next := candidate;
      }
    }
  }

  /** `cut` holds the cuts of a call; stated per index so that a loop can speak of cuts without computing them. */
  predicate CutAt(cut: nat -> int, n: nat, threshold: nat, k: nat)
    requires threshold >= 3
  {
    cut(k) == Cut(n, threshold, k)
  }

  ghost predicate CutsAre(cut: nat -> int, n: nat, threshold: nat)
    requires threshold >= 3
  {
    forall k: nat :: CutAt(cut, n, threshold, k)
  }

  method Bounds(n: nat, threshold: nat, every: real, ghost cut: nat -> int, bucket: nat)
    returns (averageStart: int, averageEnd: int, rangeStart: int, rangeEnd: int)
    requires threshold >= 3 && every == Width(n, threshold) && CutsAre(cut, n, threshold)
    ensures averageStart == AverageStart(cut, n, bucket) && averageEnd == AverageEnd(cut, n, bucket)
    ensures rangeStart == RangeStart(cut, bucket) && rangeEnd == RangeEnd(cut, n, bucket)
  {
    assert CutAt(cut, n, threshold, bucket) && CutAt(cut, n, threshold, bucket + 1) && CutAt(cut, n, threshold, bucket + 2);
    averageStart := Min(((bucket + 1) as real * every).Floor + 1, n);
    averageEnd := Min(((bucket + 2) as real * every).Floor + 1, n);
    rangeStart := (bucket as real * every).Floor + 1;
    rangeEnd := Min(((bucket + 1) as real * every).Floor + 1, n - 1);
  }

  method NextIndex(points: seq<Point>, threshold: nat, ghost cut: nat -> int, bucket: nat, selected: nat,
                   averageStart: int, averageEnd: int, rangeStart: int, rangeEnd: int)
    returns (next: nat)
    requires Proper(cut, |points|, threshold) && bucket < threshold - 2 && selected == Chosen(points, threshold, cut, bucket)
    requires averageStart == AverageStart(cut, |points|, bucket) && averageEnd == AverageEnd(cut, |points|, bucket)
    requires rangeStart == RangeStart(cut, bucket) && rangeEnd == RangeEnd(cut, |points|, bucket)
    ensures next == Chosen(points, threshold, cut, bucket + 1)
  {
    BucketInRange(cut, |points|, threshold, bucket);
    var average := AverageOf(points, averageStart, averageEnd);
    next := Pick(points, points[selected], average, rangeStart, rangeEnd);
  }

  /** `picks` holds the indices of a call, stated per index as well. */
  ghost predicate PickAt(points: seq<Point>, threshold: nat, cut: nat -> int, picks: seq<nat>, k: nat)
    requires Proper(cut, |points|, threshold) && k < threshold - 1 == |picks|
  {
    picks[k] == Chosen(points, threshold, cut, k)
  }

  ghost predicate PicksAre(points: seq<Point>, threshold: nat, cut: nat -> int, picks: seq<nat>)
    requires Proper(cut, |points|, threshold)
  {
    && |picks| == threshold - 1
    && (forall k: nat :: k < threshold - 1 ==> PickAt(points, threshold, cut, picks, k))
    && forall k :: 0 <= k < |picks| ==> picks[k] < |points|
  }

  /** One round of the bucket loop. */
  method NextChosen(points: seq<Point>, threshold: nat, every: real, ghost cut: nat -> int, ghost picks: seq<nat>,
                    bucket: nat, selected: nat)
    returns (next: nat)
    requires Proper(cut, |points|, threshold) && CutsAre(cut, |points|, threshold) && bucket < threshold - 2
    requires PicksAre(points, threshold, cut, picks)
    requires every == Width(|points|, threshold) && selected == picks[bucket]
    ensures next == picks[bucket + 1]
  {
    assert PickAt(points, threshold, cut, picks, bucket) && PickAt(points, threshold, cut, picks, bucket + 1);
    var averageStart, averageEnd, rangeStart, rangeEnd := Bounds(|points|, threshold, every, cut, bucket);
    next := NextIndex(points, threshold, cut, bucket, selected, averageStart, averageEnd, rangeStart, rangeEnd);
  }

  method PickBuckets(points: seq<Point>, threshold: nat, every: real, ghost cut: nat -> int, ghost picks: seq<nat>)
    returns (sampled: seq<Point>)
    requires Proper(cut, |points|, threshold) && CutsAre(cut, |points|, threshold) && every == Width(|points|, threshold)
    requires PicksAre(points, threshold, cut, picks) && picks[0] == 0
    ensures |sampled| == threshold - 1 && forall k :: 0 <= k < threshold - 1 ==> sampled[k] == points[picks[k]]
  {
    sampled := [points[0]];
    var selected: nat := 0;
    for bucket := 0 to threshold - 2
      invariant selected == picks[bucket]
      invariant |sampled| == bucket + 1 && forall k :: 0 <= k <= bucket ==> sampled[k] == points[picks[k]]
    {
      selected := NextChosen(points, threshold, every, cut, picks, bucket, selected);
      sampled := sampled + [points[selected]];
    }
  }

  function Picks(points: seq<Point>, threshold: nat, cut: nat -> int): (picks: seq<nat>)
    requires Proper(cut, |points|, threshold)
    ensures PicksAre(points, threshold, cut, picks) && picks[0] == 0
  {
    seq(threshold - 1, k requires 0 <= k < threshold - 1 => Chosen(points, threshold, cut, k))
  }

  lemma AllPicked(points: seq<Point>, threshold: nat, cut: nat -> int, picks: seq<nat>, sampled: seq<Point>)
    requires Proper(cut, |points|, threshold) && PicksAre(points, threshold, cut, picks) && |sampled| == threshold
    requires forall k :: 0 <= k < threshold - 1 ==> sampled[k] == points[picks[k]]
    requires sampled[threshold - 1] == points[|points| - 1]
    ensures sampled == Picked(points, threshold, cut)
  {
    forall k | 0 <= k < threshold
      ensures sampled[k] == Picked(points, threshold, cut)[k]
    {
      assert k < threshold - 1 ==> PickAt(points, threshold, cut, picks, k);
    }
  }

  method Downsample(points: seq<Point>, threshold: nat) returns (sampled: seq<Point>)
    ensures sampled == Sampled(points, threshold)
  {
    if |points| <= threshold || threshold < 3 {
      return points;
    }
    CutsProper(|points|, threshold);
    ghost var cut := CutsOf(|points|, threshold);
    ghost var picks := Picks(points, threshold, cut);
    assert CutsAre(cut, |points|, threshold);
    sampled := PickBuckets(points, threshold, ((|points| - 2) as real) / ((threshold - 2) as real), cut, picks);
    sampled := sampled + [points[|points| - 1]];
    AllPicked(points, threshold, cut, picks, sampled);
  }

  // ----- what the result is ---------------------------------------------------------------------

  /** Source indices strictly increase, so time order survives and no point is repeated. */
  lemma IndicesIncrease(points: seq<Point>, threshold: nat, cut: nat -> int, j: nat, k: nat)
    requires Proper(cut, |points|, threshold) && j < k < threshold
    ensures SourceIndex(points, threshold, cut, j) < SourceIndex(points, threshold, cut, k)
  {
    if k < threshold - 1 {
      BucketInRange(cut, |points|, threshold, k - 1);
      if j > 0 {
        BucketInRange(cut, |points|, threshold, j - 1);
        assert j == k - 1 || cut(j) < cut(k - 1);
      }
    }
  }

  /** Exactly `threshold` points of the input, both endpoints among them, in their order. */
  lemma SampledIsSubsequence(points: seq<Point>, threshold: nat) returns (source: seq<nat>)
    requires |points| > threshold >= 3
    ensures |Sampled(points, threshold)| == |source| == threshold
    ensures source[0] == 0 && source[threshold - 1] == |points| - 1
    ensures forall k :: 0 <= k < threshold ==> source[k] < |points| && Sampled(points, threshold)[k] == points[source[k]]
    ensures forall j, k :: 0 <= j < k < threshold ==> source[j] < source[k]
  {
    var cut := CutsOf(|points|, threshold);
    CutsProper(|points|, threshold);
    source := seq(threshold, k requires 0 <= k < threshold => SourceIndex(points, threshold, cut, k));
    forall k | 0 <= k < threshold
      ensures Sampled(points, threshold)[k] == points[source[k]]
    {
      PickedAt(points, threshold, cut, k);
    }
    forall j, k | 0 <= j < k < threshold
      ensures source[j] < source[k]
    {
      IndicesIncrease(points, threshold, cut, j, k);
    }
  }

  lemma TimeOrderSurvives(points: seq<Point>, threshold: nat)
    requires forall i, j :: 0 <= i < j < |points| ==> points[i].x <= points[j].x
    ensures var r := Sampled(points, threshold); forall i, j :: 0 <= i < j < |r| ==> r[i].x <= r[j].x
  {
    if |points| > threshold >= 3 {
      var source := SampledIsSubsequence(points, threshold);
      var r := Sampled(points, threshold);
      assert forall i, j :: 0 <= i < j < |r| ==> source[i] < source[j];
    }
  }

  /** Each inner point is the first of its bucket to span the largest triangle with the point chosen before it. */
  lemma ChosenIsFirstLargest(points: seq<Point>, threshold: nat, bucket: nat) returns (k: nat)
    requires |points| > threshold >= 3 && bucket < threshold - 2
    ensures var cut := CutsOf(|points|, threshold);
            && Proper(cut, |points|, threshold)
            && 1 <= RangeStart(cut, bucket) < RangeEnd(cut, |points|, bucket) < |points|
            && k < |points| && Sampled(points, threshold)[bucket + 1] == points[k]
            && IsFirstLargest(points, Sampled(points, threshold)[bucket], BucketMean(points, threshold, cut, bucket),
                              RangeStart(cut, bucket), RangeEnd(cut, |points|, bucket), k)
  {
    CutsProper(|points|, threshold);
    k := PickedIsFirstLargest(points, threshold, CutsOf(|points|, threshold), bucket);
  }

  lemma ChosenStep(points: seq<Point>, threshold: nat, cut: nat -> int, bucket: nat)
    requires Proper(cut, |points|, threshold) && bucket < threshold - 2
    ensures 1 <= RangeStart(cut, bucket) < RangeEnd(cut, |points|, bucket) < |points|
    ensures IsFirstLargest(points, points[Chosen(points, threshold, cut, bucket)], BucketMean(points, threshold, cut, bucket),
                           RangeStart(cut, bucket), RangeEnd(cut, |points|, bucket), Chosen(points, threshold, cut, bucket + 1))
  {
    BucketInRange(cut, |points|, threshold, bucket);
    FirstLargestSpec(points, points[Chosen(points, threshold, cut, bucket)], BucketMean(points, threshold, cut, bucket),
                     RangeStart(cut, bucket), RangeEnd(cut, |points|, bucket));
  }

  lemma PickedIsFirstLargest(points: seq<Point>, threshold: nat, cut: nat -> int, bucket: nat) returns (k: nat)
    requires Proper(cut, |points|, threshold) && bucket < threshold - 2
    ensures 1 <= RangeStart(cut, bucket) < RangeEnd(cut, |points|, bucket) < |points|
    ensures k < |points| && Picked(points, threshold, cut)[bucket + 1] == points[k]
    ensures IsFirstLargest(points, Picked(points, threshold, cut)[bucket], BucketMean(points, threshold, cut, bucket),
                           RangeStart(cut, bucket), RangeEnd(cut, |points|, bucket), k)
  {
    ChosenStep(points, threshold, cut, bucket);
    k := Chosen(points, threshold, cut, bucket + 1);
    PickedAt(points, threshold, cut, bucket);
    PickedAt(points, threshold, cut, bucket + 1);
  }

  /** The result respects the limit if and only if the limit is at least three or was not exceeded to begin with. */
  lemma WithinLimitIff(points: seq<Point>, threshold: nat)
    ensures |Sampled(points, threshold)| <= threshold <==> threshold >= 3 || |points| <= threshold
  {
    if |points| > threshold >= 3 {
      CutsProper(|points|, threshold);
    }
  }

  /** For example three points asked for as two come back as three. */
  lemma TwoPointLimitIgnored(a: Point, b: Point, c: Point)
    ensures |Sampled([a, b, c], 2)| == 3
  {
  }
}
