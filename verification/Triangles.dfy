/**
 What the downsampling compares: that the number computed for three points is the area of
 their triangle, that the point averaged for a bucket is its centre, and that the buckets
 are even.
 */
module Triangles {
  import opened Lttb

  // ----- area ---------------------------------------------------------------------

  /** The points lie on one line `u * x + v * y == w`. */
  ghost predicate Collinear(a: Point, b: Point, c: Point) {
    exists u: real, v: real, w: real :: OnLine(u, v, w, a) && OnLine(u, v, w, b) && OnLine(u, v, w, c)
  }

  predicate OnLine(u: real, v: real, w: real, p: Point) {
    (u != 0.0 || v != 0.0) && u * p.x + v * p.y == w
  }

  /** Twice the signed area of the triangle over two sides given from their common corner. */
  function Cross(ux: real, uy: real, vx: real, vy: real): real {
    ux * vy - vx * uy
  }

  lemma AreaIsCross(a: Point, b: Point, c: Point)
    ensures Area(a, b, c) == Abs(Cross(b.x - a.x, b.y - a.y, c.x - a.x, c.y - a.y))
  {
    var p, q := (b.x - a.x) * (c.y - a.y), (c.x - a.x) * (b.y - a.y);
    assert (a.x - b.x) * (c.y - a.y) == -p && (a.x - c.x) * (b.y - a.y) == -q;
    assert Cross(b.x - a.x, b.y - a.y, c.x - a.x, c.y - a.y) == p - q;
    assert Area(a, b, c) == Abs(q - p);
  }

  lemma CrossCycles(a: Point, b: Point, c: Point)
    ensures Cross(b.x - a.x, b.y - a.y, c.x - a.x, c.y - a.y) == Cross(c.x - b.x, c.y - b.y, a.x - b.x, a.y - b.y)
  {
  }

  lemma CrossSwaps(ux: real, uy: real, vx: real, vy: real)
    ensures Cross(ux, uy, vx, vy) == -Cross(vx, vy, ux, uy)
  {
  }

  /** The order of the three points does not matter. */
  lemma AreaSymmetric(a: Point, b: Point, c: Point)
    ensures Area(a, b, c) == Area(b, c, a) == Area(c, a, b) == Area(a, c, b) == Area(c, b, a) == Area(b, a, c)
  {
    AreaCycles(a, b, c);
    AreaCycles(b, c, a);
    AreaSwaps(a, b, c);
    AreaSwaps(b, c, a);
    AreaSwaps(c, a, b);
  }

  lemma AreaCycles(a: Point, b: Point, c: Point)
    ensures Area(a, b, c) == Area(b, c, a)
  {
    AreaIsCross(a, b, c);
    AreaIsCross(b, c, a);
    CrossCycles(a, b, c);
  }

  lemma AreaSwaps(a: Point, b: Point, c: Point)
    ensures Area(a, b, c) == Area(a, c, b)
  {
    AreaIsCross(a, b, c);
    AreaIsCross(a, c, b);
    CrossSwaps(b.x - a.x, b.y - a.y, c.x - a.x, c.y - a.y);
  }

  function Moved(p: Point, dx: real, dy: real): Point { Point(p.x + dx, p.y + dy) }

  lemma AreaMoved(a: Point, b: Point, c: Point, dx: real, dy: real)
    ensures Area(Moved(a, dx, dy), Moved(b, dx, dy), Moved(c, dx, dy)) == Area(a, b, c)
  {
  }

  /** Twice the area over a horizontal base is base times height. */
  lemma BaseTimesHeight(a: Point, b: Point, c: Point)
    requires a.y == b.y
    ensures Area(a, b, c) == Abs(b.x - a.x) * Abs(c.y - a.y)
  {
    AreaIsCross(a, b, c);
    assert Cross(b.x - a.x, 0.0, c.x - a.x, c.y - a.y) == (b.x - a.x) * (c.y - a.y);
    AbsOfProduct(b.x - a.x, c.y - a.y);
  }

  lemma AbsOfProduct(x: real, y: real)
    ensures Abs(x * y) == Abs(x) * Abs(y)
  {
    if x >= 0.0 && y >= 0.0 {
      assert x * y >= 0.0;
    } else if x < 0.0 && y < 0.0 {
      assert (-x) * (-y) > 0.0;
    } else if x < 0.0 {
      assert (-x) * y >= 0.0;
    } else {
      assert x * (-y) >= 0.0;
    }
  }

  /** Sliding a corner along a parallel to the opposite side leaves the area as it is. */
  lemma AreaSlides(a: Point, b: Point, c: Point, k: real)
    ensures Area(a, b, Moved(c, k * (b.x - a.x), k * (b.y - a.y))) == Area(a, b, c)
  {
    var ux, uy := b.x - a.x, b.y - a.y;
    var d := Moved(c, k * ux, k * uy);
    AreaIsCross(a, b, c);
    AreaIsCross(a, b, d);
    assert d.x - a.x == (c.x - a.x) + k * ux && d.y - a.y == (c.y - a.y) + k * uy;
    CrossSlides(ux, uy, c.x - a.x, c.y - a.y, k);
    assert Cross(ux, uy, d.x - a.x, d.y - a.y) == Cross(ux, uy, c.x - a.x, c.y - a.y);
  }

  lemma CrossSlides(ux: real, uy: real, vx: real, vy: real, k: real)
    ensures Cross(ux, uy, vx + k * ux, vy + k * uy) == Cross(ux, uy, vx, vy)
  {
    assert ux * (vy + k * uy) == ux * vy + k * (ux * uy);
    assert (vx + k * ux) * uy == vx * uy + k * (ux * uy);
  }

  lemma CrossOfDependent(u: real, v: real, ux: real, uy: real, vx: real, vy: real)
    requires (u != 0.0 || v != 0.0) && u * ux + v * uy == 0.0 && u * vx + v * vy == 0.0
    ensures Cross(ux, uy, vx, vy) == 0.0
  {
    var d := Cross(ux, uy, vx, vy);
    if u != 0.0 {
      assert u * d == (u * ux) * vy - (u * vx) * uy;
      assert u * ux == -(v * uy) && u * vx == -(v * vy);
      assert u * d == -(v * uy) * vy + (v * vy) * uy;
      assert u * d == 0.0;
    } else {
      assert v * d == ux * (v * vy) - vx * (v * uy);
      assert v * d == 0.0;
    }
  }

  lemma LineThrough(p: Point, q: Point, r: Point)
    requires p != q && Cross(q.x - p.x, q.y - p.y, r.x - p.x, r.y - p.y) == 0.0
    ensures Collinear(p, q, r)
  {
    var u, v := q.y - p.y, p.x - q.x;
    var w := u * p.x + v * p.y;
    assert u * q.x + v * q.y - w == u * (q.x - p.x) + v * (q.y - p.y);
    assert u * r.x + v * r.y - w == u * (r.x - p.x) + v * (r.y - p.y);
    assert OnLine(u, v, w, p) && OnLine(u, v, w, q) && OnLine(u, v, w, r);
  }

  /** The area is zero exactly for three points on one line. */
  lemma FlatIffCollinear(a: Point, b: Point, c: Point)
    ensures Area(a, b, c) == 0.0 <==> Collinear(a, b, c)
  {
    AreaIsCross(a, b, c);
    if Collinear(a, b, c) {
      var u, v, w :| OnLine(u, v, w, a) && OnLine(u, v, w, b) && OnLine(u, v, w, c);
      LineSide(u, v, w, a, b);
      LineSide(u, v, w, a, c);
      CrossOfDependent(u, v, b.x - a.x, b.y - a.y, c.x - a.x, c.y - a.y);
    }
    if Area(a, b, c) == 0.0 {
      if a != b {
        LineThrough(a, b, c);
      } else {
        LineOfTwo(a, c);
      }
    }
  }

  lemma LineSide(u: real, v: real, w: real, p: Point, q: Point)
    requires OnLine(u, v, w, p) && OnLine(u, v, w, q)
    ensures u * (q.x - p.x) + v * (q.y - p.y) == 0.0
  {
  }

  lemma LineOfTwo(p: Point, q: Point)
    ensures Collinear(p, p, q)
  {
    var u, v := if p == q then 1.0 else q.y - p.y, if p == q then 0.0 else p.x - q.x;
    var w := u * p.x + v * p.y;
    assert u * q.x + v * q.y - w == u * (q.x - p.x) + v * (q.y - p.y);
    assert OnLine(u, v, w, p) && OnLine(u, v, w, q);
  }

  /** So a bucket keeps a point in line with its neighbours only when it has no other. */
  lemma SpikeKept(points: seq<Point>, threshold: nat, bucket: nat)
    requires |points| > threshold >= 3 && bucket < threshold - 2
    ensures Proper(CutsOf(|points|, threshold), |points|, threshold)
    ensures var cut, out := CutsOf(|points|, threshold), Sampled(points, threshold);
            |out| == threshold
            && (Collinear(out[bucket], BucketMean(points, threshold, cut, bucket), out[bucket + 1]) <==>
                  forall i: nat :: i < |points| && InBucket(cut, |points|, bucket, i) ==>
                    Collinear(out[bucket], BucketMean(points, threshold, cut, bucket), points[i]))
  {
    CutsProper(|points|, threshold);
    var cut, out := CutsOf(|points|, threshold), Sampled(points, threshold);
    var k := ChosenIsFirstLargest(points, threshold, bucket);
    var mean := BucketMean(points, threshold, cut, bucket);
    FlatIffCollinear(out[bucket], mean, out[bucket + 1]);
    forall i: nat | i < |points| && InBucket(cut, |points|, bucket, i)
      ensures Collinear(out[bucket], mean, points[i]) <==> Area(out[bucket], mean, points[i]) == 0.0
    {
      FlatIffCollinear(out[bucket], mean, points[i]);
    }
    assert InBucket(cut, |points|, bucket, k);
  }

  // ----- mean ----------------------------------------------------------------------

  /** By how much the points lie beyond `x`, and beyond `y`, all together. */
  function Beyond(points: seq<Point>, x: real, y: real): (real, real) {
    if points == [] then (0.0, 0.0)
    else
      var rest := Beyond(points[1..], x, y);
      (points[0].x - x + rest.0, points[0].y - y + rest.1)
  }

  lemma {:induction false} BeyondLast(points: seq<Point>, x: real, y: real)
    requires points != []
    ensures var init, last := Beyond(points[..|points| - 1], x, y), points[|points| - 1];
            Beyond(points, x, y) == (init.0 + last.x - x, init.1 + last.y - y)
  {
    if |points| > 1 {
      BeyondLast(points[1..], x, y);
      assert points[1..][..|points| - 2] == points[..|points| - 1][1..];
    }
  }

  /** What is left of a total when each of `n` points accounts for `x`. */
  function Left(total: real, n: nat, x: real): real { total - n as real * x }

  lemma OneMoreLeft(total: real, n: nat, x: real, last: real)
    ensures Left(total + last, n + 1, x) == Left(total, n, x) + last - x
  {
    NextMultiple(n, x);
  }

  lemma {:induction false} BeyondIsSum(points: seq<Point>, x: real, y: real)
    ensures Beyond(points, x, y) == (Left(Sum(points).x, |points|, x), Left(Sum(points).y, |points|, y))
  {
    if points == [] {
      assert 0 as real * x == 0.0 && 0 as real * y == 0.0;
    } else {
      var n := |points| - 1;
      var init, last := Sum(points[..n]), points[n];
      BeyondIsSum(points[..n], x, y);
      BeyondLast(points, x, y);
      OneMoreLeft(init.x, n, x, last.x);
      OneMoreLeft(init.y, n, y, last.y);
    }
  }

  /** The mean is the one point around which the points balance. */
  lemma MeanBalances(points: seq<Point>, x: real, y: real)
    requires points != []
    ensures Beyond(points, x, y) == (0.0, 0.0) <==> Mean(points) == Point(x, y)
  {
    BeyondIsSum(points, x, y);
    MeanOfSum(points, Sum(points), x, y);
  }

  lemma MeanOfSum(points: seq<Point>, sum: Point, x: real, y: real)
    requires points != [] && sum == Sum(points)
    ensures (Left(sum.x, |points|, x) == 0.0 && Left(sum.y, |points|, y) == 0.0) <==> Mean(points) == Point(x, y)
  {
    QuotientIff(sum.x, |points|, x);
    QuotientIff(sum.y, |points|, y);
  }

  lemma QuotientIff(total: real, n: nat, x: real)
    requires n > 0
    ensures Left(total, n, x) == 0.0 <==> total / (n as real) == x
  {
    var m := n as real;
    if total / m == x {
      assert (total / m) * m == total;
    }
    if total == m * x {
      assert (m * x) / m == x;
    }
  }

  // ----- buckets ---------------------------------------------------------------------

  function BucketSize(n: nat, threshold: nat, bucket: nat): int
    requires threshold >= 3
  {
    RangeEnd(CutsOf(n, threshold), n, bucket) - RangeStart(CutsOf(n, threshold), bucket)
  }

  /** The buckets are even: no two differ by more than one point. */
  lemma BucketsEven(n: nat, threshold: nat, i: nat, j: nat)
    requires n > threshold >= 3 && i < threshold - 2 && j < threshold - 2
    ensures -1 <= BucketSize(n, threshold, i) - BucketSize(n, threshold, j) <= 1
  {
    SizeAt(n, threshold, i);
    SizeAt(n, threshold, j);
  }

  lemma SizeAt(n: nat, threshold: nat, bucket: nat)
    requires n > threshold >= 3 && bucket < threshold - 2
    ensures Width(n, threshold).Floor <= BucketSize(n, threshold, bucket) <= Width(n, threshold).Floor + 1
  {
    CutsProper(n, threshold);
    BucketInRange(CutsOf(n, threshold), n, threshold, bucket);
    CutsApart(n, threshold, bucket, Width(n, threshold));
  }

  lemma CutsApart(n: nat, threshold: nat, k: nat, w: real)
    requires threshold >= 3 && w == Width(n, threshold)
    ensures w.Floor <= Cut(n, threshold, k + 1) - Cut(n, threshold, k) <= w.Floor + 1
  {
    NextMultiple(k, w);
    FloorsDiffer(k as real * w, w);
  }

  lemma FloorsDiffer(x: real, w: real)
    ensures w.Floor <= (x + w).Floor - x.Floor <= w.Floor + 1
  {
  }
}
