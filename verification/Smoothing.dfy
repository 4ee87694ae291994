/**
 The live smoothing buffer of the simulator bridge: which samples it keeps, and the
 frame it renders at an instant of the bridge clock.
 */
module Smoothing {
  import opened Common
  import opened Store

  type Duration = r: real | 0.0 <= r witness 0.0

  const EPSILON := 1.0 / 4503599627370496.0

  datatype SmoothingMode = Latest | LowLatency | Smooth

  datatype SmoothingConfig = SmoothingConfig(
    mode: SmoothingMode, delay: Duration, maxExtrapolation: Duration, maxAge: Duration, maxSamples: nat)

  datatype Vector = Vector(x: Float, y: Float, z: Float)

  /** The fields of an aircraft state that are interpolated alike: an optional vector and an optional scalar. */
  datatype State = State(vector: Option<Vector>, scalar: Option<Float>)

  datatype BufferedSample = BufferedSample(t: real, receivedAt: real, state: State)

  datatype PushResult = Accepted | UpdatedDuplicate | DroppedInvalidTimestamp | DroppedOutOfOrder

  datatype Source = LatestSource | Interpolated | Extrapolated | Held

  datatype Frame = Frame(t: real, state: State, source: Source)

  datatype Stats = Stats(
    accepted: nat, outOfOrder: nat, invalid: nat, latest: nat, interpolated: nat, extrapolated: nat, held: nat)

  const NO_STATS := Stats(0, 0, 0, 0, 0, 0, 0)

  // ----- what is kept -----------------------------------------------------------------

  ghost predicate Increasing(samples: seq<BufferedSample>) {
    forall i, j :: 0 <= i < j < |samples| ==> samples[i].t < samples[j].t
  }

  function DropExcess(samples: seq<BufferedSample>, maxSamples: nat): seq<BufferedSample> {
    if |samples| > maxSamples then samples[|samples| - maxSamples..] else samples
  }

  lemma DropExcessStep(samples: seq<BufferedSample>, maxSamples: nat)
    requires |samples| > maxSamples
    ensures DropExcess(samples[1..], maxSamples) == DropExcess(samples, maxSamples)
  {
  }

  function DropOld(samples: seq<BufferedSample>, minimum: real): (r: seq<BufferedSample>)
    ensures |r| <= |samples|
  {
    if |samples| > 2 && samples[0].t < minimum then DropOld(samples[1..], minimum) else samples
  }

  function Pruned(samples: seq<BufferedSample>, config: SmoothingConfig): seq<BufferedSample> {
    var some := DropExcess(samples, config.maxSamples);
    if some == [] then [] else DropOld(some, some[|some| - 1].t - config.maxAge)
  }

  /** Whether sample `i` survives pruning, counted from the newest. */
  predicate Kept(samples: seq<BufferedSample>, config: SmoothingConfig, i: nat)
    requires i < |samples|
  {
    && |samples| - i <= config.maxSamples
    && (|samples| - i <= 2 || samples[|samples| - 1].t - config.maxAge <= samples[i].t)
  }

  /** Exactly the newest `count` samples are among the two newest or not older than `minimum`. */
  ghost predicate CutBy(samples: seq<BufferedSample>, minimum: real, count: nat) {
    forall i :: 0 <= i < |samples| ==> (|samples| - i <= count <==> |samples| - i <= 2 || minimum <= samples[i].t)
  }

  lemma {:induction false} DropOldExact(samples: seq<BufferedSample>, minimum: real)
    requires Increasing(samples)
    ensures DropOld(samples, minimum) == samples[|samples| - |DropOld(samples, minimum)|..]
    ensures CutBy(samples, minimum, |DropOld(samples, minimum)|)
  {
    if |samples| > 2 && samples[0].t < minimum {
      var rest := samples[1..];
      DropOldExact(rest, minimum);
      assert forall i :: 0 < i < |samples| ==> samples[i] == rest[i - 1];
    }
  }

  /** Pruning keeps a suffix, and exactly the samples within the count and the age, the two newest whatever their age. */
  lemma PrunedExact(samples: seq<BufferedSample>, config: SmoothingConfig)
    requires Increasing(samples)
    ensures |Pruned(samples, config)| <= |samples|
    ensures Pruned(samples, config) == samples[|samples| - |Pruned(samples, config)|..]
    ensures forall i :: 0 <= i < |samples| ==> (|samples| - i <= |Pruned(samples, config)| <==> Kept(samples, config, i))
  {
    var some := DropExcess(samples, config.maxSamples);
    if some != [] {
      SuffixIncreasing(samples, some);
      SuffixPruned(samples, some, Pruned(samples, config), some[|some| - 1].t - config.maxAge);
      AllKeptIff(samples, some, |Pruned(samples, config)|, config);
    }
  }

  lemma SuffixPruned(samples: seq<BufferedSample>, some: seq<BufferedSample>, kept: seq<BufferedSample>, minimum: real)
    requires Increasing(some) && |some| <= |samples| && some == samples[|samples| - |some|..]
    requires kept == DropOld(some, minimum)
    ensures |kept| <= |some| && kept == samples[|samples| - |kept|..] && CutBy(some, minimum, |kept|)
  {
    DropOldExact(some, minimum);
    SuffixOfSuffix(samples, some, kept);
  }

  lemma AllKeptIff(samples: seq<BufferedSample>, some: seq<BufferedSample>, count: nat, config: SmoothingConfig)
    requires some == DropExcess(samples, config.maxSamples) && some != [] && count <= |some|
    requires CutBy(some, some[|some| - 1].t - config.maxAge, count)
    ensures forall i :: 0 <= i < |samples| ==> (|samples| - i <= count <==> Kept(samples, config, i))
  {
    forall i | 0 <= i < |samples|
      ensures |samples| - i <= count <==> Kept(samples, config, i)
    {
      KeptIff(samples, some, count, config, i);
    }
  }

  lemma SuffixIncreasing(samples: seq<BufferedSample>, some: seq<BufferedSample>)
    requires Increasing(samples) && |some| <= |samples| && some == samples[|samples| - |some|..]
    ensures Increasing(some)
  {
    var gone := |samples| - |some|;
    assert forall i :: 0 <= i < |some| ==> some[i] == samples[gone + i];
  }

  lemma SuffixOfSuffix<T>(a: seq<T>, b: seq<T>, c: seq<T>)
    requires |c| <= |b| <= |a| && b == a[|a| - |b|..] && c == b[|b| - |c|..]
    ensures c == a[|a| - |c|..]
  {
  }

  lemma KeptIff(samples: seq<BufferedSample>, some: seq<BufferedSample>, count: nat, config: SmoothingConfig, i: nat)
    requires i < |samples| && some == DropExcess(samples, config.maxSamples) && some != [] && count <= |some|
    requires CutBy(some, some[|some| - 1].t - config.maxAge, count)
    ensures |samples| - i <= count <==> Kept(samples, config, i)
  {
    var gone := |samples| - |some|;
    if gone <= i {
      assert samples[i] == some[i - gone] && samples[|samples| - 1] == some[|some| - 1];
    }
  }

  /** At most the configured count; the oldest sample kept is within the age, or at most two are kept. */
  ghost predicate Bounded(samples: seq<BufferedSample>, config: SmoothingConfig) {
    && |samples| <= config.maxSamples
    && (|samples| > 2 ==> samples[|samples| - 1].t - config.maxAge <= samples[0].t)
  }

  lemma PrunedBounded(samples: seq<BufferedSample>, config: SmoothingConfig)
    requires Increasing(samples)
    ensures Increasing(Pruned(samples, config)) && Bounded(Pruned(samples, config), config)
  {
    PrunedExact(samples, config);
    var kept := Pruned(samples, config);
    SuffixIncreasing(samples, kept);
    if kept != [] {
      var gone := |samples| - |kept|;
      assert kept[0] == samples[gone] && kept[|kept| - 1] == samples[|samples| - 1];
      assert Kept(samples, config, gone);
    }
  }

  function AfterPush(samples: seq<BufferedSample>, config: SmoothingConfig, t: Float, state: State, receivedAt: real): seq<BufferedSample> {
    if !t.Num? then samples
    else if samples != [] && t.r < samples[|samples| - 1].t then samples
    else if samples != [] && t.r == samples[|samples| - 1].t then samples[|samples| - 1 := BufferedSample(t.r, receivedAt, state)]
    else Pruned(samples + [BufferedSample(t.r, receivedAt, state)], config)
  }

  function ResultOf(samples: seq<BufferedSample>, t: Float): PushResult {
    if !t.Num? then DroppedInvalidTimestamp
    else if samples != [] && t.r < samples[|samples| - 1].t then DroppedOutOfOrder
    else if samples != [] && t.r == samples[|samples| - 1].t then UpdatedDuplicate
    else Accepted
  }

  /** Timestamps stay strictly increasing and the bounds hold after every push, and an accepted sample is the newest. */
  lemma PushKeeps(samples: seq<BufferedSample>, config: SmoothingConfig, t: Float, state: State, receivedAt: real)
    requires Increasing(samples) && Bounded(samples, config)
    ensures var after := AfterPush(samples, config, t, state, receivedAt);
            && Increasing(after) && Bounded(after, config)
            && (!ResultOf(samples, t).DroppedInvalidTimestamp? && !ResultOf(samples, t).DroppedOutOfOrder? && config.maxSamples > 0
                ==> after != [] && after[|after| - 1] == BufferedSample(t.r, receivedAt, state))
  {
    if ResultOf(samples, t).Accepted? {
      var all := samples + [BufferedSample(t.r, receivedAt, state)];
      PrunedBounded(all, config);
      PrunedExact(all, config);
      assert config.maxSamples > 0 ==> Kept(all, config, |all| - 1);
    }
  }

  // ----- interpolation --------------------------------------------------------------------

  function Lerp(left: real, right: real, t: real): real {
    left + (right - left) * t
  }

  /** The interpolation parameter, clamped to at most one segment on either side. */
  function Parameter(left: real, right: real, target: real): real {
    var span := right - left;
    if -EPSILON <= span <= EPSILON then 1.0 else Clamp((target - left) / span, -1.0, 2.0)
  }

  function InterpolateOption(left: Option<Float>, right: Option<Float>, t: real): Option<Float> {
    var l := if left.Some? && left.value.Num? then left else None;
    var r := if right.Some? && right.value.Num? then right else None;
    if l.Some? && r.Some? then Some(Num(Lerp(l.value.r, r.value.r, t)))
    else if r.Some? then r
    else l
  }

  predicate FiniteVector(v: Vector) {
    v.x.Num? && v.y.Num? && v.z.Num?
  }

  function InterpolateVector(left: Option<Vector>, right: Option<Vector>, t: real): Option<Vector> {
    if left.Some? && right.Some? && FiniteVector(left.value) && FiniteVector(right.value) then
      var l, r := left.value, right.value;
      Some(Vector(Num(Lerp(l.x.r, r.x.r, t)), Num(Lerp(l.y.r, r.y.r, t)), Num(Lerp(l.z.r, r.z.r, t))))
    else if right.Some? then right
    else left
  }

  function InterpolateState(left: BufferedSample, right: BufferedSample, target: real): State {
    var t := Parameter(left.t, right.t, target);
    State(InterpolateVector(left.state.vector, right.state.vector, t),
          InterpolateOption(left.state.scalar, right.state.scalar, t))
  }

  /** `v` lies between `a` and `b`, in either order. */
  predicate InBetween(a: real, v: real, b: real) {
    a <= v <= b || b <= v <= a
  }

  lemma LerpBetween(a: real, b: real, t: real)
    requires 0.0 <= t <= 1.0
    ensures InBetween(a, Lerp(a, b, t), b)
  {
    if a <= b {
      Products(b - a, t);
      Products(b - a, 1.0 - t);
    } else {
      Products(a - b, t);
      Products(a - b, 1.0 - t);
    }
  }

  lemma Products(d: real, t: real)
    requires d >= 0.0 && t >= 0.0
    ensures d * t >= 0.0
  {
  }

  /** Past the right end the value overshoots by at most the difference over the segment, in its direction. */
  lemma LerpOvershoots(a: real, b: real, t: real)
    requires 1.0 <= t <= 2.0
    ensures InBetween(b, Lerp(a, b, t), b + (b - a))
  {
    assert Lerp(a, b, t) == Lerp(b, b + (b - a), t - 1.0) by {
      assert a + (b - a) * t == b + (b - a) * (t - 1.0);
    }
    LerpBetween(b, b + (b - a), t - 1.0);
  }

  lemma ParameterInside(left: real, right: real, target: real)
    requires left < target <= right
    ensures 0.0 <= Parameter(left, right, target) <= 1.0
    ensures right - left > EPSILON ==> Lerp(left, right, Parameter(left, right, target)) == target
  {
    if right - left > EPSILON {
      Quotient(target - left, right - left);
    }
  }

  lemma PositiveProduct(d: real, t: real)
    requires d > 0.0 && t > 0.0
    ensures d * t > 0.0
  {
  }

  /** Where `q` stands to 0 and 1, `a == q * b` stands to 0 and `b`. */
  lemma Scales(q: real, b: real, a: real)
    requires b > 0.0 && q * b == a
    ensures q < 0.0 ==> a < 0.0
    ensures q < 1.0 ==> a < b
    ensures q > 1.0 ==> a > b
  {
    if q < 0.0 {
      PositiveProduct(-q, b);
    }
    if q < 1.0 {
      PositiveProduct(1.0 - q, b);
      assert (1.0 - q) * b == b - a;
    } else if q > 1.0 {
      PositiveProduct(q - 1.0, b);
      assert (q - 1.0) * b == a - b;
    }
  }

  lemma Quotient(a: real, b: real)
    requires b > 0.0
    ensures b * (a / b) == a
    ensures 0.0 <= a <= b ==> 0.0 <= a / b <= 1.0
    ensures b <= a ==> 1.0 <= a / b
  {
    var q := a / b;
    assert q * b == a;
    Scales(q, b, a);
  }

  lemma ParameterBeyond(left: real, right: real, target: real)
    requires left < right < target
    ensures 1.0 <= Parameter(left, right, target) <= 2.0
  {
    if right - left > EPSILON {
      Quotient(target - left, right - left);
    }
  }

  // ----- rendering ---------------------------------------------------------------------------

  function Target(samples: seq<BufferedSample>, config: SmoothingConfig, now: real): real
    requires samples != []
  {
    var latest := samples[|samples| - 1];
    latest.t + SaturatingSince(now, latest.receivedAt) - config.delay
  }

  /** The first sample from `i` on that is not before the target. */
  function Bracket(samples: seq<BufferedSample>, target: real, i: nat): Option<nat>
    decreases |samples| - i
  {
    if i >= |samples| then None
    else if target <= samples[i].t then Some(i)
    else Bracket(samples, target, i + 1)
  }

  function Hold(s: BufferedSample): Frame {
    Frame(s.t, s.state, Held)
  }

  function Bracketed(samples: seq<BufferedSample>, target: real): Frame
    requires |samples| >= 2
  {
    match Bracket(samples, target, 1)
    case None => Hold(samples[|samples| - 1])
    case Some(k) =>
      if 0 < k < |samples| then
        if target == samples[k].t then Frame(samples[k].t, samples[k].state, Interpolated)
        else Frame(target, InterpolateState(samples[k - 1], samples[k], target), Interpolated)
      else Hold(samples[|samples| - 1])
  }

  function Smoothed(samples: seq<BufferedSample>, config: SmoothingConfig, now: real): Option<Frame> {
    if samples == [] then None
    else
      var latest, target := samples[|samples| - 1], Target(samples, config, now);
      if |samples| == 1 then Some(Hold(latest))
      else if target <= samples[0].t then Some(Hold(samples[0]))
      else if target > latest.t then
        if target - latest.t <= config.maxExtrapolation then
          Some(Frame(target, InterpolateState(samples[|samples| - 2], latest, target), Extrapolated))
        else Some(Hold(latest))
      else Some(Bracketed(samples, target))
  }

  function Rendered(samples: seq<BufferedSample>, config: SmoothingConfig, now: real): Option<Frame> {
    if config.mode.Latest? then
      if samples == [] then None else Some(Frame(samples[|samples| - 1].t, samples[|samples| - 1].state, LatestSource))
    else Smoothed(samples, config, now)
  }

  /** Without smoothing, what is rendered after a sample was accepted, or replaced the newest, is that sample. */
  lemma LatestShowsPushed(samples: seq<BufferedSample>, config: SmoothingConfig, t: Float, state: State, receivedAt: real, now: real)
    requires Increasing(samples) && Bounded(samples, config) && config.maxSamples > 0 && config.mode.Latest?
    requires ResultOf(samples, t).Accepted? || ResultOf(samples, t).UpdatedDuplicate?
    ensures Rendered(AfterPush(samples, config, t, state, receivedAt), config, now) == Some(Frame(t.r, state, LatestSource))
  {
    PushKeeps(samples, config, t, state, receivedAt);
  }

  lemma {:induction false} BracketFound(samples: seq<BufferedSample>, target: real, i: nat)
    requires Increasing(samples) && 0 < i < |samples| && samples[i - 1].t < target <= samples[|samples| - 1].t
    ensures Bracket(samples, target, i).Some?
    ensures var k := Bracket(samples, target, i).value; i <= k < |samples| && samples[k - 1].t < target <= samples[k].t
    decreases |samples| - i
  {
    if samples[i].t < target {
      BracketFound(samples, target, i + 1);
    }
  }

  /**
   A target inside the buffer always finds its two neighbours, so the fallback behind the scan is
   never reached: the frame is interpolated, stands at the target, and is made of exactly those two.
   */
  lemma InsideIsInterpolated(samples: seq<BufferedSample>, config: SmoothingConfig, now: real) returns (k: nat)
    requires Increasing(samples) && |samples| >= 2
    requires samples[0].t < Target(samples, config, now) <= samples[|samples| - 1].t
    ensures var target, frame := Target(samples, config, now), Smoothed(samples, config, now).value;
            && Smoothed(samples, config, now).Some?
            && frame.source == Interpolated && frame.t == target
            && 0 < k < |samples| && samples[k - 1].t < target <= samples[k].t
            && frame.state == if target == samples[k].t then samples[k].state else InterpolateState(samples[k - 1], samples[k], target)
  {
    BracketFound(samples, Target(samples, config, now), 1);
    k := Bracket(samples, Target(samples, config, now), 1).value;
  }

  /** Component by component, `v` satisfies `p` with the finite components of its two neighbours. */
  ghost predicate VectorWithin(left: Option<Vector>, v: Option<Vector>, right: Option<Vector>, p: (real, real, real) -> bool) {
    left.Some? && right.Some? && FiniteVector(left.value) && FiniteVector(right.value) ==>
      && v.Some? && FiniteVector(v.value)
      && p(left.value.x.r, v.value.x.r, right.value.x.r)
      && p(left.value.y.r, v.value.y.r, right.value.y.r)
      && p(left.value.z.r, v.value.z.r, right.value.z.r)
  }

  ghost predicate ScalarWithin(left: Option<Float>, v: Option<Float>, right: Option<Float>, p: (real, real, real) -> bool) {
    left.Some? && right.Some? && left.value.Num? && right.value.Num? ==>
      v.Some? && v.value.Num? && p(left.value.r, v.value.r, right.value.r)
  }

  ghost predicate StateWithin(left: State, s: State, right: State, p: (real, real, real) -> bool) {
    VectorWithin(left.vector, s.vector, right.vector, p) && ScalarWithin(left.scalar, s.scalar, right.scalar, p)
  }

  function Inside(): (real, real, real) -> bool {
    (a, v, b) => InBetween(a, v, b)
  }

  function OneSegmentPast(): (real, real, real) -> bool {
    (a, v, b) => InBetween(b, v, b + (b - a))
  }

  lemma InterpolatedBy(left: BufferedSample, right: BufferedSample, target: real, p: (real, real, real) -> bool)
    requires forall a: real, b: real :: p(a, Lerp(a, b, Parameter(left.t, right.t, target)), b)
    ensures StateWithin(left.state, InterpolateState(left, right, target), right.state, p)
  {
  }

  /** Every interpolated component lies between its neighbours. */
  lemma InterpolatedBetween(left: BufferedSample, right: BufferedSample, target: real)
    requires left.t < target <= right.t
    ensures StateWithin(left.state, InterpolateState(left, right, target), right.state, Inside())
  {
    var t := Parameter(left.t, right.t, target);
    ParameterInside(left.t, right.t, target);
    forall a: real, b: real
      ensures Inside()(a, Lerp(a, b, t), b)
    {
      LerpBetween(a, b, t);
    }
    InterpolatedBy(left, right, target, Inside());
  }

  /** A scalar that only one of the samples has, finite, is that one's; a vector that cannot be interpolated is the later one's, if it has one. */
  lemma MissingComponents(left: BufferedSample, right: BufferedSample, target: real)
    ensures var s, l, r := InterpolateState(left, right, target).scalar, left.state.scalar, right.state.scalar;
            var lHas, rHas := l.Some? && l.value.Num?, r.Some? && r.value.Num?;
            && (s.Some? <==> lHas || rHas) && (s.Some? ==> s.value.Num?)
            && (lHas && !rHas ==> s == l) && (rHas && !lHas ==> s == r)
    ensures var v, l, r := InterpolateState(left, right, target).vector, left.state.vector, right.state.vector;
            !(l.Some? && FiniteVector(l.value) && r.Some? && FiniteVector(r.value)) ==> v == if r.Some? then r else l
  {
  }

  /** A held frame is a stored sample as it came: the oldest for an instant before it, else the newest. */
  lemma HeldIsStored(samples: seq<BufferedSample>, config: SmoothingConfig, now: real)
    requires Increasing(samples) && Smoothed(samples, config, now).Some? && Smoothed(samples, config, now).value.source == Held
    ensures samples != []
    ensures var frame, n := Smoothed(samples, config, now).value, |samples|;
            var held := if n >= 2 && Target(samples, config, now) <= samples[0].t then samples[0] else samples[n - 1];
            frame.t == held.t && frame.state == held.state
  {
    if |samples| >= 2 && samples[0].t < Target(samples, config, now) <= samples[|samples| - 1].t {
      var _ := InsideIsInterpolated(samples, config, now);
    }
  }

  /** How far along the line through two samples a target is followed: one segment past the later one. */
  function Followed(left: real, right: real, target: real): real {
    if target < right + (right - left) then target else right + (right - left)
  }

  /** `v` lies on the straight line through `a` at `left` and `b` at `right`, at the instant followed. */
  function OnTheLine(left: real, right: real, target: real): (real, real, real) -> bool {
    (a, v, b) =>
      if right - left > EPSILON then (v - a) * (right - left) == (b - a) * (Followed(left, right, target) - left) else v == b
  }

  lemma ParameterIs(left: real, right: real, target: real)
    requires right - left > EPSILON && left < target
    ensures Parameter(left, right, target) * (right - left) == Followed(left, right, target) - left
  {
    var span, gone := right - left, target - left;
    var q := gone / span;
    assert q * span == gone;
    Scales(q, span, gone);
    HalfScales(q, span, gone);
  }

  lemma HalfScales(q: real, b: real, a: real)
    requires b > 0.0 && q * b == a
    ensures q < 2.0 ==> a < b + b
    ensures q > 2.0 ==> a > b + b
    ensures q == 2.0 ==> a == b + b
  {
    if q < 2.0 {
      PositiveProduct(2.0 - q, b);
      assert (2.0 - q) * b == b + b - a;
    } else if q > 2.0 {
      PositiveProduct(q - 2.0, b);
      assert (q - 2.0) * b == a - (b + b);
    }
  }

  /**
   Interpolated or extrapolated, every component lies on the straight line through its two samples, which is
   followed for one segment past the later one and no further; samples no further apart than the rounding
   unit give the later one.
   */
  lemma ComponentsOnTheLine(left: BufferedSample, right: BufferedSample, target: real)
    requires left.t < right.t && left.t < target
    ensures StateWithin(left.state, InterpolateState(left, right, target), right.state, OnTheLine(left.t, right.t, target))
  {
    var t, line := Parameter(left.t, right.t, target), OnTheLine(left.t, right.t, target);
    forall a: real, b: real
      ensures line(a, Lerp(a, b, t), b)
    {
      if right.t - left.t > EPSILON {
        ParameterIs(left.t, right.t, target);
        LerpOnLine(a, b, t, right.t - left.t, Followed(left.t, right.t, target) - left.t);
      }
    }
    InterpolatedBy(left, right, target, line);
  }

  lemma LerpOnLine(a: real, b: real, t: real, span: real, gone: real)
    requires t * span == gone
    ensures (Lerp(a, b, t) - a) * span == (b - a) * gone
  {
    assert (b - a) * t * span == (b - a) * (t * span);
  }

  /** Samples that all take equally long to arrive are shown that long and the delay after their time, whichever is newest. */
  lemma SteadyLatency(samples: seq<BufferedSample>, config: SmoothingConfig, now: real, latency: real)
    requires Increasing(samples) && |samples| >= 2 && samples[|samples| - 1].receivedAt == samples[|samples| - 1].t + latency
    requires samples[|samples| - 1].receivedAt <= now
    requires samples[0].t <= now - latency - config.delay <= samples[|samples| - 1].t + config.maxExtrapolation
    ensures Smoothed(samples, config, now).Some? && Smoothed(samples, config, now).value.t == now - latency - config.delay
  {
    FrameTime(samples, config, now);
  }

  /** Every extrapolated component overshoots the newest sample by at most the last segment's difference. */
  lemma ExtrapolatedBounded(samples: seq<BufferedSample>, config: SmoothingConfig, now: real)
    requires Increasing(samples) && Smoothed(samples, config, now).Some?
    requires Smoothed(samples, config, now).value.source == Extrapolated
    ensures |samples| >= 2
    ensures var n, frame := |samples|, Smoothed(samples, config, now).value;
            && samples[n - 1].t < frame.t <= samples[n - 1].t + config.maxExtrapolation
            && StateWithin(samples[n - 2].state, frame.state, samples[n - 1].state, OneSegmentPast())
  {
    var n, target := |samples|, Target(samples, config, now);
    var t := Parameter(samples[n - 2].t, samples[n - 1].t, target);
    ParameterBeyond(samples[n - 2].t, samples[n - 1].t, target);
    forall a: real, b: real
      ensures OneSegmentPast()(a, Lerp(a, b, t), b)
    {
      LerpOvershoots(a, b, t);
    }
    InterpolatedBy(samples[n - 2], samples[n - 1], target, OneSegmentPast());
  }

  /** The instant has run past the extrapolation limit. */
  predicate PastLimit(samples: seq<BufferedSample>, config: SmoothingConfig, now: real)
    requires samples != []
  {
    Target(samples, config, now) > samples[|samples| - 1].t + config.maxExtrapolation
  }

  predicate Extrapolating(samples: seq<BufferedSample>, config: SmoothingConfig, now: real)
    requires samples != []
  {
    |samples| >= 2 && samples[|samples| - 1].t < Target(samples, config, now) && !PastLimit(samples, config, now)
  }

  /** The timestamp of a smoothed frame, told from the target alone. */
  lemma FrameTime(samples: seq<BufferedSample>, config: SmoothingConfig, now: real)
    requires Increasing(samples) && |samples| >= 2
    ensures var first, latest, target := samples[0].t, samples[|samples| - 1].t, Target(samples, config, now);
            Smoothed(samples, config, now).Some? &&
            Smoothed(samples, config, now).value.t ==
              if target <= first then first else if target <= latest + config.maxExtrapolation then target else latest
  {
    var target := Target(samples, config, now);
    if samples[0].t < target <= samples[|samples| - 1].t {
      var _ := InsideIsInterpolated(samples, config, now);
    }
  }

  /**
   While no sample arrives, frames move forward with the clock, except that a frame held past the
   extrapolation limit falls back behind the extrapolated ones: exactly then, and only then.
   */
  lemma FramesAdvanceIff(samples: seq<BufferedSample>, config: SmoothingConfig, early: real, late: real)
    requires Increasing(samples) && samples != [] && early <= late
    ensures Smoothed(samples, config, early).Some? && Smoothed(samples, config, late).Some?
    ensures Smoothed(samples, config, early).value.t <= Smoothed(samples, config, late).value.t
            <==> !(Extrapolating(samples, config, early) && PastLimit(samples, config, late))
  {
    if |samples| >= 2 {
      FrameTime(samples, config, early);
      FrameTime(samples, config, late);
      assert Target(samples, config, early) <= Target(samples, config, late);
    }
  }

  /** For example, samples at 0 and 1 received at 0: half a second later the frame is at 1.5, and at 3 back at 1. */
  lemma FramesStepBack(a: State, b: State)
    ensures var samples := [BufferedSample(0.0, 0.0, a), BufferedSample(1.0, 0.0, b)];
            var config := SmoothingConfig(LowLatency, 0.0, 1.0, 2.0, 512);
            && Smoothed(samples, config, 0.5).Some? && Smoothed(samples, config, 3.0).Some?
            && Smoothed(samples, config, 0.5).value.t == 1.5 && Smoothed(samples, config, 3.0).value.t == 1.0
  {
    var samples := [BufferedSample(0.0, 0.0, a), BufferedSample(1.0, 0.0, b)];
    var config := SmoothingConfig(LowLatency, 0.0, 1.0, 2.0, 512);
    assert Target(samples, config, 0.5) == 1.5 && Target(samples, config, 3.0) == 4.0;
  }

  // ----- frames across a push -------------------------------------------------------------------

  /** The newest sample is held: it is alone, or the instant has run past the extrapolation limit. */
  predicate HoldsNewest(samples: seq<BufferedSample>, config: SmoothingConfig, now: real)
    requires samples != []
  {
    |samples| == 1 || (samples[0].t < Target(samples, config, now) && PastLimit(samples, config, now))
  }

  /** The timestamp of any smoothed frame. */
  lemma AnyFrameTime(samples: seq<BufferedSample>, config: SmoothingConfig, now: real)
    requires Increasing(samples) && samples != []
    ensures Smoothed(samples, config, now).Some?
    ensures var first, target := samples[0].t, Target(samples, config, now);
            Smoothed(samples, config, now).value.t ==
              if HoldsNewest(samples, config, now) then samples[|samples| - 1].t
              else if target <= first then first else target
  {
    if |samples| >= 2 {
      FrameTime(samples, config, now);
    }
  }

  /** What an accepted sample leaves in the buffer: a suffix that ends with it. */
  lemma AcceptedSuffix(samples: seq<BufferedSample>, config: SmoothingConfig, t: Float, state: State, receivedAt: real)
    requires Increasing(samples) && Bounded(samples, config) && samples != [] && config.maxSamples > 0 && ResultOf(samples, t).Accepted?
    ensures var after := AfterPush(samples, config, t, state, receivedAt);
            && after != [] && Increasing(after) && after[|after| - 1] == BufferedSample(t.r, receivedAt, state)
            && samples[0].t <= after[0].t && (|after| >= 2 ==> after[0].t <= samples[|samples| - 1].t)
  {
    var all := samples + [BufferedSample(t.r, receivedAt, state)];
    var after := AfterPush(samples, config, t, state, receivedAt);
    PushKeeps(samples, config, t, state, receivedAt);
    PrunedExact(all, config);
    assert after[0] == all[|all| - |after|];
  }

  /**
   A frame rendered after an accepted sample steps back behind the frame shown before it exactly when that one
   is ahead of the oldest sample kept and of the new target, or ahead of the new sample where that is held.
   */
  lemma PushStepsBackIff(samples: seq<BufferedSample>, config: SmoothingConfig, early: real,
                         t: Float, state: State, receivedAt: real, late: real)
    requires Increasing(samples) && Bounded(samples, config) && samples != [] && config.maxSamples > 0 && ResultOf(samples, t).Accepted?
    ensures var after := AfterPush(samples, config, t, state, receivedAt);
            && after != [] && Smoothed(samples, config, early).Some? && Smoothed(after, config, late).Some?
            && var shown := Smoothed(samples, config, early).value.t;
               (Smoothed(after, config, late).value.t < shown
                <==> if HoldsNewest(after, config, late) then t.r < shown
                     else after[0].t < shown && t.r + SaturatingSince(late, receivedAt) - config.delay < shown)
  {
    AcceptedSuffix(samples, config, t, state, receivedAt);
    AnyFrameTime(samples, config, early);
    AnyFrameTime(AfterPush(samples, config, t, state, receivedAt), config, late);
  }

  /**
   A sample that has come no later behind its timestamp than the one before it makes frames step back only in one
   case, and then always: the frame before was extrapolated past it, and it is held itself.
   */
  lemma TimelyPushStepsBackIff(samples: seq<BufferedSample>, config: SmoothingConfig, early: real,
                               t: Float, state: State, receivedAt: real, late: real)
    requires Increasing(samples) && Bounded(samples, config) && samples != [] && config.maxSamples > 0 && ResultOf(samples, t).Accepted?
    requires samples[|samples| - 1].receivedAt <= early <= receivedAt <= late
    requires samples[|samples| - 1].t - samples[|samples| - 1].receivedAt <= t.r - receivedAt
    ensures var after := AfterPush(samples, config, t, state, receivedAt);
            && after != [] && Smoothed(samples, config, early).Some? && Smoothed(after, config, late).Some?
            && (Smoothed(after, config, late).value.t < Smoothed(samples, config, early).value.t
                <==> Extrapolating(samples, config, early) && t.r < Target(samples, config, early) && HoldsNewest(after, config, late))
  {
    var after := AfterPush(samples, config, t, state, receivedAt);
    PushStepsBackIff(samples, config, early, t, state, receivedAt, late);
    AcceptedSuffix(samples, config, t, state, receivedAt);
    AnyFrameTime(samples, config, early);
    assert Target(samples, config, early) <= Target(after, config, late);
  }

  /** For example a sample at 1.1 that comes half a second late pulls the frame back from 1.5 to 1.1. */
  lemma LateSampleStepsBack(a: State, b: State, c: State)
    ensures var samples := [BufferedSample(0.0, 0.0, a), BufferedSample(1.0, 1.0, b)];
            var config := SmoothingConfig(LowLatency, 0.0, 1.0, 2.0, 512);
            var after := AfterPush(samples, config, Num(1.1), c, 1.6);
            && ResultOf(samples, Num(1.1)).Accepted?
            && Smoothed(samples, config, 1.5).Some? && Smoothed(samples, config, 1.5).value.t == 1.5
            && Smoothed(after, config, 1.6).Some? && Smoothed(after, config, 1.6).value.t == 1.1
  {
    var samples := [BufferedSample(0.0, 0.0, a), BufferedSample(1.0, 1.0, b)];
    var config := SmoothingConfig(LowLatency, 0.0, 1.0, 2.0, 512);
    var after := AfterPush(samples, config, Num(1.1), c, 1.6);
    AcceptedSuffix(samples, config, Num(1.1), c, 1.6);
    AnyFrameTime(samples, config, 1.5);
    AnyFrameTime(after, config, 1.6);
    assert Target(samples, config, 1.5) == 1.5 && Target(after, config, 1.6) == 1.1;
  }

  // ----- the buffer itself -----------------------------------------------------------------------

  class LiveFrameBuffer {
    const config: SmoothingConfig
    var samples: seq<BufferedSample>
    var stats: Stats
    ghost var pushes: nat
    ghost var frames: nat

    ghost predicate Valid()
      reads this
    {
      && Increasing(samples) && Bounded(samples, config)
      && stats.accepted + stats.outOfOrder + stats.invalid == pushes
      && stats.latest + stats.interpolated + stats.extrapolated + stats.held == frames
    }

    constructor (config: SmoothingConfig)
      ensures Valid() && this.config == config && samples == [] && pushes == 0 && frames == 0
    {
      this.config := config;
      samples, stats, pushes, frames := [], NO_STATS, 0, 0;
    }

    method Reset()
      modifies this
      ensures Valid() && samples == [] && stats == NO_STATS && pushes == 0 && frames == 0
    {
      samples, stats, pushes, frames := [], NO_STATS, 0, 0;
    }

    method Prune()
      modifies this`samples
      ensures samples == Pruned(old(samples), config)
    {
      while |samples| > config.maxSamples
        invariant DropExcess(samples, config.maxSamples) == DropExcess(old(samples), config.maxSamples)
        decreases |samples|
      {
        DropExcessStep(samples, config.maxSamples);
        samples := samples[1..];
      }
      if samples == [] {
        return;
      }
      ghost var some := samples;
      var minimum := samples[|samples| - 1].t - config.maxAge;
      while samples[0].t < minimum && |samples| > 2
        invariant samples != [] && DropOld(samples, minimum) == DropOld(some, minimum)
        decreases |samples|
      {
        samples := samples[1..];
      }
    }

    method Push(t: Float, state: State, receivedAt: real) returns (result: PushResult)
      requires Valid()
      modifies this
      ensures Valid()
      ensures samples == AfterPush(old(samples), config, t, state, receivedAt)
      ensures result == ResultOf(old(samples), t)
      ensures pushes == old(pushes) + 1 && frames == old(frames)
      ensures stats == match result
                       case Accepted => old(stats).(accepted := old(stats).accepted + 1)
                       case UpdatedDuplicate => old(stats).(accepted := old(stats).accepted + 1)
                       case DroppedInvalidTimestamp => old(stats).(invalid := old(stats).invalid + 1)
                       case DroppedOutOfOrder => old(stats).(outOfOrder := old(stats).outOfOrder + 1)
    {
      PushKeeps(samples, config, t, state, receivedAt);
      pushes := pushes + 1;
      if !t.Num? {
        stats := stats.(invalid := stats.invalid + 1);
        result := DroppedInvalidTimestamp;
      } else if samples != [] && t.r < samples[|samples| - 1].t {
        stats := stats.(outOfOrder := stats.outOfOrder + 1);
        result := DroppedOutOfOrder;
      } else if samples != [] && t.r == samples[|samples| - 1].t {
        samples := samples[|samples| - 1 := BufferedSample(t.r, receivedAt, state)];
        stats := stats.(accepted := stats.accepted + 1);
        result := UpdatedDuplicate;
      } else {
        samples := samples + [BufferedSample(t.r, receivedAt, state)];
        Prune();
        stats := stats.(accepted := stats.accepted + 1);
        result := Accepted;
      }
    }

    method ScanBracket(target: real) returns (frame: Frame)
      requires |samples| >= 2
      ensures frame == Bracketed(samples, target)
    {
      for index := 1 to |samples|
        invariant Bracket(samples, target, 1) == Bracket(samples, target, index)
      {
        var right := samples[index];
        if target <= right.t {
          if target == right.t {
            return Frame(right.t, right.state, Interpolated);
          }
          return Frame(target, InterpolateState(samples[index - 1], right, target), Interpolated);
        }
      }
      frame := Hold(samples[|samples| - 1]);
    }

    method SmoothedFrame(now: real) returns (frame: Option<Frame>)
      ensures frame == Smoothed(samples, config, now)
    {
      if samples == [] {
        return None;
      }
      var latest := samples[|samples| - 1];
      var target := latest.t + SaturatingSince(now, latest.receivedAt) - config.delay;
      if |samples| == 1 {
        return Some(Hold(latest));
      }
      if target <= samples[0].t {
        return Some(Hold(samples[0]));
      }
      if target > latest.t {
        if target - latest.t <= config.maxExtrapolation {
          return Some(Frame(target, InterpolateState(samples[|samples| - 2], latest, target), Extrapolated));
        }
        return Some(Hold(latest));
      }
      var inside := ScanBracket(target);
      frame := Some(inside);
    }

    method Render(now: real) returns (frame: Option<Frame>)
      requires Valid()
      modifies this`stats, this`frames
      ensures Valid() && samples == old(samples) && pushes == old(pushes)
      ensures frame == Rendered(samples, config, now)
      ensures frame.None? ==> stats == old(stats)
      ensures frame.Some? ==>
        stats == match frame.value.source
                 case LatestSource => old(stats).(latest := old(stats).latest + 1)
                 case Interpolated => old(stats).(interpolated := old(stats).interpolated + 1)
                 case Extrapolated => old(stats).(extrapolated := old(stats).extrapolated + 1)
                 case Held => old(stats).(held := old(stats).held + 1)
    {
      if config.mode.Latest? {
        frame := if samples == [] then None
                 else Some(Frame(samples[|samples| - 1].t, samples[|samples| - 1].state, LatestSource));
      } else {
        frame := SmoothedFrame(now);
      }
      if frame.None? {
        return;
      }
      frames := frames + 1;
      match frame.value.source {
        case LatestSource => stats := stats.(latest := stats.latest + 1);
        case Interpolated => stats := stats.(interpolated := stats.interpolated + 1);
        case Extrapolated => stats := stats.(extrapolated := stats.extrapolated + 1);
        case Held => stats := stats.(held := stats.held + 1);
      }
    }
  }
}
