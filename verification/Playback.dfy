/**
 The shared live/replay timeline.  `Inner` is the state behind the lock; every
 command and every poll is a function of it, of the store's time bounds and of the
 clock.  Clock instants are reals; `Instant` differences saturate at zero.
 */
module Playback {
  import opened Common
  import opened Sorting
  import opened Store
  import opened Timeline

  datatype Mode = Live | ReplayPaused | ReplayPlaying

  type Bounds = Option<(real, real)>

  datatype Inner = Inner(mode: Mode, cursor: Option<real>, speed: real, anchor: Option<real>, revision: nat)

  datatype Snapshot = Snapshot(mode: Mode, cursor: Option<real>, speed: real, bounds: Bounds, revision: nat)

  datatype Error = EmptyStore | InvalidTimestamp | InvalidSpeed | InvalidStepCount

  datatype Reply = Granted(snapshot: Snapshot) | Refused(error: Error)

  datatype ReplayConfig = ReplayConfig(defaultSpeed: real, minSpeed: real, maxSpeed: real)

  predicate ConfigValid(config: ReplayConfig) {
    0.0 < config.minSpeed <= config.defaultSpeed <= config.maxSpeed
  }

  predicate SpeedAccepted(config: ReplayConfig, speed: Float) {
    speed.Num? && config.minSpeed <= speed.r <= config.maxSpeed
  }

  function MaxReal(a: real, b: real): real { if a < b then b else a }

  function Elapsed(anchor: Option<real>, now: real): real {
    if anchor.Some? then SaturatingSince(now, anchor.value) else 0.0
  }

  /** `update_effective_cursor`, given how far playing has moved on since the last poll. */
  function PollBy(p: Inner, bounds: Bounds, now: real, gain: real): Inner {
    match bounds
    case None =>
      p.(cursor := None, anchor := None, mode := if p.mode.Live? then Live else ReplayPaused)
    case Some((start, end)) =>
      match p.mode
      case Live => p.(cursor := Some(end), anchor := None)
      case ReplayPaused => p.(cursor := Some(Clamp(p.cursor.GetOr(start), start, end)), anchor := None)
      case ReplayPlaying =>
        var next := p.cursor.GetOr(start) + gain;
        if next >= end then
          p.(cursor := Some(end), mode := ReplayPaused, anchor := None, revision := p.revision + 1)
        else
          p.(cursor := Some(MaxReal(next, start)), anchor := Some(now))
  }

  /** `update_effective_cursor`. */
  function Poll(p: Inner, bounds: Bounds, now: real): Inner {
    PollBy(p, bounds, now, Gain(p, now))
  }

  function Gain(p: Inner, now: real): real {
    Elapsed(p.anchor, now) * p.speed
  }

  function LiveCommand(p: Inner, bounds: Bounds): Inner {
    p.(mode := Live, cursor := if bounds.Some? then Some(bounds.value.1) else None, anchor := None, revision := p.revision + 1)
  }

  function PauseCommand(p: Inner, bounds: (real, real), now: real): Inner {
    var q := Poll(p, Some(bounds), now);
    q.(mode := ReplayPaused, cursor := Some(q.cursor.GetOr(bounds.1)), anchor := None, revision := q.revision + 1)
  }

  function SeekCommand(p: Inner, bounds: (real, real), t: real): Inner {
    p.(mode := ReplayPaused, cursor := Some(Clamp(t, bounds.0, bounds.1)), anchor := None, revision := p.revision + 1)
  }

  function Armed(q: Inner, bounds: (real, real), speed: Option<real>, now: real): Inner {
    q.(speed := speed.GetOr(q.speed),
       cursor := Some(Clamp(q.cursor.GetOr(bounds.0), bounds.0, bounds.1)),
       mode := ReplayPlaying, anchor := Some(now), revision := q.revision + 1)
  }

  function PlayCommand(p: Inner, bounds: (real, real), speed: Option<real>, now: real): Inner {
    Poll(Armed(Poll(p, Some(bounds), now), bounds, speed, now), Some(bounds), now)
  }

  function Sped(q: Inner, speed: real, now: real): Inner {
    q.(speed := speed, anchor := if q.mode.ReplayPlaying? then Some(now) else q.anchor, revision := q.revision + 1)
  }

  function SpeedCommand(p: Inner, bounds: Bounds, speed: real, now: real): Inner {
    Sped(Poll(p, bounds, now), speed, now)
  }

  function StepCommand(p: Inner, bounds: (real, real), target: Option<real>, now: real): Inner {
    var q := Poll(p, Some(bounds), now);
    var cursor := q.cursor.GetOr(bounds.1);
    q.(mode := ReplayPaused, cursor := Some(Clamp(target.GetOr(cursor), bounds.0, bounds.1)), anchor := None,
       revision := q.revision + 1)
  }

  function ResetTo(p: Inner, bounds: Bounds): Inner {
    p.(mode := ReplayPaused, cursor := if bounds.Some? then Some(bounds.value.0) else None, anchor := None,
       revision := p.revision + 1)
  }

  function SnapshotOf(p: Inner, bounds: Bounds): Snapshot {
    Snapshot(p.mode, p.cursor, p.speed, bounds, p.revision)
  }

  // ----- what every reachable state keeps -----------------------------------

  /** The invariant of the timeline: the cursor is inside the bounds and a playing state is armed. */
  ghost predicate Consistent(p: Inner, bounds: Bounds) {
    && p.speed > 0.0
    && (bounds.Some? ==> bounds.value.0 <= bounds.value.1)
    && (p.cursor.Some? ==> bounds.Some? && bounds.value.0 <= p.cursor.value <= bounds.value.1)
    && (p.mode.ReplayPlaying? ==> p.cursor.Some? && p.anchor.Some?)
  }

  /** Later states: a new revision, or the same one with a cursor that did not move back or vanish. */
  predicate NotBefore(p: Inner, q: Inner) {
    || p.revision < q.revision
    || (p.revision == q.revision && (p.cursor.Some? ==> q.cursor.Some? && p.cursor.value <= q.cursor.value))
  }

  lemma NotBeforeChains(p: Inner, q: Inner, r: Inner)
    requires NotBefore(p, q) && NotBefore(q, r)
    ensures NotBefore(p, r)
  {
  }

  /** `b` covers `a`: what appending to the store does to its time bounds. */
  predicate Expands(a: Bounds, b: Bounds) {
    && (b.Some? ==> b.value.0 <= b.value.1)
    && (a.Some? ==> b.Some? && b.value.0 <= a.value.0 && a.value.1 <= b.value.1)
  }

  lemma ProductNonNegative(a: real, b: real)
    requires a >= 0.0 && b >= 0.0
    ensures a * b >= 0.0
  {
  }

  lemma PollKeeps(p: Inner, bounds: Bounds, now: real)
    requires Consistent(p, bounds)
    ensures Consistent(Poll(p, bounds, now), bounds) && NotBefore(p, Poll(p, bounds, now))
  {
    ProductNonNegative(Elapsed(p.anchor, now), p.speed);
  }

  lemma GainsAdd(a: real, t1: real, t2: real, speed: real)
    requires a <= t1 <= t2 && speed >= 0.0
    ensures 0.0 <= (t1 - a) * speed
    ensures (t1 - a) * speed + (t2 - t1) * speed == (t2 - a) * speed
    ensures (t1 - a) * speed <= (t2 - a) * speed
  {
    ProductNonNegative(t1 - a, speed);
    ProductNonNegative(t2 - t1, speed);
    assert (t1 - a) * speed + (t2 - t1) * speed == ((t1 - a) + (t2 - t1)) * speed;
  }

  /** What is gained up to `t1` and from there on adds up, when polling at `t1` re-anchors there. */
  lemma GainsOf(p: Inner, q: Inner, t1: real, t2: real)
    requires p.speed > 0.0 && p.anchor.Some? && p.anchor.value <= t1 <= t2
    requires q.anchor == Some(t1) && q.speed == p.speed
    ensures 0.0 <= Gain(p, t1) <= Gain(p, t2) && Gain(p, t1) + Gain(q, t2) == Gain(p, t2)
  {
    assert Elapsed(p.anchor, t1) == t1 - p.anchor.value && Elapsed(p.anchor, t2) == t2 - p.anchor.value;
    assert Elapsed(q.anchor, t2) == t2 - t1;
    GainsAdd(p.anchor.value, t1, t2, p.speed);
  }

  lemma PollByTwice(p: Inner, bounds: Bounds, t1: real, t2: real, g1: real, rest: real, g2: real, other: real)
    requires Consistent(p, bounds) && (p.mode.ReplayPlaying? ==> 0.0 <= g1 <= g2 && g1 + rest == g2)
    requires PollBy(p, bounds, t1, g1).mode.ReplayPlaying? ==> other == rest
    ensures PollBy(PollBy(p, bounds, t1, g1), bounds, t2, other) == PollBy(p, bounds, t2, g2)
  {
  }

  /** An intermediate poll is invisible. */
  lemma PollTwice(p: Inner, bounds: Bounds, t1: real, t2: real)
    requires Consistent(p, bounds) && t1 <= t2
    requires p.anchor.Some? ==> p.anchor.value <= t1
    ensures Poll(Poll(p, bounds, t1), bounds, t2) == Poll(p, bounds, t2)
  {
    var q, reanchored := Poll(p, bounds, t1), p.(anchor := Some(t1));
    if p.mode.ReplayPlaying? {
      GainsOf(p, reanchored, t1, t2);
      PollAnchor(p, bounds, t1);
      if q.mode.ReplayPlaying? {
        SameGain(q, reanchored, t2);
      }
    }
    PollByTwice(p, bounds, t1, t2, Gain(p, t1), Gain(reanchored, t2), Gain(p, t2), Gain(q, t2));
  }

  lemma SameGain(p: Inner, q: Inner, now: real)
    requires p.anchor == q.anchor && p.speed == q.speed
    ensures Gain(p, now) == Gain(q, now)
  {
  }

  function PollMany(p: Inner, bounds: Bounds, times: seq<real>): Inner
    decreases |times|
  {
    if times == [] then p else PollMany(Poll(p, bounds, times[0]), bounds, times[1..])
  }

  lemma PollAnchor(p: Inner, bounds: Bounds, now: real)
    requires Consistent(p, bounds)
    ensures Poll(p, bounds, now).anchor.Some? ==> Poll(p, bounds, now).anchor.value == now
    ensures Poll(p, bounds, now).mode.ReplayPlaying? ==> Poll(p, bounds, now).anchor.Some? && Poll(p, bounds, now).speed == p.speed
  {
  }

  /**
   Polling independence: with fixed bounds, any number of intermediate polls leaves
   exactly the state that the last poll alone would have produced.
   */
  lemma {:induction false} PollingIndependence(p: Inner, bounds: Bounds, times: seq<real>, last: real)
    requires Consistent(p, bounds)
    requires p.anchor.Some? ==> forall t :: t in times + [last] ==> p.anchor.value <= t
    requires forall i, j :: 0 <= i < j < |times + [last]| ==> (times + [last])[i] <= (times + [last])[j]
    ensures PollMany(p, bounds, times + [last]) == Poll(p, bounds, last)
    decreases |times|
  {
    var all := times + [last];
    if times == [] {
      assert all[1..] == [];
    } else {
      var q := Poll(p, bounds, times[0]);
      assert all[1..] == times[1..] + [last];
      assert all[0] in all && all[0] <= all[|all| - 1];
      PollKeeps(p, bounds, times[0]);
      PollAnchor(p, bounds, times[0]);
      forall t | t in times[1..] + [last]
        ensures times[0] <= t
      {
        var i :| 0 <= i < |all[1..]| && all[1..][i] == t;
        assert all[i + 1] == t;
      }
      forall i, j | 0 <= i < j < |times[1..] + [last]|
        ensures (times[1..] + [last])[i] <= (times[1..] + [last])[j]
      {
        assert all[i + 1] <= all[j + 1];
      }
      PollingIndependence(q, bounds, times[1..], last);
      PollTwice(p, bounds, times[0], last);
    }
  }

  /**
   Without the invariant the law fails: an armed playing state is independent of
   intermediate polls exactly when its cursor has not fallen below the bounds.
   */
  lemma IndependentIffCursorInBounds(p: Inner, start: real, end: real)
    requires p.mode.ReplayPlaying? && p.speed > 0.0 && p.cursor.Some? && p.anchor.Some?
    requires start <= end && p.cursor.value <= end
    ensures (forall t1, t2 :: p.anchor.value <= t1 <= t2 ==>
               Poll(Poll(p, Some((start, end)), t1), Some((start, end)), t2) == Poll(p, Some((start, end)), t2))
            <==> start <= p.cursor.value
  {
    var b: Bounds := Some((start, end));
    var a, base := p.anchor.value, p.cursor.value;
    if start <= base {
      forall t1, t2 | a <= t1 <= t2
        ensures Poll(Poll(p, b, t1), b, t2) == Poll(p, b, t2)
      {
        PollTwice(p, b, t1, t2);
      }
    } else {
      var half := (end - start) / 2.0;
      var t2 := a + half / p.speed;
      ProductNonNegative(half, 1.0 / p.speed);
      assert half / p.speed == half * (1.0 / p.speed);
      assert (t2 - a) * p.speed == half;
      assert Elapsed(p.anchor, a) * p.speed == 0.0;
      assert Poll(p, b, a).cursor == Some(start) && Poll(p, b, a).anchor == Some(a);
      assert Poll(Poll(p, b, a), b, t2) != Poll(p, b, t2);
      assert a <= a <= t2;
    }
  }

  /**
   `snapshot` reads the bounds before it takes the lock.  A poll with outdated bounds
   moves a present cursor back without a new revision exactly when it is not playing
   and those bounds end before the cursor.
   */
  lemma StaleBoundsIff(p: Inner, current: Bounds, start: real, end: real, now: real)
    requires Consistent(p, current) && p.cursor.Some? && start <= end
    ensures !NotBefore(p, Poll(p, Some((start, end)), now)) <==> !p.mode.ReplayPlaying? && end < p.cursor.value
  {
    ProductNonNegative(Elapsed(p.anchor, now), p.speed);
  }

  /** For example live at 5, polled with bounds that were read when the store ended at 3. */
  lemma StaleBoundsExample(now: real)
    ensures var p, current := Inner(Live, Some(5.0), 1.0, None, 0), Some((0.0, 5.0));
            var q := Poll(p, Some((0.0, 3.0)), now);
            && Consistent(p, current) && Poll(p, current, now) == p
            && q.cursor == Some(3.0) && q.revision == p.revision
  {
    var p := Inner(Live, Some(5.0), 1.0, None, 0);
    StaleBoundsIff(p, Some((0.0, 5.0)), 0.0, 3.0, now);
  }

  // ----- whole runs ------------------------------------------------------------

  /** Everything that can happen to the timeline and to the bounds of the store under it. */
  datatype Action =
    | PollAt(now: real)
    | GoLive
    | Pause(now: real)
    | Seek(to: Float)
    | Play(speed: Option<Float>, now: real)
    | SetSpeed(newSpeed: Float, now: real)
    | Step(count: nat, target: Option<real>, now: real)
    | Replace(bounds: Bounds)  // clear or load, with the playback reset that follows it
    | Append(grown: Bounds)

  datatype World = World(inner: Inner, bounds: Bounds)

  function Apply(config: ReplayConfig, w: World, action: Action): World {
    match action
    case PollAt(now) => w.(inner := Poll(w.inner, w.bounds, now))
    case GoLive => w.(inner := LiveCommand(w.inner, w.bounds))
    case Pause(now) => if w.bounds.None? then w else w.(inner := PauseCommand(w.inner, w.bounds.value, now))
    case Seek(to) => if !to.Num? || w.bounds.None? then w else w.(inner := SeekCommand(w.inner, w.bounds.value, to.r))
    case Play(speed, now) =>
      if (speed.Some? && !SpeedAccepted(config, speed.value)) || w.bounds.None? then w
      else w.(inner := PlayCommand(w.inner, w.bounds.value, if speed.Some? then Some(speed.value.r) else None, now))
    case SetSpeed(speed, now) =>
      if !SpeedAccepted(config, speed) then w else w.(inner := SpeedCommand(w.inner, w.bounds, speed.r, now))
    case Step(count, target, now) =>
      if !(1 <= count <= 100) || w.bounds.None? then w
      else w.(inner := StepCommand(w.inner, w.bounds.value, target, now))
    case Replace(bounds) => World(ResetTo(w.inner, bounds), bounds)
    case Append(grown) => w.(bounds := grown)
  }

  ghost predicate Allowed(w: World, action: Action) {
    match action
    case Replace(bounds) => bounds.Some? ==> bounds.value.0 <= bounds.value.1
    case Append(grown) => Expands(w.bounds, grown)
    case _ => true
  }

  function Initial(config: ReplayConfig): World {
    World(Inner(Live, None, config.defaultSpeed, None, 0), None)
  }

  ghost predicate Run(config: ReplayConfig, worlds: seq<World>, actions: seq<Action>) {
    && |worlds| == |actions| + 1
    && worlds[0] == Initial(config)
    && forall i :: 0 <= i < |actions| ==>
         Allowed(worlds[i], actions[i]) && worlds[i + 1] == Apply(config, worlds[i], actions[i])
  }

  /** Every command, poll, reset and append keeps the invariant and never moves the timeline back. */
  lemma ApplyKeeps(config: ReplayConfig, w: World, action: Action)
    requires ConfigValid(config) && Consistent(w.inner, w.bounds) && Allowed(w, action)
    ensures Consistent(Apply(config, w, action).inner, Apply(config, w, action).bounds)
    ensures NotBefore(w.inner, Apply(config, w, action).inner)
  {
    match action
    case PollAt(now) => PollKeeps(w.inner, w.bounds, now);
    case Pause(now) => PollKeeps(w.inner, w.bounds, now);
    case Play(speed, now) =>
      if w.bounds.Some? && (speed.Some? ==> SpeedAccepted(config, speed.value)) {
        var q := Poll(w.inner, w.bounds, now);
        PollKeeps(w.inner, w.bounds, now);
        var armed := Armed(q, w.bounds.value, if speed.Some? then Some(speed.value.r) else None, now);
        PollKeeps(armed, w.bounds, now);
      }
    case SetSpeed(speed, now) => PollKeeps(w.inner, w.bounds, now);
    case Step(count, target, now) => PollKeeps(w.inner, w.bounds, now);
    case _ =>
  }

  lemma {:induction false} RunConsistent(config: ReplayConfig, worlds: seq<World>, actions: seq<Action>, i: nat)
    requires ConfigValid(config) && Run(config, worlds, actions) && i < |worlds|
    ensures Consistent(worlds[i].inner, worlds[i].bounds)
  {
    if i > 0 {
      RunConsistent(config, worlds, actions, i - 1);
      ApplyKeeps(config, worlds[i - 1], actions[i - 1]);
    }
  }

  lemma {:induction false} RunNotBefore(config: ReplayConfig, worlds: seq<World>, actions: seq<Action>, i: nat, j: nat)
    requires ConfigValid(config) && Run(config, worlds, actions) && i <= j < |worlds|
    ensures NotBefore(worlds[i].inner, worlds[j].inner)
    decreases j - i
  {
    if i < j {
      RunNotBefore(config, worlds, actions, i, j - 1);
      RunConsistent(config, worlds, actions, j - 1);
      ApplyKeeps(config, worlds[j - 1], actions[j - 1]);
      NotBeforeChains(worlds[i].inner, worlds[j - 1].inner, worlds[j].inner);
    }
  }

  /**
   Over every run: two moments with equal revision and a cursor present at the first
   never show it moving back, and every present cursor lies in the bounds of its moment.
   */
  lemma CursorNeverMovesBack(config: ReplayConfig, worlds: seq<World>, actions: seq<Action>, i: nat, j: nat)
    requires ConfigValid(config) && Run(config, worlds, actions) && i <= j < |worlds|
    ensures worlds[i].inner.revision <= worlds[j].inner.revision
    ensures worlds[i].inner.revision == worlds[j].inner.revision && worlds[i].inner.cursor.Some? ==>
              worlds[j].inner.cursor.Some? && worlds[i].inner.cursor.value <= worlds[j].inner.cursor.value
    ensures worlds[j].inner.cursor.Some? ==>
              worlds[j].bounds.Some? && worlds[j].bounds.value.0 <= worlds[j].inner.cursor.value <= worlds[j].bounds.value.1
  {
    RunConsistent(config, worlds, actions, j);
    RunNotBefore(config, worlds, actions, i, j);
  }

  /** In a run, playing never starts below the bounds, so the polling law holds at every moment. */
  lemma RunPollsIndependent(config: ReplayConfig, worlds: seq<World>, actions: seq<Action>, i: nat, times: seq<real>, last: real)
    requires ConfigValid(config) && Run(config, worlds, actions) && i < |worlds|
    requires worlds[i].inner.anchor.Some? ==> forall t :: t in times + [last] ==> worlds[i].inner.anchor.value <= t
    requires forall j, k :: 0 <= j < k < |times + [last]| ==> (times + [last])[j] <= (times + [last])[k]
    ensures PollMany(worlds[i].inner, worlds[i].bounds, times + [last]) == Poll(worlds[i].inner, worlds[i].bounds, last)
  {
    RunConsistent(config, worlds, actions, i);
    PollingIndependence(worlds[i].inner, worlds[i].bounds, times, last);
  }

  // ----- the bounds of the store ----------------------------------------------

  ghost function AllSeriesStamps(series: Series): set<real> {
    StampsOf(series.states) + StampsOf(series.events) + StampsOf(series.telemetry)
  }

  ghost function StampsIn(data: Data, ids: set<AircraftId>): set<real>
    requires ids <= data.Keys
  {
    set id, x | id in ids && x in AllSeriesStamps(data[id]) :: x
  }

  ghost predicate IsBounds(stamps: set<real>, bounds: Bounds) {
    match bounds
    case None => stamps == {}
    case Some((start, end)) => start in stamps && end in stamps && forall x :: x in stamps ==> start <= x <= end
  }

  function Ends<V>(s: seq<Sample<V>>): Bounds {
    if s == [] then None else Some((s[0].t, s[|s| - 1].t))
  }

  function Union(a: Bounds, b: Bounds): Bounds {
    match (a, b)
    case (None, _) => b
    case (_, None) => a
    case (Some((s, e)), Some((s', e'))) => Some((if s' < s then s' else s, if e < e' then e' else e))
  }

  lemma EndsAreBounds<V(!new)>(s: seq<Sample<V>>)
    requires Sorted(s, ByTime())
    ensures IsBounds(StampsOf(s), Ends(s))
  {
    if s == [] {
      assert StampsOf(s) == {};
    } else {
      assert s[0].t in StampsOf(s) && s[|s| - 1].t in StampsOf(s);
      forall i | 0 <= i < |s|
        ensures s[0].t <= s[i].t <= s[|s| - 1].t
      {
        assert 0 < i ==> ByTime<V>()(s[0], s[i]);
        assert i < |s| - 1 ==> ByTime<V>()(s[i], s[|s| - 1]);
      }
    }
  }

  lemma UnionIsBounds(a: set<real>, b: set<real>, x: Bounds, y: Bounds)
    requires IsBounds(a, x) && IsBounds(b, y)
    ensures IsBounds(a + b, Union(x, y))
  {
    if x.None? && y.None? {
      assert a + b == {};
    }
  }

  function SeriesBounds(series: Series): Bounds {
    Union(Union(Ends(series.states), Ends(series.events)), Ends(series.telemetry))
  }

  lemma SeriesBoundsCorrect(series: Series)
    requires Sorted(series.states, ByTime()) && Sorted(series.events, ByTime()) && Sorted(series.telemetry, ByTime())
    ensures IsBounds(AllSeriesStamps(series), SeriesBounds(series))
  {
    EndsAreBounds(series.states);
    EndsAreBounds(series.events);
    EndsAreBounds(series.telemetry);
    UnionIsBounds(StampsOf(series.states), StampsOf(series.events), Ends(series.states), Ends(series.events));
    UnionIsBounds(StampsOf(series.states) + StampsOf(series.events), StampsOf(series.telemetry),
                  Union(Ends(series.states), Ends(series.events)), Ends(series.telemetry));
  }

  lemma OneMoreSeries(data: Data, done: set<AircraftId>, id: AircraftId, bounds: Bounds)
    requires WellFormed(data) && done <= data.Keys && id in data
    requires IsBounds(StampsIn(data, done), bounds)
    ensures IsBounds(StampsIn(data, done + {id}), Union(bounds, SeriesBounds(data[id])))
  {
    SeriesBoundsCorrect(data[id]);
    UnionIsBounds(StampsIn(data, done), AllSeriesStamps(data[id]), bounds, SeriesBounds(data[id]));
    assert StampsIn(data, done + {id}) == StampsIn(data, done) + AllSeriesStamps(data[id]);
  }

  /** `active_time_bounds`: the least and greatest stored timestamp, whatever the iteration order. */
  method ActiveTimeBounds(data: Data) returns (bounds: Bounds)
    requires WellFormed(data)
    ensures IsBounds(StampsIn(data, data.Keys), bounds)
  {
    bounds := None;
    var ids := data.Keys;
    while ids != {}
      invariant ids <= data.Keys
      invariant IsBounds(StampsIn(data, data.Keys - ids), bounds)
      decreases |ids|
    {
      SomeMember(ids);
      var id :| id in ids;
      OneMoreSeries(data, data.Keys - ids, id, bounds);
      assert data.Keys - ids + {id} == data.Keys - (ids - {id});
      ids := ids - {id};
      bounds := Union(bounds, SeriesBounds(data[id]));
    }
    assert data.Keys - ids == data.Keys;
  }

  lemma MoreStampsExpand(a: set<real>, b: set<real>, x: Bounds, y: Bounds)
    requires a <= b && IsBounds(a, x) && IsBounds(b, y)
    ensures Expands(x, y)
  {
  }

  lemma InsertKeepsStamps<V>(s: seq<Sample<V>>, e: Sample<V>)
    ensures StampsOf(s) <= StampsOf(Insert(s, e, ByTime()))
  {
    var k, r := PartitionPoint(s, NotAfter(ByTime(), e)), Insert(s, e, ByTime());
    forall i | 0 <= i < |s|
      ensures s[i].t in StampsOf(r)
    {
      assert s[i] == r[if i < k then i else i + 1];
    }
  }

  lemma SeriesGrowthExpands(data: Data, id: AircraftId, series: Series, x: Bounds, y: Bounds)
    requires AllSeriesStamps(SeriesOf(data, id)) <= AllSeriesStamps(series)
    requires IsBounds(StampsIn(data, data.Keys), x)
    requires IsBounds(StampsIn(data[id := series], data[id := series].Keys), y)
    ensures Expands(x, y)
  {
    var after := data[id := series];
    forall z | z in StampsIn(data, data.Keys)
      ensures z in StampsIn(after, after.Keys)
    {
      var i :| i in data.Keys && z in AllSeriesStamps(data[i]);
      assert i in after.Keys && z in AllSeriesStamps(after[i]);
    }
    MoreStampsExpand(StampsIn(data, data.Keys), StampsIn(after, after.Keys), x, y);
  }

  /** Appending a state, an event or a telemetry frame only ever widens the time bounds. */
  lemma AppendExpandsBounds(data: Data, id: AircraftId, t: real, state: Bytes, event: Event, frame: TelemetryFrame,
                            x: Bounds, y: Bounds)
    requires IsBounds(StampsIn(data, data.Keys), x)
    ensures IsBounds(StampsIn(WithState(data, id, t, state), WithState(data, id, t, state).Keys), y) ==> Expands(x, y)
    ensures IsBounds(StampsIn(WithEvent(data, id, t, event), WithEvent(data, id, t, event).Keys), y) ==> Expands(x, y)
    ensures id in data && IsBounds(StampsIn(WithTelemetry(data, id, t, frame), WithTelemetry(data, id, t, frame).Keys), y)
            ==> Expands(x, y)
  {
    var series := SeriesOf(data, id);
    InsertKeepsStamps(series.states, Sample(t, state));
    InsertKeepsStamps(series.events, Sample(t, event));
    InsertKeepsStamps(series.telemetry, Sample(t, frame));
    var s1 := WithState(data, id, t, state)[id];
    var s2 := WithEvent(data, id, t, event)[id];
    if IsBounds(StampsIn(data[id := s1], data[id := s1].Keys), y) {
      SeriesGrowthExpands(data, id, s1, x, y);
    }
    if IsBounds(StampsIn(data[id := s2], data[id := s2].Keys), y) {
      SeriesGrowthExpands(data, id, s2, x, y);
    }
    if id in data {
      var s3 := WithTelemetry(data, id, t, frame)[id];
      if IsBounds(StampsIn(data[id := s3], data[id := s3].Keys), y) {
        SeriesGrowthExpands(data, id, s3, x, y);
      }
    }
  }

  // ----- what stepping and playing lead to ----------------------------------------

  /** Every stored timestamp of one kind lies in the bounds of the store. */
  lemma StampsInBounds(data: Data, kind: EntryKind, bounds: (real, real), t: real)
    requires IsBounds(StampsIn(data, data.Keys), Some(bounds)) && t in Stamps(data, kind)
    ensures bounds.0 <= t <= bounds.1
  {
    var id :| id in data.Keys && t in SeriesStamps(data[id], kind);
    assert t in AllSeriesStamps(data[id]);
    assert t in StampsIn(data, data.Keys);
  }

  /** A step lands exactly on the min(count, available)-th neighbour, or stays: the clamp never moves it. */
  lemma StepLandsOnNeighbour(data: Data, p: Inner, bounds: (real, real), kind: EntryKind, forward: bool, count: nat,
                             target: Option<real>, now: real)
    requires IsBounds(StampsIn(data, data.Keys), Some(bounds)) && Consistent(p, Some(bounds))
    requires Poll(p, Some(bounds), now).cursor.Some?
    requires Steps(Stamps(data, kind), Poll(p, Some(bounds), now).cursor.value, count, forward, target)
    ensures var q := StepCommand(p, bounds, target, now);
            && q.mode == ReplayPaused && q.revision > p.revision
            && q.cursor == Some(target.GetOr(Poll(p, Some(bounds), now).cursor.value))
  {
    PollKeeps(p, Some(bounds), now);
    if target.Some? {
      StampsInBounds(data, kind, bounds, target.value);
    }
  }

  /** Stepping `count` entries one way and as many back returns a paused timeline to the stored timestamp it left. */
  lemma StepsCancel(data: Data, p: Inner, bounds: (real, real), kind: EntryKind, forward: bool, count: nat,
                    there: Option<real>, back: Option<real>, t1: real, t2: real)
    requires IsBounds(StampsIn(data, data.Keys), Some(bounds)) && Consistent(p, Some(bounds))
    requires p.mode.ReplayPaused? && p.cursor.Some? && p.cursor.value in Stamps(data, kind)
    requires 0 < count <= |Beyond(Stamps(data, kind), p.cursor.value, forward)|
    requires Steps(Stamps(data, kind), p.cursor.value, count, forward, there) && there.Some?
    requires Steps(Stamps(data, kind), there.value, count, !forward, back)
    ensures StepCommand(StepCommand(p, bounds, there, t1), bounds, back, t2).cursor == p.cursor
  {
    StepLandsOnNeighbour(data, p, bounds, kind, forward, count, there, t1);
    StepThereAndBack(Stamps(data, kind), p.cursor.value, count, forward, there, back);
    StampsInBounds(data, kind, bounds, p.cursor.value);
    StampsInBounds(data, kind, bounds, there.value);
  }

  /** Play starts playing exactly when the effective cursor is before the end; at the end it pauses again at once. */
  lemma PlayStartsIff(p: Inner, bounds: (real, real), speed: Option<real>, now: real)
    requires Consistent(p, Some(bounds))
    ensures var from, q := Poll(p, Some(bounds), now).cursor, PlayCommand(p, bounds, speed, now);
            && from.Some? && q.cursor == from
            && (q.mode.ReplayPlaying? <==> from.value < bounds.1)
            && (from.value == bounds.1 ==> q.mode == ReplayPaused && q.revision >= p.revision + 2)
  {
    PollKeeps(p, Some(bounds), now);
    assert Elapsed(Some(now), now) == 0.0;
  }

  // ----- the controller ---------------------------------------------------------

  class PlaybackController {
    const store: TimeSeriesStore
    const config: ReplayConfig
    var mode: Mode
    var cursor: Option<real>
    var speed: real
    var anchor: Option<real>
    var revision: nat

    function State(): Inner
      reads this
    {
      Inner(mode, cursor, speed, anchor, revision)
    }

    function View(bounds: Bounds): Snapshot
      reads this
    {
      SnapshotOf(State(), bounds)
    }

    ghost predicate BoundsNow(bounds: Bounds)
      reads store
    {
      IsBounds(StampsIn(store.data, store.data.Keys), bounds)
    }

    constructor (store: TimeSeriesStore, config: ReplayConfig)
      requires ConfigValid(config)
      ensures this.store == store && this.config == config && State() == Initial(config).inner
    {
      this.store := store;
      this.config := config;
      mode, cursor, speed, anchor, revision := Live, None, config.defaultSpeed, None, 0;
    }

    method ReadBounds() returns (bounds: Bounds)
      requires store.Valid()
      ensures BoundsNow(bounds)
    {
      RepresentsSorted(store.data, store.history);
      bounds := ActiveTimeBounds(store.data);
    }

    method UpdateEffectiveCursor(bounds: Bounds, now: real)
      modifies this
      ensures State() == Poll(old(State()), bounds, now)
    {
      if bounds.None? {
        cursor := None;
        anchor := None;
        if mode == Live {
          return;
        }
        mode := ReplayPaused;
        return;
      }
      var (start, end) := bounds.value;
      match mode
      case Live =>
        cursor := Some(end);
        anchor := None;
      case ReplayPaused =>
        cursor := Some(Clamp(cursor.GetOr(start), start, end));
        anchor := None;
      case ReplayPlaying =>
        var next := cursor.GetOr(start) + Gain(State(), now);
        if next >= end {
          cursor := Some(end);
          mode := ReplayPaused;
          anchor := None;
          revision := revision + 1;
        } else {
          cursor := Some(MaxReal(next, start));
          anchor := Some(now);
        }
    }

    method TakeSnapshot(now: real) returns (snapshot: Snapshot)
      requires store.Valid()
      modifies this
      ensures BoundsNow(snapshot.bounds)
      ensures State() == Poll(old(State()), snapshot.bounds, now) && snapshot == View(snapshot.bounds)
    {
      var bounds := ReadBounds();
      UpdateEffectiveCursor(bounds, now);
      snapshot := View(bounds);
    }

    method PausePlayback(now: real) returns (reply: Reply)
      requires store.Valid()
      modifies this
      ensures reply.Refused? ==> reply.error == EmptyStore && BoundsNow(None) && State() == old(State())
      ensures reply.Granted? ==>
        && reply.snapshot.bounds.Some? && BoundsNow(reply.snapshot.bounds)
        && State() == PauseCommand(old(State()), reply.snapshot.bounds.value, now)
        && reply.snapshot == View(reply.snapshot.bounds)
    {
      var bounds := ReadBounds();
      if bounds.None? {
        return Refused(EmptyStore);
      }
      UpdateEffectiveCursor(bounds, now);
      Halt(ReplayPaused, Some(cursor.GetOr(bounds.value.1)));
      reply := Granted(View(bounds));
    }

    method PlayFromCursor(speed: Option<Float>, now: real) returns (reply: Reply)
      requires store.Valid()
      modifies this
      ensures reply.Refused? ==>
        && State() == old(State())
        && (reply.error == InvalidSpeed <==> speed.Some? && !SpeedAccepted(config, speed.value))
        && (reply.error != InvalidSpeed ==> reply.error == EmptyStore && BoundsNow(None))
      ensures reply.Granted? ==>
        && (speed.Some? ==> SpeedAccepted(config, speed.value))
        && reply.snapshot.bounds.Some? && BoundsNow(reply.snapshot.bounds)
        && State() == PlayCommand(old(State()), reply.snapshot.bounds.value,
                                  if speed.Some? then Some(speed.value.r) else None, now)
        && reply.snapshot == View(reply.snapshot.bounds)
    {
      if speed.Some? && !SpeedAccepted(config, speed.value) {
        return Refused(InvalidSpeed);
      }
      var bounds := ReadBounds();
      if bounds.None? {
        return Refused(EmptyStore);
      }
      UpdateEffectiveCursor(bounds, now);
      Arm(bounds.value, if speed.Some? then Some(speed.value.r) else None, now);
      UpdateEffectiveCursor(bounds, now);
      reply := Granted(View(bounds));
    }

    method Arm(bounds: (real, real), newSpeed: Option<real>, now: real)
      modifies this
      ensures State() == Armed(old(State()), bounds, newSpeed, now)
    {
      if newSpeed.Some? {
        speed := newSpeed.value;
      }
      cursor := Some(Clamp(cursor.GetOr(bounds.0), bounds.0, bounds.1));
      mode := ReplayPlaying;
      anchor := Some(now);
      revision := revision + 1;
    }

    method PauseAt(to: real, bounds: (real, real))
      modifies this
      ensures State() == old(State()).(mode := ReplayPaused, cursor := Some(Clamp(to, bounds.0, bounds.1)), anchor := None,
                                       revision := old(State()).revision + 1)
    {
      Halt(ReplayPaused, Some(Clamp(to, bounds.0, bounds.1)));
    }

    /** Stop playing under a new revision. */
    method Halt(newMode: Mode, at: Option<real>)
      modifies this
      ensures State() == old(State()).(mode := newMode, cursor := at, anchor := None, revision := old(State()).revision + 1)
    {
      mode := newMode;
      cursor := at;
      anchor := None;
      revision := revision + 1;
    }

    method StepTimeline(kind: EntryKind, forward: bool, count: nat, now: real) returns (reply: Reply)
      requires store.Valid()
      modifies this
      ensures reply.Refused? ==>
        && State() == old(State())
        && (reply.error == InvalidStepCount <==> !(1 <= count <= 100))
        && (reply.error != InvalidStepCount ==> reply.error == EmptyStore && BoundsNow(None))
      ensures reply.Granted? ==>
        && 1 <= count <= 100 && reply.snapshot.bounds.Some? && BoundsNow(reply.snapshot.bounds)
        && var bounds := reply.snapshot.bounds.value;
           var from := Poll(old(State()), reply.snapshot.bounds, now).cursor.GetOr(bounds.1);
           exists target :: Steps(Stamps(store.data, kind), from, count, forward, target)
             && State() == StepCommand(old(State()), bounds, target, now)
      ensures reply.Granted? ==> reply.snapshot == View(reply.snapshot.bounds)
    {
      if !(1 <= count <= 100) {
        return Refused(InvalidStepCount);
      }
      var bounds := ReadBounds();
      if bounds.None? {
        return Refused(EmptyStore);
      }
      UpdateEffectiveCursor(bounds, now);
      var from := cursor.GetOr(bounds.value.1);
      RepresentsSorted(store.data, store.history);
      var target := AdjacentGlobalTimestamp(store.data, Num(from), count, kind, forward);
      PauseAt(target.GetOr(from), bounds.value);
      reply := Granted(View(bounds));
    }

    method SetPlaybackSpeed(newSpeed: Float, now: real) returns (reply: Reply)
      requires store.Valid()
      modifies this
      ensures reply.Refused? <==> !SpeedAccepted(config, newSpeed)
      ensures reply.Refused? ==> reply.error == InvalidSpeed && State() == old(State())
      ensures reply.Granted? ==>
        && BoundsNow(reply.snapshot.bounds)
        && State() == SpeedCommand(old(State()), reply.snapshot.bounds, newSpeed.r, now)
        && reply.snapshot == View(reply.snapshot.bounds)
    {
      if !SpeedAccepted(config, newSpeed) {
        return Refused(InvalidSpeed);
      }
      var bounds := ReadBounds();
      UpdateEffectiveCursor(bounds, now);
      ChangeSpeed(newSpeed.r, now);
      reply := Granted(View(bounds));
    }

    method ChangeSpeed(newSpeed: real, now: real)
      modifies this
      ensures State() == Sped(old(State()), newSpeed, now)
    {
      speed := newSpeed;
      if mode == ReplayPlaying {
        anchor := Some(now);
      }
      revision := revision + 1;
    }

    method SeekTo(t: Float) returns (reply: Reply)
      requires store.Valid()
      modifies this
      ensures reply.Refused? ==>
        && State() == old(State())
        && (reply.error == InvalidTimestamp <==> !t.Num?)
        && (reply.error != InvalidTimestamp ==> reply.error == EmptyStore && BoundsNow(None))
      ensures reply.Granted? ==>
        && t.Num? && reply.snapshot.bounds.Some? && BoundsNow(reply.snapshot.bounds)
        && State() == SeekCommand(old(State()), reply.snapshot.bounds.value, t.r)
        && reply.snapshot == View(reply.snapshot.bounds)
    {
      if !t.Num? {
        return Refused(InvalidTimestamp);
      }
      var bounds := ReadBounds();
      if bounds.None? {
        return Refused(EmptyStore);
      }
      PauseAt(t.r, bounds.value);
      reply := Granted(View(bounds));
    }

    method ReturnToLive() returns (snapshot: Snapshot)
      requires store.Valid()
      modifies this
      ensures BoundsNow(snapshot.bounds)
      ensures State() == LiveCommand(old(State()), snapshot.bounds) && snapshot == View(snapshot.bounds)
    {
      var bounds := ReadBounds();
      Halt(Live, if bounds.Some? then Some(bounds.value.1) else None);
      snapshot := View(bounds);
    }

    method ResetEmpty() returns (snapshot: Snapshot)
      modifies this
      ensures State() == ResetTo(old(State()), None) && snapshot == View(None)
    {
      Halt(ReplayPaused, None);
      snapshot := View(None);
    }

    method ResetAfterLoad() returns (snapshot: Snapshot)
      requires store.Valid()
      modifies this
      ensures BoundsNow(snapshot.bounds)
      ensures State() == ResetTo(old(State()), snapshot.bounds) && snapshot == View(snapshot.bounds)
    {
      var bounds := ReadBounds();
      Halt(ReplayPaused, if bounds.Some? then Some(bounds.value.0) else None);
      snapshot := View(bounds);
    }
  }
}
