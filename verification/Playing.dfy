/**
 How far playing moves the cursor, stated without the functions that compute it: at the
 speed last asked for, from the instant and the cursor at which playing was (re)started,
 and never past the end of the bounds.
 */
module Playing {
  import opened Common
  import opened Playback

  /** How far the cursor goes at `speed` in `passed` seconds. */
  function Way(speed: real, passed: real): real { speed * passed }

  /** Where playing from `cursor` at `speed` has got to after `passed` seconds, given the end of the bounds. */
  function Reached(cursor: real, speed: real, passed: real, end: real): real {
    if cursor + Way(speed, passed) < end then cursor + Way(speed, passed) else end
  }

  /** One poll of a playing timeline: the cursor after it, and that it plays on exactly before the end. */
  lemma PollAdvances(p: Inner, start: real, end: real, now: real)
    requires Consistent(p, Some((start, end))) && p.mode.ReplayPlaying?
    ensures var q := Poll(p, Some((start, end)), now);
            var passed := if p.anchor.value < now then now - p.anchor.value else 0.0;
            && q.cursor == Some(Reached(p.cursor.value, p.speed, passed, end))
            && (q.mode.ReplayPlaying? <==> q.cursor.value < end)
            && (q.mode.ReplayPlaying? ==> q == p.(cursor := q.cursor, anchor := Some(now)))
            && (!q.mode.ReplayPlaying? ==> q == Inner(ReplayPaused, Some(end), p.speed, None, p.revision + 1))
  {
    var passed := if p.anchor.value < now then now - p.anchor.value else 0.0;
    assert Elapsed(p.anchor, now) == passed;
    ProductNonNegative(passed, p.speed);
    assert Gain(p, now) == Way(p.speed, passed);
  }

  // ----- the speed in force ---------------------------------------------------

  /** The speed the last accepted command of the first `n` asked for, the configured one before that. */
  ghost function SpeedAsked(config: ReplayConfig, worlds: seq<World>, actions: seq<Action>, n: nat): real
    requires n <= |actions| < |worlds|
  {
    if n == 0 then config.defaultSpeed else
    match actions[n - 1]
    case Play(Some(speed), _) =>
      if SpeedAccepted(config, speed) && worlds[n - 1].bounds.Some? then speed.r
      else SpeedAsked(config, worlds, actions, n - 1)
    case SetSpeed(speed, _) =>
      if SpeedAccepted(config, speed) then speed.r else SpeedAsked(config, worlds, actions, n - 1)
    case _ => SpeedAsked(config, worlds, actions, n - 1)
  }

  lemma PollKeepsSpeed(p: Inner, bounds: Bounds, now: real)
    ensures Poll(p, bounds, now).speed == p.speed
  {
  }

  lemma ApplySpeed(config: ReplayConfig, w: World, action: Action)
    ensures Apply(config, w, action).inner.speed ==
            match action
            case Play(Some(speed), _) => if SpeedAccepted(config, speed) && w.bounds.Some? then speed.r else w.inner.speed
            case SetSpeed(speed, _) => if SpeedAccepted(config, speed) then speed.r else w.inner.speed
            case _ => w.inner.speed
  {
    match action
    case PollAt(now) => PollKeepsSpeed(w.inner, w.bounds, now);
    case Pause(now) => PollKeepsSpeed(w.inner, w.bounds, now);
    case Play(speed, now) =>
      if w.bounds.Some? && (speed.Some? ==> SpeedAccepted(config, speed.value)) {
        PollKeepsSpeed(w.inner, w.bounds, now);
        PollKeepsSpeed(Armed(Poll(w.inner, w.bounds, now), w.bounds.value, if speed.Some? then Some(speed.value.r) else None, now),
                       w.bounds, now);
      }
    case Step(count, target, now) => PollKeepsSpeed(w.inner, w.bounds, now);
    case _ =>
  }

  /** At every moment of a run the speed is the one last asked for. */
  lemma {:induction false} SpeedInForce(config: ReplayConfig, worlds: seq<World>, actions: seq<Action>, n: nat)
    requires Playback.Run(config, worlds, actions) && n < |worlds|
    ensures worlds[n].inner.speed == SpeedAsked(config, worlds, actions, n)
  {
    if n > 0 {
      SpeedInForce(config, worlds, actions, n - 1);
      ApplySpeed(config, worlds[n - 1], actions[n - 1]);
    }
  }

  /** And it never leaves the configured limits, whatever is asked for. */
  lemma {:induction false} SpeedWithinLimits(config: ReplayConfig, worlds: seq<World>, actions: seq<Action>, n: nat)
    requires ConfigValid(config) && Playback.Run(config, worlds, actions) && n < |worlds|
    ensures config.minSpeed <= worlds[n].inner.speed <= config.maxSpeed
  {
    if n > 0 {
      SpeedWithinLimits(config, worlds, actions, n - 1);
      ApplySpeed(config, worlds[n - 1], actions[n - 1]);
    }
  }

  // ----- playing over a stretch of a run ---------------------------------------

  /** No command in the stretch, and the clock does not go back in it. */
  ghost predicate Undisturbed(worlds: seq<World>, actions: seq<Action>, i: nat, j: nat)
    requires i <= j <= |actions| < |worlds|
  {
    forall k :: i <= k < j ==>
      && (actions[k].PollAt? || actions[k].Append?)
      && (actions[k].PollAt? && worlds[k].inner.anchor.Some? ==> worlds[k].inner.anchor.value <= actions[k].now)
  }

  /** `q` is `p` moved on at its speed from the instant it was anchored at to that of `q`. */
  ghost predicate MovedOn(p: Inner, q: Inner) {
    && p.mode.ReplayPlaying? && p.anchor.Some? && p.cursor.Some? && q.anchor.Some? && p.anchor.value <= q.anchor.value
    && q == p.(cursor := Some(p.cursor.value + Way(p.speed, q.anchor.value - p.anchor.value)), anchor := q.anchor)
  }

  lemma MovedNowhere(p: Inner, bounds: Bounds)
    requires Consistent(p, bounds) && p.mode.ReplayPlaying?
    ensures MovedOn(p, p)
  {
    assert Way(p.speed, p.anchor.value - p.anchor.value) == 0.0;
  }

  lemma MovesOnWithPoll(p: Inner, q: Inner, bounds: Bounds, now: real)
    requires MovedOn(p, q) && Consistent(q, bounds) && q.anchor.value <= now && bounds.Some?
    requires Poll(q, bounds, now).mode.ReplayPlaying?
    ensures MovedOn(p, Poll(q, bounds, now))
  {
    PollAdvances(q, bounds.value.0, bounds.value.1, now);
    TimesAdd(p.speed, p.anchor.value, q.anchor.value, now);
    assert Poll(q, bounds, now).cursor == Some(p.cursor.value + Way(p.speed, now - p.anchor.value));
  }

  /** While it goes on playing undisturbed, the cursor has moved by the speed times the time between the polls. */
  lemma {:induction false} PlaysOn(config: ReplayConfig, worlds: seq<World>, actions: seq<Action>, i: nat, j: nat)
    requires ConfigValid(config) && Playback.Run(config, worlds, actions) && i <= j < |worlds|
    requires Undisturbed(worlds, actions, i, j) && worlds[j].inner.mode.ReplayPlaying?
    ensures MovedOn(worlds[i].inner, worlds[j].inner)
    decreases j - i
  {
    if i == j {
      RunConsistent(config, worlds, actions, i);
      MovedNowhere(worlds[i].inner, worlds[i].bounds);
    } else {
      var k := j - 1;
      RunConsistent(config, worlds, actions, k);
      assert worlds[j] == Apply(config, worlds[k], actions[k]);
      if actions[k].Append? {
        PlaysOn(config, worlds, actions, i, k);
      } else {
        StillPlaying(worlds[k].inner, worlds[k].bounds, actions[k].now);
        PlaysOn(config, worlds, actions, i, k);
        MovesOnWithPoll(worlds[i].inner, worlds[k].inner, worlds[k].bounds, actions[k].now);
      }
    }
  }

  lemma StillPlaying(p: Inner, bounds: Bounds, now: real)
    requires Poll(p, bounds, now).mode.ReplayPlaying?
    ensures p.mode.ReplayPlaying? && bounds.Some?
  {
  }

  lemma TimesAdd(speed: real, a: real, b: real, c: real)
    ensures Way(speed, b - a) + Way(speed, c - b) == Way(speed, c - a)
  {
    assert speed * ((b - a) + (c - b)) == speed * (b - a) + speed * (c - b);
  }

  /** The commands, when granted, from which playing goes on at a speed of its own. */
  predicate Restarts(config: ReplayConfig, action: Action) {
    || (action.Play? && (action.speed.Some? ==> SpeedAccepted(config, action.speed.value)))
    || (action.SetSpeed? && SpeedAccepted(config, action.newSpeed))
  }

  /** A command that leaves the timeline playing anchors it at the instant and the cursor of the command. */
  lemma CommandAnchors(config: ReplayConfig, w: World, action: Action)
    requires ConfigValid(config) && Consistent(w.inner, w.bounds)
    requires Restarts(config, action) && Apply(config, w, action).inner.mode.ReplayPlaying?
    ensures w.bounds.Some?
    ensures var p := Apply(config, w, action).inner;
            && p.anchor == Some(action.now)
            && p.cursor == Poll(w.inner, w.bounds, action.now).cursor
            && p.revision > w.inner.revision
  {
    PollKeeps(w.inner, w.bounds, action.now);
    if action.Play? {
      var speed := if action.speed.Some? then Some(action.speed.value.r) else None;
      PlayStartsIff(w.inner, w.bounds.value, speed, action.now);
      var armed := Armed(Poll(w.inner, w.bounds, action.now), w.bounds.value, speed, action.now);
      PollKeeps(armed, w.bounds, action.now);
      PollAnchor(armed, w.bounds, action.now);
    }
  }

  /** A poll of a timeline that has moved on since `p`. */
  lemma PollLater(p: Inner, q: Inner, bounds: Bounds, now: real)
    requires MovedOn(p, q) && Consistent(q, bounds) && bounds.Some? && q.anchor.value <= now
    ensures var from, passed := p.cursor.value, now - p.anchor.value;
            var r := Poll(q, bounds, now);
            && r.cursor == Some(Reached(from, p.speed, passed, bounds.value.1))
            && (r.mode.ReplayPlaying? <==> r.cursor.value < bounds.value.1)
  {
    PollAdvances(q, bounds.value.0, bounds.value.1, now);
    TimesAdd(p.speed, p.anchor.value, q.anchor.value, now);
  }

  lemma RunAnchors(config: ReplayConfig, worlds: seq<World>, actions: seq<Action>, i: nat, p: Inner)
    requires ConfigValid(config) && Playback.Run(config, worlds, actions) && i < |actions| && p == worlds[i + 1].inner
    requires Restarts(config, actions[i]) && p.mode.ReplayPlaying?
    ensures worlds[i].bounds.Some? && p.anchor == Some(actions[i].now)
    ensures p.cursor == Poll(worlds[i].inner, worlds[i].bounds, actions[i].now).cursor
    ensures p.speed == SpeedAsked(config, worlds, actions, i + 1)
  {
    RunConsistent(config, worlds, actions, i);
    assert worlds[i + 1] == Apply(config, worlds[i], actions[i]);
    RunConsistent(config, worlds, actions, i + 1);
    CommandAnchors(config, worlds[i], actions[i]);
    SpeedInForce(config, worlds, actions, i + 1);
  }

  lemma RunPolls(config: ReplayConfig, worlds: seq<World>, actions: seq<Action>, j: nat)
    requires Playback.Run(config, worlds, actions) && j < |actions| && actions[j].PollAt?
    ensures worlds[j + 1].inner == Poll(worlds[j].inner, worlds[j].bounds, actions[j].now)
  {
  }

  /**
   Over every run: after a `Play` or `SetSpeed` that left the timeline playing, a poll
   with nothing but polls and appends in between finds the cursor at the cursor of the
   command plus the speed asked for times the time passed, stopped by the end of the
   bounds; and it plays on exactly before that end.
   */
  lemma PlaysAtSpeed(config: ReplayConfig, worlds: seq<World>, actions: seq<Action>, i: nat, j: nat)
    requires ConfigValid(config) && Playback.Run(config, worlds, actions) && i < j < |actions|
    requires Restarts(config, actions[i]) && actions[j].PollAt? && Undisturbed(worlds, actions, i + 1, j + 1)
    requires worlds[j].inner.mode.ReplayPlaying?
    ensures var from, q := Poll(worlds[i].inner, worlds[i].bounds, actions[i].now).cursor, worlds[j + 1].inner;
            var speed, passed := SpeedAsked(config, worlds, actions, i + 1), actions[j].now - actions[i].now;
            && from.Some? && worlds[j].bounds.Some?
            && q.cursor == Some(Reached(from.value, speed, passed, worlds[j].bounds.value.1))
            && (q.mode.ReplayPlaying? <==> q.cursor.value < worlds[j].bounds.value.1)
  {
    var p, q := worlds[i + 1].inner, worlds[j].inner;
    PlaysOn(config, worlds, actions, i + 1, j);
    RunAnchors(config, worlds, actions, i, p);
    RunConsistent(config, worlds, actions, j);
    PollLater(p, q, worlds[j].bounds, actions[j].now);
    RunPolls(config, worlds, actions, j);
  }

  // ----- commands ----------------------------------------------------------------

  function Distance(a: real, b: real): real { if a < b then b - a else a - b }

  /** A seek pauses at the instant of the bounds nearest to the one asked for. */
  lemma SeekLandsNearest(p: Inner, bounds: (real, real), to: real, x: real)
    requires bounds.0 <= x <= bounds.1
    ensures var q := SeekCommand(p, bounds, to);
            && q.mode == ReplayPaused && q.cursor.Some? && bounds.0 <= q.cursor.value <= bounds.1
            && Distance(q.cursor.value, to) <= Distance(x, to)
            && (Distance(q.cursor.value, to) == Distance(x, to) ==> q.cursor.value == x)
  {
  }

  /** Where each command that is granted leaves the timeline, from the cursor a poll would have shown. */
  lemma CommandLands(config: ReplayConfig, w: World, action: Action)
    requires ConfigValid(config) && Consistent(w.inner, w.bounds) && w.bounds.Some?
    ensures var q, (start, end) := Apply(config, w, action).inner, w.bounds.value;
            match action
            case GoLive => q == Inner(Live, Some(end), w.inner.speed, None, q.revision)
            case Pause(now) => q == Inner(ReplayPaused, Poll(w.inner, w.bounds, now).cursor, w.inner.speed, None, q.revision)
            case Seek(to) =>
              to.Num? ==> q == Inner(ReplayPaused, q.cursor, w.inner.speed, None, q.revision)
                          && q.cursor.Some? && start <= q.cursor.value <= end && (start <= to.r <= end ==> q.cursor == Some(to.r))
            case Play(speed, now) =>
              (speed.Some? ==> SpeedAccepted(config, speed.value)) ==>
                q.cursor == Poll(w.inner, w.bounds, now).cursor && (q.mode.ReplayPlaying? || q.mode.ReplayPaused?)
            case SetSpeed(speed, now) =>
              SpeedAccepted(config, speed) ==>
                q.cursor == Poll(w.inner, w.bounds, now).cursor && q.mode == Poll(w.inner, w.bounds, now).mode
            case Step(count, target, now) =>
              1 <= count <= 100 ==>
                && q == Inner(ReplayPaused, q.cursor, w.inner.speed, None, q.revision)
                && (target.None? ==> q.cursor == Poll(w.inner, w.bounds, now).cursor)
                && (target.Some? && start <= target.value <= end ==> q.cursor == target)
            case Replace(bounds) =>
              q == Inner(ReplayPaused, if bounds.Some? then Some(bounds.value.0) else None, w.inner.speed, None, q.revision)
            case PollAt(now) =>
              q.mode == w.inner.mode || (w.inner.mode.ReplayPlaying? && q.mode.ReplayPaused? && q.cursor == Some(end))
            case Append(_) => q == w.inner
  {
    match action
    case PollAt(now) => PollKeeps(w.inner, w.bounds, now);
    case Pause(now) => PollKeeps(w.inner, w.bounds, now);
    case Step(_, _, now) => PollKeeps(w.inner, w.bounds, now);
    case SetSpeed(_, now) => PollKeeps(w.inner, w.bounds, now);
    case Play(speed, now) =>
      if speed.Some? ==> SpeedAccepted(config, speed.value) {
        PollKeeps(w.inner, w.bounds, now);
        PlayStartsIff(w.inner, w.bounds.value, if speed.Some? then Some(speed.value.r) else None, now);
      }
    case _ =>
  }

  /** The commands that are granted, and the poll that reaches the end: exactly these start a new revision. */
  lemma RevisionRisesIff(config: ReplayConfig, w: World, action: Action)
    requires ConfigValid(config) && Consistent(w.inner, w.bounds)
    ensures Apply(config, w, action).inner.revision > w.inner.revision <==>
            match action
            case PollAt(now) =>
              w.bounds.Some? && w.inner.mode.ReplayPlaying?
              && w.bounds.value.1 <= w.inner.cursor.value + w.inner.speed * (if w.inner.anchor.value < now then now - w.inner.anchor.value else 0.0)
            case GoLive => true
            case Replace(_) => true
            case Append(_) => false
            case Pause(_) => w.bounds.Some?
            case Seek(to) => to.Num? && w.bounds.Some?
            case Play(speed, _) => w.bounds.Some? && (speed.Some? ==> SpeedAccepted(config, speed.value))
            case SetSpeed(speed, _) => SpeedAccepted(config, speed)
            case Step(count, _, _) => 1 <= count <= 100 && w.bounds.Some?
  {
    match action
    case PollAt(now) =>
      if w.bounds.Some? && w.inner.mode.ReplayPlaying? {
        PollAdvances(w.inner, w.bounds.value.0, w.bounds.value.1, now);
      }
    case _ =>
  }
}
