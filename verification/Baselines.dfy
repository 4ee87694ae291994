/**
 The baseline of the event stream: which aircraft are in one, from which event on, and
 when one is queued.  Nothing here is stated through the functions that build it.
 */
module Baselines {
  import opened Common
  import opened Sorting
  import opened Store
  import opened Timeline
  import opened Playback
  import opened Publisher
  import opened Coverage
  import opened R = Room
  import P = Protocol

  // ----- what a baseline holds of one aircraft --------------------------------------

  /** Index `k` is the last spawn of the list. */
  predicate LastSpawnAt(s: seq<Sample<Event>>, k: nat) {
    k < |s| && s[k].value.Spawn? && forall i :: k < i < |s| ==> !s[i].value.Spawn?
  }

  predicate HasSpawn(s: seq<Sample<Event>>) {
    exists i :: 0 <= i < |s| && s[i].value.Spawn?
  }

  /** What the baseline sends of one aircraft. */
  function BaselineFor(data: Data, snap: Snapshot, x: AircraftId): seq<GlobalEvent> {
    Filter(BaselineEvents(data, snap), Of(x))
  }

  lemma CutAtLastSpawn(s: seq<Sample<Event>>) returns (k: nat)
    ensures k <= |s| && FromLastSpawn(s) == s[k..]
    ensures HasSpawn(s) ==> LastSpawnAt(s, k)
    ensures !HasSpawn(s) ==> k == 0
  {
    k := LastSpawnIndex(s).GetOr(0);
  }

  /**
   Of an aircraft shown, a baseline sends a suffix of its stored events up to the cursor: from the last
   of several spawns on, or all of them when none is a spawn.
   */
  lemma BaselineCut(data: Data, snap: Snapshot, cursor: real, x: AircraftId) returns (k: nat)
    requires WellFormed(data) && snap.cursor == Some(cursor) && x in data && Visible(data, snap, x)
    ensures var stored := Filter(data[x].events, UpTo(cursor));
            && k <= |stored| && BaselineFor(data, snap, x) == Tag(x, stored[k..])
            && (HasSpawn(stored) ==> LastSpawnAt(stored, k))
            && (!HasSpawn(stored) ==> k == 0)
  {
    BaselineInterleaves(data, snap, cursor);
    k := CutAtLastSpawn(Filter(data[x].events, UpTo(cursor)));
    assert x in VisibleIds(data, snap);
    assert BaselineFor(data, snap, x) == OpeningOf(data, VisibleIds(data, snap), cursor)(x);
  }

  /** The aircraft has been sampled by the cursor. */
  predicate SampledBy(series: Series, cursor: real) {
    exists i :: 0 <= i < |series.states| && series.states[i].t <= cursor
  }

  /** Event `k` is a spawn, and nothing up to the cursor despawns the aircraft after it. */
  predicate AloftSince(events: seq<Sample<Event>>, cursor: real, k: nat) {
    && k < |events| && events[k].value.Spawn? && events[k].t <= cursor
    && forall i :: k < i < |events| && events[i].t <= cursor ==> !events[i].value.Despawn?
  }

  ghost predicate Aloft(events: seq<Sample<Event>>, cursor: real) {
    exists k: nat :: AloftSince(events, cursor, k)
  }

  lemma {:induction false} LastLifecycle(s: seq<Sample<Event>>)
    ensures var last := LastWhere(s, IsLifecycle());
            (last.Some? && last.value.value.Spawn?)
            <==> exists k: nat :: k < |s| && s[k].value.Spawn? && forall i :: k < i < |s| ==> !s[i].value.Despawn?
  {
    if s != [] {
      var n := |s| - 1;
      LastLifecycle(s[..n]);
      var last := LastWhere(s[..n], IsLifecycle());
      if s[n].value.Custom? && last.Some? && last.value.value.Spawn? {
        var k: nat :| k < n && s[..n][k].value.Spawn? && forall i :: k < i < n ==> !s[..n][i].value.Despawn?;
        assert forall i :: k < i < |s| ==> i == n || s[i] == s[..n][i];
        assert s[k].value.Spawn?;
      }
      if s[n].value.Custom? && exists k: nat :: k < |s| && s[k].value.Spawn? && forall i :: k < i < |s| ==> !s[i].value.Despawn? {
        var k: nat :| k < |s| && s[k].value.Spawn? && forall i :: k < i < |s| ==> !s[i].value.Despawn?;
        assert s[..n][k].value.Spawn? && forall i :: k < i < n ==> !s[..n][i].value.Despawn?;
      }
    }
  }

  /** Spawned at a cursor: a spawn by then that no despawn by then follows. */
  lemma SpawnedIffAloft(events: seq<Sample<Event>>, cursor: real)
    requires Sorted(events, ByTime())
    ensures SpawnedAt(events, Num(cursor)) <==> Aloft(events, cursor)
  {
    var cut := PartitionPoint(events, UpTo(cursor));
    var s := events[..cut];
    CutsPartition(events, cursor);
    LastLifecycle(s);
    if SpawnedAt(events, Num(cursor)) {
      var k: nat :| k < |s| && s[k].value.Spawn? && forall i :: k < i < |s| ==> !s[i].value.Despawn?;
      assert forall i :: k < i < |events| && events[i].t <= cursor ==> events[i] == s[i];
      assert AloftSince(events, cursor, k);
    }
    if Aloft(events, cursor) {
      var k: nat :| AloftSince(events, cursor, k);
      assert s[k] == events[k] && forall i :: k < i < |s| ==> s[i] == events[i];
    }
  }

  lemma LiveSpawned(events: seq<Sample<Event>>, cursor: real)
    requires Sorted(events, ByTime()) && forall i :: 0 <= i < |events| ==> events[i].t <= cursor
    ensures SpawnedAt(events, PosInf) == SpawnedAt(events, Num(cursor))
  {
    CutsPartition(events, cursor);
    var cut := PartitionPoint(events, UpTo(cursor));
    assert events != [] ==> events[|events| - 1].t <= cursor;
    assert events[..cut] == events[..|events|];
  }

  /** Everything stored of the aircraft lies at or before the live end of the store. */
  lemma WithinBounds(data: Data, bounds: (real, real), x: AircraftId)
    requires IsBounds(StampsIn(data, data.Keys), Some(bounds)) && x in data
    ensures forall i :: 0 <= i < |data[x].events| ==> data[x].events[i].t <= bounds.1
    ensures forall i :: 0 <= i < |data[x].states| ==> data[x].states[i].t <= bounds.1
  {
    forall i | 0 <= i < |data[x].events|
      ensures data[x].events[i].t <= bounds.1
    {
      var t := data[x].events[i].t;
      assert t in AllSeriesStamps(data[x]);
      assert t in StampsIn(data, data.Keys);
    }
    forall i | 0 <= i < |data[x].states|
      ensures data[x].states[i].t <= bounds.1
    {
      var t := data[x].states[i].t;
      assert t in AllSeriesStamps(data[x]);
      assert t in StampsIn(data, data.Keys);
    }
  }

  /** The snapshot the publisher takes: a poll of the playback over the bounds of the store. */
  function TakenFrom(p: Inner, bounds: Bounds, now: real): Snapshot {
    SnapshotOf(Poll(p, bounds, now), bounds)
  }

  /** In any snapshot with a cursor, live or not, exactly the aircraft sampled and aloft by the cursor are shown. */
  lemma VisibleIff(data: Data, p: Inner, bounds: Bounds, now: real, cursor: real, x: AircraftId)
    requires WellFormed(data) && IsBounds(StampsIn(data, data.Keys), bounds) && x in data
    requires TakenFrom(p, bounds, now).cursor == Some(cursor)
    ensures Visible(data, TakenFrom(p, bounds, now), x) <==> SampledBy(data[x], cursor) && Aloft(data[x].events, cursor)
  {
    var snap := TakenFrom(p, bounds, now);
    var series := data[x];
    SpawnedIffAloft(series.events, cursor);
    CutsPartition(series.states, cursor);
    if snap.mode.Live? {
      WithinBounds(data, bounds.value, x);
      LiveSpawned(series.events, cursor);
      assert series.states != [] ==> series.states[0].t <= cursor;
    } else if AtOrBefore(series.states, Num(cursor)).Some? {
      assert series.states[0].t <= cursor;
    }
  }

  lemma AloftHasSpawn(events: seq<Sample<Event>>, cursor: real)
    requires Aloft(events, cursor)
    ensures HasSpawn(Filter(events, UpTo(cursor)))
  {
    var k: nat :| AloftSince(events, cursor, k);
    FilterMembers(events, UpTo(cursor));
    var s := Filter(events, UpTo(cursor));
    assert events[k] in s;
    var i :| 0 <= i < |s| && s[i] == events[k];
    assert s[i].value.Spawn?;
  }

  lemma NotShownNotSent(data: Data, snap: Snapshot, cursor: real, x: AircraftId)
    requires WellFormed(data) && snap.cursor == Some(cursor) && !(x in data && Visible(data, snap, x))
    ensures BaselineFor(data, snap, x) == []
  {
    BaselineInterleaves(data, snap, cursor);
    assert BaselineFor(data, snap, x) == OpeningOf(data, VisibleIds(data, snap), cursor)(x);
  }

  /**
   A baseline over any store and any snapshot of it: an aircraft has events in it exactly when it is sampled
   and aloft by the cursor, and these are its stored events up to the cursor from the last spawn on.
   */
  lemma BaselineExact(data: Data, p: Inner, bounds: Bounds, now: real, cursor: real, x: AircraftId)
    requires WellFormed(data) && IsBounds(StampsIn(data, data.Keys), bounds)
    requires TakenFrom(p, bounds, now).cursor == Some(cursor)
    ensures var sent := BaselineFor(data, TakenFrom(p, bounds, now), x);
            && (sent != [] <==> x in data && SampledBy(data[x], cursor) && Aloft(data[x].events, cursor))
            && (sent != [] ==>
                  var stored := Filter(data[x].events, UpTo(cursor));
                  exists k: nat :: LastSpawnAt(stored, k) && sent == Tag(x, stored[k..]))
  {
    var snap := TakenFrom(p, bounds, now);
    if x in data {
      VisibleIff(data, p, bounds, now, cursor, x);
    }
    if x in data && Visible(data, snap, x) {
      AloftHasSpawn(data[x].events, cursor);
      var k := BaselineCut(data, snap, cursor, x);
      assert LastSpawnAt(Filter(data[x].events, UpTo(cursor)), k);
    } else {
      NotShownNotSent(data, snap, cursor, x);
    }
  }

  // ----- when a baseline is queued ----------------------------------------------------

  /** Page `k` is a baseline exactly when it is the first of its revision. */
  predicate FirstIffBaseline(queued: seq<EventPage>, k: nat)
    requires k < |queued|
  {
    queued[k].baseline <==> k == 0 || queued[k - 1].revision < queued[k].revision
  }

  /** The baseline pages are exactly the first pages of each revision. */
  ghost predicate OncePerRevision(queued: seq<EventPage>) {
    forall k: nat :: k < |queued| ==> FirstIffBaseline(queued, k)
  }

  /** Within the revision last queued, the timeline is at or after the cursor recorded. */
  ghost predicate NotMovedBack(stream: Stream, queued: seq<EventPage>, p: Inner) {
    Recorded(stream).Some? && Current(queued, p) ==> p.cursor.Some? && Recorded(stream).value <= p.cursor.value
  }

  ghost predicate Orderly(r: Room) {
    OncePerRevision(r.system.queued) && NotMovedBack(r.system.stream, r.system.queued, r.world.inner)
  }

  lemma LaterNotMovedBack(stream: Stream, queued: seq<EventPage>, p: Inner, q: Inner)
    requires NotMovedBack(stream, queued, p) && NotBefore(p, q)
    requires queued != [] ==> queued[|queued| - 1].revision <= p.revision
    ensures NotMovedBack(stream, queued, q)
  {
  }

  /** A baseline is due exactly when nothing of the snapshot's revision has been queued. */
  lemma BaselineDueIff(setup: P.Setup, s: P.System, retired: Stream, input: TickInput, q: Inner)
    requires P.Inv(setup, s) && EndsComplete(s.stream) && retired == Retire(s.stream, input.ack) && retired.pending == []
    requires P.Enabled(setup, s, P.TickAt(input))
    requires NotMovedBack(s.stream, s.queued, q) && input.snap.cursor == q.cursor && input.snap.revision == q.revision
    ensures NeedsBaseline(retired, input.snap) <==> !Current(s.queued, q)
  {
    P.RetireOk(s.queued, s.stream, s.seen, s.session.eventAck, s.revision);
    RetireKeepsRecorded(s.stream, input.ack);
  }

  lemma QueueStaysOrderly(queued: seq<EventPage>, more: seq<EventPage>, revision: nat)
    requires OncePerRevision(queued) && (queued != [] ==> queued[|queued| - 1].revision <= revision)
    requires forall k :: 0 <= k < |more| ==> more[k].revision == revision
    requires forall k :: 0 <= k < |more| ==> (more[k].baseline <==> k == 0 && (queued == [] || queued[|queued| - 1].revision != revision))
    ensures OncePerRevision(queued + more)
  {
    var all := queued + more;
    forall k: nat | k < |all|
      ensures FirstIffBaseline(all, k)
    {
      if k < |queued| {
        assert FirstIffBaseline(queued, k);
        assert all[k] == queued[k] && (k > 0 ==> all[k - 1] == queued[k - 1]);
      } else {
        var m := k - |queued|;
        assert all[k] == more[m] && more[m].revision == revision;
        if m > 0 {
          assert all[k - 1] == more[m - 1] && more[m - 1].revision == revision;
        } else if k > 0 {
          assert all[k - 1] == queued[|queued| - 1];
        }
      }
    }
  }

  lemma RefillOrderly(s: Stream, queued: seq<EventPage>, data: Data, snap: Snapshot, now: real, q: Inner)
    requires OncePerRevision(queued) && (queued != [] ==> queued[|queued| - 1].revision <= snap.revision)
    requires s.pending == [] && snap.cursor == q.cursor && snap.revision == q.revision
    requires NeedsBaseline(s, snap) <==> !Current(queued, q)
    ensures var ready := Refill(s, data, snap, now);
            && Recorded(ready) == snap.cursor && EndsComplete(ready)
            && OncePerRevision(queued + Pages(ready.pending))
  {
    var events, ready := EventsDue(s, data, snap), Refill(s, data, snap, now);
    RefilledPages(s, events, snap, now);
    if ready.pending != [] {
      RefilledFlags(s, events, snap, now, Pages(ready.pending));
      QueueStaysOrderly(queued, Pages(ready.pending), snap.revision);
    } else {
      assert queued + [] == queued;
    }
  }

  lemma RefilledFlags(s: Stream, events: seq<GlobalEvent>, snap: Snapshot, now: real, pages: seq<EventPage>)
    requires s.pending == [] && pages == Pages(Enqueue(s, events, snap, now).pending)
    ensures forall k :: 0 <= k < |pages| ==>
              pages[k].revision == snap.revision && (pages[k].baseline <==> k == 0 && NeedsBaseline(s, snap))
  {
    P.PaginatePages(events, s.nextSequence + 1, snap, NeedsBaseline(s, snap), now);
  }

  /** What a tick makes of the queue and of the cursor recorded. */
  lemma TickQueue(setup: P.Setup, r: Room, input: TickInput, q: Inner)
    requires R.Inv(setup, r) && P.Enabled(setup, r.system, P.TickAt(input))
    requires OncePerRevision(r.system.queued) && NotMovedBack(r.system.stream, r.system.queued, q)
    requires input.snap.cursor == q.cursor && input.snap.revision == q.revision && r.system.revision <= q.revision
    ensures var retired, ready := Retire(r.system.stream, input.ack), P.ReadyStream(r.system, input);
            && OncePerRevision(P.ReadyQueue(r.system, input)) && EndsComplete(ready)
            && (if retired.pending == [] then Recorded(ready) == q.cursor
                else Recorded(ready) == Recorded(r.system.stream) && P.ReadyQueue(r.system, input) == r.system.queued)
  {
    var s := r.system;
    var retired := Retire(s.stream, input.ack);
    QueuedRevisions(setup, s);
    RetireKeepsRecorded(s.stream, input.ack);
    if retired.pending == [] {
      BaselineDueIff(setup, s, retired, input, q);
      RefillOrderly(retired, s.queued, input.data, input.snap, input.now, q);
    }
  }

  lemma TickOrderly(setup: P.Setup, config: ReplayConfig, r: Room, input: TickInput)
    requires ConfigValid(config) && R.Inv(setup, r) && R.Enabled(setup, r, Advance(P.TickAt(input))) && Orderly(r)
    ensures Orderly(R.Next(setup, config, r, Advance(P.TickAt(input))))
  {
    var s, f := r.system, r.feed;
    var q := Poll(r.world.inner, r.world.bounds, input.now);
    PollKeeps(r.world.inner, r.world.bounds, input.now);
    QueuedRevisions(setup, s);
    LaterNotMovedBack(s.stream, s.queued, r.world.inner, q);
    TickQueue(setup, r, input, q);
    SameTick(setup, s, f, input, Retire(s.stream, input.ack), P.ReadyStream(s, input));
    if Dispatch(P.ReadyStream(s, input), input, setup.config).Sent? {
      DispatchKeepsRecorded(P.ReadyStream(s, input), input, setup.config);
    }
  }

  lemma OtherOrderly(setup: P.Setup, config: ReplayConfig, r: Room, m: RoomMove)
    requires ConfigValid(config) && R.Inv(setup, r) && R.Enabled(setup, r, m) && Orderly(r)
    requires m.Advance? ==> !m.move.TickAt?
    ensures Orderly(R.Next(setup, config, r, m))
  {
    QueuedRevisions(setup, r.system);
    match m
    case Grow(arrival, grown) =>
      ArrivedExpands(r.feed.data, arrival, r.world.bounds, grown);
      ApplyKeeps(config, r.world, Append(grown));
      LaterNotMovedBack(r.system.stream, r.system.queued, r.world.inner, Apply(config, r.world, Append(grown)).inner);
    case Swap(data, bounds) =>
      BoundsOrdered(data, bounds);
      ApplyKeeps(config, r.world, Replace(bounds));
      LaterNotMovedBack(r.system.stream, r.system.queued, r.world.inner, Apply(config, r.world, Replace(bounds)).inner);
    case Command(action) =>
      ApplyKeeps(config, r.world, action);
      LaterNotMovedBack(r.system.stream, r.system.queued, r.world.inner, Apply(config, r.world, action).inner);
    case Advance(move) =>
      if move.Deliver? {
        DeliverShape(setup, r.system, move.index);
      } else {
        QuietShape(setup, r.system, move);
      }
  }

  lemma {:induction false} RunOrderly(setup: P.Setup, config: ReplayConfig, rooms: seq<Room>, moves: seq<RoomMove>, i: nat)
    requires R.Run(setup, config, rooms, moves) && i < |rooms|
    ensures Orderly(rooms[i])
  {
    if i > 0 {
      RunOrderly(setup, config, rooms, moves, i - 1);
      R.RunInvariant(setup, config, rooms, moves, i - 1);
      if moves[i - 1].Advance? && moves[i - 1].move.TickAt? {
        TickOrderly(setup, config, rooms[i - 1], moves[i - 1].move.input);
      } else {
        OtherOrderly(setup, config, rooms[i - 1], moves[i - 1]);
      }
    }
  }

  /**
   Over every run of a room: each revision of the timeline has exactly one baseline page, the first of its pages;
   so a viewer starts over once per command or replacement and never in between.
   */
  lemma BaselineOncePerRevision(setup: P.Setup, config: ReplayConfig, rooms: seq<Room>, moves: seq<RoomMove>, i: nat, j: nat, k: nat)
    requires R.Run(setup, config, rooms, moves) && i < |rooms| && j <= k < |rooms[i].system.queued|
    ensures var queued := rooms[i].system.queued;
            && queued[j].revision <= queued[k].revision
            && (queued[k].baseline <==> k == 0 || queued[k - 1].revision < queued[k].revision)
            && (queued[j].baseline && queued[k].baseline && queued[j].revision == queued[k].revision ==> j == k)
  {
    RunOrderly(setup, config, rooms, moves, i);
    R.RunInvariant(setup, config, rooms, moves, i);
    assert P.HistoryOk(rooms[i].system.queued);
    assert FirstIffBaseline(rooms[i].system.queued, j) && FirstIffBaseline(rooms[i].system.queued, k);
  }
}
