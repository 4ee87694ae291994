/**
 Progress in a cursor room: from every moment of every run the viewer can be brought to
 the end of the queue, with a cursor recorded, in a room whose store holds anything.
 */
module CatchingUp {
  import opened Common
  import opened Sorting
  import opened Store
  import opened Playback
  import opened Publisher
  import opened Coverage
  import opened GearState
  import P = Protocol
  import opened R = Room

  /** Where the moves lead from `r`, if each is enabled in its turn. */
  ghost function Play(setup: P.Setup, config: ReplayConfig, r: Room, moves: seq<RoomMove>): Option<Room>
    decreases |moves|
  {
    if moves == [] then Some(r)
    else if Enabled(setup, r, moves[0]) then Play(setup, config, Next(setup, config, r, moves[0]), moves[1..])
    else None
  }

  lemma {:induction false} PlayConcat(setup: P.Setup, config: ReplayConfig, r: Room, a: seq<RoomMove>, b: seq<RoomMove>)
    requires Play(setup, config, r, a).Some?
    ensures Play(setup, config, r, a + b) == Play(setup, config, Play(setup, config, r, a).value, b)
    decreases |a|
  {
    if a == [] {
      assert a + b == b;
    } else {
      assert (a + b)[0] == a[0] && (a + b)[1..] == a[1..] + b;
      PlayConcat(setup, config, Next(setup, config, r, a[0]), a[1..], b);
    }
  }

  lemma PlayOne(setup: P.Setup, config: ReplayConfig, r: Room, move: RoomMove, moves: seq<RoomMove>)
    requires Enabled(setup, r, move)
    ensures Play(setup, config, r, [move] + moves) == Play(setup, config, Next(setup, config, r, move), moves)
  {
    assert ([move] + moves)[1..] == moves;
  }

  lemma {:induction false} PlayKeeps(setup: P.Setup, config: ReplayConfig, r: Room, moves: seq<RoomMove>)
    requires ConfigValid(config) && Inv(setup, r) && Play(setup, config, r, moves).Some?
    ensures Inv(setup, Play(setup, config, r, moves).value)
    decreases |moves|
  {
    if moves != [] {
      NextKeeps(setup, config, r, moves[0]);
      PlayKeeps(setup, config, Next(setup, config, r, moves[0]), moves[1..]);
    }
  }

  // ----- moves of the stream alone ------------------------------------------------------

  function Advances(moves: seq<P.Move>): (r: seq<RoomMove>)
    ensures |r| == |moves|
  {
    if moves == [] then [] else [Advance(moves[0])] + Advances(moves[1..])
  }

  lemma QuietAdvance(setup: P.Setup, config: ReplayConfig, r: Room, move: P.Move)
    requires P.Enabled(setup, r.system, move) && !move.TickAt?
    ensures Enabled(setup, r, Advance(move))
    ensures var next := Next(setup, config, r, Advance(move));
            next.system == P.Next(setup, r.system, move) && next.feed == r.feed && next.world == r.world
  {
  }

  /** What the stream can do without ticks the room can do, and store, timeline and feed stay as they are. */
  lemma {:induction false} PlayAdvances(setup: P.Setup, config: ReplayConfig, r: Room, moves: seq<P.Move>) returns (end: Room)
    requires P.Play(setup, r.system, moves).Some? && forall i :: 0 <= i < |moves| ==> !moves[i].TickAt?
    ensures Play(setup, config, r, Advances(moves)) == Some(end)
    ensures end.system == P.Play(setup, r.system, moves).value && end.feed == r.feed && end.world == r.world
    decreases |moves|
  {
    if moves == [] {
      end := r;
    } else {
      QuietAdvance(setup, config, r, moves[0]);
      var next := Next(setup, config, r, Advance(moves[0]));
      forall i | 0 <= i < |moves[1..]|
        ensures !moves[1..][i].TickAt?
      {
        assert moves[1..][i] == moves[i + 1];
      }
      end := PlayAdvances(setup, config, next, moves[1..]);
      PlayOne(setup, config, r, Advance(moves[0]), Advances(moves[1..]));
    }
  }

  // ----- ticks ----------------------------------------------------------------------------

  function SnapAt(r: Room, now: real): Snapshot {
    SnapshotOf(Poll(r.world.inner, r.world.bounds, now), r.world.bounds)
  }

  /** Rooms that serve their subscriber. */
  ghost predicate Serving(setup: P.Setup, config: ReplayConfig, r: Room) {
    && ConfigValid(config) && Inv(setup, r) && r.system.live
    && setup.config.retryLimit > 0 && !setup.network.OneRevision?
  }

  lemma SnapAllowed(setup: P.Setup, config: ReplayConfig, r: Room, now: real)
    requires Serving(setup, config, r)
    ensures P.SnapshotAllowed(setup, r.system, SnapAt(r, now))
  {
    PollKeeps(r.world.inner, r.world.bounds, now);
  }

  function Due(setup: P.Setup, r: Room): TickInput
    requires Retire(r.system.stream, r.system.seen).pending != []
  {
    var now := Retire(r.system.stream, r.system.seen).pending[0].lastSent + setup.config.retryInterval;
    P.DueInput(setup, r.system, r.feed.data, SnapAt(r, now))
  }

  /** A tick that finds pages pending queues nothing. */
  lemma BusyTickFeed(config: StreamConfig, f: Feed, input: TickInput)
    requires Retire(f.stream, input.ack).pending != []
    ensures var g := TickFeed(config, f, input); g.base == f.base && g.data == f.data && g.replaced == f.replaced
  {
  }

  /** The front page is on the wire, behind everything received. */
  ghost predicate OnWire(s: P.System, index: nat) {
    && s.stream.pending != [] && index < |s.sent| && s.newest <= index
    && s.sent[index].packet == PagePacket(s.stream.pending[0].page)
  }

  lemma DueEnabled(setup: P.Setup, config: ReplayConfig, r: Room) returns (index: nat)
    requires Serving(setup, config, r) && Retire(r.system.stream, r.system.seen).pending != []
    requires P.Patient(setup.config, Retire(r.system.stream, r.system.seen))
    ensures Enabled(setup, r, Advance(P.TickAt(Due(setup, r))))
    ensures var t := P.AfterTick(setup, r.system, Due(setup, r));
            && P.Inv(setup, t) && t.live && OnWire(t, index)
            && t.stream.pending[1..] == Retire(r.system.stream, r.system.seen).pending[1..]
  {
    var input := Due(setup, r);
    SnapAllowed(setup, config, r, input.now);
    DueReads(setup, r);
    index := DueOnWire(setup, r.system, r.feed.data, input.snap, input);
  }

  lemma DueReads(setup: P.Setup, r: Room)
    requires Retire(r.system.stream, r.system.seen).pending != []
    ensures var input := Due(setup, r);
            ReadsRoom(r, input) && input == P.DueInput(setup, r.system, r.feed.data, input.snap) && input.snap == SnapAt(r, input.now)
  {
  }

  lemma DueOnWire(setup: P.Setup, s: P.System, data: Data, snap: Snapshot, input: TickInput) returns (index: nat)
    requires P.Inv(setup, s) && s.live && P.SnapshotAllowed(setup, s, snap)
    requires Retire(s.stream, s.seen).pending != [] && P.Patient(setup.config, Retire(s.stream, s.seen))
    requires input == P.DueInput(setup, s, data, snap)
    ensures P.Enabled(setup, s, P.TickAt(input))
    ensures var t := P.AfterTick(setup, s, input);
            && P.Inv(setup, t) && t.live && OnWire(t, index)
            && t.stream.pending[1..] == Retire(s.stream, s.seen).pending[1..]
  {
    index := P.DueTick(setup, s, data, snap);
  }

  lemma DueRoomTick(setup: P.Setup, config: ReplayConfig, r: Room) returns (index: nat, q: Room)
    requires Serving(setup, config, r) && Retire(r.system.stream, r.system.seen).pending != []
    requires P.Patient(setup.config, Retire(r.system.stream, r.system.seen))
    ensures Enabled(setup, r, Advance(P.TickAt(Due(setup, r)))) && q == Next(setup, config, r, Advance(P.TickAt(Due(setup, r))))
    ensures P.Inv(setup, q.system) && q.system.live && OnWire(q.system, index)
    ensures q.system.stream.pending[1..] == Retire(r.system.stream, r.system.seen).pending[1..]
    ensures q.feed.base == r.feed.base && q.feed.data == r.feed.data && q.world.bounds == r.world.bounds
  {
    var input := Due(setup, r);
    index := DueEnabled(setup, config, r);
    q := Next(setup, config, r, Advance(P.TickAt(input)));
    TickParts(setup, config, r, input);
    SameStream(setup, r);
    BusyTickFeed(setup.config, r.feed, input);
  }

  /** The front page on the wire is served. */
  lemma RoundInRoom(setup: P.Setup, config: ReplayConfig, q: Room, index: nat) returns (moves: seq<RoomMove>, done: Room)
    requires P.Inv(setup, q.system) && q.system.live && OnWire(q.system, index)
    ensures Play(setup, config, q, moves) == Some(done)
    ensures P.Inv(setup, done.system) && done.system.live && done.feed == q.feed && done.world == q.world
    ensures done.system.queued == q.system.queued && done.system.revision == q.system.revision
    ensures done.system.frameSequence == q.system.frameSequence
    ensures Retire(done.system.stream, done.system.seen).pending == q.system.stream.pending[1..]
  {
    var served := P.RoundDone(setup, q.system, index);
    moves := Advances(P.Round(q.system, index));
    done := PlayAdvances(setup, config, q, P.Round(q.system, index));
  }

  lemma PageInRoom(setup: P.Setup, config: ReplayConfig, r: Room) returns (moves: seq<RoomMove>, done: Room)
    requires Serving(setup, config, r) && Retire(r.system.stream, r.system.seen).pending != []
    requires P.Patient(setup.config, Retire(r.system.stream, r.system.seen))
    ensures Play(setup, config, r, moves) == Some(done) && Serving(setup, config, done)
    ensures done.feed.base == r.feed.base && done.feed.data == r.feed.data && done.world.bounds == r.world.bounds
    ensures Retire(done.system.stream, done.system.seen).pending == Retire(r.system.stream, r.system.seen).pending[1..]
  {
    var tick := Advance(P.TickAt(Due(setup, r)));
    var index, q := DueRoomTick(setup, config, r);
    var later: seq<RoomMove>;
    later, done := RoundInRoom(setup, config, q, index);
    PlayOne(setup, config, r, tick, later);
    moves := [tick] + later;
    PlayKeeps(setup, config, r, moves);
  }

  /** The queue drains in a room as it does on its own. */
  lemma {:induction false} RoomDrains(setup: P.Setup, config: ReplayConfig, r: Room) returns (moves: seq<RoomMove>, end: Room)
    requires Serving(setup, config, r) && P.Patient(setup.config, Retire(r.system.stream, r.system.seen))
    ensures Play(setup, config, r, moves) == Some(end) && Serving(setup, config, end)
    ensures end.feed.base == r.feed.base && end.feed.data == r.feed.data && end.world.bounds == r.world.bounds
    ensures Retire(end.system.stream, end.system.seen).pending == []
    decreases |Retire(r.system.stream, r.system.seen).pending|
  {
    if Retire(r.system.stream, r.system.seen).pending == [] {
      moves, end := [], r;
    } else {
      var first, done := PageInRoom(setup, config, r);
      P.PatienceLasts(setup.config, Retire(r.system.stream, r.system.seen), Retire(done.system.stream, done.system.seen));
      var later: seq<RoomMove>;
      later, end := RoomDrains(setup, config, done);
      PlayConcat(setup, config, r, first, later);
      moves := first + later;
    }
  }

  // ----- the first cursor -------------------------------------------------------------------

  function IdleInput(r: Room): TickInput {
    TickInput(r.system.seen, r.feed.data, SnapAt(r, 0.0), r.system.frameSequence + 1, 0.0, 0.0)
  }

  lemma PollFindsCursor(p: Inner, bounds: Bounds, now: real)
    requires bounds.Some?
    ensures Poll(p, bounds, now).cursor.Some?
  {
  }

  lemma PaginateFresh(events: seq<GlobalEvent>, sequence: nat, snap: Snapshot, baseline: bool, now: real)
    ensures var pages := Paginate(events, sequence, snap, baseline, now); forall i :: 0 <= i < |pages| ==> pages[i].attempts == 0
  {
    var pages := Paginate(events, sequence, snap, baseline, now);
    PaginateCount(events, sequence, snap, baseline, now);
    forall i | 0 <= i < |pages|
      ensures pages[i].attempts == 0
    {
      PaginateAt(events, sequence, snap, baseline, now, i);
    }
  }

  /** New pages have not been sent yet. */
  lemma NewPagesFresh(s: Stream, input: TickInput)
    requires s.pending == []
    ensures var ready := Refill(s, input.data, input.snap, input.now);
            forall i :: 0 <= i < |ready.pending| ==> ready.pending[i].attempts == 0
  {
    var events := EventsDue(s, input.data, input.snap);
    var baseline := NeedsBaseline(s, input.snap);
    var sequence := s.nextSequence + 1;
    PaginateFresh(events, sequence, input.snap, baseline, input.now);
    if baseline || events != [] {
      assert Refill(s, input.data, input.snap, input.now).pending == Paginate(events, sequence, input.snap, baseline, input.now);
    }
  }

  /** With nothing pending a tick over a store that holds anything records a cursor. */
  lemma IdleTickFeed(config: StreamConfig, f: Feed, input: TickInput)
    requires config.retryLimit > 0 && input.snap.cursor.Some? && Retire(f.stream, input.ack).pending == []
    ensures var ready := Refill(Retire(f.stream, input.ack), input.data, input.snap, input.now);
            Dispatch(ready, input, config).Sent? && Dispatch(ready, input, config).stream == TickFeed(config, f, input).stream
    ensures var g := TickFeed(config, f, input); g.base.Some? && g.data == f.data
  {
    var retired := Retire(f.stream, input.ack);
    NewPagesFresh(retired, input);
  }

  lemma IdleRoomTick(setup: P.Setup, config: ReplayConfig, r: Room) returns (q: Room)
    requires Serving(setup, config, r) && r.world.bounds.Some? && Retire(r.system.stream, r.system.seen).pending == []
    ensures Enabled(setup, r, Advance(P.TickAt(IdleInput(r))))
    ensures q == Next(setup, config, r, Advance(P.TickAt(IdleInput(r))))
    ensures Serving(setup, config, q) && q.feed.base.Some? && q.feed.data == r.feed.data && q.world.bounds == r.world.bounds
  {
    var input := IdleInput(r);
    SnapAllowed(setup, config, r, 0.0);
    PollFindsCursor(r.world.inner, r.world.bounds, 0.0);
    IdleTickFeed(setup.config, r.feed, input);
    q := Next(setup, config, r, Advance(P.TickAt(input)));
    NextKeeps(setup, config, r, Advance(P.TickAt(input)));
  }

  /** The pages it queued, if any: the front one is on the wire, the others have not been sent. */
  lemma IdleQueue(setup: P.Setup, r: Room, q: P.System) returns (index: nat)
    requires P.Inv(setup, r.system) && P.Enabled(setup, r.system, P.TickAt(IdleInput(r)))
    requires setup.config.retryLimit > 0 && Retire(r.system.stream, r.system.seen).pending == []
    requires q == P.AfterTick(setup, r.system, IdleInput(r))
    ensures q.stream.pending != [] ==> OnWire(q, index)
    ensures forall i :: 0 < i < |q.stream.pending| ==> q.stream.pending[i].attempts == 0
  {
    var input := IdleInput(r);
    var ready := P.ReadyStream(r.system, input);
    NewPagesFresh(Retire(r.system.stream, input.ack), input);
    index := 0;
    if ready.pending != [] {
      index := P.TickSendsFront(setup, r.system, input);
    }
  }

  lemma NothingToRetire(setup: P.Setup, s: P.System)
    requires P.Inv(setup, s) && s.stream.pending == []
    ensures Retire(s.stream, s.seen).pending == []
  {
  }

  lemma RestPatient(config: StreamConfig, a: Stream, b: Stream)
    requires config.retryLimit > 0 && a.pending != [] && b.pending == a.pending[1..]
    requires forall i :: 0 < i < |a.pending| ==> a.pending[i].attempts == 0
    ensures P.Patient(config, b)
  {
    assert forall i :: 0 <= i < |b.pending| ==> b.pending[i] == a.pending[i + 1];
  }

  /** A tick and the round of its front page, if it queued any. */
  lemma FirstCursor(setup: P.Setup, config: ReplayConfig, r: Room) returns (moves: seq<RoomMove>, end: Room)
    requires Serving(setup, config, r) && r.world.bounds.Some? && Retire(r.system.stream, r.system.seen).pending == []
    ensures Play(setup, config, r, moves) == Some(end) && Serving(setup, config, end)
    ensures end.feed.base.Some? && end.feed.data == r.feed.data
    ensures P.Patient(setup.config, Retire(end.system.stream, end.system.seen))
  {
    var tick := Advance(P.TickAt(IdleInput(r)));
    var q := IdleRoomTick(setup, config, r);
    TickParts(setup, config, r, IdleInput(r));
    var index := IdleQueue(setup, r, q.system);
    if q.system.stream.pending == [] {
      NothingToRetire(setup, q.system);
      PlayOne(setup, config, r, tick, []);
      moves, end := [tick] + [], q;
    } else {
      var later;
      later, end := FirstRound(setup, config, q, index);
      PlayOne(setup, config, r, tick, later);
      moves := [tick] + later;
    }
  }

  lemma FirstRound(setup: P.Setup, config: ReplayConfig, q: Room, index: nat) returns (moves: seq<RoomMove>, end: Room)
    requires Serving(setup, config, q) && OnWire(q.system, index)
    requires forall i :: 0 < i < |q.system.stream.pending| ==> q.system.stream.pending[i].attempts == 0
    ensures Play(setup, config, q, moves) == Some(end) && Serving(setup, config, end) && end.feed == q.feed
    ensures P.Patient(setup.config, Retire(end.system.stream, end.system.seen))
  {
    moves, end := RoundInRoom(setup, config, q, index);
    PlayKeeps(setup, config, q, moves);
    RestPatient(setup.config, q.system.stream, Retire(end.system.stream, end.system.seen));
  }

  /**
   From every moment of every run with a live subscriber, while the retry limit allows, some moves of the room
   lead to one in which the viewer has caught up: whatever the store holds, however the playback stands.
   */
  lemma RoomCatchesUp(setup: P.Setup, config: ReplayConfig, rooms: seq<Room>, played: seq<RoomMove>, i: nat)
    returns (moves: seq<RoomMove>, end: Room)
    requires R.Run(setup, config, rooms, played) && i < |rooms|
    requires rooms[i].system.live && rooms[i].world.bounds.Some?
    requires setup.config.retryLimit > 0 && !setup.network.OneRevision?
    requires P.Patient(setup.config, Retire(rooms[i].system.stream, rooms[i].system.seen))
    ensures Play(setup, config, rooms[i], moves) == Some(end)
    ensures CaughtUp(end) && end.system.live && end.feed.data == rooms[i].feed.data
  {
    RunInvariant(setup, config, rooms, played, i);
    moves, end := RoomDrains(setup, config, rooms[i]);
    if end.feed.base.None? {
      var first := moves;
      var mid := end;
      var second: seq<RoomMove>, third: seq<RoomMove>;
      second, end := FirstCursor(setup, config, mid);
      PlayConcat(setup, config, rooms[i], first, second);
      var last := end;
      third, end := RoomDrains(setup, config, last);
      PlayConcat(setup, config, rooms[i], first + second, third);
      moves := first + second + third;
    }
    P.AllApplied(setup, end.system);
  }
}
