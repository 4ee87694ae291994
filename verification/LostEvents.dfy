/**
 Feeds in which the stream lacks stored events: the inputs behind the exact conditions on
 what a subscriber is sent.
 */
module LostEvents {
  import opened Common
  import opened Sorting
  import opened Store
  import opened Timeline
  import opened Playback
  import opened Publisher
  import opened Coverage
  import opened GearState
  import opened Sessions
  import P = Protocol
  import opened R = Room
  import A = AnyNetwork
  import C = CatchingUp

  // ----- failing inputs -------------------------------------------------------------------------

  function LiveAt(cursor: Option<real>, speed: real): Snapshot {
    Snapshot(Live, cursor, speed, if cursor.Some? then Some((1.0, cursor.value)) else None, 0)
  }

  /** A tick over an empty live store, and the first spawn. */
  function JoinedEarly(config: StreamConfig, info: SpawnInfo): Feed {
    Arrive(TickFeed(config, FIRST_FEED, TickInput(0, map[], LiveAt(None, 1.0), 1, 0.0, 0.0)), ArriveEvent(0, 1.0, Spawn(info)))
  }

  /** The next tick, at the cursor of that spawn. */
  function FirstCursorAt(config: StreamConfig, info: SpawnInfo): Feed {
    var f := JoinedEarly(config, info);
    TickFeed(config, f, TickInput(1, f.data, LiveAt(Some(1.0), 1.0), 2, 0.0, 0.0))
  }

  lemma JoinedEarlyIs(config: StreamConfig, info: SpawnInfo)
    requires config.retryLimit > 0
    ensures var f := JoinedEarly(config, info);
            && Covered(f) && f.base.None? && f.cursorless && !f.replaced && f.pages == [EventPage(1, 0, true, true, [])]
            && Retire(f.stream, 1) == f.stream.(lastRevision := Some(0), lastCursor := None, pending := [])
            && SeriesOf(f.data, 0).events == [Sample(1.0, Spawn(info))] && f.data.Keys == {0}
  {
    var tick := TickInput(0, map[], LiveAt(None, 1.0), 1, 0.0, 0.0);
    TickCovers(config, FIRST_FEED, tick);
    var f := TickFeed(config, FIRST_FEED, tick);
    assert f.stream.pending == [Pending(EventPage(1, 0, true, true, []), None, 0.0, 1)];
    ArrivalKeeps(f, ArriveEvent(0, 1.0, Spawn(info)));
    InsertFirst(Sample(1.0, Spawn(info)));
  }

  lemma InsertFirst(e: Sample<Event>)
    ensures Insert([], e, ByTime()) == [e]
  {
    ByTimeTotal<Event>();
    InsertAtEnd([], e, ByTime());
  }

  lemma FirstCursorIs(config: StreamConfig, info: SpawnInfo)
    requires config.retryLimit > 0
    ensures var f := FirstCursorAt(config, info);
            && f.stream.pending == [] && f.stream.lastRevision == Some(0) && f.stream.lastCursor == Some(1.0)
            && f.base == Some(1.0) && f.cursorless && !f.replaced && f.pages == [EventPage(1, 0, true, true, [])]
            && f.late == map[] && f.seen == f.data && f.visible == {}
            && SeriesOf(f.data, 0).events == [Sample(1.0, Spawn(info))] && f.data.Keys == {0}
  {
    JoinedEarlyIs(config, info);
    var f := JoinedEarly(config, info);
    assert f.pages + [] == f.pages;
  }

  lemma FirstCursorCovered(config: StreamConfig, info: SpawnInfo)
    requires config.retryLimit > 0
    ensures Covered(FirstCursorAt(config, info))
  {
    JoinedEarlyIs(config, info);
    var f := JoinedEarly(config, info);
    TickCovers(config, f, TickInput(1, f.data, LiveAt(Some(1.0), 1.0), 2, 0.0, 0.0));
  }

  /** A subscriber that joined before the first spawn: it is stored by the first cursor, and in no page. */
  lemma FirstSpawnMissed(config: StreamConfig, info: SpawnInfo)
    requires config.retryLimit > 0
    ensures var f := FirstCursorAt(config, info);
            && Covered(f) && f.base == Some(1.0) && Recorded(f.stream) == Some(1.0) && f.cursorless && !f.replaced
            && PageEvents(f.pages) == [] && !NothingBy(f.data, 1.0)
            && !Interleaves(PageEvents(f.pages), HistoryUpTo(f.data, 1.0))
  {
    FirstCursorIs(config, info);
    FirstCursorCovered(config, info);
    var f := FirstCursorAt(config, info);
    assert f.data[0].events[0].t <= 1.0;
    CursorlessCompleteIff(f);
  }

  /** An event at 3 that the next tick streams, so that 3 is the cursor recorded. */
  function StreamedTo3(config: StreamConfig, info: SpawnInfo, event: Event): Feed {
    var f := Arrive(FirstCursorAt(config, info), ArriveEvent(0, 3.0, event));
    TickFeed(config, f, TickInput(1, f.data, LiveAt(Some(3.0), 1.0), 3, 0.0, 0.0))
  }

  /** An older event that arrives now is lost: the stream was complete, and is not any more. */
  lemma OlderEventLost(config: StreamConfig, info: SpawnInfo, event: Event, older: Event)
    requires config.retryLimit > 0
    ensures var f := StreamedTo3(config, info, event);
            && Covered(f) && f.base == Some(1.0) && Recorded(f.stream) == Some(3.0) && !f.replaced
            && Complete(f, 1.0, 3.0) && !Complete(Arrive(f, ArriveEvent(0, 2.0, older)), 1.0, 3.0)
  {
    StreamedTo3Is(config, info, event);
    var f := StreamedTo3(config, info, event);
    CompleteIff(f);
    EventKeepsCompleteIff(f, 0, 2.0, older);
  }

  /** A delta tick over an empty queue records the new cursor and changes nothing but what it queues. */
  lemma DeltaTick(config: StreamConfig, f: Feed, input: TickInput)
    requires config.retryLimit > 0 && f.base.Some? && f.stream.pending == [] && !NeedsBaseline(f.stream, input.snap)
    ensures var g := TickFeed(config, f, input);
            && g.base == f.base && g.replaced == f.replaced && g.late == f.late && g.seen == f.seen && g.data == f.data
            && g.visible == f.visible && Recorded(g.stream) == input.snap.cursor
  {
    var ready := Refill(f.stream, input.data, input.snap, input.now);
    RefilledPages(f.stream, EventsDue(f.stream, input.data, input.snap), input.snap, input.now);
    NewPagesNotGivenUp(config, f.stream, input);
    DispatchKeepsRecorded(ready, input, config);
  }

  lemma NewPagesNotGivenUp(config: StreamConfig, s: Stream, input: TickInput)
    requires config.retryLimit > 0 && s.pending == []
    ensures Dispatch(Refill(s, input.data, input.snap, input.now), input, config).Sent?
  {
  }

  lemma LiveFits(f: Feed, cursor: real, ack: nat, sequence: nat)
    requires f.stream.pending == [] && f.stream.lastRevision == Some(0) && !f.replaced
    requires f.stream.lastCursor.Some? && f.stream.lastCursor.value <= cursor && CursorCovers(f.data, cursor)
    ensures var input := TickInput(ack, f.data, LiveAt(Some(cursor), 1.0), sequence, 0.0, 0.0);
            SnapshotFits(f, input) && !NeedsBaseline(f.stream, input.snap)
  {
  }

  lemma StreamedTo3Is(config: StreamConfig, info: SpawnInfo, event: Event)
    requires config.retryLimit > 0
    ensures var f := StreamedTo3(config, info, event);
            && Covered(f) && f.base == Some(1.0) && Recorded(f.stream) == Some(3.0) && !f.replaced
            && f.late == map[] && f.seen == f.data && f.visible == {}
            && SeriesOf(f.data, 0).events == [Sample(1.0, Spawn(info)), Sample(3.0, event)]
  {
    var e := FirstCursorAt(config, info);
    var f := Arrive(e, ArriveEvent(0, 3.0, event));
    FirstCursorIs(config, info);
    FirstCursorCovered(config, info);
    ArrivalKeeps(e, ArriveEvent(0, 3.0, event));
    ArriveFrames(e, ArriveEvent(0, 3.0, event));
    SecondEvent(e, info, event);
    LiveFits(f, 3.0, 1, 3);
    var input := TickInput(1, f.data, LiveAt(Some(3.0), 1.0), 3, 0.0, 0.0);
    TickCovers(config, f, input);
    DeltaTick(config, f, input);
  }

  lemma SecondEvent(e: Feed, info: SpawnInfo, event: Event)
    requires e.stream.pending == [] && e.stream.lastCursor == Some(1.0) && e.late == map[] && e.seen == e.data
    requires SeriesOf(e.data, 0).events == [Sample(1.0, Spawn(info))] && e.data.Keys == {0}
    ensures var f := Arrive(e, ArriveEvent(0, 3.0, event));
            && CursorCovers(f.data, 3.0) && f.late == map[] && f.seen == f.data
            && SeriesOf(f.data, 0).events == [Sample(1.0, Spawn(info)), Sample(3.0, event)]
  {
    ByTimeTotal<Event>();
    InsertAtEnd([Sample(1.0, Spawn(info))], Sample(3.0, event), ByTime());
  }

  /** A gear command that arrives too late: the viewer is not told, and the history says down. */
  lemma LateGearUnseen(config: StreamConfig, info: SpawnInfo, name: string)
    requires config.retryLimit > 0 && name != GEAR_UP && name != GEAR_DOWN
    ensures var f := Arrive(StreamedTo3(config, info, Custom(name)), ArriveEvent(0, 2.0, Custom(GEAR_DOWN)));
            && Covered(f) && Recorded(f.stream) == Some(3.0)
            && GearIn(Fold(map[], PageEvents(f.pages)), 0) == None
            && ScanGear(Filter(SeriesOf(f.data, 0).events, UpTo(3.0))) == Some(true)
  {
    StreamedTo3Is(config, info, Custom(name));
    var e := StreamedTo3(config, info, Custom(name));
    var f := Arrive(e, ArriveEvent(0, 2.0, Custom(GEAR_DOWN)));
    ArrivalKeeps(e, ArriveEvent(0, 2.0, Custom(GEAR_DOWN)));
    LateCommand(e, info, name);
    var seen := SeriesOf(f.seen, 0).events;
    ToldNothing(info, name);
    GearMissed(info, name);
    RemoteValue(f, 0, 1.0, 3.0);
    assert OmitsOnlyAt(f, 0);
    StoredScan(SeriesOf(f.data, 0).events, seen, SeriesOf(f.late, 0).events, 3.0);
  }

  lemma LateCommand(e: Feed, info: SpawnInfo, name: string)
    requires e.base.Some? && Recorded(e.stream) == Some(3.0) && e.late == map[] && e.seen == e.data && e.visible == {}
    requires SeriesOf(e.data, 0).events == [Sample(1.0, Spawn(info)), Sample(3.0, Custom(name))]
    ensures var f := Arrive(e, ArriveEvent(0, 2.0, Custom(GEAR_DOWN)));
            && f.base == e.base && f.stream == e.stream && f.pages == e.pages && f.visible == {} && f.replaced == e.replaced
            && SeriesOf(f.seen, 0).events == [Sample(1.0, Spawn(info)), Sample(3.0, Custom(name))]
            && SeriesOf(f.late, 0).events == [Sample(2.0, Custom(GEAR_DOWN))]
  {
    InsertFirst(Sample(2.0, Custom(GEAR_DOWN)));
  }

  lemma ToldNothing(info: SpawnInfo, name: string)
    requires name != GEAR_UP && name != GEAR_DOWN
    ensures var seen := [Sample(1.0, Spawn(info)), Sample(3.0, Custom(name))];
            Known(Told(false, Filter(seen, UpTo(1.0)), Filter(seen, Between(1.0, 3.0)))).None?
  {
    var seen := [Sample(1.0, Spawn(info)), Sample(3.0, Custom(name))];
    FilterMiddle(seen, Between(1.0, 3.0), 1, 2);
    assert seen[1..2] == [Sample(3.0, Custom(name))];
    assert [] + seen[1..2] == seen[1..2];
  }

  lemma GearMissed(info: SpawnInfo, name: string)
    requires name != GEAR_UP && name != GEAR_DOWN
    ensures var seen, late := [Sample(1.0, Spawn(info)), Sample(3.0, Custom(name))], [Sample(2.0, Custom(GEAR_DOWN))];
            Overruled(seen, late, 3.0) && Missed(late, 3.0) == Some(true)
  {
    var seen, late := [Sample(1.0, Spawn(info)), Sample(3.0, Custom(name))], [Sample(2.0, Custom(GEAR_DOWN))];
    assert seen[..1] == [Sample(1.0, Spawn(info))];
    assert LastWhere(seen, DecidesBy(3.0)) == LastWhere(seen[..1], DecidesBy(3.0)) == Some(Sample(1.0, Spawn(info)));
    assert LastWhere(late, DecidesBy(3.0)) == Some(late[0]);
  }

  // ----- in a room ------------------------------------------------------------------------

  function StartRoom(setup: P.Setup, config: ReplayConfig, address: Address, uuid: Uuid, requestedHz: real): Room {
    Room(P.Start(address, uuid, requestedHz, 0.0), FIRST_FEED, Initial(config), map[])
  }

  function FirstTick(): TickInput {
    TickInput(0, map[], LiveAt(None, 1.0), 1, 0.0, 0.0)
  }

  /** The tick over the empty store puts its one page on the wire. */
  lemma FirstTickSent(setup: P.Setup, s: P.System, address: Address, uuid: Uuid, requestedHz: real)
    requires s == P.Start(address, uuid, requestedHz, 0.0)
    requires setup.config.retryLimit > 0 && !setup.network.OneRevision?
    ensures P.Enabled(setup, s, P.TickAt(FirstTick()))
    ensures var t := P.AfterTick(setup, s, FirstTick());
            && t.live && C.OnWire(t, 1) && |t.stream.pending| == 1
            && t.queued == [EventPage(1, 0, true, true, [])] && t.frameSequence == 1 && t.revision == 0
  {
    A.EmptyBaselineTick(setup, s, FirstTick());
    TickKeepsNewest(setup, s, FirstTick());
  }

  lemma FirstTickInv(setup: P.Setup, s: P.System, address: Address, uuid: Uuid, requestedHz: real)
    requires s == P.Start(address, uuid, requestedHz, 0.0) && P.Enabled(setup, s, P.TickAt(FirstTick()))
    ensures P.Inv(setup, P.AfterTick(setup, s, FirstTick()))
  {
    StartInv(setup, s, address, uuid, requestedHz);
    P.TickKeeps(setup, s, FirstTick());
  }

  lemma StartInv(setup: P.Setup, s: P.System, address: Address, uuid: Uuid, requestedHz: real)
    requires s == P.Start(address, uuid, requestedHz, 0.0)
    ensures P.Inv(setup, s)
  {
  }

  lemma TickKeepsNewest(setup: P.Setup, s: P.System, input: TickInput)
    ensures P.AfterTick(setup, s, input).newest == s.newest
  {
  }

  lemma FirstTickInRoom(setup: P.Setup, config: ReplayConfig, r: Room, address: Address, uuid: Uuid, requestedHz: real) returns (q: Room)
    requires r == StartRoom(setup, config, address, uuid, requestedHz) && config.defaultSpeed == 1.0
    requires setup.config.retryLimit > 0 && !setup.network.OneRevision?
    ensures Enabled(setup, r, Advance(P.TickAt(FirstTick()))) && q == Next(setup, config, r, Advance(P.TickAt(FirstTick())))
    ensures P.Inv(setup, q.system) && q.system.live && C.OnWire(q.system, 1) && |q.system.stream.pending| == 1
    ensures q.system.queued == [EventPage(1, 0, true, true, [])] && q.system.frameSequence == 1 && q.system.revision == 0
    ensures q.feed == TickFeed(setup.config, FIRST_FEED, FirstTick()) && q.world == Initial(config)
  {
    FirstTickSent(setup, r.system, address, uuid, requestedHz);
    FirstTickInv(setup, r.system, address, uuid, requestedHz);
    q := Next(setup, config, r, Advance(P.TickAt(FirstTick())));
    TickParts(setup, config, r, FirstTick());
  }

  lemma SeenOne(setup: P.Setup, s: P.System)
    requires P.Inv(setup, s) && |s.queued| == 1 && Retire(s.stream, s.seen).pending == []
    ensures s.seen == 1
  {
    P.RetireOk(s.queued, s.stream, s.seen, s.session.eventAck, s.revision);
  }

  lemma SpawnBounds(info: SpawnInfo)
    ensures var arrival := ArriveEvent(0, 1.0, Spawn(info)); BoundsOf(Arrived(map[], arrival), Some((1.0, 1.0)))
  {
    var data := Arrived(map[], ArriveEvent(0, 1.0, Spawn(info)));
    InsertFirst(Sample(1.0, Spawn(info)));
    assert data.Keys == {0} && data[0].events == [Sample(1.0, Spawn(info))];
    assert data[0].events[0].t in StampsOf(data[0].events);
    assert 0 in data.Keys && 1.0 in AllSeriesStamps(data[0]);
    assert 1.0 in StampsIn(data, data.Keys);
  }

  lemma SpawnInRoom(setup: P.Setup, config: ReplayConfig, r: Room, info: SpawnInfo) returns (grown: Room)
    requires r.feed == TickFeed(setup.config, FIRST_FEED, FirstTick()) && r.world == Initial(config)
    ensures var grow := Grow(ArriveEvent(0, 1.0, Spawn(info)), Some((1.0, 1.0)));
            Enabled(setup, r, grow) && grown == Next(setup, config, r, grow)
    ensures grown.system == r.system && grown.feed == JoinedEarly(setup.config, info)
    ensures grown.world == Initial(config).(bounds := Some((1.0, 1.0)))
  {
    SpawnBounds(info);
    grown := Next(setup, config, r, Grow(ArriveEvent(0, 1.0, Spawn(info)), Some((1.0, 1.0))));
  }

  lemma SecondTickReads(config: ReplayConfig, w: World)
    requires w == Initial(config).(bounds := Some((1.0, 1.0))) && config.defaultSpeed == 1.0
    ensures LiveAt(Some(1.0), 1.0) == SnapshotOf(Poll(w.inner, w.bounds, 0.0), w.bounds)
  {
  }

  /** The spawn arrives once the empty page has been applied, acknowledged and listed. */
  lemma SpawnAndTick(setup: P.Setup, config: ReplayConfig, r: Room, info: SpawnInfo) returns (moves: seq<RoomMove>, end: Room)
    requires r.system.live && r.system.seen == 1 && r.system.frameSequence == 1 && r.system.revision == 0
    requires !setup.network.OneRevision? && config.defaultSpeed == 1.0
    requires r.feed == TickFeed(setup.config, FIRST_FEED, FirstTick()) && r.world == Initial(config)
    ensures C.Play(setup, config, r, moves) == Some(end)
    ensures end.feed == FirstCursorAt(setup.config, info)
  {
    var grow := Grow(ArriveEvent(0, 1.0, Spawn(info)), Some((1.0, 1.0)));
    var grown := SpawnInRoom(setup, config, r, info);
    SecondTickReads(config, grown.world);
    var input := TickInput(1, grown.feed.data, LiveAt(Some(1.0), 1.0), 2, 0.0, 0.0);
    var tick := Advance(P.TickAt(input));
    TickParts(setup, config, grown, input);
    end := Next(setup, config, grown, tick);
    C.PlayOne(setup, config, grown, tick, []);
    C.PlayOne(setup, config, r, grow, [tick] + []);
    moves := [grow] + ([tick] + []);
  }

  /** The round of the first page leaves counters and store alone. */
  lemma FirstRound(setup: P.Setup, config: ReplayConfig, q: Room) returns (moves: seq<RoomMove>, done: Room)
    requires P.Inv(setup, q.system) && q.system.live && C.OnWire(q.system, 1) && |q.system.stream.pending| == 1
    requires q.system.queued == [EventPage(1, 0, true, true, [])]
    ensures C.Play(setup, config, q, moves) == Some(done) && P.Inv(setup, done.system) && done.system.live
    ensures done.feed == q.feed && done.world == q.world && done.system.queued == q.system.queued && done.system.seen == 1
    ensures done.system.frameSequence == q.system.frameSequence && done.system.revision == q.system.revision
  {
    moves, done := C.RoundInRoom(setup, config, q, 1);
    SeenOne(setup, done.system);
  }

  /**
   A run of the room in which the first spawn is lost to a subscriber that was there before it: the viewer has
   caught up, and nothing it was ever sent speaks of the aircraft.
   */
  lemma EarlySubscriberExample(setup: P.Setup, config: ReplayConfig, address: Address, uuid: Uuid, requestedHz: real, info: SpawnInfo)
    returns (moves: seq<RoomMove>, end: Room)
    requires setup.config.retryLimit > 0 && !setup.network.OneRevision? && ConfigValid(config) && config.defaultSpeed == 1.0
    ensures C.Play(setup, config, StartRoom(setup, config, address, uuid, requestedHz), moves) == Some(end)
    ensures end.feed.base == Some(1.0) && end.feed.cursorless && !end.feed.replaced
    ensures PageEvents(end.feed.pages) == [] && !NothingBy(end.feed.data, 1.0)
  {
    var r := StartRoom(setup, config, address, uuid, requestedHz);
    var tick := Advance(P.TickAt(FirstTick()));
    var q := FirstTickInRoom(setup, config, r, address, uuid, requestedHz);
    var round, done := FirstRound(setup, config, q);
    var rest;
    rest, end := SpawnAndTick(setup, config, done, info);
    C.PlayConcat(setup, config, q, round, rest);
    C.PlayOne(setup, config, r, tick, round + rest);
    moves := [tick] + (round + rest);
    FirstSpawnMissed(setup.config, info);
  }
}
