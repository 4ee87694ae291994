/**
 A cursor room from end to end: the store grows and is replaced, the playback is commanded,
 the publisher ticks over both, the network loses, repeats and reorders, and the viewer
 folds what its client hands over.
 */
module Room {
  import opened Sorting
  import opened Store
  import opened Timeline
  import opened Playback
  import opened Publisher
  import opened Coverage
  import opened GearState
  import Client
  import P = Protocol

  datatype Room = Room(system: P.System, feed: Feed, world: World, gear: GearMap)

  datatype RoomMove =
    | Grow(arrival: Arrival, grown: Bounds)
    | Swap(data: Data, bounds: Bounds)  // clear or load, with the playback reset that follows it
    | Command(action: Action)           // a playback command, or a poll by someone else
    | Advance(move: P.Move)

  /** The viewer clears its gear map on a reset and folds every batch it is handed. */
  function Viewed(gear: GearMap, output: Client.Output): GearMap {
    match output
    case ResetTimeline(_, _) => map[]
    case ApplyBatch(page) => ApplyBatch(gear, page)
    case Silent => gear
    case ShowFrame(_) => gear
  }

  ghost predicate BoundsOf(data: Data, bounds: Bounds) {
    IsBounds(StampsIn(data, data.Keys), bounds)
  }

  /** The publisher reads the store, and the snapshot its poll of the playback yields. */
  predicate ReadsRoom(r: Room, input: TickInput) {
    && input.data == r.feed.data
    && input.snap == SnapshotOf(Poll(r.world.inner, r.world.bounds, input.now), r.world.bounds)
  }

  ghost predicate Enabled(setup: P.Setup, r: Room, m: RoomMove) {
    match m
    case Grow(arrival, grown) => BoundsOf(Arrived(r.feed.data, arrival), grown)
    case Swap(data, bounds) => WellFormed(data) && BoundsOf(data, bounds)
    case Command(action) => !action.Append? && !action.Replace?
    case Advance(move) => P.Enabled(setup, r.system, move) && (move.TickAt? ==> ReadsRoom(r, move.input))
  }

  function AfterTick(setup: P.Setup, config: ReplayConfig, r: Room, input: TickInput): Room {
    Room(P.AfterTick(setup, r.system, input), TickFeed(setup.config, r.feed, input),
         Apply(config, r.world, PollAt(input.now)), r.gear)
  }

  function Next(setup: P.Setup, config: ReplayConfig, r: Room, m: RoomMove): Room
    requires m.Advance? ==> P.Enabled(setup, r.system, m.move)
  {
    match m
    case Grow(arrival, grown) => r.(feed := Arrive(r.feed, arrival), world := Apply(config, r.world, Append(grown)))
    case Swap(data, bounds) => r.(feed := Reload(r.feed, data), world := Apply(config, r.world, Replace(bounds)))
    case Command(action) => r.(world := Apply(config, r.world, action))
    case Advance(move) =>
      match move
      case TickAt(input) => AfterTick(setup, config, r, input)
      case Deliver(index) =>
        r.(system := P.Next(setup, r.system, move),
           gear := Viewed(r.gear, Client.Receive(r.system.client, setup.epoch, r.system.sent[index].packet).1))
      case _ => r.(system := P.Next(setup, r.system, move))
  }

  /** From an empty store on; a subscriber that joins later ticks later. */
  ghost predicate Run(setup: P.Setup, config: ReplayConfig, rooms: seq<Room>, moves: seq<RoomMove>) {
    && ConfigValid(config)
    && |rooms| == |moves| + 1
    && (exists address, uuid, hz, now :: rooms[0] == Room(P.Start(address, uuid, hz, now), FIRST_FEED, Initial(config), map[]))
    && forall i :: 0 <= i < |moves| ==> Enabled(setup, rooms[i], moves[i]) && rooms[i + 1] == Next(setup, config, rooms[i], moves[i])
  }

  // ----- the invariant ------------------------------------------------------------

  /** The pages queued since the latest baseline are the tail of everything queued. */
  ghost predicate Tail(pages: seq<EventPage>, queued: seq<EventPage>) {
    |pages| <= |queued| && queued[|queued| - |pages|..] == pages
  }

  /** The viewer has folded what was applied, or was reset and waits for the next baseline. */
  ghost predicate GearOk(setup: P.Setup, s: P.System, gear: GearMap) {
    || gear == ApplyBatches(map[], s.applied)
    || (P.Awaiting(setup, s) && gear == map[])
  }

  /** The publisher's side: delivery, coverage, and both about the same queue. */
  ghost predicate QueueOk(setup: P.Setup, s: P.System, f: Feed) {
    && P.Inv(setup, s)
    && Covered(f)
    && f.stream == s.stream
    && Tail(f.pages, s.queued)
  }

  /** The newest page queued is of the timeline's present revision. */
  predicate Current(queued: seq<EventPage>, p: Inner) {
    queued != [] && queued[|queued| - 1].revision == p.revision
  }

  /** The timeline is consistent with the store, and ahead of what was queued from it. */
  ghost predicate TimelineOk(s: P.System, f: Feed, w: World) {
    && BoundsOf(f.data, w.bounds)
    && Consistent(w.inner, w.bounds)
    && s.revision <= w.inner.revision
    && (f.replaced ==> !Current(s.queued, w.inner))
    && (f.base.Some? && Current(s.queued, w.inner) ==> w.inner.cursor.Some?)
  }

  ghost predicate Inv(setup: P.Setup, r: Room) {
    && QueueOk(setup, r.system, r.feed)
    && TimelineOk(r.system, r.feed, r.world)
    && GearOk(setup, r.system, r.gear)
  }

  // ----- the timeline ------------------------------------------------------------------

  /** Nothing queued is of a later revision than the snapshots taken so far. */
  lemma QueuedRevisions(setup: P.Setup, s: P.System)
    requires P.Inv(setup, s)
    ensures QueueBehind(s)
  {
  }

  /** Nothing queued is of a later revision than the timeline. */
  predicate QueueBehind(s: P.System) {
    s.queued != [] ==> s.queued[|s.queued| - 1].revision <= s.revision
  }

  /** Whatever moves the timeline on without replacing the store keeps it ahead of the queue. */
  lemma LaterTimeline(s: P.System, f: Feed, w: World, g: Feed, v: World)
    requires QueueBehind(s) && TimelineOk(s, f, w)
    requires g.base == f.base && g.replaced == f.replaced
    requires BoundsOf(g.data, v.bounds) && Consistent(v.inner, v.bounds) && NotBefore(w.inner, v.inner)
    ensures TimelineOk(s, g, v)
  {
  }

  /** A step of the store and its timeline alone keeps the room. */
  lemma WorldStepKeeps(setup: P.Setup, r: Room, f: Feed, w: World)
    requires Inv(setup, r) && Covered(f) && f.stream == r.feed.stream && f.pages == r.feed.pages
    requires TimelineOk(r.system, f, w)
    ensures Inv(setup, r.(feed := f, world := w))
  {
  }

  lemma CommandKeeps(setup: P.Setup, config: ReplayConfig, r: Room, action: Action)
    requires ConfigValid(config) && Inv(setup, r) && Enabled(setup, r, Command(action))
    ensures Inv(setup, Next(setup, config, r, Command(action)))
  {
    var w := Apply(config, r.world, action);
    QueuedRevisions(setup, r.system);
    ApplyKeeps(config, r.world, action);
    LaterTimeline(r.system, r.feed, r.world, r.feed, w);
    WorldStepKeeps(setup, r, r.feed, w);
  }

  /** Arrivals only widen the bounds of the store. */
  lemma ArrivedExpands(data: Data, arrival: Arrival, x: Bounds, y: Bounds)
    requires BoundsOf(data, x) && BoundsOf(Arrived(data, arrival), y)
    ensures Expands(x, y)
  {
    match arrival
    case ArriveEvent(id, t, event) =>
      AppendExpandsBounds(data, id, t, [], event, TelemetryFrame("", 0, []), x, y);
    case ArriveState(id, t, state) =>
      AppendExpandsBounds(data, id, t, state, Despawn, TelemetryFrame("", 0, []), x, y);
    case ArriveTelemetry(id, t, frame) =>
      if TelemetryAccepted(data, id, frame) {
        AppendExpandsBounds(data, id, t, [], Despawn, frame, x, y);
      } else {
        MoreStampsExpand(StampsIn(data, data.Keys), StampsIn(data, data.Keys), x, y);
      }
  }

  lemma GrowKeeps(setup: P.Setup, config: ReplayConfig, r: Room, arrival: Arrival, grown: Bounds)
    requires ConfigValid(config) && Inv(setup, r) && Enabled(setup, r, Grow(arrival, grown))
    ensures Inv(setup, Next(setup, config, r, Grow(arrival, grown)))
  {
    var f, w := Arrive(r.feed, arrival), Apply(config, r.world, Append(grown));
    QueuedRevisions(setup, r.system);
    ArrivalKeeps(r.feed, arrival);
    ArriveFrames(r.feed, arrival);
    ArrivedExpands(r.feed.data, arrival, r.world.bounds, grown);
    ApplyKeeps(config, r.world, Append(grown));
    LaterTimeline(r.system, r.feed, r.world, f, w);
    WorldStepKeeps(setup, r, f, w);
  }

  lemma BoundsOrdered(data: Data, bounds: Bounds)
    requires BoundsOf(data, bounds)
    ensures bounds.Some? ==> bounds.value.0 <= bounds.value.1
  {
  }

  /** The playback reset raises the revision, so nothing queued is of the new one. */
  lemma SwapTimeline(config: ReplayConfig, s: P.System, f: Feed, w: World, data: Data, bounds: Bounds)
    requires QueueBehind(s) && TimelineOk(s, f, w) && BoundsOf(data, bounds)
    requires Consistent(Apply(config, w, Replace(bounds)).inner, bounds)
    ensures TimelineOk(s, Reload(f, data), Apply(config, w, Replace(bounds)))
  {
  }

  lemma SwapKeeps(setup: P.Setup, config: ReplayConfig, r: Room, data: Data, bounds: Bounds)
    requires ConfigValid(config) && Inv(setup, r) && Enabled(setup, r, Swap(data, bounds))
    ensures Inv(setup, Next(setup, config, r, Swap(data, bounds)))
  {
    var f, w := Reload(r.feed, data), Apply(config, r.world, Replace(bounds));
    QueuedRevisions(setup, r.system);
    ReloadKeeps(r.feed, data);
    BoundsOrdered(data, bounds);
    ApplyKeeps(config, r.world, Replace(bounds));
    SwapTimeline(config, r.system, r.feed, r.world, data, bounds);
    WorldStepKeeps(setup, r, f, w);
  }

  // ----- ticks ------------------------------------------------------------------------------

  lemma TailExtends(pages: seq<EventPage>, queued: seq<EventPage>, more: seq<EventPage>)
    requires Tail(pages, queued)
    ensures Tail(pages + more, queued + more) && Tail(more, queued + more)
  {
    var at := |queued| - |pages|;
    assert (queued + more)[at..] == queued[at..] + more;
  }

  /** A delta is queued only while the newest page is of the snapshot's revision. */
  lemma DeltaIsCurrent(setup: P.Setup, s: P.System, input: TickInput)
    requires P.Inv(setup, s) && P.Enabled(setup, s, P.TickAt(input))
    requires Retire(s.stream, input.ack).pending == [] && !NeedsBaseline(Retire(s.stream, input.ack), input.snap)
    ensures s.queued != [] && s.queued[|s.queued| - 1].revision == input.snap.revision
  {
    P.RetireOk(s.queued, s.stream, s.seen, s.session.eventAck, s.revision);
  }

  /** What the publisher reads in a room is a snapshot that fits its feed. */
  lemma RoomSnapshotFits(setup: P.Setup, r: Room, input: TickInput)
    requires Inv(setup, r) && Enabled(setup, r, Advance(P.TickAt(input)))
    ensures SnapshotFits(r.feed, input)
  {
    var p := r.world.inner;
    var polled := Poll(p, r.world.bounds, input.now);
    PollKeeps(p, r.world.bounds, input.now);
    if p.mode.Live? {
      LiveCursorCovers(r.feed.data, r.world.bounds, p, input.now);
    }
    PollStaysInReplay(p, r.world.bounds, input.now);
    var retired := Retire(r.feed.stream, input.ack);
    if retired.pending == [] && !NeedsBaseline(retired, input.snap) {
      DeltaIsCurrent(setup, r.system, input);
      QueuedRevisions(setup, r.system);
    }
  }

  lemma PollStaysInReplay(p: Inner, bounds: Bounds, now: real)
    ensures Poll(p, bounds, now).mode.Live? <==> p.mode.Live?
  {
  }

  /** Publisher and feed work on the same stream and queue the same pages. */
  lemma SameTick(setup: P.Setup, s: P.System, f: Feed, input: TickInput, retired: Stream, ready: Stream)
    requires f.stream == s.stream && retired == Retire(s.stream, input.ack)
    requires ready == Refill(retired, input.data, input.snap, input.now)
    ensures var t, g := P.AfterTick(setup, s, input), TickFeed(setup.config, f, input);
            if Dispatch(ready, input, setup.config).Sent? then
              && t.stream == g.stream
              && t.queued == (if retired.pending == [] then s.queued + Pages(ready.pending) else s.queued)
              && g.pages == (if retired.pending != [] then f.pages
                             else if NeedsBaseline(retired, input.snap) then Pages(ready.pending)
                             else f.pages + Pages(ready.pending))
            else t.stream == s.stream && t.queued == s.queued && g == f
  {
  }

  lemma TickLinks(setup: P.Setup, s: P.System, f: Feed, input: TickInput)
    requires f.stream == s.stream && Tail(f.pages, s.queued)
    ensures var t, g := P.AfterTick(setup, s, input), TickFeed(setup.config, f, input);
            g.stream == t.stream && Tail(g.pages, t.queued)
  {
    var retired := Retire(f.stream, input.ack);
    var ready := Refill(retired, input.data, input.snap, input.now);
    SameTick(setup, s, f, input, retired, ready);
    TailExtends(f.pages, s.queued, Pages(ready.pending));
  }

  /** How a tick changes what the timeline is compared with. */
  ghost predicate TickShape(f: Feed, g: Feed, queued: seq<EventPage>, queued': seq<EventPage>, snap: Snapshot) {
    && g.data == f.data
    && ((queued' == queued && g.base == f.base && g.replaced == f.replaced)
        || (!g.replaced && (g.base.Some? ==> snap.cursor.Some?)))
  }

  lemma TickChanges(setup: P.Setup, s: P.System, f: Feed, input: TickInput, retired: Stream, ready: Stream)
    requires f.stream == s.stream && retired == Retire(s.stream, input.ack) && SnapshotFits(f, input)
    requires ready == Refill(retired, input.data, input.snap, input.now)
    ensures TickShape(f, TickFeed(setup.config, f, input), s.queued, P.AfterTick(setup, s, input).queued, input.snap)
  {
    SameTick(setup, s, f, input, retired, ready);
  }

  lemma PolledTimeline(s: P.System, t: P.System, f: Feed, g: Feed, w: World, v: World, snap: Snapshot)
    requires QueueBehind(s) && TimelineOk(s, f, w) && TickShape(f, g, s.queued, t.queued, snap)
    requires v.bounds == w.bounds && Consistent(v.inner, v.bounds) && NotBefore(w.inner, v.inner)
    requires t.revision == snap.revision == v.inner.revision && snap.cursor == v.inner.cursor
    ensures TimelineOk(t, g, v)
  {
  }

  lemma TickTimeline(setup: P.Setup, config: ReplayConfig, r: Room, input: TickInput)
    requires ConfigValid(config) && Inv(setup, r) && Enabled(setup, r, Advance(P.TickAt(input)))
    ensures var next := AfterTick(setup, config, r, input); TimelineOk(next.system, next.feed, next.world)
  {
    var next := AfterTick(setup, config, r, input);
    RoomSnapshotFits(setup, r, input);
    PollKeeps(r.world.inner, r.world.bounds, input.now);
    QueuedRevisions(setup, r.system);
    TickChanges(setup, r.system, r.feed, input, Retire(r.system.stream, input.ack), P.ReadyStream(r.system, input));
    TickLeavesClient(setup, r.system, input);
    PolledTimeline(r.system, next.system, r.feed, next.feed, r.world, next.world, input.snap);
  }

  /** A reset viewer stays reset until the baseline page it waits for is applied. */
  lemma StillAwaiting(setup: P.Setup, s: P.System, t: P.System)
    requires P.Awaiting(setup, s) && P.Inv(setup, t)
    requires t.applied == s.applied && t.client.applied == 0
    ensures P.Awaiting(setup, t)
  {
  }

  lemma TickGear(setup: P.Setup, s: P.System, input: TickInput, gear: GearMap)
    requires P.Inv(setup, s) && P.Enabled(setup, s, P.TickAt(input)) && GearOk(setup, s, gear)
    ensures P.Inv(setup, P.AfterTick(setup, s, input)) && GearOk(setup, P.AfterTick(setup, s, input), gear)
  {
    P.TickKeeps(setup, s, input);
    TickLeavesClient(setup, s, input);
    if P.Awaiting(setup, s) {
      StillAwaiting(setup, s, P.AfterTick(setup, s, input));
    }
  }

  lemma TickLeavesClient(setup: P.Setup, s: P.System, input: TickInput)
    ensures var t := P.AfterTick(setup, s, input);
            t.applied == s.applied && t.client == s.client && t.revision == input.snap.revision
  {
  }

  lemma TickKeeps(setup: P.Setup, config: ReplayConfig, r: Room, input: TickInput)
    requires ConfigValid(config) && Inv(setup, r) && Enabled(setup, r, Advance(P.TickAt(input)))
    ensures Inv(setup, Next(setup, config, r, Advance(P.TickAt(input))))
  {
    TickTimeline(setup, config, r, input);
    TickGear(setup, r.system, input, r.gear);
    RoomSnapshotFits(setup, r, input);
    TickCovers(setup.config, r.feed, input);
    TickLinks(setup, r.system, r.feed, input);
  }

  /** What a tick makes of the parts of a room. */
  lemma TickParts(setup: P.Setup, config: ReplayConfig, r: Room, input: TickInput)
    requires P.Enabled(setup, r.system, P.TickAt(input))
    ensures var q := Next(setup, config, r, Advance(P.TickAt(input)));
            && q.system == P.AfterTick(setup, r.system, input) && q.feed == TickFeed(setup.config, r.feed, input)
            && q.world.bounds == r.world.bounds
  {
  }

  lemma SameStream(setup: P.Setup, r: Room)
    requires Inv(setup, r)
    ensures r.feed.stream == r.system.stream
  {
  }

  // ----- the client ---------------------------------------------------------------------------

  lemma BatchGear(setup: P.Setup, s: P.System, t: P.System, gear: GearMap, page: EventPage)
    requires P.ClientOk(setup, s) && P.ClientOk(setup, t) && t.queued == s.queued && t.applied == s.applied + [page]
    requires gear == ApplyBatches(map[], s.applied) || (P.Awaiting(setup, s) && gear == map[])
    ensures ApplyBatch(gear, page) == ApplyBatches(map[], t.applied)
  {
    assert t.applied[..|s.applied|] == s.applied;
    assert t.applied[|s.applied|] == s.queued[|s.applied|];
  }

  /** What receiving one packet can do to the batches applied and to the client's counter. */
  lemma DeliverShape(setup: P.Setup, s: P.System, index: nat)
    requires index < |s.sent|
    ensures var t := P.AfterDeliver(setup, s, index);
            var output := Client.Receive(s.client, setup.epoch, s.sent[index].packet).1;
            && t.queued == s.queued && t.stream == s.stream && t.revision == s.revision
            && t.applied == s.applied + (if output.ApplyBatch? then [output.page] else [])
            && (output.ResetTimeline? ==> t.client.applied == 0)
            && (output.Silent? || output.ShowFrame? ==> t.client.applied == s.client.applied || t.client.applied == 0)
  {
  }

  lemma ReleaseShape(s: P.System)
    ensures var t := P.Note(s, Client.Release(s.client));
            && t.queued == s.queued && t.stream == s.stream && t.revision == s.revision
            && t.applied == s.applied && t.client.applied == s.client.applied
  {
  }

  lemma ResetAwaits(setup: P.Setup, t: P.System)
    requires P.Inv(setup, t) && t.client.applied == 0
    ensures P.Awaiting(setup, t) || t.applied == []
  {
  }

  /** The viewer's map follows any step of the client. */
  lemma ViewedOk(setup: P.Setup, s: P.System, t: P.System, gear: GearMap, output: Client.Output)
    requires P.Inv(setup, s) && P.Inv(setup, t) && t.queued == s.queued && GearOk(setup, s, gear)
    requires t.applied == s.applied + (if output.ApplyBatch? then [output.page] else [])
    requires output.ResetTimeline? ==> t.client.applied == 0
    requires output.Silent? || output.ShowFrame? ==> t.client.applied == s.client.applied || t.client.applied == 0
    ensures GearOk(setup, t, Viewed(gear, output))
  {
    if output.ApplyBatch? {
      BatchGear(setup, s, t, gear, output.page);
    } else {
      assert t.applied == s.applied;
      if output.ResetTimeline? {
        ResetAwaits(setup, t);
      } else {
        QuietGear(setup, s, t, gear);
      }
    }
  }

  lemma QuietGear(setup: P.Setup, s: P.System, t: P.System, gear: GearMap)
    requires P.Inv(setup, t) && GearOk(setup, s, gear) && t.applied == s.applied
    requires t.client.applied == s.client.applied || t.client.applied == 0
    ensures GearOk(setup, t, gear)
  {
    if P.Awaiting(setup, s) {
      StillAwaiting(setup, s, t);
    }
  }

  /** A step of the client alone keeps the room. */
  lemma ClientStepKeeps(setup: P.Setup, r: Room, next: Room)
    requires Inv(setup, r) && P.Inv(setup, next.system) && GearOk(setup, next.system, next.gear)
    requires next.feed == r.feed && next.world == r.world
    requires var t := next.system;
             t.queued == r.system.queued && t.stream == r.system.stream && t.revision == r.system.revision
    ensures Inv(setup, next)
  {
  }

  lemma DeliverNext(setup: P.Setup, config: ReplayConfig, r: Room, index: nat)
    requires index < |r.system.sent| && P.Enabled(setup, r.system, P.Deliver(index))
    ensures Next(setup, config, r, Advance(P.Deliver(index)))
              == r.(system := P.AfterDeliver(setup, r.system, index),
                    gear := Viewed(r.gear, Client.Receive(r.system.client, setup.epoch, r.system.sent[index].packet).1))
  {
  }

  lemma QuietNext(setup: P.Setup, config: ReplayConfig, r: Room, move: P.Move)
    requires P.Enabled(setup, r.system, move) && !move.TickAt? && !move.Deliver?
    ensures Next(setup, config, r, Advance(move)) == r.(system := P.Next(setup, r.system, move))
  {
  }

  lemma DeliverGear(setup: P.Setup, s: P.System, index: nat, gear: GearMap, t: P.System, output: Client.Output)
    requires P.Inv(setup, s) && P.Enabled(setup, s, P.Deliver(index)) && GearOk(setup, s, gear)
    requires t == P.AfterDeliver(setup, s, index)
    requires output == Client.Receive(s.client, setup.epoch, s.sent[index].packet).1
    ensures P.Inv(setup, t) && GearOk(setup, t, Viewed(gear, output))
    ensures t.queued == s.queued && t.stream == s.stream && t.revision == s.revision
  {
    P.NextKeeps(setup, s, P.Deliver(index));
    DeliverShape(setup, s, index);
    ViewedOk(setup, s, t, gear, output);
  }

  lemma DeliverKeeps(setup: P.Setup, config: ReplayConfig, r: Room, index: nat)
    requires Inv(setup, r) && P.Enabled(setup, r.system, P.Deliver(index))
    ensures Inv(setup, Next(setup, config, r, Advance(P.Deliver(index))))
  {
    var next := Next(setup, config, r, Advance(P.Deliver(index)));
    var output := Client.Receive(r.system.client, setup.epoch, r.system.sent[index].packet).1;
    DeliverNext(setup, config, r, index);
    DeliverGear(setup, r.system, index, r.gear, next.system, output);
    ClientStepKeeps(setup, r, next);
  }

  /** Listing sessions, releasing a held frame and an arriving acknowledgement leave queue and applied batches alone. */
  lemma QuietShape(setup: P.Setup, s: P.System, move: P.Move)
    requires P.Enabled(setup, s, move) && !move.TickAt? && !move.Deliver?
    ensures var t := P.Next(setup, s, move);
            && t.queued == s.queued && t.stream == s.stream && t.revision == s.revision
            && t.applied == s.applied && t.client.applied == s.client.applied
  {
    ReleaseShape(s);
  }

  lemma QuietMove(setup: P.Setup, s: P.System, move: P.Move, gear: GearMap, t: P.System)
    requires P.Inv(setup, s) && P.Enabled(setup, s, move) && !move.TickAt? && !move.Deliver? && GearOk(setup, s, gear)
    requires t == P.Next(setup, s, move)
    ensures P.Inv(setup, t) && GearOk(setup, t, gear)
    ensures t.queued == s.queued && t.stream == s.stream && t.revision == s.revision
  {
    P.NextKeeps(setup, s, move);
    QuietShape(setup, s, move);
    QuietGear(setup, s, t, gear);
  }

  lemma QuietKeeps(setup: P.Setup, config: ReplayConfig, r: Room, move: P.Move)
    requires Inv(setup, r) && P.Enabled(setup, r.system, move) && !move.TickAt? && !move.Deliver?
    ensures Inv(setup, Next(setup, config, r, Advance(move)))
  {
    var next := Next(setup, config, r, Advance(move));
    QuietNext(setup, config, r, move);
    QuietMove(setup, r.system, move, r.gear, next.system);
    ClientStepKeeps(setup, r, next);
  }

  // ----- runs ---------------------------------------------------------------------------------

  lemma AdvanceKeeps(setup: P.Setup, config: ReplayConfig, r: Room, move: P.Move)
    requires ConfigValid(config) && Inv(setup, r) && Enabled(setup, r, Advance(move))
    ensures Inv(setup, Next(setup, config, r, Advance(move)))
  {
    if move.TickAt? {
      TickKeeps(setup, config, r, move.input);
    } else if move.Deliver? {
      DeliverKeeps(setup, config, r, move.index);
    } else {
      QuietKeeps(setup, config, r, move);
    }
  }

  lemma NextKeeps(setup: P.Setup, config: ReplayConfig, r: Room, m: RoomMove)
    requires ConfigValid(config) && Inv(setup, r) && Enabled(setup, r, m)
    ensures Inv(setup, Next(setup, config, r, m))
  {
    match m
    case Grow(arrival, grown) => GrowKeeps(setup, config, r, arrival, grown);
    case Swap(data, bounds) => SwapKeeps(setup, config, r, data, bounds);
    case Command(action) => CommandKeeps(setup, config, r, action);
    case Advance(move) => AdvanceKeeps(setup, config, r, move);
  }

  lemma StartOk(setup: P.Setup, config: ReplayConfig, rooms: seq<Room>, moves: seq<RoomMove>)
    requires Run(setup, config, rooms, moves)
    ensures Inv(setup, rooms[0])
  {
    var empty: Data := map[];
    assert StampsIn(empty, empty.Keys) == {};
  }

  lemma {:induction false} RunInvariant(setup: P.Setup, config: ReplayConfig, rooms: seq<Room>, moves: seq<RoomMove>, i: nat)
    requires Run(setup, config, rooms, moves) && i < |rooms|
    ensures Inv(setup, rooms[i])
  {
    if i == 0 {
      StartOk(setup, config, rooms, moves);
    } else {
      RunInvariant(setup, config, rooms, moves, i - 1);
      NextKeeps(setup, config, rooms[i - 1], moves[i - 1]);
    }
  }

  /** The revision the publisher sees never falls behind: that clause of its step is no restriction on a run. */
  lemma SnapshotsNeverStale(setup: P.Setup, config: ReplayConfig, rooms: seq<Room>, moves: seq<RoomMove>, i: nat, input: TickInput)
    requires Run(setup, config, rooms, moves) && i < |rooms| && ReadsRoom(rooms[i], input)
    ensures rooms[i].system.revision <= input.snap.revision
  {
    RunInvariant(setup, config, rooms, moves, i);
    PollKeeps(rooms[i].world.inner, rooms[i].world.bounds, input.now);
  }

  // ----- what the viewer ends up with ------------------------------------------------

  /** Every queued page has been applied, and a cursor has been recorded since the latest baseline. */
  predicate CaughtUp(r: Room) {
    r.feed.base.Some? && |r.system.applied| == |r.system.queued|
  }

  /**
   Delta coverage, end to end: once the client has caught up, the batches it applied since
   the baseline hold what the baseline describes followed by exactly the events seen after
   its cursor and up to the cursor last recorded, in (timestamp, aircraft) order.  What was
   seen is the store without the events that came too late, and that is all it lacks.
   */
  lemma AppliedCoversStore(setup: P.Setup, config: ReplayConfig, rooms: seq<Room>, moves: seq<RoomMove>, i: nat)
    returns (before: seq<EventPage>)
    requires Run(setup, config, rooms, moves) && i < |rooms| && CaughtUp(rooms[i])
    ensures var f := rooms[i].feed;
            && rooms[i].system.applied == before + f.pages && OneBaseline(f.pages)
            && Recorded(f.stream).Some? && f.base.value <= Recorded(f.stream).value
            && PageEvents(f.pages) == f.opening + f.delta
            && Interleaves(f.opening, OpeningOf(f.seen, f.visible, f.base.value))
            && Interleaves(f.delta, OpenRange(f.seen, f.base.value, Recorded(f.stream).value))
            && (!f.replaced ==> Aligned(f, Recorded(f.stream).value))
  {
    RunInvariant(setup, config, rooms, moves, i);
    var r := rooms[i];
    var queued := r.system.queued;
    assert r.system.applied == queued;
    before := queued[..|queued| - |r.feed.pages|];
    assert queued == before + r.feed.pages;
  }

  /** Until a cursor is recorded the client is sent nothing but empty pages. */
  lemma NothingBeforeCursor(setup: P.Setup, config: ReplayConfig, rooms: seq<Room>, moves: seq<RoomMove>, i: nat)
    requires Run(setup, config, rooms, moves) && i < |rooms| && rooms[i].feed.base.None?
    ensures Tail(rooms[i].feed.pages, rooms[i].system.queued) && PageEvents(rooms[i].feed.pages) == []
  {
    RunInvariant(setup, config, rooms, moves, i);
  }

  /** The deltas lack nothing stored after the baseline cursor, if and only if no such event came too late. */
  lemma DeltasCompleteIff(setup: P.Setup, config: ReplayConfig, rooms: seq<Room>, moves: seq<RoomMove>, i: nat)
    requires Run(setup, config, rooms, moves) && i < |rooms| && rooms[i].feed.base.Some? && !rooms[i].feed.replaced
    ensures Recorded(rooms[i].feed.stream).Some?
    ensures Complete(rooms[i].feed, rooms[i].feed.base.value, Recorded(rooms[i].feed.stream).value)
            <==> NoneLate(rooms[i].feed, rooms[i].feed.base.value)
  {
    RunInvariant(setup, config, rooms, moves, i);
    CompleteIff(rooms[i].feed);
  }

  /**
   A subscriber that joined an empty store is told the whole history up to the recorded cursor if and only
   if nothing is stored by the first cursor and nothing came late; what is stored by it is never sent.
   */
  lemma EarlySubscriberIff(setup: P.Setup, config: ReplayConfig, rooms: seq<Room>, moves: seq<RoomMove>, i: nat)
    requires Run(setup, config, rooms, moves) && i < |rooms|
    requires rooms[i].feed.base.Some? && rooms[i].feed.cursorless && !rooms[i].feed.replaced
    ensures Recorded(rooms[i].feed.stream).Some?
    ensures Interleaves(PageEvents(rooms[i].feed.pages), HistoryUpTo(rooms[i].feed.data, Recorded(rooms[i].feed.stream).value))
            <==> NothingBy(rooms[i].feed.data, rooms[i].feed.base.value) && NoneLate(rooms[i].feed, rooms[i].feed.base.value)
    ensures Spans(PageEvents(rooms[i].feed.pages), rooms[i].feed.base.value, Recorded(rooms[i].feed.stream).value)
  {
    RunInvariant(setup, config, rooms, moves, i);
    CursorlessCompleteIff(rooms[i].feed);
    FirstEventsNeverQueued(rooms[i].feed);
  }

  lemma FoldOfCaughtUp(setup: P.Setup, config: ReplayConfig, rooms: seq<Room>, moves: seq<RoomMove>, i: nat)
    requires Run(setup, config, rooms, moves) && i < |rooms| && CaughtUp(rooms[i])
    ensures Inv(setup, rooms[i])
    ensures rooms[i].gear == Fold(map[], PageEvents(rooms[i].feed.pages))
  {
    RunInvariant(setup, config, rooms, moves, i);
    var before := AppliedCoversStore(setup, config, rooms, moves, i);
    PageSplitIrrelevant(map[], before, rooms[i].feed.pages);
    assert !P.Awaiting(setup, rooms[i].system);
  }

  /**
   The gear the viewer shows for an aircraft spawned at the recorded cursor is the gear the
   history seen gives, if and only if the baseline and the deltas informed it.
   */
  lemma ViewerAgreesIff(setup: P.Setup, config: ReplayConfig, rooms: seq<Room>, moves: seq<RoomMove>, i: nat, x: AircraftId)
    requires Run(setup, config, rooms, moves) && i < |rooms| && CaughtUp(rooms[i])
    requires Recorded(rooms[i].feed.stream).Some?
    requires SpawnedAt(SeriesOf(rooms[i].feed.seen, x).events, Num(Recorded(rooms[i].feed.stream).value))
    ensures var f := rooms[i].feed;
            var events, base, cursor := SeriesOf(f.seen, x).events, f.base.value, Recorded(f.stream).value;
            (GearIn(rooms[i].gear, x) == ScanGear(Filter(events, UpTo(cursor))))
            <==> Informed(x in f.visible, Filter(events, UpTo(base)), Filter(events, Between(base, cursor)))
  {
    FoldOfCaughtUp(setup, config, rooms, moves, i);
    var f := rooms[i].feed;
    RemoteAgreesIff(f, x, f.base.value, Recorded(f.stream).value);
  }

  /**
   Against the store itself, for every aircraft, spawned or not, and however late its events came: exactly when
   the viewer shows what the history stored up to the recorded cursor gives.
   */
  lemma ViewerAgreesWithStoreIff(setup: P.Setup, config: ReplayConfig, rooms: seq<Room>, moves: seq<RoomMove>, i: nat, x: AircraftId)
    requires Run(setup, config, rooms, moves) && i < |rooms| && CaughtUp(rooms[i]) && !rooms[i].feed.replaced
    ensures Recorded(rooms[i].feed.stream).Some?
    ensures var f := rooms[i].feed;
            var base, cursor := f.base.value, Recorded(f.stream).value;
            (GearIn(rooms[i].gear, x) == ScanGear(Filter(SeriesOf(f.data, x).events, UpTo(cursor))))
            <==> InformedOf(SeriesOf(f.seen, x).events, SeriesOf(f.late, x).events, x in f.visible, base, cursor, cursor)
  {
    FoldOfCaughtUp(setup, config, rooms, moves, i);
    var f := rooms[i].feed;
    StoreAgreesIff(f, x, f.base.value, Recorded(f.stream).value, Recorded(f.stream).value);
  }

  /** Of an aircraft none of whose events came too late, all that is stored has been seen. */
  lemma SeenIsStored(setup: P.Setup, config: ReplayConfig, rooms: seq<Room>, moves: seq<RoomMove>, i: nat, x: AircraftId)
    requires Run(setup, config, rooms, moves) && i < |rooms| && rooms[i].feed.base.Some? && !rooms[i].feed.replaced
    requires SeriesOf(rooms[i].feed.late, x).events == []
    ensures SeriesOf(rooms[i].feed.seen, x).events == SeriesOf(rooms[i].feed.data, x).events
  {
    RunInvariant(setup, config, rooms, moves, i);
    assert OmitsOnlyAt(rooms[i].feed, x);
  }

  /**
   So for every aircraft none of whose events came too late, and that was sampled at the baseline or
   spawned in a later delta, the viewer shows what the full history of the store gives.
   */
  lemma ViewerAgrees(setup: P.Setup, config: ReplayConfig, rooms: seq<Room>, moves: seq<RoomMove>, i: nat, x: AircraftId)
    requires Run(setup, config, rooms, moves) && i < |rooms| && CaughtUp(rooms[i]) && !rooms[i].feed.replaced
    requires Recorded(rooms[i].feed.stream).Some? && SeriesOf(rooms[i].feed.late, x).events == []
    requires SpawnedAt(SeriesOf(rooms[i].feed.data, x).events, Num(Recorded(rooms[i].feed.stream).value))
    requires var f := rooms[i].feed;
             x in f.sampled
               || exists e :: e in SeriesOf(f.data, x).events && e.value.Spawn? && f.base.value < e.t <= Recorded(f.stream).value
    ensures var f := rooms[i].feed;
            GearIn(rooms[i].gear, x) == ScanGear(Filter(SeriesOf(f.data, x).events, UpTo(Recorded(f.stream).value)))
  {
    FoldOfCaughtUp(setup, config, rooms, moves, i);
    SeenIsStored(setup, config, rooms, moves, i, x);
    var f := rooms[i].feed;
    RemoteAgrees(f, x, f.base.value, Recorded(f.stream).value);
  }
}
