/**
 What a frame is shown with: the gear the viewer has folded when it shows a frame, against
 the history at that frame's cursor.
 */
module Frames {
  import opened Common
  import opened Sorting
  import opened Store
  import opened Timeline
  import opened Playback
  import opened Publisher
  import opened Coverage
  import opened GearState
  import Client
  import P = Protocol
  import opened R = Room

  /** The tick that sent the frame, and the room right after it. */
  ghost predicate SentBy(input: TickInput, q: Room, frame: Frame) {
    && frame.sequence == input.frameSequence && frame.cursor == input.snap.cursor
    && frame.watermark == |q.system.queued| && q.system.live
  }

  /** Some tick so far has sent the frame. */
  ghost predicate Traced(rooms: seq<Room>, moves: seq<RoomMove>, i: nat, frame: Frame)
    requires i <= |moves| < |rooms|
  {
    exists k :: 0 <= k < i && moves[k].Advance? && moves[k].move.TickAt? && SentBy(moves[k].move.input, rooms[k + 1], frame)
  }

  /** Every frame on the wire, held, or shown. */
  ghost predicate AllTraced(rooms: seq<Room>, moves: seq<RoomMove>, i: nat)
    requires i <= |moves| < |rooms|
  {
    var s := rooms[i].system;
    && (forall j :: 0 <= j < |s.sent| && s.sent[j].packet.FramePacket? ==> Traced(rooms, moves, i, s.sent[j].packet.frame))
    && (s.client.pendingFrame.Some? ==> Traced(rooms, moves, i, s.client.pendingFrame.value))
  }

  lemma TracedLater(rooms: seq<Room>, moves: seq<RoomMove>, i: nat, frame: Frame)
    requires i < |moves| < |rooms| && Traced(rooms, moves, i, frame)
    ensures Traced(rooms, moves, i + 1, frame)
  {
  }

  /** The frames a tick puts on the wire are its own. */
  lemma TickFrames(setup: P.Setup, s: P.System, input: TickInput)
    requires P.Inv(setup, s) && P.Enabled(setup, s, P.TickAt(input))
    ensures var t := P.AfterTick(setup, s, input);
            && s.sent <= t.sent && t.client == s.client
            && forall j :: |s.sent| <= j < |t.sent| && t.sent[j].packet.FramePacket? ==>
                 var frame := t.sent[j].packet.frame;
                 && frame.sequence == input.frameSequence && frame.cursor == input.snap.cursor
                 && frame.watermark == |t.queued| && t.live
  {
    var t := P.AfterTick(setup, s, input);
    P.TickKeeps(setup, s, input);
    TickSends(setup, s, input);
    forall j | |s.sent| <= j < |t.sent| && t.sent[j].packet.FramePacket?
      ensures t.sent[j].packet.frame.watermark == |t.queued|
    {
      assert P.WireOk(t.queued, P.Working(t.queued, t.stream), P.TagOf(t.queued, t.stream), t.sent[j]);
    }
  }

  lemma TickSends(setup: P.Setup, s: P.System, input: TickInput)
    ensures var t := P.AfterTick(setup, s, input);
            && s.sent <= t.sent && t.client == s.client && (|s.sent| < |t.sent| ==> t.live == s.live)
            && forall j :: |s.sent| <= j < |t.sent| ==>
                 && t.sent[j].queuedThen == |t.queued|
                 && (t.sent[j].packet.FramePacket? ==>
                       t.sent[j].packet.frame.sequence == input.frameSequence && t.sent[j].packet.frame.cursor == input.snap.cursor)
  {
    var ready := P.ReadyStream(s, input);
    if Dispatch(ready, input, setup.config).Sent? {
      DispatchFrames(ready, input, setup.config);
      var packets := Dispatch(ready, input, setup.config).packets;
      var queued := P.ReadyQueue(s, input);
      var t := P.AfterTick(setup, s, input);
      assert t.sent == s.sent + P.Wires(packets, P.TagOf(queued, ready), |queued|);
    }
  }

  lemma DispatchFrames(ready: Stream, input: TickInput, config: StreamConfig)
    requires Dispatch(ready, input, config).Sent?
    ensures forall j :: 0 <= j < |Dispatch(ready, input, config).packets| && Dispatch(ready, input, config).packets[j].FramePacket? ==>
              var frame := Dispatch(ready, input, config).packets[j].frame;
              frame.sequence == input.frameSequence && frame.cursor == input.snap.cursor
  {
    P.DispatchShape(ready, input, config);
  }

  /** No other move puts frames on the wire, and a client holds only frames from it. */
  lemma QuietFrames(setup: P.Setup, s: P.System, move: P.Move)
    requires P.Enabled(setup, s, move) && !move.TickAt?
    ensures var t := P.Next(setup, s, move);
            && t.sent == s.sent
            && (t.client.pendingFrame.Some? ==>
                  t.client.pendingFrame == s.client.pendingFrame
                  || (move.Deliver? && s.sent[move.index].packet == FramePacket(t.client.pendingFrame.value)))
  {
  }

  lemma AdvanceTraced(setup: P.Setup, config: ReplayConfig, rooms: seq<Room>, moves: seq<RoomMove>, i: nat)
    requires R.Run(setup, config, rooms, moves) && i < |moves| && moves[i].Advance? && AllTraced(rooms, moves, i)
    ensures AllTraced(rooms, moves, i + 1)
  {
    var s, t, move := rooms[i].system, rooms[i + 1].system, moves[i].move;
    RunInvariant(setup, config, rooms, moves, i);
    if move.TickAt? {
      TickFrames(setup, s, move.input);
    } else {
      QuietFrames(setup, s, move);
    }
    SystemFollows(setup, config, rooms[i], move);
    forall j | 0 <= j < |t.sent| && t.sent[j].packet.FramePacket?
      ensures Traced(rooms, moves, i + 1, t.sent[j].packet.frame)
    {
      if j < |s.sent| {
        assert t.sent[j] == s.sent[j];
        TracedLater(rooms, moves, i, s.sent[j].packet.frame);
      } else {
        assert SentBy(moves[i].move.input, rooms[i + 1], t.sent[j].packet.frame);
      }
    }
    if t.client.pendingFrame.Some? {
      HeldTraced(setup, s, t, move, rooms, moves, i);
    }
  }

  lemma HeldTraced(setup: P.Setup, s: P.System, t: P.System, move: P.Move, rooms: seq<Room>, moves: seq<RoomMove>, i: nat)
    requires i < |moves| < |rooms| && s == rooms[i].system && AllTraced(rooms, moves, i) && t.client.pendingFrame.Some?
    requires t.client.pendingFrame == s.client.pendingFrame
             || (move.Deliver? && move.index < |s.sent| && s.sent[move.index].packet == FramePacket(t.client.pendingFrame.value))
    ensures Traced(rooms, moves, i + 1, t.client.pendingFrame.value)
  {
    TracedLater(rooms, moves, i, t.client.pendingFrame.value);
  }

  lemma SystemFollows(setup: P.Setup, config: ReplayConfig, r: Room, move: P.Move)
    requires P.Enabled(setup, r.system, move)
    ensures Next(setup, config, r, Advance(move)).system == P.Next(setup, r.system, move)
  {
  }

  lemma OtherMove(setup: P.Setup, config: ReplayConfig, r: Room, m: RoomMove)
    requires !m.Advance?
    ensures Next(setup, config, r, m).system == r.system
  {
  }

  lemma {:induction false} RunTraced(setup: P.Setup, config: ReplayConfig, rooms: seq<Room>, moves: seq<RoomMove>, i: nat)
    requires R.Run(setup, config, rooms, moves) && i < |rooms|
    ensures AllTraced(rooms, moves, i)
  {
    if i > 0 {
      var k := i - 1;
      RunTraced(setup, config, rooms, moves, k);
      assert rooms[k + 1] == Next(setup, config, rooms[k], moves[k]);
      if moves[k].Advance? {
        AdvanceTraced(setup, config, rooms, moves, k);
      } else {
        OtherMove(setup, config, rooms[k], moves[k]);
        StillTraced(rooms, moves, k);
      }
    }
  }

  lemma StillTraced(rooms: seq<Room>, moves: seq<RoomMove>, k: nat)
    requires k < |moves| < |rooms| && rooms[k + 1].system == rooms[k].system && AllTraced(rooms, moves, k)
    ensures AllTraced(rooms, moves, k + 1)
  {
    var s := rooms[k].system;
    forall j | 0 <= j < |s.sent| && s.sent[j].packet.FramePacket?
      ensures Traced(rooms, moves, k + 1, s.sent[j].packet.frame)
    {
      TracedLater(rooms, moves, k, s.sent[j].packet.frame);
    }
    if s.client.pendingFrame.Some? {
      TracedLater(rooms, moves, k, s.client.pendingFrame.value);
    }
  }

  // ----- the queue since --------------------------------------------------------------------

  lemma QueuePrefixStep(setup: P.Setup, config: ReplayConfig, r: Room, m: RoomMove)
    requires ConfigValid(config) && Inv(setup, r) && Enabled(setup, r, m)
    ensures r.system.queued <= Next(setup, config, r, m).system.queued
  {
    if m.Advance? {
      SystemFollows(setup, config, r, m.move);
      if m.move.TickAt? {
        P.TickServer(setup, r.system, m.move.input);
      } else {
        P.MoveLeavesQueue(setup, r.system, m.move);
      }
    } else {
      OtherMove(setup, config, r, m);
    }
  }

  lemma {:induction false} QueuePrefix(setup: P.Setup, config: ReplayConfig, rooms: seq<Room>, moves: seq<RoomMove>, k: nat, i: nat)
    requires R.Run(setup, config, rooms, moves) && k <= i < |rooms|
    ensures rooms[k].system.queued <= rooms[i].system.queued
    decreases i - k
  {
    if k < i {
      var j := i - 1;
      QueuePrefix(setup, config, rooms, moves, k, j);
      RunInvariant(setup, config, rooms, moves, j);
      assert rooms[j + 1] == Next(setup, config, rooms[j], moves[j]);
      QueuePrefixStep(setup, config, rooms[j], moves[j]);
    }
  }

  // ----- the moment a frame is shown ----------------------------------------------------------

  /** The move shows a frame: one just delivered, or the one held. */
  predicate Shows(before: Room, after: Room) {
    |after.system.shown| == |before.system.shown| + 1
  }

  function ShownFrame(after: Room): Frame
    requires after.system.shown != []
  {
    after.system.shown[|after.system.shown| - 1].frame
  }

  /** A frame shown was on the wire or held, its pages were applied before, and the gear stays. */
  lemma ShowStep(setup: P.Setup, s: P.System, move: P.Move)
    requires P.Enabled(setup, s, move) && |P.Next(setup, s, move).shown| == |s.shown| + 1
    ensures var t := P.Next(setup, s, move);
            var frame := t.shown[|s.shown|].frame;
            && (s.client.pendingFrame == Some(frame)
                || (move.Deliver? && s.sent[move.index].packet == FramePacket(frame)
                    && Client.Receive(s.client, setup.epoch, s.sent[move.index].packet).1 == Client.ShowFrame(frame)))
            && (move.Deliver? || move.ReleaseFrame?)
            && frame.watermark <= s.client.applied && t.applied == s.applied && t.queued == s.queued
  {
  }

  lemma OnlyTheStreamShows(setup: P.Setup, config: ReplayConfig, r: Room, m: RoomMove)
    requires Enabled(setup, r, m) && Shows(r, Next(setup, config, r, m))
    ensures m.Advance?
  {
    if !m.Advance? {
      OtherMove(setup, config, r, m);
      assert false;
    }
  }

  /** Where a frame shown comes from, and that the move that shows it leaves the gear alone. */
  lemma ShownFrom(setup: P.Setup, config: ReplayConfig, r: Room, move: P.Move, q: Room)
    requires P.Enabled(setup, r.system, move) && q == Next(setup, config, r, Advance(move)) && Shows(r, q)
    ensures q.gear == r.gear && q.system.shown != [] && q.system.applied == r.system.applied
    ensures ShownFrame(q).watermark <= r.system.client.applied
    ensures r.system.client.pendingFrame == Some(ShownFrame(q))
            || (move.Deliver? && move.index < |r.system.sent| && r.system.sent[move.index].packet == FramePacket(ShownFrame(q)))
  {
    SystemFollows(setup, config, r, move);
    ShowStep(setup, r.system, move);
    GearStays(setup, config, r, move);
  }

  /** The viewer's map when it shows a frame is the fold of what has been applied. */
  lemma MapWhenShown(setup: P.Setup, r: Room, q: Room)
    requires Inv(setup, r) && Inv(setup, q) && q.gear == r.gear && q.system.shown != []
    requires q.system.applied == r.system.applied && ShownFrame(q).watermark <= r.system.client.applied
    ensures 1 <= ShownFrame(q).watermark <= |r.system.applied| && q.gear == ApplyBatches(map[], r.system.applied)
  {
    LastShown(setup, q.system);
    SteadyGear(setup, r.system, r.gear);
  }

  /** A client that can show a frame is not between a reset and its baseline. */
  lemma SteadyGear(setup: P.Setup, s: P.System, gear: GearMap)
    requires P.Inv(setup, s) && GearOk(setup, s, gear) && 0 < s.client.applied
    ensures gear == ApplyBatches(map[], s.applied)
  {
  }

  lemma GearStays(setup: P.Setup, config: ReplayConfig, r: Room, move: P.Move)
    requires P.Enabled(setup, r.system, move) && (move.Deliver? || move.ReleaseFrame?)
    requires move.Deliver? ==> Client.Receive(r.system.client, setup.epoch, r.system.sent[move.index].packet).1.ShowFrame?
    ensures Next(setup, config, r, Advance(move)).gear == r.gear
  {
  }

  lemma LastShown(setup: P.Setup, s: P.System)
    requires P.Inv(setup, s) && s.shown != []
    ensures 1 <= s.shown[|s.shown| - 1].frame.watermark <= |s.applied|
  {
  }

  // ----- the gear behind a frame ----------------------------------------------------------------

  lemma PagesFound(setup: P.Setup, r: Room)
    requires Inv(setup, r) && r.system.queued != []
    ensures OneBaseline(r.feed.pages)
  {
  }

  /** Once everything queued by then has been applied, the map is the fold of the pages since the baseline. */
  lemma FoldOfQueue(setup: P.Setup, r: Room)
    requires Inv(setup, r) && r.system.queued != []
    ensures ApplyBatches(map[], r.system.queued) == Fold(map[], PageEvents(r.feed.pages))
  {
    PagesFound(setup, r);
    var queued, pages := r.system.queued, r.feed.pages;
    var before := queued[..|queued| - |pages|];
    assert queued == before + pages;
    PageSplitIrrelevant(map[], before, pages);
  }

  /** A tick that finds nothing pending has queued, or recorded, everything up to its cursor. */
  lemma IdleTickRecords(config: StreamConfig, f: Feed, input: TickInput)
    requires Retire(f.stream, input.ack).pending == []
    requires Dispatch(Refill(Retire(f.stream, input.ack), input.data, input.snap, input.now), input, config).Sent?
    ensures Recorded(TickFeed(config, f, input).stream) == input.snap.cursor
  {
    var retired := Retire(f.stream, input.ack);
    RefilledPages(retired, EventsDue(retired, input.data, input.snap), input.snap, input.now);
    DispatchKeepsRecorded(Refill(retired, input.data, input.snap, input.now), input, config);
  }

  lemma LiveWasSent(setup: P.Setup, s: P.System, input: TickInput)
    requires P.AfterTick(setup, s, input).live
    ensures Dispatch(P.ReadyStream(s, input), input, setup.config).Sent?
  {
  }

  /** So a frame sent while nothing was pending has the cursor recorded. */
  lemma IdleFrameCursor(setup: P.Setup, config: ReplayConfig, r: Room, input: TickInput)
    requires Inv(setup, r) && Enabled(setup, r, Advance(P.TickAt(input)))
    requires Retire(r.system.stream, input.ack).pending == [] && Next(setup, config, r, Advance(P.TickAt(input))).system.live
    ensures Recorded(Next(setup, config, r, Advance(P.TickAt(input))).feed.stream) == input.snap.cursor
  {
    TickParts(setup, config, r, input);
    SameStream(setup, r);
    LiveWasSent(setup, r.system, input);
    IdleTickRecords(setup.config, r.feed, input);
  }

  /** When the gear agrees with the history at the frame's cursor, as stored when the frame was sent. */
  lemma FrameGearIff(setup: P.Setup, r: Room, x: AircraftId, cursor: real)
    requires Inv(setup, r) && r.feed.base.Some? && !r.feed.replaced
    ensures Recorded(r.feed.stream).Some?
    ensures var f := r.feed;
            Recorded(f.stream).value <= cursor ==>
              ((GearIn(Fold(map[], PageEvents(f.pages)), x) == ScanGear(Filter(SeriesOf(f.data, x).events, UpTo(cursor))))
               <==> InformedOf(SeriesOf(f.seen, x).events, SeriesOf(f.late, x).events, x in f.visible,
                               f.base.value, Recorded(f.stream).value, cursor))
  {
    var f := r.feed;
    if Recorded(f.stream).value <= cursor {
      StoreAgreesIff(f, x, f.base.value, Recorded(f.stream).value, cursor);
    }
  }

  /**
   The gear shown with a frame, over every run: when a frame is shown before any later page has been applied,
   the viewer's map is the fold of what was queued when the frame was sent.  Its gear for an aircraft is the one
   the history stored then gives at the frame's own cursor exactly under the condition of the stream itself,
   stretched over what lies between the cursor recorded then and the frame's: nothing, unless pages of an
   older cursor were still in flight.
   */
  lemma ShownFrameGearIff(setup: P.Setup, config: ReplayConfig, rooms: seq<Room>, moves: seq<RoomMove>, i: nat, x: AircraftId)
    returns (k: nat)
    requires R.Run(setup, config, rooms, moves) && i < |moves| && Shows(rooms[i], rooms[i + 1])
    requires ShownFrame(rooms[i + 1]).watermark == |rooms[i].system.applied|
    ensures k < i && moves[k].Advance? && moves[k].move.TickAt? && SentBy(moves[k].move.input, rooms[k + 1], ShownFrame(rooms[i + 1]))
    ensures rooms[i + 1].gear == Fold(map[], PageEvents(rooms[k + 1].feed.pages))
    ensures Retire(rooms[k].system.stream, moves[k].move.input.ack).pending == []
            ==> Recorded(rooms[k + 1].feed.stream) == ShownFrame(rooms[i + 1]).cursor
    ensures var f, frame := rooms[k + 1].feed, ShownFrame(rooms[i + 1]);
            f.base.Some? && !f.replaced && frame.cursor.Some? ==>
              && Recorded(f.stream).Some?
              && (Recorded(f.stream).value <= frame.cursor.value ==>
                    ((GearIn(rooms[i + 1].gear, x) == ScanGear(Filter(SeriesOf(f.data, x).events, UpTo(frame.cursor.value))))
                     <==> InformedOf(SeriesOf(f.seen, x).events, SeriesOf(f.late, x).events, x in f.visible,
                                     f.base.value, Recorded(f.stream).value, frame.cursor.value)))
  {
    k := SenderOf(setup, config, rooms, moves, i);
    FrameMap(setup, config, rooms, moves, i, k);
    RunInvariant(setup, config, rooms, moves, k + 1);
    var f, frame := rooms[k + 1].feed, ShownFrame(rooms[i + 1]);
    if f.base.Some? && !f.replaced && frame.cursor.Some? {
      FrameGearIff(setup, rooms[k + 1], x, frame.cursor.value);
    }
    if Retire(rooms[k].system.stream, moves[k].move.input.ack).pending == [] {
      RunInvariant(setup, config, rooms, moves, k);
      IdleFrameCursor(setup, config, rooms[k], moves[k].move.input);
    }
  }

  /** The tick that sent a frame shown. */
  lemma SenderOf(setup: P.Setup, config: ReplayConfig, rooms: seq<Room>, moves: seq<RoomMove>, i: nat) returns (k: nat)
    requires R.Run(setup, config, rooms, moves) && i < |moves| && Shows(rooms[i], rooms[i + 1])
    ensures rooms[i + 1].system.shown != []
    ensures k < i && moves[k].Advance? && moves[k].move.TickAt? && SentBy(moves[k].move.input, rooms[k + 1], ShownFrame(rooms[i + 1]))
  {
    assert rooms[i + 1] == Next(setup, config, rooms[i], moves[i]);
    OnlyTheStreamShows(setup, config, rooms[i], moves[i]);
    ShownFrom(setup, config, rooms[i], moves[i].move, rooms[i + 1]);
    RunTraced(setup, config, rooms, moves, i);
    var frame := ShownFrame(rooms[i + 1]);
    assert Traced(rooms, moves, i, frame);
    k :| 0 <= k < i && moves[k].Advance? && moves[k].move.TickAt? && SentBy(moves[k].move.input, rooms[k + 1], frame);
  }

  /** With nothing applied since, the map shown with the frame is the fold of what was queued when it was sent. */
  lemma FrameMap(setup: P.Setup, config: ReplayConfig, rooms: seq<Room>, moves: seq<RoomMove>, i: nat, k: nat)
    requires R.Run(setup, config, rooms, moves) && k < i < |moves| && Shows(rooms[i], rooms[i + 1])
    requires rooms[i + 1].system.shown != [] && |rooms[k + 1].system.queued| == |rooms[i].system.applied|
    ensures rooms[i + 1].gear == Fold(map[], PageEvents(rooms[k + 1].feed.pages))
  {
    assert rooms[i + 1] == Next(setup, config, rooms[i], moves[i]);
    OnlyTheStreamShows(setup, config, rooms[i], moves[i]);
    ShownFrom(setup, config, rooms[i], moves[i].move, rooms[i + 1]);
    RunInvariant(setup, config, rooms, moves, i);
    RunInvariant(setup, config, rooms, moves, i + 1);
    RunInvariant(setup, config, rooms, moves, k + 1);
    MapWhenShown(setup, rooms[i], rooms[i + 1]);
    QueuePrefix(setup, config, rooms, moves, k + 1, i);
    AppliedIsQueue(setup, rooms[i].system, rooms[k + 1].system.queued);
    FoldOfQueue(setup, rooms[k + 1]);
  }

  lemma AppliedIsQueue(setup: P.Setup, s: P.System, queued: seq<EventPage>)
    requires P.Inv(setup, s) && queued <= s.queued && |queued| == |s.applied|
    ensures s.applied == queued
  {
  }

  /** For example a gear command at 2, between the cursor recorded, 1, and the frame's: the viewer does not know it yet. */
  lemma InFlightUnseen(info: SpawnInfo)
    ensures var seen := [Sample(1.0, Spawn(info)), Sample(2.0, Custom(GEAR_DOWN))];
            && InformedOf(seen, [], true, 1.0, 1.0, 1.0)
            && !InformedOf(seen, [], true, 1.0, 1.0, 2.0)
  {
    var spawn, down := Sample(1.0, Spawn(info)), Sample(2.0, Custom(GEAR_DOWN));
    FilterTwo(spawn, down);
    assert LastWhere<Event>([], DecidesBy(1.0)).None? && LastWhere<Event>([], DecidesBy(2.0)).None?;
    assert Scan([down]) == Some(Some(true));
    KnownSpawn(info);
  }

  lemma FilterTwo(a: Sample<Event>, b: Sample<Event>)
    requires a.t == 1.0 && b.t == 2.0
    ensures Filter([a, b], UpTo(1.0)) == [a] && Filter([a, b], Between(1.0, 1.0)) == [] && Filter([a, b], Between(1.0, 2.0)) == [b]
  {
    var s := [a, b];
    FilterPrefix(s, UpTo(1.0), 1);
    FilterMiddle(s, Between(1.0, 2.0), 1, 2);
    FilterNone(s, Between(1.0, 1.0));
    assert s[..1] == [a] && s[1..2] == [b];
  }

  lemma KnownSpawn(info: SpawnInfo)
    ensures Known(Told(true, [Sample(1.0, Spawn(info))], [])) == Some(None)
  {
    var s := [Sample(1.0, Spawn(info))];
    assert LastSpawnIndex(s) == Some(0);
    assert FromLastSpawn(s) + [] == s;
  }
}
