/**
 The cursor stream on a network that may lose, repeat and delay anything: packets of an
 older revision included.  When delivery stays in order, and when it does not.
 */
module AnyNetwork {
  import opened Common
  import opened Store
  import opened Playback
  import opened Publisher
  import Client
  import opened Sessions
  import opened Protocol

  predicate EnabledAnyhow(setup: Setup, s: System, move: Move) {
    if move.Deliver? then move.index < |s.sent| else Enabled(setup, s, move)
  }

  function NextAnyhow(setup: Setup, s: System, move: Move): System
    requires EnabledAnyhow(setup, s, move)
  {
    if move.Deliver? then AfterDeliver(setup, s, move.index) else Next(setup, s, move)
  }

  /** As `Run`, but anything ever sent may be delivered at any time. */
  ghost predicate RunAnyhow(setup: Setup, states: seq<System>, moves: seq<Move>) {
    && |states| == |moves| + 1
    && (exists address, uuid, hz, now :: states[0] == Start(address, uuid, hz, now))
    && forall i :: 0 <= i < |moves| ==>
         EnabledAnyhow(setup, states[i], moves[i]) && states[i + 1] == NextAnyhow(setup, states[i], moves[i])
  }

  // ----- the publisher's side ---------------------------------------------------------

  /** No network can upset the publisher: its side of the invariant needs no order of delivery. */
  lemma NextServer(setup: Setup, s: System, move: Move)
    requires ServerOk(setup, s) && EnabledAnyhow(setup, s, move)
    ensures ServerOk(setup, NextAnyhow(setup, s, move))
  {
    match move
    case TickAt(input) => TickServer(setup, s, input);
    case Deliver(index) => DeliverServer(setup, s, index);
    case ReleaseFrame => ReleaseServer(setup, s);
    case DeliverAck(sequence) => AckServer(setup, s, sequence);
    case StrayAck(epoch, number) => StrayAckIgnored(setup, s, epoch, number);
    case ListSessions => ListServer(setup, s);
  }

  lemma {:induction false} RunServer(setup: Setup, states: seq<System>, moves: seq<Move>, i: nat)
    requires RunAnyhow(setup, states, moves) && i < |states|
    ensures ServerOk(setup, states[i])
  {
    if i > 0 {
      RunServer(setup, states, moves, i - 1);
      NextServer(setup, states[i - 1], moves[i - 1]);
    }
  }

  // ----- the client's side ------------------------------------------------------------

  /**
   The packets that break delivery: a page applied before that reaches a client which takes it for the
   baseline of another revision, or whose counter a reset has cleared.
   */
  predicate Reapplies(s: System, move: Move) {
    && move.Deliver? && move.index < |s.sent| && s.sent[move.index].packet.PagePacket?
    && var page := s.sent[move.index].packet.page;
       && page.sequence <= |s.applied|
       && ((page.baseline && s.client.baselineRevision != Some(page.revision)) || s.client.applied == 0)
  }

  /** Applied in order so far, with a counter that agrees or has been cleared by a reset, however stale. */
  ghost predicate InOrder(setup: Setup, s: System) {
    && AcksOk(s)
    && s.session.eventAck <= |s.applied| <= Min(Working(s.queued, s.stream) + 1, |s.queued|)
    && s.applied == s.queued[..|s.applied|]
    && (s.client.applied == 0 || s.client.applied == |s.applied|)
    && (s.applied != [] ==> s.client.epoch == setup.epoch)
  }

  /** What one page does to a client whose batches were applied in order. */
  lemma PageStep(setup: Setup, s: System, index: nat, page: EventPage)
    requires ServerOk(setup, s) && InOrder(setup, s) && index < |s.sent| && s.sent[index].packet == PagePacket(page)
    ensures var t := AfterDeliver(setup, s, index);
            && 1 <= page.sequence <= |s.applied| + 1
            && (page.sequence <= |s.applied| && !Reapplies(s, Deliver(index)) ==>
                  t.applied == s.applied && t.client.applied == s.client.applied)
            && (page.sequence == |s.applied| + 1 ==>
                  |s.applied| < |s.queued| && page == s.queued[|s.applied|]
                  && t.applied == s.applied + [page] && t.client.applied == page.sequence)
            && (Reapplies(s, Deliver(index)) ==> t.applied == s.applied + [page])
            && t.client.epoch == setup.epoch
  {
    assert WireOk(s.queued, Working(s.queued, s.stream), TagOf(s.queued, s.stream), s.sent[index]);
    assert page == s.queued[page.sequence - 1];
  }

  lemma OtherStep(setup: Setup, s: System, index: nat)
    requires index < |s.sent| && !s.sent[index].packet.PagePacket?
    ensures var t := AfterDeliver(setup, s, index);
            && t.applied == s.applied && t.acks == s.acks
            && (t.client.applied == s.client.applied || t.client.applied == 0)
            && (t.client.epoch == s.client.epoch || t.client.epoch == setup.epoch)
  {
  }

  lemma PageInOrder(setup: Setup, s: System, index: nat, page: EventPage)
    requires ServerOk(setup, s) && InOrder(setup, s) && index < |s.sent| && s.sent[index].packet == PagePacket(page)
    requires !Reapplies(s, Deliver(index))
    ensures InOrder(setup, AfterDeliver(setup, s, index))
  {
    var t := AfterDeliver(setup, s, index);
    DeliverShape(setup, s, index);
    PageStep(setup, s, index, page);
    if page.sequence == |s.applied| + 1 {
      assert s.queued[..|s.applied| + 1] == s.queued[..|s.applied|] + [page];
      assert WireOk(s.queued, Working(s.queued, s.stream), TagOf(s.queued, s.stream), s.sent[index]);
    }
  }

  lemma OtherInOrder(setup: Setup, s: System, index: nat)
    requires ServerOk(setup, s) && InOrder(setup, s) && index < |s.sent| && !s.sent[index].packet.PagePacket?
    ensures InOrder(setup, AfterDeliver(setup, s, index))
  {
    DeliverShape(setup, s, index);
    OtherStep(setup, s, index);
  }

  /** Some batch was applied out of its turn. */
  ghost predicate Misnumbered(s: System) {
    exists k :: 0 <= k < |s.applied| && s.applied[k].sequence != k + 1
  }

  lemma MisnumberedNoPrefix(s: System)
    requires HistoryOk(s.queued) && Misnumbered(s)
    ensures !(s.applied <= s.queued)
  {
    var k :| 0 <= k < |s.applied| && s.applied[k].sequence != k + 1;
    assert k < |s.queued| ==> s.queued[k].sequence == k + 1;
  }

  /** A delivery keeps the batches applied a prefix of the pages queued if and only if it does not apply one again. */
  lemma DeliveryInOrderIff(setup: Setup, s: System, index: nat)
    requires ServerOk(setup, s) && InOrder(setup, s) && index < |s.sent|
    ensures var t := AfterDeliver(setup, s, index);
            && (t.applied <= t.queued <==> !Reapplies(s, Deliver(index)))
            && (if Reapplies(s, Deliver(index)) then Misnumbered(t) else InOrder(setup, t))
  {
    var packet := s.sent[index].packet;
    DeliverServer(setup, s, index);
    if !packet.PagePacket? {
      OtherInOrder(setup, s, index);
    } else if Reapplies(s, Deliver(index)) {
      PageStep(setup, s, index, packet.page);
      var t := AfterDeliver(setup, s, index);
      assert t.applied[|s.applied|].sequence != |s.applied| + 1;
      MisnumberedNoPrefix(t);
    } else {
      PageInOrder(setup, s, index, packet.page);
    }
  }

  /** Whatever the rest of the system does, it leaves order alone. */
  lemma QuietInOrder(setup: Setup, s: System, move: Move)
    requires ServerOk(setup, s) && InOrder(setup, s) && EnabledAnyhow(setup, s, move) && !move.Deliver?
    ensures InOrder(setup, NextAnyhow(setup, s, move))
  {
    if move.TickAt? {
      TickServer(setup, s, move.input);
      OnwardInOrder(setup, s, AfterTick(setup, s, move.input));
    } else {
      RestInOrder(setup, s, move);
    }
  }

  lemma OnwardInOrder(setup: Setup, s: System, t: System)
    requires ServerOk(setup, s) && InOrder(setup, s) && Onward(s, t)
    ensures InOrder(setup, t)
  {
    assert s.queued[..|s.applied|] == t.queued[..|s.applied|];
  }

  /** Releasing a held frame, listing sessions and acknowledgements leave what has been applied alone. */
  lemma RestShape(setup: Setup, s: System, move: Move)
    requires EnabledAnyhow(setup, s, move) && !move.Deliver? && !move.TickAt?
    ensures var t := NextAnyhow(setup, s, move);
            && t.applied == s.applied && t.queued == s.queued && t.stream == s.stream && t.acks == s.acks
            && t.client.applied == s.client.applied && t.client.epoch == s.client.epoch
            && (t.session.eventAck == s.session.eventAck || (move.DeliverAck? && move.sequence in s.acks && t.session.eventAck == move.sequence)
                || move.StrayAck?)
  {
  }

  lemma RestInOrder(setup: Setup, s: System, move: Move)
    requires ServerOk(setup, s) && InOrder(setup, s) && EnabledAnyhow(setup, s, move) && !move.Deliver? && !move.TickAt?
    ensures InOrder(setup, NextAnyhow(setup, s, move))
  {
    RestShape(setup, s, move);
    if move.StrayAck? {
      StrayAckIgnored(setup, s, move.epoch, move.number);
    }
  }

  lemma MisnumberedLasts(setup: Setup, s: System, move: Move)
    requires EnabledAnyhow(setup, s, move) && Misnumbered(s)
    ensures Misnumbered(NextAnyhow(setup, s, move))
  {
    var k :| 0 <= k < |s.applied| && s.applied[k].sequence != k + 1;
    AppliedGrows(setup, s, move);
    assert NextAnyhow(setup, s, move).applied[k] == s.applied[k];
  }

  lemma AppliedGrows(setup: Setup, s: System, move: Move)
    requires EnabledAnyhow(setup, s, move)
    ensures s.applied <= NextAnyhow(setup, s, move).applied
  {
  }

  // ----- runs -------------------------------------------------------------------------

  predicate NoneReapplied(states: seq<System>, moves: seq<Move>, i: nat)
    requires i <= |moves| && |moves| <= |states|
  {
    forall k :: 0 <= k < i ==> !Reapplies(states[k], moves[k])
  }

  lemma MoveInOrderIff(setup: Setup, s: System, move: Move)
    requires ServerOk(setup, s) && InOrder(setup, s) && EnabledAnyhow(setup, s, move)
    ensures if Reapplies(s, move) then Misnumbered(NextAnyhow(setup, s, move)) else InOrder(setup, NextAnyhow(setup, s, move))
  {
    if move.Deliver? {
      DeliveryInOrderIff(setup, s, move.index);
    } else {
      QuietInOrder(setup, s, move);
    }
  }

  lemma {:induction false} OrderOrNot(setup: Setup, states: seq<System>, moves: seq<Move>, i: nat)
    requires RunAnyhow(setup, states, moves) && i < |states|
    ensures if NoneReapplied(states, moves, i) then InOrder(setup, states[i]) else Misnumbered(states[i])
  {
    if i > 0 {
      var k := i - 1;
      OrderOrNot(setup, states, moves, k);
      RunServer(setup, states, moves, k);
      assert states[k + 1] == NextAnyhow(setup, states[k], moves[k]);
      if NoneReapplied(states, moves, k) {
        MoveInOrderIff(setup, states[k], moves[k]);
      } else {
        MisnumberedLasts(setup, states[k], moves[k]);
      }
    }
  }

  /**
   On any network whatsoever: at each moment of each run the batches handed to the consumer are a prefix of
   the pages queued, each once and in order, if and only if no packet delivered so far met the guard above.
   */
  lemma AnyNetworkPrefixIff(setup: Setup, states: seq<System>, moves: seq<Move>, i: nat)
    requires RunAnyhow(setup, states, moves) && i < |states|
    ensures states[i].applied <= states[i].queued <==> NoneReapplied(states, moves, i)
  {
    OrderOrNot(setup, states, moves, i);
    RunServer(setup, states, moves, i);
    if !NoneReapplied(states, moves, i) {
      MisnumberedNoPrefix(states[i]);
    }
  }

  /** On the networks that never go back to an older revision no packet does. */
  lemma OrderedNeverReapplies(setup: Setup, s: System, index: nat)
    requires Inv(setup, s) && index < |s.sent| && NewestTag(s) <= s.sent[index].tag
    ensures !Reapplies(s, Deliver(index))
  {
    if s.sent[index].packet.PagePacket? {
      PageArrives(setup, s, index, s.sent[index].packet.page);
    }
  }

  // ----- two ways to break it ------------------------------------------------------------

  function PageOf(sequence: nat, revision: nat): EventPage {
    EventPage(sequence, revision, true, true, [])
  }

  function PlayAnyhow(setup: Setup, s: System, moves: seq<Move>): Option<System>
    decreases |moves|
  {
    if moves == [] then Some(s)
    else if EnabledAnyhow(setup, s, moves[0]) then PlayAnyhow(setup, NextAnyhow(setup, s, moves[0]), moves[1..])
    else None
  }

  lemma {:induction false} AnyhowConcat(setup: Setup, s: System, first: seq<Move>, later: seq<Move>)
    requires PlayAnyhow(setup, s, first).Some?
    ensures PlayAnyhow(setup, s, first + later) == PlayAnyhow(setup, PlayAnyhow(setup, s, first).value, later)
    decreases |first|
  {
    if first == [] {
      assert first + later == later;
    } else {
      assert (first + later)[1..] == first[1..] + later;
      AnyhowConcat(setup, NextAnyhow(setup, s, first[0]), first[1..], later);
    }
  }

  /** One move at the end of a run. */
  lemma AnyhowThen(setup: Setup, start: System, moves: seq<Move>, s: System, move: Move, t: System)
    requires PlayAnyhow(setup, start, moves) == Some(s)
    requires EnabledAnyhow(setup, s, move) && t == NextAnyhow(setup, s, move)
    ensures PlayAnyhow(setup, start, moves + [move]) == Some(t)
  {
    AnyhowConcat(setup, start, moves, [move]);
    assert PlayAnyhow(setup, s, [move]) == PlayAnyhow(setup, t, [move][1..]);
  }

  function EmptySnapshot(revision: nat): Snapshot {
    Snapshot(Live, None, 1.0, None, revision)
  }

  /** A tick that starts an empty baseline queues one page and sends its reset and the page itself. */
  lemma EmptyBaselineTick(setup: Setup, s: System, input: TickInput)
    requires s.live && setup.config.retryLimit > 0 && input.snap == EmptySnapshot(input.snap.revision)
    requires Retire(s.stream, input.ack).pending == [] && NeedsBaseline(Retire(s.stream, input.ack), input.snap)
    ensures var t := AfterTick(setup, s, input);
            var page := PageOf(s.stream.nextSequence + 1, input.snap.revision);
            && t.live && t.queued == s.queued + [page]
            && |t.sent| >= |s.sent| + 2 && t.sent[..|s.sent|] == s.sent
            && t.sent[|s.sent|].packet == ResetPacket(page.sequence, page.revision, None)
            && t.sent[|s.sent| + 1].packet == PagePacket(page)
            && t.stream.pending == [Pending(page, None, input.now, 1)]
            && t.stream.nextSequence == page.sequence && t.stream.lastRevision == Retire(s.stream, input.ack).lastRevision
            && t.session == AnnounceEpoch(s.session, setup.epoch) && t.seen == s.seen && t.revision == input.snap.revision
            && t.frameSequence == input.frameSequence && t.client == s.client && t.applied == s.applied && t.acks == s.acks
  {
    var retired := Retire(s.stream, input.ack);
    var ready := ReadyStream(s, input);
    var page := PageOf(s.stream.nextSequence + 1, input.snap.revision);
    assert ready.pending == [Pending(page, None, input.now, 0)];
    assert Pages(ready.pending) == [page];
    var packets := Dispatch(ready, input, setup.config).packets;
    assert packets[0] == ResetPacket(page.sequence, page.revision, None) && packets[1] == PagePacket(page);
  }

  /** The first page applied, acknowledged and listed. */
  lemma FirstPageServed(setup: Setup, s: System, page: EventPage)
    requires setup.epoch != [] && page == PageOf(1, 1)
    requires s.client == Client.FRESH && s.applied == [] && s.live && |s.sent| >= 2 && s.sent[1].packet == PagePacket(page)
    requires s.session.role == CursorSubscriber && s.session.subscribed && s.session.epoch == setup.epoch && s.session.eventAck == 0
    ensures var a := AfterDeliver(setup, s, 1);
            && Enabled(setup, a, DeliverAck(1))
            && var b := Next(setup, a, DeliverAck(1));
               && Enabled(setup, b, ListSessions)
               && var c := Next(setup, b, ListSessions);
                  && c.applied == [page] && c.seen == 1 && c.live && c.sent == s.sent && c.stream == s.stream && c.queued == s.queued
                  && c.revision == s.revision && c.frameSequence == s.frameSequence
                  && c.client.applied == 1 && c.client.epoch == setup.epoch && c.client.baselineRevision == Some(1)
                  && c.client.lastFrame == 0 && c.shown == s.shown
  {
  }

  /** The reset of a later revision, and then the first page once more. */
  lemma ResetThenLatePage(setup: Setup, s: System, index: nat, page: EventPage)
    requires page == PageOf(1, 1) && s.applied == [page] && s.client.epoch == setup.epoch && s.client.baselineRevision == Some(1)
    requires 2 <= index < |s.sent| && s.sent[index].packet == ResetPacket(2, 2, None) && s.sent[1].packet == PagePacket(page)
    ensures var a := AfterDeliver(setup, s, index);
            && a.sent == s.sent && AfterDeliver(setup, a, 1).applied == [page, page] && AfterDeliver(setup, a, 1).queued == s.queued
  {
  }

  /** The second page, the reset of the first revision, and the second page once more. */
  lemma StaleReset(setup: Setup, s: System, index: nat)
    requires s.applied == [PageOf(1, 1)] && s.client.epoch == setup.epoch && s.client.baselineRevision == Some(1)
    requires 2 <= index < |s.sent| && s.sent[index].packet == PagePacket(PageOf(2, 2)) && s.sent[0].packet == ResetPacket(1, 1, None)
    ensures var a := AfterDeliver(setup, s, index);
            && a.sent == s.sent && a.applied == [PageOf(1, 1), PageOf(2, 2)] && a.newest >= index
            && var b := AfterDeliver(setup, a, 0);
               && b.sent == s.sent && b.applied == a.applied && b.newest == a.newest
               && var c := AfterDeliver(setup, b, index);
                  c.queued == s.queued && c.applied == [PageOf(1, 1), PageOf(2, 2), PageOf(2, 2)]
  {
  }

  /** Up to the first page applied, acknowledged and listed. */
  ghost predicate OneServed(setup: Setup, s: System) {
    && s.live && s.queued == s.applied == [PageOf(1, 1)] && s.seen == 1 && s.revision == 1 && s.frameSequence == 1
    && |s.sent| >= 2 && s.sent[0].packet == ResetPacket(1, 1, None) && s.sent[1].packet == PagePacket(PageOf(1, 1))
    && |s.stream.pending| == 1 && s.stream.pending[0].page == PageOf(1, 1) && s.stream.nextSequence == 1
    && s.client.epoch == setup.epoch && s.client.baselineRevision == Some(1)
  }

  function FirstInput(): TickInput {
    TickInput(0, map[], EmptySnapshot(1), 1, 0.0, 0.0)
  }

  lemma ServeFirst(setup: Setup, address: Address, uuid: Uuid, requestedHz: real) returns (moves: seq<Move>, end: System)
    requires setup.epoch != [] && setup.config.retryLimit > 0 && !setup.network.OneRevision?
    ensures PlayAnyhow(setup, Start(address, uuid, requestedHz, 0.0), moves) == Some(end) && OneServed(setup, end)
    ensures var t := AfterTick(setup, Start(address, uuid, requestedHz, 0.0), FirstInput());
            end.sent == t.sent && end.stream == t.stream && end.shown == [] && end.client.lastFrame == 0
  {
    var s0 := Start(address, uuid, requestedHz, 0.0);
    var tick := TickAt(FirstInput());
    EmptyBaselineTick(setup, s0, tick.input);
    var s1 := Next(setup, s0, tick);
    FirstPageServed(setup, s1, PageOf(1, 1));
    var s2 := AfterDeliver(setup, s1, 1);
    var s3 := Next(setup, s2, DeliverAck(1));
    end := Next(setup, s3, ListSessions);
    AnyhowThen(setup, s0, [], s0, tick, s1);
    AnyhowThen(setup, s0, [] + [tick], s1, Deliver(1), s2);
    AnyhowThen(setup, s0, [] + [tick] + [Deliver(1)], s2, DeliverAck(1), s3);
    AnyhowThen(setup, s0, [] + [tick] + [Deliver(1)] + [DeliverAck(1)], s3, ListSessions, end);
    moves := [] + [tick] + [Deliver(1)] + [DeliverAck(1)] + [ListSessions];
  }

  /** The second revision: its baseline queued, its reset and its page on the wire. */
  lemma QueueSecond(setup: Setup, start: System, served: seq<Move>, s: System) returns (moves: seq<Move>, t: System)
    requires PlayAnyhow(setup, start, served) == Some(s) && OneServed(setup, s)
    requires setup.config.retryLimit > 0 && !setup.network.OneRevision?
    ensures PlayAnyhow(setup, start, moves) == Some(t) && t.queued == [PageOf(1, 1), PageOf(2, 2)] && t.applied == [PageOf(1, 1)]
    ensures t.client == s.client && 2 <= |s.sent| && |s.sent| + 2 <= |t.sent| && t.sent[..|s.sent|] == s.sent
    ensures t.sent[|s.sent|].packet == ResetPacket(2, 2, None) && t.sent[|s.sent| + 1].packet == PagePacket(PageOf(2, 2))
  {
    var tick := TickAt(TickInput(1, map[], EmptySnapshot(2), 2, 0.0, 0.0));
    EmptyBaselineTick(setup, s, tick.input);
    t := Next(setup, s, tick);
    AnyhowThen(setup, start, served, s, tick, t);
    moves := served + [tick];
  }

  /**
   A late page: in a run of the system the first page arrives, the reset of revision 2, and the first page again.
   */
  lemma LatePageExample(setup: Setup, address: Address, uuid: Uuid, requestedHz: real) returns (moves: seq<Move>)
    requires setup.epoch != [] && setup.config.retryLimit > 0 && !setup.network.OneRevision?
    ensures var end := PlayAnyhow(setup, Start(address, uuid, requestedHz, 0.0), moves);
            && end.Some? && end.value.queued == [PageOf(1, 1), PageOf(2, 2)]
            && end.value.applied == [PageOf(1, 1), PageOf(1, 1)]
  {
    var start := Start(address, uuid, requestedHz, 0.0);
    var served, s := ServeFirst(setup, address, uuid, requestedHz);
    var queued, t := QueueSecond(setup, start, served, s);
    var n := |s.sent|;
    assert t.sent[1] == t.sent[..n][1] == s.sent[1];
    ResetThenLatePage(setup, t, n, PageOf(1, 1));
    var u := AfterDeliver(setup, t, n);
    AnyhowThen(setup, start, queued, t, Deliver(n), u);
    AnyhowThen(setup, start, queued + [Deliver(n)], u, Deliver(1), AfterDeliver(setup, u, 1));
    moves := queued + [Deliver(n)] + [Deliver(1)];
  }

  /**
   A stale reset: both pages arrive in order, then the reset of revision 1, and then a copy of the newest page,
   which is not late at all, is applied again.
   */
  lemma StaleResetExample(setup: Setup, address: Address, uuid: Uuid, requestedHz: real) returns (moves: seq<Move>)
    requires setup.epoch != [] && setup.config.retryLimit > 0 && !setup.network.OneRevision?
    ensures var end := PlayAnyhow(setup, Start(address, uuid, requestedHz, 0.0), moves);
            && end.Some? && end.value.queued == [PageOf(1, 1), PageOf(2, 2)]
            && end.value.applied == [PageOf(1, 1), PageOf(2, 2), PageOf(2, 2)]
  {
    var start := Start(address, uuid, requestedHz, 0.0);
    var served, s := ServeFirst(setup, address, uuid, requestedHz);
    var queued, t := QueueSecond(setup, start, served, s);
    var n := |s.sent| + 1;
    assert t.sent[0] == t.sent[..|s.sent|][0] == s.sent[0];
    StaleReset(setup, t, n);
    var u := AfterDeliver(setup, t, n);
    var v := AfterDeliver(setup, u, 0);
    AnyhowThen(setup, start, queued, t, Deliver(n), u);
    AnyhowThen(setup, start, queued + [Deliver(n)], u, Deliver(0), v);
    AnyhowThen(setup, start, queued + [Deliver(n)] + [Deliver(0)], v, Deliver(n), AfterDeliver(setup, v, n));
    moves := queued + [Deliver(n)] + [Deliver(0)] + [Deliver(n)];
  }
}
