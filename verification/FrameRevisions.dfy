/** No frame of an earlier timeline is shown once pages of a later one have been applied. */
module FrameRevisions {
  import opened Common
  import opened Publisher
  import Client
  import opened Protocol
  import opened AnyNetwork
  import opened FrameOrder

  /** The frame is of a revision not before that of any of the first `count` pages. */
  ghost predicate UpToDate(pages: seq<EventPage>, count: nat, frame: Frame) {
    forall k :: 0 <= k < count && k < |pages| ==> pages[k].revision <= frame.revision
  }

  /** A frame was sent from a snapshot not before any page queued by then. */
  ghost predicate WiresDated(s: System) {
    forall i :: 0 <= i < |s.sent| && s.sent[i].packet.FramePacket? ==> s.sent[i].tag <= s.sent[i].packet.frame.revision
  }

  /** The client's baseline is of a revision received, and what it holds is not of an earlier one. */
  ghost predicate HeldDated(s: System) {
    && (s.client.baselineRevision.Some? ==> s.client.baselineRevision.value <= NewestTag(s))
    && (s.client.pendingFrame.Some? && s.client.baselineRevision.Some? ==>
          s.client.baselineRevision.value <= s.client.pendingFrame.value.revision)
  }

  ghost predicate ShownDated(s: System) {
    forall i :: 0 <= i < |s.shown| ==> UpToDate(s.applied, s.shown[i].appliedBefore, s.shown[i].frame)
  }

  ghost predicate Dated(s: System) {
    WiresDated(s) && HeldDated(s) && ShownDated(s)
  }

  // ----- ticks -----------------------------------------------------------------------------

  lemma DispatchDates(ready: Stream, input: TickInput, config: StreamConfig)
    requires Dispatch(ready, input, config).Sent?
    ensures var packets := Dispatch(ready, input, config).packets;
            forall j :: 0 <= j < |packets| && packets[j].FramePacket? ==> packets[j].frame.revision == input.snap.revision
  {
    DispatchShape(ready, input, config);
  }

  lemma TickWiresDated(setup: Setup, s: System, input: TickInput)
    requires ServerOk(setup, s) && WiresDated(s) && Enabled(setup, s, TickAt(input))
    ensures WiresDated(AfterTick(setup, s, input))
  {
    var t := AfterTick(setup, s, input);
    var queued, ready := ReadyQueue(s, input), ReadyStream(s, input);
    TickServer(setup, s, input);
    if Dispatch(ready, input, setup.config).Sent? {
      DispatchDates(ready, input, setup.config);
      if queued != [] {
        TagBelow(queued, ready);
      }
      var packets, tag := Dispatch(ready, input, setup.config).packets, TagOf(queued, ready);
      NewWiresDated(s, t, Wires(packets, tag, |queued|), packets, tag, |queued|, input.snap.revision);
    }
  }

  lemma NewWiresDated(s: System, t: System, added: seq<Wire>, packets: seq<Packet>, tag: nat, count: nat, revision: nat)
    requires WiresDated(s) && t.sent == s.sent + added && added == Wires(packets, tag, count) && tag <= revision
    requires forall j :: 0 <= j < |packets| && packets[j].FramePacket? ==> packets[j].frame.revision == revision
    ensures WiresDated(t)
  {
    forall i | 0 <= i < |t.sent| && t.sent[i].packet.FramePacket?
      ensures t.sent[i].tag <= t.sent[i].packet.frame.revision
    {
      if i < |s.sent| {
        assert t.sent[i] == s.sent[i];
      } else {
        var j := i - |s.sent|;
        assert t.sent[i] == added[j] == Wire(packets[j], tag, count);
      }
    }
  }

  lemma TickDated(setup: Setup, s: System, input: TickInput)
    requires Inv(setup, s) && Dated(s) && Enabled(setup, s, TickAt(input))
    ensures Dated(AfterTick(setup, s, input))
  {
    TickWiresDated(setup, s, input);
    TickServer(setup, s, input);
  }

  // ----- deliveries and releases --------------------------------------------------------------

  /** What a packet does to the baseline and to the held frame. */
  lemma ReceiveDates(c: Client.State, epoch: Bytes, packet: Packet)
    ensures var d := Client.Receive(c, epoch, packet).0;
            match packet
            case FramePacket(frame) =>
              d.baselineRevision == c.baselineRevision && (d.pendingFrame == c.pendingFrame || d.pendingFrame == Some(frame))
            case PagePacket(page) =>
              || (d.pendingFrame.None? && (d.baselineRevision.Some? ==> d.baselineRevision.value == page.revision))
              || (d.baselineRevision == c.baselineRevision && d.pendingFrame == c.pendingFrame)
            case ResetPacket(_, revision, _) =>
              || (d.pendingFrame.None? && d.baselineRevision == Some(revision))
              || (d.baselineRevision == c.baselineRevision && d.pendingFrame == c.pendingFrame)
  {
  }

  /** A delivered packet is of the revision it is tagged with, or later. */
  lemma DeliveredTag(setup: Setup, s: System, index: nat)
    requires Inv(setup, s) && WiresDated(s) && index < |s.sent|
    ensures match s.sent[index].packet
            case FramePacket(frame) => s.sent[index].tag <= frame.revision
            case PagePacket(page) => s.sent[index].tag == page.revision
            case ResetPacket(_, revision, _) => s.sent[index].tag == revision
  {
    assert WireOk(s.queued, Working(s.queued, s.stream), TagOf(s.queued, s.stream), s.sent[index]);
  }

  lemma DeliverHeldDated(setup: Setup, s: System, index: nat)
    requires Inv(setup, s) && WiresDated(s) && HeldDated(s) && index < |s.sent| && NewestTag(s) <= s.sent[index].tag
    ensures HeldDated(AfterDeliver(setup, s, index))
  {
    var t := AfterDeliver(setup, s, index);
    NewestAfter(setup, s, index);
    DeliveredTag(setup, s, index);
    ReceiveDates(s.client, setup.epoch, s.sent[index].packet);
    assert t.client == Client.Receive(s.client, setup.epoch, s.sent[index].packet).0;
  }

  /** All that has been applied is of the client's baseline revision or an earlier one. */
  lemma AppliedDated(setup: Setup, s: System, frame: Frame)
    requires Inv(setup, s) && (s.client.baselineRevision.Some? ==> s.client.baselineRevision.value <= frame.revision)
    ensures UpToDate(s.applied, |s.applied|, frame)
  {
    forall k | 0 <= k < |s.applied|
      ensures s.applied[k].revision <= frame.revision
    {
      assert s.applied[k] == s.queued[k];
      assert s.queued[k].revision <= s.queued[|s.applied| - 1].revision;
    }
  }

  lemma ShownStaysDated(s: System, t: System, frame: Frame)
    requires ShownDated(s) && s.applied <= t.applied
    requires forall i :: 0 <= i < |s.shown| ==> s.shown[i].appliedBefore <= |s.applied|
    requires t.shown == s.shown || (t.shown == s.shown + [Shown(frame, |s.applied|)] && UpToDate(s.applied, |s.applied|, frame))
    ensures ShownDated(t)
  {
    forall i | 0 <= i < |t.shown|
      ensures UpToDate(t.applied, t.shown[i].appliedBefore, t.shown[i].frame)
    {
      if i < |s.shown| {
        assert UpToDate(s.applied, s.shown[i].appliedBefore, s.shown[i].frame);
      }
    }
  }

  lemma MoveShownDated(setup: Setup, s: System, move: Move)
    requires Inv(setup, s) && Dated(s) && Enabled(setup, s, move) && (move.Deliver? || move.ReleaseFrame?)
    requires move.Deliver? ==> NewestTag(s) <= s.sent[move.index].tag
    ensures ShownDated(Next(setup, s, move))
  {
    var t, frame := Next(setup, s, move), Candidate(s, move);
    ShownIff(setup, s, move);
    MoveAppends(setup, s, move);
    if frame.Some? {
      AppliedDated(setup, s, frame.value);
      ShownStaysDated(s, t, frame.value);
    } else {
      ShownStaysDated(s, t, Frame(0, 0, 0, None));
    }
  }

  lemma MoveAppends(setup: Setup, s: System, move: Move)
    requires Enabled(setup, s, move) && (move.Deliver? || move.ReleaseFrame?)
    ensures s.applied <= Next(setup, s, move).applied && Next(setup, s, move).sent == s.sent
  {
  }

  lemma ReleaseHeldDated(setup: Setup, s: System)
    requires HeldDated(s)
    ensures HeldDated(Note(s, Client.Release(s.client)))
  {
  }

  lemma NextDated(setup: Setup, s: System, move: Move)
    requires Inv(setup, s) && Dated(s) && Enabled(setup, s, move)
    ensures Dated(Next(setup, s, move))
  {
    if move.TickAt? {
      TickDated(setup, s, move.input);
    } else if move.Deliver? {
      NetworksRespectRevisions(setup, s, move.index);
      DeliverHeldDated(setup, s, move.index);
      MoveShownDated(setup, s, move);
      MoveAppends(setup, s, move);
    } else if move.ReleaseFrame? {
      ReleaseHeldDated(setup, s);
      MoveShownDated(setup, s, move);
      MoveAppends(setup, s, move);
    }
  }

  lemma {:induction false} RunDated(setup: Setup, states: seq<System>, moves: seq<Move>, i: nat)
    requires Protocol.Run(setup, states, moves) && i < |states|
    ensures Dated(states[i])
  {
    if i > 0 {
      RunDated(setup, states, moves, i - 1);
      RunInvariant(setup, states, moves, i - 1);
      NextDated(setup, states[i - 1], moves[i - 1]);
    }
  }

  /**
   Over every run on the networks the stream is made for: a frame shown is never of an earlier timeline than a page
   applied before it, whether it was held meanwhile or not.
   */
  lemma FramesUpToDate(setup: Setup, states: seq<System>, moves: seq<Move>, i: nat)
    requires Protocol.Run(setup, states, moves) && i < |states|
    ensures forall n, k :: 0 <= n < |states[i].shown| && 0 <= k < states[i].shown[n].appliedBefore && k < |states[i].applied| ==>
              states[i].applied[k].revision <= states[i].shown[n].frame.revision
  {
    RunDated(setup, states, moves, i);
    forall n, k | 0 <= n < |states[i].shown| && 0 <= k < states[i].shown[n].appliedBefore && k < |states[i].applied|
      ensures states[i].applied[k].revision <= states[i].shown[n].frame.revision
    {
      assert UpToDate(states[i].applied, states[i].shown[n].appliedBefore, states[i].shown[n].frame);
    }
  }
}
