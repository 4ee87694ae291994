/**
 The order in which frames are shown: forward over every run of the stream, resets included,
 and exactly when it goes back on a network that keeps no order.
 */
module FrameOrder {
  import opened Common
  import opened Publisher
  import Client
  import opened Protocol
  import opened AnyNetwork
  import opened Sessions

  /** Sequence number of the frame shown last, or 0. */
  function Top(shown: seq<Shown>): nat {
    if shown == [] then 0 else shown[|shown| - 1].frame.sequence
  }

  /** Every frame is newer than all shown before it. */
  ghost predicate Climbs(shown: seq<Shown>) {
    forall i, j :: 0 <= i < j < |shown| ==> shown[i].frame.sequence < shown[j].frame.sequence
  }

  lemma ClimbsNext(shown: seq<Shown>, next: Shown)
    requires Climbs(shown)
    ensures Climbs(shown + [next]) <==> shown == [] || Top(shown) < next.frame.sequence
  {
    var all := shown + [next];
    if shown != [] {
      assert all[|shown| - 1] == shown[|shown| - 1] && all[|shown|] == next;
    }
  }

  // ----- any network --------------------------------------------------------------------

  /** The frame a move puts before the client: the one delivered, or the one held. */
  function Candidate(s: System, move: Move): Option<Frame> {
    if move.Deliver? && move.index < |s.sent| && s.sent[move.index].packet.FramePacket? then Some(s.sent[move.index].packet.frame)
    else if move.ReleaseFrame? then s.client.pendingFrame
    else None
  }

  /** Newer than the last one counted, and everything it speaks of has been applied. */
  predicate Showable(s: System, frame: Frame) {
    s.client.lastFrame < frame.sequence && frame.watermark <= s.client.applied
  }

  /** A frame is shown exactly when a move puts a showable one before the client. */
  lemma ShownIff(setup: Setup, s: System, move: Move)
    requires EnabledAnyhow(setup, s, move)
    ensures var frame := Candidate(s, move);
            NextAnyhow(setup, s, move).shown
              == if frame.Some? && Showable(s, frame.value) then s.shown + [Shown(frame.value, |s.applied|)] else s.shown
  {
    if move.TickAt? {
      TickShows(setup, s, move.input);
    }
  }

  lemma TickShows(setup: Setup, s: System, input: TickInput)
    ensures AfterTick(setup, s, input).shown == s.shown && AfterTick(setup, s, input).client == s.client
  {
  }

  /** The packets that take a frame back: showable, because a reset has cleared the counter, and no newer than the last one shown. */
  predicate Rewinds(s: System, move: Move) {
    && s.shown != [] && Candidate(s, move).Some?
    && Showable(s, Candidate(s, move).value) && Candidate(s, move).value.sequence <= Top(s.shown)
  }

  lemma OutOfOrderLasts(setup: Setup, s: System, move: Move)
    requires EnabledAnyhow(setup, s, move) && !Climbs(s.shown)
    ensures !Climbs(NextAnyhow(setup, s, move).shown)
  {
    ShownIff(setup, s, move);
    var i, j :| 0 <= i < j < |s.shown| && s.shown[i].frame.sequence >= s.shown[j].frame.sequence;
    var shown := NextAnyhow(setup, s, move).shown;
    assert shown[i] == s.shown[i] && shown[j] == s.shown[j];
  }

  predicate NoneRewound(states: seq<System>, moves: seq<Move>, i: nat)
    requires i <= |moves| && |moves| <= |states|
  {
    forall k :: 0 <= k < i ==> !Rewinds(states[k], moves[k])
  }

  /**
   On any network whatsoever: at each moment of each run the frames shown so far are each newer than all before
   them if and only if no move so far met the guard above.
   */
  lemma {:induction false} AnyNetworkFramesIff(setup: Setup, states: seq<System>, moves: seq<Move>, i: nat)
    requires RunAnyhow(setup, states, moves) && i < |states|
    ensures Climbs(states[i].shown) <==> NoneRewound(states, moves, i)
  {
    if i > 0 {
      var k := i - 1;
      AnyNetworkFramesIff(setup, states, moves, k);
      assert states[k + 1] == NextAnyhow(setup, states[k], moves[k]);
      if !NoneRewound(states, moves, k) {
        OutOfOrderLasts(setup, states[k], moves[k]);
      } else {
        ShownIff(setup, states[k], moves[k]);
        var frame := Candidate(states[k], moves[k]);
        if frame.Some? && Showable(states[k], frame.value) {
          ClimbsNext(states[k].shown, Shown(frame.value, |states[k].applied|));
        }
      }
    }
  }

  // ----- between two resets ------------------------------------------------------------------

  /** The packets that start a client afresh: the first of an epoch, and the reset of a revision it does not know. */
  predicate Clears(setup: Setup, s: System, move: Move) {
    && move.Deliver? && move.index < |s.sent|
    && match s.sent[move.index].packet
       case PagePacket(_) => s.client.epoch != setup.epoch
       case ResetPacket(_, revision, _) => s.client.epoch != setup.epoch || s.client.baselineRevision != Some(revision)
       case FramePacket(_) => false
  }

  /** Without one of those the counter is the last frame shown, or what it was. */
  lemma CounterFollows(setup: Setup, s: System, move: Move)
    requires EnabledAnyhow(setup, s, move)
    ensures var t := NextAnyhow(setup, s, move);
            t.client.lastFrame == if Clears(setup, s, move) then 0
                                  else if |t.shown| > |s.shown| then Top(t.shown) else s.client.lastFrame
  {
    ShownIff(setup, s, move);
    if move.TickAt? {
      TickShows(setup, s, move.input);
    }
  }

  /** Frames each newer than all before them and than the counter they started from, with the last one counted. */
  ghost predicate Above(recent: seq<Shown>, counter: nat, last: nat) {
    && Climbs(recent)
    && (forall n :: 0 <= n < |recent| ==> counter < recent[n].frame.sequence)
    && last == if recent == [] then counter else Top(recent)
  }

  /**
   Between two such packets, on any network: the frames shown are each newer than all before them, so none is
   shown twice, and all are newer than what the counter stood at.
   */
  lemma {:induction false} StretchClimbs(setup: Setup, states: seq<System>, moves: seq<Move>, i: nat, j: nat)
    requires RunAnyhow(setup, states, moves) && i <= j < |states|
    requires forall k :: i <= k < j ==> !Clears(setup, states[k], moves[k])
    ensures states[i].shown <= states[j].shown
    ensures Above(states[j].shown[|states[i].shown|..], states[i].client.lastFrame, states[j].client.lastFrame)
    decreases j - i
  {
    if i < j {
      var k := j - 1;
      StretchClimbs(setup, states, moves, i, k);
      assert states[k + 1] == NextAnyhow(setup, states[k], moves[k]);
      ShownIff(setup, states[k], moves[k]);
      CounterFollows(setup, states[k], moves[k]);
      StretchStep(states[i].shown, states[k], moves[k], states[j], states[i].client.lastFrame);
    }
  }

  lemma StretchStep(before: seq<Shown>, s: System, move: Move, t: System, counter: nat)
    requires before <= s.shown && s.shown <= t.shown
    requires Above(s.shown[|before|..], counter, s.client.lastFrame)
    requires var frame := Candidate(s, move);
             t.shown == if frame.Some? && Showable(s, frame.value) then s.shown + [Shown(frame.value, |s.applied|)] else s.shown
    requires t.client.lastFrame == if |t.shown| > |s.shown| then Top(t.shown) else s.client.lastFrame
    ensures Above(t.shown[|before|..], counter, t.client.lastFrame)
  {
    if |t.shown| > |s.shown| {
      var next := t.shown[|s.shown|];
      assert t.shown[|before|..] == s.shown[|before|..] + [next];
      AboveNext(s.shown[|before|..], counter, s.client.lastFrame, next);
    }
  }

  lemma AboveNext(recent: seq<Shown>, counter: nat, last: nat, next: Shown)
    requires Above(recent, counter, last) && last < next.frame.sequence
    ensures Above(recent + [next], counter, next.frame.sequence)
  {
    ClimbsNext(recent, next);
  }

  // ----- frames received ---------------------------------------------------------------------

  /** The newest frame a client has shown, or holds for later. */
  function Newest(c: Client.State): nat {
    Max(c.lastFrame, if c.pendingFrame.Some? then c.pendingFrame.value.sequence else 0)
  }

  /** A page of a baseline the client does not know drops the frame held. */
  predicate DropsHeld(setup: Setup, s: System, move: Move) {
    || Clears(setup, s, move)
    || (&& move.Deliver? && move.index < |s.sent| && s.sent[move.index].packet.PagePacket?
        && s.sent[move.index].packet.page.baseline
        && s.client.baselineRevision != Some(s.sent[move.index].packet.page.revision))
  }

  lemma NewestGrows(setup: Setup, s: System, move: Move)
    requires EnabledAnyhow(setup, s, move) && !DropsHeld(setup, s, move)
    ensures Newest(s.client) <= Newest(NextAnyhow(setup, s, move).client)
    ensures Candidate(s, move).Some? ==> Candidate(s, move).value.sequence <= Newest(NextAnyhow(setup, s, move).client)
  {
    if move.TickAt? {
      TickShows(setup, s, move.input);
    }
  }

  /** No frame is lost but to a newer one: what was received is shown, or held, or older than one that is. */
  lemma {:induction false} ReceivedNotLost(setup: Setup, states: seq<System>, moves: seq<Move>, k: nat, j: nat)
    requires RunAnyhow(setup, states, moves) && k < j < |states| && Candidate(states[k], moves[k]).Some?
    requires forall n :: k <= n < j ==> !DropsHeld(setup, states[n], moves[n])
    ensures Candidate(states[k], moves[k]).value.sequence <= Newest(states[j].client)
    decreases j
  {
    var n := j - 1;
    assert states[n + 1] == NextAnyhow(setup, states[n], moves[n]);
    NewestGrows(setup, states[n], moves[n]);
    if k < n {
      ReceivedNotLost(setup, states, moves, k, n);
    }
  }

  // ----- networks that keep revisions in order ---------------------------------------------------

  /** Frames are numbered in the order they are sent, and none is of a later revision than the pages it counts. */
  ghost predicate FrameWires(s: System) {
    && (forall i :: 0 <= i < |s.sent| && s.sent[i].packet.FramePacket? ==>
          && s.sent[i].packet.frame.sequence <= s.frameSequence
          && 1 <= s.sent[i].queuedThen <= |s.queued| && s.sent[i].packet.frame.watermark == s.sent[i].queuedThen
          && s.sent[i].tag <= s.queued[s.sent[i].queuedThen - 1].revision)
    && (forall i, j :: 0 <= i < j < |s.sent| && s.sent[i].packet.FramePacket? && s.sent[j].packet.FramePacket? ==>
          s.sent[i].packet.frame.sequence < s.sent[j].packet.frame.sequence)
  }

  ghost predicate OnWire(s: System, frame: Frame) {
    exists i :: 0 <= i < |s.sent| && s.sent[i].packet == FramePacket(frame)
  }

  /** What is shown or held has been sent. */
  ghost predicate FromWire(s: System) {
    && (s.shown != [] ==> OnWire(s, s.shown[|s.shown| - 1].frame))
    && (s.client.pendingFrame.Some? ==> OnWire(s, s.client.pendingFrame.value))
  }

  /** Every frame that may still come is newer than the last one shown. */
  ghost predicate OnlyNewerToCome(s: System) {
    && (forall i :: 0 <= i < |s.sent| && s.sent[i].packet.FramePacket? && NewestTag(s) <= s.sent[i].tag ==>
          Top(s.shown) < s.sent[i].packet.frame.sequence)
    && (s.client.pendingFrame.Some? ==> Top(s.shown) < s.client.pendingFrame.value.sequence)
  }

  ghost predicate Forward(s: System) {
    && Climbs(s.shown)
    && (s.shown != [] ==> Top(s.shown) <= s.client.lastFrame || OnlyNewerToCome(s))
  }

  ghost predicate FramesOk(s: System) {
    FrameWires(s) && FromWire(s) && Forward(s)
  }

  /** What one tick adds to the wires: one frame at most, at the end. */
  lemma TickSendsOneFrame(setup: Setup, s: System, input: TickInput)
    ensures var t := AfterTick(setup, s, input);
            && s.sent <= t.sent && (|s.sent| < |t.sent| ==> t.frameSequence == input.frameSequence)
            && forall j :: |s.sent| <= j < |t.sent| ==>
                 && t.sent[j].queuedThen == |t.queued|
                 && t.sent[j].tag == TagOf(ReadyQueue(s, input), ReadyStream(s, input)) && t.queued == ReadyQueue(s, input)
                 && (t.sent[j].packet.FramePacket? ==> j == |t.sent| - 1 && t.sent[j].packet.frame.sequence == input.frameSequence)
  {
    var ready := ReadyStream(s, input);
    if Dispatch(ready, input, setup.config).Sent? {
      DispatchOneFrame(ready, input, setup.config);
      var packets, queued := Dispatch(ready, input, setup.config).packets, ReadyQueue(s, input);
      assert AfterTick(setup, s, input).sent == s.sent + Wires(packets, TagOf(queued, ready), |queued|);
    }
  }

  lemma DispatchOneFrame(ready: Stream, input: TickInput, config: StreamConfig)
    requires Dispatch(ready, input, config).Sent?
    ensures var packets := Dispatch(ready, input, config).packets;
            forall j :: 0 <= j < |packets| && packets[j].FramePacket? ==>
              j == |packets| - 1 && packets[j].frame.sequence == input.frameSequence
  {
    DispatchShape(ready, input, config);
  }

  lemma TagBelow(queued: seq<EventPage>, stream: Stream)
    requires HistoryOk(queued) && queued != []
    ensures TagOf(queued, stream) <= queued[|queued| - 1].revision
  {
  }

  /** Where one wire of a later state stands: as it stood, or newly sent, counting the whole queue. */
  lemma OneFrameWire(s: System, t: System, i: nat, stream: Stream)
    requires FrameWires(s) && HistoryOk(t.queued) && t.queued != [] && s.queued <= t.queued && s.frameSequence <= t.frameSequence
    requires s.sent <= t.sent && i < |t.sent| && t.sent[i].packet.FramePacket?
    requires i >= |s.sent| ==>
               && t.sent[i].packet.frame.sequence == t.frameSequence && t.sent[i].queuedThen == |t.queued|
               && t.sent[i].tag == TagOf(t.queued, stream) && t.sent[i].packet.frame.watermark == t.sent[i].queuedThen
    ensures t.sent[i].packet.frame.sequence <= t.frameSequence
    ensures 1 <= t.sent[i].queuedThen <= |t.queued| && t.sent[i].packet.frame.watermark == t.sent[i].queuedThen
    ensures t.sent[i].tag <= t.queued[t.sent[i].queuedThen - 1].revision
  {
    if i < |s.sent| {
      assert t.sent[i] == s.sent[i];
      assert t.queued[t.sent[i].queuedThen - 1] == s.queued[t.sent[i].queuedThen - 1];
    } else {
      TagBelow(t.queued, stream);
    }
  }

  lemma FramesInOrder(s: System, t: System)
    requires FrameWires(s) && s.sent <= t.sent && s.frameSequence < t.frameSequence
    requires forall j :: |s.sent| <= j < |t.sent| && t.sent[j].packet.FramePacket? ==>
               j == |t.sent| - 1 && t.sent[j].packet.frame.sequence == t.frameSequence
    ensures forall i, j :: 0 <= i < j < |t.sent| && t.sent[i].packet.FramePacket? && t.sent[j].packet.FramePacket? ==>
              t.sent[i].packet.frame.sequence < t.sent[j].packet.frame.sequence
  {
    forall i, j | 0 <= i < j < |t.sent| && t.sent[i].packet.FramePacket? && t.sent[j].packet.FramePacket?
      ensures t.sent[i].packet.frame.sequence < t.sent[j].packet.frame.sequence
    {
      assert i < |s.sent| && t.sent[i] == s.sent[i];
      assert j < |s.sent| ==> t.sent[j] == s.sent[j];
    }
  }

  lemma TickFrameWires(setup: Setup, s: System, input: TickInput)
    requires ServerOk(setup, s) && FrameWires(s) && Enabled(setup, s, TickAt(input))
    ensures FrameWires(AfterTick(setup, s, input))
  {
    var t := AfterTick(setup, s, input);
    TickServer(setup, s, input);
    TickSendsOneFrame(setup, s, input);
    TickFrameCount(setup, s, input);
    FramesInOrder(s, t);
    forall i | 0 <= i < |t.sent| && t.sent[i].packet.FramePacket?
      ensures t.sent[i].packet.frame.sequence <= t.frameSequence
      ensures 1 <= t.sent[i].queuedThen <= |t.queued| && t.sent[i].packet.frame.watermark == t.sent[i].queuedThen
      ensures t.sent[i].tag <= t.queued[t.sent[i].queuedThen - 1].revision
    {
      assert WireOk(t.queued, Working(t.queued, t.stream), TagOf(t.queued, t.stream), t.sent[i]);
      OneFrameWire(s, t, i, ReadyStream(s, input));
    }
  }

  lemma TickFrameCount(setup: Setup, s: System, input: TickInput)
    ensures AfterTick(setup, s, input).frameSequence == input.frameSequence
  {
  }

  lemma WireStays(s: System, t: System, frame: Frame)
    requires OnWire(s, frame) && s.sent <= t.sent
    ensures OnWire(t, frame)
  {
    var i :| 0 <= i < |s.sent| && s.sent[i].packet == FramePacket(frame);
    assert t.sent[i] == s.sent[i];
  }

  /** The last frame shown was sent by now. */
  lemma TopSent(s: System)
    requires FrameWires(s) && FromWire(s)
    ensures s.shown != [] ==> Top(s.shown) <= s.frameSequence
  {
  }

  lemma TickFramesOk(setup: Setup, s: System, input: TickInput)
    requires Inv(setup, s) && FramesOk(s) && Enabled(setup, s, TickAt(input))
    ensures FramesOk(AfterTick(setup, s, input))
  {
    var t := AfterTick(setup, s, input);
    TickFrameWires(setup, s, input);
    TickSendsOneFrame(setup, s, input);
    TickServer(setup, s, input);
    TopSent(s);
    if s.shown != [] {
      WireStays(s, t, s.shown[|s.shown| - 1].frame);
    }
    if s.client.pendingFrame.Some? {
      WireStays(s, t, s.client.pendingFrame.value);
    }
    TickForward(s, t, input);
  }

  lemma TickForward(s: System, t: System, input: TickInput)
    requires Forward(s) && (s.shown != [] ==> Top(s.shown) <= s.frameSequence) && s.frameSequence < input.frameSequence
    requires s.sent <= t.sent && t.client == s.client && t.shown == s.shown && NewestTag(t) == NewestTag(s)
    requires forall j :: |s.sent| <= j < |t.sent| && t.sent[j].packet.FramePacket? ==> t.sent[j].packet.frame.sequence == input.frameSequence
    ensures Forward(t)
  {
    if s.shown != [] && Top(s.shown) > s.client.lastFrame {
      forall i | 0 <= i < |t.sent| && t.sent[i].packet.FramePacket? && NewestTag(t) <= t.sent[i].tag
        ensures Top(t.shown) < t.sent[i].packet.frame.sequence
      {
        assert i < |s.sent| ==> t.sent[i] == s.sent[i];
      }
    }
  }

  /** Between a reset and its baseline everything of the new revision is newer than all that was shown. */
  lemma ResetLeavesNewer(setup: Setup, t: System)
    requires Inv(setup, t) && FrameWires(t) && FromWire(t) && Awaiting(setup, t) && t.shown != [] && t.client.pendingFrame.None?
    ensures OnlyNewerToCome(t)
  {
    var last := t.shown[|t.shown| - 1];
    var n :| 0 <= n < |t.sent| && t.sent[n].packet == FramePacket(last.frame);
    var k := |t.applied|;
    assert t.sent[n].queuedThen <= k && t.sent[n].tag <= t.queued[k - 1].revision;
    forall i | 0 <= i < |t.sent| && t.sent[i].packet.FramePacket? && NewestTag(t) <= t.sent[i].tag
      ensures Top(t.shown) < t.sent[i].packet.frame.sequence
    {
      assert t.sent[n].tag < t.sent[i].tag;
      assert n < i;
    }
  }

  /** What a delivery or a release can do to frames, on a client that keeps to the invariant. */
  lemma ClientFrames(setup: Setup, s: System, move: Move)
    requires Enabled(setup, s, move) && (move.Deliver? || move.ReleaseFrame?)
    ensures var t := Next(setup, s, move);
            && t.sent == s.sent && t.queued == s.queued && t.frameSequence == s.frameSequence
            && (t.client.pendingFrame.Some? ==>
                  t.client.pendingFrame == s.client.pendingFrame || t.client.pendingFrame == Candidate(s, move))
            && (Clears(setup, s, move) ==> t.client.pendingFrame.None? && t.client.lastFrame == 0 && t.shown == s.shown)
            && (!Clears(setup, s, move) ==> s.client.lastFrame <= t.client.lastFrame)
            && (|t.shown| > |s.shown| ==> t.client.lastFrame == Top(t.shown))
  {
  }

  lemma MoveFromWire(setup: Setup, s: System, move: Move)
    requires FromWire(s) && Enabled(setup, s, move) && (move.Deliver? || move.ReleaseFrame?)
    ensures FromWire(Next(setup, s, move))
  {
    ShownIff(setup, s, move);
    ClientFrames(setup, s, move);
    var t := Next(setup, s, move);
    var frame := Candidate(s, move);
    if frame.Some? {
      assert OnWire(s, frame.value);
      WireStays(s, t, frame.value);
    }
    if s.shown != [] {
      WireStays(s, t, s.shown[|s.shown| - 1].frame);
    }
    if s.client.pendingFrame.Some? {
      WireStays(s, t, s.client.pendingFrame.value);
    }
  }

  /** A frame the network may deliver, or that is held, is newer than the last one shown whenever it is showable. */
  lemma CandidateNewer(setup: Setup, s: System, move: Move)
    requires Forward(s) && s.shown != [] && Candidate(s, move).Some? && Showable(s, Candidate(s, move).value)
    requires move.Deliver? && move.index < |s.sent| ==> NewestTag(s) <= s.sent[move.index].tag
    ensures Top(s.shown) < Candidate(s, move).value.sequence
  {
  }

  lemma ShownForward(setup: Setup, s: System, move: Move)
    requires FramesOk(s) && Enabled(setup, s, move) && (move.Deliver? || move.ReleaseFrame?)
    requires move.Deliver? && move.index < |s.sent| ==> NewestTag(s) <= s.sent[move.index].tag
    requires |Next(setup, s, move).shown| > |s.shown|
    ensures Forward(Next(setup, s, move))
  {
    var t := Next(setup, s, move);
    ShownIff(setup, s, move);
    CounterIsTop(setup, s, move);
    ClimbsNext(s.shown, t.shown[|s.shown|]);
    if s.shown != [] {
      CandidateNewer(setup, s, move);
    }
  }

  lemma CounterIsTop(setup: Setup, s: System, move: Move)
    requires Enabled(setup, s, move) && |Next(setup, s, move).shown| > |s.shown|
    ensures Next(setup, s, move).client.lastFrame == Top(Next(setup, s, move).shown)
  {
    CounterFollows(setup, s, move);
    ShownIff(setup, s, move);
  }

  lemma ClearedForward(setup: Setup, s: System, move: Move)
    requires Inv(setup, s) && FramesOk(s) && Enabled(setup, s, move) && Clears(setup, s, move)
    ensures Forward(Next(setup, s, move))
  {
    var t := Next(setup, s, move);
    ClientFrames(setup, s, move);
    if s.shown != [] {
      NextKeeps(setup, s, move);
      MoveFromWire(setup, s, move);
      MoveWires(setup, s, move);
      ClearedAwaits(setup, s, move);
      ResetLeavesNewer(setup, t);
    }
  }

  lemma MoveForward(setup: Setup, s: System, move: Move)
    requires Inv(setup, s) && FramesOk(s) && Enabled(setup, s, move) && (move.Deliver? || move.ReleaseFrame?)
    ensures Forward(Next(setup, s, move))
  {
    var t := Next(setup, s, move);
    DeliveryTags(setup, s, move);
    if |t.shown| > |s.shown| {
      ShownForward(setup, s, move);
    } else if Clears(setup, s, move) {
      ClearedForward(setup, s, move);
    } else {
      QuietForward(setup, s, move);
    }
  }

  lemma QuietForward(setup: Setup, s: System, move: Move)
    requires FramesOk(s) && Enabled(setup, s, move) && (move.Deliver? || move.ReleaseFrame?) && !Clears(setup, s, move)
    requires move.Deliver? ==> move.index < |s.sent| && NewestTag(s) <= s.sent[move.index].tag
    requires NewestTag(s) <= NewestTag(Next(setup, s, move)) && |Next(setup, s, move).shown| <= |s.shown|
    ensures Forward(Next(setup, s, move))
  {
    ShownIff(setup, s, move);
    ClientFrames(setup, s, move);
    if s.shown != [] && Top(s.shown) > s.client.lastFrame {
      StaysNewer(s, Next(setup, s, move), Candidate(s, move), move);
    }
  }

  lemma DeliveryTags(setup: Setup, s: System, move: Move)
    requires Inv(setup, s) && Enabled(setup, s, move) && (move.Deliver? || move.ReleaseFrame?)
    ensures move.Deliver? ==> NewestTag(s) <= s.sent[move.index].tag
    ensures NewestTag(s) <= NewestTag(Next(setup, s, move))
  {
    if move.Deliver? {
      NetworksRespectRevisions(setup, s, move.index);
      NewestAfter(setup, s, move.index);
    }
  }

  /** A client that has shown a frame and starts afresh waits for a baseline. */
  lemma ClearedAwaits(setup: Setup, s: System, move: Move)
    requires Inv(setup, s) && Enabled(setup, s, move) && Clears(setup, s, move) && s.shown != []
    requires Inv(setup, Next(setup, s, move))
    ensures Awaiting(setup, Next(setup, s, move))
  {
    ClearedCounter(setup, s, move);
  }

  lemma ClearedCounter(setup: Setup, s: System, move: Move)
    requires Inv(setup, s) && Enabled(setup, s, move) && Clears(setup, s, move) && s.shown != []
    ensures Next(setup, s, move).client.applied == 0 && Next(setup, s, move).applied == s.applied != []
  {
    ShowedBefore(setup, s);
  }

  lemma ShowedBefore(setup: Setup, s: System)
    requires Inv(setup, s) && s.shown != []
    ensures s.applied != [] && s.client.epoch == setup.epoch
  {
    assert 1 <= s.shown[0].frame.watermark <= s.shown[0].appliedBefore <= |s.applied|;
  }

  lemma StaysNewer(s: System, t: System, frame: Option<Frame>, move: Move)
    requires OnlyNewerToCome(s) && s.shown != [] && t.sent == s.sent && t.shown == s.shown && NewestTag(s) <= NewestTag(t)
    requires frame == Candidate(s, move) && (move.Deliver? ==> move.index < |s.sent| && NewestTag(s) <= s.sent[move.index].tag)
    requires t.client.pendingFrame.Some? ==> t.client.pendingFrame == s.client.pendingFrame || t.client.pendingFrame == frame
    ensures OnlyNewerToCome(t)
  {
  }

  lemma NextFramesOk(setup: Setup, s: System, move: Move)
    requires Inv(setup, s) && FramesOk(s) && Enabled(setup, s, move)
    ensures FramesOk(Next(setup, s, move))
  {
    if move.TickAt? {
      TickFramesOk(setup, s, move.input);
    } else if move.Deliver? || move.ReleaseFrame? {
      MoveFromWire(setup, s, move);
      MoveForward(setup, s, move);
      MoveWires(setup, s, move);
    } else {
      RestFramesOk(setup, s, move);
    }
  }

  lemma MoveWires(setup: Setup, s: System, move: Move)
    requires FrameWires(s) && Enabled(setup, s, move) && (move.Deliver? || move.ReleaseFrame?)
    ensures FrameWires(Next(setup, s, move))
  {
    ClientFrames(setup, s, move);
    SameWires(s, Next(setup, s, move));
  }

  lemma SameWires(s: System, t: System)
    requires FrameWires(s) && t.sent == s.sent && t.queued == s.queued && t.frameSequence == s.frameSequence
    ensures FrameWires(t)
  {
  }

  lemma RestFramesOk(setup: Setup, s: System, move: Move)
    requires FramesOk(s) && Enabled(setup, s, move) && !move.TickAt? && !move.Deliver? && !move.ReleaseFrame?
    ensures FramesOk(Next(setup, s, move))
  {
    var t := Next(setup, s, move);
    SameWires(s, t);
    assert FromWire(t) && Forward(t);
  }

  lemma {:induction false} RunFrames(setup: Setup, states: seq<System>, moves: seq<Move>, i: nat)
    requires Protocol.Run(setup, states, moves) && i < |states|
    ensures FramesOk(states[i])
  {
    if i > 0 {
      RunFrames(setup, states, moves, i - 1);
      RunInvariant(setup, states, moves, i - 1);
      NextFramesOk(setup, states[i - 1], moves[i - 1]);
    }
  }

  /**
   Over every run on the networks the stream is made for, however often the timeline is reset: every frame shown
   is newer than all frames shown before it, so none is shown twice or after a newer one.
   */
  lemma FramesClimb(setup: Setup, states: seq<System>, moves: seq<Move>, i: nat)
    requires Protocol.Run(setup, states, moves) && i < |states|
    ensures forall a, b :: 0 <= a < b < |states[i].shown| ==>
              states[i].shown[a].frame.sequence < states[i].shown[b].frame.sequence
  {
    RunFrames(setup, states, moves, i);
  }

  // ----- a stale reset ---------------------------------------------------------------------------

  function FrameOf(sequence: nat, revision: nat, watermark: nat): Frame {
    Frame(sequence, revision, watermark, None)
  }

  /** The frame such a tick sends after the reset and the page. */
  lemma BaselineTickFrame(setup: Setup, s: System, input: TickInput)
    requires s.live && setup.config.retryLimit > 0 && input.snap == EmptySnapshot(input.snap.revision)
    requires Retire(s.stream, input.ack).pending == [] && NeedsBaseline(Retire(s.stream, input.ack), input.snap)
    requires s.stream.lastFrameSent.None? || input.now - s.stream.lastFrameSent.value >= input.frameInterval
    ensures var t := AfterTick(setup, s, input);
            && |t.sent| == |s.sent| + 3 && t.stream.lastFrameSent == Some(input.now) && t.shown == s.shown && t.client == s.client
            && t.sent[|s.sent| + 2].packet == FramePacket(FrameOf(input.frameSequence, input.snap.revision, s.stream.nextSequence + 1))
  {
    var retired, ready := Retire(s.stream, input.ack), ReadyStream(s, input);
    var page := PageOf(s.stream.nextSequence + 1, input.snap.revision);
    assert ready.pending == [Pending(page, None, input.now, 0)];
    var packets := Dispatch(ready, input, setup.config).packets;
    assert packets == [ResetPacket(page.sequence, page.revision, None), PagePacket(page),
                       FramePacket(FrameOf(input.frameSequence, input.snap.revision, page.sequence))];
  }

  /** Both pages and the second frame in order, then the stale reset, the first page again, and the first frame. */
  lemma StaleFrame(setup: Setup, s: System, n: nat)
    requires s.applied == [PageOf(1, 1)] && s.shown == [] && s.client.epoch == setup.epoch
    requires s.client.baselineRevision == Some(1) && s.client.lastFrame == 0 && 3 <= n && |s.sent| == n + 3
    requires s.sent[0].packet == ResetPacket(1, 1, None) && s.sent[1].packet == PagePacket(PageOf(1, 1))
    requires s.sent[2].packet == FramePacket(FrameOf(1, 1, 1)) && s.sent[n + 1].packet == PagePacket(PageOf(2, 2))
    requires s.sent[n + 2].packet == FramePacket(FrameOf(2, 2, 2))
    ensures var a := AfterDeliver(setup, s, n + 1);
            var b := AfterDeliver(setup, a, n + 2);
            && a.sent == b.sent == s.sent && b.shown == [Shown(FrameOf(2, 2, 2), 2)]
            && b.client.epoch == setup.epoch && b.client.baselineRevision == Some(2) && b.applied == [PageOf(1, 1), PageOf(2, 2)]
  {
  }

  lemma FirstFrameAgain(setup: Setup, s: System)
    requires |s.sent| >= 3 && s.shown == [Shown(FrameOf(2, 2, 2), 2)] && s.applied == [PageOf(1, 1), PageOf(2, 2)]
    requires s.client.epoch == setup.epoch && s.client.baselineRevision == Some(2)
    requires s.sent[0].packet == ResetPacket(1, 1, None) && s.sent[1].packet == PagePacket(PageOf(1, 1))
    requires s.sent[2].packet == FramePacket(FrameOf(1, 1, 1))
    ensures var a := AfterDeliver(setup, s, 0);
            var b := AfterDeliver(setup, a, 1);
            var c := AfterDeliver(setup, b, 2);
            && a.sent == b.sent == c.sent == s.sent && |c.shown| == 2
            && c.shown[0].frame == FrameOf(2, 2, 2) && c.shown[1].frame == FrameOf(1, 1, 1)
  {
  }

  /** Frames travel with the pages of the run that serves the first one. */
  lemma ServedFrames(setup: Setup, address: Address, uuid: Uuid, requestedHz: real) returns (moves: seq<Move>, end: System)
    requires setup.epoch != [] && setup.config.retryLimit > 0 && !setup.network.OneRevision?
    ensures PlayAnyhow(setup, Start(address, uuid, requestedHz, 0.0), moves) == Some(end) && OneServed(setup, end)
    ensures |end.sent| == 3 && end.sent[2].packet == FramePacket(FrameOf(1, 1, 1)) && end.shown == []
    ensures end.client.lastFrame == 0 && end.stream.lastFrameSent == Some(0.0)
  {
    moves, end := ServeFirst(setup, address, uuid, requestedHz);
    BaselineTickFrame(setup, Start(address, uuid, requestedHz, 0.0), FirstInput());
  }

  /** So on a network that keeps no order a stale reset lets an old frame be shown after a newer one. */
  lemma StaleFrameExample(setup: Setup, address: Address, uuid: Uuid, requestedHz: real) returns (moves: seq<Move>)
    requires setup.epoch != [] && setup.config.retryLimit > 0 && !setup.network.OneRevision?
    ensures var end := PlayAnyhow(setup, Start(address, uuid, requestedHz, 0.0), moves);
            && end.Some? && |end.value.shown| == 2
            && end.value.shown[0].frame.sequence == 2 && end.value.shown[1].frame.sequence == 1
  {
    var start := Start(address, uuid, requestedHz, 0.0);
    var served, s := ServedFrames(setup, address, uuid, requestedHz);
    var tick := TickAt(TickInput(1, map[], EmptySnapshot(2), 2, 0.0, 0.0));
    EmptyBaselineTick(setup, s, tick.input);
    BaselineTickFrame(setup, s, tick.input);
    var t := Next(setup, s, tick);
    AnyhowThen(setup, start, served, s, tick, t);
    assert t.sent[0] == t.sent[..3][0] && t.sent[1] == t.sent[..3][1] && t.sent[2] == t.sent[..3][2];
    moves := PlayStale(setup, start, served + [tick], t);
  }

  lemma PlayStale(setup: Setup, start: System, played: seq<Move>, t: System) returns (moves: seq<Move>)
    requires PlayAnyhow(setup, start, played) == Some(t)
    requires t.applied == [PageOf(1, 1)] && t.shown == [] && t.client.epoch == setup.epoch
    requires t.client.baselineRevision == Some(1) && t.client.lastFrame == 0 && |t.sent| == 6
    requires t.sent[0].packet == ResetPacket(1, 1, None) && t.sent[1].packet == PagePacket(PageOf(1, 1))
    requires t.sent[2].packet == FramePacket(FrameOf(1, 1, 1)) && t.sent[4].packet == PagePacket(PageOf(2, 2))
    requires t.sent[5].packet == FramePacket(FrameOf(2, 2, 2))
    ensures var end := PlayAnyhow(setup, start, moves);
            && end.Some? && |end.value.shown| == 2
            && end.value.shown[0].frame.sequence == 2 && end.value.shown[1].frame.sequence == 1
  {
    StaleFrame(setup, t, 3);
    var a := AfterDeliver(setup, t, 4);
    var b := AfterDeliver(setup, a, 5);
    FirstFrameAgain(setup, b);
    var c := AfterDeliver(setup, b, 0);
    var d := AfterDeliver(setup, c, 1);
    AnyhowThen(setup, start, played, t, Deliver(4), a);
    AnyhowThen(setup, start, played + [Deliver(4)], a, Deliver(5), b);
    AnyhowThen(setup, start, played + [Deliver(4)] + [Deliver(5)], b, Deliver(0), c);
    AnyhowThen(setup, start, played + [Deliver(4)] + [Deliver(5)] + [Deliver(0)], c, Deliver(1), d);
    AnyhowThen(setup, start, played + [Deliver(4)] + [Deliver(5)] + [Deliver(0)] + [Deliver(1)], d, Deliver(2), AfterDeliver(setup, d, 2));
    moves := played + [Deliver(4)] + [Deliver(5)] + [Deliver(0)] + [Deliver(1)] + [Deliver(2)];
  }
}
