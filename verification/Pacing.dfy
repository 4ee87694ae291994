/**
 When a subscriber is sent what, over every run of ticks and whatever acknowledgements,
 stores and snapshots they see: how far apart the sends of one page and the frames are,
 and after how many unanswered sends the subscriber is given up.
 */
module Pacing {
  import opened Common
  import opened Store
  import opened Playback
  import opened Publisher
  import P = Protocol

  /** The ticks of one subscriber from its first on, none of which removed it. */
  datatype Ticks = Ticks(config: StreamConfig, streams: seq<Stream>, inputs: seq<TickInput>)

  ghost predicate TicksRun(r: Ticks) {
    && |r.streams| == |r.inputs| + 1
    && r.streams[0] == NEW_STREAM
    && forall i :: 0 <= i < |r.inputs| ==> Follows(r.config, r.streams[i], r.inputs[i], r.streams[i + 1])
  }

  predicate Follows(config: StreamConfig, s: Stream, input: TickInput, t: Stream) {
    var result := Tick(s, input, config);
    result.Sent? && t == result.stream
  }

  function PacketsAt(r: Ticks, i: nat): seq<Packet> {
    if i < |r.inputs| && i < |r.streams| then
      match Tick(r.streams[i], r.inputs[i], r.config)
      case Sent(_, packets) => packets
      case Removed => []
    else []
  }

  predicate HoldsPage(packets: seq<Packet>, n: nat) {
    exists i :: 0 <= i < |packets| && packets[i].PagePacket? && packets[i].page.sequence == n
  }

  predicate HoldsFrame(packets: seq<Packet>) {
    exists i :: 0 <= i < |packets| && packets[i].FramePacket?
  }

  /** The ticks that send page `n`. */
  function PageSends(r: Ticks, n: nat): nat -> bool {
    (i: nat) => HoldsPage(PacketsAt(r, i), n)
  }

  /** The ticks that send a frame. */
  function FrameSends(r: Ticks): nat -> bool {
    (i: nat) => HoldsFrame(PacketsAt(r, i))
  }

  /** How many of the first `k` ticks. */
  function Count(sends: nat -> bool, k: nat): nat {
    if k == 0 then 0 else Count(sends, k - 1) + (if sends(k - 1) then 1 else 0)
  }

  /** The latest of the first `k` ticks. */
  function Latest(sends: nat -> bool, k: nat): (r: Option<nat>)
    ensures r.Some? ==> r.value < k && sends(r.value) && forall i: nat :: r.value < i < k ==> !sends(i)
    ensures r.None? ==> forall i: nat :: i < k ==> !sends(i)
  {
    if k == 0 then None else if sends(k - 1) then Some(k - 1) else Latest(sends, k - 1)
  }

  lemma {:induction false} CountedHasLatest(sends: nat -> bool, k: nat)
    ensures Count(sends, k) > 0 <==> Latest(sends, k).Some?
  {
    if k > 0 {
      CountedHasLatest(sends, k - 1);
    }
  }

  // ----- one tick ---------------------------------------------------------------------

  function Ready(s: Stream, input: TickInput): Stream {
    Refill(Retire(s, input.ack), input.data, input.snap, input.now)
  }

  /** What a dispatch sends and what it leaves pending. */
  lemma DispatchSends(ready: Stream, input: TickInput, config: StreamConfig, n: nat)
    requires Dispatch(ready, input, config).Sent?
    ensures var result := Dispatch(ready, input, config);
            && (HoldsPage(result.packets, n) <==> FrontDue(ready, config, input.now) && ready.pending[0].page.sequence == n)
            && result.stream.nextSequence == ready.nextSequence
            && |result.stream.pending| == |ready.pending|
            && (forall m :: 0 < m < |ready.pending| ==> result.stream.pending[m] == ready.pending[m])
            && (ready.pending != [] ==>
                  result.stream.pending[0] ==
                    if FrontDue(ready, config, input.now)
                    then ready.pending[0].(attempts := ready.pending[0].attempts + 1, lastSent := input.now)
                    else ready.pending[0])
  {
    var (afterFront, front) := SendFront(ready, config, input.now);
    var (afterFrame, frame) := SendFrame(afterFront, input.ack, input.frameSequence, input.snap, input.frameInterval, input.now);
    var packets := front + frame;
    if FrontDue(ready, config, input.now) {
      assert packets[|front| - 1] == PagePacket(ready.pending[0].page);
      forall i | 0 <= i < |packets| && packets[i].PagePacket?
        ensures packets[i] == PagePacket(ready.pending[0].page)
      {
        assert i < |front| ==> packets[i] == front[i];
      }
    }
  }

  lemma DispatchFrame(ready: Stream, input: TickInput, config: StreamConfig)
    requires Dispatch(ready, input, config).Sent?
    ensures var result := Dispatch(ready, input, config);
            var due := ready.lastFrameSent.None? || input.now - ready.lastFrameSent.value >= input.frameInterval;
            && (HoldsFrame(result.packets) <==> due)
            && result.stream.lastFrameSent == if due then Some(input.now) else ready.lastFrameSent
  {
    var (afterFront, front) := SendFront(ready, config, input.now);
    var (afterFrame, frame) := SendFrame(afterFront, input.ack, input.frameSequence, input.snap, input.frameInterval, input.now);
    assert forall i :: 0 <= i < |front| ==> !front[i].FramePacket?;
    if frame != [] {
      assert (front + frame)[|front|] == frame[0];
    } else {
      assert front + frame == front;
    }
  }

  // ----- the invariant -------------------------------------------------------------------

  /** The bookkeeping of a pending page is what has been sent of it. */
  ghost predicate EntryOk(r: Ticks, p: Pending, k: nat)
    requires k <= |r.inputs|
  {
    var sends := PageSends(r, p.page.sequence);
    && p.attempts == Count(sends, k)
    && (p.attempts > 0 ==> Latest(sends, k).Some? && p.lastSent == r.inputs[Latest(sends, k).value].now)
  }

  /** Pages pending are numbered upwards, up to the last number given out. */
  ghost predicate Numbered(s: Stream) {
    && (forall i, j :: 0 <= i < j < |s.pending| ==> s.pending[i].page.sequence < s.pending[j].page.sequence)
    && (forall i :: 0 <= i < |s.pending| ==> s.pending[i].page.sequence <= s.nextSequence)
  }

  ghost predicate SentOk(r: Ticks, s: Stream, k: nat)
    requires k <= |r.inputs|
  {
    && Numbered(s)
    && (forall m :: 0 <= m < |s.pending| ==> EntryOk(r, s.pending[m], k))
    && (forall n: nat :: s.nextSequence < n ==> Count(PageSends(r, n), k) == 0)
  }

  lemma RetireSentOk(r: Ticks, s: Stream, k: nat, ack: nat)
    requires k <= |r.inputs| && SentOk(r, s, k)
    ensures SentOk(r, Retire(s, ack), k)
  {
  }

  lemma RefillSentOk(r: Ticks, s: Stream, k: nat, input: TickInput)
    requires k <= |r.inputs| && SentOk(r, s, k)
    ensures SentOk(r, Refill(s, input.data, input.snap, input.now), k)
  {
    if s.pending == [] {
      var ready := Refill(s, input.data, input.snap, input.now);
      RefilledEntries(s, input);
      forall m | 0 <= m < |ready.pending|
        ensures EntryOk(r, ready.pending[m], k)
      {
        assert Count(PageSends(r, ready.pending[m].page.sequence), k) == 0;
      }
    }
  }

  /** What is refilled is numbered on and was never attempted. */
  lemma RefilledEntries(s: Stream, input: TickInput)
    requires s.pending == []
    ensures var ready := Refill(s, input.data, input.snap, input.now);
            && ready.nextSequence == s.nextSequence + |ready.pending|
            && forall m :: 0 <= m < |ready.pending| ==>
                 ready.pending[m].page.sequence == s.nextSequence + 1 + m && ready.pending[m].attempts == 0
  {
    var first, baseline := s.nextSequence + 1, NeedsBaseline(s, input.snap);
    PaginatedEntries(EventsDue(s, input.data, input.snap), first, input.snap, baseline, input.now,
                     Paginate(EventsDue(s, input.data, input.snap), first, input.snap, baseline, input.now));
  }

  lemma PaginatedEntries(events: seq<GlobalEvent>, sequence: nat, snap: Snapshot, baseline: bool, now: real, pages: seq<Pending>)
    requires pages == Paginate(events, sequence, snap, baseline, now)
    ensures forall m :: 0 <= m < |pages| ==> pages[m].page.sequence == sequence + m && pages[m].attempts == 0
  {
    P.PaginatePages(events, sequence, snap, baseline, now);
    NeverAttempted(events, sequence, snap, baseline, now);
  }

  lemma {:induction false} NeverAttempted(events: seq<GlobalEvent>, sequence: nat, snap: Snapshot, baseline: bool, now: real)
    ensures forall p :: p in Paginate(events, sequence, snap, baseline, now) ==> p.attempts == 0
    decreases |events|
  {
    if |events| > PAGE_EVENTS {
      NeverAttempted(events[PAGE_EVENTS..], sequence + 1, snap, false, now);
    }
  }

  /** One tick of a run, as the dispatch it comes to. */
  lemma RunStep(r: Ticks, k: nat, ready: Stream)
    requires TicksRun(r) && k < |r.inputs| && ready == Ready(r.streams[k], r.inputs[k])
    ensures var result := Dispatch(ready, r.inputs[k], r.config);
            result.Sent? && result.stream == r.streams[k + 1] && result.packets == PacketsAt(r, k)
  {
    assert Follows(r.config, r.streams[k], r.inputs[k], r.streams[k + 1]);
  }

  /** Tick `k` sends exactly the page at the front, when it is due. */
  lemma SendsOfStep(r: Ticks, k: nat, ready: Stream, n: nat)
    requires TicksRun(r) && k < |r.inputs| && ready == Ready(r.streams[k], r.inputs[k])
    ensures PageSends(r, n)(k) <==> FrontDue(ready, r.config, r.inputs[k].now) && ready.pending[0].page.sequence == n
    ensures Count(PageSends(r, n), k + 1)
              == Count(PageSends(r, n), k) + if PageSends(r, n)(k) then 1 else 0
    ensures Latest(PageSends(r, n), k + 1) == if PageSends(r, n)(k) then Some(k) else Latest(PageSends(r, n), k)
  {
    RunStep(r, k, ready);
    DispatchSends(ready, r.inputs[k], r.config, n);
  }

  lemma EntryStep(r: Ticks, k: nat, ready: Stream, t: Stream, m: nat)
    requires TicksRun(r) && k < |r.inputs| && ready == Ready(r.streams[k], r.inputs[k]) && t == r.streams[k + 1]
    requires Numbered(ready) && m < |ready.pending| && EntryOk(r, ready.pending[m], k)
    ensures |t.pending| == |ready.pending| && EntryOk(r, t.pending[m], k + 1)
    ensures t.pending[m].page == ready.pending[m].page
  {
    var n := ready.pending[m].page.sequence;
    RunStep(r, k, ready);
    DispatchSends(ready, r.inputs[k], r.config, n);
    SendsOfStep(r, k, ready, n);
    assert m > 0 ==> ready.pending[0].page.sequence < n;
  }

  lemma UnsentStep(r: Ticks, k: nat, ready: Stream, n: nat)
    requires TicksRun(r) && k < |r.inputs| && ready == Ready(r.streams[k], r.inputs[k])
    requires Numbered(ready) && ready.nextSequence < n && Count(PageSends(r, n), k) == 0
    ensures Count(PageSends(r, n), k + 1) == 0
  {
    SendsOfStep(r, k, ready, n);
  }

  lemma StreamStep(r: Ticks, k: nat, ready: Stream)
    requires TicksRun(r) && k < |r.inputs| && ready == Ready(r.streams[k], r.inputs[k])
    ensures |r.streams[k + 1].pending| == |ready.pending| && r.streams[k + 1].nextSequence == ready.nextSequence
  {
    RunStep(r, k, ready);
    DispatchSends(ready, r.inputs[k], r.config, 0);
  }

  lemma SentOkFrom(r: Ticks, ready: Stream, t: Stream, k: nat)
    requires k < |r.inputs| && SentOk(r, ready, k) && t.nextSequence == ready.nextSequence && |t.pending| == |ready.pending|
    requires forall m :: 0 <= m < |t.pending| ==> EntryOk(r, t.pending[m], k + 1) && t.pending[m].page == ready.pending[m].page
    requires forall n: nat :: t.nextSequence < n ==> Count(PageSends(r, n), k + 1) == 0
    ensures SentOk(r, t, k + 1)
  {
  }

  lemma DispatchSentOk(r: Ticks, k: nat, ready: Stream)
    requires TicksRun(r) && k < |r.inputs| && ready == Ready(r.streams[k], r.inputs[k]) && SentOk(r, ready, k)
    ensures SentOk(r, r.streams[k + 1], k + 1)
  {
    var t := r.streams[k + 1];
    StreamStep(r, k, ready);
    forall m | 0 <= m < |t.pending|
      ensures EntryOk(r, t.pending[m], k + 1) && t.pending[m].page == ready.pending[m].page
    {
      EntryStep(r, k, ready, t, m);
    }
    forall n: nat | t.nextSequence < n
      ensures Count(PageSends(r, n), k + 1) == 0
    {
      UnsentStep(r, k, ready, n);
    }
    SentOkFrom(r, ready, t, k);
  }

  lemma {:induction false} RunSentOk(r: Ticks, k: nat)
    requires TicksRun(r) && k < |r.streams|
    ensures SentOk(r, r.streams[k], k)
  {
    if k > 0 {
      RunSentOk(r, k - 1);
      StepSentOk(r, k - 1);
    }
  }

  lemma StepSentOk(r: Ticks, k: nat)
    requires TicksRun(r) && k < |r.inputs| && SentOk(r, r.streams[k], k)
    ensures SentOk(r, r.streams[k + 1], k + 1)
  {
    ReadySentOk(r, k);
    DispatchSentOk(r, k, Ready(r.streams[k], r.inputs[k]));
  }

  lemma ReadySentOk(r: Ticks, k: nat)
    requires k < |r.inputs| && k < |r.streams| && SentOk(r, r.streams[k], k)
    ensures SentOk(r, Ready(r.streams[k], r.inputs[k]), k)
  {
    RetireSentOk(r, r.streams[k], k, r.inputs[k].ack);
    RefillSentOk(r, Retire(r.streams[k], r.inputs[k].ack), k, r.inputs[k]);
  }

  // ----- pages --------------------------------------------------------------------------

  /** A tick that sends a page again does so at least the retry interval after the latest send of it. */
  lemma SentAgainLater(r: Ticks, j: nat, n: nat)
    requires TicksRun(r) && j < |r.inputs| && PageSends(r, n)(j) && Latest(PageSends(r, n), j).Some?
    ensures r.inputs[j].now - r.inputs[Latest(PageSends(r, n), j).value].now >= r.config.retryInterval
    ensures Count(PageSends(r, n), j) < r.config.retryLimit
  {
    var ready := Ready(r.streams[j], r.inputs[j]);
    RunSentOk(r, j);
    ReadySentOk(r, j);
    DispatchSends(ready, r.inputs[j], r.config, n);
    CountedHasLatest(PageSends(r, n), j);
    assert EntryOk(r, ready.pending[0], j);
  }

  /** Any two sends of one page are at least the retry interval apart. */
  lemma {:induction false} PageSendsApart(r: Ticks, i: nat, j: nat, n: nat)
    requires TicksRun(r) && r.config.retryInterval >= 0.0
    requires i < j < |r.inputs| && PageSends(r, n)(i) && PageSends(r, n)(j)
    ensures r.inputs[j].now - r.inputs[i].now >= r.config.retryInterval
    decreases j
  {
    var last := Latest(PageSends(r, n), j);
    SentAgainLater(r, j, n);
    if last.value != i {
      PageSendsApart(r, i, last.value, n);
    }
  }

  /**
   A further tick sends its page at the front, or removes the subscriber, exactly when the page was never
   sent or its latest send is the interval ago; it removes it exactly when the page was sent as often as allowed.
   */
  lemma FrontSentOrRemovedIff(r: Ticks, input: TickInput)
    requires TicksRun(r) && Ready(r.streams[|r.inputs|], input).pending != []
    ensures var front := Ready(r.streams[|r.inputs|], input).pending[0].page;
            var sends, k := PageSends(r, front.sequence), |r.inputs|;
            var due := Latest(sends, k).Some? ==> input.now - r.inputs[Latest(sends, k).value].now >= r.config.retryInterval;
            match Tick(r.streams[k], input, r.config)
            case Removed => due && Count(sends, k) >= r.config.retryLimit
            case Sent(_, packets) =>
              && (PagePacket(front) in packets <==> due)
              && (due ==> Count(sends, k) < r.config.retryLimit)
  {
    var k := |r.inputs|;
    var ready := Ready(r.streams[k], input);
    RunSentOk(r, k);
    RetireSentOk(r, r.streams[k], k, input.ack);
    RefillSentOk(r, Retire(r.streams[k], input.ack), k, input);
    assert EntryOk(r, ready.pending[0], k);
    var front := ready.pending[0].page;
    CountedHasLatest(PageSends(r, front.sequence), k);
    if Dispatch(ready, input, r.config).Sent? {
      FrontAmong(ready, input, r.config);
    }
  }

  lemma FrontAmong(ready: Stream, input: TickInput, config: StreamConfig)
    requires Dispatch(ready, input, config).Sent? && ready.pending != []
    ensures PagePacket(ready.pending[0].page) in Dispatch(ready, input, config).packets <==> FrontDue(ready, config, input.now)
  {
    var (afterFront, front) := SendFront(ready, config, input.now);
    var (afterFrame, frame) := SendFrame(afterFront, input.ack, input.frameSequence, input.snap, input.frameInterval, input.now);
    if FrontDue(ready, config, input.now) {
      assert front[|front| - 1] == PagePacket(ready.pending[0].page);
      assert front[|front| - 1] in front + frame;
    }
  }

  // ----- frames --------------------------------------------------------------------------

  lemma RetireRefillFrame(s: Stream, input: TickInput)
    ensures Ready(s, input).lastFrameSent == s.lastFrameSent
  {
  }

  /** What tick `k` does about frames. */
  ghost predicate FramePaced(r: Ticks, sends: nat -> bool, k: nat)
    requires k < |r.inputs| < |r.streams|
  {
    var before := r.streams[k].lastFrameSent;
    && (sends(k) <==> before.None? || r.inputs[k].now - before.value >= r.inputs[k].frameInterval)
    && r.streams[k + 1].lastFrameSent == if sends(k) then Some(r.inputs[k].now) else before
  }

  lemma FrameStep(r: Ticks, k: nat)
    requires TicksRun(r) && k < |r.inputs|
    ensures FramePaced(r, FrameSends(r), k)
  {
    var ready := Ready(r.streams[k], r.inputs[k]);
    RunStep(r, k, ready);
    RetireRefillFrame(r.streams[k], r.inputs[k]);
    DispatchFrame(ready, r.inputs[k], r.config);
  }

  /** The instant of the latest frame. */
  ghost predicate FrameRecorded(r: Ticks, sends: nat -> bool, k: nat)
    requires k < |r.streams| == |r.inputs| + 1
  {
    var last := Latest(sends, k);
    r.streams[k].lastFrameSent == if last.Some? then Some(r.inputs[last.value].now) else None
  }

  lemma {:induction false} FramesRecorded(r: Ticks, sends: nat -> bool, k: nat)
    requires k < |r.streams| == |r.inputs| + 1 && r.streams[0].lastFrameSent.None?
    requires forall i: nat :: i < |r.inputs| ==> FramePaced(r, sends, i)
    ensures FrameRecorded(r, sends, k)
  {
    if k > 0 {
      FramesRecorded(r, sends, k - 1);
      assert FramePaced(r, sends, k - 1);
    }
  }

  lemma RunFrames(r: Ticks, k: nat)
    requires TicksRun(r) && k < |r.streams|
    ensures FrameRecorded(r, FrameSends(r), k)
  {
    forall i: nat | i < |r.inputs|
      ensures FramePaced(r, FrameSends(r), i)
    {
      FrameStep(r, i);
    }
    FramesRecorded(r, FrameSends(r), k);
  }

  /** A tick sends a frame exactly when none was sent before or the latest is at least its frame interval ago. */
  lemma FrameSentIff(r: Ticks, j: nat)
    requires TicksRun(r) && j < |r.inputs|
    ensures FrameSends(r)(j) <==>
            var last := Latest(FrameSends(r), j);
            last.Some? ==> r.inputs[j].now - r.inputs[last.value].now >= r.inputs[j].frameInterval
  {
    RunFrames(r, j);
    FrameStep(r, j);
  }

  /** Any two frames are at least the frame interval of the later one apart. */
  lemma {:induction false} FramesApart(r: Ticks, i: nat, j: nat)
    requires TicksRun(r) && i < j < |r.inputs| && FrameSends(r)(i) && FrameSends(r)(j)
    requires forall k :: 0 <= k < |r.inputs| ==> r.inputs[k].frameInterval >= 0.0
    ensures r.inputs[j].now - r.inputs[i].now >= r.inputs[j].frameInterval
    decreases j
  {
    var last := Latest(FrameSends(r), j);
    FrameSentIff(r, j);
    if last.value != i {
      FramesApart(r, i, last.value);
    }
  }
}
