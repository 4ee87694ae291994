/**
 One subscriber's cursor stream as a step system: the publisher ticks, the session
 acknowledges, the network loses, repeats and reorders, the client applies.
 */
module Protocol {
  import opened Common
  import opened Store
  import opened Playback
  import opened Publisher
  import Client
  import opened Sessions

  /**
   A packet on the wire.  `tag` is the revision of the page the stream was working on
   when it was sent, `queuedThen` the number of pages queued by then.
   */
  datatype Wire = Wire(packet: Packet, tag: nat, queuedThen: nat)

  /** A frame handed to the consumer and the number of batches applied before it. */
  datatype Shown = Shown(frame: Frame, appliedBefore: nat)

  datatype System = System(
    stream: Stream,
    live: bool,              // false once the subscriber has been removed
    session: Session,
    seen: nat,               // acknowledgement in the publisher's copy of the session
    revision: nat,           // revision of the last playback snapshot
    frameSequence: nat,
    queued: seq<EventPage>,  // every page ever queued
    sent: seq<Wire>,         // every packet ever sent; receiving does not remove it
    newest: int,             // greatest index received so far, or -1
    acks: set<nat>,          // every acknowledgement ever sent
    client: Client.State,
    applied: seq<EventPage>, // batches handed to the consumer, in order
    shown: seq<Shown>)

  /** What the network may do with packets of different revisions. */
  datatype Network =
    | RevisionOrder           // any loss, repetition and reordering that never goes back to an older revision
    | Fifo                    // loss and repetition only
    | OneRevision(fixed: nat) // anything at all, while the playback revision does not change

  datatype Move =
    | ListSessions
    | TickAt(input: TickInput)
    | Deliver(index: nat)
    | ReleaseFrame
    | DeliverAck(sequence: nat)
    | StrayAck(epoch: Option<Bytes>, number: nat) // an acknowledgement of another epoch, or of none

  datatype Setup = Setup(epoch: Bytes, config: StreamConfig, network: Network)

  function Start(address: Address, uuid: Uuid, requestedHz: real, now: real): System {
    System(NEW_STREAM, true,
           NewSession(address, uuid, CursorSubscriber, now).(subscribed := true, requestedHz := requestedHz),
           0, 0, 0, [], [], -1, {}, Client.FRESH, [], [])
  }

  // ----- the moves -------------------------------------------------------------

  /** Index, in the history, of the page the stream is working on. */
  function Working(queued: seq<EventPage>, stream: Stream): nat {
    if |stream.pending| <= |queued| then |queued| - |stream.pending| else 0
  }

  function TagOf(queued: seq<EventPage>, stream: Stream): nat {
    var at := Min(Working(queued, stream), |queued| - 1);
    if 0 <= at < |queued| then queued[at].revision else 0
  }

  function Wires(packets: seq<Packet>, tag: nat, queuedThen: nat): (r: seq<Wire>)
    ensures |r| == |packets|
    ensures forall i :: 0 <= i < |r| ==> r[i] == Wire(packets[i], tag, queuedThen)
  {
    if packets == [] then [] else [Wire(packets[0], tag, queuedThen)] + Wires(packets[1..], tag, queuedThen)
  }

  function ReadyStream(s: System, input: TickInput): Stream {
    Refill(Retire(s.stream, input.ack), input.data, input.snap, input.now)
  }

  function ReadyQueue(s: System, input: TickInput): seq<EventPage> {
    if Retire(s.stream, input.ack).pending == [] then s.queued + Pages(ReadyStream(s, input).pending) else s.queued
  }

  function AfterDispatch(setup: Setup, s: System, input: TickInput, queued: seq<EventPage>, ready: Stream): System {
    var told := s.(session := AnnounceEpoch(s.session, setup.epoch), revision := input.snap.revision, frameSequence := input.frameSequence);
    match Dispatch(ready, input, setup.config)
    case Removed => told.(live := false)
    case Sent(stream, packets) =>
      told.(stream := stream, queued := queued, sent := s.sent + Wires(packets, TagOf(queued, ready), |queued|))
  }

  /** `Publisher.Tick`, with the pages it queues and the packets it sends recorded. */
  function AfterTick(setup: Setup, s: System, input: TickInput): System {
    AfterDispatch(setup, s, input, ReadyQueue(s, input), ReadyStream(s, input))
  }

  function Note(s: System, received: (Client.State, Client.Output)): System {
    var t := s.(client := received.0);
    match received.1
    case ApplyBatch(page) => t.(applied := s.applied + [page])
    case ShowFrame(frame) => t.(shown := s.shown + [Shown(frame, |s.applied|)])
    case Silent => t
    case ResetTimeline(_, _) => t
  }

  function AfterDeliver(setup: Setup, s: System, index: nat): System
    requires index < |s.sent|
  {
    var packet := s.sent[index].packet;
    var ack := Client.AckFor(packet);
    Note(s.(newest := Max(s.newest, index), acks := if ack.Some? then s.acks + {ack.value} else s.acks),
         Client.Receive(s.client, setup.epoch, packet))
  }

  function NewestTag(s: System): nat {
    if 0 <= s.newest < |s.sent| then s.sent[s.newest].tag else 0
  }

  predicate Enabled(setup: Setup, s: System, move: Move) {
    match move
    case ListSessions => s.live
    case TickAt(input) =>
      && s.live && input.ack == s.seen && s.revision <= input.snap.revision && s.frameSequence < input.frameSequence
      && (setup.network.OneRevision? ==> input.snap.revision == setup.network.fixed)
    case Deliver(index) =>
      && index < |s.sent|
      && (setup.network.RevisionOrder? ==> NewestTag(s) <= s.sent[index].tag)
      && (setup.network.Fifo? ==> s.newest <= index)
    case ReleaseFrame => true
    case DeliverAck(sequence) => s.live && sequence in s.acks
    case StrayAck(epoch, _) => s.live && epoch != Some(setup.epoch) && epoch != Some([])
  }

  function Next(setup: Setup, s: System, move: Move): System
    requires Enabled(setup, s, move)
  {
    match move
    case ListSessions => s.(seen := s.session.eventAck)
    case TickAt(input) => AfterTick(setup, s, input)
    case Deliver(index) => AfterDeliver(setup, s, index)
    case ReleaseFrame => Note(s, Client.Release(s.client))
    case DeliverAck(sequence) => s.(session := Acknowledge(s.session, Some(setup.epoch), sequence))
    case StrayAck(epoch, number) => s.(session := Acknowledge(s.session, epoch, number))
  }

  ghost predicate Run(setup: Setup, states: seq<System>, moves: seq<Move>) {
    && |states| == |moves| + 1
    && (exists address, uuid, hz, now :: states[0] == Start(address, uuid, hz, now))
    && forall i :: 0 <= i < |moves| ==> Enabled(setup, states[i], moves[i]) && states[i + 1] == Next(setup, states[i], moves[i])
  }

  // ----- the invariant -----------------------------------------------------------

  /** Pages are numbered from 1 without gaps, revisions never decrease, and only a baseline raises the revision. */
  ghost predicate HistoryOk(queued: seq<EventPage>) {
    && (forall i :: 0 <= i < |queued| ==> queued[i].sequence == i + 1)
    && (forall i, j :: 0 <= i <= j < |queued| ==> queued[i].revision <= queued[j].revision)
    && (queued != [] ==> queued[0].baseline)
    && (forall i :: 0 < i < |queued| && !queued[i].baseline ==> queued[i - 1].revision == queued[i].revision)
  }

  /** The pending pages are the tail of the history, and the acknowledgement is at their head. */
  ghost predicate StreamOk(queued: seq<EventPage>, stream: Stream, seen: nat, ack: nat, revision: nat) {
    && |stream.pending| <= |queued|
    && stream.nextSequence == |queued|
    && (forall i :: 0 <= i < |stream.pending| ==> stream.pending[i].page == queued[|queued| - |stream.pending| + i])
    && (stream.pending != [] ==> stream.pending[|stream.pending| - 1].page.complete)
    && (queued == [] ==> stream.lastRevision == None)
    && (stream.pending == [] && queued != [] ==> stream.lastRevision == Some(queued[|queued| - 1].revision))
    && (forall i :: 0 <= i < |queued| ==> queued[i].revision <= revision)
    && Working(queued, stream) <= seen <= ack <= Working(queued, stream) + 1
    && ack <= |queued|
  }

  ghost predicate WireOk(queued: seq<EventPage>, working: nat, tag: nat, wire: Wire) {
    && wire.tag <= tag
    && 1 <= wire.queuedThen <= |queued|
    && match wire.packet
       case PagePacket(page) =>
         1 <= page.sequence <= Min(working + 1, |queued|) && page == queued[page.sequence - 1] && wire.tag == page.revision
       case ResetPacket(sequence, revision, _) =>
         && 1 <= sequence <= Min(working + 1, |queued|)
         && queued[sequence - 1].baseline && revision == queued[sequence - 1].revision == wire.tag
       case FramePacket(frame) => frame.watermark == wire.queuedThen
  }

  ghost predicate NetworkOk(s: System) {
    && -1 <= s.newest < |s.sent|
    && (forall i :: 0 <= i < |s.sent| ==> WireOk(s.queued, Working(s.queued, s.stream), TagOf(s.queued, s.stream), s.sent[i]))
    && (forall i, j :: 0 <= i <= j < |s.sent| ==> s.sent[i].tag <= s.sent[j].tag)
    && (forall n :: n in s.acks ==> 1 <= n <= Min(Working(s.queued, s.stream) + 1, |s.queued|))
  }

  /** The client's counter agrees with what it applied. */
  ghost predicate Steady(setup: Setup, s: System) {
    var k := |s.applied|;
    && s.client.applied == k
    && (0 < k <= |s.queued| ==>
          && s.client.epoch == setup.epoch
          && s.client.baselineRevision == Some(s.queued[k - 1].revision)
          && s.queued[k - 1].revision <= NewestTag(s))
  }

  /** The window between a reset and the baseline page it announces. */
  ghost predicate Awaiting(setup: Setup, s: System) {
    var k := |s.applied|;
    && s.client.applied == 0 < k < |s.queued|
    && k == Working(s.queued, s.stream)
    && s.queued[k].baseline && s.queued[k - 1].revision < s.queued[k].revision
    && s.client.epoch == setup.epoch
    && s.client.baselineRevision == Some(s.queued[k].revision)
    && s.queued[k].revision <= NewestTag(s)
  }

  ghost predicate ClientOk(setup: Setup, s: System) {
    && s.session.eventAck <= |s.applied| <= Min(Working(s.queued, s.stream) + 1, |s.queued|)
    && s.applied == s.queued[..|s.applied|]
    && (Steady(setup, s) || Awaiting(setup, s))
    && (s.client.pendingFrame.Some? ==> s.client.pendingFrame.value.watermark >= 1)
    && (forall i :: 0 <= i < |s.shown| ==> 1 <= s.shown[i].frame.watermark <= s.shown[i].appliedBefore <= |s.applied|)
    && s.client.stats.batchesReceived == |s.applied|
    && s.client.stats.framesReceived == |s.shown|
  }

  /** Only what was applied is acknowledged. */
  ghost predicate AcksOk(s: System) {
    forall n :: n in s.acks ==> 1 <= n <= |s.applied|
  }

  /** The publisher's and the network's side, whatever the client does with what it receives. */
  ghost predicate ServerOk(setup: Setup, s: System) {
    && s.session.role == CursorSubscriber && s.session.subscribed
    && (s.session.epoch == [] || s.session.epoch == setup.epoch)
    && (s.acks != {} ==> s.session.epoch == setup.epoch)
    && (s.sent != [] ==> s.session.epoch == setup.epoch)
    && HistoryOk(s.queued)
    && StreamOk(s.queued, s.stream, s.seen, s.session.eventAck, s.revision)
    && NetworkOk(s)
    && (setup.network.OneRevision? ==>
          && Fixed(setup, s.queued)
          && (forall i :: 0 <= i < |s.sent| ==> s.sent[i].tag == setup.network.fixed))
  }

  ghost predicate Inv(setup: Setup, s: System) {
    ServerOk(setup, s) && AcksOk(s) && ClientOk(setup, s)
  }

  // ----- ticks -----------------------------------------------------------------------

  lemma RetireOk(queued: seq<EventPage>, stream: Stream, seen: nat, ack: nat, revision: nat)
    requires HistoryOk(queued) && StreamOk(queued, stream, seen, ack, revision)
    ensures StreamOk(queued, Retire(stream, seen), seen, ack, revision)
    ensures Working(queued, stream) <= Working(queued, Retire(stream, seen))
    ensures Working(queued, Retire(stream, seen)) == Working(queued, stream) || Working(queued, stream) < ack
  {
    if stream.pending != [] {
      assert stream.pending[0].page == queued[|queued| - |stream.pending|];
    }
  }

  /** A run of new pages: consecutive numbers, one revision, the flags on the first and the last. */
  ghost predicate NewPages(pages: seq<Pending>, sequence: nat, revision: nat, baseline: bool) {
    forall k :: 0 <= k < |pages| ==>
      && pages[k].page.sequence == sequence + k
      && pages[k].page.revision == revision
      && pages[k].page.baseline == (baseline && k == 0)
      && pages[k].page.complete == (k == |pages| - 1)
  }

  lemma PaginatePages(events: seq<GlobalEvent>, sequence: nat, snap: Snapshot, baseline: bool, now: real)
    ensures NewPages(Paginate(events, sequence, snap, baseline, now), sequence, snap.revision, baseline)
  {
    var pages := Paginate(events, sequence, snap, baseline, now);
    PaginateCount(events, sequence, snap, baseline, now);
    forall k | 0 <= k < |pages|
      ensures pages[k].page.sequence == sequence + k
      ensures pages[k].page.revision == snap.revision
      ensures pages[k].page.baseline == (baseline && k == 0)
      ensures pages[k].page.complete == (k == |pages| - 1)
    {
      PaginateAt(events, sequence, snap, baseline, now, k);
    }
  }

  lemma HistoryExtends(queued: seq<EventPage>, more: seq<EventPage>, baseline: bool, revision: nat)
    requires HistoryOk(queued)
    requires forall i :: 0 <= i < |queued| ==> queued[i].revision <= revision
    requires forall k :: 0 <= k < |more| ==>
               more[k].sequence == |queued| + 1 + k && more[k].revision == revision && more[k].baseline == (baseline && k == 0)
    requires !baseline ==> queued != [] && queued[|queued| - 1].revision == revision
    ensures HistoryOk(queued + more)
  {
    var all := queued + more;
    assert forall i :: 0 <= i < |queued| ==> all[i] == queued[i];
    assert forall i :: |queued| <= i < |all| ==> all[i] == more[i - |queued|];
  }

  /** What queueing behind an empty queue does to the history. */
  ghost predicate Continues(queued: seq<EventPage>, ready: Stream, seen: nat, ack: nat, revision: nat) {
    var queued' := queued + Pages(ready.pending);
    && HistoryOk(queued') && queued' != []
    && StreamOk(queued', ready, seen, ack, revision)
    && Working(queued', ready) == |queued|
    && forall i :: |queued| <= i < |queued'| ==> queued'[i].revision == revision
  }

  lemma PagesContinue(queued: seq<EventPage>, ready: Stream, seen: nat, ack: nat, revision: nat, baseline: bool)
    requires HistoryOk(queued) && |queued| == seen == ack
    requires forall i :: 0 <= i < |queued| ==> queued[i].revision <= revision
    requires !baseline ==> queued != [] && queued[|queued| - 1].revision == revision
    requires queued == [] ==> ready.lastRevision == None
    requires ready.pending != [] && ready.nextSequence == |queued| + |ready.pending|
    requires NewPages(ready.pending, |queued| + 1, revision, baseline)
    ensures HistoryOk(queued + Pages(ready.pending))
    ensures Working(queued + Pages(ready.pending), ready) == |queued|
    ensures forall i :: |queued| <= i < |queued| + |ready.pending| ==> (queued + Pages(ready.pending))[i].revision == revision
  {
    var more := Pages(ready.pending);
    assert forall k :: 0 <= k < |more| ==> more[k] == ready.pending[k].page;
    HistoryExtends(queued, more, baseline, revision);
  }

  lemma NewStreamOk(queued: seq<EventPage>, all: seq<EventPage>, ready: Stream, seen: nat, ack: nat, revision: nat)
    requires |all| == |queued| + |ready.pending| && |queued| == seen == ack
    requires forall i :: 0 <= i < |ready.pending| ==> ready.pending[i].page == all[|queued| + i]
    requires ready.pending != [] && ready.nextSequence == |all| && ready.pending[|ready.pending| - 1].page.complete
    requires forall i :: 0 <= i < |all| ==> all[i].revision <= revision
    ensures StreamOk(all, ready, seen, ack, revision)
  {
    assert |all| - |ready.pending| == |queued|;
  }

  lemma PendingAtEnd(queued: seq<EventPage>, pending: seq<Pending>)
    ensures forall i :: 0 <= i < |pending| ==> pending[i].page == (queued + Pages(pending))[|queued| + i]
  {
    forall i | 0 <= i < |pending|
      ensures pending[i].page == (queued + Pages(pending))[|queued| + i]
    {
      assert (queued + Pages(pending))[|queued| + i] == Pages(pending)[i];
    }
  }

  lemma NewPagesContinue(queued: seq<EventPage>, ready: Stream, seen: nat, ack: nat, revision: nat, baseline: bool)
    requires HistoryOk(queued) && |queued| == seen == ack
    requires forall i :: 0 <= i < |queued| ==> queued[i].revision <= revision
    requires !baseline ==> queued != [] && queued[|queued| - 1].revision == revision
    requires queued == [] ==> ready.lastRevision == None
    requires ready.pending != [] && ready.nextSequence == |queued| + |ready.pending|
    requires NewPages(ready.pending, |queued| + 1, revision, baseline)
    ensures Continues(queued, ready, seen, ack, revision)
  {
    PagesContinue(queued, ready, seen, ack, revision, baseline);
    var all := queued + Pages(ready.pending);
    forall i | 0 <= i < |all|
      ensures all[i].revision <= revision
    {
      assert i < |queued| ==> all[i] == queued[i];
    }
    PendingAtEnd(queued, ready.pending);
    NewStreamOk(queued, all, ready, seen, ack, revision);
  }

  lemma NothingContinues(queued: seq<EventPage>, ready: Stream, seen: nat, ack: nat, revision: nat)
    requires HistoryOk(queued) && queued != [] && ready.pending == []
    requires StreamOk(queued, ready, seen, ack, revision)
    ensures Continues(queued, ready, seen, ack, revision)
  {
    assert queued + Pages(ready.pending) == queued;
  }

  /** Queueing new pages behind an empty queue continues the history. */
  lemma EnqueueOk(queued: seq<EventPage>, stream: Stream, seen: nat, ack: nat, revision: nat,
                  events: seq<GlobalEvent>, snap: Snapshot, now: real)
    requires HistoryOk(queued) && StreamOk(queued, stream, seen, ack, revision)
    requires stream.pending == [] && revision <= snap.revision
    ensures Continues(queued, Enqueue(stream, events, snap, now), seen, ack, snap.revision)
  {
    var baseline := NeedsBaseline(stream, snap);
    if baseline || events != [] {
      PaginatePages(events, stream.nextSequence + 1, snap, baseline, now);
      NewPagesContinue(queued, Enqueue(stream, events, snap, now), seen, ack, snap.revision, baseline);
    } else {
      NothingContinues(queued, Enqueue(stream, events, snap, now), seen, ack, snap.revision);
    }
  }

  lemma RefillOk(queued: seq<EventPage>, stream: Stream, seen: nat, ack: nat, revision: nat,
                 data: Data, snap: Snapshot, now: real)
    requires HistoryOk(queued) && StreamOk(queued, stream, seen, ack, revision)
    requires stream.pending == [] && revision <= snap.revision
    ensures Continues(queued, Refill(stream, data, snap, now), seen, ack, snap.revision)
  {
    var events := EventsDue(stream, data, snap);
    EnqueueOk(queued, stream, seen, ack, revision, events, snap, now);
  }

  lemma WireGrows(queued: seq<EventPage>, queued': seq<EventPage>, working: nat, working': nat, tag: nat, tag': nat, wire: Wire)
    requires WireOk(queued, working, tag, wire)
    requires queued <= queued' && working <= working' && tag <= tag'
    ensures WireOk(queued', working', tag', wire)
  {
  }

  lemma TagGrows(queued: seq<EventPage>, queued': seq<EventPage>, stream: Stream, stream': Stream)
    requires HistoryOk(queued') && queued <= queued'
    requires Working(queued, stream) <= Working(queued', stream')
    ensures TagOf(queued, stream) <= TagOf(queued', stream')
  {
  }

  /** What the tick puts on the wire describes the page it is working on and counts every queued page. */
  lemma PacketsOk(queued: seq<EventPage>, ready: Stream, seen: nat, ack: nat, revision: nat,
                  input: TickInput, config: StreamConfig, packets: seq<Packet>)
    requires HistoryOk(queued) && queued != [] && StreamOk(queued, ready, seen, ack, revision) && input.ack == seen
    requires packets == SendFront(ready, config, input.now).1
               + SendFrame(SendFront(ready, config, input.now).0, input.ack, input.frameSequence, input.snap,
                           input.frameInterval, input.now).1
    ensures forall i :: 0 <= i < |packets| ==>
              WireOk(queued, Working(queued, ready), TagOf(queued, ready), Wire(packets[i], TagOf(queued, ready), |queued|))
  {
    var (sent, front) := SendFront(ready, config, input.now);
    if ready.pending != [] {
      assert ready.pending[0].page == queued[Working(queued, ready)];
      assert ready.pending[|ready.pending| - 1].page == queued[|queued| - 1];
      assert sent.pending[|sent.pending| - 1].page == ready.pending[|ready.pending| - 1].page;
    }
  }

  lemma DispatchShape(ready: Stream, input: TickInput, config: StreamConfig)
    requires Dispatch(ready, input, config).Sent?
    ensures var (sent, front) := SendFront(ready, config, input.now);
            var (done, frame) := SendFrame(sent, input.ack, input.frameSequence, input.snap, input.frameInterval, input.now);
            && Dispatch(ready, input, config) == Sent(done, front + frame)
            && |done.pending| == |ready.pending|
            && (forall i :: 0 <= i < |ready.pending| ==> done.pending[i].page == ready.pending[i].page)
            && done.lastRevision == ready.lastRevision && done.nextSequence == ready.nextSequence
  {
  }

  /** The state of the queue between refilling it and sending from it. */
  ghost predicate Refilled(setup: Setup, s: System, input: TickInput, queued: seq<EventPage>, ready: Stream) {
    var ack := s.session.eventAck;
    && s.queued <= queued && queued != [] && HistoryOk(queued)
    && StreamOk(queued, ready, s.seen, ack, input.snap.revision)
    && Working(s.queued, s.stream) <= Working(queued, ready)
    && (Working(queued, ready) == Working(s.queued, s.stream) || Working(s.queued, s.stream) < ack)
    && Fixed(setup, queued)
  }

  /** While the playback revision does not change, every page queued is of that revision. */
  ghost predicate Fixed(setup: Setup, queued: seq<EventPage>) {
    setup.network.OneRevision? ==> forall i :: 0 <= i < |queued| ==> queued[i].revision == setup.network.fixed
  }

  lemma FixedExtends(setup: Setup, queued: seq<EventPage>, all: seq<EventPage>, revision: nat)
    requires Fixed(setup, queued) && (setup.network.OneRevision? ==> revision == setup.network.fixed) && queued <= all
    requires forall i :: |queued| <= i < |all| ==> all[i].revision == revision
    ensures Fixed(setup, all)
  {
    assert forall i :: 0 <= i < |queued| ==> all[i] == queued[i];
  }

  lemma ContinuesRefilled(setup: Setup, s: System, input: TickInput, ready: Stream)
    requires Fixed(setup, s.queued) && (setup.network.OneRevision? ==> input.snap.revision == setup.network.fixed)
    requires Working(s.queued, s.stream) <= |s.queued|
    requires |s.queued| == Working(s.queued, s.stream) || Working(s.queued, s.stream) < s.session.eventAck
    requires Continues(s.queued, ready, s.seen, s.session.eventAck, input.snap.revision)
    ensures Refilled(setup, s, input, s.queued + Pages(ready.pending), ready)
  {
    FixedExtends(setup, s.queued, s.queued + Pages(ready.pending), input.snap.revision);
  }

  lemma EmptyRefills(setup: Setup, s: System, input: TickInput, retired: Stream, ready: Stream)
    requires ServerOk(setup, s) && Enabled(setup, s, TickAt(input))
    requires retired == Retire(s.stream, input.ack) && retired.pending == []
    requires ready == Refill(retired, input.data, input.snap, input.now)
    ensures Refilled(setup, s, input, s.queued + Pages(ready.pending), ready)
  {
    RetireOk(s.queued, s.stream, s.seen, s.session.eventAck, s.revision);
    RefillOk(s.queued, retired, s.seen, s.session.eventAck, s.revision, input.data, input.snap, input.now);
    ContinuesRefilled(setup, s, input, ready);
  }

  lemma SameQueueRefilled(setup: Setup, s: System, input: TickInput, ready: Stream)
    requires HistoryOk(s.queued) && Fixed(setup, s.queued) && s.revision <= input.snap.revision
    requires StreamOk(s.queued, ready, s.seen, s.session.eventAck, s.revision) && ready.pending != []
    requires Working(s.queued, s.stream) <= Working(s.queued, ready)
    requires Working(s.queued, ready) == Working(s.queued, s.stream) || Working(s.queued, s.stream) < s.session.eventAck
    ensures Refilled(setup, s, input, s.queued, ready)
  {
  }

  lemma BusyRefills(setup: Setup, s: System, input: TickInput, retired: Stream)
    requires ServerOk(setup, s) && Enabled(setup, s, TickAt(input))
    requires retired == Retire(s.stream, input.ack) && retired.pending != []
    ensures Refilled(setup, s, input, s.queued, retired)
  {
    RetireOk(s.queued, s.stream, s.seen, s.session.eventAck, s.revision);
    SameQueueRefilled(setup, s, input, retired);
  }

  lemma TickRefills(setup: Setup, s: System, input: TickInput)
    requires ServerOk(setup, s) && Enabled(setup, s, TickAt(input))
    ensures Refilled(setup, s, input, ReadyQueue(s, input), ReadyStream(s, input))
  {
    var retired := Retire(s.stream, input.ack);
    if retired.pending == [] {
      EmptyRefills(setup, s, input, retired, ReadyStream(s, input));
    } else {
      BusyRefills(setup, s, input, retired);
    }
  }

  lemma NetworkGrows(s: System, t: System, added: seq<Wire>)
    requires NetworkOk(s) && s.queued <= t.queued
    requires t.sent == s.sent + added && t.newest == s.newest && t.acks == s.acks
    requires Working(s.queued, s.stream) <= Working(t.queued, t.stream) && TagOf(s.queued, s.stream) <= TagOf(t.queued, t.stream)
    requires forall i :: 0 <= i < |added| ==>
               && added[i].tag == TagOf(t.queued, t.stream)
               && WireOk(t.queued, Working(t.queued, t.stream), TagOf(t.queued, t.stream), added[i])
    ensures NetworkOk(t) && NewestTag(t) == NewestTag(s)
  {
    var w, w' := Working(s.queued, s.stream), Working(t.queued, t.stream);
    var g, g' := TagOf(s.queued, s.stream), TagOf(t.queued, t.stream);
    WiresGrow(s.queued, t.queued, w, w', g, g', s.sent, added);
    forall i | 0 <= i < |s.sent|
      ensures s.sent[i].tag <= g'
    {
      assert WireOk(s.queued, w, g, s.sent[i]);
    }
    TagsStaySorted(s.sent, added, g');
  }

  lemma TickWires(setup: Setup, s: System, input: TickInput, queued: seq<EventPage>, ready: Stream, t: System, added: seq<Wire>)
    requires ServerOk(setup, s) && Refilled(setup, s, input, queued, ready)
    requires t.queued == queued && |t.stream.pending| == |ready.pending|
    requires t.sent == s.sent + added && t.newest == s.newest && t.acks == s.acks
    requires forall i :: 0 <= i < |added| ==>
               added[i].tag == TagOf(queued, ready) && WireOk(queued, Working(queued, ready), TagOf(queued, ready), added[i])
    ensures NetworkOk(t) && NewestTag(t) == NewestTag(s)
    ensures setup.network.OneRevision? ==> forall i :: 0 <= i < |t.sent| ==> t.sent[i].tag == setup.network.fixed
  {
    TagGrows(s.queued, queued, s.stream, ready);
    assert Working(queued, t.stream) == Working(queued, ready) && TagOf(queued, t.stream) == TagOf(queued, ready);
    NetworkGrows(s, t, added);
  }

  /** Whatever was on the wire stays as it should be while queue and stream move on. */
  lemma WiresGrow(queued: seq<EventPage>, queued': seq<EventPage>, w: nat, w': nat, g: nat, g': nat, sent: seq<Wire>, added: seq<Wire>)
    requires queued <= queued' && w <= w' && g <= g'
    requires forall i :: 0 <= i < |sent| ==> WireOk(queued, w, g, sent[i])
    requires forall i :: 0 <= i < |added| ==> WireOk(queued', w', g', added[i])
    ensures forall i :: 0 <= i < |sent + added| ==> WireOk(queued', w', g', (sent + added)[i])
  {
    forall i | 0 <= i < |sent + added|
      ensures WireOk(queued', w', g', (sent + added)[i])
    {
      if i < |sent| {
        assert (sent + added)[i] == sent[i];
        WireGrows(queued, queued', w, w', g, g', sent[i]);
      } else {
        assert (sent + added)[i] == added[i - |sent|];
      }
    }
  }

  /** Packets sent behind the others, all of the newest tag. */
  lemma TagsStaySorted(sent: seq<Wire>, added: seq<Wire>, tag: nat)
    requires forall i, j :: 0 <= i <= j < |sent| ==> sent[i].tag <= sent[j].tag
    requires forall i :: 0 <= i < |sent| ==> sent[i].tag <= tag
    requires forall i :: 0 <= i < |added| ==> added[i].tag == tag
    ensures forall i, j :: 0 <= i <= j < |sent + added| ==> (sent + added)[i].tag <= (sent + added)[j].tag
  {
    var all := sent + added;
    forall i, j | 0 <= i <= j < |all|
      ensures all[i].tag <= all[j].tag
    {
      assert all[i] == if i < |sent| then sent[i] else added[i - |sent|];
      assert all[j] == if j < |sent| then sent[j] else added[j - |sent|];
    }
  }

  lemma SendingKeepsStream(queued: seq<EventPage>, ready: Stream, done: Stream, seen: nat, ack: nat, revision: nat)
    requires StreamOk(queued, ready, seen, ack, revision)
    requires |done.pending| == |ready.pending| && done.lastRevision == ready.lastRevision && done.nextSequence == ready.nextSequence
    requires forall i :: 0 <= i < |ready.pending| ==> done.pending[i].page == ready.pending[i].page
    ensures StreamOk(queued, done, seen, ack, revision)
  {
  }

  lemma SentServer(setup: Setup, s: System, input: TickInput, queued: seq<EventPage>, ready: Stream, t: System, packets: seq<Packet>)
    requires ServerOk(setup, s) && Refilled(setup, s, input, queued, ready)
    requires Dispatch(ready, input, setup.config) == Sent(t.stream, packets) && input.ack == s.seen
    requires t == s.(stream := t.stream, session := AnnounceEpoch(s.session, setup.epoch), revision := input.snap.revision,
                     frameSequence := t.frameSequence, queued := queued,
                     sent := s.sent + Wires(packets, TagOf(queued, ready), |queued|))
    ensures ServerOk(setup, t) && NewestTag(t) == NewestTag(s) && |t.stream.pending| == |ready.pending|
  {
    DispatchShape(ready, input, setup.config);
    PacketsOk(queued, ready, s.seen, s.session.eventAck, input.snap.revision, input, setup.config, packets);
    TickWires(setup, s, input, queued, ready, t, Wires(packets, TagOf(queued, ready), |queued|));
    SendingKeepsStream(queued, ready, t.stream, s.seen, s.session.eventAck, input.snap.revision);
  }

  lemma RemovedServer(setup: Setup, s: System, input: TickInput, t: System)
    requires ServerOk(setup, s) && s.revision <= input.snap.revision
    requires t == s.(session := AnnounceEpoch(s.session, setup.epoch), revision := input.snap.revision,
                     frameSequence := input.frameSequence, live := false)
    ensures ServerOk(setup, t)
  {
    assert t.session.epoch == setup.epoch && t.session.eventAck == s.session.eventAck;
    assert StreamOk(t.queued, t.stream, t.seen, t.session.eventAck, t.revision);
  }

  /** A tick only adds pages behind those queued, and moves on from a page only when it is acknowledged. */
  ghost predicate Onward(s: System, t: System) {
    && s.queued <= t.queued
    && Working(s.queued, s.stream) <= Working(t.queued, t.stream)
    && (Working(t.queued, t.stream) == Working(s.queued, s.stream) || Working(s.queued, s.stream) < s.session.eventAck)
    && t.client == s.client && t.applied == s.applied && t.shown == s.shown && t.acks == s.acks
    && t.session.eventAck == s.session.eventAck && NewestTag(t) == NewestTag(s)
  }

  lemma DispatchServer(setup: Setup, s: System, input: TickInput, queued: seq<EventPage>, ready: Stream)
    requires ServerOk(setup, s) && Enabled(setup, s, TickAt(input)) && Refilled(setup, s, input, queued, ready)
    ensures var t := AfterDispatch(setup, s, input, queued, ready); ServerOk(setup, t) && Onward(s, t)
  {
    var t := AfterDispatch(setup, s, input, queued, ready);
    var result := Dispatch(ready, input, setup.config);
    if result.Sent? {
      SentServer(setup, s, input, queued, ready, t, result.packets);
    } else {
      RemovedServer(setup, s, input, t);
    }
  }

  /** Whatever the client does with what it receives, a tick keeps the publisher's side. */
  lemma TickServer(setup: Setup, s: System, input: TickInput)
    requires ServerOk(setup, s) && Enabled(setup, s, TickAt(input))
    ensures var t := AfterTick(setup, s, input); ServerOk(setup, t) && Onward(s, t)
  {
    TickRefills(setup, s, input);
    DispatchServer(setup, s, input, ReadyQueue(s, input), ReadyStream(s, input));
  }

  lemma OnwardClient(setup: Setup, s: System, t: System)
    requires ServerOk(setup, s) && ClientOk(setup, s) && ServerOk(setup, t) && Onward(s, t)
    ensures ClientOk(setup, t)
  {
    assert s.queued[..|s.applied|] == t.queued[..|s.applied|];
  }

  lemma TickKeeps(setup: Setup, s: System, input: TickInput)
    requires Inv(setup, s) && Enabled(setup, s, TickAt(input))
    ensures Inv(setup, AfterTick(setup, s, input))
  {
    TickServer(setup, s, input);
    OnwardClient(setup, s, AfterTick(setup, s, input));
  }

  // ----- deliveries ------------------------------------------------------------------

  /** Every network allowed here delivers without going back to an older revision. */
  lemma NetworksRespectRevisions(setup: Setup, s: System, index: nat)
    requires Inv(setup, s) && Enabled(setup, s, Deliver(index))
    ensures NewestTag(s) <= s.sent[index].tag
  {
  }

  lemma NewestAfter(setup: Setup, s: System, index: nat)
    requires Inv(setup, s) && index < |s.sent| && NewestTag(s) <= s.sent[index].tag
    ensures var t := AfterDeliver(setup, s, index);
            NewestTag(s) <= s.sent[index].tag <= NewestTag(t) && 0 <= t.newest < |t.sent|
  {
  }

  /**
   A page that arrives is the next one, or it is one already applied and is recognised as such.
   */
  lemma PageArrives(setup: Setup, s: System, index: nat, page: EventPage)
    requires Inv(setup, s) && index < |s.sent| && NewestTag(s) <= s.sent[index].tag
    requires s.sent[index].packet == PagePacket(page)
    ensures var k := |s.applied|;
            var (client, output) := Client.Receive(s.client, setup.epoch, s.sent[index].packet);
            && 1 <= page.sequence <= k + 1
            && (output == Client.ApplyBatch(page) <==> page.sequence == k + 1)
            && (page.sequence == k + 1 ==> k < |s.queued| && page == s.queued[k] && client.applied == k + 1)
            && (page.sequence <= k ==> output == Client.Silent && client.applied == s.client.applied)
            && client.epoch == setup.epoch
            && client.baselineRevision == Some(if page.sequence == k + 1 then page.revision else s.client.baselineRevision.value)
            && (page.sequence <= k ==> s.client.baselineRevision.Some? && Steady(setup, s))
  {
    var k := |s.applied|;
    assert WireOk(s.queued, Working(s.queued, s.stream), TagOf(s.queued, s.stream), s.sent[index]);
    assert page == s.queued[page.sequence - 1];
    if k > 0 && page.sequence <= k {
      assert page.revision <= s.queued[k - 1].revision;
      assert Steady(setup, s);
    }
    if 0 < k < |s.queued| && page.sequence == k + 1 && !page.baseline {
      assert s.queued[k - 1].revision == s.queued[k].revision;
    }
  }

  /** What receiving a packet leaves alone, and how the lists of what happened grow. */
  lemma DeliverShape(setup: Setup, s: System, index: nat)
    requires index < |s.sent|
    ensures var t := AfterDeliver(setup, s, index);
            var packet := s.sent[index].packet;
            && t == s.(newest := Max(s.newest, index), acks := t.acks, client := t.client, applied := t.applied, shown := t.shown)
            && t.acks == s.acks + (if packet.PagePacket? then {packet.page.sequence} else {})
            && (!packet.PagePacket? ==> t.applied == s.applied)
            && t.client == Client.Receive(s.client, setup.epoch, packet).0
  {
  }

  /** What a page can change at the client. */
  lemma PageShape(setup: Setup, s: System, index: nat, page: EventPage)
    requires index < |s.sent| && s.sent[index].packet == PagePacket(page)
    ensures var t := AfterDeliver(setup, s, index);
            var output := Client.Receive(s.client, setup.epoch, s.sent[index].packet).1;
            && t.shown == s.shown && t.client.stats.framesReceived == s.client.stats.framesReceived
            && (t.client.pendingFrame == s.client.pendingFrame || t.client.pendingFrame.None?)
            && t.applied == s.applied + (if output == Client.ApplyBatch(page) then [page] else [])
            && t.client.stats.batchesReceived + |s.applied| == s.client.stats.batchesReceived + |t.applied|
  {
  }

  /** A page applied: the next one of the history. */
  lemma NextPageKeeps(setup: Setup, s: System, t: System)
    requires Inv(setup, s) && t.queued == s.queued && t.stream == s.stream && t.session == s.session && t.shown == s.shown
    requires var k := |s.applied|;
             && k < |s.queued| && k < Working(s.queued, s.stream) + 1 && t.applied == s.applied + [s.queued[k]]
             && t.client.applied == k + 1 && t.client.epoch == setup.epoch
             && t.client.baselineRevision == Some(s.queued[k].revision) && s.queued[k].revision <= NewestTag(t)
    requires t.client.pendingFrame == s.client.pendingFrame || t.client.pendingFrame.None?
    requires t.client.stats.framesReceived == |t.shown| && t.client.stats.batchesReceived == |t.applied|
    ensures ClientOk(setup, t)
  {
    var k := |s.applied|;
    assert s.queued[..k + 1] == s.queued[..k] + [s.queued[k]];
    assert Steady(setup, t);
  }

  /** A page already applied, recognised as such. */
  lemma OldPageKeeps(setup: Setup, s: System, t: System)
    requires Inv(setup, s) && t.queued == s.queued && t.stream == s.stream && t.session == s.session && t.shown == s.shown
    requires Steady(setup, s) && s.applied != [] && t.applied == s.applied
    requires t.client.applied == s.client.applied && t.client.epoch == setup.epoch
    requires t.client.baselineRevision == s.client.baselineRevision && NewestTag(s) <= NewestTag(t)
    requires t.client.pendingFrame == s.client.pendingFrame || t.client.pendingFrame.None?
    requires t.client.stats.framesReceived == |t.shown| && t.client.stats.batchesReceived == |t.applied|
    ensures ClientOk(setup, t)
  {
    assert Steady(setup, t);
  }

  lemma PageKeeps(setup: Setup, s: System, index: nat, page: EventPage)
    requires Inv(setup, s) && index < |s.sent| && NewestTag(s) <= s.sent[index].tag
    requires s.sent[index].packet == PagePacket(page)
    ensures ClientOk(setup, AfterDeliver(setup, s, index))
    ensures AfterDeliver(setup, s, index).applied == if page.sequence == |s.applied| + 1 then s.applied + [page] else s.applied
  {
    var t := AfterDeliver(setup, s, index);
    PageArrives(setup, s, index, page);
    NewestAfter(setup, s, index);
    DeliverShape(setup, s, index);
    PageShape(setup, s, index, page);
    assert WireOk(s.queued, Working(s.queued, s.stream), TagOf(s.queued, s.stream), s.sent[index]);
    if page.sequence == |s.applied| + 1 {
      NextPageKeeps(setup, s, t);
    } else {
      OldPageKeeps(setup, s, t);
    }
  }

  /** A reset is known already, or starts the client afresh. */
  lemma ResetShape(setup: Setup, s: System, index: nat, sequence: nat, revision: nat, cursor: Option<real>)
    requires index < |s.sent| && s.sent[index].packet == ResetPacket(sequence, revision, cursor)
    ensures var t := AfterDeliver(setup, s, index);
            && t.shown == s.shown
            && t.client == if s.client.epoch == setup.epoch && s.client.baselineRevision == Some(revision) then s.client
                           else Client.State(setup.epoch, 0, Some(revision), None, 0, s.client.stats)
  {
  }

  lemma SameClientKeeps(setup: Setup, s: System, t: System)
    requires Inv(setup, s) && t.client == s.client && t.applied == s.applied && t.shown == s.shown
    requires t.queued == s.queued && t.stream == s.stream && t.session == s.session && NewestTag(s) <= NewestTag(t)
    ensures ClientOk(setup, t)
  {
    assert Steady(setup, s) ==> Steady(setup, t);
    assert Awaiting(setup, s) ==> Awaiting(setup, t);
  }

  /** The reset of a page already applied announces a revision the client knows. */
  lemma OldResetKnown(setup: Setup, s: System, sequence: nat, revision: nat)
    requires Inv(setup, s) && 1 <= sequence <= |s.queued| && s.applied != []
    requires revision == s.queued[sequence - 1].revision && NewestTag(s) <= revision
    ensures sequence <= |s.applied| ==> s.client.epoch == setup.epoch && s.client.baselineRevision == Some(revision)
  {
    if sequence <= |s.applied| {
      assert revision <= s.queued[|s.applied| - 1].revision;
      assert Steady(setup, s);
    }
  }

  lemma ResetKeeps(setup: Setup, s: System, index: nat, sequence: nat, revision: nat, cursor: Option<real>)
    requires Inv(setup, s) && index < |s.sent| && NewestTag(s) <= s.sent[index].tag
    requires s.sent[index].packet == ResetPacket(sequence, revision, cursor)
    ensures ClientOk(setup, AfterDeliver(setup, s, index))
  {
    var t := AfterDeliver(setup, s, index);
    var k := |s.applied|;
    NewestAfter(setup, s, index);
    DeliverShape(setup, s, index);
    ResetShape(setup, s, index, sequence, revision, cursor);
    assert WireOk(s.queued, Working(s.queued, s.stream), TagOf(s.queued, s.stream), s.sent[index]);
    if t.client == s.client {
      SameClientKeeps(setup, s, t);
    } else if k > 0 {
      OldResetKnown(setup, s, sequence, revision);
      assert s.queued[k - 1].revision <= s.queued[k].revision;
      assert Awaiting(setup, t);
    }
  }

  /** What a frame can change at the client. */
  lemma FrameShape(setup: Setup, s: System, index: nat, frame: Frame)
    requires index < |s.sent| && s.sent[index].packet == FramePacket(frame)
    ensures var t := AfterDeliver(setup, s, index);
            && t.applied == s.applied && t.acks == s.acks
            && t.client.applied == s.client.applied && t.client.epoch == s.client.epoch
            && t.client.baselineRevision == s.client.baselineRevision
            && (t.client.pendingFrame == s.client.pendingFrame || t.client.pendingFrame == Some(frame))
            && t.client.stats.batchesReceived == s.client.stats.batchesReceived
            && (t.shown == s.shown || (t.shown == s.shown + [Shown(frame, |s.applied|)] && frame.watermark <= s.client.applied))
            && t.client.stats.framesReceived + |s.shown| == s.client.stats.framesReceived + |t.shown|
  {
  }

  lemma FrameKeeps(setup: Setup, s: System, index: nat, frame: Frame)
    requires Inv(setup, s) && index < |s.sent| && NewestTag(s) <= s.sent[index].tag
    requires s.sent[index].packet == FramePacket(frame)
    ensures ClientOk(setup, AfterDeliver(setup, s, index))
  {
    var t := AfterDeliver(setup, s, index);
    NewestAfter(setup, s, index);
    FrameShape(setup, s, index, frame);
    assert WireOk(s.queued, Working(s.queued, s.stream), TagOf(s.queued, s.stream), s.sent[index]);
    assert Steady(setup, s) ==> Steady(setup, t);
    assert Awaiting(setup, s) ==> Awaiting(setup, t);
  }

  /** A step of the client leaves the publisher's side and the wires as they were. */
  lemma ClientStepServer(setup: Setup, s: System, t: System)
    requires ServerOk(setup, s)
    requires t == s.(newest := t.newest, acks := t.acks, client := t.client, applied := t.applied, shown := t.shown)
    requires -1 <= t.newest < |t.sent|
    requires forall n :: n in t.acks ==>
               n in s.acks || (s.sent != [] && 1 <= n <= Min(Working(s.queued, s.stream) + 1, |s.queued|))
    ensures ServerOk(setup, t)
  {
    if t.acks != {} {
      SomeMember(t.acks);
    }
  }

  /** Whatever is delivered, and however late, the publisher's side stays as it should be. */
  lemma DeliverServer(setup: Setup, s: System, index: nat)
    requires ServerOk(setup, s) && index < |s.sent|
    ensures ServerOk(setup, AfterDeliver(setup, s, index))
  {
    assert WireOk(s.queued, Working(s.queued, s.stream), TagOf(s.queued, s.stream), s.sent[index]);
    DeliverShape(setup, s, index);
    ClientStepServer(setup, s, AfterDeliver(setup, s, index));
  }

  lemma DeliverFramed(setup: Setup, s: System, index: nat)
    requires Inv(setup, s) && index < |s.sent| && NewestTag(s) <= s.sent[index].tag
    requires ClientOk(setup, AfterDeliver(setup, s, index))
    requires |s.applied| <= |AfterDeliver(setup, s, index).applied|
    requires var ack := Client.AckFor(s.sent[index].packet);
             ack.Some? ==> 1 <= ack.value <= |AfterDeliver(setup, s, index).applied|
    ensures Inv(setup, AfterDeliver(setup, s, index))
  {
    DeliverShape(setup, s, index);
    DeliverServer(setup, s, index);
  }

  lemma PageDelivered(setup: Setup, s: System, index: nat, page: EventPage)
    requires Inv(setup, s) && index < |s.sent| && NewestTag(s) <= s.sent[index].tag
    requires s.sent[index].packet == PagePacket(page)
    ensures Inv(setup, AfterDeliver(setup, s, index))
  {
    PageArrives(setup, s, index, page);
    PageKeeps(setup, s, index, page);
    DeliverFramed(setup, s, index);
  }

  lemma DeliverKeeps(setup: Setup, s: System, index: nat)
    requires Inv(setup, s) && index < |s.sent| && NewestTag(s) <= s.sent[index].tag
    ensures Inv(setup, AfterDeliver(setup, s, index))
  {
    var packet := s.sent[index].packet;
    if packet.PagePacket? {
      PageDelivered(setup, s, index, packet.page);
    } else {
      if packet.ResetPacket? {
        ResetKeeps(setup, s, index, packet.sequence, packet.revision, packet.cursor);
      } else {
        FrameKeeps(setup, s, index, packet.frame);
      }
      DeliverShape(setup, s, index);
      DeliverFramed(setup, s, index);
    }
  }

  lemma ReleaseClientOk(setup: Setup, s: System)
    requires Inv(setup, s)
    ensures ClientOk(setup, Note(s, Client.Release(s.client)))
  {
    var t := Note(s, Client.Release(s.client));
    if s.client.pendingFrame.Some? && s.client.pendingFrame.value.watermark <= s.client.applied {
      assert !Awaiting(setup, s);
      assert s.client.applied == |s.applied|;
      assert t.client.applied == s.client.applied && t.client.baselineRevision == s.client.baselineRevision;
      assert Steady(setup, t);
    } else {
      assert t == s;
    }
  }

  lemma ReleaseServer(setup: Setup, s: System)
    requires ServerOk(setup, s)
    ensures ServerOk(setup, Note(s, Client.Release(s.client)))
  {
    ClientStepServer(setup, s, Note(s, Client.Release(s.client)));
  }

  lemma ReleaseKeeps(setup: Setup, s: System)
    requires Inv(setup, s)
    ensures Inv(setup, Note(s, Client.Release(s.client)))
  {
    var t := Note(s, Client.Release(s.client));
    ReleaseClientOk(setup, s);
    ReleaseServer(setup, s);
  }

  lemma AckServer(setup: Setup, s: System, sequence: nat)
    requires ServerOk(setup, s) && sequence in s.acks
    ensures ServerOk(setup, s.(session := Acknowledge(s.session, Some(setup.epoch), sequence)))
  {
  }

  /** An acknowledgement of an earlier epoch neither advances the session nor retires a page of the present one. */
  lemma StrayAckIgnored(setup: Setup, s: System, epoch: Option<Bytes>, number: nat)
    requires ServerOk(setup, s) && Enabled(setup, s, StrayAck(epoch, number))
    ensures Next(setup, s, StrayAck(epoch, number)) == s
  {
  }

  lemma AckKeeps(setup: Setup, s: System, sequence: nat)
    requires Inv(setup, s) && sequence in s.acks
    ensures Inv(setup, s.(session := Acknowledge(s.session, Some(setup.epoch), sequence)))
  {
    AckServer(setup, s, sequence);
    assert 1 <= sequence <= |s.applied|;
  }

  lemma ListServer(setup: Setup, s: System)
    requires ServerOk(setup, s)
    ensures ServerOk(setup, s.(seen := s.session.eventAck))
  {
    assert StreamOk(s.queued, s.stream, s.session.eventAck, s.session.eventAck, s.revision);
  }

  lemma ListKeeps(setup: Setup, s: System)
    requires Inv(setup, s)
    ensures Inv(setup, s.(seen := s.session.eventAck))
  {
    ListServer(setup, s);
  }

  // ----- runs -------------------------------------------------------------------------

  lemma NextKeeps(setup: Setup, s: System, move: Move)
    requires Inv(setup, s) && Enabled(setup, s, move)
    ensures Inv(setup, Next(setup, s, move))
  {
    match move
    case TickAt(input) => TickKeeps(setup, s, input);
    case Deliver(index) =>
      NetworksRespectRevisions(setup, s, index);
      DeliverKeeps(setup, s, index);
    case ReleaseFrame => ReleaseKeeps(setup, s);
    case DeliverAck(sequence) => AckKeeps(setup, s, sequence);
    case StrayAck(epoch, number) => StrayAckIgnored(setup, s, epoch, number);
    case ListSessions => ListKeeps(setup, s);
  }

  lemma {:induction false} RunInvariant(setup: Setup, states: seq<System>, moves: seq<Move>, i: nat)
    requires Run(setup, states, moves) && i < |states|
    ensures Inv(setup, states[i])
  {
    if i > 0 {
      RunInvariant(setup, states, moves, i - 1);
      NextKeeps(setup, states[i - 1], moves[i - 1]);
    }
  }

  /**
   Safety over whole runs: at every moment the batches handed to the consumer are a
   prefix of the pages the publisher queued, each once and in order, at most one page
   ahead of the acknowledgement the server holds.
   */
  lemma DeliveredIsPrefix(setup: Setup, states: seq<System>, moves: seq<Move>, i: nat)
    requires Run(setup, states, moves) && i < |states|
    ensures states[i].applied <= states[i].queued
    ensures forall k :: 0 <= k < |states[i].applied| ==> states[i].applied[k].sequence == k + 1
    ensures |states[i].applied| - 1 <= states[i].session.eventAck <= |states[i].applied|
    ensures states[i].client.stats.batchesReceived == |states[i].applied|
  {
    RunInvariant(setup, states, moves, i);
    var s := states[i];
    assert forall k :: 0 <= k < |s.applied| ==> s.applied[k] == s.queued[k];
  }

  /**
   A frame is shown only after every page its watermark counts has been applied, and
   the watermark of a frame on the wire counts every page queued when it was sent.
   */
  lemma FramesFollowTheirEvents(setup: Setup, states: seq<System>, moves: seq<Move>, i: nat)
    requires Run(setup, states, moves) && i < |states|
    ensures forall j :: 0 <= j < |states[i].shown| ==>
              1 <= states[i].shown[j].frame.watermark <= states[i].shown[j].appliedBefore <= |states[i].applied|
    ensures forall j :: 0 <= j < |states[i].sent| && states[i].sent[j].packet.FramePacket? ==>
              states[i].sent[j].packet.frame.watermark == states[i].sent[j].queuedThen <= |states[i].queued|
  {
    RunInvariant(setup, states, moves, i);
    var s := states[i];
    forall j | 0 <= j < |s.sent| && s.sent[j].packet.FramePacket?
      ensures s.sent[j].packet.frame.watermark == s.sent[j].queuedThen <= |s.queued|
    {
      assert WireOk(s.queued, Working(s.queued, s.stream), TagOf(s.queued, s.stream), s.sent[j]);
    }
  }

  // ----- progress ---------------------------------------------------------------------

  /** A tick that finds its front page due puts that page on the wire behind everything received so far. */
  lemma TickSendsFront(setup: Setup, s: System, input: TickInput) returns (index: nat)
    requires Inv(setup, s) && Enabled(setup, s, TickAt(input))
    requires FrontDue(ReadyStream(s, input), setup.config, input.now) && !GivesUp(ReadyStream(s, input), setup.config, input.now)
    ensures var t := AfterTick(setup, s, input);
            && index < |t.sent| && t.sent[index].packet == PagePacket(t.stream.pending[0].page)
            && t.newest < index && t.live && t.stream.pending != []
            && t.stream.pending[0].page == ReadyStream(s, input).pending[0].page
  {
    var ready := ReadyStream(s, input);
    DispatchShape(ready, input, setup.config);
    var front := FrontPackets(ready.pending[0]);
    index := |s.sent| + |front| - 1;
    assert front[|front| - 1] == PagePacket(ready.pending[0].page);
    var t := AfterTick(setup, s, input);
    var packets := Dispatch(ready, input, setup.config).packets;
    assert packets[|front| - 1] == front[|front| - 1];
    assert t.sent[index] == Wires(packets, TagOf(ReadyQueue(s, input), ready), |ReadyQueue(s, input)|)[|front| - 1];
  }

  lemma FrontPageArrives(setup: Setup, s: System, index: nat)
    requires Inv(setup, s) && s.live && s.stream.pending != []
    requires index < |s.sent| && s.sent[index].packet == PagePacket(s.stream.pending[0].page) && s.newest <= index
    ensures Enabled(setup, s, Deliver(index))
    ensures var delivered := Next(setup, s, Deliver(index));
            var sequence := s.stream.pending[0].page.sequence;
            && sequence == Working(s.queued, s.stream) + 1
            && delivered.live && sequence in delivered.acks
            && delivered.stream == s.stream && delivered.session == s.session
            && s.session.epoch == setup.epoch && s.session.eventAck <= sequence
            && |delivered.applied| == sequence && delivered.applied[sequence - 1] == s.stream.pending[0].page
  {
    var page := s.stream.pending[0].page;
    var working := Working(s.queued, s.stream);
    assert page == s.queued[working];
    assert WireOk(s.queued, working, TagOf(s.queued, s.stream), s.sent[index]);
    if 0 <= s.newest {
      assert s.sent[s.newest].tag <= s.sent[index].tag;
    }
    PageArrives(setup, s, index, page);
    PageKeeps(setup, s, index, page);
    var delivered := Next(setup, s, Deliver(index));
    assert page.sequence - 1 <= |s.applied| <= page.sequence;
    assert delivered.applied == s.queued[..page.sequence];
  }

  /**
   The acknowledgement being waited for is always accepted: once the front page reaches
   the client, in whichever network, its acknowledgement advances the session and the
   next listing retires the page, already applied by the consumer.
   */
  lemma FrontPageCompletes(setup: Setup, s: System, index: nat)
    requires Inv(setup, s) && s.live && s.stream.pending != []
    requires index < |s.sent| && s.sent[index].packet == PagePacket(s.stream.pending[0].page) && s.newest <= index
    ensures Enabled(setup, s, Deliver(index))
    ensures var delivered := Next(setup, s, Deliver(index));
            var sequence := s.stream.pending[0].page.sequence;
            && |delivered.applied| == sequence && delivered.applied[sequence - 1] == s.stream.pending[0].page
            && Enabled(setup, delivered, DeliverAck(sequence))
            && var acked := Next(setup, delivered, DeliverAck(sequence));
               && acked.session.eventAck == sequence
               && Enabled(setup, acked, ListSessions)
               && var listed := Next(setup, acked, ListSessions);
                  Retire(listed.stream, listed.seen).pending == s.stream.pending[1..]
  {
    FrontPageArrives(setup, s, index);
  }

  /** Where the moves lead from `s`, if each is enabled in its turn. */
  function Play(setup: Setup, s: System, moves: seq<Move>): Option<System>
    decreases |moves|
  {
    if moves == [] then Some(s)
    else if Enabled(setup, s, moves[0]) then Play(setup, Next(setup, s, moves[0]), moves[1..])
    else None
  }

  lemma {:induction false} PlayConcat(setup: Setup, s: System, a: seq<Move>, b: seq<Move>)
    requires Play(setup, s, a).Some?
    ensures Play(setup, s, a + b) == Play(setup, Play(setup, s, a).value, b)
    decreases |a|
  {
    if a == [] {
      assert a + b == b;
    } else {
      assert (a + b)[0] == a[0] && (a + b)[1..] == a[1..] + b;
      PlayConcat(setup, Next(setup, s, a[0]), a[1..], b);
    }
  }

  lemma {:induction false} PlayKeeps(setup: Setup, s: System, moves: seq<Move>)
    requires Inv(setup, s) && Play(setup, s, moves).Some?
    ensures Inv(setup, Play(setup, s, moves).value)
    decreases |moves|
  {
    if moves != [] {
      NextKeeps(setup, s, moves[0]);
      PlayKeeps(setup, Next(setup, s, moves[0]), moves[1..]);
    }
  }

  /** Without ticks the publisher's side stays as it is. */
  lemma {:induction false} PlayLeavesQueue(setup: Setup, s: System, moves: seq<Move>)
    requires Play(setup, s, moves).Some? && forall i :: 0 <= i < |moves| ==> !moves[i].TickAt?
    ensures var t := Play(setup, s, moves).value;
            t.stream == s.stream && t.queued == s.queued && t.revision == s.revision && t.live == s.live
            && t.frameSequence == s.frameSequence
    decreases |moves|
  {
    if moves != [] {
      MoveLeavesQueue(setup, s, moves[0]);
      forall i | 0 <= i < |moves[1..]|
        ensures !moves[1..][i].TickAt?
      {
        assert moves[1..][i] == moves[i + 1];
      }
      PlayLeavesQueue(setup, Next(setup, s, moves[0]), moves[1..]);
    }
  }

  lemma MoveLeavesQueue(setup: Setup, s: System, move: Move)
    requires Enabled(setup, s, move) && !move.TickAt?
    ensures var t := Next(setup, s, move);
            t.stream == s.stream && t.queued == s.queued && t.revision == s.revision && t.live == s.live
            && t.frameSequence == s.frameSequence
  {
  }

  /** The retry limit is not reached for any page still to be acknowledged. */
  predicate Patient(config: StreamConfig, stream: Stream) {
    forall i :: 0 <= i < |stream.pending| ==> stream.pending[i].attempts < config.retryLimit
  }

  /** The input of a tick at which the front page is due. */
  function DueInput(setup: Setup, s: System, data: Data, snap: Snapshot): TickInput
    requires Retire(s.stream, s.seen).pending != []
  {
    var front := Retire(s.stream, s.seen).pending[0];
    TickInput(s.seen, data, snap, s.frameSequence + 1, 0.0, front.lastSent + setup.config.retryInterval)
  }

  /** Snapshots that the publisher may take next. */
  predicate SnapshotAllowed(setup: Setup, s: System, snap: Snapshot) {
    s.revision <= snap.revision && (setup.network.OneRevision? ==> snap.revision == setup.network.fixed)
  }

  lemma DueTick(setup: Setup, s: System, data: Data, snap: Snapshot) returns (index: nat)
    requires Inv(setup, s) && s.live && SnapshotAllowed(setup, s, snap)
    requires Retire(s.stream, s.seen).pending != [] && Patient(setup.config, Retire(s.stream, s.seen))
    ensures var input := DueInput(setup, s, data, snap);
            && Enabled(setup, s, TickAt(input))
            && var t := AfterTick(setup, s, input);
               && Inv(setup, t) && t.live && t.queued == s.queued && t.revision == snap.revision
               && t.stream.pending != [] && t.stream.pending[1..] == Retire(s.stream, s.seen).pending[1..]
               && index < |t.sent| && t.sent[index].packet == PagePacket(t.stream.pending[0].page) && t.newest <= index
  {
    var input := DueInput(setup, s, data, snap);
    index := TickSendsFront(setup, s, input);
    TickKeeps(setup, s, input);
    DispatchShape(ReadyStream(s, input), input, setup.config);
  }

  /** One round: the front page arrives, is acknowledged, and the acknowledgement is listed. */
  function Round(t: System, index: nat): seq<Move>
    requires t.stream.pending != []
  {
    [Deliver(index), DeliverAck(t.stream.pending[0].page.sequence), ListSessions]
  }

  lemma PlayThree(setup: Setup, s: System, a: Move, b: Move, c: Move)
    requires Enabled(setup, s, a) && Enabled(setup, Next(setup, s, a), b)
    requires Enabled(setup, Next(setup, Next(setup, s, a), b), c)
    ensures Play(setup, s, [a, b, c]) == Some(Next(setup, Next(setup, Next(setup, s, a), b), c))
  {
    var s1 := Next(setup, s, a);
    var s2 := Next(setup, s1, b);
    assert [a, b, c][1..] == [b, c] && [b, c][1..] == [c] && [c][1..] == [];
    assert Play(setup, s2, [c]) == Play(setup, Next(setup, s2, c), []);
    assert Play(setup, s1, [b, c]) == Play(setup, s2, [c]);
  }

  lemma RoundServes(setup: Setup, t: System, index: nat)
    requires Inv(setup, t) && t.live && t.stream.pending != []
    requires index < |t.sent| && t.sent[index].packet == PagePacket(t.stream.pending[0].page) && t.newest <= index
    ensures Play(setup, t, Round(t, index)).Some?
    ensures var done := Play(setup, t, Round(t, index)).value;
            Retire(done.stream, done.seen).pending == t.stream.pending[1..]
  {
    FrontPageCompletes(setup, t, index);
    PlayThree(setup, t, Deliver(index), DeliverAck(t.stream.pending[0].page.sequence), ListSessions);
  }

  /** With everything acknowledged and listed, everything queued has been applied. */
  lemma AllApplied(setup: Setup, s: System)
    requires Inv(setup, s) && Retire(s.stream, s.seen).pending == []
    ensures s.applied == s.queued
  {
    RetireOk(s.queued, s.stream, s.seen, s.session.eventAck, s.revision);
  }

  /** A round keeps the invariant and the queue, and retires one page. */
  lemma RoundDone(setup: Setup, t: System, index: nat) returns (done: System)
    requires Inv(setup, t) && t.live && t.stream.pending != []
    requires index < |t.sent| && t.sent[index].packet == PagePacket(t.stream.pending[0].page) && t.newest <= index
    ensures Play(setup, t, Round(t, index)) == Some(done)
    ensures Inv(setup, done) && done.live && done.queued == t.queued && done.revision == t.revision
    ensures done.frameSequence == t.frameSequence
    ensures Retire(done.stream, done.seen).pending == t.stream.pending[1..]
  {
    RoundServes(setup, t, index);
    PlayKeeps(setup, t, Round(t, index));
    PlayLeavesQueue(setup, t, Round(t, index));
    done := Play(setup, t, Round(t, index)).value;
  }

  lemma PlayOne(setup: Setup, s: System, move: Move, moves: seq<Move>)
    requires Enabled(setup, s, move)
    ensures Play(setup, s, [move] + moves) == Play(setup, Next(setup, s, move), moves)
  {
    assert ([move] + moves)[1..] == moves;
  }

  /** One page: a tick puts the front page on the wire, and a round serves it. */
  lemma PageServed(setup: Setup, s: System, data: Data, snap: Snapshot) returns (moves: seq<Move>, done: System)
    requires Inv(setup, s) && s.live && SnapshotAllowed(setup, s, snap)
    requires Retire(s.stream, s.seen).pending != [] && Patient(setup.config, Retire(s.stream, s.seen))
    ensures Play(setup, s, moves) == Some(done)
    ensures Inv(setup, done) && done.live && done.queued == s.queued && done.revision == snap.revision
    ensures Retire(done.stream, done.seen).pending == Retire(s.stream, s.seen).pending[1..]
  {
    var input := DueInput(setup, s, data, snap);
    var index := DueTick(setup, s, data, snap);
    var t := AfterTick(setup, s, input);
    done := RoundDone(setup, t, index);
    PlayOne(setup, s, TickAt(input), Round(t, index));
    moves := [TickAt(input)] + Round(t, index);
  }

  lemma PatienceLasts(config: StreamConfig, a: Stream, b: Stream)
    requires Patient(config, a) && a.pending != [] && b.pending == a.pending[1..]
    ensures Patient(config, b)
  {
    assert forall i :: 0 <= i < |b.pending| ==> b.pending[i] == a.pending[i + 1];
  }

  /**
   The queue drains: from every state of a run with a live subscriber, while the retry limit allows, some
   moves of the publisher, the network and the server bring the consumer every page queued.
   */
  lemma {:induction false} QueueDrains(setup: Setup, s: System, data: Data, snap: Snapshot) returns (moves: seq<Move>)
    requires Inv(setup, s) && s.live && SnapshotAllowed(setup, s, snap)
    requires Patient(setup.config, Retire(s.stream, s.seen))
    ensures Play(setup, s, moves).Some?
    ensures var t := Play(setup, s, moves).value; t.live && t.applied == t.queued == s.queued
    decreases |Retire(s.stream, s.seen).pending|
  {
    if Retire(s.stream, s.seen).pending == [] {
      AllApplied(setup, s);
      moves := [];
    } else {
      var first, done := PageServed(setup, s, data, snap);
      PatienceLasts(setup.config, Retire(s.stream, s.seen), Retire(done.stream, done.seen));
      var later := QueueDrains(setup, done, data, snap);
      PlayConcat(setup, s, first, later);
      moves := first + later;
    }
  }
}
