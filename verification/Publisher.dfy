/**
 The publishing half of the cursor stream, for one subscriber: which events a tick
 queues, how they are cut into pages, and what is sent.
 */
module Publisher {
  import opened Common
  import opened Sorting
  import opened Store
  import opened Timeline
  import opened Playback

  const PAGE_EVENTS := 32

  // ----- which events a tick queues --------------------------------------------

  /** `resolve_aircraft_with`: the aircraft has a sample at the snapshot and is spawned there. */
  predicate Visible(data: Data, snap: Snapshot, id: AircraftId) {
    var series := SeriesOf(data, id);
    if snap.mode.Live? then series.states != [] && SpawnedAt(series.events, PosInf)
    else
      && snap.cursor.Some?
      && AtOrBefore(series.states, Num(snap.cursor.value)).Some?
      && SpawnedAt(series.events, Num(snap.cursor.value))
  }

  /** The suffix from the last spawn on, or everything when there is none. */
  function FromLastSpawn(s: seq<Sample<Event>>): seq<Sample<Event>> {
    if LastSpawnIndex(s).Some? then s[LastSpawnIndex(s).value..] else s
  }

  function LastSpawnIndex(s: seq<Sample<Event>>): (r: Option<nat>)
    ensures r.Some? ==> r.value < |s| && s[r.value].value.Spawn? && forall i :: r.value < i < |s| ==> !s[i].value.Spawn?
    ensures r.None? ==> forall i :: 0 <= i < |s| ==> !s[i].value.Spawn?
  {
    if s == [] then None
    else if s[|s| - 1].value.Spawn? then Some(|s| - 1)
    else LastSpawnIndex(s[..|s| - 1])
  }

  function BaselineOf(data: Data, snap: Snapshot, cursor: real): AircraftId -> seq<GlobalEvent> {
    (x: AircraftId) =>
      if x in data && Visible(data, snap, x) then Tag(x, FromLastSpawn(Range(data[x].events, NegInf, Num(cursor)))) else []
  }

  function BaselineEvents(data: Data, snap: Snapshot): seq<GlobalEvent> {
    match snap.cursor
    case None => []
    case Some(cursor) => Merge(SortedIds(data.Keys), BaselineOf(data, snap, cursor))
  }

  function LaterThan(t: real): GlobalEvent -> bool {
    (e: GlobalEvent) => e.t > t
  }

  function DeltaEvents(data: Data, previous: Option<real>, current: Option<real>): seq<GlobalEvent> {
    if previous.None? || current.None? || current.value < previous.value then []
    else Filter(Merge(SortedIds(data.Keys), InWindow(data, previous.value, current.value)), LaterThan(previous.value))
  }

  // ----- the per-subscriber state ------------------------------------------------

  datatype EventPage = EventPage(
    sequence: nat, revision: nat, baseline: bool, complete: bool, events: seq<GlobalEvent>)

  datatype Pending = Pending(page: EventPage, cursor: Option<real>, lastSent: real, attempts: nat)

  function Pages(pending: seq<Pending>): (r: seq<EventPage>)
    ensures |r| == |pending|
    ensures forall i :: 0 <= i < |r| ==> r[i] == pending[i].page
  {
    if pending == [] then [] else [pending[0].page] + Pages(pending[1..])
  }

  datatype Stream = Stream(
    lastRevision: Option<nat>,
    lastCursor: Option<real>,
    nextSequence: nat,
    pending: seq<Pending>,
    lastFrameSent: Option<real>)

  const NEW_STREAM := Stream(None, None, 0, [], None)

  datatype Frame = Frame(sequence: nat, revision: nat, watermark: nat, cursor: Option<real>)

  /** What travels to the client once reassembled. */
  datatype Packet =
    | ResetPacket(sequence: nat, revision: nat, cursor: Option<real>)
    | PagePacket(page: EventPage)
    | FramePacket(frame: Frame)

  datatype StreamConfig = StreamConfig(retryInterval: real, retryLimit: nat)

  /** Retire the front page once the session has acknowledged it. */
  function Retire(s: Stream, ack: nat): Stream {
    if s.pending != [] && s.pending[0].page.sequence <= ack then
      var completed := s.pending[0];
      var rest := s.(pending := s.pending[1..]);
      if completed.page.complete then rest.(lastRevision := Some(completed.page.revision), lastCursor := completed.cursor)
      else rest
    else s
  }

  predicate NeedsBaseline(s: Stream, snap: Snapshot) {
    || s.lastRevision != Some(snap.revision)
    || (s.lastCursor.Some? && snap.cursor.Some? && snap.cursor.value < s.lastCursor.value)
  }

  function EventsDue(s: Stream, data: Data, snap: Snapshot): seq<GlobalEvent> {
    if NeedsBaseline(s, snap) then BaselineEvents(data, snap) else DeltaEvents(data, s.lastCursor, snap.cursor)
  }

  /** Cut the events into pages of 32 under consecutive sequence numbers; an empty baseline is one empty page. */
  function Paginate(events: seq<GlobalEvent>, sequence: nat, snap: Snapshot, baseline: bool, now: real): (pages: seq<Pending>)
    ensures |pages| > 0
    decreases |events|
  {
    var whole := |events| <= PAGE_EVENTS;
    var page := EventPage(sequence, snap.revision, baseline, whole, if whole then events else events[..PAGE_EVENTS]);
    if whole then [Pending(page, snap.cursor, now, 0)]
    else [Pending(page, snap.cursor, now, 0)] + Paginate(events[PAGE_EVENTS..], sequence + 1, snap, false, now)
  }

  /** With nothing pending, queue what is due, or record that nothing was. */
  function Enqueue(s: Stream, events: seq<GlobalEvent>, snap: Snapshot, now: real): Stream {
    var baseline := NeedsBaseline(s, snap);
    if baseline || events != [] then
      var pages := Paginate(events, s.nextSequence + 1, snap, baseline, now);
      s.(pending := pages, nextSequence := s.nextSequence + |pages|)
    else s.(lastRevision := Some(snap.revision), lastCursor := snap.cursor)
  }

  function Refill(s: Stream, data: Data, snap: Snapshot, now: real): Stream {
    if s.pending == [] then Enqueue(s, EventsDue(s, data, snap), snap, now) else s
  }

  predicate FrontDue(s: Stream, config: StreamConfig, now: real) {
    s.pending != [] && (s.pending[0].attempts == 0 || now - s.pending[0].lastSent >= config.retryInterval)
  }

  predicate GivesUp(s: Stream, config: StreamConfig, now: real) {
    FrontDue(s, config, now) && s.pending[0].attempts >= config.retryLimit
  }

  function FrontPackets(p: Pending): seq<Packet> {
    (if p.page.baseline then [ResetPacket(p.page.sequence, p.page.revision, p.cursor)] else []) + [PagePacket(p.page)]
  }

  function SendFront(s: Stream, config: StreamConfig, now: real): (Stream, seq<Packet>) {
    if FrontDue(s, config, now) then
      var front := s.pending[0];
      (s.(pending := s.pending[0 := front.(attempts := front.attempts + 1, lastSent := now)]), FrontPackets(front))
    else (s, [])
  }

  function Watermark(s: Stream, ack: nat): nat {
    if s.pending == [] then ack else s.pending[|s.pending| - 1].page.sequence
  }

  function SendFrame(s: Stream, ack: nat, frameSequence: nat, snap: Snapshot, frameInterval: real, now: real): (Stream, seq<Packet>) {
    if s.lastFrameSent.Some? && now - s.lastFrameSent.value < frameInterval then (s, [])
    else (s.(lastFrameSent := Some(now)), [FramePacket(Frame(frameSequence, snap.revision, Watermark(s, ack), snap.cursor))])
  }

  /** The inputs of one tick for one subscriber: the session copy it listed and the playback snapshot it took. */
  datatype TickInput = TickInput(
    ack: nat, data: Data, snap: Snapshot, frameSequence: nat, frameInterval: real, now: real)

  datatype TickResult = Sent(stream: Stream, packets: seq<Packet>) | Removed

  /** The sending part of a tick: the front page when it is due, then a frame when one is due. */
  function Dispatch(ready: Stream, input: TickInput, config: StreamConfig): TickResult {
    if GivesUp(ready, config, input.now) then Removed
    else
      var (afterFront, front) := SendFront(ready, config, input.now);
      var (afterFrame, frame) := SendFrame(afterFront, input.ack, input.frameSequence, input.snap, input.frameInterval, input.now);
      Sent(afterFrame, front + frame)
  }

  /** One tick: retire an acknowledged page, refill an empty queue, send. */
  function Tick(s: Stream, input: TickInput, config: StreamConfig): TickResult {
    Dispatch(Refill(Retire(s, input.ack), input.data, input.snap, input.now), input, config)
  }

  // ----- the imperative loop body -------------------------------------------------

  /** Pages of `events` counted and cut by index, as the loop of the publisher does. */
  function PageCount(events: seq<GlobalEvent>): (count: nat)
    ensures count > 0
  {
    var n := if |events| == 0 then 1 else |events|;
    (n + PAGE_EVENTS - 1) / PAGE_EVENTS
  }

  function Skip(events: seq<GlobalEvent>, n: nat): seq<GlobalEvent> {
    if n <= |events| then events[n..] else []
  }

  function Take(events: seq<GlobalEvent>, n: nat): seq<GlobalEvent> {
    if n <= |events| then events[..n] else events
  }

  class SubscriberState {
    var lastRevision: Option<nat>
    var lastCursor: Option<real>
    var nextEventSequence: nat
    var pending: seq<Pending>
    var lastFrameSent: Option<real>

    function Value(): Stream
      reads this
    {
      Stream(lastRevision, lastCursor, nextEventSequence, pending, lastFrameSent)
    }

    constructor ()
      ensures Value() == NEW_STREAM
    {
      lastRevision, lastCursor, nextEventSequence, pending, lastFrameSent := None, None, 0, [], None;
    }

    method RetireFront(ack: nat)
      modifies this
      ensures Value() == Retire(old(Value()), ack)
    {
      if pending != [] && ack >= pending[0].page.sequence {
        var completed := pending[0];
        pending := pending[1..];
        if completed.page.complete {
          lastRevision := Some(completed.page.revision);
          lastCursor := completed.cursor;
        }
      }
    }

    /** The page loop: numbering, the baseline flag of the first page, the completion flag of the last. */
    method QueuePages(events: seq<GlobalEvent>, snap: Snapshot, baseline: bool, now: real)
      requires pending == []
      modifies this
      ensures Value() == var pages := Paginate(events, old(nextEventSequence) + 1, snap, baseline, now);
                         old(Value()).(pending := pages, nextSequence := old(nextEventSequence) + |pages|)
    {
      var pageCount := PageCount(events);
      ghost var first := nextEventSequence + 1;
      ghost var all := Paginate(events, first, snap, baseline, now);
      PaginateCount(events, first, snap, baseline, now);
      for pageIndex := 0 to pageCount
        invariant lastRevision == old(lastRevision) && lastCursor == old(lastCursor) && lastFrameSent == old(lastFrameSent)
        invariant nextEventSequence == old(nextEventSequence) + pageIndex
        invariant |all| == pageCount && pending == all[..pageIndex]
      {
        nextEventSequence := nextEventSequence + 1;
        var page := EventPage(nextEventSequence, snap.revision, baseline && pageIndex == 0, pageIndex + 1 == pageCount,
                              Take(Skip(events, pageIndex * PAGE_EVENTS), PAGE_EVENTS));
        PaginateAt(events, first, snap, baseline, now, pageIndex);
        assert Pending(page, snap.cursor, now, 0) == all[pageIndex];
        assert all[..pageIndex + 1] == all[..pageIndex] + [all[pageIndex]];
        pending := pending + [Pending(page, snap.cursor, now, 0)];
      }
      assert all[..pageCount] == all;
    }

    method RefillQueue(data: Data, snap: Snapshot, now: real)
      modifies this
      ensures Value() == Refill(old(Value()), data, snap, now)
    {
      if pending == [] {
        var revisionChanged := lastRevision != Some(snap.revision);
        var cursorReversed := lastCursor.Some? && snap.cursor.Some? && snap.cursor.value < lastCursor.value;
        var baseline := lastRevision == None || revisionChanged || cursorReversed;
        var events := if baseline then BaselineEvents(data, snap) else DeltaEvents(data, lastCursor, snap.cursor);
        if baseline || events != [] {
          QueuePages(events, snap, baseline, now);
        } else {
          lastRevision := Some(snap.revision);
          lastCursor := snap.cursor;
        }
      }
    }

    /** One tick of the publisher for this subscriber. */
    method RunTick(input: TickInput, config: StreamConfig) returns (result: TickResult)
      modifies this
      ensures result == Tick(old(Value()), input, config)
      ensures result.Sent? ==> result.stream == Value()
    {
      RetireFront(input.ack);
      RefillQueue(input.data, input.snap, input.now);
      ghost var ready := Value();
      var packets: seq<Packet> := [];
      if pending != [] {
        var front := pending[0];
        if front.attempts == 0 || input.now - front.lastSent >= config.retryInterval {
          if front.attempts >= config.retryLimit {
            return Removed;
          }
          packets := FrontPackets(front);
          pending := pending[0 := front.(attempts := front.attempts + 1, lastSent := input.now)];
        }
      }
      assert Value() == SendFront(ready, config, input.now).0;
      var watermark := if pending == [] then input.ack else pending[|pending| - 1].page.sequence;
      if lastFrameSent.Some? && input.now - lastFrameSent.value < input.frameInterval {
        result := Sent(Value(), packets);
        return;
      }
      packets := packets + [FramePacket(Frame(input.frameSequence, input.snap.revision, watermark, input.snap.cursor))];
      lastFrameSent := Some(input.now);
      result := Sent(Value(), packets);
    }
  }

  lemma {:induction false} PaginateCount(events: seq<GlobalEvent>, sequence: nat, snap: Snapshot, baseline: bool, now: real)
    ensures |Paginate(events, sequence, snap, baseline, now)| == PageCount(events)
    decreases |events|
  {
    if |events| > PAGE_EVENTS {
      PaginateCount(events[PAGE_EVENTS..], sequence + 1, snap, false, now);
    }
  }

  lemma RestCount(events: seq<GlobalEvent>)
    requires |events| > PAGE_EVENTS
    ensures PageCount(events[PAGE_EVENTS..]) + 1 == PageCount(events)
  {
  }

  lemma SkipTwice(events: seq<GlobalEvent>, n: nat, m: nat)
    requires n <= |events|
    ensures Skip(events[n..], m) == Skip(events, n + m)
  {
  }

  /** Page `k` of the cut, described by its index alone. */
  function PageAt(events: seq<GlobalEvent>, sequence: nat, snap: Snapshot, baseline: bool, now: real, k: nat): Pending {
    Pending(EventPage(sequence + k, snap.revision, baseline && k == 0, k + 1 == PageCount(events),
                      Take(Skip(events, k * PAGE_EVENTS), PAGE_EVENTS)),
            snap.cursor, now, 0)
  }

  lemma PageAtRest(events: seq<GlobalEvent>, sequence: nat, snap: Snapshot, baseline: bool, now: real, k: nat)
    requires |events| > PAGE_EVENTS && k > 0
    ensures PageAt(events[PAGE_EVENTS..], sequence + 1, snap, false, now, k - 1) == PageAt(events, sequence, snap, baseline, now, k)
  {
    RestCount(events);
    SkipTwice(events, PAGE_EVENTS, (k - 1) * PAGE_EVENTS);
  }

  lemma PaginateStep(events: seq<GlobalEvent>, sequence: nat, snap: Snapshot, baseline: bool, now: real)
    requires |events| > PAGE_EVENTS
    ensures Paginate(events, sequence, snap, baseline, now)
              == [PageAt(events, sequence, snap, baseline, now, 0)] + Paginate(events[PAGE_EVENTS..], sequence + 1, snap, false, now)
  {
  }

  lemma {:induction false} PaginateAt(events: seq<GlobalEvent>, sequence: nat, snap: Snapshot, baseline: bool, now: real, k: nat)
    requires k < PageCount(events)
    ensures |Paginate(events, sequence, snap, baseline, now)| == PageCount(events)
    ensures Paginate(events, sequence, snap, baseline, now)[k] == PageAt(events, sequence, snap, baseline, now, k)
    decreases |events|
  {
    PaginateCount(events, sequence, snap, baseline, now);
    if |events| > PAGE_EVENTS {
      PaginateStep(events, sequence, snap, baseline, now);
      if k > 0 {
        RestCount(events);
        PaginateAt(events[PAGE_EVENTS..], sequence + 1, snap, false, now, k - 1);
        PageAtRest(events, sequence, snap, baseline, now, k);
      }
    } else {
      assert k == 0;
    }
  }

  function PageEvents(pages: seq<EventPage>): seq<GlobalEvent> {
    if pages == [] then [] else pages[0].events + PageEvents(pages[1..])
  }

  lemma {:induction false} PageEventsConcat(a: seq<EventPage>, b: seq<EventPage>)
    ensures PageEvents(a + b) == PageEvents(a) + PageEvents(b)
  {
    if a == [] {
      assert a + b == b;
    } else {
      PageEventsConcat(a[1..], b);
      assert (a + b)[1..] == a[1..] + b;
      Associate(a[0].events, PageEvents(a[1..]), PageEvents(b));
    }
  }

  lemma Associate<T>(a: seq<T>, b: seq<T>, c: seq<T>)
    ensures (a + b) + c == a + (b + c)
  {
  }

  /** Cutting into pages loses nothing, and each page holds at most 32 events. */
  lemma {:induction false} PaginateKeepsEvents(events: seq<GlobalEvent>, sequence: nat, snap: Snapshot, baseline: bool, now: real)
    ensures PageEvents(Pages(Paginate(events, sequence, snap, baseline, now))) == events
    ensures forall p :: p in Paginate(events, sequence, snap, baseline, now) ==> |p.page.events| <= PAGE_EVENTS
    decreases |events|
  {
    var pages := Paginate(events, sequence, snap, baseline, now);
    if |events| > PAGE_EVENTS {
      PaginateKeepsEvents(events[PAGE_EVENTS..], sequence + 1, snap, false, now);
      assert pages[1..] == Paginate(events[PAGE_EVENTS..], sequence + 1, snap, false, now);
    } else {
      assert Pages(pages) == [pages[0].page];
      assert PageEvents([pages[0].page]) == pages[0].page.events + PageEvents([]);
    }
  }
}
