/**
 What the pages queued since a baseline amount to, while the store grows under the
 publisher: exactly the stored events up to the cursor last recorded, but for those
 that arrived when that cursor had already passed them.
 */
module Coverage {
  import opened Common
  import opened Sorting
  import opened Store
  import opened Timeline
  import opened Playback
  import opened Publisher

  // ----- half-open ranges of one series ------------------------------------------

  function Between(after: real, upTo: real): Sample<Event> -> bool {
    (s: Sample<Event>) => after < s.t && s.t <= upTo
  }

  function Later(after: real): Sample<Event> -> bool {
    (s: Sample<Event>) => s.t > after
  }

  lemma BetweenIsSlice(s: seq<Sample<Event>>, after: real, upTo: real)
    requires Sorted(s, ByTime()) && after <= upTo
    ensures PartitionPoint(s, UpTo(after)) <= PartitionPoint(s, UpTo(upTo))
    ensures Filter(s, Between(after, upTo)) == s[PartitionPoint(s, UpTo(after))..PartitionPoint(s, UpTo(upTo))]
    ensures Filter(s, UpTo(upTo)) == s[..PartitionPoint(s, UpTo(upTo))]
  {
    CutsPartition(s, after);
    CutsPartition(s, upTo);
    var a, b := PartitionPoint(s, UpTo(after)), PartitionPoint(s, UpTo(upTo));
    assert b < |s| ==> s[b].t > upTo;
    FilterMiddle(s, Between(after, upTo), a, b);
    FilterPrefix(s, UpTo(upTo), b);
  }

  lemma SlicesJoin<T>(s: seq<T>, i: nat, j: nat, k: nat)
    requires i <= j <= k <= |s|
    ensures s[i..k] == s[i..j] + s[j..k] && s[..k] == s[..j] + s[j..k]
  {
  }

  /** Adjacent half-open ranges join without gap or overlap. */
  lemma BetweenJoins(s: seq<Sample<Event>>, a: real, b: real, c: real)
    requires Sorted(s, ByTime()) && a <= b <= c
    ensures Filter(s, Between(a, c)) == Filter(s, Between(a, b)) + Filter(s, Between(b, c))
    ensures Filter(s, UpTo(c)) == Filter(s, UpTo(b)) + Filter(s, Between(b, c))
  {
    BetweenIsSlice(s, a, b);
    BetweenIsSlice(s, b, c);
    BetweenIsSlice(s, a, c);
    SlicesJoin(s, PartitionPoint(s, UpTo(a)), PartitionPoint(s, UpTo(b)), PartitionPoint(s, UpTo(c)));
  }

  function OpenRange(data: Data, after: real, upTo: real): AircraftId -> seq<GlobalEvent> {
    (x: AircraftId) => Tag(x, Filter(SeriesOf(data, x).events, Between(after, upTo)))
  }

  lemma TagConcat(x: AircraftId, a: seq<Sample<Event>>, b: seq<Sample<Event>>)
    ensures Tag(x, a + b) == Tag(x, a) + Tag(x, b)
  {
  }

  lemma {:induction false} FilterTag(x: AircraftId, s: seq<Sample<Event>>, after: real)
    ensures Filter(Tag(x, s), LaterThan(after)) == Tag(x, Filter(s, Later(after)))
  {
    if s != [] {
      var init := s[..|s| - 1];
      FilterTag(x, init, after);
      assert Tag(x, s)[..|s| - 1] == Tag(x, init);
      TagConcat(x, Filter(init, Later(after)), [s[|s| - 1]]);
    }
  }

  function LaterOf(after: real, x: AircraftId): GlobalEvent -> bool {
    (e: GlobalEvent) => e.t > after && e.aircraft == x
  }

  lemma FilterCommutes(list: seq<GlobalEvent>, after: real, x: AircraftId)
    ensures Filter(Filter(list, LaterThan(after)), Of(x)) == Filter(Filter(list, Of(x)), LaterThan(after))
  {
    FilterTwice(list, LaterThan(after), Of(x), LaterOf(after, x));
    FilterTwice(list, Of(x), LaterThan(after), LaterOf(after, x));
  }

  lemma LaterInRange(s: seq<Sample<Event>>, after: real, upTo: real)
    ensures Filter(Range(s, Num(after), Num(upTo)), Later(after)) == Filter(s, Between(after, upTo))
  {
    FilterTwice(s, Within(Num(after), Num(upTo)), Later(after), Between(after, upTo));
  }

  /** `delta_events`: exactly the stored events strictly after the previous cursor, up to the current one. */
  lemma DeltaExact(data: Data, previous: real, current: real)
    requires WellFormed(data) && previous <= current
    ensures Interleaves(DeltaEvents(data, Some(previous), Some(current)), OpenRange(data, previous, current))
  {
    var list := Merge(SortedIds(data.Keys), InWindow(data, previous, current));
    GlobalEventsComplete(data, previous, current);
    FilterSorted(list, LaterThan(previous), ByStamp());
    forall x
      ensures Filter(DeltaEvents(data, Some(previous), Some(current)), Of(x)) == OpenRange(data, previous, current)(x)
    {
      var events := SeriesOf(data, x).events;
      FilterCommutes(list, previous, x);
      FilterTag(x, Range(events, Num(previous), Num(current)), previous);
      LaterInRange(events, previous, current);
    }
  }

  ghost predicate Spans(list: seq<GlobalEvent>, after: real, upTo: real) {
    forall i :: 0 <= i < |list| ==> after < list[i].t <= upTo
  }

  lemma InterleavedSpans(data: Data, list: seq<GlobalEvent>, after: real, upTo: real)
    requires Interleaves(list, OpenRange(data, after, upTo))
    ensures Spans(list, after, upTo)
  {
    forall i | 0 <= i < |list|
      ensures after < list[i].t <= upTo
    {
      var x := list[i].aircraft;
      FilterMembers(list, Of(x));
      assert list[i] in Filter(list, Of(x));
      var kept := Filter(SeriesOf(data, x).events, Between(after, upTo));
      var j :| 0 <= j < |kept| && Tag(x, kept)[j] == list[i];
      FilterMembers(SeriesOf(data, x).events, Between(after, upTo));
      assert kept[j] in kept;
    }
  }

  /** Deltas of consecutive cursors join into the delta of the whole stretch. */
  lemma DeltasJoin(data: Data, first: seq<GlobalEvent>, second: seq<GlobalEvent>, a: real, b: real, c: real)
    requires WellFormed(data) && a <= b <= c
    requires Interleaves(first, OpenRange(data, a, b)) && Interleaves(second, OpenRange(data, b, c))
    ensures Interleaves(first + second, OpenRange(data, a, c))
  {
    InterleavedSpans(data, first, a, b);
    InterleavedSpans(data, second, b, c);
    var all := first + second;
    forall i, j | 0 <= i < j < |all|
      ensures ByStamp()(all[i], all[j])
    {
      if j < |first| {
        assert ByStamp()(first[i], first[j]);
      } else if i >= |first| {
        assert ByStamp()(second[i - |first|], second[j - |first|]);
      }
    }
    forall x
      ensures Filter(all, Of(x)) == OpenRange(data, a, c)(x)
    {
      var events := SeriesOf(data, x).events;
      FilterConcat(first, second, Of(x));
      BetweenJoins(events, a, b, c);
      TagConcat(x, Filter(events, Between(a, b)), Filter(events, Between(b, c)));
    }
  }

  // ----- the feed: publisher and growing store --------------------------------------

  /** The publisher's stream and store, with what was queued since the latest baseline. */
  datatype Feed = Feed(
    stream: Stream,
    data: Data,
    seen: Data,                  // the store at the baseline, with the events that have arrived in time since
    late: Data,                  // the events that have arrived too late since
    replaced: bool,              // whether the store was cleared or loaded since
    base: Option<real>,          // cursor of the baseline, or the first one recorded after it
    cursorless: bool,            // whether the baseline itself had no cursor
    visible: set<AircraftId>,    // aircraft the baseline described
    sampled: set<AircraftId>,    // aircraft that had a state sample at the baseline
    pages: seq<EventPage>,       // pages queued from the baseline on
    opening: seq<GlobalEvent>,   // events of the baseline itself
    delta: seq<GlobalEvent>)     // events queued after it

  datatype Arrival =
    | ArriveEvent(id: AircraftId, t: real, event: Event)
    | ArriveState(id: AircraftId, t: real, state: Bytes)
    | ArriveTelemetry(id: AircraftId, t: real, frame: TelemetryFrame)

  const FIRST_FEED := Feed(NEW_STREAM, map[], map[], map[], false, None, false, {}, {}, [], [], [])

  /** The cursor up to which events have been queued. */
  function Recorded(stream: Stream): Option<real> {
    if stream.pending == [] then stream.lastCursor else stream.pending[|stream.pending| - 1].cursor
  }

  predicate Sampled(data: Data, snap: Snapshot, id: AircraftId) {
    var series := SeriesOf(data, id);
    if snap.mode.Live? then series.states != []
    else snap.cursor.Some? && AtOrBefore(series.states, Num(snap.cursor.value)).Some?
  }

  function VisibleIds(data: Data, snap: Snapshot): set<AircraftId> {
    set x | x in data && Visible(data, snap, x)
  }

  function SampledIds(data: Data, snap: Snapshot): set<AircraftId> {
    set x | x in data && Sampled(data, snap, x)
  }

  /** The cursor recorded has already passed the timestamp. */
  predicate TooLate(f: Feed, t: real) {
    f.base.Some? && Recorded(f.stream).Some? && t <= Recorded(f.stream).value
  }

  function Arrived(data: Data, arrival: Arrival): Data {
    match arrival
    case ArriveEvent(id, t, event) => WithEvent(data, id, t, event)
    case ArriveState(id, t, state) => WithState(data, id, t, state)
    case ArriveTelemetry(id, t, frame) => if TelemetryAccepted(data, id, frame) then WithTelemetry(data, id, t, frame) else data
  }

  function Arrive(f: Feed, arrival: Arrival): Feed {
    var g := f.(data := Arrived(f.data, arrival));
    if !arrival.ArriveEvent? then g
    else if TooLate(f, arrival.t) then g.(late := WithEvent(f.late, arrival.id, arrival.t, arrival.event))
    else g.(seen := WithEvent(f.seen, arrival.id, arrival.t, arrival.event))
  }

  /** An arrival leaves the publisher's side of the feed alone. */
  lemma ArriveFrames(f: Feed, arrival: Arrival)
    ensures var g := Arrive(f, arrival);
            && g.data == Arrived(f.data, arrival) && g.stream == f.stream && g.pages == f.pages
            && g.base == f.base && g.replaced == f.replaced
  {
    match arrival
    case ArriveEvent(id, t, event) =>
    case ArriveState(_, _, _) =>
    case ArriveTelemetry(_, _, _) =>
  }

  /** Clearing the store or loading another one into it. */
  function Reload(f: Feed, data: Data): Feed {
    f.(data := data, replaced := true)
  }

  /** The feed after a queue that was found empty has been refilled. */
  function Requeued(f: Feed, retired: Stream, ready: Stream, snap: Snapshot): Feed {
    var pages := Pages(ready.pending);
    var events := PageEvents(pages);
    if NeedsBaseline(retired, snap) then
      Feed(ready, f.data, f.data, map[], false, snap.cursor, snap.cursor.None?,
           VisibleIds(f.data, snap), SampledIds(f.data, snap), pages, events, [])
    else if f.base.None? && snap.cursor.Some? then
      Feed(ready, f.data, f.data, map[], false, snap.cursor, true, {}, {}, f.pages + pages, [], [])
    else f.(stream := ready, pages := f.pages + pages, delta := f.delta + events)
  }

  function TickFeed(config: StreamConfig, f: Feed, input: TickInput): Feed {
    var retired := Retire(f.stream, input.ack);
    var ready := Refill(retired, input.data, input.snap, input.now);
    match Dispatch(ready, input, config)
    case Removed => f
    case Sent(stream, _) =>
      (if retired.pending == [] then Requeued(f, retired, ready, input.snap) else f).(stream := stream)
  }

  ghost predicate CursorCovers(data: Data, cursor: real) {
    forall x :: x in data ==> forall i :: 0 <= i < |data[x].events| ==> data[x].events[i].t <= cursor
  }

  /**
   What a snapshot of the playback over this store satisfies: in live mode its cursor is at or after
   every stored event; a delta after a baseline at a cursor finds one; a replaced store is started over.
   */
  ghost predicate SnapshotFits(f: Feed, input: TickInput) {
    var retired := Retire(f.stream, input.ack);
    && input.data == f.data
    && (input.snap.mode.Live? && input.snap.cursor.Some? ==> CursorCovers(f.data, input.snap.cursor.value))
    && (retired.pending == [] && !NeedsBaseline(retired, input.snap) ==>
          !f.replaced && (f.base.Some? ==> input.snap.cursor.Some?))
  }

  /** A live snapshot of the stored bounds has its cursor at or after every stored event. */
  lemma LiveCursorCovers(data: Data, bounds: Bounds, p: Inner, now: real)
    requires IsBounds(StampsIn(data, data.Keys), bounds) && p.mode.Live?
    ensures var q := Poll(p, bounds, now); q.cursor.Some? ==> CursorCovers(data, q.cursor.value)
  {
    forall x, i | x in data && 0 <= i < |data[x].events| && bounds.Some?
      ensures data[x].events[i].t <= bounds.value.1
    {
      var t := data[x].events[i].t;
      assert t in StampsOf(data[x].events);
      assert x in data.Keys && t in AllSeriesStamps(data[x]);
      assert t in StampsIn(data, data.Keys);
    }
  }

  // ----- events that arrive too late -----------------------------------------------------

  /** In one range: `late` accounts for what `seen` lacks, and when it has nothing there nothing is lacking. */
  ghost predicate SplitAt(all: seq<Sample<Event>>, seen: seq<Sample<Event>>, late: seq<Sample<Event>>, lo: real, hi: real) {
    && |Filter(all, Between(lo, hi))| == |Filter(seen, Between(lo, hi))| + |Filter(late, Between(lo, hi))|
    && (Filter(late, Between(lo, hi)) == [] ==> Filter(all, Between(lo, hi)) == Filter(seen, Between(lo, hi)))
  }

  /** Of the last event seen and the last one too late, the one the store holds behind the other. */
  function LatterOf(seen: Option<Sample<Event>>, late: Option<Sample<Event>>): Option<Sample<Event>> {
    if late.Some? && (seen.None? || seen.value.t <= late.value.t) then late else seen
  }

  /** A reverse scan of `all` finds what the scans of `seen` and of `late` find. */
  ghost predicate LatestAt(all: seq<Sample<Event>>, seen: seq<Sample<Event>>, late: seq<Sample<Event>>, p: Sample<Event> -> bool) {
    LastWhere(all, p) == LatterOf(LastWhere(seen, p), LastWhere(late, p))
  }

  /** `seen` is `all` without the events of `late`. */
  ghost predicate OmitsOnly(all: seq<Sample<Event>>, seen: seq<Sample<Event>>, late: seq<Sample<Event>>) {
    && (late == [] ==> all == seen)
    && (forall lo, hi :: SplitAt(all, seen, late, lo, hi))
    && (forall p: Sample<Event> -> bool :: LatestAt(all, seen, late, p))
  }

  lemma OmitsNothing(all: seq<Sample<Event>>)
    ensures OmitsOnly(all, all, [])
  {
    forall lo, hi
      ensures SplitAt(all, all, [], lo, hi)
    {
      assert Filter([], Between(lo, hi)) == [];
    }
    forall p: Sample<Event> -> bool
      ensures LatestAt(all, all, [], p)
    {
    }
  }

  lemma InTimeKeepsLatest(all: seq<Sample<Event>>, seen: seq<Sample<Event>>, late: seq<Sample<Event>>, e: Sample<Event>,
                          p: Sample<Event> -> bool)
    requires Sorted(all, ByTime()) && Sorted(seen, ByTime()) && LatestAt(all, seen, late, p)
    requires forall i :: 0 <= i < |late| ==> late[i].t < e.t
    ensures LatestAt(Insert(all, e, ByTime()), Insert(seen, e, ByTime()), late, p)
  {
    InsertThenReverseScan(all, e, p);
    InsertThenReverseScan(seen, e, p);
    LastWhereFound(late, p);
  }

  lemma LateKeepsLatest(all: seq<Sample<Event>>, seen: seq<Sample<Event>>, late: seq<Sample<Event>>, e: Sample<Event>,
                        p: Sample<Event> -> bool)
    requires Sorted(all, ByTime()) && Sorted(late, ByTime()) && LatestAt(all, seen, late, p)
    ensures LatestAt(Insert(all, e, ByTime()), seen, Insert(late, e, ByTime()), p)
  {
    InsertThenReverseScan(all, e, p);
    InsertThenReverseScan(late, e, p);
  }

  lemma InTimeKeepsSplit(all: seq<Sample<Event>>, seen: seq<Sample<Event>>, late: seq<Sample<Event>>, e: Sample<Event>)
    requires Sorted(all, ByTime()) && Sorted(seen, ByTime()) && OmitsOnly(all, seen, late)
    requires forall i :: 0 <= i < |late| ==> late[i].t < e.t
    ensures OmitsOnly(Insert(all, e, ByTime()), Insert(seen, e, ByTime()), late)
  {
    forall p: Sample<Event> -> bool
      ensures LatestAt(Insert(all, e, ByTime()), Insert(seen, e, ByTime()), late, p)
    {
      InTimeKeepsLatest(all, seen, late, e, p);
    }
    ByTimeTotal<Event>();
    var all', seen' := Insert(all, e, ByTime()), Insert(seen, e, ByTime());
    forall lo, hi
      ensures SplitAt(all', seen', late, lo, hi)
    {
      assert SplitAt(all, seen, late, lo, hi);
      FilterOfInsert(all, e, ByTime(), Between(lo, hi));
      FilterOfInsert(seen, e, ByTime(), Between(lo, hi));
    }
  }

  lemma LateKeepsSplit(all: seq<Sample<Event>>, seen: seq<Sample<Event>>, late: seq<Sample<Event>>, e: Sample<Event>)
    requires Sorted(all, ByTime()) && Sorted(late, ByTime()) && OmitsOnly(all, seen, late)
    ensures OmitsOnly(Insert(all, e, ByTime()), seen, Insert(late, e, ByTime()))
  {
    forall p: Sample<Event> -> bool
      ensures LatestAt(Insert(all, e, ByTime()), seen, Insert(late, e, ByTime()), p)
    {
      LateKeepsLatest(all, seen, late, e, p);
    }
    ByTimeTotal<Event>();
    var all', late' := Insert(all, e, ByTime()), Insert(late, e, ByTime());
    forall lo, hi
      ensures SplitAt(all', seen, late', lo, hi)
    {
      assert SplitAt(all, seen, late, lo, hi);
      FilterOfInsert(all, e, ByTime(), Between(lo, hi));
      FilterOfInsert(late, e, ByTime(), Between(lo, hi));
    }
  }

  ghost predicate OmitsOnlyAt(f: Feed, x: AircraftId) {
    OmitsOnly(SeriesOf(f.data, x).events, SeriesOf(f.seen, x).events, SeriesOf(f.late, x).events)
  }

  /** The store is what was seen plus what came too late, none of it after the cursor recorded. */
  ghost predicate Aligned(f: Feed, recorded: real) {
    && (forall x :: OmitsOnlyAt(f, x))
    && CursorCovers(f.late, recorded)
  }

  // ----- the invariant ------------------------------------------------------------------

  ghost predicate EndsComplete(stream: Stream) {
    stream.pending != [] ==> stream.pending[|stream.pending| - 1].page.complete
  }

  /** What the baseline queued for one aircraft, in terms of the events seen up to now. */
  function OpeningOf(data: Data, visible: set<AircraftId>, base: real): AircraftId -> seq<GlobalEvent> {
    (x: AircraftId) => if x in visible then Tag(x, FromLastSpawn(Filter(SeriesOf(data, x).events, UpTo(base)))) else []
  }

  ghost predicate OneBaseline(pages: seq<EventPage>) {
    pages != [] && forall i :: 0 <= i < |pages| ==> (pages[i].baseline <==> i == 0)
  }

  /** Aircraft with a sample that the baseline left out were not spawned there. */
  ghost predicate LeftOutUnspawned(f: Feed, base: real) {
    forall x :: x in f.sampled && x !in f.visible ==> !SpawnedAt(SeriesOf(f.seen, x).events, Num(base))
  }

  /** From a baseline at `base` to the cursor last recorded, exactly the events seen have been queued. */
  ghost predicate CoveredUpTo(f: Feed, base: real, recorded: real) {
    && base <= recorded
    && Interleaves(f.opening, OpeningOf(f.seen, f.visible, base))
    && Interleaves(f.delta, OpenRange(f.seen, base, recorded))
    && PageEvents(f.pages) == f.opening + f.delta
    && OneBaseline(f.pages)
    && LeftOutUnspawned(f, base)
  }

  /** While no cursor has been recorded nothing has been queued but empty pages. */
  ghost predicate NothingYet(f: Feed) {
    && Recorded(f.stream).None? && PageEvents(f.pages) == []
    && (OneBaseline(f.pages) || (f.pages == [] && f.stream.pending == [] && f.stream.lastRevision.None?))
  }

  ghost predicate Anchored(f: Feed, base: real) {
    && Recorded(f.stream).Some?
    && CoveredUpTo(f, base, Recorded(f.stream).value)
    && (!f.replaced ==> Aligned(f, Recorded(f.stream).value))
    && (f.cursorless ==> f.opening == [] && f.visible == {} && f.sampled == {})
  }

  ghost predicate Covered(f: Feed) {
    && WellFormed(f.data) && WellFormed(f.seen) && WellFormed(f.late)
    && EndsComplete(f.stream)
    && (f.base.None? ==> NothingYet(f))
    && (f.base.Some? ==> Anchored(f, f.base.value))
  }

  // ----- arrivals ---------------------------------------------------------------------------

  lemma InsertBeyond(s: seq<Sample<Event>>, e: Sample<Event>, p: Sample<Event> -> bool)
    requires Sorted(s, ByTime()) && !p(e)
    ensures Filter(Insert(s, e, ByTime()), p) == Filter(s, p)
  {
    ByTimeTotal<Event>();
    FilterOfInsert(s, e, ByTime(), p);
  }

  lemma SpawnedByFilter(events: seq<Sample<Event>>, t: real)
    requires Sorted(events, ByTime())
    ensures SpawnedAt(events, Num(t))
              == var last := LastWhere(Filter(events, UpTo(t)), IsLifecycle()); last.Some? && last.value.value.Spawn?
  {
    CutsPartition(events, t);
    FilterPrefix(events, UpTo(t), PartitionPoint(events, UpTo(t)));
  }

  lemma EventBeyond(events: seq<Sample<Event>>, e: Sample<Event>, base: real, recorded: real)
    requires Sorted(events, ByTime()) && base <= recorded < e.t
    ensures var after := Insert(events, e, ByTime());
            && Filter(after, UpTo(base)) == Filter(events, UpTo(base))
            && Filter(after, Between(base, recorded)) == Filter(events, Between(base, recorded))
            && SpawnedAt(after, Num(base)) == SpawnedAt(events, Num(base))
  {
    ByTimeTotal<Event>();
    InsertSorted(events, e, ByTime());
    InsertBeyond(events, e, UpTo(base));
    InsertBeyond(events, e, Between(base, recorded));
    SpawnedByFilter(events, base);
    SpawnedByFilter(Insert(events, e, ByTime()), base);
  }

  /** What was queued is still what has been seen, for every aircraft, after an event arrives in time. */
  lemma InTimeKeepsCoverage(f: Feed, g: Feed, id: AircraftId, t: real, event: Event, base: real, recorded: real)
    requires WellFormed(f.seen) && CoveredUpTo(f, base, recorded) && recorded < t
    requires g == f.(data := g.data, seen := WithEvent(f.seen, id, t, event))
    ensures CoveredUpTo(g, base, recorded)
  {
    forall x: AircraftId
      ensures OpeningOf(g.seen, f.visible, base)(x) == OpeningOf(f.seen, f.visible, base)(x)
      ensures OpenRange(g.seen, base, recorded)(x) == OpenRange(f.seen, base, recorded)(x)
      ensures SpawnedAt(SeriesOf(g.seen, x).events, Num(base)) == SpawnedAt(SeriesOf(f.seen, x).events, Num(base))
    {
      if x == id {
        EventBeyond(SeriesOf(f.seen, x).events, Sample(t, event), base, recorded);
      }
    }
  }

  lemma InTimeKeepsAligned(f: Feed, g: Feed, id: AircraftId, t: real, event: Event, recorded: real)
    requires WellFormed(f.data) && WellFormed(f.seen) && Aligned(f, recorded) && recorded < t
    requires g == f.(data := WithEvent(f.data, id, t, event), seen := WithEvent(f.seen, id, t, event))
    ensures Aligned(g, recorded)
  {
    forall x
      ensures OmitsOnlyAt(g, x)
    {
      assert OmitsOnlyAt(f, x);
      if x == id {
        InTimeKeepsSplit(SeriesOf(f.data, x).events, SeriesOf(f.seen, x).events, SeriesOf(f.late, x).events, Sample(t, event));
      }
    }
  }

  lemma LateKeepsAligned(f: Feed, g: Feed, id: AircraftId, t: real, event: Event, recorded: real)
    requires WellFormed(f.data) && WellFormed(f.late) && Aligned(f, recorded) && t <= recorded
    requires g == f.(data := WithEvent(f.data, id, t, event), late := WithEvent(f.late, id, t, event))
    ensures Aligned(g, recorded)
  {
    forall x
      ensures OmitsOnlyAt(g, x)
    {
      assert OmitsOnlyAt(f, x);
      if x == id {
        LateKeepsSplit(SeriesOf(f.data, x).events, SeriesOf(f.seen, x).events, SeriesOf(f.late, x).events, Sample(t, event));
      }
    }
    LateStaysBehind(f.late, id, t, event, recorded);
  }

  lemma LateStaysBehind(late: Data, id: AircraftId, t: real, event: Event, recorded: real)
    requires WellFormed(late) && CursorCovers(late, recorded) && t <= recorded
    ensures CursorCovers(WithEvent(late, id, t, event), recorded)
  {
    var events := SeriesOf(late, id).events;
    var after := Insert(events, Sample(t, event), ByTime());
    ByTimeTotal<Event>();
    InsertSorted(events, Sample(t, event), ByTime());
    forall i | 0 <= i < |after|
      ensures after[i].t <= recorded
    {
      assert after[i] in multiset(after);
      assert after[i] == Sample(t, event) || after[i] in events;
    }
  }

  lemma ArrivedWellFormed(data: Data, arrival: Arrival)
    requires WellFormed(data)
    ensures WellFormed(Arrived(data, arrival))
  {
    match arrival
    case ArriveEvent(id, t, event) => EventWellFormed(data, id, t, event);
    case ArriveState(id, t, state) => StateWellFormed(data, id, t, state);
    case ArriveTelemetry(id, t, frame) =>
      if TelemetryAccepted(data, id, frame) {
        TelemetryWellFormed(data, id, t, frame);
      }
  }

  lemma EventWellFormed(data: Data, id: AircraftId, t: real, event: Event)
    requires WellFormed(data)
    ensures WellFormed(WithEvent(data, id, t, event))
  {
    ByTimeTotal<Event>();
    InsertSorted(SeriesOf(data, id).events, Sample(t, event), ByTime());
  }

  lemma StateWellFormed(data: Data, id: AircraftId, t: real, state: Bytes)
    requires WellFormed(data)
    ensures WellFormed(WithState(data, id, t, state))
  {
    ByTimeTotal<Bytes>();
    InsertSorted(SeriesOf(data, id).states, Sample(t, state), ByTime());
  }

  lemma TelemetryWellFormed(data: Data, id: AircraftId, t: real, frame: TelemetryFrame)
    requires WellFormed(data) && id in data
    ensures WellFormed(WithTelemetry(data, id, t, frame))
  {
    ByTimeTotal<TelemetryFrame>();
    InsertSorted(data[id].telemetry, Sample(t, frame), ByTime());
  }

  lemma SameEventsAligned(f: Feed, data: Data, recorded: real)
    requires Aligned(f, recorded) && forall x: AircraftId :: SeriesOf(data, x).events == SeriesOf(f.data, x).events
    ensures Aligned(f.(data := data), recorded)
  {
    forall x
      ensures OmitsOnlyAt(f.(data := data), x)
    {
      assert OmitsOnlyAt(f, x);
    }
  }

  lemma EventArrives(f: Feed, id: AircraftId, t: real, event: Event)
    requires Covered(f)
    ensures f.base.Some? ==> Anchored(Arrive(f, ArriveEvent(id, t, event)), f.base.value)
  {
    if f.base.Some? {
      var base, recorded, g := f.base.value, Recorded(f.stream).value, Arrive(f, ArriveEvent(id, t, event));
      if t <= recorded {
        assert CoveredUpTo(g, base, recorded);
        if !f.replaced {
          LateKeepsAligned(f, g, id, t, event, recorded);
        }
      } else {
        InTimeKeepsCoverage(f, g, id, t, event, base, recorded);
        if !f.replaced {
          InTimeKeepsAligned(f, g, id, t, event, recorded);
        }
      }
    }
  }

  lemma OtherArrives(f: Feed, arrival: Arrival)
    requires Covered(f) && !arrival.ArriveEvent?
    ensures f.base.Some? ==> Anchored(Arrive(f, arrival), f.base.value)
  {
    if f.base.Some? {
      var base, recorded := f.base.value, Recorded(f.stream).value;
      assert CoveredUpTo(Arrive(f, arrival), base, recorded);
      if !f.replaced {
        SameEventsAligned(f, Arrived(f.data, arrival), recorded);
      }
    }
  }

  lemma EventLeavesWellFormed(f: Feed, id: AircraftId, t: real, event: Event)
    requires WellFormed(f.data) && WellFormed(f.seen) && WellFormed(f.late)
    ensures var g := Arrive(f, ArriveEvent(id, t, event)); WellFormed(g.data) && WellFormed(g.seen) && WellFormed(g.late)
  {
    EventWellFormed(f.data, id, t, event);
    EventWellFormed(f.seen, id, t, event);
    EventWellFormed(f.late, id, t, event);
  }

  lemma EventArrivalKeeps(f: Feed, id: AircraftId, t: real, event: Event)
    requires Covered(f)
    ensures Covered(Arrive(f, ArriveEvent(id, t, event)))
  {
    EventLeavesWellFormed(f, id, t, event);
    ArriveFrames(f, ArriveEvent(id, t, event));
    EventArrives(f, id, t, event);
  }

  lemma OtherArrivalKeeps(f: Feed, arrival: Arrival)
    requires Covered(f) && !arrival.ArriveEvent?
    ensures Covered(Arrive(f, arrival))
  {
    ArrivedWellFormed(f.data, arrival);
    OtherArrives(f, arrival);
  }

  /** Whatever arrives, and however late, the coverage of what has been seen stays. */
  lemma ArrivalKeeps(f: Feed, arrival: Arrival)
    requires Covered(f)
    ensures Covered(Arrive(f, arrival))
  {
    if arrival.ArriveEvent? {
      EventArrivalKeeps(f, arrival.id, arrival.t, arrival.event);
    } else {
      OtherArrivalKeeps(f, arrival);
    }
  }

  lemma ReloadKeeps(f: Feed, data: Data)
    requires Covered(f) && WellFormed(data)
    ensures Covered(Reload(f, data))
  {
    if f.base.Some? {
      assert CoveredUpTo(Reload(f, data), f.base.value, Recorded(f.stream).value);
    }
  }

  // ----- ticks -------------------------------------------------------------------------------

  lemma RetireKeepsRecorded(stream: Stream, ack: nat)
    requires EndsComplete(stream)
    ensures EndsComplete(Retire(stream, ack)) && Recorded(Retire(stream, ack)) == Recorded(stream)
  {
  }

  lemma DispatchKeepsRecorded(ready: Stream, input: TickInput, config: StreamConfig)
    requires EndsComplete(ready) && Dispatch(ready, input, config).Sent?
    ensures EndsComplete(Dispatch(ready, input, config).stream)
    ensures Recorded(Dispatch(ready, input, config).stream) == Recorded(ready)
  {
  }

  lemma FromLastSpawnSorted(s: seq<Sample<Event>>)
    requires Sorted(s, ByTime())
    ensures Sorted(FromLastSpawn(s), ByTime())
  {
    var r := FromLastSpawn(s);
    var from := |s| - |r|;
    assert r == s[from..];
    forall i, j | 0 <= i < j < |r|
      ensures ByTime<Event>()(r[i], r[j])
    {
      assert r[i] == s[from + i] && r[j] == s[from + j];
    }
  }

  lemma BaselineOfOne(data: Data, snap: Snapshot, cursor: real, x: AircraftId)
    requires WellFormed(data)
    ensures BaselineOf(data, snap, cursor)(x) == OpeningOf(data, VisibleIds(data, snap), cursor)(x)
    ensures Sorted(BaselineOf(data, snap, cursor)(x), ByStamp())
  {
    var events := SeriesOf(data, x).events;
    if x in data && Visible(data, snap, x) {
      FilterAgree(events, Within(NegInf, Num(cursor)), UpTo(cursor));
      FilterSorted(events, Within(NegInf, Num(cursor)), ByTime());
      FromLastSpawnSorted(Range(events, NegInf, Num(cursor)));
      TagSorted(x, FromLastSpawn(Range(events, NegInf, Num(cursor))));
    }
  }

  lemma BaselineMergeable(data: Data, snap: Snapshot, cursor: real)
    requires WellFormed(data)
    ensures Mergeable(SortedIds(data.Keys), BaselineOf(data, snap, cursor))
  {
    SortedIdsSpec(data.Keys);
    forall x: AircraftId
      ensures Sorted(BaselineOf(data, snap, cursor)(x), ByStamp())
    {
      BaselineOfOne(data, snap, cursor, x);
    }
  }

  /** A baseline describes each visible aircraft from its last spawn on, and nothing else. */
  lemma BaselineInterleaves(data: Data, snap: Snapshot, cursor: real)
    requires WellFormed(data) && snap.cursor == Some(cursor)
    ensures Interleaves(BaselineEvents(data, snap), OpeningOf(data, VisibleIds(data, snap), cursor))
  {
    var per, opening := BaselineOf(data, snap, cursor), OpeningOf(data, VisibleIds(data, snap), cursor);
    BaselineMergeable(data, snap, cursor);
    MergeInterleaves(SortedIds(data.Keys), per);
    forall x: AircraftId
      ensures per(x) == opening(x)
    {
      BaselineOfOne(data, snap, cursor, x);
    }
    SameContents(BaselineEvents(data, snap), per, opening);
  }

  lemma SameContents(all: seq<GlobalEvent>, p: AircraftId -> seq<GlobalEvent>, q: AircraftId -> seq<GlobalEvent>)
    requires Interleaves(all, p) && forall x: AircraftId :: p(x) == q(x)
    ensures Interleaves(all, q)
  {
    forall x: AircraftId
      ensures Filter(all, Of(x)) == q(x)
    {
      assert Filter(all, Of(x)) == p(x) && p(x) == q(x);
    }
  }

  lemma LeftOutAtBaseline(data: Data, snap: Snapshot, cursor: real, x: AircraftId)
    requires WellFormed(data) && snap.cursor == Some(cursor) && (snap.mode.Live? ==> CursorCovers(data, cursor))
    requires x in SampledIds(data, snap) && x !in VisibleIds(data, snap)
    ensures !SpawnedAt(SeriesOf(data, x).events, Num(cursor))
  {
    var events := data[x].events;
    CutsPartition(events, cursor);
    if snap.mode.Live? {
      assert events != [] ==> events[|events| - 1].t <= cursor;
    }
  }

  lemma RefilledPages(s: Stream, events: seq<GlobalEvent>, snap: Snapshot, now: real)
    requires s.pending == []
    ensures var ready := Enqueue(s, events, snap, now);
            && EndsComplete(ready) && Recorded(ready) == snap.cursor
            && PageEvents(Pages(ready.pending)) == events
            && (NeedsBaseline(s, snap) ==> OneBaseline(Pages(ready.pending)))
            && (!NeedsBaseline(s, snap) ==> forall i :: 0 <= i < |ready.pending| ==> !ready.pending[i].page.baseline)
  {
    var baseline := NeedsBaseline(s, snap);
    if baseline || events != [] {
      var pages := Paginate(events, s.nextSequence + 1, snap, baseline, now);
      PaginateKeepsEvents(events, s.nextSequence + 1, snap, baseline, now);
      forall k | 0 <= k < |pages|
        ensures pages[k].cursor == snap.cursor && (pages[k].page.baseline <==> baseline && k == 0)
        ensures pages[k].page.complete <==> k + 1 == |pages|
      {
        PaginateCount(events, s.nextSequence + 1, snap, baseline, now);
        PaginateAt(events, s.nextSequence + 1, snap, baseline, now, k);
      }
    }
  }

  lemma FreshlyAligned(f: Feed, recorded: real)
    requires f.seen == f.data && f.late == map[]
    ensures Aligned(f, recorded)
  {
    forall x
      ensures OmitsOnlyAt(f, x)
    {
      assert SeriesOf(f.late, x).events == [];
      OmitsNothing(SeriesOf(f.data, x).events);
    }
  }

  lemma EmptyDelta(data: Data, cursor: real)
    ensures Interleaves([], OpenRange(data, cursor, cursor))
  {
    forall x: AircraftId
      ensures OpenRange(data, cursor, cursor)(x) == []
    {
      FilterNone(SeriesOf(data, x).events, Between(cursor, cursor));
    }
  }

  lemma BaselineAnchored(g: Feed, snap: Snapshot, cursor: real, events: seq<GlobalEvent>)
    requires WellFormed(g.data) && snap.cursor == Some(cursor) && (snap.mode.Live? ==> CursorCovers(g.data, cursor))
    requires events == BaselineEvents(g.data, snap) && PageEvents(g.pages) == events && OneBaseline(g.pages)
    requires g == Feed(g.stream, g.data, g.data, map[], false, Some(cursor), false,
                       VisibleIds(g.data, snap), SampledIds(g.data, snap), g.pages, events, [])
    requires Recorded(g.stream) == Some(cursor)
    ensures Anchored(g, cursor)
  {
    BaselineInterleaves(g.data, snap, cursor);
    EmptyDelta(g.data, cursor);
    forall x | x in g.sampled && x !in g.visible
      ensures !SpawnedAt(SeriesOf(g.data, x).events, Num(cursor))
    {
      LeftOutAtBaseline(g.data, snap, cursor, x);
    }
    assert events + [] == events;
    FreshlyAligned(g, cursor);
  }

  lemma BaselineCovers(f: Feed, retired: Stream, ready: Stream, input: TickInput)
    requires WellFormed(f.data) && SnapshotFits(f, input)
    requires retired.pending == [] && NeedsBaseline(retired, input.snap)
    requires ready == Refill(retired, input.data, input.snap, input.now)
    ensures Covered(Requeued(f, retired, ready, input.snap))
  {
    var events := BaselineEvents(f.data, input.snap);
    RefilledPages(retired, events, input.snap, input.now);
    if input.snap.cursor.Some? {
      BaselineAnchored(Requeued(f, retired, ready, input.snap), input.snap, input.snap.cursor.value, events);
    }
  }

  /** The first cursor after a baseline without one anchors an empty coverage there. */
  lemma FirstCursorCovers(f: Feed, retired: Stream, ready: Stream, input: TickInput)
    requires Covered(f) && f.base.None? && input.snap.cursor.Some? && input.data == f.data
    requires retired == Retire(f.stream, input.ack) && retired.pending == [] && !NeedsBaseline(retired, input.snap)
    requires ready == Refill(retired, input.data, input.snap, input.now)
    ensures ready.pending == [] && Covered(Requeued(f, retired, ready, input.snap))
  {
    RetireKeepsRecorded(f.stream, input.ack);
    RefilledPages(retired, [], input.snap, input.now);
    var g, cursor := Requeued(f, retired, ready, input.snap), input.snap.cursor.value;
    EmptyDelta(f.data, cursor);
    PageEventsConcat(f.pages, Pages(ready.pending));
    assert f.pages + Pages(ready.pending) == f.pages;
    forall x: AircraftId
      ensures OpeningOf(g.seen, {}, cursor)(x) == []
    {
    }
    FreshlyAligned(g, cursor);
  }

  lemma DeltaExtends(f: Feed, pages: seq<EventPage>, events: seq<GlobalEvent>, base: real, last: real, cursor: real)
    requires WellFormed(f.seen) && CoveredUpTo(f, base, last) && last <= cursor
    requires Interleaves(events, OpenRange(f.seen, last, cursor)) && PageEvents(pages) == events
    requires forall i :: 0 <= i < |pages| ==> !pages[i].baseline
    ensures CoveredUpTo(f.(pages := f.pages + pages, delta := f.delta + events), base, cursor)
  {
    DeltasJoin(f.seen, f.delta, events, base, last, cursor);
    PageEventsConcat(f.pages, pages);
    Associate(f.opening, f.delta, events);
  }

  /** After the cursor recorded the store holds exactly what has been seen. */
  lemma SeenBeyond(f: Feed, last: real, cursor: real)
    requires Aligned(f, last)
    ensures forall x: AircraftId :: OpenRange(f.seen, last, cursor)(x) == OpenRange(f.data, last, cursor)(x)
  {
    forall x: AircraftId
      ensures OpenRange(f.seen, last, cursor)(x) == OpenRange(f.data, last, cursor)(x)
    {
      assert OmitsOnlyAt(f, x);
      assert SplitAt(SeriesOf(f.data, x).events, SeriesOf(f.seen, x).events, SeriesOf(f.late, x).events, last, cursor);
      FilterNone(SeriesOf(f.late, x).events, Between(last, cursor));
    }
  }

  lemma AlignedLater(f: Feed, g: Feed, last: real, cursor: real)
    requires Aligned(f, last) && last <= cursor && g.data == f.data && g.seen == f.seen && g.late == f.late
    ensures Aligned(g, cursor)
  {
    forall x
      ensures OmitsOnlyAt(g, x)
    {
      assert OmitsOnlyAt(f, x);
    }
  }

  lemma DeltaAnchored(f: Feed, g: Feed, pages: seq<EventPage>, events: seq<GlobalEvent>, last: real, cursor: real)
    requires WellFormed(f.data) && WellFormed(f.seen) && f.base.Some? && !f.replaced && last <= cursor
    requires CoveredUpTo(f, f.base.value, last) && Aligned(f, last)
    requires f.cursorless ==> f.opening == [] && f.visible == {} && f.sampled == {}
    requires events == DeltaEvents(f.data, Some(last), Some(cursor)) && PageEvents(pages) == events
    requires forall i :: 0 <= i < |pages| ==> !pages[i].baseline
    requires g == f.(stream := g.stream, pages := f.pages + pages, delta := f.delta + events)
    requires Recorded(g.stream) == Some(cursor)
    ensures Anchored(g, f.base.value)
  {
    DeltaExact(f.data, last, cursor);
    SeenBeyond(f, last, cursor);
    DeltaExtends(f, pages, events, f.base.value, last, cursor);
    AlignedLater(f, g, last, cursor);
  }

  lemma DeltaCovers(f: Feed, retired: Stream, ready: Stream, input: TickInput)
    requires Covered(f) && SnapshotFits(f, input) && retired == Retire(f.stream, input.ack)
    requires retired.pending == [] && !NeedsBaseline(retired, input.snap)
    requires ready == Refill(retired, input.data, input.snap, input.now)
    ensures Covered(Requeued(f, retired, ready, input.snap))
  {
    var events := DeltaEvents(f.data, retired.lastCursor, input.snap.cursor);
    var g := Requeued(f, retired, ready, input.snap);
    RefilledPages(retired, events, input.snap, input.now);
    RetireKeepsRecorded(f.stream, input.ack);
    if f.base.Some? {
      DeltaAnchored(f, g, Pages(ready.pending), events, retired.lastCursor.value, input.snap.cursor.value);
    } else if input.snap.cursor.Some? {
      FirstCursorCovers(f, retired, ready, input);
    } else {
      PageEventsConcat(f.pages, Pages(ready.pending));
    }
  }

  lemma AnchoredAnyStream(g: Feed, stream: Stream, base: real)
    requires Anchored(g, base) && Recorded(stream) == Recorded(g.stream)
    ensures Anchored(g.(stream := stream), base)
  {
    var h := g.(stream := stream);
    assert CoveredUpTo(h, base, Recorded(stream).value);
    if !g.replaced {
      AlignedLater(g, h, Recorded(stream).value, Recorded(stream).value);
    }
  }

  lemma CoveredAnyStream(g: Feed, stream: Stream)
    requires Covered(g) && EndsComplete(stream) && Recorded(stream) == Recorded(g.stream)
    requires (stream.pending == []) == (g.stream.pending == []) && stream.lastRevision == g.stream.lastRevision
    ensures Covered(g.(stream := stream))
  {
    if g.base.Some? {
      AnchoredAnyStream(g, stream, g.base.value);
    }
  }

  lemma DispatchKeepsRest(ready: Stream, input: TickInput, config: StreamConfig)
    requires Dispatch(ready, input, config).Sent?
    ensures var stream := Dispatch(ready, input, config).stream;
            (stream.pending == []) == (ready.pending == []) && stream.lastRevision == ready.lastRevision
  {
  }

  /** Retiring a page and sending do not change what has been queued. */
  lemma BusyCovers(f: Feed, retired: Stream, ack: nat)
    requires Covered(f) && retired == Retire(f.stream, ack) && retired.pending != []
    ensures Covered(f.(stream := retired))
  {
    RetireKeepsRecorded(f.stream, ack);
    if f.base.Some? {
      AnchoredAnyStream(f, retired, f.base.value);
    }
  }

  lemma RequeueCovers(f: Feed, retired: Stream, ready: Stream, input: TickInput)
    requires Covered(f) && SnapshotFits(f, input) && retired == Retire(f.stream, input.ack) && retired.pending == []
    requires ready == Refill(retired, input.data, input.snap, input.now)
    ensures Covered(Requeued(f, retired, ready, input.snap))
  {
    if NeedsBaseline(retired, input.snap) {
      BaselineCovers(f, retired, ready, input);
    } else {
      DeltaCovers(f, retired, ready, input);
    }
  }

  lemma SentCovers(config: StreamConfig, g: Feed, input: TickInput)
    requires Covered(g) && Dispatch(g.stream, input, config).Sent?
    ensures Covered(g.(stream := Dispatch(g.stream, input, config).stream))
  {
    DispatchKeepsRecorded(g.stream, input, config);
    DispatchKeepsRest(g.stream, input, config);
    CoveredAnyStream(g, Dispatch(g.stream, input, config).stream);
  }

  /** The feed between refilling the queue and sending from it. */
  function ReadyFeed(f: Feed, retired: Stream, ready: Stream, snap: Snapshot): Feed {
    if retired.pending == [] then Requeued(f, retired, ready, snap) else f.(stream := ready)
  }

  lemma ReadyCovers(f: Feed, retired: Stream, ready: Stream, input: TickInput)
    requires Covered(f) && SnapshotFits(f, input) && retired == Retire(f.stream, input.ack)
    requires ready == Refill(retired, input.data, input.snap, input.now)
    ensures var g := ReadyFeed(f, retired, ready, input.snap); Covered(g) && g.stream == ready
  {
    if retired.pending == [] {
      RequeueCovers(f, retired, ready, input);
    } else {
      BusyCovers(f, retired, input.ack);
    }
  }

  /** Whatever the acknowledgements and however long each page waits, a tick keeps the coverage. */
  lemma TickCovers(config: StreamConfig, f: Feed, input: TickInput)
    requires Covered(f) && SnapshotFits(f, input)
    ensures Covered(TickFeed(config, f, input))
  {
    var retired := Retire(f.stream, input.ack);
    var ready := Refill(retired, input.data, input.snap, input.now);
    var g := ReadyFeed(f, retired, ready, input.snap);
    ReadyCovers(f, retired, ready, input);
    if Dispatch(ready, input, config).Sent? {
      SentCovers(config, g, input);
    }
  }

  // ----- what the coverage lacks ---------------------------------------------------------------

  /** No event stored after the baseline cursor came too late. */
  predicate NoneLate(f: Feed, base: real) {
    forall x :: x in f.late ==> forall i :: 0 <= i < |f.late[x].events| ==> f.late[x].events[i].t <= base
  }

  /** The deltas hold every event stored after the baseline cursor and up to the cursor recorded. */
  ghost predicate Complete(f: Feed, base: real, recorded: real) {
    Interleaves(f.delta, OpenRange(f.data, base, recorded))
  }

  lemma OnTimeComplete(f: Feed, base: real, recorded: real)
    requires CoveredUpTo(f, base, recorded) && Aligned(f, recorded) && NoneLate(f, base)
    ensures Complete(f, base, recorded)
  {
    forall x: AircraftId
      ensures OpenRange(f.data, base, recorded)(x) == OpenRange(f.seen, base, recorded)(x)
    {
      assert OmitsOnlyAt(f, x);
      assert SplitAt(SeriesOf(f.data, x).events, SeriesOf(f.seen, x).events, SeriesOf(f.late, x).events, base, recorded);
      FilterNone(SeriesOf(f.late, x).events, Between(base, recorded));
    }
  }

  lemma LateIncomplete(f: Feed, base: real, recorded: real)
    requires CoveredUpTo(f, base, recorded) && Aligned(f, recorded) && !NoneLate(f, base)
    ensures !Complete(f, base, recorded)
  {
    var x :| x in f.late && exists i :: 0 <= i < |f.late[x].events| && base < f.late[x].events[i].t;
    var i :| 0 <= i < |f.late[x].events| && base < f.late[x].events[i].t;
    FilterMembers(f.late[x].events, Between(base, recorded));
    assert f.late[x].events[i] in Filter(f.late[x].events, Between(base, recorded));
    assert OmitsOnlyAt(f, x);
    assert SplitAt(SeriesOf(f.data, x).events, SeriesOf(f.seen, x).events, SeriesOf(f.late, x).events, base, recorded);
    assert Filter(f.delta, Of(x)) == OpenRange(f.seen, base, recorded)(x);
    assert |OpenRange(f.data, base, recorded)(x)| != |OpenRange(f.seen, base, recorded)(x)|;
  }

  /** The deltas are complete if and only if no event stored after the baseline cursor came too late. */
  lemma CompleteIff(f: Feed)
    requires Covered(f) && f.base.Some? && !f.replaced
    ensures Complete(f, f.base.value, Recorded(f.stream).value) <==> NoneLate(f, f.base.value)
  {
    if NoneLate(f, f.base.value) {
      OnTimeComplete(f, f.base.value, Recorded(f.stream).value);
    } else {
      LateIncomplete(f, f.base.value, Recorded(f.stream).value);
    }
  }

  lemma LateAfterEvent(f: Feed, id: AircraftId, t: real, event: Event, base: real)
    requires WellFormed(f.late) && NoneLate(f, base) && base < t
    ensures NoneLate(Arrive(f, ArriveEvent(id, t, event)), base) <==> !TooLate(f, t)
  {
    if TooLate(f, t) {
      var events := SeriesOf(f.late, id).events;
      ByTimeTotal<Event>();
      InsertSorted(events, Sample(t, event), ByTime());
      var after := Insert(events, Sample(t, event), ByTime());
      assert Sample(t, event) in multiset(after);
      var i :| 0 <= i < |after| && after[i] == Sample(t, event);
      assert Arrive(f, ArriveEvent(id, t, event)).late[id].events[i].t > base;
    }
  }

  /** One event more keeps a complete stream complete if and only if it is stamped after the cursor recorded. */
  lemma EventKeepsCompleteIff(f: Feed, id: AircraftId, t: real, event: Event)
    requires Covered(f) && f.base.Some? && !f.replaced && f.base.value < t
    requires Complete(f, f.base.value, Recorded(f.stream).value)
    ensures Complete(Arrive(f, ArriveEvent(id, t, event)), f.base.value, Recorded(f.stream).value)
            <==> Recorded(f.stream).value < t
  {
    CompleteIff(f);
    ArrivalKeeps(f, ArriveEvent(id, t, event));
    CompleteIff(Arrive(f, ArriveEvent(id, t, event)));
    LateAfterEvent(f, id, t, event, f.base.value);
  }

  /** For example, an event stamped exactly at the cursor recorded is lost to the stream. */
  lemma EventAtCursorLost(f: Feed, id: AircraftId, event: Event)
    requires Covered(f) && f.base.Some? && !f.replaced && f.base.value < Recorded(f.stream).value
    requires Complete(f, f.base.value, Recorded(f.stream).value)
    ensures !Complete(Arrive(f, ArriveEvent(id, Recorded(f.stream).value, event)), f.base.value, Recorded(f.stream).value)
  {
    EventKeepsCompleteIff(f, id, Recorded(f.stream).value, event);
  }

  // ----- a baseline without a cursor --------------------------------------------------------

  /** Everything stored up to the cursor, as a viewer of an initially empty store should learn it. */
  function HistoryUpTo(data: Data, cursor: real): AircraftId -> seq<GlobalEvent> {
    (x: AircraftId) => Tag(x, Filter(SeriesOf(data, x).events, UpTo(cursor)))
  }

  predicate NothingBy(data: Data, cursor: real) {
    forall x :: x in data ==> forall i :: 0 <= i < |data[x].events| ==> cursor < data[x].events[i].t
  }

  /** After a baseline without a cursor, every event queued is stamped after the first cursor recorded. */
  lemma FirstEventsNeverQueued(f: Feed)
    requires Covered(f) && f.base.Some? && f.cursorless
    ensures Spans(PageEvents(f.pages), f.base.value, Recorded(f.stream).value)
  {
    InterleavedSpans(f.seen, f.delta, f.base.value, Recorded(f.stream).value);
    assert [] + f.delta == f.delta;
  }

  /** One aircraft: the history is queued whole exactly when it has nothing by the first cursor and nothing late. */
  lemma WholeHistoryAt(f: Feed, base: real, recorded: real, x: AircraftId)
    requires WellFormed(f.data) && base <= recorded && Aligned(f, recorded)
    ensures var all := SeriesOf(f.data, x).events;
            |Filter(all, UpTo(recorded))|
              == |Filter(all, UpTo(base))| + |Filter(SeriesOf(f.seen, x).events, Between(base, recorded))|
                 + |Filter(SeriesOf(f.late, x).events, Between(base, recorded))|
  {
    BetweenJoins(SeriesOf(f.data, x).events, base, base, recorded);
    assert OmitsOnlyAt(f, x);
    assert SplitAt(SeriesOf(f.data, x).events, SeriesOf(f.seen, x).events, SeriesOf(f.late, x).events, base, recorded);
  }

  lemma NothingByEmpty(data: Data, cursor: real)
    ensures NothingBy(data, cursor) <==> forall x: AircraftId :: Filter(SeriesOf(data, x).events, UpTo(cursor)) == []
  {
    if NothingBy(data, cursor) {
      forall x: AircraftId
        ensures Filter(SeriesOf(data, x).events, UpTo(cursor)) == []
      {
        FilterNone(SeriesOf(data, x).events, UpTo(cursor));
      }
    } else {
      var x :| x in data && exists i :: 0 <= i < |data[x].events| && data[x].events[i].t <= cursor;
      var i :| 0 <= i < |data[x].events| && data[x].events[i].t <= cursor;
      FilterMembers(SeriesOf(data, x).events, UpTo(cursor));
      assert data[x].events[i] in Filter(SeriesOf(data, x).events, UpTo(cursor));
    }
  }

  lemma EmptyStartHistory(data: Data, base: real, recorded: real)
    requires WellFormed(data) && base <= recorded && NothingBy(data, base)
    ensures forall x: AircraftId :: HistoryUpTo(data, recorded)(x) == OpenRange(data, base, recorded)(x)
  {
    NothingByEmpty(data, base);
    forall x: AircraftId
      ensures HistoryUpTo(data, recorded)(x) == OpenRange(data, base, recorded)(x)
    {
      BetweenJoins(SeriesOf(data, x).events, base, base, recorded);
      assert Filter(SeriesOf(data, x).events, UpTo(base)) == [];
    }
  }

  lemma MissedHistory(f: Feed, base: real, recorded: real)
    requires WellFormed(f.data) && base <= recorded && Aligned(f, recorded) && !NothingBy(f.data, base)
    requires Interleaves(f.delta, OpenRange(f.seen, base, recorded))
    ensures !Interleaves(f.delta, HistoryUpTo(f.data, recorded))
  {
    NothingByEmpty(f.data, base);
    var x: AircraftId :| Filter(SeriesOf(f.data, x).events, UpTo(base)) != [];
    WholeHistoryAt(f, base, recorded, x);
    assert |HistoryUpTo(f.data, recorded)(x)| > |OpenRange(f.seen, base, recorded)(x)|;
    assert Filter(f.delta, Of(x)) == OpenRange(f.seen, base, recorded)(x);
  }

  /**
   A subscriber that was there before the data: it is told the whole history up to the cursor recorded
   if and only if nothing is stored by the first cursor of its revision and nothing came too late.
   */
  lemma CursorlessCompleteIff(f: Feed)
    requires Covered(f) && f.base.Some? && f.cursorless && !f.replaced
    ensures Interleaves(PageEvents(f.pages), HistoryUpTo(f.data, Recorded(f.stream).value))
            <==> NothingBy(f.data, f.base.value) && NoneLate(f, f.base.value)
  {
    var base, recorded := f.base.value, Recorded(f.stream).value;
    assert [] + f.delta == f.delta;
    NothingByEmpty(f.data, base);
    CompleteIff(f);
    if NothingBy(f.data, base) {
      EmptyStartHistory(f.data, base, recorded);
    } else {
      MissedHistory(f, base, recorded);
    }
  }
}
