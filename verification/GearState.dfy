/**
 Landing gear as the viewer sees it: folded from the event batches of a cursor room,
 or found by a reverse scan of the full history.  When the two agree.
 */
module GearState {
  import opened Common
  import opened Sorting
  import opened Store
  import opened Timeline
  import opened Playback
  import opened Publisher
  import opened Coverage

  const GEAR_UP := "flyruler.control.gear_up"
  const GEAR_DOWN := "flyruler.control.gear_down"

  /** `Some(Some(true))` is down, `Some(None)` spawned and not commanded yet, `None` not known. */
  type GearMap = map<AircraftId, Option<bool>>

  // ----- the fold over batches ---------------------------------------------------

  function ApplyEvent(gear: GearMap, e: GlobalEvent): GearMap {
    match e.event
    case Spawn(_) => gear[e.aircraft := None]
    case Despawn => gear - {e.aircraft}
    case Custom(name) =>
      if name == GEAR_UP then gear[e.aircraft := Some(false)]
      else if name == GEAR_DOWN then gear[e.aircraft := Some(true)]
      else gear
  }

  function Fold(gear: GearMap, events: seq<GlobalEvent>): GearMap {
    if events == [] then gear else ApplyEvent(Fold(gear, events[..|events| - 1]), events[|events| - 1])
  }

  function ApplyBatch(gear: GearMap, batch: EventPage): GearMap {
    Fold(if batch.baseline then map[] else gear, batch.events)
  }

  function ApplyBatches(gear: GearMap, batches: seq<EventPage>): GearMap {
    if batches == [] then gear else ApplyBatch(ApplyBatches(gear, batches[..|batches| - 1]), batches[|batches| - 1])
  }

  /** The map the viewer keeps, updated in place batch by batch. */
  class GearStates {
    var gear: GearMap

    constructor ()
      ensures gear == map[]
    {
      gear := map[];
    }

    method ApplyCursorEventBatch(batch: EventPage)
      modifies this
      ensures gear == ApplyBatch(old(gear), batch)
    {
      if batch.baseline {
        gear := map[];
      }
      ghost var start := gear;
      for i := 0 to |batch.events|
        invariant gear == Fold(start, batch.events[..i])
      {
        var e := batch.events[i];
        assert batch.events[..i + 1][..i] == batch.events[..i];
        match e.event {
          case Spawn(_) => gear := gear[e.aircraft := None];
          case Despawn => gear := gear - {e.aircraft};
          case Custom(name) =>
            if name == GEAR_UP {
              gear := gear[e.aircraft := Some(false)];
            } else if name == GEAR_DOWN {
              gear := gear[e.aircraft := Some(true)];
            }
        }
      }
      assert batch.events[..|batch.events|] == batch.events;
    }
  }

  lemma {:induction false} FoldConcat(gear: GearMap, a: seq<GlobalEvent>, b: seq<GlobalEvent>)
    ensures Fold(gear, a + b) == Fold(Fold(gear, a), b)
  {
    if b == [] {
      assert a + b == a;
    } else {
      FoldConcat(gear, a, b[..|b| - 1]);
      assert (a + b)[..|a + b| - 1] == a + b[..|b| - 1];
    }
  }

  lemma {:induction false} ApplyMore(gear: GearMap, batches: seq<EventPage>)
    requires forall i :: 0 <= i < |batches| ==> !batches[i].baseline
    ensures ApplyBatches(gear, batches) == Fold(gear, PageEvents(batches))
  {
    if batches != [] {
      var init, last := batches[..|batches| - 1], batches[|batches| - 1];
      ApplyMore(gear, init);
      assert batches == init + [last];
      PageEventsConcat(init, [last]);
      assert PageEvents([last]) == last.events + PageEvents([]) == last.events;
      FoldConcat(gear, PageEvents(init), last.events);
    }
  }

  lemma {:induction false} BatchesConcat(gear: GearMap, a: seq<EventPage>, b: seq<EventPage>)
    ensures ApplyBatches(gear, a + b) == ApplyBatches(ApplyBatches(gear, a), b)
  {
    if b == [] {
      assert a + b == a;
    } else {
      BatchesConcat(gear, a, b[..|b| - 1]);
      assert (a + b)[..|a + b| - 1] == a + b[..|b| - 1];
    }
  }

  /** Where the pages are cut does not matter, nor does anything applied before the baseline. */
  lemma PageSplitIrrelevant(gear: GearMap, before: seq<EventPage>, pages: seq<EventPage>)
    requires OneBaseline(pages)
    ensures ApplyBatches(gear, before + pages) == Fold(map[], PageEvents(pages))
  {
    var was := ApplyBatches(gear, before);
    BatchesConcat(gear, before, pages);
    assert pages == [pages[0]] + pages[1..];
    BatchesConcat(was, [pages[0]], pages[1..]);
    assert ApplyBatches(was, [pages[0]]) == Fold(map[], pages[0].events);
    ApplyMore(Fold(map[], pages[0].events), pages[1..]);
    FoldConcat(map[], pages[0].events, PageEvents(pages[1..]));
  }

  // ----- one aircraft ---------------------------------------------------------------

  /** What a viewer reads from its map: `get(id).copied().flatten()`. */
  function GearIn(gear: GearMap, x: AircraftId): Option<bool> {
    if x in gear then gear[x] else None
  }

  function GearOf(event: Event): Option<Option<bool>> {
    match event
    case Spawn(_) => Some(None)
    case Despawn => None
    case Custom(name) => if name == GEAR_UP then Some(Some(false)) else if name == GEAR_DOWN then Some(Some(true)) else None
  }

  /** Reverse scan: the last gear command or spawn decides; despawns and other events are passed over. */
  function Scan(s: seq<Sample<Event>>): Option<Option<bool>> {
    if s == [] then None
    else if GearOf(s[|s| - 1].value).Some? then GearOf(s[|s| - 1].value)
    else Scan(s[..|s| - 1])
  }

  function ScanGear(s: seq<Sample<Event>>): Option<bool> {
    Scan(s).GetOr(None)
  }

  /** `latest_gear_state`: the loop over the events up to the cursor, newest first. */
  method LatestGearState(data: Data, x: AircraftId, cursor: real) returns (gear: Option<bool>)
    ensures gear == ScanGear(Filter(SeriesOf(data, x).events, UpTo(cursor)))
  {
    if x !in data {
      assert SeriesOf(data, x).events == [];
      return None;
    }
    var events := Range(data[x].events, NegInf, Num(cursor));
    FilterAgree(data[x].events, Within(NegInf, Num(cursor)), UpTo(cursor));
    var i := |events|;
    assert events[..i] == events;
    while i > 0
      invariant 0 <= i <= |events| && Scan(events) == Scan(events[..i])
    {
      i := i - 1;
      assert events[..i + 1][..i] == events[..i];
      match events[i].value {
        case Custom(name) =>
          if name == GEAR_UP {
            return Some(false);
          }
          if name == GEAR_DOWN {
            return Some(true);
          }
        case Spawn(_) => return None;
        case Despawn =>
      }
    }
    gear := None;
  }

  /** The latest lifecycle event among `s`, if any, is not a despawn. */
  predicate NotDespawned(s: seq<Sample<Event>>) {
    var last := LastWhere(s, IsLifecycle());
    last.Some? ==> last.value.value.Spawn?
  }

  lemma {:induction false} FoldIsScan(gear: GearMap, x: AircraftId, s: seq<Sample<Event>>)
    requires NotDespawned(s)
    ensures GearIn(Fold(gear, Tag(x, s)), x) == Scan(s).GetOr(GearIn(gear, x))
  {
    if s != [] {
      var init := s[..|s| - 1];
      assert Tag(x, s)[..|s| - 1] == Tag(x, init);
      if s[|s| - 1].value.Custom? {
        FoldIsScan(gear, x, init);
      }
    }
  }

  lemma OwnEventOnly(gear: GearMap, other: GearMap, e: GlobalEvent, x: AircraftId)
    ensures e.aircraft != x ==> GearIn(ApplyEvent(gear, e), x) == GearIn(gear, x)
    ensures e.aircraft == x && GearIn(gear, x) == GearIn(other, x)
            ==> GearIn(ApplyEvent(gear, e), x) == GearIn(ApplyEvent(other, e), x)
  {
  }

  /** Other aircraft interleaved between its events do not affect an aircraft. */
  lemma {:induction false} FoldPerAircraft(gear: GearMap, list: seq<GlobalEvent>, x: AircraftId)
    ensures GearIn(Fold(gear, list), x) == GearIn(Fold(gear, Filter(list, Of(x))), x)
  {
    if list != [] {
      var init, e := list[..|list| - 1], list[|list| - 1];
      var kept := Filter(init, Of(x));
      FoldPerAircraft(gear, init, x);
      OwnEventOnly(Fold(gear, init), Fold(gear, kept), e, x);
      assert (kept + [e])[..|kept|] == kept;
    }
  }

  lemma {:induction false} ScanConcat(a: seq<Sample<Event>>, b: seq<Sample<Event>>)
    ensures Scan(a + b) == if Scan(b).Some? then Scan(b) else Scan(a)
  {
    if b == [] {
      assert a + b == a;
    } else {
      assert (a + b)[..|a + b| - 1] == a + b[..|b| - 1];
      ScanConcat(a, b[..|b| - 1]);
    }
  }

  lemma {:induction false} ScanOfSpawn(s: seq<Sample<Event>>)
    requires s != [] && s[0].value.Spawn?
    ensures Scan(s).Some? && LastWhere(s, IsLifecycle()).Some?
  {
    if |s| > 1 {
      ScanOfSpawn(s[..|s| - 1]);
    }
  }

  lemma SpawnDecides(s: seq<Sample<Event>>)
    requires LastWhere(s, IsLifecycle()).Some? && LastWhere(s, IsLifecycle()).value.value.Spawn?
    ensures Scan(s).Some? && LastSpawnIndex(s).Some?
  {
    if s != [] && !IsLifecycle()(s[|s| - 1]) {
      SpawnDecides(s[..|s| - 1]);
      assert s[..|s| - 1][LastSpawnIndex(s[..|s| - 1]).value] == s[LastSpawnIndex(s[..|s| - 1]).value];
    }
  }

  /** Cutting a history back to its last spawn changes neither the scan nor the lifecycle. */
  lemma CutKeepsScan(s: seq<Sample<Event>>)
    ensures LastSpawnIndex(s).Some? ==> Scan(FromLastSpawn(s)) == Scan(s)
    ensures LastSpawnIndex(s).Some? ==> LastWhere(FromLastSpawn(s), IsLifecycle()) == LastWhere(s, IsLifecycle())
  {
    if LastSpawnIndex(s).Some? {
      var k := LastSpawnIndex(s).value;
      assert s == s[..k] + s[k..];
      ScanConcat(s[..k], s[k..]);
      LastWhereSplit(s[..k], s[k..], IsLifecycle());
      ScanOfSpawn(s[k..]);
    }
  }

  // ----- agreement ---------------------------------------------------------------------

  /** The deciding condition, in terms of the stored events before and after the baseline cursor. */
  predicate Informed(visible: bool, before: seq<Sample<Event>>, later: seq<Sample<Event>>) {
    visible || Scan(later).Some? || ScanGear(before) == None
  }

  /** A spawned aircraft's remote value against the scan of its whole history. */
  lemma RemoteScan(visible: bool, before: seq<Sample<Event>>, later: seq<Sample<Event>>, x: AircraftId, remote: GearMap)
    requires remote == Fold(map[], Tag(x, if visible then FromLastSpawn(before) else []) + Tag(x, later))
    requires LastWhere(before + later, IsLifecycle()).Some?
    requires LastWhere(before + later, IsLifecycle()).value.value.Spawn?
    ensures GearIn(remote, x) == ScanGear(before + later) <==> Informed(visible, before, later)
  {
    var opening := if visible then FromLastSpawn(before) else [];
    assert Tag(x, opening) + Tag(x, later) == Tag(x, opening + later);
    LastWhereSplit(before, later, IsLifecycle());
    LastWhereSplit(opening, later, IsLifecycle());
    ScanConcat(before, later);
    ScanConcat(opening, later);
    CutKeepsScan(before);
    if LastWhere(later, IsLifecycle()).None? {
      SpawnDecides(before);
    } else {
      SpawnDecides(later);
    }
    FoldIsScan(map[], x, opening + later);
  }

  /** The aircraft's last event up to the cursor that changes its lifecycle, split at the baseline. */
  lemma SplitAtBase(data: Data, x: AircraftId, base: real, cursor: real)
    requires WellFormed(data) && base <= cursor && SpawnedAt(SeriesOf(data, x).events, Num(cursor))
    ensures var events := SeriesOf(data, x).events;
            var all := Filter(events, UpTo(base)) + Filter(events, Between(base, cursor));
            && all == Filter(events, UpTo(cursor))
            && LastWhere(all, IsLifecycle()).Some? && LastWhere(all, IsLifecycle()).value.value.Spawn?
  {
    var events := SeriesOf(data, x).events;
    BetweenJoins(events, base, base, cursor);
    SpawnedByFilter(events, cursor);
  }

  /**
   Remote and local agree, exactly when the baseline described the aircraft, or a gear
   command or spawn followed it, or there was nothing to tell.
   */
  lemma RemoteAgreesIff(f: Feed, x: AircraftId, base: real, cursor: real)
    requires WellFormed(f.seen) && CoveredUpTo(f, base, cursor)
    requires SpawnedAt(SeriesOf(f.seen, x).events, Num(cursor))
    ensures var events := SeriesOf(f.seen, x).events;
            (GearIn(Fold(map[], PageEvents(f.pages)), x) == ScanGear(Filter(events, UpTo(cursor))))
            <==> Informed(x in f.visible, Filter(events, UpTo(base)), Filter(events, Between(base, cursor)))
  {
    var events := SeriesOf(f.seen, x).events;
    SplitAtBase(f.seen, x, base, cursor);
    var before, later := Filter(events, UpTo(base)), Filter(events, Between(base, cursor));
    var list := f.opening + f.delta;
    FilterConcat(f.opening, f.delta, Of(x));
    assert Filter(f.opening, Of(x)) == OpeningOf(f.seen, f.visible, base)(x);
    assert Filter(f.delta, Of(x)) == OpenRange(f.seen, base, cursor)(x);
    var mine := Tag(x, if x in f.visible then FromLastSpawn(before) else []) + Tag(x, later);
    assert Filter(list, Of(x)) == mine;
    FoldPerAircraft(map[], list, x);
    RemoteScan(x in f.visible, before, later, x, Fold(map[], mine));
  }

  /** A spawn that decides the lifecycle and lies in the later part decides the later scan. */
  lemma LaterSpawnInforms(before: seq<Sample<Event>>, later: seq<Sample<Event>>)
    requires LastWhere(before + later, IsLifecycle()).Some? && LastWhere(before + later, IsLifecycle()).value.value.Spawn?
    requires (LastWhere(before, IsLifecycle()).Some? ==> !LastWhere(before, IsLifecycle()).value.value.Spawn?)
      || exists e :: e in later && e.value.Spawn?
    ensures Scan(later).Some?
  {
    LastWhereSplit(before, later, IsLifecycle());
    LastWhereFound(later, IsLifecycle());
    SpawnDecides(later);
  }

  /** An aircraft sampled at the baseline, or spawned by a later delta, is always informed. */
  lemma SampledOrSpawnedInformed(f: Feed, x: AircraftId, base: real, cursor: real)
    requires WellFormed(f.seen) && CoveredUpTo(f, base, cursor)
    requires SpawnedAt(SeriesOf(f.seen, x).events, Num(cursor))
    requires x in f.sampled
      || exists e :: e in SeriesOf(f.seen, x).events && e.value.Spawn? && base < e.t <= cursor
    ensures var events := SeriesOf(f.seen, x).events;
            Informed(x in f.visible, Filter(events, UpTo(base)), Filter(events, Between(base, cursor)))
  {
    var events := SeriesOf(f.seen, x).events;
    SplitAtBase(f.seen, x, base, cursor);
    FilterMembers(events, Between(base, cursor));
    if x !in f.visible {
      SpawnedByFilter(events, base);
      LaterSpawnInforms(Filter(events, UpTo(base)), Filter(events, Between(base, cursor)));
    }
  }

  /** Remote and local agree on every aircraft spawned at the cursor that was sampled at the baseline or spawned later. */
  lemma RemoteAgrees(f: Feed, x: AircraftId, base: real, cursor: real)
    requires WellFormed(f.seen) && CoveredUpTo(f, base, cursor)
    requires SpawnedAt(SeriesOf(f.seen, x).events, Num(cursor))
    requires x in f.sampled
      || exists e :: e in SeriesOf(f.seen, x).events && e.value.Spawn? && base < e.t <= cursor
    ensures GearIn(Fold(map[], PageEvents(f.pages)), x) == ScanGear(Filter(SeriesOf(f.seen, x).events, UpTo(cursor)))
  {
    SampledOrSpawnedInformed(f, x, base, cursor);
    RemoteAgreesIff(f, x, base, cursor);
  }

  // ----- against the store, late events included -----------------------------------------

  /** The newest gear command or spawn since the last despawn: all that a viewer told `s` knows. */
  function Known(s: seq<Sample<Event>>): Option<Option<bool>> {
    if s == [] || s[|s| - 1].value.Despawn? then None
    else if GearOf(s[|s| - 1].value).Some? then GearOf(s[|s| - 1].value)
    else Known(s[..|s| - 1])
  }

  /** What the viewer has been told of one aircraft. */
  function Told(visible: bool, before: seq<Sample<Event>>, later: seq<Sample<Event>>): seq<Sample<Event>> {
    (if visible then FromLastSpawn(before) else []) + later
  }

  lemma {:induction false} FoldIsKnown(x: AircraftId, s: seq<Sample<Event>>)
    ensures GearIn(Fold(map[], Tag(x, s)), x) == Known(s).GetOr(None)
  {
    if s != [] {
      FoldIsKnown(x, s[..|s| - 1]);
      assert Tag(x, s)[..|s| - 1] == Tag(x, s[..|s| - 1]);
    }
  }

  lemma {:induction false} KnownIsScan(s: seq<Sample<Event>>)
    ensures Known(s).Some? ==> Scan(s) == Known(s)
  {
    if s != [] {
      KnownIsScan(s[..|s| - 1]);
    }
  }

  /** What a viewer knows is what the whole history says. */
  lemma ToldIsScan(visible: bool, before: seq<Sample<Event>>, later: seq<Sample<Event>>)
    ensures var told := Told(visible, before, later); Known(told).Some? ==> Scan(before + later) == Known(told)
  {
    KnownIsScan(Told(visible, before, later));
    ScanConcat(if visible then FromLastSpawn(before) else [], later);
    ScanConcat(before, later);
    CutKeepsScan(before);
  }

  /** The viewer's value for any aircraft, spawned or not. */
  lemma RemoteValue(f: Feed, x: AircraftId, base: real, cursor: real)
    requires CoveredUpTo(f, base, cursor)
    ensures var events := SeriesOf(f.seen, x).events;
            GearIn(Fold(map[], PageEvents(f.pages)), x)
              == Known(Told(x in f.visible, Filter(events, UpTo(base)), Filter(events, Between(base, cursor)))).GetOr(None)
  {
    var events := SeriesOf(f.seen, x).events;
    var before, later := Filter(events, UpTo(base)), Filter(events, Between(base, cursor));
    var opening := if x in f.visible then FromLastSpawn(before) else [];
    FilterConcat(f.opening, f.delta, Of(x));
    assert Filter(f.opening, Of(x)) == OpeningOf(f.seen, f.visible, base)(x);
    assert Filter(f.delta, Of(x)) == OpenRange(f.seen, base, cursor)(x);
    TagConcat(x, opening, later);
    FoldPerAircraft(map[], f.opening + f.delta, x);
    FoldIsKnown(x, opening + later);
  }

  function Decides(): Sample<Event> -> bool {
    (s: Sample<Event>) => GearOf(s.value).Some?
  }

  function DecidesBy(cursor: real): Sample<Event> -> bool {
    (s: Sample<Event>) => s.t <= cursor && GearOf(s.value).Some?
  }

  lemma {:induction false} ScanIsLast(s: seq<Sample<Event>>)
    ensures Scan(s) == match LastWhere(s, Decides()) case Some(e) => GearOf(e.value) case None => None
  {
    if s != [] {
      ScanIsLast(s[..|s| - 1]);
    }
  }

  lemma ScanUpTo(events: seq<Sample<Event>>, cursor: real)
    ensures Scan(Filter(events, UpTo(cursor)))
              == match LastWhere(events, DecidesBy(cursor)) case Some(e) => GearOf(e.value) case None => None
  {
    ScanIsLast(Filter(events, UpTo(cursor)));
    LastWhereOfFilter(events, UpTo(cursor), Decides(), DecidesBy(cursor));
  }

  /** A gear command or spawn came too late, and none seen up to the cursor is stamped after it. */
  predicate Overruled(seen: seq<Sample<Event>>, late: seq<Sample<Event>>, cursor: real) {
    var newest, missed := LastWhere(seen, DecidesBy(cursor)), LastWhere(late, DecidesBy(cursor));
    missed.Some? && (newest.None? || newest.value.t <= missed.value.t)
  }

  /** The gear the newest event too late stands for, if there is one. */
  function Missed(late: seq<Sample<Event>>, cursor: real): Option<bool> {
    match LastWhere(late, DecidesBy(cursor))
    case Some(e) => GearOf(e.value).GetOr(None)
    case None => None
  }

  /** What the store says is what was seen, unless an event too late has overruled it. */
  lemma StoredScan(all: seq<Sample<Event>>, seen: seq<Sample<Event>>, late: seq<Sample<Event>>, cursor: real)
    requires OmitsOnly(all, seen, late)
    ensures ScanGear(Filter(all, UpTo(cursor)))
              == if Overruled(seen, late, cursor) then Missed(late, cursor) else ScanGear(Filter(seen, UpTo(cursor)))
  {
    ScanUpTo(all, cursor);
    ScanUpTo(seen, cursor);
    assert LatestAt(all, seen, late, DecidesBy(cursor));
  }

  /**
   The deciding condition once events may come too late: the viewer has been told a gear command or spawn
   since the last despawn, or there was none to tell; or, where an event too late has overruled what was
   seen, that event stands for the gear the viewer shows anyway.  At a cursor after the one recorded, the
   same goes for the newest event between the two, which the viewer has not been told yet.
   */
  predicate InformedOf(seen: seq<Sample<Event>>, late: seq<Sample<Event>>, visible: bool, base: real, recorded: real, cursor: real) {
    var known := Known(Told(visible, Filter(seen, UpTo(base)), Filter(seen, Between(base, recorded))));
    var ahead := Scan(Filter(seen, Between(recorded, cursor)));
    if Overruled(seen, late, cursor) then known.GetOr(None) == Missed(late, cursor)
    else if ahead.Some? then known.GetOr(None) == ahead.value
    else known.Some? || ScanGear(Filter(seen, UpTo(recorded))) == None
  }

  /** When the viewer agrees with the store on an aircraft, whatever came too late, spawned or not. */
  lemma StoreAgreesIff(f: Feed, x: AircraftId, base: real, recorded: real, cursor: real)
    requires WellFormed(f.seen) && CoveredUpTo(f, base, recorded) && Aligned(f, recorded) && recorded <= cursor
    ensures (GearIn(Fold(map[], PageEvents(f.pages)), x) == ScanGear(Filter(SeriesOf(f.data, x).events, UpTo(cursor))))
            <==> InformedOf(SeriesOf(f.seen, x).events, SeriesOf(f.late, x).events, x in f.visible, base, recorded, cursor)
  {
    var all, seen, late := SeriesOf(f.data, x).events, SeriesOf(f.seen, x).events, SeriesOf(f.late, x).events;
    RemoteValue(f, x, base, recorded);
    BetweenJoins(seen, base, base, recorded);
    BetweenJoins(seen, recorded, recorded, cursor);
    ScanConcat(Filter(seen, UpTo(recorded)), Filter(seen, Between(recorded, cursor)));
    ToldIsScan(x in f.visible, Filter(seen, UpTo(base)), Filter(seen, Between(base, recorded)));
    assert OmitsOnlyAt(f, x);
    StoredScan(all, seen, late, cursor);
  }

  // ----- a failing input ------------------------------------------------------------------

  lemma NothingInterleaved(list: seq<GlobalEvent>, per: AircraftId -> seq<GlobalEvent>)
    requires Interleaves(list, per) && forall x :: per(x) == []
    ensures list == []
  {
    forall e | e in list
      ensures e in per(e.aircraft)
    {
      FilterMembers(list, Of(e.aircraft));
    }
    if list != [] {
      SomeEvent(list);
    }
  }

  lemma SomeEvent(list: seq<GlobalEvent>)
    requires list != []
    ensures exists e :: e in list
  {
    assert list[0] in list;
  }

  /** An aircraft without samples that is alone in a store is in no baseline. */
  lemma NotInBaseline(data: Data, snap: Snapshot, base: real)
    requires WellFormed(data) && snap.cursor == Some(base) && forall x :: x in data ==> data[x].states == []
    ensures BaselineEvents(data, snap) == []
  {
    BaselineInterleaves(data, snap, base);
    forall x: AircraftId
      ensures OpeningOf(data, VisibleIds(data, snap), base)(x) == []
    {
    }
    NothingInterleaved(BaselineEvents(data, snap), OpeningOf(data, VisibleIds(data, snap), base));
  }

  lemma NotInDelta(data: Data, base: real, cursor: real)
    requires WellFormed(data) && base <= cursor
    requires forall x :: x in data ==> Filter(data[x].events, Between(base, cursor)) == []
    ensures DeltaEvents(data, Some(base), Some(cursor)) == []
  {
    DeltaExact(data, base, cursor);
    forall x: AircraftId
      ensures OpenRange(data, base, cursor)(x) == []
    {
    }
    NothingInterleaved(DeltaEvents(data, Some(base), Some(cursor)), OpenRange(data, base, cursor));
  }

  /**
   For example an aircraft spawned at 1 with its gear down at 2 but no state sample: a baseline at 2
   leaves it out, the delta up to 3 adds nothing, and the viewer does not know what the history says.
   */
  lemma LeftOutDisagrees(info: SpawnInfo, snap: Snapshot)
    requires snap.cursor == Some(2.0)
    ensures var events := [Sample(1.0, Spawn(info)), Sample(2.0, Custom(GEAR_DOWN))];
            var data: Data := map[0 := Series([], events, [], None)];
            var streamed := BaselineEvents(data, snap) + DeltaEvents(data, Some(2.0), Some(3.0));
            && SpawnedAt(events, Num(3.0))
            && GearIn(Fold(map[], streamed), 0) == None
            && ScanGear(Filter(events, UpTo(3.0))) == Some(true)
  {
    var events := [Sample(1.0, Spawn(info)), Sample(2.0, Custom(GEAR_DOWN))];
    FilterNone(events, Between(2.0, 3.0));
    NotInBaseline(map[0 := Series([], events, [], None)], snap, 2.0);
    NotInDelta(map[0 := Series([], events, [], None)], 2.0, 3.0);
    GearDownAfterSpawn(info, events);
  }

  lemma GearDownAfterSpawn(info: SpawnInfo, events: seq<Sample<Event>>)
    requires events == [Sample(1.0, Spawn(info)), Sample(2.0, Custom(GEAR_DOWN))]
    ensures SpawnedAt(events, Num(3.0)) && ScanGear(Filter(events, UpTo(3.0))) == Some(true)
  {
    FilterAll(events, UpTo(3.0));
    SpawnedByFilter(events, 3.0);
    assert events[..1] == [Sample(1.0, Spawn(info))];
  }
}
