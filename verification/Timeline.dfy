/**
 Queries across aircraft: the neighbouring distinct timestamp, and the merged
 event list with its pages.
 */
module Timeline {
  import opened Common
  import opened Sorting
  import opened Store

  // ----- neighbouring timestamps ----------------------------------------------

  datatype EntryKind = StateEntry | EventEntry

  ghost function StampsOf<V>(s: seq<Sample<V>>): set<real> {
    set i | 0 <= i < |s| :: s[i].t
  }

  ghost function SeriesStamps(series: Series, kind: EntryKind): set<real> {
    if kind.StateEntry? then StampsOf(series.states) else StampsOf(series.events)
  }

  ghost function StampsAmong(data: Data, ids: set<AircraftId>, kind: EntryKind): set<real>
    requires ids <= data.Keys
  {
    set id, x | id in ids && x in SeriesStamps(data[id], kind) :: x
  }

  /** Every timestamp stored for any aircraft, each counted once. */
  ghost function Stamps(data: Data, kind: EntryKind): set<real> {
    StampsAmong(data, data.Keys, kind)
  }

  predicate After(x: real, c: real, forward: bool) {
    if forward then c < x else x < c
  }

  ghost function Beyond(stamps: set<real>, c: real, forward: bool): set<real> {
    set x | x in stamps && After(x, c, forward)
  }

  /** The stored timestamps passed when moving from `c` up to and including `r`. */
  ghost function Passed(stamps: set<real>, c: real, r: real, forward: bool): set<real> {
    set x | x in stamps && After(x, c, forward) && !After(x, r, forward)
  }

  /** `r` is the `k`-th distinct stored timestamp strictly beyond `c`. */
  ghost predicate IsKth(stamps: set<real>, c: real, k: nat, forward: bool, r: real) {
    r in Beyond(stamps, c, forward) && |Passed(stamps, c, r, forward)| == k
  }

  /** What stepping `count` entries from `c` means, with no reference to any search. */
  ghost predicate Steps(stamps: set<real>, c: real, count: nat, forward: bool, result: Option<real>) {
    var available := |Beyond(stamps, c, forward)|;
    if count == 0 || available == 0 then result == None
    else result.Some? && IsKth(stamps, c, Min(count, available), forward, result.value)
  }

  /** One aircraft's nearest timestamp beyond the probe, by binary search. */
  function Neighbour<V>(s: seq<Sample<V>>, probe: real, forward: bool): Option<real> {
    if forward then
      var index := PartitionPoint(s, UpTo(probe));
      if index < |s| then Some(s[index].t) else None
    else
      var index := PartitionPoint(s, Before(probe));
      if index > 0 then Some(s[index - 1].t) else None
  }

  lemma NeighbourIsNearest<V(!new)>(s: seq<Sample<V>>, probe: real, forward: bool)
    requires Sorted(s, ByTime())
    ensures var n := Neighbour(s, probe, forward);
            && (n.Some? ==> n.value in Beyond(StampsOf(s), probe, forward))
            && (n.Some? ==> forall x :: x in Beyond(StampsOf(s), probe, forward) ==> !After(n.value, x, forward))
            && (n.None? ==> Beyond(StampsOf(s), probe, forward) == {})
  {
    CutsPartition(s, probe);
    assert forall i, j :: 0 <= i < j < |s| ==> ByTime<V>()(s[i], s[j]);
  }

  ghost predicate Nearest(stamps: set<real>, probe: real, forward: bool, r: Option<real>) {
    if r.Some? then
      r.value in Beyond(stamps, probe, forward) && forall x :: x in Beyond(stamps, probe, forward) ==> !After(r.value, x, forward)
    else Beyond(stamps, probe, forward) == {}
  }

  function EntryNeighbour(series: Series, kind: EntryKind, probe: real, forward: bool): Option<real> {
    match kind
    case StateEntry => Neighbour(series.states, probe, forward)
    case EventEntry => Neighbour(series.events, probe, forward)
  }

  lemma NearestOfUnion(a: set<real>, b: set<real>, probe: real, forward: bool, x: Option<real>, y: Option<real>)
    requires Nearest(a, probe, forward, x) && Nearest(b, probe, forward, y)
    ensures Nearest(a + b, probe, forward, if y.Some? && (x.None? || After(x.value, y.value, forward)) then y else x)
  {
    forall z | z in Beyond(a + b, probe, forward)
      ensures z in Beyond(a, probe, forward) || z in Beyond(b, probe, forward)
    {
    }
  }

  /** The reduction over the aircraft map: whatever the iteration order, the nearest of all. */
  method NearestAcross(data: Data, kind: EntryKind, probe: real, forward: bool) returns (best: Option<real>)
    requires WellFormed(data)
    ensures Nearest(Stamps(data, kind), probe, forward, best)
  {
    best := None;
    var ids := data.Keys;
    while ids != {}
      invariant ids <= data.Keys
      invariant Nearest(StampsAmong(data, data.Keys - ids, kind), probe, forward, best)
      decreases |ids|
    {
      SomeMember(ids);
      var id :| id in ids;
      var candidate := EntryNeighbour(data[id], kind, probe, forward);
      NeighbourIsNearest(data[id].states, probe, forward);
      NeighbourIsNearest(data[id].events, probe, forward);
      ghost var seen := StampsAmong(data, data.Keys - ids, kind);
      NearestOfUnion(seen, SeriesStamps(data[id], kind), probe, forward, best, candidate);
      ids := ids - {id};
      assert StampsAmong(data, data.Keys - ids, kind) == seen + SeriesStamps(data[id], kind);
      if candidate.Some? && (best.None? || After(best.value, candidate.value, forward)) {
        best := candidate;
      }
    }
    assert data.Keys - ids == data.Keys;
  }

  lemma NextKth(stamps: set<real>, c: real, k: nat, forward: bool, probe: real, r: real)
    requires (k == 0 && probe == c) || IsKth(stamps, c, k, forward, probe)
    requires Nearest(stamps, probe, forward, Some(r))
    ensures IsKth(stamps, c, k + 1, forward, r)
  {
    var passed := Passed(stamps, c, r, forward);
    if k == 0 && probe == c {
      forall x | x in passed
        ensures x == r
      {
        assert x in Beyond(stamps, probe, forward);
      }
      assert passed == {r};
    } else {
      var before := Passed(stamps, c, probe, forward);
      forall x | x in passed
        ensures x in before || x == r
      {
        if After(x, probe, forward) {
          assert x in Beyond(stamps, probe, forward);
        }
      }
      assert passed == before + {r};
    }
  }

  /**
   `adjacent_global_timestamp`: repeated nearest-neighbour probing reaches the
   min(count, available)-th distinct timestamp beyond the cursor.
   */
  method AdjacentGlobalTimestamp(data: Data, cursor: Float, count: nat, kind: EntryKind, forward: bool)
    returns (result: Option<real>)
    requires WellFormed(data)
    ensures !cursor.Num? ==> result == None
    ensures cursor.Num? ==> Steps(Stamps(data, kind), cursor.r, count, forward, result)
  {
    result := None;
    if !cursor.Num? || count == 0 {
      return;
    }
    var probe := cursor.r;
    ghost var stamps := Stamps(data, kind);
    for done := 0 to count
      invariant done == 0 ==> result == None && probe == cursor.r
      invariant done > 0 ==> result == Some(probe) && IsKth(stamps, cursor.r, done, forward, probe)
      invariant done <= |Beyond(stamps, cursor.r, forward)|
    {
      var candidate := NearestAcross(data, kind, probe, forward);
      if candidate.None? {
        if done > 0 {
          forall x | x in Beyond(stamps, cursor.r, forward)
            ensures x in Passed(stamps, cursor.r, probe, forward)
          {
            assert x !in Beyond(stamps, probe, forward);
          }
          assert Passed(stamps, cursor.r, probe, forward) == Beyond(stamps, cursor.r, forward);
        }
        return;
      }
      NextKth(stamps, cursor.r, done, forward, probe, candidate.value);
      assert Passed(stamps, cursor.r, candidate.value, forward) <= Beyond(stamps, cursor.r, forward);
      SubsetSize(Passed(stamps, cursor.r, candidate.value, forward), Beyond(stamps, cursor.r, forward));
      result := candidate;
      probe := candidate.value;
    }
  }

  /** The k-th distinct timestamp is unique, so `Steps` determines its result. */
  lemma KthUnique(stamps: set<real>, c: real, k: nat, forward: bool, r: real, q: real)
    requires IsKth(stamps, c, k, forward, r) && IsKth(stamps, c, k, forward, q)
    ensures r == q
  {
    if r != q {
      var near, far := if After(q, r, forward) then r else q, if After(q, r, forward) then q else r;
      var a, b := Passed(stamps, c, near, forward), Passed(stamps, c, far, forward);
      assert far !in a && a + {far} <= b;
      SubsetSize(a + {far}, b);
    }
  }

  /** Stepping k entries one way and k entries back returns to the stored timestamp it left. */
  lemma StepThereAndBack(stamps: set<real>, c: real, k: nat, forward: bool, r: Option<real>, back: Option<real>)
    requires c in stamps && 0 < k <= |Beyond(stamps, c, forward)|
    requires Steps(stamps, c, k, forward, r) && r.Some?
    requires Steps(stamps, r.value, k, !forward, back)
    ensures back == Some(c)
  {
    var there := Passed(stamps, c, r.value, forward);
    var home := Passed(stamps, r.value, c, !forward);
    assert home == there - {r.value} + {c};
    assert |home| == k;
    SubsetSize(home, Beyond(stamps, r.value, !forward));
    KthUnique(stamps, r.value, k, !forward, c, back.value);
  }

  // ----- the merged event list -----------------------------------------------

  ghost predicate IsLeast(m: AircraftId, ids: set<AircraftId>) {
    m in ids && forall x :: x in ids ==> m <= x
  }

  lemma LeastExtends(n: AircraftId, m: AircraftId, ids: set<AircraftId>)
    requires m in ids && IsLeast(n, ids - {m})
    ensures IsLeast(if n < m then n else m, ids)
  {
    forall x | x in ids
      ensures (if n < m then n else m) <= x
    {
      assert x == m || x in ids - {m};
    }
  }

  lemma HasLeast(ids: set<AircraftId>)
    requires ids != {}
    ensures exists m :: IsLeast(m, ids)
  {
    SomeMember(ids);
    var m :| m in ids;
    if ids - {m} == {} {
      assert ids == {} + {m};
      assert IsLeast(m, ids);
    } else {
      HasLeast(ids - {m});
      var n :| IsLeast(n, ids - {m});
      LeastExtends(n, m, ids);
    }
  }

  function Least(ids: set<AircraftId>): (m: AircraftId)
    requires ids != {}
    ensures m in ids && forall x :: x in ids ==> m <= x
  {
    HasLeast(ids);
    var m :| m in ids && forall x :: x in ids ==> m <= x;
    m
  }

  /** `get_aircraft_ids`: the keys in increasing order. */
  function SortedIds(ids: set<AircraftId>): (r: seq<AircraftId>)
    decreases |ids|
  {
    if ids == {} then [] else [Least(ids)] + SortedIds(ids - {Least(ids)})
  }

  lemma {:induction false} SortedIdsSpec(ids: set<AircraftId>)
    ensures forall x :: x in SortedIds(ids) <==> x in ids
    ensures forall i, j :: 0 <= i < j < |SortedIds(ids)| ==> SortedIds(ids)[i] < SortedIds(ids)[j]
    decreases |ids|
  {
    if ids != {} {
      var m := Least(ids);
      var rest := SortedIds(ids - {m});
      SortedIdsSpec(ids - {m});
      forall i | 0 <= i < |rest|
        ensures m < rest[i]
      {
        assert rest[i] in rest;
      }
      forall x
        ensures x in SortedIds(ids) <==> x in ids
      {
        assert x in SortedIds(ids) <==> x == m || x in rest;
      }
    }
  }

  function ByStamp(): (GlobalEvent, GlobalEvent) -> bool {
    (a: GlobalEvent, b: GlobalEvent) => a.t < b.t || (a.t == b.t && a.aircraft <= b.aircraft)
  }

  function Of(x: AircraftId): GlobalEvent -> bool {
    (e: GlobalEvent) => e.aircraft == x
  }

  function Tag(x: AircraftId, s: seq<Sample<Event>>): (r: seq<GlobalEvent>)
    ensures |r| == |s|
    ensures forall i :: 0 <= i < |s| ==> r[i] == GlobalEvent(x, s[i].t, s[i].value)
  {
    seq(|s|, i requires 0 <= i < |s| => GlobalEvent(x, s[i].t, s[i].value))
  }

  function Concat(ids: seq<AircraftId>, per: AircraftId -> seq<GlobalEvent>): seq<GlobalEvent> {
    if ids == [] then [] else Concat(ids[..|ids| - 1], per) + per(ids[|ids| - 1])
  }

  function Merge(ids: seq<AircraftId>, per: AircraftId -> seq<GlobalEvent>): seq<GlobalEvent> {
    StableSort(Concat(ids, per), ByStamp())
  }

  /** Merged events are in the order of their timestamps, and in the order of their aircraft where these are equal. */
  lemma MergedOrder(ids: seq<AircraftId>, per: AircraftId -> seq<GlobalEvent>, i: nat, j: nat)
    requires Mergeable(ids, per) && i < j < |Merge(ids, per)|
    ensures var a, b := Merge(ids, per)[i], Merge(ids, per)[j]; a.t < b.t || (a.t == b.t && a.aircraft <= b.aircraft)
  {
    MergeInterleaves(ids, per);
    assert ByStamp()(Merge(ids, per)[i], Merge(ids, per)[j]);
  }

  /** `list` is in (timestamp, aircraft) order and holds exactly `per(x)`, in order, for each x. */
  ghost predicate Interleaves(list: seq<GlobalEvent>, per: AircraftId -> seq<GlobalEvent>) {
    Sorted(list, ByStamp()) && forall x :: Filter(list, Of(x)) == per(x)
  }

  ghost predicate Tagged(s: seq<GlobalEvent>, x: AircraftId) {
    forall i :: 0 <= i < |s| ==> s[i].aircraft == x
  }

  /** Each aircraft's list carries its own identifier, is in order, and is empty when it is not listed. */
  ghost predicate Mergeable(ids: seq<AircraftId>, per: AircraftId -> seq<GlobalEvent>) {
    && (forall i, j :: 0 <= i < j < |ids| ==> ids[i] < ids[j])
    && forall y :: Tagged(per(y), y) && Sorted(per(y), ByStamp()) && (y !in ids ==> per(y) == [])
  }

  lemma {:induction false} ConcatOf(ids: seq<AircraftId>, per: AircraftId -> seq<GlobalEvent>, x: AircraftId)
    requires forall i, j :: 0 <= i < j < |ids| ==> ids[i] < ids[j]
    requires forall y :: Tagged(per(y), y)
    ensures Filter(Concat(ids, per), Of(x)) == if x in ids then per(x) else []
  {
    if ids != [] {
      var init, y := ids[..|ids| - 1], ids[|ids| - 1];
      ConcatOf(init, per, x);
      FilterConcat(Concat(init, per), per(y), Of(x));
      assert ids == init + [y];
      if x == y {
        FilterAll(per(y), Of(x));
        assert x !in init;
      } else {
        FilterNone(per(y), Of(x));
      }
    }
  }

  /** Sorting the concatenation interleaves the aircraft without reordering any one of them. */
  lemma MergeInterleaves(ids: seq<AircraftId>, per: AircraftId -> seq<GlobalEvent>)
    requires Mergeable(ids, per)
    ensures Interleaves(Merge(ids, per), per)
    ensures multiset(Merge(ids, per)) == multiset(Concat(ids, per))
  {
    StableSortSpec(Concat(ids, per), ByStamp());
    forall x
      ensures Filter(Merge(ids, per), Of(x)) == per(x)
    {
      ConcatOf(ids, per, x);
      StableSortKeepsOrder(Concat(ids, per), ByStamp(), Of(x));
    }
  }

  lemma FilterLast(s: seq<GlobalEvent>, x: AircraftId)
    requires s != [] && s[|s| - 1].aircraft == x
    ensures Filter(s, Of(x)) == Filter(s[..|s| - 1], Of(x)) + [s[|s| - 1]]
  {
  }

  lemma LastIsGreatest(s: seq<GlobalEvent>, e: GlobalEvent)
    requires s != [] && Sorted(s, ByStamp()) && e in s
    ensures ByStamp()(e, s[|s| - 1])
  {
    var i :| 0 <= i < |s| && s[i] == e;
    assert i < |s| - 1 ==> ByStamp()(s[i], s[|s| - 1]);
  }

  lemma SharesMembers(a: seq<GlobalEvent>, b: seq<GlobalEvent>, e: GlobalEvent)
    requires forall x :: Filter(a, Of(x)) == Filter(b, Of(x))
    requires e in a
    ensures e in b
  {
    FilterMembers(a, Of(e.aircraft));
    FilterMembers(b, Of(e.aircraft));
    assert e in Filter(a, Of(e.aircraft));
  }

  /** The order and the per-aircraft contents together leave no freedom: the list is unique. */
  lemma {:induction false} InterleavingUnique(a: seq<GlobalEvent>, b: seq<GlobalEvent>)
    requires Sorted(a, ByStamp()) && Sorted(b, ByStamp())
    requires forall x :: Filter(a, Of(x)) == Filter(b, Of(x))
    ensures a == b
    decreases |a|
  {
    if a == [] {
      if b != [] {
        SharesMembers(b, a, b[0]);
      }
    } else {
      var e := a[|a| - 1];
      SharesMembers(a, b, e);
      var f := b[|b| - 1];
      SharesMembers(b, a, f);
      LastIsGreatest(a, f);
      LastIsGreatest(b, e);
      FilterLast(a, e.aircraft);
      FilterLast(b, e.aircraft);
      assert e == Filter(a, Of(e.aircraft))[|Filter(a, Of(e.aircraft))| - 1];
      assert f == Filter(b, Of(e.aircraft))[|Filter(b, Of(e.aircraft))| - 1];
      var a', b' := a[..|a| - 1], b[..|b| - 1];
      forall x
        ensures Filter(a', Of(x)) == Filter(b', Of(x))
      {
        assert Filter(a, Of(x)) == if x == e.aircraft then Filter(a', Of(x)) + [e] else Filter(a', Of(x));
        assert Filter(b, Of(x)) == if x == e.aircraft then Filter(b', Of(x)) + [e] else Filter(b', Of(x));
        if x == e.aircraft {
          assert Filter(a', Of(x)) == Filter(a, Of(x))[..|Filter(a', Of(x))|];
          assert Filter(b', Of(x)) == Filter(b, Of(x))[..|Filter(b', Of(x))|];
        }
      }
      InterleavingUnique(a', b');
      assert a == a' + [e] && b == b' + [f];
    }
  }

  lemma TagSorted(x: AircraftId, s: seq<Sample<Event>>)
    requires Sorted(s, ByTime())
    ensures Sorted(Tag(x, s), ByStamp())
  {
    forall i, j | 0 <= i < j < |s|
      ensures ByStamp()(Tag(x, s)[i], Tag(x, s)[j])
    {
      assert ByTime<Event>()(s[i], s[j]);
    }
  }

  lemma {:induction false} FilterBelow<T>(s: seq<T>, p: T -> bool, le: (T, T) -> bool, e: T)
    requires forall i :: 0 <= i < |s| ==> le(s[i], e)
    ensures forall i :: 0 <= i < |Filter(s, p)| ==> le(Filter(s, p)[i], e)
  {
    if s != [] {
      FilterBelow(s[..|s| - 1], p, le, e);
    }
  }

  lemma {:induction false} FilterSorted<T>(s: seq<T>, p: T -> bool, le: (T, T) -> bool)
    requires Sorted(s, le)
    ensures Sorted(Filter(s, p), le)
  {
    if s != [] {
      FilterSorted(s[..|s| - 1], p, le);
      FilterBelow(s[..|s| - 1], p, le, s[|s| - 1]);
    }
  }

  /** Per-aircraft events in the closed range, by the linear filter. */
  function InRange(data: Data, start: Float, end: Float): AircraftId -> seq<GlobalEvent> {
    (x: AircraftId) => Tag(x, Range(SeriesOf(data, x).events, start, end))
  }

  /** Per-aircraft events by the binary-search window, as the query takes them. */
  function InWindow(data: Data, start: real, end: real): AircraftId -> seq<GlobalEvent> {
    (x: AircraftId) => Tag(x, Window(SeriesOf(data, x).events, start, end).GetOr([]))
  }

  predicate AnyPanic(data: Data, start: real, end: real) {
    exists id :: id in data && Window(data[id].events, start, end).None?
  }

  /** `get_global_events_page`; `None` is the slice panic of a crossed range. */
  function GlobalEventsPage(data: Data, start: real, end: real, offset: nat, limit: nat): Option<Page<GlobalEvent>> {
    if AnyPanic(data, start, end) then None
    else Some(PageSlice(Merge(SortedIds(data.Keys), InWindow(data, start, end)), offset, limit))
  }

  lemma WindowsAreRanges(data: Data, start: real, end: real)
    requires WellFormed(data) && start <= end
    ensures !AnyPanic(data, start, end)
    ensures forall x :: InWindow(data, start, end)(x) == InRange(data, Num(start), Num(end))(x)
  {
    forall x: AircraftId
      ensures Window(SeriesOf(data, x).events, start, end) == Some(Range(SeriesOf(data, x).events, Num(start), Num(end)))
    {
      WindowIsFilter(SeriesOf(data, x).events, start, end);
    }
    forall id | id in data
      ensures Window(data[id].events, start, end).Some?
    {
      assert data[id] == SeriesOf(data, id);
    }
  }

  lemma RangesMergeable(data: Data, start: Float, end: Float)
    requires WellFormed(data)
    ensures Mergeable(SortedIds(data.Keys), InRange(data, start, end))
  {
    SortedIdsSpec(data.Keys);
    forall y: AircraftId
      ensures Sorted(InRange(data, start, end)(y), ByStamp())
    {
      var events := SeriesOf(data, y).events;
      FilterSorted(events, Within(start, end), ByTime());
      TagSorted(y, Range(events, start, end));
    }
  }

  /**
   The whole merged list of `get_global_events_page`: every in-range event of every
   aircraft, each aircraft in its own stored order, sorted by (timestamp, aircraft).
   */
  lemma GlobalEventsComplete(data: Data, start: real, end: real)
    requires WellFormed(data) && start <= end
    ensures Interleaves(Merge(SortedIds(data.Keys), InWindow(data, start, end)), InRange(data, Num(start), Num(end)))
  {
    var per, window := InRange(data, Num(start), Num(end)), InWindow(data, start, end);
    WindowsAreRanges(data, start, end);
    RangesMergeable(data, Num(start), Num(end));
    forall y
      ensures Tagged(window(y), y) && Sorted(window(y), ByStamp()) && (y !in SortedIds(data.Keys) ==> window(y) == [])
    {
      assert window(y) == per(y);
    }
    MergeInterleaves(SortedIds(data.Keys), window);
    forall x
      ensures Filter(Merge(SortedIds(data.Keys), window), Of(x)) == per(x)
    {
      assert window(x) == per(x);
    }
  }

  // ----- paging ---------------------------------------------------------------

  function Tiles<T>(items: seq<T>, limit: nat, pages: nat): seq<T> {
    if pages == 0 then []
    else Tiles(items, limit, pages - 1) + PageSlice(items, (pages - 1) * limit, limit).items
  }

  lemma NextPage<T>(items: seq<T>, done: nat, limit: nat)
    ensures items[..Min(done, |items|)] + PageSlice(items, done, limit).items == items[..Min(done + limit, |items|)]
  {
    var start := Min(done, |items|);
    assert items[..start] + items[start..Min(start + limit, |items|)] == items[..Min(start + limit, |items|)];
  }

  /** Consecutive pages of any positive limit tile the list exactly, with a constant total. */
  lemma {:induction false} PagesTile<T>(items: seq<T>, limit: nat, pages: nat)
    requires limit > 0
    ensures Tiles(items, limit, pages) == items[..Min(pages * limit, |items|)]
    ensures forall offset: nat :: PageSlice(items, offset, limit).total == |items|
  {
    if pages > 0 {
      PagesTile(items, limit, pages - 1);
      var done := (pages - 1) * limit;
      assert pages * limit == done + limit;
      NextPage(items, done, limit);
    }
  }

  /**
   For `start <= end` the query never panics, all its pages are slices of the one merged list
   (which `PagesTile` tiles), and a limit that reaches the end returns all of it.
   */
  lemma GlobalPages(data: Data, start: real, end: real, offset: nat, limit: nat) returns (list: seq<GlobalEvent>)
    requires WellFormed(data) && start <= end
    ensures Interleaves(list, InRange(data, Num(start), Num(end)))
    ensures GlobalEventsPage(data, start, end, offset, limit) == Some(PageSlice(list, offset, limit))
    ensures offset == 0 && |list| <= limit ==> PageSlice(list, offset, limit).items == list
  {
    list := Merge(SortedIds(data.Keys), InWindow(data, start, end));
    GlobalEventsComplete(data, start, end);
    WindowsAreRanges(data, start, end);
  }
}
