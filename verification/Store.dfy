/**
 The in-memory time-series store: per-aircraft vectors kept sorted by timestamp,
 and the queries over them.  Queries are functions of the store contents; the
 operations that change the store are methods of `TimeSeriesStore`.
 */
module Store {
  import opened Common
  import opened Sorting

  /** A hexadecimal aircraft UUID, as the number it spells: same order as the strings. */
  type AircraftId = nat

  /** A double: a number, an infinity, or not a number. */
  datatype Float = NaN | NegInf | Num(r: real) | PosInf

  datatype ValueType = F64 | I64 | Bool

  datatype TelemetryValue = F64Value(r: real) | I64Value(i: int) | BoolValue(b: bool) | Missing

  datatype Schema = Schema(streamId: string, fields: seq<ValueType>)

  datatype TelemetryFrame = TelemetryFrame(streamId: string, sequence: nat, values: seq<TelemetryValue>)

  datatype SpawnInfo = SpawnInfo(name: string, tomlConfig: string, schemas: seq<Schema>)

  datatype Event = Spawn(info: SpawnInfo) | Despawn | Custom(name: string)

  datatype Sample<+V> = Sample(t: real, value: V)

  datatype Config = Config(name: string, tomlConfig: string, schemas: seq<Schema>)

  datatype Series = Series(
    states: seq<Sample<Bytes>>,
    events: seq<Sample<Event>>,
    telemetry: seq<Sample<TelemetryFrame>>,
    config: Option<Config>)

  type Data = map<AircraftId, Series>

  datatype GlobalEvent = GlobalEvent(aircraft: AircraftId, t: real, event: Event)

  datatype Page<+T> = Page(items: seq<T>, total: nat, offset: nat, limit: nat)

  const EMPTY_SERIES := Series([], [], [], None)

  // ----- order and cuts ------------------------------------------------------

  function ByTime<V>(): (Sample<V>, Sample<V>) -> bool {
    (a: Sample<V>, b: Sample<V>) => a.t <= b.t
  }

  lemma ByTimeTotal<V(!new)>()
    ensures TotalPreorder(ByTime<V>())
  {
  }

  predicate AtMost(t: real, end: Float) {
    match end
    case NaN => false
    case NegInf => false
    case Num(r) => t <= r
    case PosInf => true
  }

  predicate AtLeast(t: real, start: Float) {
    match start
    case NaN => false
    case NegInf => true
    case Num(r) => r <= t
    case PosInf => false
  }

  function UpTo<V>(t: real): Sample<V> -> bool { (s: Sample<V>) => s.t <= t }

  function Before<V>(t: real): Sample<V> -> bool { (s: Sample<V>) => s.t < t }

  function Within<V>(start: Float, end: Float): Sample<V> -> bool {
    (s: Sample<V>) => AtLeast(s.t, start) && AtMost(s.t, end)
  }

  lemma CutsPartition<V(!new)>(s: seq<Sample<V>>, t: real)
    requires Sorted(s, ByTime())
    ensures forall i :: 0 <= i < |s| ==> (s[i].t <= t <==> i < PartitionPoint(s, UpTo(t)))
    ensures forall i :: 0 <= i < |s| ==> (s[i].t < t <==> i < PartitionPoint(s, Before(t)))
  {
    assert forall i, j :: 0 <= i < j < |s| ==> ByTime<V>()(s[i], s[j]);
    PartitionPointSplits(s, UpTo(t));
    PartitionPointSplits(s, Before(t));
  }

  // ----- queries -------------------------------------------------------------

  function SeriesOf(data: Data, id: AircraftId): Series {
    if id in data then data[id] else EMPTY_SERIES
  }

  /** `get_states_range` / `get_events_range`: the linear filter. */
  function Range<V>(s: seq<Sample<V>>, start: Float, end: Float): seq<Sample<V>> {
    Filter(s, Within(start, end))
  }

  /**
   The slice between the two binary-search bounds, as every page query takes it.
   `None` is the panic of a slice whose first index exceeds its last.
   */
  function Window<V>(s: seq<Sample<V>>, start: real, end: real): Option<seq<Sample<V>>> {
    var first := PartitionPoint(s, Before(start));
    var last := PartitionPoint(s, UpTo(end));
    if first <= last then Some(s[first..last]) else None
  }

  function PageSlice<T>(items: seq<T>, offset: nat, limit: nat): Page<T> {
    var start := Min(offset, |items|);
    var end := Min(start + limit, |items|);
    Page(items[start..end], |items|, offset, limit)
  }

  function AtOrBefore<V>(s: seq<Sample<V>>, t: Float): Option<Sample<V>> {
    if !t.Num? then None
    else
      var end := PartitionPoint(s, UpTo(t.r));
      if end == 0 then None else Some(s[end - 1])
  }

  /** Reverse scan for the last sample satisfying `p`. */
  function LastWhere<V>(s: seq<Sample<V>>, p: Sample<V> -> bool): Option<Sample<V>> {
    if s == [] then None
    else if p(s[|s| - 1]) then Some(s[|s| - 1])
    else LastWhere(s[..|s| - 1], p)
  }

  function IsLifecycle(): Sample<Event> -> bool {
    (s: Sample<Event>) => !s.value.Custom?
  }

  predicate SpawnedAt(events: seq<Sample<Event>>, t: Float) {
    var end := match t
      case PosInf => |events|
      case Num(r) => PartitionPoint(events, UpTo(r))
      case NegInf => 0
      case NaN => 0;
    match LastWhere(events[..end], IsLifecycle())
    case Some(entry) => entry.value.Spawn?
    case None => false
  }

  // ----- simple linear specifications ---------------------------------------

  /** The latest arrival satisfying `p`: greatest timestamp, last arrival among equals. */
  function LatestArrival<V>(arrivals: seq<Sample<V>>, p: Sample<V> -> bool): (r: Option<Sample<V>>)
    ensures r.Some? ==> p(r.value) && r.value in arrivals
    ensures r.Some? ==> forall a :: a in arrivals && p(a) ==> a.t <= r.value.t
    ensures r.None? ==> forall a :: a in arrivals ==> !p(a)
  {
    if arrivals == [] then None
    else
      var init, e := arrivals[..|arrivals| - 1], arrivals[|arrivals| - 1];
      var best := LatestArrival(init, p);
      assert arrivals == init + [e];
      if p(e) && (best.None? || best.value.t <= e.t) then Some(e) else best
  }

  lemma {:induction false} LastWhereSplit<V>(a: seq<Sample<V>>, b: seq<Sample<V>>, p: Sample<V> -> bool)
    ensures LastWhere(a + b, p) == if LastWhere(b, p).Some? then LastWhere(b, p) else LastWhere(a, p)
  {
    if b == [] {
      assert a + b == a;
    } else {
      assert (a + b)[..|a + b| - 1] == a + b[..|b| - 1];
      LastWhereSplit(a, b[..|b| - 1], p);
    }
  }

  lemma {:induction false} LastWhereFound<V>(s: seq<Sample<V>>, p: Sample<V> -> bool)
    ensures LastWhere(s, p).Some? ==> LastWhere(s, p).value in s && p(LastWhere(s, p).value)
    ensures LastWhere(s, p).None? ==> forall x :: x in s ==> !p(x)
  {
    if s != [] {
      LastWhereFound(s[..|s| - 1], p);
      assert s == s[..|s| - 1] + [s[|s| - 1]];
    }
  }

  lemma {:induction false} LastWhereFilter<V>(s: seq<Sample<V>>, p: Sample<V> -> bool)
    ensures LastWhere(s, p) == if Filter(s, p) == [] then None else Some(Filter(s, p)[|Filter(s, p)| - 1])
  {
    if s != [] {
      LastWhereFilter(s[..|s| - 1], p);
    }
  }

  lemma InsertThenReverseScan<V(!new)>(s: seq<Sample<V>>, e: Sample<V>, p: Sample<V> -> bool)
    requires Sorted(s, ByTime())
    ensures var last := LastWhere(s, p);
            LastWhere(Insert(s, e, ByTime()), p)
              == if p(e) && (last.None? || last.value.t <= e.t) then Some(e) else last
  {
    ByTimeTotal<V>();
    NotAfterPartitions(s, e, ByTime());
    var k := PartitionPoint(s, NotAfter(ByTime(), e));
    var a, c := s[..k], s[k..];
    assert s == a + c;
    forall x | x in c
      ensures e.t < x.t
    {
      var i :| 0 <= i < |c| && c[i] == x;
      assert c[i] == s[k + i] && !ByTime<V>()(s[k + i], e);
    }
    forall x | x in a
      ensures x.t <= e.t
    {
      var i :| 0 <= i < |a| && a[i] == x;
      assert a[i] == s[i] && ByTime<V>()(s[i], e);
    }
    LastWhereSplit(a, c, p);
    LastWhereSplit(a + [e], c, p);
    LastWhereSplit(a, [e], p);
    LastWhereFound(c, p);
    LastWhereFound(a, p);
    assert LastWhere([e], p) == if p(e) then Some(e) else None;
  }

  /**
   On a vector built by appends, a reverse scan finds the latest arrival: greatest
   timestamp first, and among equal timestamps the one that arrived last.
   */
  lemma {:induction false} ReverseScanIsLatestArrival<V(!new)>(arrivals: seq<Sample<V>>, p: Sample<V> -> bool)
    ensures LastWhere(StableSort(arrivals, ByTime()), p) == LatestArrival(arrivals, p)
  {
    if arrivals != [] {
      var init, e := arrivals[..|arrivals| - 1], arrivals[|arrivals| - 1];
      ByTimeTotal<V>();
      StableSortSpec(init, ByTime());
      ReverseScanIsLatestArrival(init, p);
      InsertThenReverseScan(StableSort(init, ByTime()), e, p);
    }
  }

  // ----- the fast queries equal the linear ones ------------------------------

  /** For `start <= end` the page window is exactly the linear filter. */
  lemma WindowIsFilter<V(!new)>(s: seq<Sample<V>>, start: real, end: real)
    requires Sorted(s, ByTime()) && start <= end
    ensures Window(s, start, end) == Some(Range(s, Num(start), Num(end)))
  {
    CutsPartition(s, start);
    CutsPartition(s, end);
    var first, last := PartitionPoint(s, Before(start)), PartitionPoint(s, UpTo(end));
    assert last < |s| ==> s[last].t > end;
    assert last < first ==> last < |s|;
    FilterMiddle(s, Within(Num(start), Num(end)), first, last);
  }

  /** The slice bounds cross, and the query panics, exactly when a timestamp lies strictly between. */
  lemma WindowPanicsIff<V(!new)>(s: seq<Sample<V>>, start: real, end: real)
    requires Sorted(s, ByTime())
    ensures Window(s, start, end).None? <==> exists i :: 0 <= i < |s| && end < s[i].t < start
  {
    CutsPartition(s, start);
    CutsPartition(s, end);
    var first, last := PartitionPoint(s, Before(start)), PartitionPoint(s, UpTo(end));
    if last < first {
      assert end < s[last].t < start;
    }
  }

  /** A caller who only knows its bounds is safe on every store iff `start <= end`. */
  lemma PageSafeIffOrdered(start: real, end: real)
    ensures (forall s: seq<Sample<Bytes>> :: Sorted(s, ByTime()) ==> Window(s, start, end).Some?) <==> start <= end
  {
    if start <= end {
      forall s: seq<Sample<Bytes>> | Sorted(s, ByTime())
        ensures Window(s, start, end).Some?
      {
        WindowIsFilter(s, start, end);
      }
    } else {
      var s: seq<Sample<Bytes>> := [Sample((start + end) / 2.0, [])];
      WindowPanicsIff(s, start, end);
      assert end < s[0].t < start;
      assert Sorted(s, ByTime()) && Window(s, start, end).None?;
    }
  }

  lemma UpToIsPrefix<V(!new)>(s: seq<Sample<V>>, t: real)
    requires Sorted(s, ByTime())
    ensures Range(s, NegInf, Num(t)) == s[..PartitionPoint(s, UpTo(t))]
  {
    CutsPartition(s, t);
    FilterPrefix(s, Within(NegInf, Num(t)), PartitionPoint(s, UpTo(t)));
  }

  /** `get_state_at_or_before`: the last arrival at the greatest timestamp not after the cursor. */
  lemma AtOrBeforeIsLatestArrival<V(!new)>(arrivals: seq<Sample<V>>, t: real)
    ensures AtOrBefore(StableSort(arrivals, ByTime()), Num(t)) == LatestArrival(arrivals, UpTo(t))
  {
    ByTimeTotal<V>();
    StableSortSpec(arrivals, ByTime());
    ReverseScanIsLatestArrival(arrivals, UpTo(t));
    AtOrBeforeIsReverseScan(StableSort(arrivals, ByTime()), t);
  }

  lemma AtOrBeforeIsReverseScan<V(!new)>(s: seq<Sample<V>>, t: real)
    requires Sorted(s, ByTime())
    ensures AtOrBefore(s, Num(t)) == LastWhere(s, UpTo(t))
  {
    CutsPartition(s, t);
    LastWhereFilter(s, UpTo<V>(t));
    FilterPrefix(s, UpTo(t), PartitionPoint(s, UpTo(t)));
  }

  function LifecycleUpTo(t: real): Sample<Event> -> bool {
    (s: Sample<Event>) => !s.value.Custom? && s.t <= t
  }

  lemma {:induction false} LastWhereOfFilter<V>(s: seq<Sample<V>>, p: Sample<V> -> bool, q: Sample<V> -> bool, both: Sample<V> -> bool)
    requires forall x :: both(x) == (p(x) && q(x))
    ensures LastWhere(Filter(s, p), q) == LastWhere(s, both)
  {
    if s != [] {
      LastWhereOfFilter(s[..|s| - 1], p, q, both);
      if p(s[|s| - 1]) {
        assert Filter(s, p)[..|Filter(s, p)| - 1] == Filter(s[..|s| - 1], p);
      }
    }
  }

  /** `is_spawned_at`: whether the latest lifecycle arrival at or before the cursor is a spawn. */
  lemma SpawnedAtIsLatestLifecycle(arrivals: seq<Sample<Event>>, t: real)
    ensures var latest := LatestArrival(arrivals, LifecycleUpTo(t));
            SpawnedAt(StableSort(arrivals, ByTime()), Num(t)) == (latest.Some? && latest.value.value.Spawn?)
  {
    var s := StableSort(arrivals, ByTime());
    ByTimeTotal<Event>();
    StableSortSpec(arrivals, ByTime());
    ReverseScanIsLatestArrival(arrivals, LifecycleUpTo(t));
    CutsPartition(s, t);
    FilterPrefix(s, UpTo(t), PartitionPoint(s, UpTo(t)));
    LastWhereOfFilter(s, UpTo(t), IsLifecycle(), LifecycleUpTo(t));
  }

  /** In live mode the cursor is infinite and the latest lifecycle arrival of all decides. */
  lemma SpawnedAtInfinity(arrivals: seq<Sample<Event>>)
    ensures var latest := LatestArrival(arrivals, IsLifecycle());
            SpawnedAt(StableSort(arrivals, ByTime()), PosInf) == (latest.Some? && latest.value.value.Spawn?)
  {
    var s := StableSort(arrivals, ByTime());
    ReverseScanIsLatestArrival(arrivals, IsLifecycle());
    assert s[..|s|] == s;
  }

  // ----- telemetry validation ------------------------------------------------

  predicate KindMatches(kind: ValueType, value: TelemetryValue) {
    match kind
    case F64 => value.F64Value?
    case I64 => value.I64Value?
    case Bool => value.BoolValue?
  }

  function FindSchema(schemas: seq<Schema>, streamId: string): Option<Schema> {
    if schemas == [] then None
    else if schemas[0].streamId == streamId then Some(schemas[0])
    else FindSchema(schemas[1..], streamId)
  }

  predicate FrameFits(schemas: seq<Schema>, frame: TelemetryFrame) {
    match FindSchema(schemas, frame.streamId)
    case None => false
    case Some(schema) =>
      && |frame.values| == |schema.fields|
      && forall i :: 0 <= i < |schema.fields| ==> KindMatches(schema.fields[i], frame.values[i])
  }

  /** The type of a value, when it has one. */
  function TypeOf(value: TelemetryValue): Option<ValueType> {
    match value
    case F64Value(_) => Some(F64)
    case I64Value(_) => Some(I64)
    case BoolValue(_) => Some(Bool)
    case Missing => None
  }

  /** Schema `k` is the first declared for the stream. */
  predicate FirstOf(schemas: seq<Schema>, streamId: string, k: nat) {
    && k < |schemas| && schemas[k].streamId == streamId
    && forall j :: 0 <= j < k ==> schemas[j].streamId != streamId
  }

  lemma {:induction false} FindsFirst(schemas: seq<Schema>, streamId: string)
    ensures var found := FindSchema(schemas, streamId);
            if found.Some? then exists k: nat :: FirstOf(schemas, streamId, k) && schemas[k] == found.value
            else forall k :: 0 <= k < |schemas| ==> schemas[k].streamId != streamId
  {
    if schemas != [] {
      if schemas[0].streamId == streamId {
        assert FirstOf(schemas, streamId, 0);
      } else {
        FindsFirst(schemas[1..], streamId);
        if FindSchema(schemas, streamId).Some? {
          var k: nat :| FirstOf(schemas[1..], streamId, k) && schemas[1..][k] == FindSchema(schemas, streamId).value;
          assert forall j :: 0 < j < k + 1 ==> schemas[j] == schemas[1..][j - 1];
          assert FirstOf(schemas, streamId, k + 1);
        }
      }
    }
  }

  /** A frame fits exactly when its stream is declared and the types of its values are, one by one, those of the first declaration. */
  lemma FrameFitsIff(schemas: seq<Schema>, frame: TelemetryFrame)
    ensures FrameFits(schemas, frame) <==>
            exists k: nat :: FirstOf(schemas, frame.streamId, k)
              && |frame.values| == |schemas[k].fields|
              && forall i :: 0 <= i < |frame.values| ==> TypeOf(frame.values[i]) == Some(schemas[k].fields[i])
  {
    FindsFirst(schemas, frame.streamId);
  }

  /** So it is refused for an unknown stream, for one value too few or too many, and for a single missing or mistyped value. */
  lemma FrameRefused(schemas: seq<Schema>, frame: TelemetryFrame, k: nat, i: nat)
    requires FirstOf(schemas, frame.streamId, k) ==>
               |frame.values| != |schemas[k].fields|
               || (i < |frame.values| && TypeOf(frame.values[i]) != Some(schemas[k].fields[i]))
    requires FirstOf(schemas, frame.streamId, k) || forall j :: 0 <= j < |schemas| ==> schemas[j].streamId != frame.streamId
    ensures !FrameFits(schemas, frame)
  {
    FrameFitsIff(schemas, frame);
  }

  function ConfigSchemas(config: Option<Config>): seq<Schema> {
    if config.Some? then config.value.schemas else []
  }

  function ConfigAfter(config: Option<Config>, event: Event): Option<Config> {
    match event
    case Spawn(info) => Some(Config(info.name, info.tomlConfig, info.schemas))
    case Despawn => config
    case Custom(_) => config
  }

  // ----- what one append does to the contents --------------------------------

  function WithState(data: Data, id: AircraftId, t: real, state: Bytes): Data {
    var series := SeriesOf(data, id);
    data[id := series.(states := Insert(series.states, Sample(t, state), ByTime()))]
  }

  function WithEvent(data: Data, id: AircraftId, t: real, event: Event): Data {
    var series := SeriesOf(data, id);
    data[id := series.(events := Insert(series.events, Sample(t, event), ByTime()),
                       config := ConfigAfter(series.config, event))]
  }

  predicate TelemetryAccepted(data: Data, id: AircraftId, frame: TelemetryFrame) {
    id in data && FrameFits(ConfigSchemas(data[id].config), frame)
  }

  function WithTelemetry(data: Data, id: AircraftId, t: real, frame: TelemetryFrame): Data
    requires id in data
  {
    data[id := data[id].(telemetry := Insert(data[id].telemetry, Sample(t, frame), ByTime()))]
  }

  /** Every vector of every aircraft is sorted by timestamp. */
  ghost predicate WellFormed(data: Data) {
    forall id :: id in data ==>
      && Sorted(data[id].states, ByTime())
      && Sorted(data[id].events, ByTime())
      && Sorted(data[id].telemetry, ByTime())
  }

  /** The append path of the source: push when not older than the last, else insert. */
  method AppendSorted<V(!new)>(s: seq<Sample<V>>, e: Sample<V>) returns (r: seq<Sample<V>>)
    requires Sorted(s, ByTime())
    ensures r == Insert(s, e, ByTime())
  {
    if s == [] || s[|s| - 1].t <= e.t {
      r := s + [e];
      ByTimeTotal<V>();
      InsertAtEnd(s, e, ByTime());
    } else {
      var at := PartitionPoint(s, NotAfter(ByTime(), e));
      r := s[..at] + [e] + s[at..];
    }
  }

  /** What has arrived for one aircraft, in arrival order. */
  datatype Arrivals = Arrivals(
    states: seq<Sample<Bytes>>, events: seq<Sample<Event>>, telemetry: seq<Sample<TelemetryFrame>>)

  const NO_ARRIVALS := Arrivals([], [], [])

  ghost function ArrivalsOf(history: map<AircraftId, Arrivals>, id: AircraftId): Arrivals {
    if id in history then history[id] else NO_ARRIVALS
  }

  /** The contents are the stable sort of the arrivals, vector by vector. */
  ghost predicate Represents(data: Data, history: map<AircraftId, Arrivals>) {
    && data.Keys == history.Keys
    && forall id :: id in data ==>
         && data[id].states == StableSort(history[id].states, ByTime())
         && data[id].events == StableSort(history[id].events, ByTime())
         && data[id].telemetry == StableSort(history[id].telemetry, ByTime())
  }

  lemma RepresentsSorted(data: Data, history: map<AircraftId, Arrivals>)
    requires Represents(data, history)
    ensures WellFormed(data)
  {
    ByTimeTotal<Bytes>();
    ByTimeTotal<Event>();
    ByTimeTotal<TelemetryFrame>();
    forall id | id in data
      ensures Sorted(data[id].states, ByTime()) && Sorted(data[id].events, ByTime()) && Sorted(data[id].telemetry, ByTime())
    {
      StableSortSpec(history[id].states, ByTime());
      StableSortSpec(history[id].events, ByTime());
      StableSortSpec(history[id].telemetry, ByTime());
    }
  }

  lemma StableSortNext<V>(arrivals: seq<Sample<V>>, e: Sample<V>)
    ensures StableSort(arrivals + [e], ByTime()) == Insert(StableSort(arrivals, ByTime()), e, ByTime())
  {
    assert (arrivals + [e])[..|arrivals + [e]| - 1] == arrivals;
  }

  lemma RepresentsUpdate(data: Data, history: map<AircraftId, Arrivals>, id: AircraftId, series: Series, arrived: Arrivals)
    requires Represents(data, history)
    requires series.states == StableSort(arrived.states, ByTime())
    requires series.events == StableSort(arrived.events, ByTime())
    requires series.telemetry == StableSort(arrived.telemetry, ByTime())
    ensures Represents(data[id := series], history[id := arrived])
  {
  }

  class TimeSeriesStore {
    var data: Data
    ghost var history: map<AircraftId, Arrivals>

    ghost predicate Valid()
      reads this
    {
      Represents(data, history)
    }

    constructor ()
      ensures Valid() && data == map[] && history == map[]
    {
      data := map[];
      history := map[];
    }

    method AppendState(id: AircraftId, t: Float, state: Bytes)
      requires Valid()
      modifies this
      ensures Valid()
      ensures !t.Num? ==> data == old(data) && history == old(history)
      ensures t.Num? ==> data == WithState(old(data), id, t.r, state)
      ensures t.Num? ==>
        var was := ArrivalsOf(old(history), id);
        history == old(history)[id := was.(states := was.states + [Sample(t.r, state)])]
    {
      if !t.Num? {
        return;
      }
      RepresentsSorted(data, history);
      var series := SeriesOf(data, id);
      ghost var was := ArrivalsOf(history, id);
      StableSortNext(was.states, Sample(t.r, state));
      var states := AppendSorted(series.states, Sample(t.r, state));
      RepresentsUpdate(data, history, id, series.(states := states), was.(states := was.states + [Sample(t.r, state)]));
      data := data[id := series.(states := states)];
      history := history[id := was.(states := was.states + [Sample(t.r, state)])];
    }

    method AppendEvent(id: AircraftId, t: Float, event: Event)
      requires Valid()
      modifies this
      ensures Valid()
      ensures !t.Num? ==> data == old(data) && history == old(history)
      ensures t.Num? ==> data == WithEvent(old(data), id, t.r, event)
      ensures t.Num? ==>
        var was := ArrivalsOf(old(history), id);
        history == old(history)[id := was.(events := was.events + [Sample(t.r, event)])]
    {
      if !t.Num? {
        return;
      }
      RepresentsSorted(data, history);
      var series := SeriesOf(data, id);
      if event.Spawn? {
        series := series.(config := Some(Config(event.info.name, event.info.tomlConfig, event.info.schemas)));
      }
      ghost var was := ArrivalsOf(history, id);
      StableSortNext(was.events, Sample(t.r, event));
      var events := AppendSorted(series.events, Sample(t.r, event));
      RepresentsUpdate(data, history, id, series.(events := events), was.(events := was.events + [Sample(t.r, event)]));
      data := data[id := series.(events := events)];
      history := history[id := was.(events := was.events + [Sample(t.r, event)])];
    }

    method AppendTelemetry(id: AircraftId, t: Float, frame: TelemetryFrame) returns (ok: bool)
      requires Valid()
      modifies this
      ensures Valid()
      ensures ok == (t.Num? && TelemetryAccepted(old(data), id, frame))
      ensures !ok ==> data == old(data) && history == old(history)
      ensures ok ==> data == WithTelemetry(old(data), id, t.r, frame)
      ensures ok ==>
        var was := ArrivalsOf(old(history), id);
        history == old(history)[id := was.(telemetry := was.telemetry + [Sample(t.r, frame)])]
    {
      if !t.Num? || id !in data {
        return false;
      }
      var series := data[id];
      if !FrameFits(ConfigSchemas(series.config), frame) {
        return false;
      }
      RepresentsSorted(data, history);
      ghost var was := ArrivalsOf(history, id);
      StableSortNext(was.telemetry, Sample(t.r, frame));
      var telemetry := AppendSorted(series.telemetry, Sample(t.r, frame));
      RepresentsUpdate(data, history, id, series.(telemetry := telemetry), was.(telemetry := was.telemetry + [Sample(t.r, frame)]));
      data := data[id := series.(telemetry := telemetry)];
      history := history[id := was.(telemetry := was.telemetry + [Sample(t.r, frame)])];
      ok := true;
    }

    /** Remove all in-memory data. */
    method Clear()
      modifies this
      ensures Valid() && data == map[] && history == map[]
    {
      data := map[];
      history := map[];
    }
  }
}
