/**
 Saving a store as row tables and loading it back by appending the rows: when the
 round trip gives back the same store, and why a failed load changes nothing.
 */
module SaveLoad {
  import opened Common
  import opened Sorting
  import opened Store
  import opened Timeline

  datatype Row<+V> = Row(id: AircraftId, t: real, value: V)

  datatype MetaAircraft = MetaAircraft(id: AircraftId, name: Option<string>, tomlConfig: Option<string>)

  /** The three row tables and the metadata file. */
  datatype Saved = Saved(
    states: seq<Row<Bytes>>, events: seq<Row<Event>>, telemetry: seq<Row<TelemetryFrame>>, meta: seq<MetaAircraft>)

  // ----- what is saved ----------------------------------------------------------------

  function Rows<V>(id: AircraftId, s: seq<Sample<V>>): seq<Row<V>> {
    if s == [] then [] else Rows(id, s[..|s| - 1]) + [Row(id, s[|s| - 1].t, s[|s| - 1].value)]
  }

  /** One table: the rows of every aircraft, in the order in which the map is iterated. */
  function Table<V>(order: seq<AircraftId>, per: AircraftId -> seq<Sample<V>>): seq<Row<V>> {
    if order == [] then []
    else Table(order[..|order| - 1], per) + Rows(order[|order| - 1], per(order[|order| - 1]))
  }

  /** Any order in which the map may be iterated. */
  ghost predicate IsOrder(order: seq<AircraftId>, ids: set<AircraftId>) {
    && (forall i, j :: 0 <= i < j < |order| ==> order[i] != order[j])
    && (forall x :: x in order <==> x in ids)
  }

  ghost predicate IsTable<V>(rows: seq<Row<V>>, ids: set<AircraftId>, per: AircraftId -> seq<Sample<V>>) {
    exists order :: IsOrder(order, ids) && rows == Table(order, per)
  }

  function StatesOf(data: Data): AircraftId -> seq<Sample<Bytes>> { (x: AircraftId) => SeriesOf(data, x).states }

  function EventsOf(data: Data): AircraftId -> seq<Sample<Event>> { (x: AircraftId) => SeriesOf(data, x).events }

  function TelemetryOf(data: Data): AircraftId -> seq<Sample<TelemetryFrame>> { (x: AircraftId) => SeriesOf(data, x).telemetry }

  function MetaOf(data: Data, id: AircraftId): MetaAircraft {
    match SeriesOf(data, id).config
    case None => MetaAircraft(id, None, None)
    case Some(config) => MetaAircraft(id, Some(config.name), Some(config.tomlConfig))
  }

  function Metas(data: Data, order: seq<AircraftId>): seq<MetaAircraft> {
    if order == [] then [] else Metas(data, order[..|order| - 1]) + [MetaOf(data, order[|order| - 1])]
  }

  ghost predicate IsSaveOf(saved: Saved, data: Data) {
    && IsTable(saved.states, data.Keys, StatesOf(data))
    && IsTable(saved.events, data.Keys, EventsOf(data))
    && IsTable(saved.telemetry, data.Keys, TelemetryOf(data))
    && saved.meta == Metas(data, SortedIds(data.Keys))
  }

  method WriteRows<V>(rows: seq<Row<V>>, id: AircraftId, samples: seq<Sample<V>>) returns (r: seq<Row<V>>)
    ensures r == rows + Rows(id, samples)
  {
    r := rows;
    for i := 0 to |samples|
      invariant r == rows + Rows(id, samples[..i])
    {
      assert samples[..i + 1][..i] == samples[..i];
      r := r + [Row(id, samples[i].t, samples[i].value)];
    }
    assert samples[..|samples|] == samples;
  }

  method WriteTable<V>(data: Data, per: AircraftId -> seq<Sample<V>>) returns (rows: seq<Row<V>>)
    ensures IsTable(rows, data.Keys, per)
  {
    rows := [];
    ghost var order: seq<AircraftId> := [];
    var ids := data.Keys;
    while ids != {}
      invariant ids <= data.Keys && IsOrder(order, data.Keys - ids) && rows == Table(order, per)
      decreases |ids|
    {
      SomeMember(ids);
      var id :| id in ids;
      rows := WriteRows(rows, id, per(id));
      assert (order + [id])[..|order|] == order;
      order := order + [id];
      ids := ids - {id};
    }
    assert data.Keys - ids == data.Keys;
  }

  method SaveToDisk(data: Data) returns (saved: Saved)
    ensures IsSaveOf(saved, data)
  {
    var order := SortedIds(data.Keys);
    var meta: seq<MetaAircraft> := [];
    for i := 0 to |order|
      invariant meta == Metas(data, order[..i])
    {
      assert order[..i + 1][..i] == order[..i];
      meta := meta + [MetaOf(data, order[i])];
    }
    assert order[..|order|] == order;
    var states := WriteTable(data, StatesOf(data));
    var events := WriteTable(data, EventsOf(data));
    var telemetry := WriteTable(data, TelemetryOf(data));
    saved := Saved(states, events, telemetry, meta);
  }

  // ----- what loading does ---------------------------------------------------------------

  function Folded<S, R>(start: S, rows: seq<R>, step: (S, R) -> S): S {
    if rows == [] then start else step(Folded(start, rows[..|rows| - 1], step), rows[|rows| - 1])
  }

  lemma {:induction false} FoldedConcat<S, R>(start: S, a: seq<R>, b: seq<R>, step: (S, R) -> S)
    ensures Folded(start, a + b, step) == Folded(Folded(start, a, step), b, step)
  {
    if b == [] {
      assert a + b == a;
    } else {
      FoldedConcat(start, a, b[..|b| - 1], step);
      assert (a + b)[..|a + b| - 1] == a + b[..|b| - 1];
    }
  }

  function StateStep(): (Data, Row<Bytes>) -> Data {
    (d: Data, row: Row<Bytes>) => WithState(d, row.id, row.t, row.value)
  }

  function EventStep(): (Data, Row<Event>) -> Data {
    (d: Data, row: Row<Event>) => WithEvent(d, row.id, row.t, row.value)
  }

  /** The first rejected frame fails the whole load. */
  function TelemetryStep(): (Option<Data>, Row<TelemetryFrame>) -> Option<Data> {
    (d: Option<Data>, row: Row<TelemetryFrame>) =>
      if d.Some? && TelemetryAccepted(d.value, row.id, row.value) then Some(WithTelemetry(d.value, row.id, row.t, row.value))
      else None
  }

  function MetaStep(): (Data, MetaAircraft) -> Data {
    (d: Data, meta: MetaAircraft) => WithMeta(d, meta)
  }

  function AppendStates(d: Data, rows: seq<Row<Bytes>>): Data {
    Folded(d, rows, StateStep())
  }

  function AppendEvents(d: Data, rows: seq<Row<Event>>): Data {
    Folded(d, rows, EventStep())
  }

  function AppendTelemetry(d: Option<Data>, rows: seq<Row<TelemetryFrame>>): Option<Data> {
    Folded(d, rows, TelemetryStep())
  }

  /** Name and configuration text come from the metadata, the schemas stay those of the events. */
  function WithMeta(d: Data, meta: MetaAircraft): Data {
    if meta.id in d && meta.name.Some? && meta.tomlConfig.Some? then
      d[meta.id := d[meta.id].(config := Some(Config(meta.name.value, meta.tomlConfig.value, ConfigSchemas(d[meta.id].config))))]
    else d
  }

  function ApplyMeta(d: Data, metas: seq<MetaAircraft>): Data {
    Folded(d, metas, MetaStep())
  }

  function Load(saved: Saved): Option<Data> {
    match AppendTelemetry(Some(AppendEvents(AppendStates(map[], saved.states), saved.events)), saved.telemetry)
    case None => None
    case Some(d) => Some(ApplyMeta(d, saved.meta))
  }

  method ReadStates(store: TimeSeriesStore, rows: seq<Row<Bytes>>)
    requires store.Valid()
    modifies store
    ensures store.Valid() && store.data == AppendStates(old(store.data), rows)
  {
    for i := 0 to |rows|
      invariant store.Valid() && store.data == AppendStates(old(store.data), rows[..i])
    {
      assert rows[..i + 1][..i] == rows[..i];
      store.AppendState(rows[i].id, Num(rows[i].t), rows[i].value);
    }
    assert rows[..|rows|] == rows;
  }

  method ReadEvents(store: TimeSeriesStore, rows: seq<Row<Event>>)
    requires store.Valid()
    modifies store
    ensures store.Valid() && store.data == AppendEvents(old(store.data), rows)
  {
    for i := 0 to |rows|
      invariant store.Valid() && store.data == AppendEvents(old(store.data), rows[..i])
    {
      assert rows[..i + 1][..i] == rows[..i];
      store.AppendEvent(rows[i].id, Num(rows[i].t), rows[i].value);
    }
    assert rows[..|rows|] == rows;
  }

  method ReadTelemetry(store: TimeSeriesStore, rows: seq<Row<TelemetryFrame>>) returns (ok: bool)
    requires store.Valid()
    modifies store
    ensures store.Valid() && ok == AppendTelemetry(Some(old(store.data)), rows).Some?
    ensures ok ==> Some(store.data) == AppendTelemetry(Some(old(store.data)), rows)
  {
    for i := 0 to |rows|
      invariant store.Valid() && Some(store.data) == AppendTelemetry(Some(old(store.data)), rows[..i])
    {
      assert rows[..i + 1][..i] == rows[..i];
      ok := store.AppendTelemetry(rows[i].id, Num(rows[i].t), rows[i].value);
      if !ok {
        TelemetryFails(Some(old(store.data)), rows, i + 1);
        return;
      }
    }
    assert rows[..|rows|] == rows;
    ok := true;
  }

  lemma MetaRepresents(d: Data, history: map<AircraftId, Arrivals>, meta: MetaAircraft)
    requires Represents(d, history)
    ensures Represents(WithMeta(d, meta), history)
  {
    MetaLeavesVectors(d, meta);
    SameVectorsRepresent(d, WithMeta(d, meta), history);
  }

  lemma MetaLeavesVectors(d: Data, meta: MetaAircraft)
    ensures var e := WithMeta(d, meta);
            && e.Keys == d.Keys
            && forall id | id in e ::
                 e[id].states == d[id].states && e[id].events == d[id].events && e[id].telemetry == d[id].telemetry
  {
  }

  lemma SameVectorsRepresent(d: Data, e: Data, history: map<AircraftId, Arrivals>)
    requires Represents(d, history) && e.Keys == d.Keys
    requires forall id | id in e ::
               e[id].states == d[id].states && e[id].events == d[id].events && e[id].telemetry == d[id].telemetry
    ensures Represents(e, history)
  {
  }

  method ReadMeta(store: TimeSeriesStore, metas: seq<MetaAircraft>)
    requires store.Valid()
    modifies store
    ensures store.Valid() && store.data == ApplyMeta(old(store.data), metas)
  {
    for i := 0 to |metas|
      invariant store.Valid() && store.data == ApplyMeta(old(store.data), metas[..i])
    {
      assert metas[..i + 1][..i] == metas[..i];
      MetaRepresents(store.data, store.history, metas[i]);
      store.data := WithMeta(store.data, metas[i]);
    }
    assert metas[..|metas|] == metas;
  }

  /** The load reads into a fresh store and replaces the contents only at the end. */
  method LoadFromDisk(store: TimeSeriesStore, saved: Saved) returns (ok: bool)
    requires store.Valid()
    modifies store
    ensures store.Valid()
    ensures ok == Load(saved).Some?
    ensures store.data == if ok then Load(saved).value else old(store.data)
  {
    var loaded := new TimeSeriesStore();
    ReadStates(loaded, saved.states);
    ReadEvents(loaded, saved.events);
    ok := ReadTelemetry(loaded, saved.telemetry);
    if ok {
      ReadMeta(loaded, saved.meta);
      store.data, store.history := loaded.data, loaded.history;
    }
  }

  lemma {:induction false} TelemetryFails(d: Option<Data>, rows: seq<Row<TelemetryFrame>>, k: nat)
    requires k <= |rows| && AppendTelemetry(d, rows[..k]).None?
    ensures AppendTelemetry(d, rows).None?
    decreases |rows| - k
  {
    if k == |rows| {
      assert rows[..k] == rows;
    } else {
      assert rows[..k + 1][..k] == rows[..k];
      TelemetryFails(d, rows, k + 1);
    }
  }

  // ----- one table, aircraft by aircraft ---------------------------------------------------

  /** Updating the touched aircraft one after the other. */
  function Pass(d: Data, order: seq<AircraftId>, touched: set<AircraftId>, effect: (AircraftId, Series) -> Series): Data {
    if order == [] then d
    else
      var e, id := Pass(d, order[..|order| - 1], touched, effect), order[|order| - 1];
      if id in touched then e[id := effect(id, SeriesOf(e, id))] else e
  }

  /** In whatever order, each touched aircraft is updated exactly once. */
  lemma {:induction false} PassSpec(d: Data, order: seq<AircraftId>, touched: set<AircraftId>, effect: (AircraftId, Series) -> Series)
    requires forall i, j :: 0 <= i < j < |order| ==> order[i] != order[j]
    ensures forall x :: x in Pass(d, order, touched, effect) <==> x in d || (x in order && x in touched)
    ensures forall x :: x in Pass(d, order, touched, effect) ==>
              Pass(d, order, touched, effect)[x] == if x in order && x in touched then effect(x, SeriesOf(d, x)) else d[x]
  {
    if order != [] {
      var init, id := order[..|order| - 1], order[|order| - 1];
      PassSpec(d, init, touched, effect);
      assert order == init + [id];
      assert id !in init;
    }
  }

  /** Appending to a sorted vector what comes last in it puts it back. */
  lemma LastGoesLast<V(!new)>(s: seq<Sample<V>>)
    requires Sorted(s, ByTime()) && s != []
    ensures Sorted(s[..|s| - 1], ByTime()) && Insert(s[..|s| - 1], s[|s| - 1], ByTime()) == s
  {
    var init := s[..|s| - 1];
    assert init != [] ==> ByTime<V>()(s[|s| - 2], s[|s| - 1]);
    ByTimeTotal<V>();
    InsertAtEnd(init, s[|s| - 1], ByTime());
  }

  /** The contents after the samples `s` of one aircraft have been put in. */
  function OneState(d: Data, id: AircraftId, s: seq<Sample<Bytes>>): Data {
    if s == [] then d else d[id := SeriesOf(d, id).(states := s)]
  }

  function OneEvents(d: Data, id: AircraftId, s: seq<Sample<Event>>): Data {
    if s == [] then d else d[id := SeriesOf(d, id).(events := s, config := ConfigFolded(SeriesOf(d, id).config, s))]
  }

  lemma StateGoesLast(d: Data, id: AircraftId, s: seq<Sample<Bytes>>)
    requires Sorted(s, ByTime()) && s != [] && SeriesOf(d, id).states == []
    ensures WithState(OneState(d, id, s[..|s| - 1]), id, s[|s| - 1].t, s[|s| - 1].value) == OneState(d, id, s)
  {
    LastGoesLast(s);
    var init, last := s[..|s| - 1], s[|s| - 1];
    assert SeriesOf(OneState(d, id, init), id) == SeriesOf(d, id).(states := init);
    assert Sample(last.t, last.value) == last;
  }

  lemma {:induction false} StatesOfOne(d: Data, id: AircraftId, s: seq<Sample<Bytes>>)
    requires Sorted(s, ByTime()) && SeriesOf(d, id).states == []
    ensures AppendStates(d, Rows(id, s)) == OneState(d, id, s)
  {
    if s != [] {
      LastGoesLast(s);
      StatesOfOne(d, id, s[..|s| - 1]);
      RowsLast(id, s);
      StateGoesLast(d, id, s);
    }
  }

  lemma RowsLast<V>(id: AircraftId, s: seq<Sample<V>>)
    requires s != []
    ensures var rows := Rows(id, s);
            && rows != [] && rows[|rows| - 1] == Row(id, s[|s| - 1].t, s[|s| - 1].value)
            && rows[..|rows| - 1] == Rows(id, s[..|s| - 1])
  {
  }

  /** The configuration after the events of `s` have arrived in that order. */
  function ConfigFolded(config: Option<Config>, s: seq<Sample<Event>>): Option<Config> {
    if s == [] then config else ConfigAfter(ConfigFolded(config, s[..|s| - 1]), s[|s| - 1].value)
  }

  lemma EventGoesLast(d: Data, id: AircraftId, s: seq<Sample<Event>>)
    requires Sorted(s, ByTime()) && s != [] && SeriesOf(d, id).events == []
    ensures WithEvent(OneEvents(d, id, s[..|s| - 1]), id, s[|s| - 1].t, s[|s| - 1].value) == OneEvents(d, id, s)
  {
    LastGoesLast(s);
    var init, last := s[..|s| - 1], s[|s| - 1];
    assert SeriesOf(OneEvents(d, id, init), id)
        == SeriesOf(d, id).(events := init, config := ConfigFolded(SeriesOf(d, id).config, init));
    assert Sample(last.t, last.value) == last;
  }

  lemma {:induction false} EventsOfOne(d: Data, id: AircraftId, s: seq<Sample<Event>>)
    requires Sorted(s, ByTime()) && SeriesOf(d, id).events == []
    ensures AppendEvents(d, Rows(id, s)) == OneEvents(d, id, s)
  {
    if s != [] {
      LastGoesLast(s);
      EventsOfOne(d, id, s[..|s| - 1]);
      RowsLast(id, s);
      EventGoesLast(d, id, s);
    }
  }

  predicate AllFit(schemas: seq<Schema>, s: seq<Sample<TelemetryFrame>>) {
    forall i :: 0 <= i < |s| ==> FrameFits(schemas, s[i].value)
  }

  lemma FrameGoesLast(d: Data, id: AircraftId, s: seq<Sample<TelemetryFrame>>)
    requires Sorted(s, ByTime()) && s != [] && id in d
    ensures var e := d[id := d[id].(telemetry := s[..|s| - 1])];
            && WithTelemetry(e, id, s[|s| - 1].t, s[|s| - 1].value) == d[id := d[id].(telemetry := s)]
            && TelemetryAccepted(e, id, s[|s| - 1].value) == FrameFits(ConfigSchemas(d[id].config), s[|s| - 1].value)
  {
    LastGoesLast(s);
    assert Sample(s[|s| - 1].t, s[|s| - 1].value) == s[|s| - 1];
  }

  lemma {:induction false} TelemetryOfOne(d: Data, id: AircraftId, s: seq<Sample<TelemetryFrame>>)
    requires Sorted(s, ByTime()) && id in d && d[id].telemetry == []
    ensures AppendTelemetry(Some(d), Rows(id, s))
              == if AllFit(ConfigSchemas(d[id].config), s) then Some(d[id := d[id].(telemetry := s)]) else None
  {
    if s == [] {
      assert d[id].(telemetry := []) == d[id];
      assert d[id := d[id]] == d;
    } else {
      LastGoesLast(s);
      TelemetryOfOne(d, id, s[..|s| - 1]);
      RowsLast(id, s);
      FitNext(ConfigSchemas(d[id].config), s);
      FrameGoesLast(d, id, s);
    }
  }

  lemma FitNext(schemas: seq<Schema>, s: seq<Sample<TelemetryFrame>>)
    requires s != []
    ensures AllFit(schemas, s) <==> AllFit(schemas, s[..|s| - 1]) && FrameFits(schemas, s[|s| - 1].value)
  {
    var init := s[..|s| - 1];
    assert forall i :: 0 <= i < |init| ==> init[i] == s[i];
  }

  // ----- the three passes --------------------------------------------------------------------

  function StateEffect(data: Data): (AircraftId, Series) -> Series {
    (x: AircraftId, s: Series) => s.(states := SeriesOf(data, x).states)
  }

  function EventEffect(data: Data): (AircraftId, Series) -> Series {
    (x: AircraftId, s: Series) => s.(events := SeriesOf(data, x).events, config := ConfigFolded(s.config, SeriesOf(data, x).events))
  }

  function TelemetryEffect(data: Data): (AircraftId, Series) -> Series {
    (x: AircraftId, s: Series) => s.(telemetry := SeriesOf(data, x).telemetry)
  }

  function MetaEffect(data: Data): (AircraftId, Series) -> Series {
    (x: AircraftId, s: Series) =>
      match SeriesOf(data, x).config
      case None => s
      case Some(config) => s.(config := Some(Config(config.name, config.tomlConfig, ConfigSchemas(s.config))))
  }

  function WithStates(data: Data): set<AircraftId> { set x | x in data && data[x].states != [] }

  function WithEvents(data: Data): set<AircraftId> { set x | x in data && data[x].events != [] }

  lemma {:induction false} StatesPass(data: Data, d: Data, order: seq<AircraftId>)
    requires WellFormed(data) && (forall x: AircraftId :: SeriesOf(d, x).states == [])
    requires forall i, j :: 0 <= i < j < |order| ==> order[i] != order[j]
    ensures AppendStates(d, Table(order, StatesOf(data))) == Pass(d, order, WithStates(data), StateEffect(data))
  {
    if order != [] {
      var init, id := order[..|order| - 1], order[|order| - 1];
      StatesPass(data, d, init);
      FoldedConcat(d, Table(init, StatesOf(data)), Rows(id, SeriesOf(data, id).states), StateStep());
      PassSpec(d, init, WithStates(data), StateEffect(data));
      var e := Pass(d, init, WithStates(data), StateEffect(data));
      assert SeriesOf(d, id).states == [];
      assert SeriesOf(e, id).states == [];
      StatesOfOne(e, id, SeriesOf(data, id).states);
    }
  }

  lemma {:induction false} EventsPass(data: Data, d: Data, order: seq<AircraftId>)
    requires WellFormed(data) && (forall x: AircraftId :: SeriesOf(d, x).events == [])
    requires forall i, j :: 0 <= i < j < |order| ==> order[i] != order[j]
    ensures AppendEvents(d, Table(order, EventsOf(data))) == Pass(d, order, WithEvents(data), EventEffect(data))
  {
    if order != [] {
      var init, id := order[..|order| - 1], order[|order| - 1];
      EventsPass(data, d, init);
      FoldedConcat(d, Table(init, EventsOf(data)), Rows(id, SeriesOf(data, id).events), EventStep());
      PassSpec(d, init, WithEvents(data), EventEffect(data));
      var e := Pass(d, init, WithEvents(data), EventEffect(data));
      assert SeriesOf(d, id).events == [];
      assert SeriesOf(e, id).events == [];
      EventsOfOne(e, id, SeriesOf(data, id).events);
    }
  }

  predicate FitsIn(data: Data, d: Data, x: AircraftId) {
    AllFit(ConfigSchemas(SeriesOf(d, x).config), SeriesOf(data, x).telemetry)
  }

  lemma {:induction false} RejectedStays(rows: seq<Row<TelemetryFrame>>)
    ensures AppendTelemetry(None, rows) == None
  {
    if rows != [] {
      RejectedStays(rows[..|rows| - 1]);
    }
  }

  lemma TelemetryNext(data: Data, d: Data, e: Data, init: seq<AircraftId>, id: AircraftId)
    requires WellFormed(data) && id in d && id in e && e[id] == d[id] && d[id].telemetry == []
    requires e == Pass(d, init, d.Keys, TelemetryEffect(data))
    ensures AppendTelemetry(Some(e), Rows(id, SeriesOf(data, id).telemetry))
              == if FitsIn(data, d, id) then Some(Pass(d, init + [id], d.Keys, TelemetryEffect(data))) else None
  {
    assert (init + [id])[..|init|] == init;
    TelemetryOfOne(e, id, SeriesOf(data, id).telemetry);
  }

  predicate AllFitIn(data: Data, d: Data, order: seq<AircraftId>) {
    forall x :: x in order ==> FitsIn(data, d, x)
  }

  lemma {:induction false} TelemetryPass(data: Data, d: Data, order: seq<AircraftId>)
    requires WellFormed(data) && (forall x :: x in order ==> x in d && d[x].telemetry == [])
    requires forall i, j :: 0 <= i < j < |order| ==> order[i] != order[j]
    ensures AppendTelemetry(Some(d), Table(order, TelemetryOf(data)))
              == if AllFitIn(data, d, order) then Some(Pass(d, order, d.Keys, TelemetryEffect(data))) else None
  {
    if order != [] {
      var init, id := order[..|order| - 1], order[|order| - 1];
      assert order == init + [id];
      TelemetryPass(data, d, init);
      FoldedConcat(Some(d), Table(init, TelemetryOf(data)), Rows(id, SeriesOf(data, id).telemetry), TelemetryStep());
      if AllFitIn(data, d, init) {
        PassSpec(d, init, d.Keys, TelemetryEffect(data));
        TelemetryNext(data, d, Pass(d, init, d.Keys, TelemetryEffect(data)), init, id);
      } else {
        RejectedStays(Rows(id, SeriesOf(data, id).telemetry));
      }
    }
  }

  lemma {:induction false} MetaPass(data: Data, d: Data, order: seq<AircraftId>)
    requires forall x :: x in order ==> x in d
    requires forall i, j :: 0 <= i < j < |order| ==> order[i] != order[j]
    ensures ApplyMeta(d, Metas(data, order)) == Pass(d, order, d.Keys, MetaEffect(data))
  {
    if order != [] {
      var init, id := order[..|order| - 1], order[|order| - 1];
      assert order == init + [id];
      MetaPass(data, d, init);
      PassSpec(d, init, d.Keys, MetaEffect(data));
      var metas := Metas(data, order);
      assert metas[..|metas| - 1] == Metas(data, init) && metas[|metas| - 1] == MetaOf(data, id);
    }
  }

  // ----- the round trip -----------------------------------------------------------------------

  predicate HasSpawn(s: seq<Sample<Event>>) {
    exists i :: 0 <= i < |s| && s[i].value.Spawn?
  }

  /** Some spawn among `s` carries exactly these schemas. */
  predicate SpawnCarries(s: seq<Sample<Event>>, schemas: seq<Schema>) {
    exists i :: 0 <= i < |s| && s[i].value.Spawn? && s[i].value.info.schemas == schemas
  }

  predicate FitsSomeSpawn(s: seq<Sample<Event>>, frame: TelemetryFrame) {
    exists i :: 0 <= i < |s| && s[i].value.Spawn? && FrameFits(s[i].value.info.schemas, frame)
  }

  /** What every store built by appends satisfies, aircraft by aircraft. */
  ghost predicate SoundSeries(series: Series) {
    && (series.states != [] || series.events != [])
    && (series.config.Some? <==> HasSpawn(series.events))
    && (series.config.Some? ==> SpawnCarries(series.events, series.config.value.schemas))
    && (forall i :: 0 <= i < |series.telemetry| ==> FitsSomeSpawn(series.events, series.telemetry[i].value))
  }

  ghost predicate Sound(data: Data) {
    WellFormed(data) && forall x :: x in data ==> SoundSeries(data[x])
  }

  lemma InsertHolds<V(!new)>(s: seq<Sample<V>>, e: Sample<V>)
    requires Sorted(s, ByTime())
    ensures Sorted(Insert(s, e, ByTime()), ByTime())
    ensures e in Insert(s, e, ByTime()) && forall x :: x in s ==> x in Insert(s, e, ByTime())
    ensures forall x :: x in Insert(s, e, ByTime()) ==> x == e || x in s
  {
    ByTimeTotal<V>();
    InsertSorted(s, e, ByTime());
    var r := Insert(s, e, ByTime());
    assert forall x :: x in r <==> x in multiset(r);
    assert forall x :: x in s <==> x in multiset(s);
  }

  lemma StateSound(data: Data, id: AircraftId, t: real, state: Bytes)
    requires Sound(data)
    ensures Sound(WithState(data, id, t, state))
  {
    InsertHolds(SeriesOf(data, id).states, Sample(t, state));
  }

  lemma EventSoundSeries(series: Series, e: Sample<Event>)
    requires Sorted(series.events, ByTime()) && (SoundSeries(series) || series == EMPTY_SERIES)
    ensures SoundSeries(series.(events := Insert(series.events, e, ByTime()), config := ConfigAfter(series.config, e.value)))
  {
    var after := Insert(series.events, e, ByTime());
    InsertHolds(series.events, e);
    forall i | 0 <= i < |series.telemetry|
      ensures FitsSomeSpawn(after, series.telemetry[i].value)
    {
      assert FitsSomeSpawn(series.events, series.telemetry[i].value);
      var k :| 0 <= k < |series.events| && series.events[k].value.Spawn?
               && FrameFits(series.events[k].value.info.schemas, series.telemetry[i].value);
      assert series.events[k] in after;
    }
    if SoundSeries(series) && series.config.Some? {
      assert SpawnCarries(series.events, series.config.value.schemas);
      var k :| 0 <= k < |series.events| && series.events[k].value.Spawn?
               && series.events[k].value.info.schemas == series.config.value.schemas;
      assert series.events[k] in after;
    }
  }

  lemma EventSound(data: Data, id: AircraftId, t: real, event: Event)
    requires Sound(data)
    ensures Sound(WithEvent(data, id, t, event))
  {
    InsertHolds(SeriesOf(data, id).events, Sample(t, event));
    EventSoundSeries(SeriesOf(data, id), Sample(t, event));
  }

  lemma TelemetrySound(data: Data, id: AircraftId, t: real, frame: TelemetryFrame)
    requires Sound(data) && TelemetryAccepted(data, id, frame)
    ensures Sound(WithTelemetry(data, id, t, frame))
  {
    InsertHolds(data[id].telemetry, Sample(t, frame));
    var series := WithTelemetry(data, id, t, frame)[id];
    forall i | 0 <= i < |series.telemetry|
      ensures FitsSomeSpawn(series.events, series.telemetry[i].value)
    {
      assert series.telemetry[i] in series.telemetry;
    }
  }

  /** The schemas a load ends up with: those of the last spawn in timestamp order. */
  function ReloadedSchemas(series: Series): seq<Schema> {
    ConfigSchemas(ConfigFolded(None, series.events))
  }

  /** The last stored spawn is also the one whose schemas are in force, and every frame still fits them. */
  predicate Reloadable(series: Series) {
    && (series.config.Some? ==> ReloadedSchemas(series) == series.config.value.schemas)
    && AllFit(ReloadedSchemas(series), series.telemetry)
  }

  lemma HasSpawnNext(s: seq<Sample<Event>>)
    requires s != []
    ensures HasSpawn(s) <==> HasSpawn(s[..|s| - 1]) || s[|s| - 1].value.Spawn?
  {
    var init := s[..|s| - 1];
    assert forall i :: 0 <= i < |init| ==> init[i] == s[i];
    if HasSpawn(s) && !s[|s| - 1].value.Spawn? {
      var k :| 0 <= k < |s| && s[k].value.Spawn?;
      assert init[k].value.Spawn?;
    }
  }

  lemma {:induction false} FoldedConfig(s: seq<Sample<Event>>)
    ensures ConfigFolded(None, s).Some? <==> HasSpawn(s)
    ensures HasSpawn(s) ==> SpawnCarries(s, ConfigSchemas(ConfigFolded(None, s)))
  {
    if s != [] {
      var init := s[..|s| - 1];
      FoldedConfig(init);
      HasSpawnNext(s);
      if HasSpawn(init) {
        var k :| 0 <= k < |init| && init[k].value.Spawn?
                 && init[k].value.info.schemas == ConfigSchemas(ConfigFolded(None, init));
        assert s[k] == init[k];
      }
    }
  }

  /** One aircraft after a load that rejected none of its frames. */
  function Reloaded(series: Series): Series {
    Series(series.states, series.events, series.telemetry,
           match series.config
           case None => ConfigFolded(None, series.events)
           case Some(config) => Some(Config(config.name, config.tomlConfig, ReloadedSchemas(series))))
  }

  lemma ReloadedSame(series: Series)
    requires SoundSeries(series)
    ensures Reloaded(series) == series && AllFit(ReloadedSchemas(series), series.telemetry) <==> Reloadable(series)
  {
    FoldedConfig(series.events);
  }

  /** The contents after the states and events tables have been read. */
  lemma BeforeTelemetry(data: Data, states: seq<AircraftId>, events: seq<AircraftId>) returns (d: Data)
    requires Sound(data) && IsOrder(states, data.Keys) && IsOrder(events, data.Keys)
    ensures d == AppendEvents(AppendStates(map[], Table(states, StatesOf(data))), Table(events, EventsOf(data)))
    ensures d.Keys == data.Keys
    ensures forall x :: x in data ==> d[x] == Series(data[x].states, data[x].events, [], ConfigFolded(None, data[x].events))
  {
    var d1 := Pass(map[], states, WithStates(data), StateEffect(data));
    StatesPass(data, map[], states);
    PassSpec(map[], states, WithStates(data), StateEffect(data));
    forall x: AircraftId
      ensures SeriesOf(d1, x) == Series(SeriesOf(data, x).states, [], [], None)
    {
    }
    d := Pass(d1, events, WithEvents(data), EventEffect(data));
    EventsPass(data, d1, events);
    PassSpec(d1, events, WithEvents(data), EventEffect(data));
    forall x | x in data
      ensures x in d && d[x] == Series(data[x].states, data[x].events, [], ConfigFolded(None, data[x].events))
    {
      assert SoundSeries(data[x]);
      assert SeriesOf(d1, x) == Series(data[x].states, [], [], None);
    }
  }

  predicate Accepts(series: Series) {
    AllFit(ReloadedSchemas(series), series.telemetry)
  }

  /** Whatever orders the tables were written in, loading rejects a frame or ends with every aircraft reloaded. */
  lemma LoadedIs(data: Data, saved: Saved)
    requires Sound(data) && IsSaveOf(saved, data)
    ensures Load(saved).Some? <==> forall x :: x in data ==> Accepts(data[x])
    ensures Load(saved).Some? ==> Load(saved).value.Keys == data.Keys
    ensures Load(saved).Some? ==> forall x :: x in data ==> Load(saved).value[x] == Reloaded(data[x])
  {
    var states :| IsOrder(states, data.Keys) && saved.states == Table(states, StatesOf(data));
    var events :| IsOrder(events, data.Keys) && saved.events == Table(events, EventsOf(data));
    var order :| IsOrder(order, data.Keys) && saved.telemetry == Table(order, TelemetryOf(data));
    var d := BeforeTelemetry(data, states, events);
    var e := TelemetryLoaded(data, d, order, saved.telemetry);
    if e.Some? {
      AfterTelemetry(data, d, order, e.value, saved.meta);
    }
  }

  lemma TelemetryLoaded(data: Data, d: Data, order: seq<AircraftId>, rows: seq<Row<TelemetryFrame>>) returns (e: Option<Data>)
    requires WellFormed(data) && IsOrder(order, data.Keys) && d.Keys == data.Keys && rows == Table(order, TelemetryOf(data))
    requires forall x :: x in data ==> d[x] == Series(data[x].states, data[x].events, [], ConfigFolded(None, data[x].events))
    ensures e == AppendTelemetry(Some(d), rows)
    ensures e.Some? <==> forall x :: x in data ==> Accepts(data[x])
    ensures e.Some? ==> e.value == Pass(d, order, d.Keys, TelemetryEffect(data))
  {
    e := AppendTelemetry(Some(d), rows);
    TelemetryPass(data, d, order);
    forall x | x in data
      ensures FitsIn(data, d, x) == Accepts(data[x])
    {
    }
  }

  lemma AfterTelemetry(data: Data, d: Data, order: seq<AircraftId>, e: Data, metas: seq<MetaAircraft>)
    requires IsOrder(order, data.Keys) && d.Keys == data.Keys && metas == Metas(data, SortedIds(data.Keys))
    requires forall x :: x in data ==> d[x] == Series(data[x].states, data[x].events, [], ConfigFolded(None, data[x].events))
    requires e == Pass(d, order, d.Keys, TelemetryEffect(data))
    ensures ApplyMeta(e, metas).Keys == data.Keys
    ensures forall x :: x in data ==> ApplyMeta(e, metas)[x] == Reloaded(data[x])
  {
    PassSpec(d, order, d.Keys, TelemetryEffect(data));
    forall x | x in data
      ensures x in e && e[x] == d[x].(telemetry := data[x].telemetry)
    {
    }
    AfterMeta(data, e, metas);
  }

  lemma AfterMeta(data: Data, e: Data, metas: seq<MetaAircraft>)
    requires e.Keys == data.Keys && metas == Metas(data, SortedIds(data.Keys))
    requires forall x :: x in data ==>
               e[x] == Series(data[x].states, data[x].events, data[x].telemetry, ConfigFolded(None, data[x].events))
    ensures ApplyMeta(e, metas).Keys == data.Keys
    ensures forall x :: x in data ==> ApplyMeta(e, metas)[x] == Reloaded(data[x])
  {
    SortedIdsSpec(data.Keys);
    MetaPass(data, e, SortedIds(data.Keys));
    MetasReload(data, e, SortedIds(data.Keys));
  }

  lemma MetasReload(data: Data, e: Data, ids: seq<AircraftId>)
    requires e.Keys == data.Keys && IsOrder(ids, data.Keys)
    requires forall x :: x in data ==>
               e[x] == Series(data[x].states, data[x].events, data[x].telemetry, ConfigFolded(None, data[x].events))
    ensures Pass(e, ids, e.Keys, MetaEffect(data)).Keys == data.Keys
    ensures forall x :: x in data ==> Pass(e, ids, e.Keys, MetaEffect(data))[x] == Reloaded(data[x])
  {
    var r := Pass(e, ids, e.Keys, MetaEffect(data));
    PassSpec(e, ids, e.Keys, MetaEffect(data));
    assert forall x :: x in r <==> x in data;
    forall x | x in data
      ensures r[x] == Reloaded(data[x])
    {
      assert r[x] == MetaEffect(data)(x, SeriesOf(e, x));
    }
  }

  /**
   Save then load gives back the same store, whatever order the map is iterated in, if and only
   if every aircraft's last stored spawn carries the schemas in force and all its frames fit them.
   */
  lemma RoundTripIff(data: Data, saved: Saved)
    requires Sound(data) && IsSaveOf(saved, data)
    ensures Load(saved) == Some(data) <==> forall x :: x in data ==> Reloadable(data[x])
  {
    LoadedIs(data, saved);
    forall x | x in data
      ensures Reloaded(data[x]) == data[x] && AllFit(ReloadedSchemas(data[x]), data[x].telemetry) <==> Reloadable(data[x])
    {
      ReloadedSame(data[x]);
    }
    if forall x :: x in data ==> Reloadable(data[x]) {
      assert Load(saved).value == data;
    }
  }

  predicate SameSchemas(s: seq<Sample<Event>>) {
    forall i, j :: 0 <= i < |s| && 0 <= j < |s| && s[i].value.Spawn? && s[j].value.Spawn? ==>
      s[i].value.info.schemas == s[j].value.info.schemas
  }

  lemma SameSchemasReloadable(series: Series)
    requires SoundSeries(series) && SameSchemas(series.events)
    ensures Reloadable(series)
  {
    FoldedConfig(series.events);
    forall i | 0 <= i < |series.telemetry|
      ensures FrameFits(ReloadedSchemas(series), series.telemetry[i].value)
    {
      assert FitsSomeSpawn(series.events, series.telemetry[i].value);
    }
  }

  /** In particular when all spawns of an aircraft carry the same schemas: no frame is rejected and nothing is lost. */
  lemma RoundTrip(data: Data, saved: Saved)
    requires Sound(data) && IsSaveOf(saved, data)
    requires forall x :: x in data ==> SameSchemas(data[x].events)
    ensures Load(saved) == Some(data)
  {
    forall x | x in data
      ensures Reloadable(data[x])
    {
      SameSchemasReloadable(data[x]);
    }
    RoundTripIff(data, saved);
  }

  /** A respawn with different schemas makes the earlier frames unloadable: the whole load fails. */
  lemma RespawnUnloadable(first: SpawnInfo, second: SpawnInfo, frame: TelemetryFrame, saved: Saved)
    requires FrameFits(first.schemas, frame) && !FrameFits(second.schemas, frame)
    requires var d1 := WithTelemetry(WithEvent(map[], 0, 1.0, Spawn(first)), 0, 1.0, frame);
             IsSaveOf(saved, WithEvent(d1, 0, 2.0, Spawn(second)))
    ensures Load(saved).None?
  {
    var d0 := WithEvent(map[], 0, 1.0, Spawn(first));
    EventSound(map[], 0, 1.0, Spawn(first));
    TelemetrySound(d0, 0, 1.0, frame);
    var d1 := WithTelemetry(d0, 0, 1.0, frame);
    EventSound(d1, 0, 2.0, Spawn(second));
    var data := WithEvent(d1, 0, 2.0, Spawn(second));
    RespawnStored(first, second, frame);
    LoadedIs(data, saved);
    assert !FrameFits(ReloadedSchemas(data[0]), data[0].telemetry[0].value);
  }

  lemma RespawnStored(first: SpawnInfo, second: SpawnInfo, frame: TelemetryFrame)
    ensures var d1 := WithTelemetry(WithEvent(map[], 0, 1.0, Spawn(first)), 0, 1.0, frame);
            var series := WithEvent(d1, 0, 2.0, Spawn(second))[0];
            && series.telemetry == [Sample(1.0, frame)]
            && ReloadedSchemas(series) == second.schemas
  {
    ByTimeTotal<Event>();
    ByTimeTotal<TelemetryFrame>();
    InsertAtEnd([], Sample(1.0, Spawn(first)), ByTime());
    InsertAtEnd([], Sample(1.0, frame), ByTime());
    InsertAtEnd([Sample(1.0, Spawn(first))], Sample(2.0, Spawn(second)), ByTime());
    var events := [Sample(1.0, Spawn(first)), Sample(2.0, Spawn(second))];
    assert [Sample(1.0, Spawn(first))] + [Sample(2.0, Spawn(second))] == events;
    assert events[..1] == [Sample(1.0, Spawn(first))];
  }

  // ----- runs of appends, clears and loads ------------------------------------------------------

  lemma ReloadedSound(series: Series)
    requires SoundSeries(series)
    ensures SoundSeries(Reloaded(series))
  {
    FoldedConfig(series.events);
  }

  /** A successful load of what a sound store saved is sound, even where it differs from that store. */
  lemma LoadSound(data: Data, saved: Saved)
    requires Sound(data) && IsSaveOf(saved, data) && Load(saved).Some?
    ensures Sound(Load(saved).value)
  {
    LoadedIs(data, saved);
    forall x | x in data
      ensures SoundSeries(Load(saved).value[x])
    {
      ReloadedSound(data[x]);
    }
  }

  datatype StoreAction =
    | PutState(id: AircraftId, t: real, state: Bytes)
    | PutEvent(id: AircraftId, t: real, event: Event)
    | PutTelemetry(id: AircraftId, t: real, frame: TelemetryFrame)
    | Wipe
    | Restore(saved: Saved)

  function NextStore(data: Data, action: StoreAction): Data {
    match action
    case PutState(id, t, state) => WithState(data, id, t, state)
    case PutEvent(id, t, event) => WithEvent(data, id, t, event)
    case PutTelemetry(id, t, frame) => if TelemetryAccepted(data, id, frame) then WithTelemetry(data, id, t, frame) else data
    case Wipe => map[]
    case Restore(saved) => Load(saved).GetOr(data)
  }

  /** What is restored was saved at some earlier moment of the run. */
  ghost predicate StoreRun(stores: seq<Data>, actions: seq<StoreAction>) {
    && |stores| == |actions| + 1
    && stores[0] == map[]
    && forall i :: 0 <= i < |actions| ==>
         && stores[i + 1] == NextStore(stores[i], actions[i])
         && (actions[i].Restore? ==> exists j :: 0 <= j <= i && IsSaveOf(actions[i].saved, stores[j]))
  }

  lemma StepSound(data: Data, action: StoreAction, source: Data)
    requires Sound(data) && Sound(source) && (action.Restore? ==> IsSaveOf(action.saved, source))
    ensures Sound(NextStore(data, action))
  {
    match action
    case PutState(id, t, state) => StateSound(data, id, t, state);
    case PutEvent(id, t, event) => EventSound(data, id, t, event);
    case PutTelemetry(id, t, frame) =>
      if TelemetryAccepted(data, id, frame) {
        TelemetrySound(data, id, t, frame);
      }
    case Wipe =>
    case Restore(saved) =>
      if Load(saved).Some? {
        LoadSound(source, saved);
      }
  }

  lemma {:induction false} StoreRunSound(stores: seq<Data>, actions: seq<StoreAction>, i: nat)
    requires StoreRun(stores, actions) && i < |stores|
    ensures Sound(stores[i])
  {
    if i > 0 {
      var k := i - 1;
      var action := actions[k];
      assert stores[k + 1] == NextStore(stores[k], action);
      StoreRunSound(stores, actions, k);
      var j := k;
      if action.Restore? {
        j :| 0 <= j <= k && IsSaveOf(action.saved, stores[j]);
        StoreRunSound(stores, actions, j);
      }
      StepSound(stores[k], action, stores[j]);
    }
  }

  /** At any moment of any run of appends, clears and loads, saving and loading gives the store back exactly when it is reloadable. */
  lemma RunRoundTripIff(stores: seq<Data>, actions: seq<StoreAction>, i: nat, saved: Saved)
    requires StoreRun(stores, actions) && i < |stores| && IsSaveOf(saved, stores[i])
    ensures Load(saved) == Some(stores[i]) <==> forall x :: x in stores[i] ==> Reloadable(stores[i][x])
  {
    StoreRunSound(stores, actions, i);
    RoundTripIff(stores[i], saved);
  }
}
