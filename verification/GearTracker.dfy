/**
 The simulator bridge's gear tracker: which gear commands each playback snapshot
 sends, over whole runs of calls while the store grows.
 */
module GearTracker {
  import opened Common
  import opened Sorting
  import opened Store
  import opened Playback
  import opened Coverage
  import opened GearState

  datatype GearCommand = Up | Down

  function CommandOf(event: Event): Option<GearCommand> {
    if event.Custom? && event.name == GEAR_UP then Some(Up)
    else if event.Custom? && event.name == GEAR_DOWN then Some(Down)
    else None
  }

  function IsGear(): Sample<Event> -> bool {
    (s: Sample<Event>) => CommandOf(s.value).Some?
  }

  function GearBy(cursor: real): Sample<Event> -> bool {
    (s: Sample<Event>) => s.t <= cursor && CommandOf(s.value).Some?
  }

  /** The latest gear command stored at or before the cursor. */
  function LatestCommand(events: seq<Sample<Event>>, cursor: real): Option<GearCommand> {
    match LastWhere(events, GearBy(cursor))
    case Some(e) => CommandOf(e.value)
    case None => None
  }

  /** The gear commands among `s`, in order. */
  function Commands(s: seq<Sample<Event>>): seq<GearCommand> {
    if s == [] then []
    else
      var init := Commands(s[..|s| - 1]);
      if CommandOf(s[|s| - 1].value).Some? then init + [CommandOf(s[|s| - 1].value).value] else init
  }

  /** What the next command is compared with after `sent` has followed `last`. */
  function LastOf(last: Option<GearCommand>, sent: seq<GearCommand>): Option<GearCommand> {
    if sent == [] then last else Some(sent[|sent| - 1])
  }

  /** Drop every command equal to the one sent before it. */
  function Deduplicate(last: Option<GearCommand>, commands: seq<GearCommand>): seq<GearCommand> {
    if commands == [] then []
    else
      var kept := Deduplicate(last, commands[..|commands| - 1]);
      var command := commands[|commands| - 1];
      if LastOf(last, kept) == Some(command) then kept else kept + [command]
  }

  datatype Tracker = Tracker(
    aircraft: Option<AircraftId>, cursor: Option<real>, revision: Option<nat>, mode: Option<Mode>, last: Option<GearCommand>)

  const IDLE := Tracker(None, None, None, None, None)

  /** One call: the store, and the playback snapshot it is made for. */
  datatype Call = Call(data: Data, id: AircraftId, mode: Mode, cursor: real, revision: nat) {
    function Events(): seq<Sample<Event>> { SeriesOf(data, id).events }

    function Latest(): Option<GearCommand> { LatestCommand(Events(), cursor) }
  }

  predicate Discontinuity(tr: Tracker, call: Call) {
    || tr.aircraft != Some(call.id)
    || tr.cursor.None?
    || tr.revision != Some(call.revision)
    || tr.mode != Some(call.mode)
    || call.cursor < tr.cursor.value
  }

  /** The commands crossed since the previous cursor, without repetitions. */
  function Crossed(tr: Tracker, call: Call): seq<GearCommand> {
    Deduplicate(tr.last, Commands(Filter(call.Events(), Between(tr.cursor.GetOr(call.cursor), call.cursor))))
  }

  /** A live call re-resolves, for events that arrived without advancing the cursor. */
  function Resolved(last: Option<GearCommand>, sent: seq<GearCommand>, call: Call): seq<GearCommand> {
    if call.mode.Live? && call.Latest().Some? && LastOf(last, sent) != call.Latest() then sent + [call.Latest().value] else sent
  }

  function Sent(tr: Tracker, call: Call): seq<GearCommand> {
    if Discontinuity(tr, call) then (if call.Latest().Some? then [call.Latest().value] else [])
    else Resolved(tr.last, Crossed(tr, call), call)
  }

  function After(tr: Tracker, call: Call): Tracker {
    Tracker(Some(call.id), Some(call.cursor), Some(call.revision), Some(call.mode),
            LastOf(if Discontinuity(tr, call) then None else tr.last, Sent(tr, call)))
  }

  // ----- the object and its loops ---------------------------------------------------

  method LatestGearCommand(data: Data, id: AircraftId, cursor: real) returns (command: Option<GearCommand>)
    ensures command == LatestCommand(SeriesOf(data, id).events, cursor)
  {
    if id !in data {
      assert SeriesOf(data, id).events == [];
      return None;
    }
    var events := Range(data[id].events, NegInf, Num(cursor));
    LastWhereOfFilter(data[id].events, Within(NegInf, Num(cursor)), IsGear(), GearBy(cursor));
    var i := |events|;
    assert events[..i] == events;
    while i > 0
      invariant 0 <= i <= |events| && LastWhere(events, IsGear()) == LastWhere(events[..i], IsGear())
    {
      i := i - 1;
      assert events[..i + 1][..i] == events[..i];
      if CommandOf(events[i].value).Some? {
        return CommandOf(events[i].value);
      }
    }
    command := None;
  }

  function GearCommandsBetween(data: Data, id: AircraftId, startExclusive: real, endInclusive: real): (r: seq<GearCommand>)
    ensures r == Commands(Filter(SeriesOf(data, id).events, Between(startExclusive, endInclusive)))
  {
    LaterInRange(SeriesOf(data, id).events, startExclusive, endInclusive);
    Commands(Filter(Range(SeriesOf(data, id).events, Num(startExclusive), Num(endInclusive)), Later(startExclusive)))
  }

  class GearEventTracker {
    var aircraftId: Option<AircraftId>
    var cursorSecs: Option<real>
    var revision: Option<nat>
    var mode: Option<Mode>
    var lastCommand: Option<GearCommand>

    function Value(): Tracker
      reads this
    {
      Tracker(aircraftId, cursorSecs, revision, mode, lastCommand)
    }

    constructor ()
      ensures Value() == IDLE
    {
      aircraftId, cursorSecs, revision, mode, lastCommand := None, None, None, None, None;
    }

    method Reset()
      modifies this
      ensures Value() == IDLE
    {
      aircraftId, cursorSecs, revision, mode, lastCommand := None, None, None, None, None;
    }

    /** `commands.retain(..)`: keep what differs from the command sent before it. */
    method Retain(commands: seq<GearCommand>) returns (kept: seq<GearCommand>)
      modifies this`lastCommand
      ensures kept == Deduplicate(old(lastCommand), commands)
      ensures lastCommand == LastOf(old(lastCommand), kept)
    {
      kept := [];
      for i := 0 to |commands|
        invariant kept == Deduplicate(old(lastCommand), commands[..i])
        invariant lastCommand == LastOf(old(lastCommand), kept)
      {
        assert commands[..i + 1][..i] == commands[..i];
        if lastCommand != Some(commands[i]) {
          lastCommand := Some(commands[i]);
          kept := kept + [commands[i]];
        }
      }
      assert commands[..|commands|] == commands;
    }

    method CommandsToApply(data: Data, id: AircraftId, playback: Mode, cursor: Float, current: nat)
      returns (commands: seq<GearCommand>)
      modifies this
      ensures !cursor.Num? ==> commands == [] && Value() == old(Value())
      ensures cursor.Num? ==>
        var call := Call(data, id, playback, cursor.r, current);
        commands == Sent(old(Value()), call) && Value() == After(old(Value()), call)
    {
      if !cursor.Num? {
        return [];
      }
      var discontinuity :=
        || aircraftId != Some(id) || cursorSecs.None? || revision != Some(current) || mode != Some(playback)
        || cursor.r < cursorSecs.value;
      var latest := LatestGearCommand(data, id, cursor.r);
      if discontinuity {
        commands := if latest.Some? then [latest.value] else [];
        lastCommand := latest;
      } else {
        commands := GearCommandsBetween(data, id, cursorSecs.value, cursor.r);
        commands := Retain(commands);
        if playback.Live? && latest.Some? && lastCommand != latest {
          commands := commands + [latest.value];
          lastCommand := latest;
        }
      }
      aircraftId, cursorSecs, revision, mode := Some(id), Some(cursor.r), Some(current), Some(playback);
    }
  }

  // ----- facts about the lists -----------------------------------------------------

  lemma {:induction false} LastCommandOf(s: seq<Sample<Event>>)
    ensures LastOf(None, Commands(s)) == match LastWhere(s, IsGear()) case Some(e) => CommandOf(e.value) case None => None
  {
    if s != [] {
      LastCommandOf(s[..|s| - 1]);
    }
  }

  /** `commands` alternate and the first differs from the one before them. */
  ghost predicate Alternating(last: Option<GearCommand>, commands: seq<GearCommand>) {
    && (commands != [] ==> last != Some(commands[0]))
    && forall i :: 0 < i < |commands| ==> commands[i - 1] != commands[i]
  }

  lemma {:induction false} DeduplicateAlternates(last: Option<GearCommand>, commands: seq<GearCommand>)
    ensures Alternating(last, Deduplicate(last, commands))
    ensures LastOf(last, Deduplicate(last, commands)) == LastOf(last, commands)
  {
    if commands != [] {
      DeduplicateAlternates(last, commands[..|commands| - 1]);
    }
  }

  lemma AlternatingJoin(last: Option<GearCommand>, a: seq<GearCommand>, b: seq<GearCommand>)
    requires Alternating(last, a) && Alternating(LastOf(last, a), b)
    ensures Alternating(last, a + b) && LastOf(last, a + b) == LastOf(LastOf(last, a), b)
  {
    forall i | 0 < i < |a + b|
      ensures (a + b)[i - 1] != (a + b)[i]
    {
      if i > |a| {
        assert (a + b)[i] == b[i - |a|] && (a + b)[i - 1] == b[i - |a| - 1];
      }
    }
  }

  /** Moving the cursor forward over a sorted history: what was crossed decides, else what was before. */
  lemma LatestSplits(events: seq<Sample<Event>>, previous: real, cursor: real)
    requires Sorted(events, ByTime()) && previous <= cursor
    ensures LatestCommand(events, cursor)
              == LastOf(LatestCommand(events, previous), Commands(Filter(events, Between(previous, cursor))))
  {
    var before, crossed := Filter(events, UpTo(previous)), Filter(events, Between(previous, cursor));
    BetweenJoins(events, previous, previous, cursor);
    LastWhereOfFilter(events, UpTo(cursor), IsGear(), GearBy(cursor));
    LastWhereOfFilter(events, UpTo(previous), IsGear(), GearBy(previous));
    LastWhereSplit(before, crossed, IsGear());
    LastCommandOf(crossed);
  }

  /** Every call sends commands that alternate, also with what was sent before it when it continues. */
  lemma SentAlternates(tr: Tracker, call: Call)
    ensures Alternating(if Discontinuity(tr, call) then None else tr.last, Sent(tr, call))
  {
    DeduplicateAlternates(tr.last, Commands(Filter(call.Events(), Between(tr.cursor.GetOr(call.cursor), call.cursor))));
  }

  // ----- one continued call ------------------------------------------------------------

  lemma ContinuedLast(tr: Tracker, call: Call)
    requires !Discontinuity(tr, call) && Sorted(call.Events(), ByTime())
    ensures var crossed := LastOf(tr.last, Commands(Filter(call.Events(), Between(tr.cursor.value, call.cursor))));
            After(tr, call).last == if call.mode.Live? && call.Latest().Some? then call.Latest() else crossed
  {
    DeduplicateAlternates(tr.last, Commands(Filter(call.Events(), Between(tr.cursor.value, call.cursor))));
  }

  /** A continued live call ends on the latest stored command whenever there is one, whatever arrived in between. */
  lemma LiveCallResolves(tr: Tracker, call: Call)
    requires !Discontinuity(tr, call) && call.mode.Live? && Sorted(call.Events(), ByTime())
    ensures call.Latest().Some? ==> After(tr, call).last == call.Latest()
    ensures call.Latest().None? ==> After(tr, call).last == tr.last
  {
    ContinuedLast(tr, call);
    LatestSplits(call.Events(), tr.cursor.value, call.cursor);
  }

  /**
   A continued replay call ends on the latest stored command if and only if a command was
   crossed, or the command already sent is still the latest one at the previous cursor.
   */
  lemma ReplayCallResolvesIff(tr: Tracker, call: Call)
    requires !Discontinuity(tr, call) && !call.mode.Live? && Sorted(call.Events(), ByTime())
    ensures (After(tr, call).last == call.Latest())
            <==> (|| Commands(Filter(call.Events(), Between(tr.cursor.value, call.cursor))) != []
                  || tr.last == LatestCommand(call.Events(), tr.cursor.value))
  {
    ContinuedLast(tr, call);
    LatestSplits(call.Events(), tr.cursor.value, call.cursor);
  }

  /** An event appended behind a replay cursor is never sent while the replay continues. */
  lemma LateEventMissed(revision: nat)
    ensures var tr := Tracker(Some(0), Some(2.0), Some(revision), Some(ReplayPlaying), None);
            var data: Data := map[0 := Series([], [Sample(1.0, Custom(GEAR_DOWN))], [], None)];
            var call := Call(data, 0, ReplayPlaying, 3.0, revision);
            !Discontinuity(tr, call) && Sent(tr, call) == [] && call.Latest() == Some(Down)
  {
    var tr := Tracker(Some(0), Some(2.0), Some(revision), Some(ReplayPlaying), None);
    var data: Data := map[0 := Series([], [Sample(1.0, Custom(GEAR_DOWN))], [], None)];
    var call := Call(data, 0, ReplayPlaying, 3.0, revision);
    assert call.Events() == [] + [Sample(1.0, Custom(GEAR_DOWN))];
    FilterNone(call.Events(), Between(2.0, 3.0));
  }

  // ----- whole runs ----------------------------------------------------------------------

  /**
   The bridge: the store it reads, the playback revision, and what was sent since the last
   resynchronisation.  `behind` is whether an event appended behind the cursor of the replay being
   followed has overruled the command sent.
   */
  datatype Bridge = Bridge(data: Data, revision: nat, tracker: Tracker, sent: seq<GearCommand>, behind: bool)

  datatype BridgeAction =
    | AppendEvent(id: AircraftId, t: real, event: Event)
    | Replace(data: Data)                                    // clear or load, with the playback reset that follows it
    | Forget                                                 // reset, on release or reconnection
    | Observe(id: AircraftId, mode: Mode, cursor: Float, revision: nat)

  function CallAt(b: Bridge, a: BridgeAction): Call
    requires a.Observe? && a.cursor.Num?
  {
    Call(b.data, a.id, a.mode, a.cursor.r, a.revision)
  }

  /** The event is a gear command at or before the cursor with no later one stored up to the cursor. */
  predicate Overrules(events: seq<Sample<Event>>, cursor: real, e: Sample<Event>) {
    var last := LastWhere(events, GearBy(cursor));
    GearBy(cursor)(e) && (last.None? || last.value.t <= e.t)
  }

  /** A continued replay leaves `behind` as it is until a command is crossed. */
  predicate BehindAfter(b: Bridge, call: Call) {
    && !Discontinuity(b.tracker, call) && !call.mode.Live?
    && Commands(Filter(call.Events(), Between(b.tracker.cursor.value, call.cursor))) == []
    && b.behind
  }

  function NextBridge(b: Bridge, a: BridgeAction): Bridge {
    match a
    case AppendEvent(id, t, event) =>
      var overruled :=
        && b.tracker.aircraft == Some(id) && b.tracker.cursor.Some? && b.tracker.mode != Some(Live)
        && Overrules(SeriesOf(b.data, id).events, b.tracker.cursor.value, Sample(t, event));
      b.(data := WithEvent(b.data, id, t, event), behind := if overruled then b.tracker.last != CommandOf(event) else b.behind)
    case Replace(data) => b.(data := data, revision := b.revision + 1)
    case Forget => b.(tracker := IDLE, sent := [], behind := false)
    case Observe(_, _, cursor, revision) =>
      if !cursor.Num? then b.(revision := revision)
      else
        var call := CallAt(b, a);
        Bridge(b.data, revision, After(b.tracker, call),
               (if Discontinuity(b.tracker, call) then [] else b.sent) + Sent(b.tracker, call), BehindAfter(b, call))
  }

  /** Revisions never decrease, and a loaded store is sorted. */
  ghost predicate BridgeAllowed(b: Bridge, a: BridgeAction) {
    match a
    case Replace(data) => WellFormed(data)
    case Observe(_, _, _, revision) => b.revision <= revision
    case _ => true
  }

  ghost predicate BridgeRun(bridges: seq<Bridge>, actions: seq<BridgeAction>) {
    && |bridges| == |actions| + 1
    && bridges[0] == Bridge(map[], 0, IDLE, [], false)
    && forall i :: 0 <= i < |actions| ==>
         BridgeAllowed(bridges[i], actions[i]) && bridges[i + 1] == NextBridge(bridges[i], actions[i])
  }

  function LatestNow(b: Bridge): Option<GearCommand>
    requires b.tracker.aircraft.Some? && b.tracker.cursor.Some?
  {
    LatestCommand(SeriesOf(b.data, b.tracker.aircraft.value).events, b.tracker.cursor.value)
  }

  /** While its revision is current, a replay is in step with the store unless it is behind, and a tracker never ahead of it. */
  ghost predicate InStep(b: Bridge) {
    && (b.tracker.cursor.Some? ==> b.tracker.aircraft.Some? && b.tracker.revision.Some? && b.tracker.revision.value <= b.revision)
    && (b.tracker.cursor.Some? && b.tracker.revision == Some(b.revision) ==>
          && (LatestNow(b).None? ==> b.tracker.last.None?)
          && (b.tracker.mode != Some(Live) ==> (b.behind <==> b.tracker.last != LatestNow(b))))
  }

  ghost predicate BridgeInv(b: Bridge) {
    && WellFormed(b.data)
    && Alternating(None, b.sent) && b.tracker.last == LastOf(None, b.sent)
    && InStep(b)
  }

  lemma AppendInStep(b: Bridge, id: AircraftId, t: real, event: Event)
    requires BridgeInv(b)
    ensures InStep(NextBridge(b, AppendEvent(id, t, event)))
  {
    if b.tracker.cursor.Some? && b.tracker.aircraft == Some(id) {
      InsertThenReverseScan(SeriesOf(b.data, id).events, Sample(t, event), GearBy(b.tracker.cursor.value));
      LastWhereFound(SeriesOf(b.data, id).events, GearBy(b.tracker.cursor.value));
    }
  }

  /**
   After every call, whatever came before it, the last command sent is the latest one stored at the
   cursor, if and only if the replay is not behind.
   */
  lemma CallInStep(b: Bridge, a: BridgeAction)
    requires BridgeInv(b) && BridgeAllowed(b, a) && a.Observe? && a.cursor.Num?
    ensures NextBridge(b, a).tracker.last == CallAt(b, a).Latest() <==> !NextBridge(b, a).behind
    ensures CallAt(b, a).Latest().None? ==> NextBridge(b, a).tracker.last.None?
  {
    var call := CallAt(b, a);
    if !Discontinuity(b.tracker, call) {
      LatestSplits(call.Events(), b.tracker.cursor.value, call.cursor);
      ContinuedLast(b.tracker, call);
      if call.mode.Live? {
        LiveCallResolves(b.tracker, call);
      } else {
        ReplayCallResolvesIff(b.tracker, call);
      }
    }
  }

  lemma CallAlternates(b: Bridge, a: BridgeAction)
    requires BridgeInv(b) && a.Observe? && a.cursor.Num?
    ensures var next := NextBridge(b, a); Alternating(None, next.sent) && next.tracker.last == LastOf(None, next.sent)
  {
    var call := CallAt(b, a);
    SentAlternates(b.tracker, call);
    if Discontinuity(b.tracker, call) {
      AlternatingJoin(None, [], Sent(b.tracker, call));
    } else {
      AlternatingJoin(None, b.sent, Sent(b.tracker, call));
    }
  }

  lemma BridgeKeeps(b: Bridge, a: BridgeAction)
    requires BridgeInv(b) && BridgeAllowed(b, a)
    ensures BridgeInv(NextBridge(b, a))
  {
    match a
    case AppendEvent(id, t, event) =>
      EventWellFormed(b.data, id, t, event);
      AppendInStep(b, id, t, event);
    case Replace(_) =>
    case Forget =>
    case Observe(_, _, cursor, _) =>
      if cursor.Num? {
        CallAlternates(b, a);
        CallInStep(b, a);
      }
  }

  lemma {:induction false} BridgeRunInv(bridges: seq<Bridge>, actions: seq<BridgeAction>, i: nat)
    requires BridgeRun(bridges, actions) && i < |bridges|
    ensures BridgeInv(bridges[i])
  {
    if i > 0 {
      BridgeRunInv(bridges, actions, i - 1);
      BridgeKeeps(bridges[i - 1], actions[i - 1]);
    }
  }

  /**
   Over every run: after each call the last command sent since the resynchronisation is the latest one
   stored at the cursor (none exactly when none is stored), if and only if no event appended behind the
   cursor of the replay has overruled it since; and no command sent repeats the one sent before it.
   */
  lemma SimulatorFollowsStoreIff(bridges: seq<Bridge>, actions: seq<BridgeAction>, i: nat)
    requires BridgeRun(bridges, actions) && i < |actions| && actions[i].Observe? && actions[i].cursor.Num?
    ensures LastOf(None, bridges[i + 1].sent)
              == LatestCommand(SeriesOf(bridges[i].data, actions[i].id).events, actions[i].cursor.r)
            <==> !bridges[i + 1].behind
    ensures Alternating(None, bridges[i + 1].sent)
  {
    BridgeRunInv(bridges, actions, i);
    BridgeRunInv(bridges, actions, i + 1);
    CallInStep(bridges[i], actions[i]);
  }

  /** Live, and after any resynchronisation, the bridge is never behind. */
  lemma LiveNeverBehind(bridges: seq<Bridge>, actions: seq<BridgeAction>, i: nat)
    requires BridgeRun(bridges, actions) && i < |actions| && actions[i].Observe? && actions[i].cursor.Num?
    requires actions[i].mode.Live? || Discontinuity(bridges[i].tracker, CallAt(bridges[i], actions[i]))
    ensures LastOf(None, bridges[i + 1].sent)
              == LatestCommand(SeriesOf(bridges[i].data, actions[i].id).events, actions[i].cursor.r)
  {
    SimulatorFollowsStoreIff(bridges, actions, i);
  }

  /** No gear event of the tracked aircraft is appended at or before the cursor of a replay being followed. */
  predicate OnTime(b: Bridge, a: BridgeAction) {
    a.AppendEvent? && b.tracker.aircraft == Some(a.id) && b.tracker.cursor.Some? && b.tracker.mode != Some(Live)
      && CommandOf(a.event).Some?
    ==> b.tracker.cursor.value < a.t
  }

  lemma {:induction false} OnTimeNeverBehind(bridges: seq<Bridge>, actions: seq<BridgeAction>, i: nat)
    requires BridgeRun(bridges, actions) && i < |bridges|
    requires forall k :: 0 <= k < i ==> OnTime(bridges[k], actions[k])
    ensures !bridges[i].behind
  {
    if i > 0 {
      var k := i - 1;
      OnTimeNeverBehind(bridges, actions, k);
      assert OnTime(bridges[k], actions[k]) && bridges[k + 1] == NextBridge(bridges[k], actions[k]);
    }
  }

  /** So in a run without such events the simulator follows the store at every call. */
  lemma SimulatorFollowsStore(bridges: seq<Bridge>, actions: seq<BridgeAction>, i: nat)
    requires BridgeRun(bridges, actions) && i < |actions| && actions[i].Observe? && actions[i].cursor.Num?
    requires forall k :: 0 <= k < i ==> OnTime(bridges[k], actions[k])
    ensures LastOf(None, bridges[i + 1].sent)
              == LatestCommand(SeriesOf(bridges[i].data, actions[i].id).events, actions[i].cursor.r)
  {
    OnTimeNeverBehind(bridges, actions, i);
    SimulatorFollowsStoreIff(bridges, actions, i);
  }

  // ----- what a call remembers ------------------------------------------------------------

  predicate Effective(a: BridgeAction) {
    a.Observe? && a.cursor.Num?
  }

  /** The last snapshot with a finite cursor since the tracker was last reset. */
  function Previous(actions: seq<BridgeAction>, n: nat): Option<BridgeAction>
    requires n <= |actions|
  {
    if n == 0 || actions[n - 1].Forget? then None
    else if Effective(actions[n - 1]) then Some(actions[n - 1])
    else Previous(actions, n - 1)
  }

  /**
   A snapshot goes on from the previous one: the same aircraft, mode and revision, and a cursor not before it.
   A store cleared or loaded in between does not matter while the revision observed stays the same.
   */
  predicate GoesOn(actions: seq<BridgeAction>, j: nat)
    requires j < |actions|
  {
    && Effective(actions[j]) && Previous(actions, j).Some?
    && var previous := Previous(actions, j).value;
       && Effective(previous) && previous.id == actions[j].id && previous.mode == actions[j].mode
       && previous.revision == actions[j].revision && previous.cursor.r <= actions[j].cursor.r
  }

  /** The tracker remembers the previous snapshot, and nothing else of the past but the last command. */
  lemma {:induction false} RemembersPrevious(bridges: seq<Bridge>, actions: seq<BridgeAction>, n: nat)
    requires BridgeRun(bridges, actions) && n < |bridges|
    ensures match Previous(actions, n)
            case None => bridges[n].tracker == IDLE
            case Some(a) =>
              && Effective(a)
              && bridges[n].tracker == Tracker(Some(a.id), Some(a.cursor.r), Some(a.revision), Some(a.mode), bridges[n].tracker.last)
  {
    if n > 0 {
      var k := n - 1;
      RemembersPrevious(bridges, actions, k);
      assert bridges[k + 1] == NextBridge(bridges[k], actions[k]);
    }
  }

  /** Its memory is dropped exactly when a snapshot does not go on from the previous one. */
  lemma ForgetsIff(bridges: seq<Bridge>, actions: seq<BridgeAction>, j: nat)
    requires BridgeRun(bridges, actions) && j < |actions| && Effective(actions[j])
    ensures Discontinuity(bridges[j].tracker, CallAt(bridges[j], actions[j])) <==> !GoesOn(actions, j)
  {
    RemembersPrevious(bridges, actions, j);
  }

  /** The commands one action sends. */
  function SentAt(bridges: seq<Bridge>, actions: seq<BridgeAction>, j: nat): seq<GearCommand>
    requires j < |actions| && j < |bridges|
  {
    if Effective(actions[j]) then Sent(bridges[j].tracker, CallAt(bridges[j], actions[j])) else []
  }

  /** The commands sent since a snapshot last did not go on from the one before it. */
  function SentSince(bridges: seq<Bridge>, actions: seq<BridgeAction>, n: nat): seq<GearCommand>
    requires n <= |actions| && n <= |bridges|
  {
    if n == 0 || actions[n - 1].Forget? then []
    else if !Effective(actions[n - 1]) then SentSince(bridges, actions, n - 1)
    else (if GoesOn(actions, n - 1) then SentSince(bridges, actions, n - 1) else []) + SentAt(bridges, actions, n - 1)
  }

  lemma {:induction false} SentIsSince(bridges: seq<Bridge>, actions: seq<BridgeAction>, n: nat)
    requires BridgeRun(bridges, actions) && n < |bridges|
    ensures bridges[n].sent == SentSince(bridges, actions, n)
  {
    if n > 0 {
      var k := n - 1;
      SentIsSince(bridges, actions, k);
      assert bridges[k + 1] == NextBridge(bridges[k], actions[k]);
      if Effective(actions[k]) {
        ForgetsIff(bridges, actions, k);
      }
    }
  }

  /** A snapshot that goes on from the previous one never sends first the command sent last. */
  lemma NeverRepeats(bridges: seq<Bridge>, actions: seq<BridgeAction>, j: nat)
    requires BridgeRun(bridges, actions) && j < |actions| && GoesOn(actions, j) && SentAt(bridges, actions, j) != []
    ensures var since := SentSince(bridges, actions, j);
            since != [] ==> since[|since| - 1] != SentAt(bridges, actions, j)[0]
  {
    ForgetsIff(bridges, actions, j);
    BridgeRunInv(bridges, actions, j);
    SentIsSince(bridges, actions, j);
    SentAlternates(bridges[j].tracker, CallAt(bridges[j], actions[j]));
  }

  /** One that does not sends the latest command stored, if there is one, and nothing else. */
  lemma FreshCallSends(bridges: seq<Bridge>, actions: seq<BridgeAction>, j: nat)
    requires BridgeRun(bridges, actions) && j < |actions| && Effective(actions[j]) && !GoesOn(actions, j)
    ensures var latest := LatestCommand(SeriesOf(bridges[j].data, actions[j].id).events, actions[j].cursor.r);
            SentAt(bridges, actions, j) == if latest.Some? then [latest.value] else []
  {
    ForgetsIff(bridges, actions, j);
  }

  /** So a live call with nothing new to tell sends nothing. */
  lemma QuietCallSendsNothing(bridges: seq<Bridge>, actions: seq<BridgeAction>, j: nat)
    requires BridgeRun(bridges, actions) && j < |actions| && GoesOn(actions, j)
    requires var events := SeriesOf(bridges[j].data, actions[j].id).events;
             && Commands(Filter(events, Between(Previous(actions, j).value.cursor.r, actions[j].cursor.r))) == []
             && LastOf(None, SentSince(bridges, actions, j)) == LatestCommand(events, actions[j].cursor.r)
    ensures SentAt(bridges, actions, j) == []
  {
    ForgetsIff(bridges, actions, j);
    RemembersPrevious(bridges, actions, j);
    BridgeRunInv(bridges, actions, j);
    SentIsSince(bridges, actions, j);
  }

  /** `at` leads through `commands`: each is matched by the one sent last by then, `last` before any is sent, and nothing else is sent. */
  ghost predicate Follows(last: Option<GearCommand>, commands: seq<GearCommand>, sent: seq<GearCommand>, at: seq<int>) {
    && |at| == |commands|
    && (forall i :: 0 <= i < |at| ==> -1 <= at[i] < |sent| && commands[i] == (if at[i] < 0 then last.GetOr(commands[i]) else sent[at[i]]))
    && (forall i :: 0 <= i < |at| && at[i] < 0 ==> last.Some?)
    && (forall i :: 0 <= i < |at| ==> var before := if i == 0 then -1 else at[i - 1]; before <= at[i] <= before + 1)
    && (if commands == [] then sent == [] else at[|at| - 1] == |sent| - 1)
  }

  lemma FollowsOneMore(last: Option<GearCommand>, commands: seq<GearCommand>, kept: seq<GearCommand>, at: seq<int>,
                       all: seq<GearCommand>, sent: seq<GearCommand>, command: GearCommand)
    requires Follows(last, commands, kept, at) && all == commands + [command]
    requires sent == if LastOf(last, kept) == Some(command) then kept else kept + [command]
    ensures Follows(last, all, sent, at + [|sent| - 1])
  {
    var more := at + [|sent| - 1];
    forall i | 0 <= i < |at|
      ensures more[i] == at[i] && all[i] == commands[i] && (at[i] >= 0 ==> sent[at[i]] == kept[at[i]])
    {
    }
    assert (if |at| == 0 then -1 else more[|at| - 1]) == |kept| - 1;
  }

  lemma {:induction false} DeduplicateFollows(last: Option<GearCommand>, commands: seq<GearCommand>) returns (at: seq<int>)
    ensures Follows(last, commands, Deduplicate(last, commands), at)
  {
    if commands == [] {
      at := [];
    } else {
      var n := |commands| - 1;
      var before := DeduplicateFollows(last, commands[..n]);
      FollowsOneMore(last, commands[..n], Deduplicate(last, commands[..n]), before, commands, Deduplicate(last, commands), commands[n]);
      at := before + [|Deduplicate(last, commands)| - 1];
    }
  }

  /** A replay snapshot that goes on leads the simulator through every gear command crossed since the previous one, in order. */
  lemma ReplayFollowsCommands(bridges: seq<Bridge>, actions: seq<BridgeAction>, j: nat) returns (at: seq<int>)
    requires BridgeRun(bridges, actions) && j < |actions| && GoesOn(actions, j) && !actions[j].mode.Live?
    ensures var events := SeriesOf(bridges[j].data, actions[j].id).events;
            var crossed := Commands(Filter(events, Between(Previous(actions, j).value.cursor.r, actions[j].cursor.r)));
            Follows(LastOf(None, SentSince(bridges, actions, j)), crossed, SentAt(bridges, actions, j), at)
  {
    var call := CallAt(bridges[j], actions[j]);
    ForgetsIff(bridges, actions, j);
    RemembersPrevious(bridges, actions, j);
    BridgeRunInv(bridges, actions, j);
    SentIsSince(bridges, actions, j);
    at := DeduplicateFollows(bridges[j].tracker.last,
                             Commands(Filter(call.Events(), Between(bridges[j].tracker.cursor.value, call.cursor))));
  }

  // ----- the simulator and the remote viewer -----------------------------------------------

  /** The gear the viewer shows after a command. */
  function ShownFor(command: Option<GearCommand>): Option<bool> {
    match command
    case None => None
    case Some(c) => Some(c.Down?)
  }

  predicate Commanded(s: seq<Sample<Event>>, i: nat)
    requires i < |s|
  {
    CommandOf(s[i].value).Some?
  }

  /** Some gear command is followed by a spawn, and none follows that. */
  ghost predicate RespawnedUncommanded(s: seq<Sample<Event>>) {
    exists i: nat, j: nat :: i < j < |s| && Commanded(s, i) && s[j].value.Spawn? && forall k: nat :: j < k < |s| ==> !Commanded(s, k)
  }

  lemma {:induction false} CommandedLast(s: seq<Sample<Event>>)
    ensures LastWhere(s, IsGear()).Some? <==> exists i: nat :: i < |s| && Commanded(s, i)
  {
    if s != [] {
      var n := |s| - 1;
      CommandedLast(s[..n]);
      if i: nat :| i < |s[..n]| && Commanded(s[..n], i) {
        assert Commanded(s, i);
      }
      if i: nat :| i < n && Commanded(s, i) {
        assert Commanded(s[..n], i);
      }
      assert Commanded(s, n) <==> IsGear()(s[n]);
    }
  }

  lemma RespawnedBefore(s: seq<Sample<Event>>, init: seq<Sample<Event>>)
    requires s != [] && !Commanded(s, |s| - 1) && init == s[..|s| - 1] && RespawnedUncommanded(init)
    ensures RespawnedUncommanded(s)
  {
    var i: nat, j: nat :| i < j < |init| && Commanded(init, i) && init[j].value.Spawn? && forall k: nat :: j < k < |init| ==> !Commanded(init, k);
    assert Commanded(s, i) && s[j].value.Spawn?;
    forall k: nat | j < k < |s|
      ensures !Commanded(s, k)
    {
      assert k < |init| ==> !Commanded(init, k);
    }
  }

  lemma RespawnedNow(s: seq<Sample<Event>>, init: seq<Sample<Event>>)
    requires s != [] && init == s[..|s| - 1] && s[|s| - 1].value.Spawn? && LastWhere(init, IsGear()).Some?
    ensures RespawnedUncommanded(s)
  {
    CommandedLast(init);
    var i: nat :| i < |init| && Commanded(init, i);
    assert Commanded(s, i);
  }

  lemma RespawnedThen(s: seq<Sample<Event>>, init: seq<Sample<Event>>)
    requires s != [] && init == s[..|s| - 1] && RespawnedUncommanded(s)
    ensures RespawnedUncommanded(init) || (s[|s| - 1].value.Spawn? && LastWhere(init, IsGear()).Some?)
  {
    var i: nat, j: nat :| i < j < |s| && Commanded(s, i) && s[j].value.Spawn? && forall k: nat :: j < k < |s| ==> !Commanded(s, k);
    assert Commanded(init, i);
    if j < |init| {
      assert init[j].value.Spawn?;
      assert forall k: nat :: j < k < |init| ==> !Commanded(s, k) && init[k] == s[k];
    } else {
      CommandedLast(init);
    }
  }

  lemma {:induction false} ScanIsCommand(s: seq<Sample<Event>>)
    ensures var last := LastWhere(s, IsGear());
            var shown := ShownFor(if last.Some? then CommandOf(last.value.value) else None);
            ScanGear(s) == (if RespawnedUncommanded(s) then None else shown)
    ensures RespawnedUncommanded(s) ==> LastWhere(s, IsGear()).Some?
  {
    if s != [] {
      var n := |s| - 1;
      ScanIsCommand(s[..n]);
      if RespawnedUncommanded(s) {
        RespawnedThen(s, s[..n]);
      }
      if RespawnedUncommanded(s[..n]) && !Commanded(s, n) {
        RespawnedBefore(s, s[..n]);
      }
      if s[n].value.Spawn? && LastWhere(s[..n], IsGear()).Some? {
        RespawnedNow(s, s[..n]);
      }
    }
  }

  /**
   The simulator bridge and the remote viewer read one history: the latest gear command at a cursor is what the
   viewer's scan shows there, if and only if no spawn followed the last command; after a respawn the bridge still has
   the gear of the flight before, and the viewer none.
   */
  lemma BridgeAgreesWithViewerIff(events: seq<Sample<Event>>, cursor: real)
    ensures ScanGear(Filter(events, UpTo(cursor))) == ShownFor(LatestCommand(events, cursor))
            <==> !RespawnedUncommanded(Filter(events, UpTo(cursor)))
  {
    var s := Filter(events, UpTo(cursor));
    LastWhereOfFilter(events, UpTo(cursor), IsGear(), GearBy(cursor));
    LastWhereFound(events, GearBy(cursor));
    ScanIsCommand(s);
  }
}
