/**
 The persistence operation manager: one operation at a time, a bounded list of
 records, and actions that run only while nothing is active, as interleaved steps.
 */
module Operations {
  import opened Common

  const MAX_OPERATIONS := 128

  datatype State = Queued | Running | Succeeded | Failed

  predicate Terminal(s: State) {
    s.Succeeded? || s.Failed?
  }

  datatype Record = Record(id: nat, state: State)

  // ----- the record list ------------------------------------------------------------

  /** Push a record and evict the oldest beyond the limit. */
  function Pushed(records: seq<Record>, record: Record): (r: seq<Record>)
    ensures r != [] && r[|r| - 1] == record
    ensures |r| <= MAX_OPERATIONS && |r| <= |records| + 1
    ensures r[..|r| - 1] == records[|records| + 1 - |r|..]
  {
    var all := records + [record];
    if |all| > MAX_OPERATIONS then all[|all| - MAX_OPERATIONS..] else all
  }

  /** `iter_mut().find(..)`: the first record with the identifier. */
  function Find(records: seq<Record>, id: nat): (k: Option<nat>)
    ensures k.Some? ==> k.value < |records| && records[k.value].id == id
    ensures k.None? ==> forall i :: 0 <= i < |records| ==> records[i].id != id
    ensures k.Some? ==> forall i :: 0 <= i < k.value ==> records[i].id != id
  {
    if records == [] then None
    else if records[0].id == id then Some(0)
    else match Find(records[1..], id) case Some(k) => Some(k + 1) case None => None
  }

  /** `None` when the record is gone: the update returns without clearing `active`. */
  function Marked(records: seq<Record>, id: nat, state: State): Option<seq<Record>> {
    match Find(records, id)
    case Some(k) => Some(records[k := Record(id, state)])
    case None => None
  }

  /** The deque behind the records lock, as the manager updates it. */
  class RecordList {
    var records: seq<Record>

    constructor ()
      ensures records == []
    {
      records := [];
    }

    method PushRecord(record: Record)
      modifies this
      ensures records == Pushed(old(records), record)
    {
      records := records + [record];
      ghost var all := records;
      while |records| > MAX_OPERATIONS
        invariant |records| <= |all| && records == all[|all| - |records|..]
        invariant |records| >= Min(|all|, MAX_OPERATIONS)
      {
        records := records[1..];
      }
    }

    method Mark(id: nat, state: State) returns (found: bool)
      modifies this
      ensures found == Marked(old(records), id, state).Some?
      ensures records == Marked(old(records), id, state).GetOr(old(records))
    {
      for i := 0 to |records|
        invariant records == old(records)
        invariant forall j :: 0 <= j < i ==> records[j].id != id
      {
        if records[i].id == id {
          records := records[i := Record(id, state)];
          return true;
        }
      }
      found := false;
    }
  }

  // ----- the threads ------------------------------------------------------------------

  datatype Pc =
    | Idle
    // begin
    | BeginLock
    | BeginSwap                        // holds the coordination lock, about to exchange `active`
    | BeginRefuse                      // found it set: about to release and report a conflict
    | BeginPush                        // set it: about to push the record
    | BeginUnlock(id: nat)
    // the operation itself, in the background
    | MarkRunning(id: nat)
    | Work(id: nat)
    | MarkDone(id: nat, outcome: State)
    | ClearLock(id: nat)               // record terminal: about to take the coordination lock
    | ClearStore(id: nat)
    | ClearUnlock
    // run_when_idle
    | IdleLock
    | IdleCheck
    | IdleRefuse
    | IdleAct
    | IdleUnlock

  datatype Choice = Begin | WhenIdle | Succeed | Fail | Continue

  datatype Manager = Manager(
    active: bool,
    coordination: Option<nat>,
    records: seq<Record>,
    nextId: nat,              // stands for a fresh UUID
    pcs: seq<Pc>)

  function Fresh(threads: nat): Manager {
    Manager(false, None, [], 0, seq(threads, i => Idle))
  }

  function Goto(m: Manager, t: nat, pc: Pc): Manager
    requires t < |m.pcs|
  {
    m.(pcs := m.pcs[t := pc])
  }

  function Acquire(m: Manager, t: nat, pc: Pc): Option<Manager>
    requires t < |m.pcs|
  {
    if m.coordination.None? then Some(Goto(m, t, pc).(coordination := Some(t))) else None
  }

  function Release(m: Manager, t: nat, pc: Pc): Option<Manager>
    requires t < |m.pcs|
  {
    Some(Goto(m, t, pc).(coordination := None))
  }

  /** One step of thread `t`; `None` when it is blocked, or idle and not asked for anything. */
  function Next(m: Manager, t: nat, choice: Choice): Option<Manager>
    requires t < |m.pcs|
  {
    match m.pcs[t]
    case Idle =>
      if choice.Begin? then Some(Goto(m, t, BeginLock)) else if choice.WhenIdle? then Some(Goto(m, t, IdleLock)) else None
    case BeginLock => Acquire(m, t, BeginSwap)
    case BeginSwap => if m.active then Some(Goto(m, t, BeginRefuse)) else Some(Goto(m, t, BeginPush).(active := true))
    case BeginRefuse => Release(m, t, Idle)
    case BeginPush =>
      Some(Goto(m, t, BeginUnlock(m.nextId)).(records := Pushed(m.records, Record(m.nextId, Queued)), nextId := m.nextId + 1))
    case BeginUnlock(id) => Release(m, t, MarkRunning(id))
    case MarkRunning(id) => Some(Goto(m, t, Work(id)).(records := Marked(m.records, id, Running).GetOr(m.records)))
    case Work(id) =>
      if choice.Succeed? then Some(Goto(m, t, MarkDone(id, Succeeded))) else Some(Goto(m, t, MarkDone(id, Failed)))
    case MarkDone(id, outcome) =>
      (match Marked(m.records, id, outcome)
       case None => Some(Goto(m, t, Idle))
       case Some(records) => Some(Goto(m, t, ClearLock(id)).(records := records)))
    case ClearLock(id) => Acquire(m, t, ClearStore(id))
    case ClearStore(_) => Some(Goto(m, t, ClearUnlock).(active := false))
    case ClearUnlock => Release(m, t, Idle)
    case IdleLock => Acquire(m, t, IdleCheck)
    case IdleCheck => Some(Goto(m, t, if m.active then IdleRefuse else IdleAct))
    case IdleRefuse => Release(m, t, Idle)
    case IdleAct => Some(Goto(m, t, IdleUnlock))
    case IdleUnlock => Release(m, t, Idle)
  }

  predicate StepOf(m: Manager, step: (nat, Choice), next: Manager) {
    step.0 < |m.pcs| && Next(m, step.0, step.1) == Some(next)
  }

  ghost predicate Run(managers: seq<Manager>, steps: seq<(nat, Choice)>) {
    && |managers| == |steps| + 1
    && managers[0] == Fresh(|managers[0].pcs|)
    && forall i :: 0 <= i < |steps| ==> StepOf(managers[i], steps[i], managers[i + 1])
  }

  // ----- the invariant ---------------------------------------------------------------

  predicate HoldsCoordination(pc: Pc) {
    || pc.BeginSwap? || pc.BeginRefuse? || pc.BeginPush? || pc.BeginUnlock? || pc.ClearStore? || pc.ClearUnlock?
    || pc.IdleCheck? || pc.IdleRefuse? || pc.IdleAct? || pc.IdleUnlock?
  }

  /** Between its exchange of `active` and its store. */
  predicate Owner(pc: Pc) {
    pc.BeginPush? || pc.BeginUnlock? || pc.MarkRunning? || pc.Work? || pc.MarkDone? || pc.ClearLock? || pc.ClearStore?
  }

  ghost predicate CoordinationOk(m: Manager) {
    && (forall t :: 0 <= t < |m.pcs| ==> (HoldsCoordination(m.pcs[t]) <==> m.coordination == Some(t)))
    && (m.coordination.Some? ==> m.coordination.value < |m.pcs|)
  }

  /** `active` is set exactly while one thread owns the operation, and no idle action is running. */
  ghost predicate ActiveOk(m: Manager) {
    && (m.active <==> exists t :: 0 <= t < |m.pcs| && Owner(m.pcs[t]))
    && (forall s, t :: 0 <= s < |m.pcs| && 0 <= t < |m.pcs| ==> (Owner(m.pcs[s]) && Owner(m.pcs[t]) ==> s == t))
    && (forall t :: 0 <= t < |m.pcs| && m.pcs[t].IdleAct? ==> !m.active)
  }

  ghost predicate AllTerminal(records: seq<Record>) {
    forall i :: 0 <= i < |records| ==> Terminal(records[i].state)
  }

  /** The newest record is the one named `id`, with a state that satisfies `p`; all older ones are finished. */
  ghost predicate Newest(records: seq<Record>, id: nat, states: set<State>) {
    && records != []
    && records[|records| - 1].id == id && records[|records| - 1].state in states
    && AllTerminal(records[..|records| - 1])
  }

  /** What the records look like while a thread is at `pc`. */
  ghost predicate RecordFits(records: seq<Record>, pc: Pc) {
    match pc
    case BeginPush => AllTerminal(records)
    case BeginUnlock(id) => Newest(records, id, {Queued})
    case MarkRunning(id) => Newest(records, id, {Queued})
    case Work(id) => Newest(records, id, {State.Running})
    case MarkDone(id, outcome) => Newest(records, id, {State.Running}) && Terminal(outcome)
    case ClearLock(id) => Newest(records, id, {Succeeded, Failed})
    case ClearStore(id) => Newest(records, id, {Succeeded, Failed})
    case _ => true
  }

  /** At most 128 records, oldest first. */
  ghost predicate ListOk(records: seq<Record>, nextId: nat) {
    && |records| <= MAX_OPERATIONS
    && (forall i :: 0 <= i < |records| ==> records[i].id < nextId)
    && (forall i, j :: 0 <= i < j < |records| ==> records[i].id < records[j].id)
  }

  ghost predicate RecordsOk(m: Manager) {
    && ListOk(m.records, m.nextId)
    && (!m.active ==> AllTerminal(m.records))
    && (forall t :: 0 <= t < |m.pcs| ==> RecordFits(m.records, m.pcs[t]))
  }

  ghost predicate Inv(m: Manager) {
    CoordinationOk(m) && ActiveOk(m) && RecordsOk(m)
  }

  lemma CoordinationPasses(m: Manager, t: nat, choice: Choice)
    requires t < |m.pcs| && Next(m, t, choice).Some?
    ensures var next := Next(m, t, choice).value;
            && |next.pcs| == |m.pcs| && next.pcs == m.pcs[t := next.pcs[t]]
            && Passes(m.coordination, next.coordination, t, HoldsCoordination(m.pcs[t]), HoldsCoordination(next.pcs[t]))
  {
    match m.pcs[t]
    case MarkRunning(_) =>
    case MarkDone(_, _) =>
    case BeginPush =>
    case Work(_) =>
    case _ =>
  }

  lemma PassedCoordinationOk(m: Manager, t: nat, next: Manager)
    requires t < |m.pcs| == |next.pcs| && CoordinationOk(m) && next.pcs == m.pcs[t := next.pcs[t]]
    requires Passes(m.coordination, next.coordination, t, HoldsCoordination(m.pcs[t]), HoldsCoordination(next.pcs[t]))
    ensures CoordinationOk(next)
  {
    assert HoldsCoordination(m.pcs[t]) <==> m.coordination == Some(t);
  }

  lemma CoordinationKept(m: Manager, t: nat, choice: Choice)
    requires t < |m.pcs| && CoordinationOk(m) && Next(m, t, choice).Some?
    ensures CoordinationOk(Next(m, t, choice).value)
  {
    CoordinationPasses(m, t, choice);
    PassedCoordinationOk(m, t, Next(m, t, choice).value);
  }

  lemma ActiveKept(m: Manager, t: nat, choice: Choice)
    requires t < |m.pcs| && Inv(m) && Next(m, t, choice).Some?
    ensures ActiveOk(Next(m, t, choice).value)
  {
    var next := Next(m, t, choice).value;
    RecordFound(m, t);
    assert next.pcs == m.pcs[t := next.pcs[t]];
    assert Owner(m.pcs[t]) ==> m.active;
    forall s | 0 <= s < |m.pcs| && next.pcs[s].IdleAct?
      ensures !next.active
    {
      assert s != t ==> HoldsCoordination(m.pcs[s]);
      assert HoldsCoordination(m.pcs[t]) <==> m.coordination == Some(t);
    }
    if Owner(next.pcs[t]) {
      assert next.active;
    } else {
      forall s | 0 <= s < |m.pcs|
        ensures Owner(next.pcs[s]) <==> s != t && Owner(m.pcs[s])
      {
      }
    }
  }

  /** The active operation's record is still there to be updated: eviction takes only finished ones. */
  lemma RecordFound(m: Manager, t: nat)
    requires t < |m.pcs| && RecordsOk(m)
    ensures m.pcs[t].MarkRunning? || m.pcs[t].MarkDone? ==> Find(m.records, m.pcs[t].id) == Some(|m.records| - 1)
  {
    assert RecordFits(m.records, m.pcs[t]);
  }

  lemma OthersHaveNoRecord(m: Manager, t: nat, s: nat)
    requires t < |m.pcs| && s < |m.pcs| && s != t && ActiveOk(m) && (Owner(m.pcs[t]) || !m.active)
    ensures !Owner(m.pcs[s])
  {
  }

  lemma PushedOk(records: seq<Record>, id: nat)
    requires ListOk(records, id) && AllTerminal(records)
    ensures var after := Pushed(records, Record(id, Queued)); ListOk(after, id + 1) && Newest(after, id, {Queued})
  {
    var after := Pushed(records, Record(id, Queued));
    var gone := |records| + 1 - |after|;
    forall i | 0 <= i < |after| - 1
      ensures after[i] == records[gone + i]
    {
      assert after[..|after| - 1][i] == records[gone..][i];
    }
  }

  lemma MarkedOk(records: seq<Record>, id: nat, state: State, nextId: nat)
    requires ListOk(records, nextId) && records != [] && records[|records| - 1].id == id
    requires AllTerminal(records[..|records| - 1])
    ensures Marked(records, id, state).Some?
    ensures ListOk(Marked(records, id, state).value, nextId) && Newest(Marked(records, id, state).value, id, {state})
  {
    var after := Marked(records, id, state).value;
    assert after == records[|records| - 1 := Record(id, state)];
    assert after[..|records| - 1] == records[..|records| - 1];
  }

  /** What the step of a thread does to the records, when it does anything. */
  lemma MarkStep(m: Manager, t: nat, choice: Choice, id: nat, state: State)
    requires t < |m.pcs| && ListOk(m.records, m.nextId) && RecordFits(m.records, m.pcs[t])
    requires (m.pcs[t] == MarkRunning(id) && state == State.Running) || m.pcs[t] == MarkDone(id, state)
    ensures Next(m, t, choice).Some?
    ensures var next := Next(m, t, choice).value;
            ListOk(next.records, next.nextId) && RecordFits(next.records, next.pcs[t])
  {
    MarkedOk(m.records, id, state, m.nextId);
  }

  lemma PushStep(m: Manager, t: nat, choice: Choice)
    requires t < |m.pcs| && ListOk(m.records, m.nextId) && RecordFits(m.records, m.pcs[t]) && m.pcs[t].BeginPush?
    ensures Next(m, t, choice).Some?
    ensures var next := Next(m, t, choice).value;
            ListOk(next.records, next.nextId) && RecordFits(next.records, next.pcs[t])
  {
    PushedOk(m.records, m.nextId);
  }

  lemma QuietStep(m: Manager, t: nat, choice: Choice)
    requires t < |m.pcs| && RecordFits(m.records, m.pcs[t]) && (!m.active ==> AllTerminal(m.records))
    requires !m.pcs[t].BeginPush? && !m.pcs[t].MarkRunning? && !m.pcs[t].MarkDone? && Next(m, t, choice).Some?
    ensures var next := Next(m, t, choice).value;
            next.records == m.records && next.nextId == m.nextId && RecordFits(next.records, next.pcs[t])
  {
  }

  lemma StepRecords(m: Manager, t: nat, choice: Choice)
    requires t < |m.pcs| && RecordsOk(m) && Next(m, t, choice).Some?
    ensures var next := Next(m, t, choice).value;
            ListOk(next.records, next.nextId) && RecordFits(next.records, next.pcs[t])
  {
    assert RecordFits(m.records, m.pcs[t]);
    match m.pcs[t]
    case BeginPush => PushStep(m, t, choice);
    case MarkRunning(id) => MarkStep(m, t, choice, id, State.Running);
    case MarkDone(id, outcome) => MarkStep(m, t, choice, id, outcome);
    case _ => QuietStep(m, t, choice);
  }

  lemma NewestTerminal(records: seq<Record>, id: nat)
    requires Newest(records, id, {Succeeded, Failed})
    ensures AllTerminal(records)
  {
    forall i | 0 <= i < |records|
      ensures Terminal(records[i].state)
    {
      assert i < |records| - 1 ==> records[..|records| - 1][i] == records[i];
    }
  }

  lemma RecordsKept(m: Manager, t: nat, choice: Choice)
    requires t < |m.pcs| && Inv(m) && Next(m, t, choice).Some?
    ensures RecordsOk(Next(m, t, choice).value)
  {
    var next := Next(m, t, choice).value;
    StepRecords(m, t, choice);
    assert RecordFits(m.records, m.pcs[t]);
    if m.pcs[t].ClearStore? {
      NewestTerminal(m.records, m.pcs[t].id);
    }
    assert next.records != m.records || (m.active && !next.active) ==> Owner(m.pcs[t]);
    forall s | 0 <= s < |m.pcs|
      ensures RecordFits(next.records, next.pcs[s])
    {
      if s != t && Owner(m.pcs[t]) {
        OthersHaveNoRecord(m, t, s);
      }
    }
  }

  lemma NextKeeps(m: Manager, t: nat, choice: Choice)
    requires t < |m.pcs| && Inv(m) && Next(m, t, choice).Some?
    ensures Inv(Next(m, t, choice).value)
  {
    CoordinationKept(m, t, choice);
    ActiveKept(m, t, choice);
    RecordsKept(m, t, choice);
  }

  lemma {:induction false} RunInv(managers: seq<Manager>, steps: seq<(nat, Choice)>, i: nat)
    requires Run(managers, steps) && i < |managers|
    ensures Inv(managers[i])
  {
    if i > 0 {
      RunInv(managers, steps, i - 1);
      assert StepOf(managers[i - 1], steps[i - 1], managers[i]);
      NextKeeps(managers[i - 1], steps[i - 1].0, steps[i - 1].1);
    }
  }

  // ----- in every interleaving ------------------------------------------------------------

  /** At most one record is unfinished, and it is the newest. */
  lemma OneUnfinished(managers: seq<Manager>, steps: seq<(nat, Choice)>, i: nat, k: nat)
    requires Run(managers, steps) && i < |managers|
    requires k < |managers[i].records| && !Terminal(managers[i].records[k].state)
    ensures k == |managers[i].records| - 1
  {
    RunInv(managers, steps, i);
    var m := managers[i];
    assert m.active;
    var t :| 0 <= t < |m.pcs| && Owner(m.pcs[t]);
    assert RecordFits(m.records, m.pcs[t]);
    forall j | 0 <= j < |m.records| - 1
      ensures Terminal(m.records[j].state)
    {
      assert m.records[..|m.records| - 1][j] == m.records[j];
    }
  }

  /** The record of an operation still to be updated is in the list, so its last update goes on to clear `active`. */
  lemma NeverEvicted(managers: seq<Manager>, steps: seq<(nat, Choice)>, i: nat, t: nat, choice: Choice)
    requires Run(managers, steps) && i < |managers| && t < |managers[i].pcs| && managers[i].pcs[t].MarkDone?
    ensures |managers[i].records| <= MAX_OPERATIONS
    ensures Next(managers[i], t, choice).Some?
    ensures Next(managers[i], t, choice).value.pcs[t] == ClearLock(managers[i].pcs[t].id)
    ensures AllTerminal(Next(managers[i], t, choice).value.records)
  {
    RunInv(managers, steps, i);
    RecordFound(managers[i], t);
    assert RecordFits(managers[i].records, managers[i].pcs[t]);
  }

  /** An action run when idle overlaps neither an active operation nor another such action. */
  lemma IdleActionsExclude(managers: seq<Manager>, steps: seq<(nat, Choice)>, i: nat, s: nat, t: nat)
    requires Run(managers, steps) && i < |managers| && s < |managers[i].pcs| && t < |managers[i].pcs|
    requires managers[i].pcs[s].IdleAct?
    ensures !managers[i].active && !Owner(managers[i].pcs[t])
    ensures managers[i].pcs[t].IdleAct? ==> s == t
  {
    RunInv(managers, steps, i);
    assert HoldsCoordination(managers[i].pcs[s]);
    assert HoldsCoordination(managers[i].pcs[t]) <==> managers[i].coordination == Some(t);
  }

  /** `active` is never left set: while it is, the one operation that owns it is under way. */
  lemma ActiveHasOneOwner(managers: seq<Manager>, steps: seq<(nat, Choice)>, i: nat) returns (t: nat)
    requires Run(managers, steps) && i < |managers| && managers[i].active
    ensures t < |managers[i].pcs| && Owner(managers[i].pcs[t])
    ensures forall s :: 0 <= s < |managers[i].pcs| && Owner(managers[i].pcs[s]) ==> s == t
  {
    RunInv(managers, steps, i);
    t :| 0 <= t < |managers[i].pcs| && Owner(managers[i].pcs[t]);
  }

  /** No deadlock: while any call or operation is in progress, one of them can take a step. */
  lemma SomeThreadCanStep(managers: seq<Manager>, steps: seq<(nat, Choice)>, i: nat, t: nat) returns (u: nat)
    requires Run(managers, steps) && i < |managers| && t < |managers[i].pcs| && managers[i].pcs[t] != Idle
    ensures u < |managers[i].pcs| && managers[i].pcs[u] != Idle && Next(managers[i], u, Continue).Some?
  {
    RunInv(managers, steps, i);
    u := t;
    if Next(managers[i], t, Continue).None? {
      u := managers[i].coordination.value;
      assert HoldsCoordination(managers[i].pcs[u]);
    }
  }

  // ----- what callers and operations end with -----------------------------------------------

  /** A begin, or an action to run when idle, is refused exactly when some thread owns an operation. */
  lemma RefusedIff(managers: seq<Manager>, steps: seq<(nat, Choice)>, i: nat, t: nat, choice: Choice)
    requires Run(managers, steps) && i < |managers| && t < |managers[i].pcs|
    requires managers[i].pcs[t].BeginSwap? || managers[i].pcs[t].IdleCheck?
    ensures Next(managers[i], t, choice).Some?
    ensures var pc := Next(managers[i], t, choice).value.pcs[t];
            && (pc.BeginRefuse? || pc.IdleRefuse? <==> exists s :: 0 <= s < |managers[i].pcs| && Owner(managers[i].pcs[s]))
            && (pc.BeginPush? || pc.IdleAct? <==> forall s :: 0 <= s < |managers[i].pcs| ==> !Owner(managers[i].pcs[s]))
  {
    RunInv(managers, steps, i);
  }

  predicate Carries(pc: Pc, id: nat) {
    match pc
    case BeginUnlock(n) => n == id
    case MarkRunning(n) => n == id
    case Work(n) => n == id
    case MarkDone(n, _) => n == id
    case _ => false
  }

  ghost predicate RecordedAs(records: seq<Record>, id: nat, state: State) {
    forall k :: 0 <= k < |records| && records[k].id == id ==> records[k].state == state
  }

  /** The outcome of an operation is about to be recorded by `t`, or has been recorded for good. */
  ghost predicate Decided(m: Manager, t: nat, id: nat, outcome: State)
    requires t < |m.pcs|
  {
    && id < m.nextId
    && if m.pcs[t] == MarkDone(id, outcome) then RecordedAs(m.records, id, State.Running)
       else RecordedAs(m.records, id, outcome) && forall s :: 0 <= s < |m.pcs| ==> !Carries(m.pcs[s], id)
  }

  lemma OnlyNewestNamed(records: seq<Record>, id: nat, states: set<State>, nextId: nat, state: State)
    requires ListOk(records, nextId) && Newest(records, id, states) && states == {state}
    ensures RecordedAs(records, id, state)
  {
  }

  lemma WorkDecides(m: Manager, t: nat, id: nat, choice: Choice)
    requires t < |m.pcs| && Inv(m) && m.pcs[t] == Work(id)
    ensures Next(m, t, choice).Some?
    ensures Decided(Next(m, t, choice).value, t, id, if choice.Succeed? then Succeeded else Failed)
  {
    assert RecordFits(m.records, m.pcs[t]);
    OnlyNewestNamed(m.records, id, {State.Running}, m.nextId, State.Running);
  }

  lemma MarkedAs(records: seq<Record>, named: nat, state: State, id: nat, before: State, nextId: nat)
    requires ListOk(records, nextId) && RecordedAs(records, id, before)
    ensures RecordedAs(Marked(records, named, state).GetOr(records), id, if named == id then state else before)
  {
  }

  lemma PushedAs(records: seq<Record>, named: nat, id: nat, state: State)
    requires named != id && RecordedAs(records, id, state)
    ensures RecordedAs(Pushed(records, Record(named, Queued)), id, state)
  {
    var after := Pushed(records, Record(named, Queued));
    var gone := |records| + 1 - |after|;
    forall k | 0 <= k < |after| && after[k].id == id
      ensures after[k].state == state
    {
      assert k < |after| - 1 ==> after[k] == after[..|after| - 1][k] == records[gone..][k];
    }
  }

  lemma RecordsMove(m: Manager, u: nat, choice: Choice)
    requires u < |m.pcs| && Next(m, u, choice).Some?
    ensures var next, pc := Next(m, u, choice).value, m.pcs[u];
            && next.pcs == m.pcs[u := next.pcs[u]]
            && next.records == (match pc
                case BeginPush => Pushed(m.records, Record(m.nextId, Queued))
                case MarkRunning(n) => Marked(m.records, n, State.Running).GetOr(m.records)
                case MarkDone(n, outcome) => Marked(m.records, n, outcome).GetOr(m.records)
                case _ => m.records)
            && next.nextId == (if pc.BeginPush? then m.nextId + 1 else m.nextId)
            && forall n :: Carries(next.pcs[u], n) ==> Carries(pc, n) || (pc.BeginPush? && n == m.nextId)
  {
  }

  /** After the outcome has been recorded no step changes it. */
  lemma RecordedStays(m: Manager, t: nat, id: nat, outcome: State, u: nat, choice: Choice)
    requires t < |m.pcs| && u < |m.pcs| && Inv(m) && Decided(m, t, id, outcome) && m.pcs[t] != MarkDone(id, outcome)
    requires Next(m, u, choice).Some?
    ensures Decided(Next(m, u, choice).value, t, id, outcome)
  {
    var next := Next(m, u, choice).value;
    RecordsMove(m, u, choice);
    assert !Carries(m.pcs[u], id);
    match m.pcs[u]
    case BeginPush => PushedAs(m.records, m.nextId, id, outcome);
    case MarkRunning(n) => MarkedAs(m.records, n, State.Running, id, outcome, m.nextId);
    case MarkDone(n, o) => MarkedAs(m.records, n, o, id, outcome, m.nextId);
    case _ =>
    assert !Carries(next.pcs[t], id);
  }

  /** The owner records its outcome; until then nobody else touches the records. */
  lemma OutcomeStays(m: Manager, t: nat, id: nat, outcome: State, u: nat, choice: Choice)
    requires t < |m.pcs| && u < |m.pcs| && Inv(m) && Decided(m, t, id, outcome) && m.pcs[t] == MarkDone(id, outcome)
    requires Next(m, u, choice).Some?
    ensures Decided(Next(m, u, choice).value, t, id, outcome)
  {
    var next := Next(m, u, choice).value;
    RecordsMove(m, u, choice);
    if u == t {
      RecordFound(m, t);
      MarkedAs(m.records, id, outcome, id, State.Running, m.nextId);
      forall s | 0 <= s < |m.pcs|
        ensures !Carries(next.pcs[s], id)
      {
        if s != t {
          OthersHaveNoRecord(m, t, s);
        }
      }
    } else {
      OthersHaveNoRecord(m, t, u);
      assert next.pcs[t] == m.pcs[t] && next.records == m.records;
    }
  }

  lemma {:induction false} StaysDecided(managers: seq<Manager>, steps: seq<(nat, Choice)>, i: nat, j: nat, t: nat, id: nat)
    requires Run(managers, steps) && i < j < |managers| && t < |managers[i].pcs|
    requires managers[i].pcs[t] == Work(id) && steps[i].0 == t
    ensures t < |managers[j].pcs| && Decided(managers[j], t, id, if steps[i].1.Succeed? then Succeeded else Failed)
    decreases j
  {
    var outcome := if steps[i].1.Succeed? then Succeeded else Failed;
    var k := j - 1;
    RunInv(managers, steps, k);
    assert StepOf(managers[k], steps[k], managers[j]);
    if k == i {
      WorkDecides(managers[i], t, id, steps[i].1);
    } else {
      StaysDecided(managers, steps, i, k, t, id);
      RecordsMove(managers[k], steps[k].0, steps[k].1);
      if managers[k].pcs[t] == MarkDone(id, outcome) {
        OutcomeStays(managers[k], t, id, outcome, steps[k].0, steps[k].1);
      } else {
        RecordedStays(managers[k], t, id, outcome, steps[k].0, steps[k].1);
      }
    }
  }

  /**
   An operation whose work succeeds is recorded as succeeded, one whose work fails as failed: running until
   its thread records it, and from then on, for as long as the record is listed, exactly that.
   */
  lemma OutcomeRecorded(managers: seq<Manager>, steps: seq<(nat, Choice)>, i: nat, j: nat, t: nat, id: nat, k: nat)
    requires Run(managers, steps) && i < j < |managers| && t < |managers[i].pcs|
    requires managers[i].pcs[t] == Work(id) && steps[i].0 == t
    requires k < |managers[j].records| && managers[j].records[k].id == id
    ensures t < |managers[j].pcs|
    ensures managers[j].records[k].state
            == if managers[j].pcs[t].MarkDone? && managers[j].pcs[t].id == id then State.Running
               else if steps[i].1.Succeed? then Succeeded else Failed
  {
    StaysDecided(managers, steps, i, j, t, id);
    assert Carries(managers[j].pcs[t], id) <== managers[j].pcs[t].MarkDone? && managers[j].pcs[t].id == id;
  }
}
