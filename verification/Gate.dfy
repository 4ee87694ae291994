/**
 The ingestion gate: two atomics, a mutex and a readers/writer lock, as interleaved
 steps of any number of threads.  Each step is one atomic access or one lock operation.
 */
module Gate {
  import opened Common

  /** Where an ingestion call made inside a paused action is. */
  datatype Nested = Quiet | NestedCheck | NestedDrop | NestedLock

  datatype Pc =
    | Idle
    // with_ingestion
    | IngestCheck     // about to load `enabled`
    | IngestDrop      // loaded false: about to count the drop and return
    | IngestLock      // about to take the shared permit
    | IngestRecheck   // holding it, about to load `enabled` again
    | IngestDropHeld  // loaded false again
    | IngestAct       // running the action
    | IngestUnlock    // about to release the permit and return
    | IngestUnwind    // the action panicked: about to release the permit
    // with_paused
    | PauseLock       // about to take the maintenance mutex
    | PauseDisable    // about to store false
    | PauseWrite      // about to take the exclusive permit
    | PauseAct(nested: Nested)
    | PauseEnable     // guard dropped (on return or panic): about to store true
    | PauseUnlockMutex
    | PauseUnlockWrite

  datatype Choice = Ingest | Pause | Panic | Continue

  datatype Gate = Gate(
    enabled: bool,
    dropped: nat,
    mutex: Option<nat>,
    readers: set<nat>,
    writer: Option<nat>,
    pcs: seq<Pc>,
    executed: nat,    // ingestion actions completed
    finished: nat)    // ingestion calls returned

  function Open(threads: nat): Gate {
    Gate(true, 0, None, {}, None, seq(threads, i => Idle), 0, 0)
  }

  /** One step of thread `t`; `None` when it is blocked, or idle and not asked for anything. */
  function Next(g: Gate, t: nat, choice: Choice): Option<Gate>
    requires t < |g.pcs|
  {
    match g.pcs[t]
    case Idle =>
      if choice.Ingest? then Some(g.(pcs := g.pcs[t := IngestCheck]))
      else if choice.Pause? then Some(g.(pcs := g.pcs[t := PauseLock]))
      else None
    case IngestCheck => Some(g.(pcs := g.pcs[t := if g.enabled then IngestLock else IngestDrop]))
    case IngestDrop => Some(g.(pcs := g.pcs[t := Idle], dropped := g.dropped + 1, finished := g.finished + 1))
    case IngestLock =>
      if g.writer.None? then Some(g.(pcs := g.pcs[t := IngestRecheck], readers := g.readers + {t})) else None
    case IngestRecheck => Some(g.(pcs := g.pcs[t := if g.enabled then IngestAct else IngestDropHeld]))
    case IngestDropHeld => Some(g.(pcs := g.pcs[t := IngestUnlock], dropped := g.dropped + 1))
    case IngestAct =>
      if choice.Panic? then Some(g.(pcs := g.pcs[t := IngestUnwind]))
      else Some(g.(pcs := g.pcs[t := IngestUnlock], executed := g.executed + 1))
    case IngestUnlock => Some(g.(pcs := g.pcs[t := Idle], readers := g.readers - {t}, finished := g.finished + 1))
    case IngestUnwind => Some(g.(pcs := g.pcs[t := Idle], readers := g.readers - {t}))
    case PauseLock => if g.mutex.None? then Some(g.(pcs := g.pcs[t := PauseDisable], mutex := Some(t))) else None
    case PauseDisable => Some(g.(pcs := g.pcs[t := PauseWrite], enabled := false))
    case PauseWrite =>
      if g.writer.None? && g.readers == {} then Some(g.(pcs := g.pcs[t := PauseAct(Quiet)], writer := Some(t))) else None
    case PauseAct(Quiet) => Some(g.(pcs := g.pcs[t := if choice.Ingest? then PauseAct(NestedCheck) else PauseEnable]))
    case PauseAct(NestedCheck) => Some(g.(pcs := g.pcs[t := PauseAct(if g.enabled then NestedLock else NestedDrop)]))
    case PauseAct(NestedDrop) =>
      Some(g.(pcs := g.pcs[t := PauseAct(Quiet)], dropped := g.dropped + 1, finished := g.finished + 1))
    case PauseAct(NestedLock) => None
    case PauseEnable => Some(g.(pcs := g.pcs[t := PauseUnlockMutex], enabled := true))
    case PauseUnlockMutex => Some(g.(pcs := g.pcs[t := PauseUnlockWrite], mutex := None))
    case PauseUnlockWrite => Some(g.(pcs := g.pcs[t := Idle], writer := None))
  }

  ghost predicate Run(gates: seq<Gate>, steps: seq<(nat, Choice)>) {
    && |gates| == |steps| + 1
    && gates[0] == Open(|gates[0].pcs|)
    && forall i :: 0 <= i < |steps| ==> StepOf(gates[i], steps[i], gates[i + 1])
  }

  predicate StepOf(g: Gate, step: (nat, Choice), next: Gate) {
    step.0 < |g.pcs| && Next(g, step.0, step.1) == Some(next)
  }

  // ----- who holds what ------------------------------------------------------------

  predicate HoldsMutex(pc: Pc) {
    pc.PauseDisable? || pc.PauseWrite? || pc.PauseAct? || pc.PauseEnable? || pc.PauseUnlockMutex?
  }

  predicate HoldsWrite(pc: Pc) {
    pc.PauseAct? || pc.PauseEnable? || pc.PauseUnlockMutex? || pc.PauseUnlockWrite?
  }

  predicate HoldsRead(pc: Pc) {
    pc.IngestRecheck? || pc.IngestDropHeld? || pc.IngestAct? || pc.IngestUnlock? || pc.IngestUnwind?
  }

  /** Between its two stores to `enabled`. */
  predicate Pausing(pc: Pc) {
    pc.PauseWrite? || pc.PauseAct? || pc.PauseEnable?
  }

  function Returning(pcs: seq<Pc>): nat {
    if pcs == [] then 0 else Returning(pcs[..|pcs| - 1]) + if pcs[|pcs| - 1].IngestUnlock? then 1 else 0
  }

  lemma {:induction false} ReturningUpdate(pcs: seq<Pc>, t: nat, pc: Pc)
    requires t < |pcs|
    ensures Returning(pcs[t := pc]) + (if pcs[t].IngestUnlock? then 1 else 0)
            == Returning(pcs) + (if pc.IngestUnlock? then 1 else 0)
  {
    var n := |pcs| - 1;
    if t < n {
      ReturningUpdate(pcs[..n], t, pc);
      assert pcs[t := pc][..n] == pcs[..n][t := pc];
    } else {
      assert pcs[t := pc][..n] == pcs[..n];
    }
  }

  /** The mutex word names exactly the thread that holds it. */
  ghost predicate MutexOk(g: Gate) {
    && (forall t :: 0 <= t < |g.pcs| ==> (HoldsMutex(g.pcs[t]) <==> g.mutex == Some(t)))
    && (g.mutex.Some? ==> g.mutex.value < |g.pcs|)
  }

  /** So does the writer's side of the activity lock. */
  ghost predicate WriterOk(g: Gate) {
    && (forall t :: 0 <= t < |g.pcs| ==> (HoldsWrite(g.pcs[t]) <==> g.writer == Some(t)))
    && (g.writer.Some? ==> g.writer.value < |g.pcs|)
  }

  /** So does the readers' side. */
  ghost predicate ReadersOk(g: Gate) {
    && (forall t :: 0 <= t < |g.pcs| ==> (HoldsRead(g.pcs[t]) <==> t in g.readers))
    && (forall t :: t in g.readers ==> t < |g.pcs|)
  }

  ghost predicate ActivityOk(g: Gate) {
    WriterOk(g) && ReadersOk(g) && (g.writer.Some? ==> g.readers == {})
  }

  ghost predicate EnabledOk(g: Gate) {
    g.enabled <==> forall t :: 0 <= t < |g.pcs| ==> !Pausing(g.pcs[t])
  }

  ghost predicate NestedOk(g: Gate) {
    forall t :: 0 <= t < |g.pcs| ==> g.pcs[t] != PauseAct(NestedLock)
  }

  ghost predicate CountsOk(g: Gate) {
    g.executed + g.dropped == g.finished + Returning(g.pcs)
  }

  ghost predicate Inv(g: Gate) {
    MutexOk(g) && ActivityOk(g) && EnabledOk(g) && NestedOk(g) && CountsOk(g)
  }

  lemma MutexPasses(g: Gate, t: nat, choice: Choice)
    requires t < |g.pcs| && Next(g, t, choice).Some?
    ensures var next := Next(g, t, choice).value;
            && |next.pcs| == |g.pcs| && next.pcs == g.pcs[t := next.pcs[t]]
            && Passes(g.mutex, next.mutex, t, HoldsMutex(g.pcs[t]), HoldsMutex(next.pcs[t]))
  {
  }

  lemma PassedMutexOk(g: Gate, t: nat, next: Gate)
    requires t < |g.pcs| == |next.pcs| && MutexOk(g) && next.pcs == g.pcs[t := next.pcs[t]]
    requires Passes(g.mutex, next.mutex, t, HoldsMutex(g.pcs[t]), HoldsMutex(next.pcs[t]))
    ensures MutexOk(next)
  {
    assert HoldsMutex(g.pcs[t]) <==> g.mutex == Some(t);
  }

  lemma WriterPasses(g: Gate, t: nat, choice: Choice)
    requires t < |g.pcs| && Next(g, t, choice).Some?
    ensures var next := Next(g, t, choice).value;
            && |next.pcs| == |g.pcs| && next.pcs == g.pcs[t := next.pcs[t]]
            && Passes(g.writer, next.writer, t, HoldsWrite(g.pcs[t]), HoldsWrite(next.pcs[t]))
  {
  }

  lemma PassedWriterOk(g: Gate, t: nat, next: Gate)
    requires t < |g.pcs| == |next.pcs| && WriterOk(g) && next.pcs == g.pcs[t := next.pcs[t]]
    requires Passes(g.writer, next.writer, t, HoldsWrite(g.pcs[t]), HoldsWrite(next.pcs[t]))
    ensures WriterOk(next)
  {
    assert HoldsWrite(g.pcs[t]) <==> g.writer == Some(t);
  }

  lemma MutexKept(g: Gate, t: nat, choice: Choice)
    requires t < |g.pcs| && MutexOk(g) && Next(g, t, choice).Some?
    ensures MutexOk(Next(g, t, choice).value)
  {
    MutexPasses(g, t, choice);
    PassedMutexOk(g, t, Next(g, t, choice).value);
  }

  lemma WriterKept(g: Gate, t: nat, choice: Choice)
    requires t < |g.pcs| && WriterOk(g) && Next(g, t, choice).Some?
    ensures WriterOk(Next(g, t, choice).value)
  {
    WriterPasses(g, t, choice);
    PassedWriterOk(g, t, Next(g, t, choice).value);
  }

  lemma ReadersKept(g: Gate, t: nat, choice: Choice)
    requires t < |g.pcs| && ReadersOk(g) && Next(g, t, choice).Some?
    ensures ReadersOk(Next(g, t, choice).value)
  {
    var next := Next(g, t, choice).value;
    var pc := next.pcs[t];
    assert next.pcs == g.pcs[t := pc];
    assert HoldsRead(g.pcs[t]) <==> t in g.readers;
    assert next.readers == if HoldsRead(pc) then g.readers + {t} else g.readers - {t};
  }

  lemma ActivityKept(g: Gate, t: nat, choice: Choice)
    requires t < |g.pcs| && ActivityOk(g) && Next(g, t, choice).Some?
    ensures ActivityOk(Next(g, t, choice).value)
  {
    WriterKept(g, t, choice);
    ReadersKept(g, t, choice);
  }

  lemma EnabledKept(g: Gate, t: nat, choice: Choice)
    requires t < |g.pcs| && MutexOk(g) && EnabledOk(g) && Next(g, t, choice).Some?
    ensures EnabledOk(Next(g, t, choice).value)
  {
    var next := Next(g, t, choice).value;
    assert next.pcs == g.pcs[t := next.pcs[t]];
    if Pausing(next.pcs[t]) {
      assert Pausing(g.pcs[t]) || g.pcs[t].PauseDisable?;
    } else if Pausing(g.pcs[t]) {
      forall u | 0 <= u < |g.pcs| && Pausing(g.pcs[u])
        ensures u == t
      {
        assert HoldsMutex(g.pcs[u]) && HoldsMutex(g.pcs[t]);
      }
    } else {
      forall u | 0 <= u < |g.pcs|
        ensures Pausing(next.pcs[u]) <==> Pausing(g.pcs[u])
      {
      }
    }
  }

  lemma NestedKept(g: Gate, t: nat, choice: Choice)
    requires t < |g.pcs| && EnabledOk(g) && NestedOk(g) && Next(g, t, choice).Some?
    ensures NestedOk(Next(g, t, choice).value)
  {
    assert g.pcs[t] == PauseAct(NestedCheck) ==> Pausing(g.pcs[t]);
  }

  lemma CountsKept(g: Gate, t: nat, choice: Choice)
    requires t < |g.pcs| && CountsOk(g) && Next(g, t, choice).Some?
    ensures CountsOk(Next(g, t, choice).value)
  {
    var next := Next(g, t, choice).value;
    CountsMove(g, t, choice);
    ReturningUpdate(g.pcs, t, next.pcs[t]);
  }

  lemma CountsMove(g: Gate, t: nat, choice: Choice)
    requires t < |g.pcs| && Next(g, t, choice).Some?
    ensures var next := Next(g, t, choice).value;
            && |next.pcs| == |g.pcs| && next.pcs == g.pcs[t := next.pcs[t]]
            && next.executed + next.dropped + g.finished + (if g.pcs[t].IngestUnlock? then 1 else 0)
               == g.executed + g.dropped + next.finished + (if next.pcs[t].IngestUnlock? then 1 else 0)
  {
  }

  lemma NextKeeps(g: Gate, t: nat, choice: Choice)
    requires t < |g.pcs| && Inv(g) && Next(g, t, choice).Some?
    ensures Inv(Next(g, t, choice).value)
  {
    MutexKept(g, t, choice);
    ActivityKept(g, t, choice);
    EnabledKept(g, t, choice);
    NestedKept(g, t, choice);
    CountsKept(g, t, choice);
  }

  lemma {:induction false} NobodyReturning(pcs: seq<Pc>)
    requires forall t :: 0 <= t < |pcs| ==> !pcs[t].IngestUnlock?
    ensures Returning(pcs) == 0
  {
    if pcs != [] {
      NobodyReturning(pcs[..|pcs| - 1]);
    }
  }

  lemma {:induction false} RunInv(gates: seq<Gate>, steps: seq<(nat, Choice)>, i: nat)
    requires Run(gates, steps) && i < |gates|
    ensures Inv(gates[i])
  {
    if i == 0 {
      NobodyReturning(gates[0].pcs);
    } else {
      RunInv(gates, steps, i - 1);
      assert StepOf(gates[i - 1], steps[i - 1], gates[i]);
      NextKeeps(gates[i - 1], steps[i - 1].0, steps[i - 1].1);
    }
  }

  // ----- what the gate guarantees, in every interleaving ------------------------------

  /** No ingestion action overlaps a paused action, and paused actions exclude each other. */
  lemma ActionsExclude(gates: seq<Gate>, steps: seq<(nat, Choice)>, i: nat, s: nat, t: nat)
    requires Run(gates, steps) && i < |gates| && s < |gates[i].pcs| && t < |gates[i].pcs|
    requires gates[i].pcs[s].PauseAct?
    ensures !gates[i].pcs[t].IngestAct?
    ensures gates[i].pcs[t].PauseAct? ==> s == t
  {
    RunInv(gates, steps, i);
    assert HoldsWrite(gates[i].pcs[s]);
    assert HoldsRead(gates[i].pcs[t]) <==> t in gates[i].readers;
  }

  /** `enabled` is false exactly while some maintainer is between its two stores, however many are queued. */
  lemma DisabledExactlyWhilePausing(gates: seq<Gate>, steps: seq<(nat, Choice)>, i: nat)
    requires Run(gates, steps) && i < |gates|
    ensures !gates[i].enabled <==> exists t :: 0 <= t < |gates[i].pcs| && Pausing(gates[i].pcs[t])
    ensures forall s, t :: 0 <= s < |gates[i].pcs| && 0 <= t < |gates[i].pcs| ==>
              (Pausing(gates[i].pcs[s]) && Pausing(gates[i].pcs[t]) ==> s == t)
  {
    RunInv(gates, steps, i);
    forall s, t | 0 <= s < |gates[i].pcs| && 0 <= t < |gates[i].pcs| && Pausing(gates[i].pcs[s]) && Pausing(gates[i].pcs[t])
      ensures s == t
    {
      assert HoldsMutex(gates[i].pcs[s]) && HoldsMutex(gates[i].pcs[t]);
    }
  }

  /** Every ingestion call that has returned either executed its action or was counted as dropped. */
  lemma CallsAccounted(gates: seq<Gate>, steps: seq<(nat, Choice)>, i: nat)
    requires Run(gates, steps) && i < |gates|
    ensures gates[i].executed + gates[i].dropped == gates[i].finished + Returning(gates[i].pcs)
    ensures (forall t :: 0 <= t < |gates[i].pcs| ==> !gates[i].pcs[t].IngestUnlock?)
            ==> gates[i].finished == gates[i].executed + gates[i].dropped
  {
    RunInv(gates, steps, i);
    if forall t :: 0 <= t < |gates[i].pcs| ==> !gates[i].pcs[t].IngestUnlock? {
      NobodyReturning(gates[i].pcs);
    }
  }

  /** An ingestion call made inside a paused action never blocks, never touches a lock, and is dropped. */
  lemma NestedCallReturns(gates: seq<Gate>, steps: seq<(nat, Choice)>, i: nat, t: nat, choice: Choice)
    requires Run(gates, steps) && i < |gates| && t < |gates[i].pcs|
    requires gates[i].pcs[t].PauseAct? && !gates[i].pcs[t].nested.Quiet?
    ensures Next(gates[i], t, choice).Some?
    ensures var next := Next(gates[i], t, choice).value;
            && next.readers == gates[i].readers && next.writer == gates[i].writer && next.mutex == gates[i].mutex
            && next.pcs[t] == PauseAct(if gates[i].pcs[t].nested.NestedCheck? then NestedDrop else Quiet)
            && next.dropped == gates[i].dropped + if gates[i].pcs[t].nested.NestedDrop? then 1 else 0
  {
    RunInv(gates, steps, i);
    assert Pausing(gates[i].pcs[t]);
  }

  predicate CanStep(g: Gate, t: nat)
    requires t < |g.pcs|
  {
    Next(g, t, Continue).Some?
  }

  /** No deadlock: while any call is in progress, some thread in a call can take a step. */
  lemma SomeThreadCanStep(gates: seq<Gate>, steps: seq<(nat, Choice)>, i: nat, t: nat) returns (u: nat)
    requires Run(gates, steps) && i < |gates| && t < |gates[i].pcs| && gates[i].pcs[t] != Idle
    ensures u < |gates[i].pcs| && gates[i].pcs[u] != Idle && CanStep(gates[i], u)
  {
    RunInv(gates, steps, i);
    var g := gates[i];
    u := t;
    if !CanStep(g, t) {
      if g.pcs[t].PauseLock? {
        u := g.mutex.value;
        assert HoldsMutex(g.pcs[u]);
      }
      if !CanStep(g, u) {
        if g.writer.Some? {
          u := g.writer.value;
          assert HoldsWrite(g.pcs[u]);
        } else {
          SomeMember(g.readers);
          u :| u in g.readers;
          assert HoldsRead(g.pcs[u]);
        }
      }
    }
  }

  // ----- which calls execute their action -------------------------------------------------

  ghost predicate Maintained(g: Gate) {
    exists u :: 0 <= u < |g.pcs| && Pausing(g.pcs[u])
  }

  predicate Checks(pc: Pc) {
    pc.IngestCheck? || pc.IngestRecheck?
  }

  /** From step `i` on, thread `t` has loaded `enabled` only while no maintainer was pausing. */
  ghost predicate MetNoMaintenance(gates: seq<Gate>, steps: seq<(nat, Choice)>, i: nat, k: nat, t: nat)
    requires k <= |steps| < |gates|
  {
    forall m :: i <= m < k && steps[m].0 == t && t < |gates[m].pcs| && Checks(gates[m].pcs[t]) ==> !Maintained(gates[m])
  }

  /** From step `i` on, thread `t` has run an ingestion action. */
  ghost predicate Acted(gates: seq<Gate>, steps: seq<(nat, Choice)>, i: nat, k: nat, t: nat)
    requires k <= |steps| < |gates|
  {
    exists m :: i <= m < k && steps[m].0 == t && t < |gates[m].pcs| && gates[m].pcs[t].IngestAct?
  }

  /** Where a call is tells what it has met and done. */
  ghost predicate CallAt(pc: Pc, clean: bool, acted: bool) {
    match pc
    case IngestCheck => clean && !acted
    case IngestLock => clean && !acted
    case IngestRecheck => clean && !acted
    case IngestAct => clean && !acted
    case IngestDrop => !clean && !acted
    case IngestDropHeld => !clean && !acted
    case IngestUnlock => clean == acted
    case IngestUnwind => clean && acted
    case Idle => clean == acted
    case _ => false
  }

  /** Thread `t` is in the call it made at step `i` all the way up to moment `k`. */
  predicate InCall(gates: seq<Gate>, steps: seq<(nat, Choice)>, i: nat, k: nat, t: nat) {
    && i < |steps| < |gates| && i < k < |gates| && steps[i] == (t, Ingest)
    && t < |gates[i].pcs| && gates[i].pcs[t].Idle?
    && forall m :: i < m < k ==> t < |gates[m].pcs| && !gates[m].pcs[t].Idle?
  }

  lemma CallStep(g: Gate, t: nat, choice: Choice, clean: bool, acted: bool)
    requires t < |g.pcs| && Inv(g) && !g.pcs[t].Idle? && Next(g, t, choice).Some? && CallAt(g.pcs[t], clean, acted)
    ensures var next := Next(g, t, choice).value;
            |next.pcs| == |g.pcs|
            && CallAt(next.pcs[t], clean && !(Checks(g.pcs[t]) && Maintained(g)), acted || g.pcs[t].IngestAct?)
  {
    assert Maintained(g) <==> !g.enabled;
  }

  lemma OtherStep(g: Gate, t: nat, u: nat, choice: Choice)
    requires t < |g.pcs| && u < |g.pcs| && u != t && Next(g, u, choice).Some?
    ensures |Next(g, u, choice).value.pcs| == |g.pcs| && Next(g, u, choice).value.pcs[t] == g.pcs[t]
  {
    MutexPasses(g, u, choice);
  }

  lemma {:induction false} CallFollowed(gates: seq<Gate>, steps: seq<(nat, Choice)>, i: nat, k: nat, t: nat)
    requires Run(gates, steps) && InCall(gates, steps, i, k, t)
    ensures t < |gates[k].pcs|
    ensures CallAt(gates[k].pcs[t], MetNoMaintenance(gates, steps, i, k, t), Acted(gates, steps, i, k, t))
    decreases k
  {
    var n := k - 1;
    assert StepOf(gates[n], steps[n], gates[k]);
    RunInv(gates, steps, n);
    if n == i {
      assert gates[k].pcs[t].IngestCheck?;
    } else {
      CallFollowed(gates, steps, i, n, t);
      if steps[n].0 == t {
        CallStep(gates[n], t, steps[n].1, MetNoMaintenance(gates, steps, i, n, t), Acted(gates, steps, i, n, t));
      } else {
        OtherStep(gates[n], t, steps[n].0, steps[n].1);
      }
    }
  }

  /**
   An ingestion call made outside maintenance executes its action, in every interleaving, if and only if
   neither of the two checks it comes to finds a maintainer between its stores.
   */
  lemma ExecutedIff(gates: seq<Gate>, steps: seq<(nat, Choice)>, i: nat, j: nat, t: nat)
    requires Run(gates, steps) && InCall(gates, steps, i, j, t) && t < |gates[j].pcs| && gates[j].pcs[t].Idle?
    ensures Acted(gates, steps, i, j, t) <==> MetNoMaintenance(gates, steps, i, j, t)
  {
    CallFollowed(gates, steps, i, j, t);
  }

  /** So a call during which nobody pauses is never dropped. */
  lemma UndisturbedExecutes(gates: seq<Gate>, steps: seq<(nat, Choice)>, i: nat, j: nat, t: nat)
    requires Run(gates, steps) && InCall(gates, steps, i, j, t) && t < |gates[j].pcs| && gates[j].pcs[t].Idle?
    requires forall m :: i <= m < j ==> !Maintained(gates[m])
    ensures Acted(gates, steps, i, j, t)
  {
    ExecutedIff(gates, steps, i, j, t);
  }
}
