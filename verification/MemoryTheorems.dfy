// What holds of every run of the memory store, from the empty backing on.

module MemoryTheorems {
  import opened Results
  import opened Domain
  import opened Policy
  import opened MemorySpec
  import opened MemoryLaws
  import opened MemoryRuns
  import opened MemoryInvariant

  lemma {:induction false} RunFromKeepsInv(b: Backing, ops: seq<Op>)
    requires Inv(b) && Legal(ops)
    ensures Inv(RunFrom(b, ops))
    decreases |ops|
  {
    if ops != [] {
      assert CreatesFresh(ops[0]);
      StepKeepsInv(b, ops[0]);
      RunFromKeepsInv(After(b, ops[0]), ops[1..]);
    }
  }

  // Every reachable backing satisfies the invariant.
  lemma RunKeepsInv(ops: seq<Op>)
    requires Legal(ops)
    ensures Inv(Run(ops))
  {
    EmptyInv();
    RunFromKeepsInv(EmptyBacking, ops);
  }

  // ---- what one step and whole continuations preserve ------------------------------------

  // How a task may look later: nothing recorded is lost, and a task that has
  // passed or has failed an action stays where it is.
  ghost predicate Later(b: Backing, after: Backing, t: string)
    requires t in b.tasks
  {
    var task := b.tasks[t];
    && t in after.tasks
    && var now := after.tasks[t];
    && now.SameIdentity(task)
    && task.version <= now.version
    && (task.version == now.version ==> SameTask(b, after, t))
    && (task.worker.Some? ==> now.worker == task.worker)
    && b.EvidenceOf(t) <= after.EvidenceOf(t)
    && (task.state == PASSED ==> SameTask(b, after, t))
    && (task.failedActions == 1 ==>
          now.state == NEEDS_OPERATOR && now.failedActions == 1 && now.toolActions == task.toolActions)
  }

  // What every continuation of a run keeps of a backing.
  ghost predicate Continues(b: Backing, after: Backing) {
    && Extends(b.actors, after.actors)
    && Extends(b.cycles, after.cycles)
    && b.evidenceIds <= after.evidenceIds
    && forall t | t in b.tasks :: Later(b, after, t)
  }

  lemma SameTaskIsLater(b: Backing, after: Backing, t: string)
    requires t in b.tasks && Accounts(b, t) && SameTask(b, after, t)
    ensures Later(b, after, t)
  {
  }

  lemma TouchContinues(b: Backing, after: Backing, t: string)
    requires Inv(b) && TouchesOnly(b, after, t)
    requires Extends(b.cycles, after.cycles) && b.evidenceIds <= after.evidenceIds
    requires t in b.tasks ==> Later(b, after, t)
    ensures Continues(b, after)
  {
    forall u | u in b.tasks ensures Later(b, after, u) {
      if u != t {
        OtherTaskSame(b, after, t, u);
        SameTaskIsLater(b, after, u);
      }
    }
  }

  lemma UntouchedContinues(b: Backing, after: Backing)
    requires Inv(b) && Extends(b.actors, after.actors)
    requires after == b.(actors := after.actors, registryVersion := after.registryVersion, modelCalls := after.modelCalls)
    ensures Continues(b, after)
  {
    forall u | u in b.tasks ensures Later(b, after, u) {
      SameTaskIsLater(b, after, u);
    }
  }

  lemma CycleIsLater(b: Backing, after: Backing, id: CycleId, record: CycleRecord)
    requires Inv(b) && CycleEffect(b, after, id, record)
    ensures Later(b, after, id.task)
  {
  }

  lemma DirectIsLater(b: Backing, after: Backing, t: string, items: seq<Evidence>)
    requires Inv(b) && DirectEffect(b, after, t, items)
    ensures Later(b, after, t)
  {
  }

  lemma StepContinues(b: Backing, op: Op)
    requires Inv(b)
    ensures Continues(b, After(b, op))
  {
    hide EvidenceInv, BatonInv, After;
    var e := EffectOf(b, op);
    EffectContinues(b, After(b, op), e);
  }

  lemma EffectContinues(b: Backing, after: Backing, e: Effect)
    requires Inv(b) && HasEffect(b, e, after)
    ensures Continues(b, after)
  {
    hide EvidenceInv, BatonInv;
    match e {
      case Stutter => UntouchedContinues(b, after);
      case Registry => UntouchedContinues(b, after);
      case Created(task) => TouchContinues(b, after, task.taskId);
      case Direct(t, items) => DirectIsLater(b, after, t, items); TouchContinues(b, after, t);
      case Cycle(id, record) => CycleIsLater(b, after, id, record); TouchContinues(b, after, id.task);
    }
  }

  lemma LaterTransitive(b: Backing, mid: Backing, after: Backing, t: string)
    requires t in b.tasks && Later(b, mid, t) && Later(mid, after, t)
    ensures Later(b, after, t)
  {
  }

  lemma {:induction false} RunContinues(b: Backing, ops: seq<Op>)
    requires Inv(b) && Legal(ops)
    ensures Continues(b, RunFrom(b, ops))
    decreases |ops|
  {
    if ops == [] {
      forall t | t in b.tasks ensures Later(b, b, t) {
        SameTaskIsLater(b, b, t);
      }
    } else {
      assert CreatesFresh(ops[0]);
      var mid := After(b, ops[0]);
      StepKeepsInv(b, ops[0]);
      StepContinues(b, ops[0]);
      RunContinues(mid, ops[1..]);
      var after := RunFrom(mid, ops[1..]);
      forall t | t in b.tasks ensures Later(b, after, t) {
        assert Later(b, mid, t);
        LaterTransitive(b, mid, after, t);
      }
    }
  }

  // ---- legal runs only ---------------------------------------------------------------------

  // In any run every stored state change is a stutter or an edge of the
  // transition table, a version rises by at most one, and FAILED is never entered.
  lemma OnlyLegalMoves(ops: seq<Op>, op: Op, t: string)
    requires Legal(ops + [op]) && t in Run(ops).tasks
    ensures var before, after := Run(ops), After(Run(ops), op);
      && t in after.tasks
      && LegalMove(before.tasks[t].state, after.tasks[t].state)
      && after.tasks[t].state != FAILED
      && before.tasks[t].version <= after.tasks[t].version <= before.tasks[t].version + 1
      && (before.tasks[t].state == PASSED ==> SameTask(before, after, t))
      && (before.tasks[t].worker.Some? ==> after.tasks[t].worker == before.tasks[t].worker)
  {
    var b := Run(ops);
    assert Legal(ops) by {
      forall i | 0 <= i < |ops| ensures CreatesFresh(ops[i]) { assert (ops + [op])[i] == ops[i]; }
    }
    assert CreatesFresh(op) by { assert (ops + [op])[|ops|] == op; }
    RunKeepsInv(ops);
    StepMovesLegally(b, op, t);
    StepContinues(b, op);
    StepKeepsInv(b, op);
  }

  lemma StepMovesLegally(b: Backing, op: Op, t: string)
    requires Inv(b) && t in b.tasks
    ensures var after := After(b, op);
            t in after.tasks && LegalMove(b.tasks[t].state, after.tasks[t].state)
            && after.tasks[t].version <= b.tasks[t].version + 1
  {
    hide After, TaskInv, EvidenceInv, BatonInv;
    var e := EffectOf(b, op);
    EffectMovesLegally(b, After(b, op), e, t);
  }

  lemma EffectMovesLegally(b: Backing, after: Backing, e: Effect, t: string)
    requires Inv(b) && HasEffect(b, e, after) && t in b.tasks
    ensures t in after.tasks && LegalMove(b.tasks[t].state, after.tasks[t].state)
            && after.tasks[t].version <= b.tasks[t].version + 1
  {
    hide EvidenceInv, BatonInv;
    match e {
      case Stutter =>
      case Registry =>
      case Created(task) => OtherTaskSame(b, after, task.taskId, t);
      case Direct(u, _) => if u != t { OtherTaskSame(b, after, u, t); }
      case Cycle(id, record) =>
        if id.task != t {
          OtherTaskSame(b, after, id.task, t);
        } else {
          assert WorkerRecorded(b, t);
        }
    }
  }

  // ---- PASS integrity ------------------------------------------------------------------------

  // A passed task was certified by a registered verifier other than its
  // registered worker, with stored, verified evidence for every required check.
  lemma PassIntegrity(ops: seq<Op>, t: string) returns (verifier: string)
    requires Legal(ops) && t in Run(ops).tasks && Run(ops).tasks[t].state == PASSED
    ensures var b := Run(ops);
      var task := b.tasks[t];
      && task.worker.Some? && task.worker.value in b.actors && b.actors[task.worker.value] == WORKER
      && verifier in b.actors && b.actors[verifier] == VERIFIER && verifier != task.worker.value
      && (forall c | c in task.requiredChecks ::
            exists e :: e in b.EvidenceOf(t) && e.taskId == t && e.actorId == verifier && e.kind == "verification"
                        && "status" in e.reference && e.reference["status"] == Text("verified") && e.checkId == c)
      && task.taskId == t && AllChecksCovered(task, b.EvidenceOf(t), verifier)
      && task.failedActions == 0 && 2 <= task.toolActions <= 3
  {
    RunKeepsInv(ops);
    var b := Run(ops);
    var task := b.tasks[t];
    assert PassCertified(b, t);
    var id :| Certifies(b, t, id);
    verifier := b.cycles[id].intent.value.actorId;
    var items := b.cycles[id].result.evidence;
    forall c | c in task.requiredChecks ensures CheckCovered(task, b.EvidenceOf(t), verifier, c) {
      CoveredByMore(task, items, b.EvidenceOf(t), verifier, c);
    }
    PassGateMeans(task, b.EvidenceOf(t), verifier);
  }

  lemma CoveredByMore(task: Task, items: seq<Evidence>, more: seq<Evidence>, verifier: string, check: string)
    requires CheckCovered(task, items, verifier, check) && forall i | 0 <= i < |items| :: items[i] in more
    ensures CheckCovered(task, more, verifier, check)
  {
    var i :| 0 <= i < |items| && VerifiesCheck(items[i], task.taskId, verifier, check);
    assert items[i] in more;
    var n :| 0 <= n < |more| && more[n] == items[i];
  }

  // ---- the breaker ----------------------------------------------------------------------------

  // Once an action of a task has failed, no continuation of the run ever hands
  // the task to a callback again, and it stays NEEDS_OPERATOR.
  lemma BreakerAbsorbs(ops: seq<Op>, more: seq<Op>, t: string, intent: Intent, operation: string, behaviour: Behaviour)
    requires Legal(ops) && Legal(more)
    requires t in Run(ops).tasks && Run(ops).tasks[t].failedActions == 1 && intent.taskId == t
    ensures var b := RunFrom(Run(ops), more);
      && t in b.tasks && b.tasks[t].state == NEEDS_OPERATOR && b.tasks[t].failedActions == 1
      && b.tasks[t].toolActions == Run(ops).tasks[t].toolActions
      && var step := ApplyCycle(b, intent, operation, behaviour);
         step.handed == None && step.state == b
  {
    RunKeepsInv(ops);
    RunContinues(Run(ops), more);
    var b := RunFrom(Run(ops), more);
    assert Later(Run(ops), b, t);
    SpentTaskIsNeverHanded(b, intent, operation, behaviour);
  }

  // ---- replay ------------------------------------------------------------------------------------

  // A committed key replays its result in every continuation of the run, for
  // every callback, without handing a task to it and without changing anything;
  // another operation or intent conflicts.
  lemma ReplaysForever(ops: seq<Op>, more: seq<Op>, intent: Intent, operation: string, behaviour: Behaviour)
    requires Legal(ops) && Legal(more) && ValidIntent(intent)
    requires CycleId(intent.taskId, intent.cycleKey) in Run(ops).cycles
    ensures var id := CycleId(intent.taskId, intent.cycleKey);
      var record := Run(ops).cycles[id];
      var b := RunFrom(Run(ops), more);
      && id in b.cycles && b.cycles[id] == record
      && ApplyCycle(b, intent, operation, behaviour) ==
           Applied(b, if record.operation == operation && record.intent == Some(intent)
                      then Ok(record.result) else Raise(IdempotencyConflict), None)
      && (forall expectedVersion, code {:trigger FailCycle(b, id, operation, expectedVersion, code)} ::
            FailCycle(b, id, operation, expectedVersion, code) ==
              Done(b, if record.operation == operation then Ok(record.result) else Raise(IdempotencyConflict)))
  {
    RunKeepsInv(ops);
    RunContinues(Run(ops), more);
    CommittedKeyReplays(RunFrom(Run(ops), more), intent, operation, behaviour);
  }

  // ---- accounting ----------------------------------------------------------------------------------

  // In every reachable backing the counters of a task are the sizes of the
  // sets of its committed cycles, within their budgets.
  lemma BudgetAccounting(ops: seq<Op>, t: string)
    requires Legal(ops) && t in Run(ops).tasks
    ensures var b := Run(ops);
      && b.tasks[t].toolActions == |Cycles(b.cycles, t, ActionCycle)| <= 3
      && b.tasks[t].failedActions == |Cycles(b.cycles, t, FailedAction)| <= 1
  {
    RunKeepsInv(ops);
    assert Accounts(Run(ops), t);
  }

  // Committed appends and baton writes of a task along a run.
  function DirectWrites(b: Backing, ops: seq<Op>, t: string): nat
    decreases |ops|
  {
    if ops == [] then 0
    else
      (if DirectCommit(b, ops[0]) && DirectTask(ops[0]) == t then 1 else 0)
      + DirectWrites(After(b, ops[0]), ops[1..], t)
  }

  function VersionOf(b: Backing, t: string): nat {
    if t in b.tasks then b.tasks[t].version else 0
  }

  function CycleCount(b: Backing, t: string): nat {
    |Cycles(b.cycles, t, AnyCycle)|
  }

  lemma SameTaskSameCount(b: Backing, after: Backing, t: string)
    requires SameCyclesOf(b, after, t)
    ensures CycleCount(after, t) == CycleCount(b, t)
  {
    SameCyclesSameSets(b, after, t);
    assert Cycles(after.cycles, t, AnyCycle) == Cycles(b.cycles, t, AnyCycle);
  }

  lemma TouchCounts(b: Backing, after: Backing, u: string, t: string)
    requires Shape(b) && TouchesOnly(b, after, u) && u != t
    ensures VersionOf(after, t) == VersionOf(b, t) && CycleCount(after, t) == CycleCount(b, t)
  {
    SameTaskSameCount(b, after, t);
  }

  lemma StepBalances(b: Backing, op: Op, t: string)
    requires Inv(b) && CreatesFresh(op)
    ensures VersionOf(After(b, op), t) + CycleCount(b, t)
         == VersionOf(b, t) + CycleCount(After(b, op), t) + (if DirectCommit(b, op) && DirectTask(op) == t then 1 else 0)
  {
    hide EvidenceInv, BatonInv, After;
    var e := EffectOf(b, op);
    EffectBalances(b, After(b, op), e, t);
  }

  lemma EffectBalances(b: Backing, after: Backing, e: Effect, t: string)
    requires Inv(b) && HasEffect(b, e, after) && (e.Created? ==> Fresh(e.task))
    ensures VersionOf(after, t) + CycleCount(b, t)
         == VersionOf(b, t) + CycleCount(after, t) + (if e.Direct? && e.t == t then 1 else 0)
  {
    hide EvidenceInv, BatonInv;
    match e {
      case Stutter => SameTaskSameCount(b, after, t);
      case Registry => SameTaskSameCount(b, after, t);
      case Created(task) => if task.taskId != t { TouchCounts(b, after, task.taskId, t); }
      case Direct(u, _) => if u != t { TouchCounts(b, after, u, t); }
      case Cycle(id, record) =>
        if id.task != t { TouchCounts(b, after, id.task, t); }
        else { CycleCounts(b.cycles, id, record, AnyCycle); }
    }
  }

  lemma {:induction false} RunBalances(b: Backing, ops: seq<Op>, t: string)
    requires Inv(b) && Legal(ops)
    ensures VersionOf(RunFrom(b, ops), t) + CycleCount(b, t)
         == VersionOf(b, t) + CycleCount(RunFrom(b, ops), t) + DirectWrites(b, ops, t)
    decreases |ops|
  {
    hide After, Inv, VersionOf, CycleCount, DirectCommit;
    if ops != [] {
      assert CreatesFresh(ops[0]);
      StepBalances(b, ops[0], t);
      StepKeepsInv(b, ops[0]);
      RunBalances(After(b, ops[0]), ops[1..], t);
    }
  }

  // The version of a task is the number of its committed cycles plus its
  // committed appends and baton writes.
  lemma VersionAccounting(ops: seq<Op>, t: string)
    requires Legal(ops) && t in Run(ops).tasks
    ensures Run(ops).tasks[t].version == |Cycles(Run(ops).cycles, t, AnyCycle)| + DirectWrites(EmptyBacking, ops, t)
  {
    EmptyInv();
    RunBalances(EmptyBacking, ops, t);
    assert Cycles(EmptyBacking.cycles, t, AnyCycle) == {};
  }

  // Evidence of a task only ever grows at its end, identifiers are unique
  // across all tasks, and the identifier set is exactly what is stored.
  lemma EvidenceConserved(ops: seq<Op>, more: seq<Op>, t: string)
    requires Legal(ops) && Legal(more) && t in Run(ops).tasks
    ensures var b, later := Run(ops), RunFrom(Run(ops), more);
      && t in later.tasks && b.EvidenceOf(t) <= later.EvidenceOf(t)
      && (forall e :: e in later.evidenceIds <==> HoldsId(later, e))
      && EvidenceUnique(later)
  {
    RunKeepsInv(ops);
    var b := Run(ops);
    RunContinues(b, more);
    RunFromKeepsInv(b, more);
    assert Later(b, RunFrom(b, more), t);
  }

  // ---- optimistic concurrency -------------------------------------------------------------------------

  // The cycles of a task lead to different versions of it, none past the
  // current one, and each action was decided on the version right before.
  ghost predicate CyclesVersioned(b: Backing) {
    && (forall id | id in b.cycles ::
          && id.task in b.tasks && b.cycles[id].result.task.version <= b.tasks[id.task].version
          && (b.cycles[id].intent.Some? ==>
                && b.cycles[id].intent.value.expectedVersion + 1 == b.cycles[id].result.task.version
                && CycleId(b.cycles[id].intent.value.taskId, b.cycles[id].intent.value.cycleKey) == id))
    && (forall id, other | id in b.cycles && other in b.cycles && id.task == other.task ::
          b.cycles[id].result.task.version == b.cycles[other].result.task.version ==> id == other)
  }

  lemma EffectKeepsVersioned(b: Backing, after: Backing, e: Effect)
    requires Inv(b) && HasEffect(b, e, after) && CyclesVersioned(b)
    ensures CyclesVersioned(after)
  {
    hide Inv, SameTask, CyclesVersioned, Charged, TouchesOnly;
    EffectContinues(b, after, e);
    if e.Cycle? {
      CycleIsVersioned(b, after, e.id, e.record);
    } else {
      SameCyclesVersioned(b, after);
    }
  }

  lemma SameCyclesVersioned(b: Backing, after: Backing)
    requires CyclesVersioned(b) && after.cycles == b.cycles
    requires forall t | t in b.tasks :: Later(b, after, t)
    ensures CyclesVersioned(after)
  {
    hide SameTask;
    forall id | id in b.cycles ensures id.task in after.tasks && b.tasks[id.task].version <= after.tasks[id.task].version {
      assert Later(b, after, id.task);
    }
  }

  lemma CycleIsVersioned(b: Backing, after: Backing, id: CycleId, record: CycleRecord)
    requires CyclesVersioned(b) && CycleEffect(b, after, id, record)
    requires forall t | t in b.tasks :: Later(b, after, t)
    ensures CyclesVersioned(after)
  {
    hide SameTask, TouchesOnly, EvidenceAdmissible, ValidIntent, AllChecksCovered, Moved;
    forall other | other in b.cycles ensures other.task in after.tasks
      ensures b.cycles[other].result.task.version <= after.tasks[other.task].version
      ensures other.task == id.task ==> b.cycles[other].result.task.version < record.result.task.version
    {
      assert Later(b, after, other.task);
    }
  }

  lemma {:induction false} RunFromVersioned(b: Backing, ops: seq<Op>)
    requires Inv(b) && Legal(ops) && CyclesVersioned(b)
    ensures CyclesVersioned(RunFrom(b, ops))
    decreases |ops|
  {
    hide Inv, After, HasEffect, CyclesVersioned;
    if ops != [] {
      assert CreatesFresh(ops[0]);
      OpKeepsVersioned(b, ops[0]);
      StepKeepsInv(b, ops[0]);
      RunFromVersioned(After(b, ops[0]), ops[1..]);
    }
  }

  lemma OpKeepsVersioned(b: Backing, op: Op)
    requires Inv(b) && CyclesVersioned(b)
    ensures CyclesVersioned(After(b, op))
  {
    hide After, HasEffect, CyclesVersioned;
    var e := EffectOf(b, op);
    EffectKeepsVersioned(b, After(b, op), e);
  }

  // No two cycles of a task ever commit from the same version, and every
  // committed action was decided on exactly the version before its own.
  lemma CyclesCommitInTurn(ops: seq<Op>, id: CycleId, other: CycleId)
    requires Legal(ops) && id in Run(ops).cycles && other in Run(ops).cycles && id.task == other.task
    ensures var b := Run(ops);
      && (id != other ==> b.cycles[id].result.task.version != b.cycles[other].result.task.version)
      && id.task in b.tasks && b.cycles[id].result.task.version <= b.tasks[id.task].version
      && (b.cycles[id].intent.Some? ==>
            b.cycles[id].intent.value.expectedVersion + 1 == b.cycles[id].result.task.version)
  {
    EmptyInv();
    RunFromVersioned(EmptyBacking, ops);
    RunKeepsInv(ops);
  }
}
