// The invariant of the memory store and its preservation by every operation.

module MemoryInvariant {
  import opened Results
  import opened Domain
  import opened Policy
  import opened MemorySpec
  import opened MemoryRuns

  // The committed cycles of a task; those that carried an intent; and those of
  // the latter that carry a failure code.
  datatype Kind = AnyCycle | ActionCycle | FailedAction

  predicate Is(kind: Kind, record: CycleRecord) {
    match kind
    case AnyCycle => true
    case ActionCycle => record.intent.Some?
    case FailedAction => record.intent.Some? && record.result.failureCode.Some?
  }

  function Cycles(cycles: map<CycleId, CycleRecord>, t: string, kind: Kind): set<CycleId> {
    set id | id in cycles && id.task == t && Is(kind, cycles[id])
  }

  ghost predicate Accounts(b: Backing, t: string)
    requires t in b.tasks
  {
    var task := b.tasks[t];
    && task.toolActions == |Cycles(b.cycles, t, ActionCycle)| <= MAX_TOOL_ACTIONS
    && task.failedActions == |Cycles(b.cycles, t, FailedAction)| <= MAX_FAILED_ACTIONS
    && (task.failedActions == 1 ==> task.state == NEEDS_OPERATOR)
  }

  ghost predicate WorkerRecorded(b: Backing, t: string)
    requires t in b.tasks
  {
    var task := b.tasks[t];
    && task.state != FAILED
    && (task.worker.Some? ==>
          && !Blank(task.worker.value)
          && task.worker.value in b.actors && b.actors[task.worker.value] == WORKER
          && task.toolActions >= 1)
    && (task.state == QUEUED ==> Cycles(b.cycles, t, AnyCycle) == {} && task.worker == None)
  }

  // The cycle that took a task to PASSED: by a registered verifier other than
  // the registered worker, with stored evidence for every required check.
  ghost predicate Certifies(b: Backing, t: string, id: CycleId)
    requires t in b.tasks
  {
    var task := b.tasks[t];
    && id in b.cycles && id.task == t && b.cycles[id].intent.Some?
    && var i := b.cycles[id].intent.value;
       var result := b.cycles[id].result;
    && i.action == VerifyTask
    && i.actorId in b.actors && b.actors[i.actorId] == VERIFIER
    && task.worker.Some? && task.worker.value in b.actors && b.actors[task.worker.value] == WORKER
    && task.worker.value != i.actorId
    && result.task == task && result.failureCode == None
    && AllChecksCovered(task, result.evidence, i.actorId)
    && (forall e | e in result.evidence :: e in b.EvidenceOf(t))
    && task.failedActions == 0 && 2 <= task.toolActions <= 3
  }

  ghost predicate PassCertified(b: Backing, t: string)
    requires t in b.tasks
  {
    b.tasks[t].state == PASSED ==> exists id :: Certifies(b, t, id)
  }

  ghost predicate TaskInv(b: Backing, t: string)
    requires t in b.tasks
  {
    Accounts(b, t) && WorkerRecorded(b, t) && PassCertified(b, t)
  }

  // Stored evidence: valid, filed under its own task, every identifier once
  // across all tasks, and the identifier set exactly the stored identifiers.
  ghost predicate Stored(b: Backing, t: string, n: int) {
    t in b.evidence && 0 <= n < |b.evidence[t]|
  }

  ghost predicate EvidenceFiled(b: Backing) {
    forall t, n | Stored(b, t, n) ::
      && ValidEvidence(b.evidence[t][n]) && b.evidence[t][n].taskId == t
      && b.evidence[t][n].evidenceId in b.evidenceIds
  }

  ghost predicate EvidenceUnique(b: Backing) {
    forall t, n, u, m | Stored(b, t, n) && Stored(b, u, m) ::
      b.evidence[t][n].evidenceId == b.evidence[u][m].evidenceId ==> t == u && n == m
  }

  ghost predicate HoldsId(b: Backing, e: string) {
    exists t, n :: Stored(b, t, n) && b.evidence[t][n].evidenceId == e
  }

  ghost predicate IdsExact(b: Backing) {
    forall e | e in b.evidenceIds :: HoldsId(b, e)
  }

  ghost predicate EvidenceInv(b: Backing) {
    EvidenceFiled(b) && EvidenceUnique(b) && IdsExact(b)
  }

  ghost predicate BatonInv(b: Backing) {
    forall t | t in b.batons :: BatonMetadataOnly(b.batons[t])
  }

  ghost predicate Inv(b: Backing) {
    && Shape(b) && EvidenceInv(b) && BatonInv(b)
    && forall t | t in b.tasks :: TaskInv(b, t)
  }

  // ---- the tasks an operation does not touch keep their invariant ----------------------

  lemma SameCyclesSameSets(b: Backing, after: Backing, t: string)
    requires SameCyclesOf(b, after, t)
    ensures forall kind :: Cycles(after.cycles, t, kind) == Cycles(b.cycles, t, kind)
  {
  }

  lemma UntouchedKeepsInv(b: Backing, after: Backing, t: string)
    requires t in b.tasks && TaskInv(b, t) && SameTask(b, after, t)
    requires forall a | a in b.actors :: a in after.actors && after.actors[a] == b.actors[a]
    ensures TaskInv(after, t)
  {
    SameCyclesSameSets(b, after, t);
    if b.tasks[t].state == PASSED {
      var id :| Certifies(b, t, id);
      assert Certifies(after, t, id);
    }
  }

  // ---- appends and baton writes ----------------------------------------------------------

  lemma DirectKeepsInv(b: Backing, after: Backing, t: string, items: seq<Evidence>)
    requires Shape(b) && t in b.tasks && TaskInv(b, t) && DirectEffect(b, after, t, items)
    ensures TaskInv(after, t)
  {
  }

  // ---- cycles --------------------------------------------------------------------------------

  lemma CycleCounts(cycles: map<CycleId, CycleRecord>, id: CycleId, record: CycleRecord, kind: Kind)
    requires id !in cycles
    ensures var after := cycles[id := record];
            Cycles(after, id.task, kind) == Cycles(cycles, id.task, kind) + (if Is(kind, record) then {id} else {})
    ensures |Cycles(cycles[id := record], id.task, kind)|
         == |Cycles(cycles, id.task, kind)| + (if Is(kind, record) then 1 else 0)
  {
    var after := cycles[id := record];
    assert Cycles(after, id.task, kind) == Cycles(cycles, id.task, kind) + (if Is(kind, record) then {id} else {});
  }

  lemma CycleKeepsAccounts(b: Backing, after: Backing, id: CycleId, record: CycleRecord)
    requires CycleEffect(b, after, id, record) && TaskInv(b, id.task)
    ensures Accounts(after, id.task)
  {
    CycleCounts(b.cycles, id, record, ActionCycle);
    CycleCounts(b.cycles, id, record, FailedAction);
  }

  lemma CycleKeepsWorker(b: Backing, after: Backing, id: CycleId, record: CycleRecord)
    requires CycleEffect(b, after, id, record) && TaskInv(b, id.task)
    ensures WorkerRecorded(after, id.task)
  {
  }

  lemma CycleCertifiesPass(b: Backing, after: Backing, id: CycleId, record: CycleRecord)
    requires CycleEffect(b, after, id, record) && TaskInv(b, id.task)
    ensures PassCertified(after, id.task)
  {
    var t := id.task;
    if after.tasks[t].state == PASSED {
      assert record.intent.Some? && b.tasks[t].worker.Some?;
      var task := after.tasks[t];
      var actor := record.intent.value.actorId;
      assert AllChecksCovered(task, record.result.evidence, actor) by {
        forall c | c in task.requiredChecks ensures CheckCovered(task, record.result.evidence, actor, c) {
          assert CheckCovered(b.tasks[t], record.result.evidence, actor, c);
        }
      }
      assert Certifies(after, t, id);
    }
  }

  lemma CycleKeepsInv(b: Backing, after: Backing, id: CycleId, record: CycleRecord)
    requires CycleEffect(b, after, id, record) && TaskInv(b, id.task)
    ensures TaskInv(after, id.task)
  {
    CycleKeepsAccounts(b, after, id, record);
    CycleKeepsWorker(b, after, id, record);
    CycleCertifiesPass(b, after, id, record);
  }

  // ---- evidence ------------------------------------------------------------------------------

  ghost predicate Grows(b: Backing, after: Backing, t: string, items: seq<Evidence>) {
    && TouchesOnly(b, after, t)
    && EvidenceAdmissible(items, t, b.evidenceIds)
    && after.EvidenceOf(t) == b.EvidenceOf(t) + items
    && after.evidenceIds == b.evidenceIds + Ids(items)
  }

  // Where a stored item comes from: it was stored before, or it is a new one.
  lemma Origin(b: Backing, after: Backing, t: string, items: seq<Evidence>, u: string, n: int)
    requires Grows(b, after, t, items) && Stored(after, u, n)
    ensures Stored(b, u, n) ==> after.evidence[u][n] == b.evidence[u][n]
    ensures !Stored(b, u, n) ==> u == t && |b.EvidenceOf(t)| <= n && after.evidence[u][n] == items[n - |b.EvidenceOf(t)|]
  {
  }

  lemma GrowKeepsEvidenceValid(b: Backing, after: Backing, t: string, items: seq<Evidence>)
    requires EvidenceFiled(b) && Grows(b, after, t, items)
    ensures EvidenceFiled(after)
  {
  }

  lemma GrowKeepsEvidenceUnique(b: Backing, after: Backing, t: string, items: seq<Evidence>)
    requires EvidenceFiled(b) && EvidenceUnique(b) && Grows(b, after, t, items)
    ensures EvidenceUnique(after)
  {
  }

  lemma HeldStaysHeld(b: Backing, after: Backing, t: string, items: seq<Evidence>, e: string)
    requires HoldsId(b, e) && Grows(b, after, t, items)
    ensures HoldsId(after, e)
  {
    var u, n :| Stored(b, u, n) && b.evidence[u][n].evidenceId == e;
    assert Stored(after, u, n) && after.evidence[u][n] == b.evidence[u][n];
  }

  lemma AddedIsHeld(b: Backing, after: Backing, t: string, items: seq<Evidence>, e: string)
    requires Grows(b, after, t, items) && e in Ids(items)
    ensures HoldsId(after, e)
  {
    hide TouchesOnly, EvidenceAdmissible;
    var j :| 0 <= j < |items| && items[j].evidenceId == e;
    var known := b.EvidenceOf(t);
    assert (known + items)[|known| + j] == items[j];
    assert Stored(after, t, |known| + j);
  }

  lemma GrowKeepsIdsExact(b: Backing, after: Backing, t: string, items: seq<Evidence>)
    requires IdsExact(b) && Grows(b, after, t, items)
    ensures IdsExact(after)
  {
    forall e | e in after.evidenceIds ensures HoldsId(after, e) {
      if e in b.evidenceIds {
        HeldStaysHeld(b, after, t, items, e);
      } else {
        AddedIsHeld(b, after, t, items, e);
      }
    }
  }

  lemma GrowKeepsEvidence(b: Backing, after: Backing, t: string, items: seq<Evidence>)
    requires EvidenceInv(b) && Grows(b, after, t, items)
    ensures EvidenceInv(after)
  {
    GrowKeepsEvidenceValid(b, after, t, items);
    GrowKeepsEvidenceUnique(b, after, t, items);
    GrowKeepsIdsExact(b, after, t, items);
  }

  lemma StepKeepsBatons(b: Backing, after: Backing, t: string)
    requires BatonInv(b) && TouchesOnly(b, after, t)
    ensures BatonInv(after)
  {
  }

  // ---- one operation ---------------------------------------------------------------------------

  lemma TouchKeepsOthers(b: Backing, after: Backing, t: string)
    requires Inv(b) && TouchesOnly(b, after, t)
    ensures forall u | u in b.tasks && u != t :: u in after.tasks && TaskInv(after, u)
  {
    forall u | u in b.tasks && u != t ensures u in after.tasks && TaskInv(after, u) {
      OtherTaskSame(b, after, t, u);
      UntouchedKeepsInv(b, after, u);
    }
  }

  lemma TouchKeepsShape(b: Backing, after: Backing, t: string)
    requires Shape(b) && TouchesOnly(b, after, t) && after.tasks[t].taskId == t
    requires t in b.tasks || |b.tasks| < MAX_TASKS
    ensures Shape(after)
  {
    TouchedKeys(b.tasks, after.tasks, t);
    TouchedKeys(b.evidence, after.evidence, t);
  }

  lemma CreationKeepsInv(b: Backing, after: Backing, task: Task)
    requires Inv(b) && Fresh(task) && CreatedEffect(b, after, task)
    ensures Inv(after)
  {
    hide TaskInv, EvidenceInv, BatonInv;
    var t := task.taskId;
    TouchKeepsShape(b, after, t);
    TouchKeepsOthers(b, after, t);
    GrowKeepsEvidence(b, after, t, []);
    StepKeepsBatons(b, after, t);
    NewTaskInv(after, t);
  }

  lemma NewTaskInv(b: Backing, t: string)
    requires t in b.tasks && Fresh(b.tasks[t])
    requires forall id | id in b.cycles :: id.task != t
    ensures TaskInv(b, t)
  {
  }

  lemma DirectStepKeepsInv(b: Backing, after: Backing, t: string, items: seq<Evidence>)
    requires Inv(b) && DirectEffect(b, after, t, items)
    ensures Inv(after)
  {
    TouchKeepsShape(b, after, t);
    TouchKeepsOthers(b, after, t);
    DirectKeepsInv(b, after, t, items);
    GrowKeepsEvidence(b, after, t, items);
    StepKeepsBatons(b, after, t);
  }

  lemma CycleStepKeepsInv(b: Backing, after: Backing, id: CycleId, record: CycleRecord)
    requires Inv(b) && CycleEffect(b, after, id, record)
    ensures Inv(after)
  {
    TouchKeepsShape(b, after, id.task);
    TouchKeepsOthers(b, after, id.task);
    CycleKeepsInv(b, after, id, record);
    GrowKeepsEvidence(b, after, id.task, record.result.evidence);
    StepKeepsBatons(b, after, id.task);
  }

  lemma RegistryKeepsInv(b: Backing, after: Backing)
    requires Inv(b) && RegistryEffect(b, after)
    ensures Inv(after)
  {
    forall t | t in b.tasks ensures TaskInv(after, t) {
      UntouchedKeepsInv(b, after, t);
    }
    SameEvidenceKeepsInv(b, after);
  }

  lemma SameEvidenceKeepsInv(b: Backing, after: Backing)
    requires EvidenceInv(b) && after.evidence == b.evidence && after.evidenceIds == b.evidenceIds
    ensures EvidenceInv(after)
  {
  }

  lemma StepKeepsInv(b: Backing, op: Op)
    requires Inv(b) && CreatesFresh(op)
    ensures Inv(After(b, op))
  {
    var e := EffectOf(b, op);
    var after := After(b, op);
    match e {
      case Stutter => StutterKeepsInv(b, after);
      case Created(task) => CreationKeepsInv(b, after, task);
      case Direct(t, items) => DirectStepKeepsInv(b, after, t, items);
      case Cycle(id, record) => CycleStepKeepsInv(b, after, id, record);
      case Registry => RegistryKeepsInv(b, after);
    }
  }

  lemma StutterKeepsInv(b: Backing, after: Backing)
    requires Inv(b) && after == b.(modelCalls := after.modelCalls)
    ensures Inv(after)
  {
    forall t | t in b.tasks ensures TaskInv(after, t) {
      UntouchedKeepsInv(b, after, t);
    }
    SameEvidenceKeepsInv(b, after);
  }

  lemma EmptyInv()
    ensures Inv(EmptyBacking)
  {
  }
}
