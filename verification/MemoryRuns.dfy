// Every run of the memory store: the operations, what each one may change, and
// the invariant that all of them keep.

module MemoryRuns {
  import opened Results
  import opened Domain
  import opened Policy
  import opened MemorySpec
  import opened MemoryLaws

  datatype Op =
    | Create(task: Task)
    | Append(item: Evidence, expectedVersion: int)
    | WriteBaton(taskId: string, baton: Metadata, expectedVersion: int)
    | Apply(intent: Intent, operation: string, behaviour: Behaviour)
    | Fail(id: CycleId, operation: string, expectedVersion: int, code: string)
    | Register(actorId: string, role: string, expectedVersion: int)
    | Initialize(actors: map<string, ActorRole>)
    | Consume(day: string, limit: int)

  function After(b: Backing, op: Op): Backing {
    match op
    case Create(task) => CreateTask(b, task).state
    case Append(item, v) => AppendEvidence(b, item, v).state
    case WriteBaton(t, baton, v) => SetBaton(b, t, baton, v).state
    case Apply(intent, operation, behaviour) => ApplyCycle(b, intent, operation, behaviour).state
    case Fail(id, operation, v, code) => FailCycle(b, id, operation, v, code).state
    case Register(a, role, v) => RegisterActor(b, a, role, v).state
    case Initialize(actors) => InitializeActors(b, actors).state
    case Consume(day, limit) => ConsumeModelCall(b, day, limit).state
  }

  predicate Raises(b: Backing, op: Op) {
    match op
    case Create(task) => CreateTask(b, task).reply.Raise?
    case Append(item, v) => AppendEvidence(b, item, v).reply.Raise?
    case WriteBaton(t, baton, v) => SetBaton(b, t, baton, v).reply.Raise?
    case Apply(intent, operation, behaviour) => ApplyCycle(b, intent, operation, behaviour).reply.Raise?
    case Fail(id, operation, v, code) => FailCycle(b, id, operation, v, code).reply.Raise?
    case Register(a, role, v) => RegisterActor(b, a, role, v).reply.Raise?
    case Initialize(actors) => InitializeActors(b, actors).reply.Raise?
    case Consume(day, limit) => ConsumeModelCall(b, day, limit).reply.Raise?
  }

  // An operation that raises leaves the entire backing as it was.
  lemma RaisingChangesNothing(b: Backing, op: Op)
    requires Raises(b, op)
    ensures After(b, op) == b
  {
  }

  // Tasks are created only as Task.new builds them.
  predicate CreatesFresh(op: Op) {
    op.Create? ==> Fresh(op.task)
  }

  ghost predicate Legal(ops: seq<Op>) {
    forall i | 0 <= i < |ops| :: CreatesFresh(ops[i])
  }

  function RunFrom(b: Backing, ops: seq<Op>): Backing
    decreases |ops|
  {
    if ops == [] then b else RunFrom(After(b, ops[0]), ops[1..])
  }

  function Run(ops: seq<Op>): Backing {
    RunFrom(EmptyBacking, ops)
  }

  lemma RunOne(b: Backing, op: Op)
    ensures RunFrom(b, [op]) == After(b, op)
  {
  }

  lemma {:induction false} RunFromConcat(b: Backing, xs: seq<Op>, ys: seq<Op>)
    ensures RunFrom(b, xs + ys) == RunFrom(RunFrom(b, xs), ys)
    decreases |xs|
  {
    if xs == [] {
      assert xs + ys == ys;
    } else {
      assert (xs + ys)[1..] == xs[1..] + ys;
      RunFromConcat(After(b, xs[0]), xs[1..], ys);
    }
  }

  // ---- the shape of a backing ----------------------------------------------------------

  // Every task has its evidence list; batons and cycles belong to stored tasks.
  ghost predicate Shape(b: Backing) {
    && b.tasks.Keys == b.evidence.Keys && b.batons.Keys <= b.tasks.Keys && |b.tasks| <= MAX_TASKS
    && (forall t | t in b.tasks :: b.tasks[t].taskId == t)
    && (forall id | id in b.cycles :: id.task in b.tasks)
  }

  // Nothing known is lost or changed.
  ghost predicate Extends<K, V>(m: map<K, V>, after: map<K, V>) {
    forall k | k in m :: k in after && after[k] == m[k]
  }

  // ---- what one operation may change ------------------------------------------------

  datatype Effect =
    | Stutter
    | Created(task: Task)
    | Direct(t: string, items: seq<Evidence>)
    | Cycle(id: CycleId, record: CycleRecord)
    | Registry

  ghost predicate SameCyclesOf(b: Backing, after: Backing, t: string) {
    && (forall id: CycleId | id.task == t && id in b.cycles :: id in after.cycles && after.cycles[id] == b.cycles[id])
    && (forall id: CycleId | id.task == t && id in after.cycles :: id in b.cycles)
  }

  ghost predicate SameTask(b: Backing, after: Backing, t: string) {
    && t in b.tasks && t in after.tasks && after.tasks[t] == b.tasks[t]
    && after.EvidenceOf(t) == b.EvidenceOf(t)
    && (t in after.batons <==> t in b.batons)
    && (t in b.batons ==> after.batons[t] == b.batons[t])
    && SameCyclesOf(b, after, t)
  }

  ghost predicate Only<V>(m: map<string, V>, after: map<string, V>, k: string) {
    && (forall x | x in m && x != k :: x in after && after[x] == m[x])
    && (forall x | x in after && x != k :: x in m)
  }

  lemma TouchedKeys<V>(m: map<string, V>, after: map<string, V>, t: string)
    requires Only(m, after, t) && t in after
    ensures after.Keys == m.Keys + {t}
    ensures |after| == |m| + if t in m then 0 else 1
  {
  }

  ghost predicate OnlyCyclesOf(b: Backing, after: Backing, t: string) {
    && (forall id: CycleId | id in b.cycles && id.task != t :: id in after.cycles && after.cycles[id] == b.cycles[id])
    && (forall id: CycleId | id in after.cycles && id.task != t :: id in b.cycles)
  }

  ghost predicate TouchesOnly(b: Backing, after: Backing, t: string) {
    && t in after.tasks && t in after.evidence
    && Only(b.tasks, after.tasks, t)
    && Only(b.evidence, after.evidence, t)
    && Only(b.batons, after.batons, t)
    && OnlyCyclesOf(b, after, t)
    && after.actors == b.actors
    && (t in after.batons ==> BatonMetadataOnly(after.batons[t]) || (t in b.batons && after.batons[t] == b.batons[t]))
  }

  lemma OtherTaskSame(b: Backing, after: Backing, t: string, u: string)
    requires TouchesOnly(b, after, t) && u != t && u in b.tasks
    ensures SameTask(b, after, u)
  {
  }

  // An append or a baton write: one version, nothing else of the task.
  ghost predicate DirectEffect(b: Backing, after: Backing, t: string, items: seq<Evidence>) {
    && t in b.tasks && !b.tasks[t].Terminal()
    && TouchesOnly(b, after, t) && after.cycles == b.cycles
    && after.tasks[t] == b.tasks[t].(version := b.tasks[t].version + 1)
    && EvidenceAdmissible(items, t, b.evidenceIds)
    && after.EvidenceOf(t) == b.EvidenceOf(t) + items
    && after.evidenceIds == b.evidenceIds + Ids(items)
  }

  // The charge of one cycle on its task.
  ghost predicate Charged(b: Backing, task: Task, record: CycleRecord) {
    var after := record.result.task;
    && after.SameIdentity(task)
    && after.version == task.version + 1
    && (record.result.failureCode.Some? ==> after.state == NEEDS_OPERATOR && record.result.evidence == [])
    && match record.intent
       case None =>
         && record.result.failureCode.Some?
         && after.toolActions == task.toolActions && after.failedActions == task.failedActions
         && after.worker == task.worker
       case Some(i) =>
         && ValidIntent(i) && i.actorId in b.actors && RoleAction(b.actors[i.actorId]) == Some(i.action)
         && i.expectedVersion == task.version
         && task.toolActions < MAX_TOOL_ACTIONS && task.failedActions < MAX_FAILED_ACTIONS
         && after.toolActions == task.toolActions + 1
         && after.failedActions == task.failedActions + (if record.result.failureCode.Some? then 1 else 0)
         && after.worker == WorkerAfter(task, b.actors[i.actorId], i.actorId)
         && (record.result.failureCode.None? ==> Moved(task, after.state))
         && (after.state == PASSED ==>
               && b.actors[i.actorId] == VERIFIER
               && task.worker.Some? && task.worker.value != i.actorId
               && AllChecksCovered(task, record.result.evidence, i.actorId))
  }

  predicate Moved(task: Task, target: TaskState) {
    target != FAILED && Edge(if task.state == QUEUED then RUNNING else task.state, target)
  }

  ghost predicate CycleEffect(b: Backing, after: Backing, id: CycleId, record: CycleRecord) {
    var t := id.task;
    && t in b.tasks && !b.tasks[t].Terminal() && id !in b.cycles
    && TouchesOnly(b, after, t)
    && after.cycles == b.cycles[id := record]
    && after.tasks[t] == record.result.task
    && (record.intent.Some? ==> record.intent.value.taskId == t && record.intent.value.cycleKey == id.key)
    && EvidenceAdmissible(record.result.evidence, t, b.evidenceIds)
    && after.EvidenceOf(t) == b.EvidenceOf(t) + record.result.evidence
    && after.evidenceIds == b.evidenceIds + Ids(record.result.evidence)
    && Charged(b, b.tasks[t], record)
  }

  ghost predicate CreatedEffect(b: Backing, after: Backing, task: Task) {
    && task.taskId !in b.tasks && |b.tasks| < MAX_TASKS
    && TouchesOnly(b, after, task.taskId)
    && after.tasks[task.taskId] == task && after.EvidenceOf(task.taskId) == []
    && after.cycles == b.cycles && after.batons == b.batons && after.evidenceIds == b.evidenceIds
  }

  ghost predicate RegistryEffect(b: Backing, after: Backing) {
    && Extends(b.actors, after.actors)
    && after == b.(actors := after.actors, registryVersion := after.registryVersion)
  }

  ghost predicate HasEffect(b: Backing, e: Effect, after: Backing) {
    match e
    case Stutter => after == b.(modelCalls := after.modelCalls)
    case Created(task) => CreatedEffect(b, after, task)
    case Direct(t, items) => DirectEffect(b, after, t, items)
    case Cycle(id, record) => CycleEffect(b, after, id, record)
    case Registry => RegistryEffect(b, after)
  }

  lemma AppendTouchesOnly(b: Backing, item: Evidence, v: int)
    requires AppendEvidence(b, item, v).reply.Ok?
    ensures TouchesOnly(b, AppendEvidence(b, item, v).state, item.taskId)
  {
  }

  lemma AppendEffect(b: Backing, item: Evidence, v: int)
    requires AppendEvidence(b, item, v).reply.Ok?
    ensures DirectEffect(b, AppendEvidence(b, item, v).state, item.taskId, [item])
  {
    hide ValidEvidence;
    IdsSnoc([], item);
    AdmissibleSnoc([], item, item.taskId, b.evidenceIds);
    assert [] + [item] == [item] && Ids([]) == {};
    AppendTouchesOnly(b, item, v);
  }

  lemma BatonEffect(b: Backing, t: string, baton: Metadata, v: int)
    requires Shape(b) && SetBaton(b, t, baton, v).reply.Ok?
    ensures DirectEffect(b, SetBaton(b, t, baton, v).state, t, [])
  {
    hide BatonMetadataOnly;
  }

  lemma FailEffect(b: Backing, id: CycleId, operation: string, v: int, code: string)
    requires Shape(b) && id !in b.cycles && FailCycle(b, id, operation, v, code).reply.Ok?
    ensures var step := FailCycle(b, id, operation, v, code);
            CycleEffect(b, step.state, id, CycleRecord(operation, None, step.reply.value))
  {
  }

  lemma RecordTouchesOnly(b: Backing, after: Backing, intent: Intent, operation: string, role: ActorRole, result: ActionResult)
    requires intent.taskId in b.tasks
    requires CommitsOneRecord(b, after, intent, operation, role, result)
    requires Only(b.batons, after.batons, intent.taskId)
    requires after.batons == b.batons
          || (intent.taskId in after.batons && BatonMetadataOnly(after.batons[intent.taskId]))
    ensures TouchesOnly(b, after, intent.taskId)
  {
  }

  lemma ApplyCharges(b: Backing, after: Backing, intent: Intent, operation: string, behaviour: Behaviour, result: ActionResult)
    requires Shape(b) && Admissible(b, intent) && !behaviour.RaisedInterrupt?
    requires CommitsOneRecord(b, after, intent, operation, b.actors[intent.actorId], result)
    requires var admitted := Admit(b, intent).value;
      if behaviour.Returned? && Acceptable(behaviour.outcome, admitted, b.actors[intent.actorId], intent, b.evidenceIds)
      then Succeeds(b, after, intent, behaviour.outcome, result)
      else FailsClosed(b, after, intent, result)
    ensures Charged(b, b.tasks[intent.taskId], CycleRecord(operation, Some(intent), result))
  {
    var task := b.tasks[intent.taskId];
    var admitted := Admit(b, intent).value;
    if result.failureCode.None? && result.task.state == PASSED {
      assert admitted.worker == task.worker;
      assert AllChecksCovered(task, result.evidence, intent.actorId) by {
        assert admitted.requiredChecks == task.requiredChecks && admitted.taskId == task.taskId;
        assert AllChecksCovered(admitted, result.evidence, intent.actorId);
        forall c | c in task.requiredChecks ensures CheckCovered(task, result.evidence, intent.actorId, c) {
          assert CheckCovered(admitted, result.evidence, intent.actorId, c);
        }
      }
    }
  }

  lemma ApplyEffect(b: Backing, intent: Intent, operation: string, behaviour: Behaviour)
    requires Shape(b) && Admissible(b, intent) && !behaviour.RaisedInterrupt?
    ensures var step := ApplyCycle(b, intent, operation, behaviour);
            step.reply.Ok? &&
            CycleEffect(b, step.state, CycleId(intent.taskId, intent.cycleKey),
                        CycleRecord(operation, Some(intent), step.reply.value))
  {
    hide ApplyCycle, Judge, Acceptable, Succeeds, FailsClosed, Charged, ValidEvidence, ValidIntent, BatonMetadataOnly;
    AdmittedCycleCommitsOnce(b, intent, operation, behaviour);
    var step := ApplyCycle(b, intent, operation, behaviour);
    var role := b.actors[intent.actorId];
    ApplyCharges(b, step.state, intent, operation, behaviour, step.reply.value);
    ApplyWrites(b, step.state, intent, behaviour, step.reply.value);
    RecordTouchesOnly(b, step.state, intent, operation, role, step.reply.value);
  }

  // The evidence and the baton that an admitted cycle writes.
  lemma ApplyWrites(b: Backing, after: Backing, intent: Intent, behaviour: Behaviour, result: ActionResult)
    requires Admissible(b, intent)
    requires if behaviour.Returned?
                && Acceptable(behaviour.outcome, Admit(b, intent).value, b.actors[intent.actorId], intent, b.evidenceIds)
             then Succeeds(b, after, intent, behaviour.outcome, result)
             else FailsClosed(b, after, intent, result)
    ensures EvidenceAdmissible(result.evidence, intent.taskId, b.evidenceIds) || b.tasks[intent.taskId].taskId != intent.taskId
    ensures after.EvidenceOf(intent.taskId) == b.EvidenceOf(intent.taskId) + result.evidence
    ensures after.evidenceIds == b.evidenceIds + Ids(result.evidence)
    ensures Only(b.batons, after.batons, intent.taskId)
    ensures after.batons == b.batons || (intent.taskId in after.batons && BatonMetadataOnly(after.batons[intent.taskId]))
  {
    hide ValidEvidence, BatonMetadataOnly, OpaqueToken;
    assert b.evidenceIds + Ids([]) == b.evidenceIds;
    assert b.EvidenceOf(intent.taskId) + [] == b.EvidenceOf(intent.taskId);
  }

  lemma CycleOpEffect(b: Backing, op: Op) returns (e: Effect)
    requires Shape(b) && (op.Apply? || op.Fail?) && After(b, op) != b
    ensures e.Cycle? && HasEffect(b, e, After(b, op))
  {
    match op
    case Apply(intent, operation, behaviour) =>
      UnadmittedCycleChangesNothing(b, intent, operation, behaviour);
      ApplyEffect(b, intent, operation, behaviour);
      var result := ApplyCycle(b, intent, operation, behaviour).reply.value;
      e := Cycle(CycleId(intent.taskId, intent.cycleKey), CycleRecord(operation, Some(intent), result));
    case Fail(id, operation, v, code) =>
      FailEffect(b, id, operation, v, code);
      e := Cycle(id, CycleRecord(operation, None, FailCycle(b, id, operation, v, code).reply.value));
  }

  lemma DirectOpEffect(b: Backing, op: Op) returns (e: Effect)
    requires Shape(b) && DirectCommit(b, op)
    ensures e.Direct? && e.t == DirectTask(op) && HasEffect(b, e, After(b, op))
  {
    match op
    case Append(item, v) => AppendEffect(b, item, v); e := Direct(item.taskId, [item]);
    case WriteBaton(t, baton, v) => BatonEffect(b, t, baton, v); e := Direct(t, []);
  }

  lemma CreateEffect(b: Backing, task: Task)
    requires Shape(b) && CreateTask(b, task).reply.Ok?
    ensures CreatedEffect(b, CreateTask(b, task).state, task)
  {
  }

  // Every operation has one of the effects above.
  lemma EffectOf(b: Backing, op: Op) returns (e: Effect)
    requires Shape(b)
    ensures HasEffect(b, e, After(b, op))
    ensures e.Created? ==> op == Create(e.task)
    ensures e.Direct? <==> DirectCommit(b, op)
    ensures e.Direct? ==> e.t == DirectTask(op)
  {
    if op.Append? || op.WriteBaton? || op.Apply? || op.Fail? {
      e := TaskOpEffect(b, op);
    } else {
      e := OtherOpEffect(b, op);
    }
  }

  lemma TaskOpEffect(b: Backing, op: Op) returns (e: Effect)
    requires Shape(b) && (op.Append? || op.WriteBaton? || op.Apply? || op.Fail?)
    ensures HasEffect(b, e, After(b, op)) && !e.Created?
    ensures e.Direct? <==> DirectCommit(b, op)
    ensures e.Direct? ==> e.t == DirectTask(op)
  {
    hide After;
    if After(b, op) == b {
      e := Stutter;
    } else if op.Append? || op.WriteBaton? {
      e := DirectOpEffect(b, op);
    } else {
      e := CycleOpEffect(b, op);
    }
  }

  lemma OtherOpEffect(b: Backing, op: Op) returns (e: Effect)
    requires Shape(b) && (op.Create? || op.Register? || op.Initialize? || op.Consume?)
    ensures HasEffect(b, e, After(b, op)) && !e.Direct?
    ensures e.Created? ==> op == Create(e.task)
  {
    hide Shape, CreatedEffect, RegistryEffect;
    match op {
      case Create(task) =>
        e := if CreateTask(b, task).reply.Ok? then Created(task) else Stutter;
        if e.Created? {
          CreateEffect(b, task);
        }
      case Register(a, role, v) =>
        e := Registry;
        RegisterEffect(b, a, role, v);
      case Initialize(actors) =>
        e := Registry;
        InitializeEffect(b, actors);
      case Consume(_, _) => e := Stutter;
    }
  }

  lemma RegisterEffect(b: Backing, a: string, role: string, v: int)
    ensures RegistryEffect(b, RegisterActor(b, a, role, v).state)
  {
  }

  lemma InitializeEffect(b: Backing, actors: map<string, ActorRole>)
    ensures RegistryEffect(b, InitializeActors(b, actors).state)
  {
  }

  // A committed append or baton write, and the task it is about.
  predicate DirectCommit(b: Backing, op: Op) {
    (op.Append? || op.WriteBaton?) && After(b, op) != b
  }

  function DirectTask(op: Op): string
    requires op.Append? || op.WriteBaton?
  {
    if op.Append? then op.item.taskId else op.taskId
  }
}
