// The Firestore store as functions on its shared documents: each transaction
// is one atomic step that commits or, when it raises, changes nothing.

module FirestoreSpec {
  import opened Results
  import opened Domain
  import opened MemorySpec
  import opened MemoryRuns

  const LEASE: int := 120 * SECOND
  const MAX_EVIDENCE: nat := 24
  const MAX_REQUIRED_CHECKS: nat := 8
  const MAX_ACTORS: nat := 64
  const MAX_CYCLES_PER_TASK: nat := 64
  const MAX_CANONICAL_FIELD_LENGTH: nat := 4_096
  const SYNTHETIC_CHECKS := {"check", "progress", "quality", "safety"}
  const SYNTHETIC_PREFIX := "synthetic_"

  datatype TaskDoc = TaskDoc(
    task: Task,
    evidence: seq<Evidence>,
    baton: Option<Metadata>,
    cycleCount: nat,
    active: Option<string>)

  datatype CycleDoc =
    | Claimed(operation: string, intent: Option<Intent>, owner: string, createdAt: int, expiresAt: int)
    | Finalized(operation: string, intent: Option<Intent>, createdAt: int, expiresAt: int, result: ActionResult)

  // The documents of one collection. Document names are injective in the task
  // and cycle key (or evidence identifier), so those are the keys here.
  datatype Db = Db(
    tasks: map<string, TaskDoc>,
    cycles: map<CycleId, CycleDoc>,
    markers: map<string, string>,
    actors: map<string, ActorRole>,
    registryVersion: nat,
    created: nat)

  const EmptyDb := Db(map[], map[], map[], map[], 0, 0)

  // One call of run_cycle_transaction with its freshly drawn owner token.
  datatype Txn = Txn(id: CycleId, operation: string, intent: Option<Intent>, owner: string)

  predicate ValidTxn(txn: Txn) {
    && 1 <= |txn.id.key| <= 256
    && 1 <= |txn.operation| <= MAX_CANONICAL_FIELD_LENGTH
  }

  // ---- claims ---------------------------------------------------------------------------

  datatype ClaimReply =
    | AlreadyFinalized(result: ActionResult)
    | Waiting
    | Granted(task: Task, bound: Option<Intent>)
    | Refused(error: Error)

  datatype Claiming = ClaimStep(db: Db, reply: ClaimReply)

  predicate IntentsClash(stored: Option<Intent>, incoming: Option<Intent>) {
    stored.Some? && incoming.Some? && stored != incoming
  }

  // The claim itself: the task points at the key and the cycle names its owner.
  function Grant(db: Db, txn: Txn, bound: Option<Intent>, now: int): Claiming
    requires txn.id.task in db.tasks
  {
    var doc := db.tasks[txn.id.task];
    ClaimStep(
      db.(tasks := db.tasks[txn.id.task := doc.(active := Some(txn.id.key))],
          cycles := db.cycles[txn.id := Claimed(txn.operation, bound, txn.owner, now, now + LEASE)]),
      Granted(doc.task, bound))
  }

  function ClaimExisting(db: Db, txn: Txn, now: int): Claiming
    requires txn.id in db.cycles
  {
    var cycle := db.cycles[txn.id];
    if cycle.operation != txn.operation then ClaimStep(db, Refused(IdempotencyConflict))
    else if cycle.Finalized? then
      ClaimStep(db, if IntentsClash(cycle.intent, txn.intent) then Refused(IdempotencyConflict)
                    else AlreadyFinalized(cycle.result))
    else if cycle.expiresAt > now then
      ClaimStep(db, if IntentsClash(cycle.intent, txn.intent) then Refused(IdempotencyConflict) else Waiting)
    else if txn.id.task !in db.tasks then ClaimStep(db, Refused(KeyError))
    else Grant(db, txn, if cycle.intent.Some? then cycle.intent else txn.intent, now)
  }

  function ClaimNew(db: Db, txn: Txn, now: int): Claiming {
    if txn.id.task !in db.tasks then ClaimStep(db, Refused(KeyError)) else
    var doc := db.tasks[txn.id.task];
    var held := doc.active.Some? && CycleId(txn.id.task, doc.active.value) in db.cycles
                && db.cycles[CycleId(txn.id.task, doc.active.value)].Claimed?;
    if held && db.cycles[CycleId(txn.id.task, doc.active.value)].expiresAt > now then ClaimStep(db, Waiting)
    else if doc.cycleCount >= MAX_CYCLES_PER_TASK then ClaimStep(db, Refused(ValueError))
    else
      var cleared :=
        if held then db.(cycles := db.cycles - {CycleId(txn.id.task, doc.active.value)}) else db;
      Grant(cleared, txn, txn.intent, now)
  }

  function Claim(db: Db, txn: Txn, now: int): Claiming {
    if txn.id in db.cycles then ClaimExisting(db, txn, now) else ClaimNew(db, txn, now)
  }

  predicate OwnedBy(db: Db, id: CycleId, owner: string) {
    id in db.cycles && db.cycles[id].Claimed? && db.cycles[id].owner == owner
  }

  predicate Holds(db: Db, txn: Txn) {
    OwnedBy(db, txn.id, txn.owner)
  }

  function Abort(db: Db, txn: Txn): Db {
    if !Holds(db, txn) then db
    else
      var t := txn.id.task;
      db.(tasks := if t in db.tasks && db.tasks[t].active == Some(txn.id.key)
                   then db.tasks[t := db.tasks[t].(active := None)] else db.tasks,
          cycles := db.cycles - {txn.id})
  }

  datatype DbStep<+T> = DbStep(db: Db, reply: Reply<T>)

  function Bind(db: Db, txn: Txn, intent: Intent): DbStep<()> {
    if !Holds(db, txn) || db.cycles[txn.id].operation != txn.operation then DbStep(db, Raise(VersionConflict))
    else
      var cycle := db.cycles[txn.id];
      if cycle.intent.Some? && cycle.intent != Some(intent) then DbStep(db, Raise(IdempotencyConflict))
      else if cycle.intent.Some? then DbStep(db, Ok(()))
      else
        var bound := Claimed(cycle.operation, Some(intent), cycle.owner, cycle.createdAt, cycle.expiresAt);
        DbStep(db.(cycles := db.cycles[txn.id := bound]), Ok(()))
  }

  // ---- computing a cycle outside any transaction -------------------------------------------

  // The private memory backing decoded from one task document.
  function Snapshot(doc: TaskDoc, actors: map<string, ActorRole>, registryVersion: nat): Backing {
    var t := doc.task.taskId;
    Backing(map[t := doc.task], map[t := doc.evidence], Ids(doc.evidence), map[],
            if doc.baton.Some? then map[t := doc.baton.value] else map[], actors, registryVersion, map[])
  }

  // The document of a task in a private backing.
  function Document(b: Backing, t: string, cycleCount: nat, active: Option<string>): Reply<TaskDoc> {
    if t !in b.tasks then Raise(KeyError)
    else if |b.EvidenceOf(t)| > MAX_EVIDENCE then Raise(ValueError)
    else
      Ok(TaskDoc(b.tasks[t], b.EvidenceOf(t), if t in b.batons then Some(b.batons[t]) else None, cycleCount, active))
  }

  // What a client runs on its snapshot: an intent with what its callback does,
  // or the recording of a denial.
  datatype Work =
    | ApplyWork(intent: Intent, behaviour: Behaviour, snap: TaskDoc, actors: map<string, ActorRole>, registryVersion: nat)
    | FailWork(expectedVersion: int, code: string, snap: TaskDoc)

  // What _finalize_claim takes into its transaction.
  datatype Prepared = Prepared(result: ActionResult, value: TaskDoc, intent: Option<Intent>)

  function Compute(txn: Txn, work: Work): Done<ActionResult> {
    match work
    case ApplyWork(intent, behaviour, snap, actors, rv) =>
      var step := ApplyCycle(Snapshot(snap, actors, rv), intent, txn.operation, behaviour);
      Done(step.state, step.reply)
    case FailWork(v, code, snap) =>
      FailCycle(Snapshot(snap, map[], 0), txn.id, txn.operation, v, code)
  }

  function Prepare(txn: Txn, work: Work): Reply<Prepared> {
    var step := Compute(txn, work);
    if step.reply.Raise? then Raise(step.reply.error)
    else if work.snap.cycleCount + 1 > MAX_CYCLES_PER_TASK then Raise(ValueError)
    else
      var document := Document(step.state, txn.id.task, work.snap.cycleCount + 1, None);
      if document.Raise? then Raise(document.error)
      else
        Ok(Prepared(step.reply.value, document.value,
                    if txn.id in step.state.cycles then step.state.cycles[txn.id].intent else None))
  }

  function MarkAll(markers: map<string, string>, ids: set<string>, t: string): map<string, string> {
    map e | e in markers.Keys + ids :: if e in ids then t else markers[e]
  }

  function Finalize(db: Db, txn: Txn, p: Prepared, now: int): DbStep<ActionResult> {
    var t := txn.id.task;
    if !Holds(db, txn) then DbStep(db, Raise(VersionConflict))
    else if db.cycles[txn.id].expiresAt <= now then DbStep(db, Raise(VersionConflict))
    else if t !in db.tasks then DbStep(db, Raise(KeyError))
    else if db.tasks[t].task.version !in {p.result.task.version, p.result.task.version - 1} then
      DbStep(db, Raise(VersionConflict))
    else if Ids(p.result.evidence) !! db.markers.Keys then
      var cycle := db.cycles[txn.id];
      DbStep(db.(tasks := db.tasks[t := p.value],
                 markers := MarkAll(db.markers, Ids(p.result.evidence), t),
                 cycles := db.cycles[txn.id :=
                   Finalized(txn.operation, p.intent, cycle.createdAt, cycle.expiresAt, p.result)]),
             Ok(p.result))
    else DbStep(db, Raise(EvidenceConflict))
  }

  // ---- direct mutations, creation and the registry --------------------------------------------

  function Local(db: Db, t: string): Backing {
    if t in db.tasks then Snapshot(db.tasks[t], map[], 0) else EmptyBacking
  }

  // append_evidence or set_baton run on the private backing of their task.
  function MutateLocal(b: Backing, op: Op): Done<Task>
    requires op.Append? || op.WriteBaton?
  {
    if op.Append? then AppendEvidence(b, op.item, op.expectedVersion)
    else SetBaton(b, op.taskId, op.baton, op.expectedVersion)
  }

  function MutateTask(db: Db, op: Op): DbStep<Task>
    requires op.Append? || op.WriteBaton?
  {
    var t := DirectTask(op);
    if t in db.tasks && db.tasks[t].active.Some? then DbStep(db, Raise(VersionConflict)) else
    var before := Local(db, t);
    var step := MutateLocal(before, op);
    if step.reply.Raise? then DbStep(db, Raise(step.reply.error)) else
    var newIds := step.state.evidenceIds - before.evidenceIds;
    if !(newIds !! db.markers.Keys) then DbStep(db, Raise(EvidenceConflict)) else
    var document := Document(step.state, t, if t in db.tasks then db.tasks[t].cycleCount else 0, None);
    if document.Raise? then DbStep(db, Raise(document.error))
    else
      DbStep(db.(tasks := db.tasks[t := document.value], markers := MarkAll(db.markers, newIds, t)), step.reply)
  }

  predicate SyntheticTitle(title: string) {
    && |SYNTHETIC_PREFIX| + 1 <= |title| <= |SYNTHETIC_PREFIX| + 54
    && title[..|SYNTHETIC_PREFIX|] == SYNTHETIC_PREFIX
    && forall i | |SYNTHETIC_PREFIX| <= i < |title| ::
         'a' <= title[i] <= 'z' || '0' <= title[i] <= '9' || title[i] == '_' || title[i] == '-'
  }

  predicate PublicTask(task: Task) {
    && task.origin == LocalApi && SyntheticTitle(task.title)
    && |task.requiredChecks| <= MAX_REQUIRED_CHECKS
    && forall i | 0 <= i < |task.requiredChecks| :: task.requiredChecks[i] in SYNTHETIC_CHECKS
  }

  function CreateDoc(db: Db, task: Task): DbStep<Task> {
    if !PublicTask(task) then DbStep(db, Raise(ValueError))
    else if db.created >= MAX_TASKS then DbStep(db, Raise(ValueError))
    else if task.taskId in db.tasks then DbStep(db, Raise(ValueError))
    else
      DbStep(db.(tasks := db.tasks[task.taskId := TaskDoc(task, [], None, 0, None)], created := db.created + 1),
             Ok(task))
  }

  predicate ActorIdChar(c: char) {
    TokenTail(c) || c == ':'
  }

  predicate ValidActorId(a: string) {
    1 <= |a| <= 128 && TokenHead(a[0]) && forall i | 1 <= i < |a| :: ActorIdChar(a[i])
  }

  function RegistryBacking(db: Db): Backing {
    EmptyBacking.(actors := db.actors, registryVersion := db.registryVersion)
  }

  function MutateRegistry(db: Db, step: Done<nat>): DbStep<nat> {
    if step.reply.Raise? then DbStep(db, step.reply)
    else if |step.state.actors| > MAX_ACTORS then DbStep(db, Raise(ValueError))
    else
      DbStep(db.(actors := step.state.actors, registryVersion := step.state.registryVersion), step.reply)
  }

  function RegisterDoc(db: Db, actorId: string, role: string, expectedVersion: int): DbStep<nat> {
    if !ValidActorId(actorId) then DbStep(db, Raise(ValueError))
    else MutateRegistry(db, RegisterActor(RegistryBacking(db), actorId, role, expectedVersion))
  }

  function InitializeDoc(db: Db, actors: map<string, ActorRole>): DbStep<nat> {
    if exists a | a in actors :: !ValidActorId(a) then DbStep(db, Raise(ValueError))
    else MutateRegistry(db, InitializeActors(RegistryBacking(db), actors))
  }
}
