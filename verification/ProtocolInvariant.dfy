// The inductive invariant of the claim protocol: who holds which task, and what
// the snapshots that clients carry outside any transaction still mean.

module ProtocolInvariant {
  import opened Results
  import opened Domain
  import opened MemorySpec
  import opened MemoryRuns
  import opened FirestoreSpec

  // ---- the documents -------------------------------------------------------------------

  predicate IsClaimed(db: Db, id: CycleId) {
    id in db.cycles && db.cycles[id].Claimed?
  }

  predicate IsFinal(db: Db, id: CycleId) {
    id in db.cycles && db.cycles[id].Finalized?
  }

  // The lock of one task: the cycle it names as active is its one claimed cycle.
  ghost predicate TaskLock(db: Db, t: string)
    requires t in db.tasks
  {
    forall id: CycleId | id.task == t :: IsClaimed(db, id) <==> db.tasks[t].active == Some(id.key)
  }

  ghost predicate Locked(db: Db) {
    && (forall id: CycleId | id in db.cycles :: id.task in db.tasks)
    && (forall t | t in db.tasks :: TaskLock(db, t))
  }

  function FinalizedOf(db: Db, t: string): set<CycleId> {
    set id | id in db.cycles && id.task == t && db.cycles[id].Finalized?
  }

  // Every task document is under its own name and within the bounds that a
  // reader of it checks, and an active cycle always has room to be finalized.
  ghost predicate TaskBounds(db: Db, t: string)
    requires t in db.tasks
  {
    var doc := db.tasks[t];
    && doc.task.taskId == t
    && |doc.evidence| <= MAX_EVIDENCE
    && doc.cycleCount == |FinalizedOf(db, t)| <= MAX_CYCLES_PER_TASK
    && (doc.active.Some? ==> doc.cycleCount < MAX_CYCLES_PER_TASK)
  }

  ghost predicate Bounded(db: Db) {
    && (forall t | t in db.tasks :: TaskBounds(db, t))
    && db.created == |db.tasks| <= MAX_TASKS
    && |db.actors| <= MAX_ACTORS
  }

  // Each stored evidence identifier has the marker of its task, and no other
  // marker exists; so identifiers are unique across tasks.
  ghost predicate Marked(db: Db) {
    && (forall t, e | t in db.tasks && e in Ids(db.tasks[t].evidence) :: e in db.markers && db.markers[e] == t)
    && (forall e | e in db.markers :: db.markers[e] in db.tasks && e in Ids(db.tasks[db.markers[e]].evidence))
  }

  ghost predicate DbInv(db: Db) {
    Locked(db) && Bounded(db) && Marked(db)
  }

  // ---- transactions touch the documents of one task ---------------------------------------

  ghost predicate SameDocs(db: Db, after: Db, u: string) {
    && u in db.tasks && u in after.tasks && after.tasks[u] == db.tasks[u]
    && (forall id: CycleId | id.task == u && id in db.cycles :: id in after.cycles && after.cycles[id] == db.cycles[id])
    && (forall id: CycleId | id.task == u && id in after.cycles :: id in db.cycles)
  }

  ghost predicate DocsOnly(db: Db, after: Db, t: string) {
    && Only(db.tasks, after.tasks, t)
    && (forall id: CycleId | id.task != t && id in db.cycles :: id in after.cycles && after.cycles[id] == db.cycles[id])
    && (forall id: CycleId | id.task != t && id in after.cycles :: id in db.cycles)
  }

  lemma OtherDocsSame(db: Db, after: Db, t: string, u: string)
    requires DocsOnly(db, after, t) && u != t && u in db.tasks
    ensures SameDocs(db, after, u)
  {
  }

  lemma SameDocsKeepBounds(db: Db, after: Db, u: string)
    requires SameDocs(db, after, u) && TaskBounds(db, u)
    ensures TaskBounds(after, u)
  {
    assert FinalizedOf(after, u) == FinalizedOf(db, u);
  }

  // What remains to show for the task that a transaction touches.
  lemma TouchKeepsLocked(db: Db, after: Db, t: string)
    requires Locked(db) && DocsOnly(db, after, t)
    requires t in after.tasks && TaskLock(after, t)
    ensures Locked(after)
  {
  }

  lemma TouchKeepsBounded(db: Db, after: Db, t: string)
    requires Bounded(db) && DocsOnly(db, after, t)
    requires t in after.tasks && TaskBounds(after, t)
    requires after.created == db.created + (if t in db.tasks then 0 else 1) <= MAX_TASKS
    requires after.actors == db.actors
    ensures Bounded(after)
  {
    forall u | u in after.tasks ensures TaskBounds(after, u) {
      if u != t {
        OtherDocsSame(db, after, t, u);
        SameDocsKeepBounds(db, after, u);
      }
    }
    TouchedKeys(db.tasks, after.tasks, t);
  }

  lemma SameEvidenceKeepsMarked(db: Db, after: Db, t: string)
    requires Marked(db) && Only(db.tasks, after.tasks, t) && after.markers == db.markers
    requires t in after.tasks && after.tasks[t].evidence == (if t in db.tasks then db.tasks[t].evidence else [])
    ensures Marked(after)
  {
  }

  lemma IdsAppend(before: seq<Evidence>, items: seq<Evidence>)
    ensures Ids(before + items) == Ids(before) + Ids(items)
  {
    var all := before + items;
    assert forall i | 0 <= i < |before| :: all[i] == before[i];
    assert forall i | 0 <= i < |items| :: all[|before| + i] == items[i];
    forall e | e in Ids(all) ensures e in Ids(before) + Ids(items) {
      var i :| 0 <= i < |all| && all[i].evidenceId == e;
      assert i >= |before| ==> items[i - |before|] == all[i];
    }
  }

  lemma GrowKeepsMarked(db: Db, after: Db, t: string, items: seq<Evidence>)
    requires Marked(db) && Only(db.tasks, after.tasks, t) && t in db.tasks && t in after.tasks
    requires Ids(items) !! db.markers.Keys
    requires after.tasks[t].evidence == db.tasks[t].evidence + items
    requires after.markers == MarkAll(db.markers, Ids(items), t)
    ensures Marked(after)
  {
    IdsAppend(db.tasks[t].evidence, items);
  }

  // ---- claim -----------------------------------------------------------------------------------

  // Before a grant the task has no claimed cycle but possibly the granted one.
  lemma GrantKeepsLock(db: Db, txn: Txn, bound: Option<Intent>, now: int)
    requires txn.id.task in db.tasks
    requires forall id: CycleId | id.task == txn.id.task && IsClaimed(db, id) :: id == txn.id
    ensures TaskLock(Grant(db, txn, bound, now).db, txn.id.task)
  {
  }

  // Whatever a claim does, finalized cycles stay and only `active` of one task changes.
  ghost predicate Reclaims(db: Db, after: Db, txn: Txn) {
    var t := txn.id.task;
    && t in db.tasks && DocsOnly(db, after, t)
    && after == db.(tasks := after.tasks, cycles := after.cycles)
    && t in after.tasks && after.tasks[t] == db.tasks[t].(active := after.tasks[t].active)
    && (after.tasks[t].active.Some? ==> db.tasks[t].active.Some? || db.tasks[t].cycleCount < MAX_CYCLES_PER_TASK)
    && (forall id: CycleId | id.task == t :: IsFinal(after, id) <==> IsFinal(db, id))
    && (forall id: CycleId | id.task == t && IsFinal(db, id) :: after.cycles[id] == db.cycles[id])
    && (forall id: CycleId | id != txn.id && IsClaimed(after, id) :: id in db.cycles && after.cycles[id] == db.cycles[id])
  }

  lemma ReclaimKeepsDb(db: Db, after: Db, txn: Txn)
    requires DbInv(db) && Reclaims(db, after, txn) && TaskLock(after, txn.id.task)
    ensures DbInv(after)
  {
    var t := txn.id.task;
    TouchKeepsLocked(db, after, t);
    assert FinalizedOf(after, t) == FinalizedOf(db, t) by {
      forall id ensures id in FinalizedOf(after, t) <==> id in FinalizedOf(db, t) {
        assert id.task == t ==> (IsFinal(after, id) <==> IsFinal(db, id));
      }
    }
    assert TaskBounds(db, t);
    TouchKeepsBounded(db, after, t);
    SameEvidenceKeepsMarked(db, after, t);
  }

  // A grant reclaims, also after the expired claim `held` of its task is deleted.
  lemma GrantReclaims(db: Db, cleared: Db, txn: Txn, bound: Option<Intent>, now: int)
    requires txn.id.task in db.tasks && !IsFinal(db, txn.id)
    requires db.tasks[txn.id.task].active.Some? || db.tasks[txn.id.task].cycleCount < MAX_CYCLES_PER_TASK
    requires cleared == db
          || exists held :: IsClaimed(db, held) && held.task == txn.id.task && cleared == db.(cycles := db.cycles - {held})
    ensures Reclaims(db, Grant(cleared, txn, bound, now).db, txn)
  {
  }

  lemma TakeoverReclaims(db: Db, txn: Txn, now: int)
    requires DbInv(db) && txn.id in db.cycles && ClaimExisting(db, txn, now).reply.Granted?
    ensures var after := Claim(db, txn, now).db;
            Reclaims(db, after, txn) && TaskLock(after, txn.id.task)
  {
    hide Marked, Bounded, Grant, Reclaims;
    var bound := if db.cycles[txn.id].intent.Some? then db.cycles[txn.id].intent else txn.intent;
    assert TaskLock(db, txn.id.task) && IsClaimed(db, txn.id);
    ClaimIsAlone(db, txn.id);
    GrantKeepsLock(db, txn, bound, now);
    GrantReclaims(db, db, txn, bound, now);
  }

  lemma ClaimIsAlone(db: Db, id: CycleId)
    requires Locked(db) && IsClaimed(db, id)
    ensures forall other: CycleId | other.task == id.task && IsClaimed(db, other) :: other == id
  {
    assert TaskLock(db, id.task);
    forall other: CycleId | other.task == id.task && IsClaimed(db, other) ensures other == id {
      assert other.key == id.key;
    }
  }

  lemma FirstClaimReclaims(db: Db, txn: Txn, now: int)
    requires DbInv(db) && txn.id !in db.cycles && ClaimNew(db, txn, now).reply.Granted?
    ensures var after := Claim(db, txn, now).db;
            Reclaims(db, after, txn) && TaskLock(after, txn.id.task)
  {
    var t := txn.id.task;
    var doc := db.tasks[t];
    assert TaskLock(db, t);
    var cleared := db;
    if doc.active.Some? {
      var held := CycleId(t, doc.active.value);
      assert IsClaimed(db, held);
      cleared := db.(cycles := db.cycles - {held});
    }
    forall id: CycleId | id.task == t ensures !IsClaimed(cleared, id) {
      assert IsClaimed(db, id) <==> doc.active == Some(id.key);
    }
    GrantKeepsLock(cleared, txn, txn.intent, now);
    GrantReclaims(db, cleared, txn, txn.intent, now);
  }

  lemma ClaimReclaims(db: Db, txn: Txn, now: int)
    requires DbInv(db) && Claim(db, txn, now).reply.Granted?
    ensures var after := Claim(db, txn, now).db;
            Reclaims(db, after, txn) && TaskLock(after, txn.id.task)
  {
    if txn.id in db.cycles {
      TakeoverReclaims(db, txn, now);
    } else {
      FirstClaimReclaims(db, txn, now);
    }
  }

  lemma ClaimKeepsDb(db: Db, txn: Txn, now: int)
    requires DbInv(db)
    ensures DbInv(Claim(db, txn, now).db)
    ensures !Claim(db, txn, now).reply.Granted? ==> Claim(db, txn, now).db == db
  {
    if Claim(db, txn, now).reply.Granted? {
      ClaimReclaims(db, txn, now);
      ReclaimKeepsDb(db, Claim(db, txn, now).db, txn);
    }
  }

  // ---- abort and bind ----------------------------------------------------------------------------

  lemma AbortUnlocks(db: Db, txn: Txn)
    requires DbInv(db) && Holds(db, txn)
    ensures TaskLock(Abort(db, txn), txn.id.task)
  {
  }

  lemma AbortReclaims(db: Db, txn: Txn)
    requires DbInv(db) && Holds(db, txn)
    ensures Reclaims(db, Abort(db, txn), txn)
  {
    hide Marked, Bounded;
    var t := txn.id.task;
    var after := Abort(db, txn);
    assert db.tasks[t].active == Some(txn.id.key) by {
      assert TaskLock(db, t) && IsClaimed(db, txn.id);
    }
    assert after.tasks == db.tasks[t := db.tasks[t].(active := None)];
    forall id: CycleId
      ensures id.task != t && id in db.cycles ==> id in after.cycles && after.cycles[id] == db.cycles[id]
      ensures id.task != t && id in after.cycles ==> id in db.cycles
      ensures IsFinal(after, id) <==> IsFinal(db, id)
      ensures IsFinal(db, id) ==> after.cycles[id] == db.cycles[id]
      ensures id != txn.id && IsClaimed(after, id) ==> id in db.cycles && after.cycles[id] == db.cycles[id]
    {
    }
  }

  lemma AbortKeepsDb(db: Db, txn: Txn)
    requires DbInv(db)
    ensures DbInv(Abort(db, txn))
  {
    if Holds(db, txn) {
      AbortReclaims(db, txn);
      AbortUnlocks(db, txn);
      ReclaimKeepsDb(db, Abort(db, txn), txn);
    }
  }

  lemma BindKeepsDb(db: Db, txn: Txn, intent: Intent)
    requires DbInv(db)
    ensures DbInv(Bind(db, txn, intent).db)
    ensures Bind(db, txn, intent).db != db ==> Reclaims(db, Bind(db, txn, intent).db, txn)
  {
    hide Marked, Bounded;
    var after := Bind(db, txn, intent).db;
    if after != db {
      var t := txn.id.task;
      assert TaskLock(db, t);
      forall id: CycleId | id.task == t ensures IsClaimed(after, id) <==> after.tasks[t].active == Some(id.key) {
        assert IsClaimed(after, id) <==> IsClaimed(db, id);
      }
      ReclaimKeepsDb(db, after, txn);
    }
  }

  // ---- what a client computes on its snapshot ---------------------------------------------------

  predicate WorkFor(txn: Txn, work: Work) {
    && work.snap.task.taskId == txn.id.task
    && (work.ApplyWork? ==> work.intent.taskId == txn.id.task && work.intent.cycleKey == txn.id.key)
  }

  function WorkIntent(work: Work): Option<Intent> {
    if work.ApplyWork? then Some(work.intent) else None
  }

  function WorkBacking(work: Work): Backing {
    match work
    case ApplyWork(_, _, snap, actors, rv) => Snapshot(snap, actors, rv)
    case FailWork(_, _, snap) => Snapshot(snap, map[], 0)
  }

  lemma SnapshotShape(doc: TaskDoc, actors: map<string, ActorRole>, rv: nat)
    ensures Shape(Snapshot(doc, actors, rv))
  {
  }

  // A prepared finalization is one cycle of the memory store on the snapshot.
  lemma ComputeEffect(txn: Txn, work: Work)
    requires WorkFor(txn, work) && Compute(txn, work).reply.Ok?
    ensures var step := Compute(txn, work);
            CycleEffect(WorkBacking(work), step.state, txn.id,
                        CycleRecord(txn.operation, WorkIntent(work), step.reply.value))
  {
    match work
    case ApplyWork(intent, behaviour, snap, actors, rv) =>
      SnapshotShape(snap, actors, rv);
      ApplyEffect(Snapshot(snap, actors, rv), intent, txn.operation, behaviour);
    case FailWork(v, code, snap) =>
      SnapshotShape(snap, map[], 0);
      FailEffect(Snapshot(snap, map[], 0), txn.id, txn.operation, v, code);
  }

  ghost predicate PreparedFrom(txn: Txn, work: Work, p: Prepared) {
    && p.intent == WorkIntent(work)
    && p.result.task.taskId == txn.id.task
    && p.result.task.version == work.snap.task.version + 1
    && EvidenceAdmissible(p.result.evidence, txn.id.task, Ids(work.snap.evidence))
    && p.value == TaskDoc(p.result.task, work.snap.evidence + p.result.evidence, p.value.baton,
                          work.snap.cycleCount + 1, None)
    && |p.value.evidence| <= MAX_EVIDENCE && p.value.cycleCount <= MAX_CYCLES_PER_TASK
  }

  lemma PrepareComputes(txn: Txn, work: Work)
    requires WorkFor(txn, work) && Prepare(txn, work).Ok?
    ensures PreparedFrom(txn, work, Prepare(txn, work).value)
  {
    ComputeEffect(txn, work);
  }

  // ---- finalize ----------------------------------------------------------------------------------

  // The snapshot is the live document apart from its `active` field.
  predicate SnapMatches(db: Db, txn: Txn, snap: TaskDoc) {
    txn.id.task in db.tasks && db.tasks[txn.id.task].(active := None) == snap.(active := None)
  }

  lemma FinalizeUnlocks(db: Db, txn: Txn, p: Prepared, now: int)
    requires DbInv(db) && Finalize(db, txn, p, now).reply.Ok? && p.value.active == None
    ensures var after := Finalize(db, txn, p, now).db;
            TaskLock(after, txn.id.task) && DocsOnly(db, after, txn.id.task)
  {
  }

  lemma FinalizeCounts(db: Db, txn: Txn, p: Prepared, now: int)
    requires Finalize(db, txn, p, now).reply.Ok?
    ensures |FinalizedOf(Finalize(db, txn, p, now).db, txn.id.task)| == |FinalizedOf(db, txn.id.task)| + 1
  {
    assert FinalizedOf(Finalize(db, txn, p, now).db, txn.id.task) == FinalizedOf(db, txn.id.task) + {txn.id};
  }

  lemma FinalizeKeepsDb(db: Db, txn: Txn, work: Work, now: int)
    requires DbInv(db) && WorkFor(txn, work) && Prepare(txn, work).Ok?
    requires Holds(db, txn) ==> SnapMatches(db, txn, work.snap)
    ensures DbInv(Finalize(db, txn, Prepare(txn, work).value, now).db)
  {
    var p := Prepare(txn, work).value;
    PrepareComputes(txn, work);
    if Finalize(db, txn, p, now).reply.Ok? {
      var t := txn.id.task;
      var after := Finalize(db, txn, p, now).db;
      FinalizeUnlocks(db, txn, p, now);
      TouchKeepsLocked(db, after, t);
      FinalizeCounts(db, txn, p, now);
      assert TaskBounds(db, t);
      TouchKeepsBounded(db, after, t);
      GrowKeepsMarked(db, after, t, p.result.evidence);
    }
  }

  // ---- direct mutations, creation, registry ----------------------------------------------------------

  // A committed append or baton write, in the document of its task.
  ghost predicate Written(db: Db, after: Db, op: Op, items: seq<Evidence>)
    requires op.Append? || op.WriteBaton?
  {
    var t := DirectTask(op);
    && t in db.tasks && db.tasks[t].active == None
    && items == (if op.Append? then [op.item] else [])
    && after == db.(tasks := after.tasks, markers := MarkAll(db.markers, Ids(items), t))
    && t in after.tasks && after.tasks == db.tasks[t := after.tasks[t]]
    && after.tasks[t] == TaskDoc(db.tasks[t].task.(version := db.tasks[t].task.version + 1),
                                 db.tasks[t].evidence + items,
                                 if op.WriteBaton? then Some(op.baton) else db.tasks[t].baton,
                                 db.tasks[t].cycleCount, None)
    && Ids(items) !! db.markers.Keys && |after.tasks[t].evidence| <= MAX_EVIDENCE
    && MutateLocal(Local(db, t), op).reply.Ok?
  }

  lemma AppendOnSnapshot(doc: TaskDoc, item: Evidence, v: int)
    requires doc.task.taskId == item.taskId
    ensures var before := Snapshot(doc, map[], 0);
      var step := AppendEvidence(before, item, v);
      step.reply.Ok? ==>
        && step.state.evidenceIds - before.evidenceIds == Ids([item]) == {item.evidenceId}
        && item.taskId in step.state.tasks
        && step.state.tasks[item.taskId] == doc.task.(version := doc.task.version + 1)
        && step.state.EvidenceOf(item.taskId) == doc.evidence + [item]
        && step.state.batons == before.batons
  {
    IdsSnoc([], item);
    assert [] + [item] == [item] && Ids([]) == {};
  }

  lemma AppendWrites(db: Db, op: Op)
    requires Bounded(db) && op.Append? && MutateTask(db, op).reply.Ok?
    ensures Written(db, MutateTask(db, op).db, op, [op.item])
  {
    hide ValidEvidence, Locked;
    var t := op.item.taskId;
    assert t in db.tasks;
    assert TaskBounds(db, t);
    AppendOnSnapshot(db.tasks[t], op.item, op.expectedVersion);
  }

  lemma BatonWrites(db: Db, op: Op)
    requires Bounded(db) && op.WriteBaton? && MutateTask(db, op).reply.Ok?
    ensures Written(db, MutateTask(db, op).db, op, [])
  {
    var t := op.taskId;
    assert t in db.tasks;
    assert TaskBounds(db, t);
    var before := Local(db, t);
    assert SetBaton(before, t, op.baton, op.expectedVersion).reply.Ok?;
    assert before.evidenceIds - before.evidenceIds == {} == Ids([]);
    assert db.tasks[t].evidence + [] == db.tasks[t].evidence;
  }

  lemma MutationWrites(db: Db, op: Op) returns (items: seq<Evidence>)
    requires Bounded(db) && (op.Append? || op.WriteBaton?) && MutateTask(db, op).reply.Ok?
    ensures Written(db, MutateTask(db, op).db, op, items)
  {
    if op.Append? {
      AppendWrites(db, op);
      items := [op.item];
    } else {
      BatonWrites(db, op);
      items := [];
    }
  }

  lemma WrittenUnlocks(db: Db, after: Db, op: Op, items: seq<Evidence>)
    requires DbInv(db) && (op.Append? || op.WriteBaton?) && Written(db, after, op, items)
    ensures TaskLock(after, DirectTask(op)) && DocsOnly(db, after, DirectTask(op))
  {
    var t := DirectTask(op);
    assert TaskLock(db, t);
    forall id: CycleId | id.task == t ensures IsClaimed(after, id) <==> after.tasks[t].active == Some(id.key) {
      assert IsClaimed(after, id) <==> IsClaimed(db, id);
    }
  }

  lemma WrittenKeepsDb(db: Db, after: Db, op: Op, items: seq<Evidence>)
    requires DbInv(db) && (op.Append? || op.WriteBaton?) && Written(db, after, op, items)
    ensures DbInv(after)
  {
    var t := DirectTask(op);
    WrittenUnlocks(db, after, op, items);
    TouchKeepsLocked(db, after, t);
    assert TaskBounds(db, t);
    assert FinalizedOf(after, t) == FinalizedOf(db, t);
    TouchKeepsBounded(db, after, t);
    GrowKeepsMarked(db, after, t, items);
  }

  lemma RaisedMutationChangesNothing(db: Db, op: Op)
    requires (op.Append? || op.WriteBaton?) && MutateTask(db, op).reply.Raise?
    ensures MutateTask(db, op).db == db
  {
  }

  lemma MutateKeepsDb(db: Db, op: Op)
    requires DbInv(db) && (op.Append? || op.WriteBaton?)
    ensures DbInv(MutateTask(db, op).db)
  {
    hide MutateTask, Locked, Marked, TaskBounds, Written;
    if MutateTask(db, op).reply.Ok? {
      var items := MutationWrites(db, op);
      WrittenKeepsDb(db, MutateTask(db, op).db, op, items);
    } else {
      RaisedMutationChangesNothing(db, op);
    }
  }

  lemma CreateKeepsDb(db: Db, task: Task)
    requires DbInv(db)
    ensures DbInv(CreateDoc(db, task).db)
  {
    var after := CreateDoc(db, task).db;
    if CreateDoc(db, task).reply.Ok? {
      var t := task.taskId;
      forall id: CycleId | id.task == t ensures !IsClaimed(after, id) {
        assert id !in db.cycles;
      }
      TouchKeepsLocked(db, after, t);
      assert FinalizedOf(after, t) == {};
      TouchKeepsBounded(db, after, t);
      SameEvidenceKeepsMarked(db, after, t);
    }
  }

  ghost predicate SameDocuments(db: Db, after: Db) {
    after == db.(actors := after.actors, registryVersion := after.registryVersion)
  }

  lemma SameDocumentsKeepLocked(db: Db, after: Db)
    requires Locked(db) && SameDocuments(db, after)
    ensures Locked(after)
  {
  }

  lemma SameDocumentsKeepBounded(db: Db, after: Db)
    requires Bounded(db) && SameDocuments(db, after) && |after.actors| <= MAX_ACTORS
    ensures Bounded(after)
  {
  }

  lemma SameDocumentsKeepMarked(db: Db, after: Db)
    requires Marked(db) && after.tasks == db.tasks && after.markers == db.markers
    ensures Marked(after)
  {
  }

  lemma RegistryKeepsDb(db: Db, step: Done<nat>)
    requires DbInv(db)
    ensures DbInv(MutateRegistry(db, step).db)
  {
    var after := MutateRegistry(db, step).db;
    SameDocumentsKeepLocked(db, after);
    assert |after.actors| <= MAX_ACTORS;
    SameDocumentsKeepBounded(db, after);
    SameDocumentsKeepMarked(db, after);
  }
}
