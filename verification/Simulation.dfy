// Every execution of the Firestore system is, on the backing its documents
// stand for, a run of the memory store; so every theorem about runs of the
// memory store holds of the shared documents in every interleaving.

module Simulation {
  import opened Domain
  import opened MemorySpec
  import opened MemoryRuns
  import opened FirestoreSpec
  import opened Protocol
  import opened ProtocolInvariant
  import opened ProtocolSafety
  import opened Refinement

  // ---- direct mutations, creation, registry ------------------------------------------------

  lemma WrittenAbs(db: Db, after: Db, op: Op, items: seq<Evidence>)
    requires (op.Append? || op.WriteBaton?) && Written(db, after, op, items)
    ensures var t := DirectTask(op);
      var b := Abs(db);
      Abs(after) == b.(tasks := b.tasks[t := after.tasks[t].task],
                       evidence := b.evidence[t := b.EvidenceOf(t) + items],
                       evidenceIds := b.evidenceIds + Ids(items),
                       batons := if op.WriteBaton? then b.batons[t := op.baton] else b.batons)
  {
    var t := DirectTask(op);
    AbsTaskWritten(db, after, t, after.tasks[t]);
    MarkedKeys(db.markers, Ids(items), t);
    if op.Append? {
      KeepBaton(db, t, db.tasks[t].baton);
    }
  }

  // What the local run of an append or baton write has checked.
  lemma LocalChecks(doc: TaskDoc, op: Op)
    requires op.Append? || op.WriteBaton?
    requires doc.task.taskId == DirectTask(op) && MutateLocal(Snapshot(doc, map[], 0), op).reply.Ok?
    ensures !doc.task.Terminal() && doc.task.version == op.expectedVersion
    ensures op.Append? ==> ValidEvidence(op.item)
    ensures op.WriteBaton? ==> BatonMetadataOnly(op.baton)
  {
  }

  lemma AppendCommits(b: Backing, item: Evidence, v: int)
    requires item.taskId in b.tasks && !b.tasks[item.taskId].Terminal() && b.tasks[item.taskId].version == v
    requires ValidEvidence(item) && item.evidenceId !in b.evidenceIds
    ensures AppendEvidence(b, item, v).state
         == b.(tasks := b.tasks[item.taskId := b.tasks[item.taskId].(version := b.tasks[item.taskId].version + 1)],
               evidence := b.evidence[item.taskId := b.EvidenceOf(item.taskId) + [item]],
               evidenceIds := b.evidenceIds + Ids([item]))
  {
    hide ValidEvidence;
    IdsSnoc([], item);
    assert [] + [item] == [item] && Ids([]) == {};
  }

  lemma AppendChecked(db: Db, after: Db, op: Op)
    requires op.Append? && Written(db, after, op, [op.item])
    requires db.tasks[op.item.taskId].task.taskId == op.item.taskId
    ensures var b := Abs(db);
      && op.item.taskId in b.tasks && !b.tasks[op.item.taskId].Terminal()
      && b.tasks[op.item.taskId].version == op.expectedVersion
      && after.tasks[op.item.taskId].task
           == b.tasks[op.item.taskId].(version := b.tasks[op.item.taskId].version + 1)
      && ValidEvidence(op.item) && op.item.evidenceId !in b.evidenceIds
  {
  }

  lemma AppendRefines(db: Db, after: Db, op: Op)
    requires op.Append? && Written(db, after, op, [op.item])
    requires db.tasks[op.item.taskId].task.taskId == op.item.taskId
    ensures Abs(after) == After(Abs(db), op)
  {
    hide ValidEvidence;
    AppendChecked(db, after, op);
    WrittenAbs(db, after, op, [op.item]);
    AppendCommits(Abs(db), op.item, op.expectedVersion);
    hide AppendEvidence, Written, Abs;
  }

  lemma BatonRefines(db: Db, after: Db, op: Op)
    requires op.WriteBaton? && Written(db, after, op, [])
    requires db.tasks[op.taskId].task.taskId == op.taskId
    ensures Abs(after) == After(Abs(db), op)
  {
    hide BatonMetadataOnly, MutateLocal, Snapshot;
    LocalChecks(db.tasks[op.taskId], op);
    WrittenAbs(db, after, op, []);
    KeepEvidence(Abs(db), op.taskId);
  }

  lemma MutateRefines(db: Db, op: Op)
    requires Bounded(db) && (op.Append? || op.WriteBaton?) && MutateTask(db, op).reply.Ok?
    ensures Abs(MutateTask(db, op).db) == After(Abs(db), op)
  {
    assert DirectTask(op) in db.tasks && TaskBounds(db, DirectTask(op));
    if op.Append? {
      AppendWrites(db, op);
      hide MutateTask;
      AppendRefines(db, MutateTask(db, op).db, op);
    } else {
      BatonWrites(db, op);
      hide MutateTask;
      BatonRefines(db, MutateTask(db, op).db, op);
    }
  }

  lemma CreateRefines(db: Db, task: Task)
    requires db.created == |db.tasks| && CreateDoc(db, task).reply.Ok?
    ensures Abs(CreateDoc(db, task).db) == After(Abs(db), Create(task))
  {
    var after := CreateDoc(db, task).db;
    assert AbsTasks(db).Keys == db.tasks.Keys;
    assert AbsTasks(after) == AbsTasks(db)[task.taskId := task];
    assert AbsEvidence(after) == AbsEvidence(db)[task.taskId := []];
    assert AbsBatons(after) == AbsBatons(db);
  }

  lemma RegistryAbs(db: Db, after: Db)
    requires SameDocuments(db, after)
    ensures Abs(after) == Abs(db).(actors := after.actors, registryVersion := after.registryVersion)
  {
  }

  lemma RegisterRefines(db: Db, a: string, role: string, v: int)
    requires RegisterDoc(db, a, role, v).reply.Ok?
    ensures Abs(RegisterDoc(db, a, role, v).db) == After(Abs(db), Register(a, role, v))
  {
  }

  lemma AbsRegistry(db: Db)
    ensures Abs(db).actors == db.actors && Abs(db).registryVersion == db.registryVersion
  {
  }

  // The registry is initialised alike in any backing that holds it.
  lemma SameInitialization(b: Backing, other: Backing, actors: map<string, ActorRole>)
    requires b.actors == other.actors && b.registryVersion == other.registryVersion
    ensures var step, same := InitializeActors(b, actors), InitializeActors(other, actors);
      && step.reply == same.reply
      && same.state == other.(actors := step.state.actors, registryVersion := step.state.registryVersion)
  {
    hide RolesAgree, VersionAfter;
  }

  lemma InitializeRefines(db: Db, actors: map<string, ActorRole>)
    requires InitializeDoc(db, actors).reply.Ok?
    ensures Abs(InitializeDoc(db, actors).db) == After(Abs(db), Initialize(actors))
  {
    hide ValidActorId, InitializeActors, Abs;
    AbsRegistry(db);
    SameInitialization(RegistryBacking(db), Abs(db), actors);
    RegistryAbs(db, InitializeDoc(db, actors).db);
  }

  // A direct step that raises leaves the documents alone.
  lemma RaisingLeavesDocs(db: Db, e: Event)
    ensures e.CreateTaskDoc? && CreateDoc(db, e.task).reply.Raise? ==> CreateDoc(db, e.task).db == db
    ensures e.RegisterOne? && RegisterDoc(db, e.actorId, e.role, e.expectedVersion).reply.Raise? ==>
              RegisterDoc(db, e.actorId, e.role, e.expectedVersion).db == db
    ensures e.RegisterMany? && InitializeDoc(db, e.actors).reply.Raise? ==> InitializeDoc(db, e.actors).db == db
  {
  }

  // ---- one step ---------------------------------------------------------------------------------

  // The memory operation that a step performs, if any.
  function SimOp(s: System, e: Event): seq<Op> {
    match e
    case FinalizeWork(c, now) =>
      if At(s, c) && s.clients[c].Ready? && Prepare(s.clients[c].txn, s.clients[c].work).Ok?
         && Finalize(s.db, s.clients[c].txn, Prepare(s.clients[c].txn, s.clients[c].work).value, now).reply.Ok?
      then [WorkOp(s.clients[c].txn, s.clients[c].work)] else []
    case CreateTaskDoc(task) => if CreateDoc(s.db, task).reply.Ok? then [Create(task)] else []
    case Mutate(op) => if (op.Append? || op.WriteBaton?) && MutateTask(s.db, op).reply.Ok? then [op] else []
    case RegisterOne(a, role, v) => if RegisterDoc(s.db, a, role, v).reply.Ok? then [Register(a, role, v)] else []
    case RegisterMany(actors) => if InitializeDoc(s.db, actors).reply.Ok? then [Initialize(actors)] else []
    case _ => []
  }

  lemma FinalizeStepRefines(s: System, c: nat, now: int)
    requires SysInv(s) && c in s.clients && s.clients[c].Ready?
    ensures Abs(FinalizeNext(s, c, now).db) == RunFrom(Abs(s.db), SimOp(s, FinalizeWork(c, now)))
  {
    var txn, work := s.clients[c].txn, s.clients[c].work;
    var p := Prepare(txn, work).value;
    if Finalize(s.db, txn, p, now).reply.Ok? {
      assert StillLive(s.db, txn, work.snap) && SnapMatches(s.db, txn, work.snap);
      SnapshotIds(s.db, txn, work.snap);
      RunOne(Abs(s.db), WorkOp(txn, work));
      if work.ApplyWork? {
        ApplyFinalizeRefines(s.db, txn, work, now);
      } else {
        FailFinalizeRefines(s.db, txn, work, now);
      }
    }
  }

  lemma CallStepRefines(s: System, e: Event)
    requires SysInv(s)
    requires !(e.CreateTaskDoc? || e.Mutate? || e.RegisterOne? || e.RegisterMany? || e.FinalizeWork?)
    ensures Abs(Next(s, e).db) == Abs(s.db) && SimOp(s, e) == []
  {
    hide Marked, Bounded, Locked, Abs;
    match e {
      case TryClaim(c, now) => if At(s, c) && s.clients[c].Trying? { ClaimStutters(s.db, s.clients[c].txn, now); }
      case BindIntent(c) =>
        if At(s, c) && s.clients[c].Binding? { BindStutters(s.db, s.clients[c].txn, s.clients[c].intent); }
      case AbortClaim(c) => if At(s, c) && s.clients[c].Aborting? { AbortStutters(s.db, s.clients[c].txn); }
      case _ =>
    }
  }

  lemma DirectStepRefines(s: System, e: Event)
    requires DbInv(s.db) && (e.CreateTaskDoc? || e.Mutate? || e.RegisterOne? || e.RegisterMany?)
    ensures Abs(Next(s, e).db) == RunFrom(Abs(s.db), SimOp(s, e))
  {
    hide MutateTask, CreateDoc, RegisterDoc, InitializeDoc, After, Abs, DbInv, RunFrom;
    RaisingLeavesDocs(s.db, e);
    RunNone(Abs(s.db));
    match e {
      case CreateTaskDoc(task) => CreateStepRefines(s, task);
      case Mutate(op) => if op.Append? || op.WriteBaton? { MutateStepRefines(s, op); }
      case RegisterOne(a, role, v) =>
        if RegisterDoc(s.db, a, role, v).reply.Ok? {
          RegisterRefines(s.db, a, role, v);
          RunOne(Abs(s.db), Register(a, role, v));
        }
      case RegisterMany(actors) =>
        if InitializeDoc(s.db, actors).reply.Ok? {
          InitializeRefines(s.db, actors);
          RunOne(Abs(s.db), Initialize(actors));
        }
    }
  }

  lemma RunNone(b: Backing)
    ensures RunFrom(b, []) == b
  {
  }

  lemma CreateStepRefines(s: System, task: Task)
    requires DbInv(s.db)
    ensures Abs(Next(s, CreateTaskDoc(task)).db) == RunFrom(Abs(s.db), SimOp(s, CreateTaskDoc(task)))
  {
    hide CreateDoc, After, Abs, Locked, Marked, TaskBounds;
    RaisingLeavesDocs(s.db, CreateTaskDoc(task));
    if CreateDoc(s.db, task).reply.Ok? {
      CreateRefines(s.db, task);
      RunOne(Abs(s.db), Create(task));
    }
  }

  lemma MutateStepRefines(s: System, op: Op)
    requires DbInv(s.db) && (op.Append? || op.WriteBaton?)
    ensures Abs(Next(s, Mutate(op)).db) == RunFrom(Abs(s.db), SimOp(s, Mutate(op)))
  {
    hide MutateTask, After, Abs, Locked, Marked;
    if MutateTask(s.db, op).reply.Ok? {
      MutateRefines(s.db, op);
      RunOne(Abs(s.db), op);
    } else {
      RaisedMutationChangesNothing(s.db, op);
    }
  }

  // Every step is a stutter or exactly one operation of the memory store.
  lemma StepRefines(s: System, e: Event)
    requires SysInv(s)
    ensures Abs(Next(s, e).db) == RunFrom(Abs(s.db), SimOp(s, e)) && |SimOp(s, e)| <= 1
  {
    if e.CreateTaskDoc? || e.Mutate? || e.RegisterOne? || e.RegisterMany? {
      DirectStepRefines(s, e);
    } else if e.FinalizeWork? {
      if At(s, e.c) && s.clients[e.c].Ready? {
        FinalizeStepRefines(s, e.c, e.now);
      }
    } else {
      CallStepRefines(s, e);
    }
  }

  // ---- whole executions ----------------------------------------------------------------------------

  function SimRun(s: System, events: seq<Event>): seq<Op>
    decreases |events|
  {
    if events == [] then [] else SimOp(s, events[0]) + SimRun(Next(s, events[0]), events[1..])
  }

  lemma SimOpFresh(s: System, e: Event)
    requires CreatesFreshDoc(e)
    ensures Legal(SimOp(s, e))
  {
  }

  lemma {:induction false} ExecutionRefines(s: System, events: seq<Event>)
    requires SysInv(s) && LegalEvents(events)
    ensures Abs(Execution(s, events).db) == RunFrom(Abs(s.db), SimRun(s, events))
    ensures Legal(SimRun(s, events))
    decreases |events|
  {
    if events != [] {
      var e := events[0];
      var mid := Next(s, e);
      assert CreatesFreshDoc(e);
      StepKeepsSys(s, e);
      StepRefines(s, e);
      SimOpFresh(s, e);
      ExecutionRefines(mid, events[1..]);
      RunFromConcat(Abs(s.db), SimOp(s, e), SimRun(mid, events[1..]));
    }
  }

  lemma AbsEmpty()
    ensures Abs(EmptyDb) == EmptyBacking
  {
  }

  // The refinement theorem: from the empty collection, whatever the clients,
  // clocks and crashes, the documents stand for a reachable memory backing.
  lemma ReachedRefines(events: seq<Event>)
    requires LegalEvents(events)
    ensures Abs(Reached(events).db) == Run(SimRun(Start, events)) && Legal(SimRun(Start, events))
  {
    StartInv();
    AbsEmpty();
    ExecutionRefines(Start, events);
  }
}
