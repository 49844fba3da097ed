// What holds of every execution of the Firestore system, for every number of
// clients, every interleaving, crash and takeover, and every clock reading.

module FirestoreTheorems {
  import opened Results
  import opened Domain
  import opened MemorySpec
  import opened MemoryLaws
  import opened MemoryRuns
  import opened MemoryInvariant
  import opened MemoryTheorems
  import opened FirestoreSpec
  import opened Protocol
  import opened ProtocolInvariant
  import opened ProtocolSafety
  import opened Refinement
  import opened Simulation

  // ---- mutual exclusion ------------------------------------------------------------------

  // A task names an active cycle exactly when that cycle is claimed, so at most
  // one cycle of a task is claimed; and a claimed cycle has room to be finalized.
  lemma ActiveIffClaimed(events: seq<Event>, id: CycleId, other: CycleId)
    requires id.task in Reached(events).db.tasks && other.task == id.task
    ensures var db := Reached(events).db;
      && (IsClaimed(db, id) <==> db.tasks[id.task].active == Some(id.key))
      && (IsClaimed(db, id) && IsClaimed(db, other) ==> id == other)
      && (IsClaimed(db, id) ==> db.tasks[id.task].cycleCount < MAX_CYCLES_PER_TASK)
  {
    RunKeepsSys(events);
    var db := Reached(events).db;
    assert TaskLock(db, id.task) && TaskBounds(db, id.task);
    assert IsClaimed(db, id) <==> db.tasks[id.task].active == Some(id.key);
    assert IsClaimed(db, other) <==> db.tasks[id.task].active == Some(other.key);
  }

  // ---- no lost update ------------------------------------------------------------------------

  // A step that finalizes the computed work of client c.
  ghost predicate Commits(s: System, c: nat, now: int) {
    && At(s, c) && s.clients[c].Ready? && Prepare(s.clients[c].txn, s.clients[c].work).Ok?
    && Finalize(s.db, s.clients[c].txn, Prepare(s.clients[c].txn, s.clients[c].work).value, now).reply.Ok?
  }

  // Whenever a finalization commits, the snapshot its client read outside any
  // transaction still is the live document, apart from `active`; the document
  // it writes is the live one with exactly this cycle added.
  lemma NoLostUpdate(events: seq<Event>, c: nat, now: int)
    requires Commits(Reached(events), c, now)
    ensures var s := Reached(events);
      var txn, work := s.clients[c].txn, s.clients[c].work;
      var live := s.db.tasks[txn.id.task];
      var result := Prepare(txn, work).value.result;
      var after := Next(s, FinalizeWork(c, now)).db.tasks[txn.id.task];
      && live.(active := None) == work.snap.(active := None)
      && after.task == result.task && result.task.version == live.task.version + 1
      && after.evidence == live.evidence + result.evidence
      && after.cycleCount == live.cycleCount + 1 && after.active == None
      && after.baton == if work.ApplyWork? && result.failureCode.None? && work.behaviour.Returned?
                           && work.behaviour.outcome.baton.Some?
                        then work.behaviour.outcome.baton else live.baton
  {
    hide Marked, Bounded, Locked, OwnersIssued, ReturnsRecorded;
    RunKeepsSys(events);
    var s := Reached(events);
    var txn, work := s.clients[c].txn, s.clients[c].work;
    assert ClientInv(s.db, s.clients[c]) && StillLive(s.db, txn, work.snap);
    PrepareComputes(txn, work);
    FinalizedDocs(s.db, txn, Prepare(txn, work).value, now);
    BatonWritten(txn, work);
    hide Prepare, Finalize, SysInv;
  }

  lemma BatonWritten(txn: Txn, work: Work)
    requires WorkFor(txn, work) && Prepare(txn, work).Ok?
    ensures var p := Prepare(txn, work).value;
      p.value.baton == if work.ApplyWork? && p.result.failureCode.None? && work.behaviour.Returned?
                          && work.behaviour.outcome.baton.Some?
                       then work.behaviour.outcome.baton else work.snap.baton
  {
    hide Prepare;
    if work.ApplyWork? {
      var admitted, v := LocalVerdict(txn, work);
      PreparedBaton(txn, work, admitted, v);
      AcceptedIffAcceptable(work.behaviour, admitted, work.actors[work.intent.actorId], work.intent, Ids(work.snap.evidence));
    } else {
      FailPrepared(txn, work);
    }
  }

  // ---- refinement -------------------------------------------------------------------------------

  // A committed apply_cycle is one atomic apply_cycle of the memory store on
  // the current documents with the same intent, operation and callback
  // behaviour. Only the code of a failure may differ, and it does for exactly
  // the masked denials: the gate denies a PASS that also proposes an evidence
  // identifier stored under another task, which the documents do not show.
  lemma FinalizeIsOneAtomicCycle(events: seq<Event>, c: nat, now: int)
    requires Commits(Reached(events), c, now) && Reached(events).clients[c].work.ApplyWork?
    ensures var s := Reached(events);
      var txn, work := s.clients[c].txn, s.clients[c].work;
      var result := Prepare(txn, work).value.result;
      var after := Abs(Next(s, FinalizeWork(c, now)).db);
      var step := ApplyCycle(Abs(s.db), work.intent, txn.operation, work.behaviour);
      && step.reply.Ok? && step.handed.Some? && work.intent.actorId in s.db.actors
      && (step.reply.value == result ==> after == step.state)
      && (step.reply.value == result <==>
            !MaskedDenial(work.behaviour, step.handed.value, s.db.actors[work.intent.actorId], work.intent,
                          Ids(s.db.tasks[txn.id.task].evidence), s.db.markers.Keys))
      && (step.reply.value != result ==>
            && result.failureCode.Some? && step.reply.value.failureCode.Some?
            && step.reply.value == result.(failureCode := step.reply.value.failureCode))
      && after.cycles == Abs(s.db).cycles[txn.id := CycleRecord(txn.operation, Some(work.intent), result)]
  {
    hide Marked, Bounded, Locked, OwnersIssued, ReturnsRecorded, Finalize, ApplyCycle;
    RunKeepsSys(events);
    var s := Reached(events);
    var txn, work := s.clients[c].txn, s.clients[c].work;
    assert ClientInv(s.db, s.clients[c]) && StillLive(s.db, txn, work.snap);
    FinalizedDocs(s.db, txn, Prepare(txn, work).value, now);
    FinalizeCompares(s.db, txn, work, now);
    hide Prepare, SysInv, Abs, SnapMatches, MaskedDenial, Compute;
  }

  lemma FinalizeCompares(db: Db, txn: Txn, work: Work, now: int)
    requires Marked(db) && work.ApplyWork? && WorkFor(txn, work) && Prepare(txn, work).Ok?
    requires Finalize(db, txn, Prepare(txn, work).value, now).reply.Ok?
    requires SnapMatches(db, txn, work.snap) && Extends(work.actors, db.actors)
    ensures var result := Prepare(txn, work).value.result;
      var after := Abs(Finalize(db, txn, Prepare(txn, work).value, now).db);
      var step := ApplyCycle(Abs(db), work.intent, txn.operation, work.behaviour);
      && step.reply.Ok? && step.handed.Some? && work.intent.actorId in db.actors
      && (step.reply.value == result ==> after == step.state)
      && (step.reply.value == result <==>
            !MaskedDenial(work.behaviour, step.handed.value, db.actors[work.intent.actorId], work.intent,
                          Ids(db.tasks[txn.id.task].evidence), db.markers.Keys))
      && (step.reply.value != result ==>
            && result.failureCode.Some? && step.reply.value.failureCode.Some?
            && step.reply.value == result.(failureCode := step.reply.value.failureCode))
      && after.cycles == Abs(db).cycles[txn.id := CycleRecord(txn.operation, Some(work.intent), result)]
  {
    var p := Prepare(txn, work).value;
    SnapshotIds(db, txn, work.snap);
    SameBehaviourRefines(db, txn, work, now);
    PrepareComputes(txn, work);
    FinalizeAbs(db, txn, work, p, now);
    hide Marked, Prepare, Finalize, ApplyCycle, Abs, MaskedDenial;
  }

  // ---- exactly once --------------------------------------------------------------------------------

  lemma CallKeepsFinal(s: System, e: Event)
    requires SysInv(s) && (e.TryClaim? || e.BindIntent? || e.FinalizeWork? || e.AbortClaim?)
    ensures KeepsFinal(s.db, Next(s, e).db)
  {
    hide Marked, Bounded, OwnersIssued, ReturnsRecorded, Prepare, Finalize, Bind, Abort, Claim;
    SameIsFenced(s.db, "");
    match e {
      case TryClaim(c, now) =>
        if At(s, c) && s.clients[c].Trying? {
          var txn := s.clients[c].txn;
          ClaimKeepsDb(s.db, txn, now);
          if Claim(s.db, txn, now).reply.Granted? {
            ClaimReclaims(s.db, txn, now);
            ReclaimKeepsFinal(s.db, Claim(s.db, txn, now).db, txn);
          }
        }
      case BindIntent(c) =>
        if At(s, c) && s.clients[c].Binding? { BindKeepsFinal(s.db, s.clients[c].txn, s.clients[c].intent); }
      case FinalizeWork(c, now) =>
        if At(s, c) && s.clients[c].Ready? {
          FinalizeFences(s.db, s.clients[c].txn, Prepare(s.clients[c].txn, s.clients[c].work).value, now, "");
        }
      case AbortClaim(c) => if At(s, c) && s.clients[c].Aborting? { AbortFences(s.db, s.clients[c].txn, ""); }
    }
  }

  // Direct writes, creations and the registry leave every cycle document alone.
  lemma DirectLeavesCycles(s: System, e: Event)
    requires SysInv(s) && (e.CreateTaskDoc? || e.Mutate? || e.RegisterOne? || e.RegisterMany?)
    ensures Next(s, e).db.cycles == s.db.cycles
  {
    hide SysInv, MutateTask, PublicTask, ValidActorId, RegisterActor, InitializeActors, RegistryBacking;
    match e {
      case Mutate(op) => if op.Append? || op.WriteBaton? { MutateTouchesOneTask(s.db, op); }
      case _ =>
    }
  }

  lemma StepKeepsFinal(s: System, e: Event)
    requires SysInv(s)
    ensures KeepsFinal(s.db, Next(s, e).db)
  {
    hide SysInv, KeepsFinal, MutateTask, CreateDoc, RegisterDoc, InitializeDoc;
    if e.TryClaim? || e.BindIntent? || e.FinalizeWork? || e.AbortClaim? {
      CallKeepsFinal(s, e);
    } else {
      if e.CreateTaskDoc? || e.Mutate? || e.RegisterOne? || e.RegisterMany? {
        DirectLeavesCycles(s, e);
      }
      SameCyclesKeepFinal(s.db, Next(s, e).db);
    }
  }

  lemma SameCyclesKeepFinal(db: Db, after: Db)
    requires after.cycles == db.cycles
    ensures KeepsFinal(db, after)
  {
  }

  lemma {:induction false} ExecutionKeepsFinal(s: System, events: seq<Event>)
    requires SysInv(s)
    ensures KeepsFinal(s.db, Execution(s, events).db)
    decreases |events|
  {
    if events != [] {
      StepKeepsFinal(s, events[0]);
      StepKeepsSys(s, events[0]);
      ExecutionKeepsFinal(Next(s, events[0]), events[1..]);
    }
  }

  // A finalized cycle document is never changed or deleted by anything later.
  lemma FinalizedForever(events: seq<Event>, more: seq<Event>, id: CycleId)
    requires IsFinal(Reached(events).db, id)
    ensures var later := Execution(Reached(events), more).db;
            IsFinal(later, id) && later.cycles[id] == Reached(events).db.cycles[id]
  {
    RunKeepsSys(events);
    ExecutionKeepsFinal(Reached(events), more);
  }

  // All calls that ever return normally for one task and key return the same
  // result, for the same operation, and it is the recorded one.
  lemma ReturnsAgree(events: seq<Event>, first: Return, second: Return)
    requires first in Reached(events).returned && second in Reached(events).returned && first.id == second.id
    ensures first == second
    ensures var db := Reached(events).db;
            IsFinal(db, first.id) && db.cycles[first.id].result == first.result
  {
    RunKeepsSys(events);
    assert IsFinal(Reached(events).db, first.id) && IsFinal(Reached(events).db, second.id);
  }

  // ---- bound intents ---------------------------------------------------------------------------------

  // A claimed cycle document keeps the intent bound to it.
  ghost predicate KeepsBound(db: Db, after: Db, id: CycleId) {
    IsClaimed(db, id) && db.cycles[id].intent.Some? && id in after.cycles ==>
      after.cycles[id].intent == db.cycles[id].intent
  }

  // The step commits a denial, recorded by fail_cycle, as the result of id.
  ghost predicate CommitsDenial(s: System, e: Event, id: CycleId) {
    e.FinalizeWork? && Commits(s, e.c, e.now) && s.clients[e.c].txn.id == id && s.clients[e.c].work.FailWork?
  }

  ghost predicate DeniedAlong(s: System, events: seq<Event>, id: CycleId)
    decreases |events|
  {
    events != [] && (CommitsDenial(s, events[0], id) || DeniedAlong(Next(s, events[0]), events[1..], id))
  }

  lemma ClaimKeepsBound(db: Db, txn: Txn, now: int, id: CycleId)
    ensures KeepsBound(db, Claim(db, txn, now).db, id)
  {
  }

  lemma BindKeepsBound(db: Db, txn: Txn, intent: Intent, id: CycleId)
    ensures KeepsBound(db, Bind(db, txn, intent).db, id)
  {
  }

  // What the finalization of client c records for its cycle.
  lemma FinalizeKeepsBound(s: System, c: nat, now: int, id: CycleId)
    requires SysInv(s) && Commits(s, c, now)
    ensures !CommitsDenial(s, FinalizeWork(c, now), id) ==> KeepsBound(s.db, Next(s, FinalizeWork(c, now)).db, id)
    ensures var txn, work := s.clients[c].txn, s.clients[c].work;
      var after := Next(s, FinalizeWork(c, now)).db;
      && IsClaimed(s.db, txn.id) && IsFinal(after, txn.id)
      && after.cycles[txn.id].intent == WorkIntent(work)
      && (work.ApplyWork? ==> s.db.cycles[txn.id].intent == Some(work.intent))
  {
    hide Marked, Bounded, Locked, OwnersIssued, ReturnsRecorded, SnapMatches;
    var txn, work := s.clients[c].txn, s.clients[c].work;
    var p := Prepare(txn, work).value;
    assert Locals(s.db, s.clients[c]);
    PrepareComputes(txn, work);
    hide Prepare;
    FinalizedDocs(s.db, txn, p, now);
    assert Holds(s.db, txn);
  }

  lemma SameCyclesKeepBound(db: Db, after: Db, id: CycleId)
    requires after.cycles == db.cycles
    ensures KeepsBound(db, after, id)
  {
  }

  lemma StepKeepsBound(s: System, e: Event, id: CycleId)
    requires SysInv(s) && !CommitsDenial(s, e, id)
    ensures KeepsBound(s.db, Next(s, e).db, id)
  {
    hide SysInv, KeepsBound, Claim, Bind, Abort, Prepare, Finalize, MutateTask, CreateDoc, RegisterDoc, InitializeDoc;
    SameCyclesKeepBound(s.db, s.db, id);
    match e {
      case TryClaim(c, now) =>
        if At(s, c) && s.clients[c].Trying? { ClaimKeepsBound(s.db, s.clients[c].txn, now, id); }
      case BindIntent(c) =>
        if At(s, c) && s.clients[c].Binding? {
          BindKeepsBound(s.db, s.clients[c].txn, s.clients[c].intent, id);
        }
      case AbortClaim(c) =>
        if At(s, c) && s.clients[c].Aborting? { AbortKeepsBound(s.db, s.clients[c].txn, id); }
      case FinalizeWork(c, now) => FinalizeStepKeepsBound(s, c, now, id);
      case _ =>
        if e.CreateTaskDoc? || e.Mutate? || e.RegisterOne? || e.RegisterMany? {
          DirectLeavesCycles(s, e);
        }
        SameCyclesKeepBound(s.db, Next(s, e).db, id);
    }
  }

  lemma FinalizeStepKeepsBound(s: System, c: nat, now: int, id: CycleId)
    requires SysInv(s) && !CommitsDenial(s, FinalizeWork(c, now), id)
    ensures KeepsBound(s.db, Next(s, FinalizeWork(c, now)).db, id)
  {
    hide SysInv, Prepare;
    if Commits(s, c, now) {
      FinalizeKeepsBound(s, c, now, id);
    } else {
      SameCyclesKeepBound(s.db, Next(s, FinalizeWork(c, now)).db, id);
    }
  }

  lemma AbortKeepsBound(db: Db, txn: Txn, id: CycleId)
    ensures KeepsBound(db, Abort(db, txn), id)
  {
  }

  // The cycle document of id exists in every state of an execution.
  predicate Persists(s: System, events: seq<Event>, id: CycleId)
    decreases |events|
  {
    id in s.db.cycles && (events == [] || Persists(Next(s, events[0]), events[1..], id))
  }

  lemma DenialDropsBound(s: System, e: Event, id: CycleId)
    requires SysInv(s) && CommitsDenial(s, e, id)
    ensures IsFinal(Next(s, e).db, id) && Next(s, e).db.cycles[id].intent == None
  {
    hide SysInv, Commits;
    FinalizeKeepsBound(s, e.c, e.now, id);
  }

  // A finalized cycle is never denied again.
  lemma {:induction false} FinalIsNotDenied(s: System, events: seq<Event>, id: CycleId)
    requires SysInv(s) && IsFinal(s.db, id)
    ensures !DeniedAlong(s, events, id)
    decreases |events|
  {
    hide SysInv;
    if events != [] {
      StepKeepsFinal(s, events[0]);
      StepKeepsSys(s, events[0]);
      FinalIsNotDenied(Next(s, events[0]), events[1..], id);
      if CommitsDenial(s, events[0], id) {
        FinalizedDocs(s.db, s.clients[events[0].c].txn,
                      Prepare(s.clients[events[0].c].txn, s.clients[events[0].c].work).value, events[0].now);
        assert false;
      }
    }
  }

  // Across any chain of crashes and takeovers, as long as its document exists, a
  // cycle keeps the first intent bound to it if and only if no step finalizes it
  // as a denial; and if one does, no intent is recorded.
  lemma {:induction false} BoundIntentWriteOnce(s: System, events: seq<Event>, id: CycleId)
    requires SysInv(s) && Persists(s, events, id) && IsClaimed(s.db, id) && s.db.cycles[id].intent.Some?
    ensures var after := Execution(s, events).db;
      && id in after.cycles
      && (after.cycles[id].intent == s.db.cycles[id].intent <==> !DeniedAlong(s, events, id))
      && (DeniedAlong(s, events, id) ==> IsFinal(after, id) && after.cycles[id].intent == None)
    decreases |events|
  {
    hide SysInv, CommitsDenial;
    if events != [] {
      var next := Next(s, events[0]);
      StepKeepsSys(s, events[0]);
      if CommitsDenial(s, events[0], id) {
        DenialDropsBound(s, events[0], id);
      } else {
        StepKeepsBound(s, events[0], id);
      }
      if IsClaimed(next.db, id) {
        BoundIntentWriteOnce(next, events[1..], id);
      } else {
        ExecutionKeepsFinal(next, events[1..]);
        FinalIsNotDenied(next, events[1..], id);
      }
    }
  }

  // An apply_cycle finalization is computed from, and records, exactly the
  // intent bound to the cycle, whatever intent the finalizing call came with;
  // a fail_cycle finalization records none.
  lemma FinalizeRecordsBoundIntent(events: seq<Event>, c: nat, now: int)
    requires Commits(Reached(events), c, now)
    ensures var s := Reached(events);
      var txn, work := s.clients[c].txn, s.clients[c].work;
      var after := Next(s, FinalizeWork(c, now)).db;
      && IsClaimed(s.db, txn.id) && IsFinal(after, txn.id)
      && (work.ApplyWork? ==> s.db.cycles[txn.id].intent == Some(work.intent) == after.cycles[txn.id].intent)
      && (work.FailWork? ==> after.cycles[txn.id].intent == None)
  {
    RunKeepsSys(events);
    var s := Reached(events);
    FinalizeKeepsBound(s, c, now, s.clients[c].txn.id);
  }

  // ---- what the memory theorems say of the documents ----------------------------------------------------

  lemma ReachedInv(events: seq<Event>)
    requires LegalEvents(events)
    ensures Inv(Abs(Reached(events).db))
  {
    ReachedRefines(events);
    MemoryTheorems.RunKeepsInv(SimRun(Start, events));
  }

  lemma AbsCyclesCounted(db: Db, t: string)
    ensures Cycles(AbsCycles(db), t, AnyCycle) == FinalizedOf(db, t)
  {
  }

  // Budgets and counts, in every reachable state: cycle_count is the number of
  // finalized cycles, tool and failure counters are the numbers of those with
  // an intent and of those of them that failed.
  lemma FirestoreAccounting(events: seq<Event>, t: string)
    requires LegalEvents(events) && t in Reached(events).db.tasks
    ensures var db := Reached(events).db;
      var doc := db.tasks[t];
      && doc.cycleCount == |FinalizedOf(db, t)| <= 64
      && doc.task.toolActions == |Cycles(AbsCycles(db), t, ActionCycle)| <= 3
      && doc.task.failedActions == |Cycles(AbsCycles(db), t, FailedAction)| <= 1
      && (doc.task.failedActions == 1 ==> doc.task.state == NEEDS_OPERATOR)
      && |doc.evidence| <= 24 && |db.tasks| == db.created <= 256
  {
    var db := Reached(events).db;
    RunKeepsSys(events);
    ReachedInv(events);
    assert Accounts(Abs(db), t) && TaskBounds(db, t);
  }

  // The version of a stored task is cycle_count plus its direct writes.
  lemma FirestoreVersions(events: seq<Event>, t: string)
    requires LegalEvents(events) && t in Reached(events).db.tasks
    ensures var doc := Reached(events).db.tasks[t];
            doc.task.version == doc.cycleCount + DirectWrites(EmptyBacking, SimRun(Start, events), t)
  {
    var db := Reached(events).db;
    RunKeepsSys(events);
    ReachedRefines(events);
    VersionAccounting(SimRun(Start, events), t);
    AbsCyclesCounted(db, t);
    assert TaskBounds(db, t);
    assert Abs(db).tasks[t] == db.tasks[t].task && Abs(db).cycles == AbsCycles(db);
  }

  // PASS integrity for the shared documents.
  lemma FirestorePassIntegrity(events: seq<Event>, t: string) returns (verifier: string)
    requires LegalEvents(events)
    requires t in Reached(events).db.tasks && Reached(events).db.tasks[t].task.state == PASSED
    ensures var db := Reached(events).db;
      var task := db.tasks[t].task;
      && task.worker.Some? && task.worker.value in db.actors && db.actors[task.worker.value] == WORKER
      && verifier in db.actors && db.actors[verifier] == VERIFIER && verifier != task.worker.value
      && (forall c | c in task.requiredChecks ::
            exists e :: e in db.tasks[t].evidence && e.taskId == t && e.actorId == verifier && e.kind == "verification"
                        && "status" in e.reference && e.reference["status"] == Text("verified") && e.checkId == c)
      && task.failedActions == 0 && 2 <= task.toolActions <= 3
  {
    var db := Reached(events).db;
    ReachedRefines(events);
    assert Abs(db).tasks[t] == db.tasks[t].task;
    verifier := PassIntegrity(SimRun(Start, events), t);
    assert Abs(db).EvidenceOf(t) == db.tasks[t].evidence && Abs(db).actors == db.actors;
    hide Abs;
  }

  // The markers are exactly the identifiers stored in task documents, each
  // pointing at the one task that stores it.
  lemma MarkersExact(events: seq<Event>, e: string, t: string)
    requires t in Reached(events).db.tasks
    ensures var db := Reached(events).db;
      && (e in Ids(db.tasks[t].evidence) <==> e in db.markers && db.markers[e] == t)
      && (e in db.markers ==> db.markers[e] in db.tasks)
  {
    hide Marked;
    RunKeepsSys(events);
    MarkedExact(Reached(events).db, e, t);
    hide SysInv;
  }

  lemma MarkedExact(db: Db, e: string, t: string)
    requires Marked(db) && t in db.tasks
    ensures e in Ids(db.tasks[t].evidence) <==> e in db.markers && db.markers[e] == t
    ensures e in db.markers ==> db.markers[e] in db.tasks
  {
  }

  // Along any continuation: evidence lists only grow at their end, identities,
  // recorded workers and roles stay, and passed tasks are frozen.
  lemma FirestoreContinues(events: seq<Event>, more: seq<Event>)
    requires LegalEvents(events) && LegalEvents(more)
    ensures Continues(Abs(Reached(events).db), Abs(Execution(Reached(events), more).db))
  {
    ReachedInv(events);
    RunKeepsSys(events);
    var s := Reached(events);
    ExecutionRefines(s, more);
    RunContinues(Abs(s.db), SimRun(s, more));
  }

  // ---- leases -----------------------------------------------------------------------------------------------

  // When exactly a claim is granted in a reachable state.
  predicate Grantable(db: Db, txn: Txn, now: int) {
    txn.id.task in db.tasks &&
    if txn.id in db.cycles then
      db.cycles[txn.id].Claimed? && db.cycles[txn.id].operation == txn.operation && db.cycles[txn.id].expiresAt <= now
    else
      var active := db.tasks[txn.id.task].active;
      && db.tasks[txn.id.task].cycleCount < MAX_CYCLES_PER_TASK
      && (active.Some? && CycleId(txn.id.task, active.value) in db.cycles ==>
            db.cycles[CycleId(txn.id.task, active.value)].expiresAt <= now)
  }

  // At any clock reading exactly one of two things holds of a held claim on
  // expiry grounds: its owner may finalize, or any call may take it over.
  lemma LeaseExclusive(db: Db, owner: Txn, p: Prepared, rival: Txn, now: int)
    requires Locked(db) && Holds(db, owner) && rival.id == owner.id && rival.operation == db.cycles[owner.id].operation
    requires p.result.task.version == db.tasks[owner.id.task].task.version + 1
    requires Ids(p.result.evidence) !! db.markers.Keys
    ensures Finalize(db, owner, p, now).reply.Ok? <==> !Claim(db, rival, now).reply.Granted?
    ensures Finalize(db, owner, p, now).reply.Ok? <==> now < db.cycles[owner.id].expiresAt
  {
  }

  // A claim is granted exactly when its key is neither finalized nor held under
  // another operation, no unexpired lease is in the way, and there is room; so
  // a crashed owner never wedges a task beyond its lease.
  lemma ClaimGrantedIff(events: seq<Event>, txn: Txn, now: int)
    ensures Claim(Reached(events).db, txn, now).reply.Granted? <==> Grantable(Reached(events).db, txn, now)
  {
    RunKeepsSys(events);
    var db := Reached(events).db;
    if txn.id.task in db.tasks {
      var doc := db.tasks[txn.id.task];
      assert TaskLock(db, txn.id.task);
      if doc.active.Some? {
        assert IsClaimed(db, CycleId(txn.id.task, doc.active.value));
      }
    }
  }

  // A granted claim holds its key for exactly one lease.
  lemma GrantedLease(db: Db, txn: Txn, now: int)
    requires Claim(db, txn, now).reply.Granted?
    ensures var after := Claim(db, txn, now).db;
            Holds(after, txn) && after.cycles[txn.id].expiresAt == now + 120 * SECOND
  {
  }

  // While a claim is held and not expired, nobody is granted any claim on its
  // task, under its own key or another.
  lemma HeldClaimExcludes(db: Db, txn: Txn, rival: Txn, now: int)
    requires Locked(db) && Holds(db, txn) && rival.id.task == txn.id.task && now < db.cycles[txn.id].expiresAt
    ensures !Claim(db, rival, now).reply.Granted? && Claim(db, rival, now).db == db
  {
    assert TaskLock(db, txn.id.task) && IsClaimed(db, txn.id);
  }

  // Steps of the owner that end its claim.
  ghost predicate Releases(s: System, e: Event, txn: Txn) {
    (e.AbortClaim? || e.FinalizeWork?) && At(s, e.c) && s.clients[e.c].txn.owner == txn.owner
  }

  // No clock is read past the expiry by a claim, and the owner keeps its claim.
  ghost predicate WithinLease(s: System, events: seq<Event>, txn: Txn, expiry: int)
    decreases |events|
  {
    events != [] ==>
      && (events[0].TryClaim? ==> events[0].now < expiry)
      && !Releases(s, events[0], txn)
      && WithinLease(Next(s, events[0]), events[1..], txn, expiry)
  }

  // The claim stands, for the same owner, key and lease.
  ghost predicate Stands(db: Db, txn: Txn, expiry: int) {
    Holds(db, txn) && db.cycles[txn.id].expiresAt == expiry
  }

  lemma ClaimLeavesOthers(db: Db, txn: Txn, rival: Txn, expiry: int, now: int)
    requires Locked(db) && Stands(db, txn, expiry) && now < expiry
    ensures Stands(Claim(db, rival, now).db, txn, expiry)
  {
    if rival.id.task == txn.id.task {
      HeldClaimExcludes(db, txn, rival, now);
    }
  }

  lemma StepWithinLease(s: System, e: Event, txn: Txn, expiry: int)
    requires SysInv(s) && Stands(s.db, txn, expiry) && !Releases(s, e, txn)
    requires e.TryClaim? ==> e.now < expiry
    ensures Stands(Next(s, e).db, txn, expiry)
  {
    hide SysInv, Claim, Prepare, MutateTask, CreateDoc, RegisterDoc, InitializeDoc, Locked;
    match e {
      case TryClaim(c, now) =>
        if At(s, c) && s.clients[c].Trying? {
          LockedHolds(s);
          ClaimLeavesOthers(s.db, txn, s.clients[c].txn, expiry, now);
        }
      case BindIntent(c) =>
      case FinalizeWork(c, now) =>
      case AbortClaim(c) =>
      case _ =>
        if e.CreateTaskDoc? || e.Mutate? || e.RegisterOne? || e.RegisterMany? {
          DirectLeavesCycles(s, e);
        }
    }
  }

  lemma LockedHolds(s: System)
    requires SysInv(s)
    ensures Locked(s.db)
  {
  }

  // Along every execution whose claims read the clock before the expiry, a claim
  // that its owner keeps stands, and no rival is granted any claim on its task.
  lemma {:induction false} LeaseExcludesRivals(s: System, events: seq<Event>, txn: Txn, expiry: int, rival: Txn, now: int)
    requires SysInv(s) && Stands(s.db, txn, expiry) && WithinLease(s, events, txn, expiry)
    requires rival.id.task == txn.id.task && now < expiry
    ensures Stands(Execution(s, events).db, txn, expiry)
    ensures !Claim(Execution(s, events).db, rival, now).reply.Granted?
    decreases |events|
  {
    hide SysInv, Claim, Releases, Stands;
    if events == [] {
      LockedHolds(s);
      HeldClaimIsExclusive(s.db, txn, expiry, rival, now);
    } else {
      StepKeepsSys(s, events[0]);
      StepWithinLease(s, events[0], txn, expiry);
      LeaseExcludesRivals(Next(s, events[0]), events[1..], txn, expiry, rival, now);
    }
  }

  lemma HeldClaimIsExclusive(db: Db, txn: Txn, expiry: int, rival: Txn, now: int)
    requires Locked(db) && Stands(db, txn, expiry) && rival.id.task == txn.id.task && now < expiry
    ensures !Claim(db, rival, now).reply.Granted?
  {
    HeldClaimExcludes(db, txn, rival, now);
  }

  // ---- legal moves -----------------------------------------------------------------------------------

  lemma OpMovesLegally(b: Backing, ops: seq<Op>, t: string)
    requires Inv(b) && Legal(ops) && |ops| <= 1 && t in b.tasks
    ensures var after := RunFrom(b, ops);
      t in after.tasks && LegalMove(b.tasks[t].state, after.tasks[t].state) && after.tasks[t].state != FAILED
  {
    hide Inv, After;
    if ops == [] {
      OpenState(b, t);
    } else {
      assert ops == [ops[0]];
      RunOne(b, ops[0]);
      StepMovesLegally(b, ops[0], t);
      StepKeepsInv(b, ops[0]);
      OpenState(After(b, ops[0]), t);
    }
  }

  lemma OpenState(b: Backing, t: string)
    requires Inv(b) && t in b.tasks
    ensures b.tasks[t].state != FAILED
  {
  }

  // Every step of every execution moves a stored task along an edge of the
  // table or leaves its state alone, and no task is ever FAILED.
  lemma FirestoreLegalMoves(events: seq<Event>, e: Event, t: string)
    requires LegalEvents(events) && CreatesFreshDoc(e) && t in Reached(events).db.tasks
    ensures var before, after := Reached(events).db, Next(Reached(events), e).db;
      && t in after.tasks && LegalMove(before.tasks[t].task.state, after.tasks[t].task.state)
      && after.tasks[t].task.state != FAILED
  {
    hide Inv, SysInv, Next, SimOp, LegalMove, RunFrom;
    var s := Reached(events);
    ReachedInv(events);
    RunKeepsSys(events);
    StepRefines(s, e);
    SimOpFresh(s, e);
    AbsTasksAre(s.db);
    AbsTasksAre(Next(s, e).db);
    OpMovesLegally(Abs(s.db), SimOp(s, e), t);
  }

  lemma AbsTasksAre(db: Db)
    ensures Abs(db).tasks.Keys == db.tasks.Keys
    ensures forall t | t in db.tasks :: Abs(db).tasks[t] == db.tasks[t].task
  {
  }

  // Optimistic concurrency for the documents: an action that is finalized was
  // decided on exactly the version before its own, and no two cycles of a task
  // are finalized at the same version.
  lemma FinalizedInTurn(events: seq<Event>, id: CycleId, other: CycleId)
    requires LegalEvents(events) && id.task == other.task
    requires IsFinal(Reached(events).db, id) && IsFinal(Reached(events).db, other)
    ensures var cycles := Reached(events).db.cycles;
      && (id != other ==> cycles[id].result.task.version != cycles[other].result.task.version)
      && (cycles[id].intent.Some? ==> cycles[id].intent.value.expectedVersion + 1 == cycles[id].result.task.version)
  {
    hide Inv, SysInv;
    ReachedRefines(events);
    CyclesCommitInTurn(SimRun(Start, events), id, other);
  }
}
