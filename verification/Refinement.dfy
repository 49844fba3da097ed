// The Firestore protocol refines the atomic store: every committed finalization
// is one atomic cycle of the memory store on the current documents, every
// direct mutation is the memory operation, and all other steps are stutters.

module Refinement {
  import opened Results
  import opened Domain
  import opened MemorySpec
  import opened MemoryLaws
  import opened MemoryRuns
  import opened FirestoreSpec
  import opened ProtocolInvariant

  // ---- the backing that the documents stand for ----------------------------------------

  function AbsTasks(db: Db): map<string, Task> {
    map t | t in db.tasks :: db.tasks[t].task
  }

  function AbsEvidence(db: Db): map<string, seq<Evidence>> {
    map t | t in db.tasks :: db.tasks[t].evidence
  }

  function AbsBatons(db: Db): map<string, Metadata> {
    map t | t in db.tasks && db.tasks[t].baton.Some? :: db.tasks[t].baton.value
  }

  function AbsCycles(db: Db): map<CycleId, CycleRecord> {
    map id | id in db.cycles && db.cycles[id].Finalized? ::
      CycleRecord(db.cycles[id].operation, db.cycles[id].intent, db.cycles[id].result)
  }

  // Claims, owners, leases and cycle counts are not visible in the backing.
  function Abs(db: Db): Backing {
    Backing(AbsTasks(db), AbsEvidence(db), db.markers.Keys, AbsCycles(db), AbsBatons(db),
            db.actors, db.registryVersion, map[])
  }

  // ---- claim, bind, abort and takeover are stutters ---------------------------------------

  lemma ReclaimStutters(db: Db, after: Db, txn: Txn)
    requires Reclaims(db, after, txn)
    ensures Abs(after) == Abs(db)
  {
    var t := txn.id.task;
    assert AbsTasks(after) == AbsTasks(db);
    assert AbsEvidence(after) == AbsEvidence(db);
    assert AbsBatons(after) == AbsBatons(db);
    assert AbsCycles(after) == AbsCycles(db) by {
      forall id: CycleId ensures IsFinal(after, id) <==> IsFinal(db, id) {
      }
      forall id: CycleId | IsFinal(db, id) ensures after.cycles[id] == db.cycles[id] {
      }
    }
  }

  lemma ClaimStutters(db: Db, txn: Txn, now: int)
    requires DbInv(db)
    ensures Abs(Claim(db, txn, now).db) == Abs(db)
  {
    ClaimKeepsDb(db, txn, now);
    if Claim(db, txn, now).reply.Granted? {
      ClaimReclaims(db, txn, now);
      ReclaimStutters(db, Claim(db, txn, now).db, txn);
    }
  }

  lemma AbortStutters(db: Db, txn: Txn)
    requires DbInv(db)
    ensures Abs(Abort(db, txn)) == Abs(db)
  {
    if Holds(db, txn) {
      AbortReclaims(db, txn);
      ReclaimStutters(db, Abort(db, txn), txn);
    }
  }

  lemma BindStutters(db: Db, txn: Txn, intent: Intent)
    requires DbInv(db)
    ensures Abs(Bind(db, txn, intent).db) == Abs(db)
  {
    BindKeepsDb(db, txn, intent);
    if Bind(db, txn, intent).db != db {
      ReclaimStutters(db, Bind(db, txn, intent).db, txn);
    }
  }

  // ---- the local verdict and the global one --------------------------------------------------

  // What a verdict on local identifiers becomes against all identifiers.
  lemma AcceptedAgrees(behaviour: Behaviour, admitted: Task, role: ActorRole, intent: Intent,
                       local: set<string>, all: set<string>)
    requires local <= all
    requires var v := Judge(behaviour, admitted, role, intent, local);
             v.Accepted? && Ids(v.evidence) !! all
    ensures Judge(behaviour, admitted, role, intent, all) == Judge(behaviour, admitted, role, intent, local)
  {
  }

  // A callback that proposes an identifier stored under another task only.
  ghost predicate CrossTaskDuplicate(behaviour: Behaviour, local: set<string>, all: set<string>) {
    behaviour.Returned?
    && exists i | 0 <= i < |behaviour.outcome.evidence| ::
         behaviour.outcome.evidence[i].evidenceId in all && behaviour.outcome.evidence[i].evidenceId !in local
  }

  // A PASS that the gate denies and that proposes such an identifier: judged
  // with all identifiers at hand, it is an invalid outcome before the gate is
  // asked; judged on the documents of its own task, it is the gate's denial.
  ghost predicate MaskedDenial(behaviour: Behaviour, admitted: Task, role: ActorRole, intent: Intent,
                               local: set<string>, all: set<string>) {
    && CrossTaskDuplicate(behaviour, local, all)
    && var o := behaviour.outcome;
    && ValidOutcome(o) && o.failureCode == None && o.target == PASSED
    && EvidenceAdmissible(o.evidence, admitted.taskId, local)
    && var pass := PassVerdict(admitted, role, intent, o.evidence);
       pass.Raise? && pass.error.PolicyDenied?
  }

  lemma DenialIsNotInvalidOutcome(admitted: Task, role: ActorRole, intent: Intent, evidence: seq<Evidence>)
    ensures var pass := PassVerdict(admitted, role, intent, evidence);
            pass.Raise? && pass.error.PolicyDenied? ==> pass.error.code != INVALID_OUTCOME
  {
  }

  lemma NoDuplicateSameAdmission(behaviour: Behaviour, taskId: string, local: set<string>, all: set<string>)
    requires local <= all && behaviour.Returned?
    ensures var items := behaviour.outcome.evidence;
      EvidenceAdmissible(items, taskId, all) <==>
        EvidenceAdmissible(items, taskId, local) && !CrossTaskDuplicate(behaviour, local, all)
  {
  }

  // A rejection stays one against all identifiers, with the same code except
  // for exactly the masked denials.
  lemma RejectedAgreesIff(behaviour: Behaviour, admitted: Task, role: ActorRole, intent: Intent,
                          local: set<string>, all: set<string>)
    requires local <= all && Judge(behaviour, admitted, role, intent, local).Rejected?
    ensures var v := Judge(behaviour, admitted, role, intent, all);
      && v.Rejected?
      && (v == Judge(behaviour, admitted, role, intent, local) <==>
            !MaskedDenial(behaviour, admitted, role, intent, local, all))
  {
    AcceptedIffAcceptable(behaviour, admitted, role, intent, local);
    AcceptedIffAcceptable(behaviour, admitted, role, intent, all);
    if behaviour.Returned? {
      hide CrossTaskDuplicate, EvidenceAdmissible;
      NoDuplicateSameAdmission(behaviour, admitted.taskId, local, all);
      DenialIsNotInvalidOutcome(admitted, role, intent, behaviour.outcome.evidence);
    }
  }

  // It does happen: a worker that proposes PASSED with one valid item whose
  // identifier another task has stored.
  lemma MaskedDenialHappens(item: Evidence, admitted: Task, intent: Intent, local: set<string>, all: set<string>)
    requires local <= all && ValidEvidence(item) && item.taskId == admitted.taskId
    requires item.evidenceId in all && item.evidenceId !in local
    ensures var behaviour := Returned(Outcome(PASSED, [item], None, None));
      && Judge(behaviour, admitted, WORKER, intent, local) == Rejected("pass_requires_verifier")
      && Judge(behaviour, admitted, WORKER, intent, all) == Rejected("invalid_outcome")
  {
    hide ValidEvidence;
    assert !EvidenceAdmissible([item], admitted.taskId, all) by { assert [item][0] == item; }
  }

  // A behaviour with the given failure code has exactly that verdict.
  lemma FailureReproduced(code: string, admitted: Task, role: ActorRole, intent: Intent, all: set<string>)
    requires OpaqueToken(code)
    ensures Judge(RaisedActionFailed(Some(code)), admitted, role, intent, all) == Rejected(code)
  {
  }

  // ---- finalize ----------------------------------------------------------------------------------

  // The documents after a committed finalization.
  lemma FinalizedDocs(db: Db, txn: Txn, p: Prepared, now: int)
    requires Finalize(db, txn, p, now).reply.Ok?
    ensures var t := txn.id.task;
      var after := Finalize(db, txn, p, now).db;
      && t in db.tasks && Holds(db, txn) && !IsFinal(db, txn.id)
      && Ids(p.result.evidence) !! db.markers.Keys
      && IsFinal(after, txn.id)
      && var cycle := after.cycles[txn.id];
      && cycle.operation == txn.operation && cycle.intent == p.intent && cycle.result == p.result
      && after == db.(tasks := db.tasks[t := p.value], cycles := db.cycles[txn.id := cycle],
                      markers := MarkAll(db.markers, Ids(p.result.evidence), t))
  {
  }

  lemma AbsTaskWritten(db: Db, after: Db, t: string, doc: TaskDoc)
    requires t in db.tasks && after.tasks == db.tasks[t := doc]
    ensures AbsTasks(after) == AbsTasks(db)[t := doc.task]
    ensures AbsEvidence(after) == AbsEvidence(db)[t := doc.evidence]
    ensures AbsBatons(after) == if doc.baton.Some? then AbsBatons(db)[t := doc.baton.value] else AbsBatons(db) - {t}
  {
  }

  lemma AbsCycleWritten(db: Db, after: Db, id: CycleId, cycle: CycleDoc)
    requires cycle.Finalized? && after.cycles == db.cycles[id := cycle]
    ensures AbsCycles(after) == AbsCycles(db)[id := CycleRecord(cycle.operation, cycle.intent, cycle.result)]
  {
  }

  lemma MarkedKeys(markers: map<string, string>, ids: set<string>, t: string)
    ensures MarkAll(markers, ids, t).Keys == markers.Keys + ids
  {
  }

  // The backing after a committed finalization.
  lemma FinalizeAbs(db: Db, txn: Txn, work: Work, p: Prepared, now: int)
    requires PreparedFrom(txn, work, p) && SnapMatches(db, txn, work.snap)
    requires Finalize(db, txn, p, now).reply.Ok?
    ensures var t := txn.id.task;
      var b := Abs(db);
      Abs(Finalize(db, txn, p, now).db) ==
        b.(tasks := b.tasks[t := p.result.task],
           evidence := b.evidence[t := b.EvidenceOf(t) + p.result.evidence],
           evidenceIds := b.evidenceIds + Ids(p.result.evidence),
           batons := if p.value.baton.Some? then b.batons[t := p.value.baton.value] else b.batons - {t},
           cycles := b.cycles[txn.id := CycleRecord(txn.operation, WorkIntent(work), p.result)])
  {
    var t := txn.id.task;
    var after := Finalize(db, txn, p, now).db;
    FinalizedDocs(db, txn, p, now);
    hide Finalize;
    AbsTaskWritten(db, after, t, p.value);
    AbsCycleWritten(db, after, txn.id, after.cycles[txn.id]);
    MarkedKeys(db.markers, Ids(p.result.evidence), t);
    assert Abs(db).EvidenceOf(t) == work.snap.evidence;
  }

  // The baton of a prepared document.
  lemma PreparedBaton(txn: Txn, work: Work, admitted: Task, v: Verdict)
    requires work.ApplyWork? && WorkFor(txn, work) && Prepare(txn, work).Ok?
    requires Compute(txn, work).state == Commit(WorkBacking(work), work.intent, txn.operation, admitted, v)
    ensures Prepare(txn, work).value.value.baton
         == if v.Accepted? && v.baton.Some? then v.baton else work.snap.baton
  {
  }

  // The operation of the memory store that a committed finalization amounts to.
  function WorkOp(txn: Txn, work: Work): Op
    requires Prepare(txn, work).Ok?
  {
    match work
    case FailWork(v, code, _) => Fail(txn.id, txn.operation, v, code)
    case ApplyWork(intent, behaviour, _, _, _) =>
      var code := Prepare(txn, work).value.result.failureCode;
      Apply(intent, txn.operation, if code.Some? then RaisedActionFailed(code) else behaviour)
  }

  // The snapshot and the abstract backing admit the same intents the same way.
  lemma SameAdmission(db: Db, txn: Txn, work: Work)
    requires work.ApplyWork? && WorkFor(txn, work) && SnapMatches(db, txn, work.snap)
    requires Extends(work.actors, db.actors)
    requires Admissible(WorkBacking(work), work.intent) && txn.id in db.cycles && !IsFinal(db, txn.id)
    ensures Admissible(Abs(db), work.intent) && Admit(Abs(db), work.intent) == Admit(WorkBacking(work), work.intent)
    ensures work.intent.actorId in work.actors && work.intent.actorId in db.actors
    ensures db.actors[work.intent.actorId] == work.actors[work.intent.actorId]
  {
  }

  lemma SnapshotIds(db: Db, txn: Txn, snap: TaskDoc)
    requires Marked(db) && SnapMatches(db, txn, snap)
    ensures Ids(snap.evidence) <= db.markers.Keys
  {
  }

  // The local run of apply_cycle in terms of its verdict.
  lemma LocalVerdict(txn: Txn, work: Work) returns (admitted: Task, v: Verdict)
    requires work.ApplyWork? && WorkFor(txn, work) && Prepare(txn, work).Ok?
    ensures Admissible(WorkBacking(work), work.intent) && Admit(WorkBacking(work), work.intent) == Ok(admitted)
    ensures !work.behaviour.RaisedInterrupt?
    ensures v == Judge(work.behaviour, admitted, work.actors[work.intent.actorId], work.intent, Ids(work.snap.evidence))
    ensures Compute(txn, work).state == Commit(WorkBacking(work), work.intent, txn.operation, admitted, v)
    ensures Prepare(txn, work).value.result == VerdictResult(v, admitted)
  {
    admitted := Admit(WorkBacking(work), work.intent).value;
    v := Judge(work.behaviour, admitted, work.actors[work.intent.actorId], work.intent, Ids(work.snap.evidence));
  }

  // A private document and the abstract backing agree on the baton to keep.
  lemma KeepBaton(db: Db, t: string, kept: Option<Metadata>)
    requires t in db.tasks && kept == db.tasks[t].baton
    ensures (if kept.Some? then AbsBatons(db)[t := kept.value] else AbsBatons(db) - {t}) == AbsBatons(db)
  {
  }

  lemma GlobalCommit(db: Db, txn: Txn, work: Work, admitted: Task, v: Verdict, now: int)
    requires work.ApplyWork? && WorkFor(txn, work) && Prepare(txn, work).Ok? && SnapMatches(db, txn, work.snap)
    requires Compute(txn, work).state == Commit(WorkBacking(work), work.intent, txn.operation, admitted, v)
    requires Prepare(txn, work).value.result == VerdictResult(v, admitted)
    requires Finalize(db, txn, Prepare(txn, work).value, now).reply.Ok?
    ensures Abs(Finalize(db, txn, Prepare(txn, work).value, now).db)
         == Commit(Abs(db), work.intent, txn.operation, admitted, v)
    ensures Ids(VerdictResult(v, admitted).evidence) !! db.markers.Keys
    ensures txn.id in db.cycles && !IsFinal(db, txn.id)
  {
    var p := Prepare(txn, work).value;
    var t := txn.id.task;
    PrepareComputes(txn, work);
    FinalizeAbs(db, txn, work, p, now);
    FinalizedDocs(db, txn, p, now);
    PreparedBaton(txn, work, admitted, v);
    hide Prepare, Finalize, Compute;
    if !(v.Accepted? && v.baton.Some?) {
      KeepBaton(db, t, p.value.baton);
    }
    assert txn.id == CycleId(t, work.intent.cycleKey);
  }

  lemma WorkOpOfVerdict(txn: Txn, work: Work, admitted: Task, v: Verdict)
    requires work.ApplyWork? && Prepare(txn, work).Ok?
    requires Prepare(txn, work).value.result == VerdictResult(v, admitted)
    ensures WorkOp(txn, work) == Apply(work.intent, txn.operation,
                                       if v.Accepted? then work.behaviour else RaisedActionFailed(Some(v.code)))
  {
  }

  // A committed apply_cycle finalization is one atomic memory cycle on the
  // current documents: with the very callback behaviour when it succeeded, and
  // with a callback failing with the recorded code when it failed.
  lemma ApplyFinalizeRefines(db: Db, txn: Txn, work: Work, now: int)
    requires work.ApplyWork? && WorkFor(txn, work) && Prepare(txn, work).Ok?
    requires SnapMatches(db, txn, work.snap) && Extends(work.actors, db.actors)
    requires Ids(work.snap.evidence) <= db.markers.Keys
    requires Finalize(db, txn, Prepare(txn, work).value, now).reply.Ok?
    ensures Abs(Finalize(db, txn, Prepare(txn, work).value, now).db) == After(Abs(db), WorkOp(txn, work))
    ensures !Raises(Abs(db), WorkOp(txn, work))
  {
    hide Prepare, Finalize, Compute, WorkOp, Abs, Judge, Commit, Admit, Admissible, After, Raises;
    var admitted, v := LocalVerdict(txn, work);
    GlobalCommit(db, txn, work, admitted, v, now);
    SameAdmission(db, txn, work);
    AbsParts(db);
    var role, local := work.actors[work.intent.actorId], Ids(work.snap.evidence);
    WorkOpOfVerdict(txn, work, admitted, v);
    if v.Accepted? {
      AcceptedAgrees(work.behaviour, admitted, role, work.intent, local, db.markers.Keys);
      JudgedCommits(Abs(db), work.intent, txn.operation, admitted, v, work.behaviour);
    } else {
      RejectedCodeIsToken(work.behaviour, admitted, role, work.intent, local);
      FailureReproduced(v.code, admitted, role, work.intent, db.markers.Keys);
      JudgedCommits(Abs(db), work.intent, txn.operation, admitted, v, RaisedActionFailed(Some(v.code)));
    }
  }

  lemma AbsParts(db: Db)
    ensures Abs(db).actors == db.actors && Abs(db).evidenceIds == db.markers.Keys
  {
  }

  // A cycle whose callback gets the verdict commits it.
  lemma JudgedCommits(b: Backing, intent: Intent, operation: string, admitted: Task, v: Verdict, behaviour: Behaviour)
    requires Admissible(b, intent) && Admit(b, intent) == Ok(admitted) && !behaviour.RaisedInterrupt?
    requires v == Judge(behaviour, admitted, b.actors[intent.actorId], intent, b.evidenceIds)
    ensures var op := Apply(intent, operation, behaviour);
            After(b, op) == Commit(b, intent, operation, admitted, v) && !Raises(b, op)
    ensures ApplyCycle(b, intent, operation, behaviour)
         == Applied(Commit(b, intent, operation, admitted, v), Ok(VerdictResult(v, admitted)), Some(admitted))
  {
    hide Judge, Commit, ApplyCycle;
    AdmittedCycleCommits(b, intent, operation, behaviour);
  }

  // With the same callback behaviour the memory cycle on the current documents
  // commits the same result, up to the failure code; and the code differs for
  // exactly the masked denials.
  lemma SameBehaviourRefines(db: Db, txn: Txn, work: Work, now: int)
    requires work.ApplyWork? && WorkFor(txn, work) && Prepare(txn, work).Ok?
    requires SnapMatches(db, txn, work.snap) && Extends(work.actors, db.actors)
    requires Ids(work.snap.evidence) <= db.markers.Keys
    requires Finalize(db, txn, Prepare(txn, work).value, now).reply.Ok?
    ensures var result := Prepare(txn, work).value.result;
      var step := ApplyCycle(Abs(db), work.intent, txn.operation, work.behaviour);
      && step.reply.Ok? && step.handed.Some? && work.intent.actorId in db.actors
      && step.reply.value == result.(failureCode := step.reply.value.failureCode)
      && (result.failureCode.None? <==> step.reply.value.failureCode.None?)
      && (step.reply.value == result <==>
            !MaskedDenial(work.behaviour, step.handed.value, db.actors[work.intent.actorId], work.intent,
                          Ids(work.snap.evidence), db.markers.Keys))
      && (step.reply.value == result ==> step.state == Abs(Finalize(db, txn, Prepare(txn, work).value, now).db))
  {
    hide Prepare, Finalize, Compute, Abs, Judge, Commit, Admit, Admissible, MaskedDenial, ApplyCycle, Acceptable, CrossTaskDuplicate;
    var admitted, v := LocalVerdict(txn, work);
    GlobalCommit(db, txn, work, admitted, v, now);
    SameAdmission(db, txn, work);
    AbsParts(db);
    var role, local := work.actors[work.intent.actorId], Ids(work.snap.evidence);
    if v.Accepted? {
      AcceptedAgrees(work.behaviour, admitted, role, work.intent, local, db.markers.Keys);
      AcceptedIsNotMasked(work.behaviour, admitted, role, work.intent, local, db.markers.Keys);
    } else {
      RejectedAgreesIff(work.behaviour, admitted, role, work.intent, local, db.markers.Keys);
    }
    var global := Judge(work.behaviour, admitted, role, work.intent, db.markers.Keys);
    JudgedCommits(Abs(db), work.intent, txn.operation, admitted, global, work.behaviour);
    SameResultSameVerdict(v, global, admitted);
  }

  lemma AcceptedIsNotMasked(behaviour: Behaviour, admitted: Task, role: ActorRole, intent: Intent,
                            local: set<string>, all: set<string>)
    requires Judge(behaviour, admitted, role, intent, local).Accepted?
    ensures !MaskedDenial(behaviour, admitted, role, intent, local, all)
  {
  }

  // A success that reuses an identifier of another task never commits: its
  // finalization raises and changes nothing.
  lemma CrossTaskSuccessIsRefused(db: Db, txn: Txn, work: Work, now: int)
    requires work.ApplyWork? && WorkFor(txn, work) && Prepare(txn, work).Ok?
    requires Prepare(txn, work).value.result.failureCode.None?
    requires CrossTaskDuplicate(work.behaviour, Ids(work.snap.evidence), db.markers.Keys)
    ensures var step := Finalize(db, txn, Prepare(txn, work).value, now);
            step.reply.Raise? && step.db == db
  {
    hide Prepare, Compute, Judge, Commit, Acceptable, WorkFor;
    var admitted, v := LocalVerdict(txn, work);
    AcceptedIffAcceptable(work.behaviour, admitted, work.actors[work.intent.actorId], work.intent, Ids(work.snap.evidence));
    var items := work.behaviour.outcome.evidence;
    var i :| 0 <= i < |items| && items[i].evidenceId in db.markers.Keys && items[i].evidenceId !in Ids(work.snap.evidence);
    assert items[i].evidenceId in Ids(items);
  }

  lemma SameResultSameVerdict(v: Verdict, w: Verdict, admitted: Task)
    requires v == w || (v.Rejected? && w.Rejected?)
    ensures VerdictResult(v, admitted) == VerdictResult(w, admitted) <==> v == w
  {
  }

  lemma FailPrepared(txn: Txn, work: Work)
    requires work.FailWork? && WorkFor(txn, work) && Prepare(txn, work).Ok?
    ensures var p := Prepare(txn, work).value;
      && OpaqueToken(work.code) && work.snap.task.version == work.expectedVersion && !work.snap.task.Terminal()
      && p.result == ActionResult(work.snap.task.(state := NEEDS_OPERATOR, version := work.snap.task.version + 1),
                                  [], Some(work.code))
      && p.value.baton == work.snap.baton
  {
  }

  lemma FailFinalizeRefines(db: Db, txn: Txn, work: Work, now: int)
    requires work.FailWork? && WorkFor(txn, work) && Prepare(txn, work).Ok?
    requires SnapMatches(db, txn, work.snap)
    requires Finalize(db, txn, Prepare(txn, work).value, now).reply.Ok?
    ensures Abs(Finalize(db, txn, Prepare(txn, work).value, now).db) == After(Abs(db), WorkOp(txn, work))
    ensures !Raises(Abs(db), WorkOp(txn, work))
  {
    hide Prepare, Finalize, Compute;
    var p := Prepare(txn, work).value;
    var t := txn.id.task;
    var b := Abs(db);
    PrepareComputes(txn, work);
    FailPrepared(txn, work);
    FinalizeAbs(db, txn, work, p, now);
    FinalizedDocs(db, txn, p, now);
    KeepBaton(db, t, p.value.baton);
    assert b.tasks[t] == work.snap.task && txn.id !in b.cycles;
    KeepEvidence(b, t);
    FailCommits(b, txn.id, txn.operation, work.expectedVersion, work.code);
    hide FailCycle;
  }

  lemma KeepEvidence(b: Backing, t: string)
    requires t in b.evidence
    ensures b.evidence[t := b.EvidenceOf(t) + []] == b.evidence && b.evidenceIds + Ids([]) == b.evidenceIds
  {
    assert b.EvidenceOf(t) + [] == b.EvidenceOf(t);
  }

  lemma FailCommits(b: Backing, id: CycleId, operation: string, v: int, code: string)
    requires id !in b.cycles && id.task in b.tasks && OpaqueToken(code)
    requires b.tasks[id.task].version == v && !b.tasks[id.task].Terminal()
    ensures var result := ActionResult(b.tasks[id.task].(state := NEEDS_OPERATOR, version := b.tasks[id.task].version + 1),
                                       [], Some(code));
      FailCycle(b, id, operation, v, code) ==
        Done(b.(tasks := b.tasks[id.task := result.task],
                cycles := b.cycles[id := CycleRecord(operation, None, result)]), Ok(result))
  {
  }
}
