// Executions from the empty collection: that the theorems speak of something,
// and that the cases in which they allow a deviation do occur.

module Scenarios {
  import opened Results
  import opened Domain
  import opened MemorySpec
  import opened MemoryLaws
  import opened MemoryRuns
  import opened FirestoreSpec
  import opened Protocol
  import opened ProtocolSteps
  import opened ProtocolInvariant
  import opened Refinement
  import opened FirestoreTheorems
  import opened Progress
  import opened ServiceSpec
  import opened ServiceLaws
  import opened ServiceProtocol

  // ---- a first action -----------------------------------------------------------------------------------

  // From the empty collection: any public task, once created, and any worker,
  // once registered, can have their first action committed.
  lemma FirstActionCommits(task: Task, intent: Intent, behaviour: Behaviour, c: nat, txn: Txn, now: int, later: int)
    requires Fresh(task) && PublicTask(task) && ValidTxn(txn) && now <= later < now + LEASE
    requires ValidIntent(intent) && ValidActorId(intent.actorId) && intent.action == RecordProgress
    requires intent.taskId == task.taskId && intent.expectedVersion == 0
    requires txn.id == CycleId(intent.taskId, intent.cycleKey) && txn.intent == Some(intent)
    requires !behaviour.RaisedInterrupt? && |EvidenceOffered(behaviour)| <= MAX_EVIDENCE
    ensures var events := [CreateTaskDoc(task), RegisterOne(intent.actorId, "worker", 0)]
                          + ApplyCall(c, txn, intent, behaviour, now);
            LegalEvents(events) && Commits(Reached(events), c, later)
  {
    hide Fresh, PublicTask, ValidIntent, ValidActorId, ValidTxn, Commits, LocalJudgement, CallStands, ReadyWith, Admissible;
    var first := [CreateTaskDoc(task), RegisterOne(intent.actorId, "worker", 0)];
    FirstDocuments(task, intent);
    FirstIntentAdmitted(Reached(first).db, task, intent);
    ActionCommits(first, c, txn, intent, behaviour, now, later);
    ExecutionConcat(Start, first, ApplyCall(c, txn, intent, behaviour, now));
  }

  lemma FirstIntentAdmitted(db: Db, task: Task, intent: Intent)
    requires Fresh(task) && ValidIntent(intent)
    requires intent.action == RecordProgress && intent.taskId == task.taskId && intent.expectedVersion == 0
    requires db == EmptyDb.(tasks := map[task.taskId := TaskDoc(task, [], None, 0, None)], created := 1,
                            actors := map[intent.actorId := WORKER], registryVersion := 1)
    ensures Admissible(Abs(db), intent)
  {
    hide ValidIntent;
  }

  lemma FirstDocuments(task: Task, intent: Intent)
    requires PublicTask(task) && ValidActorId(intent.actorId)
    ensures var s := Reached([CreateTaskDoc(task), RegisterOne(intent.actorId, "worker", 0)]);
      && s == Start.(db := s.db)
      && s.db == EmptyDb.(tasks := map[task.taskId := TaskDoc(task, [], None, 0, None)], created := 1,
                          actors := map[intent.actorId := WORKER], registryVersion := 1)
  {
    hide PublicTask, ValidActorId;
    var create, register := CreateTaskDoc(task), RegisterOne(intent.actorId, "worker", 0);
    assert [create, register] == [create] + [register];
    ExecutionConcat(Start, [create], [register]);
    ExecutionOne(Start, create);
    ExecutionOne(Next(Start, create), register);
  }

  // ---- a common beginning -------------------------------------------------------------------------------

  // Two new tasks, a worker and a verifier, and one item appended to the second task.
  function SetUp(task: Task, other: Task, worker: string, verifier: string, foreign: Evidence): seq<Event> {
    [CreateTaskDoc(task), CreateTaskDoc(other), RegisterOne(worker, "worker", 0), RegisterOne(verifier, "verifier", 1),
     Mutate(Append(foreign, 0))]
  }

  predicate FitToSetUp(task: Task, other: Task, worker: string, verifier: string, foreign: Evidence) {
    && Fresh(task) && PublicTask(task) && Fresh(other) && PublicTask(other) && task.taskId != other.taskId
    && ValidActorId(worker) && ValidActorId(verifier) && worker != verifier
    && ValidEvidence(foreign) && foreign.taskId == other.taskId
  }

  function SetUpDb(task: Task, other: Task, worker: string, verifier: string, foreign: Evidence): Db {
    Db(map[task.taskId := TaskDoc(task, [], None, 0, None),
           other.taskId := TaskDoc(other.(version := 1), [foreign], None, 0, None)],
       map[], map[foreign.evidenceId := other.taskId], map[worker := WORKER, verifier := VERIFIER], 2, 2)
  }

  lemma SetUpReaches(task: Task, other: Task, worker: string, verifier: string, foreign: Evidence)
    requires FitToSetUp(task, other, worker, verifier, foreign)
    ensures LegalEvents(SetUp(task, other, worker, verifier, foreign))
    ensures Reached(SetUp(task, other, worker, verifier, foreign))
         == Start.(db := SetUpDb(task, other, worker, verifier, foreign))
  {
    hide Fresh, PublicTask, ValidActorId, ValidEvidence, CreateDoc, RegisterDoc, MutateTask, Execution;
    var first := [CreateTaskDoc(task), CreateTaskDoc(other), RegisterOne(worker, "worker", 0),
                  RegisterOne(verifier, "verifier", 1)];
    var append := Mutate(Append(foreign, 0));
    assert SetUp(task, other, worker, verifier, foreign) == first + [append];
    FourSteps(Start, first[0], first[1], first[2], first[3]);
    ExecutionSnoc(Start, first, append);
    var created := Db(map[task.taskId := TaskDoc(task, [], None, 0, None),
                          other.taskId := TaskDoc(other, [], None, 0, None)], map[], map[], map[], 0, 2);
    BothCreated(task, other, created);
    BothRegistered(created, worker, verifier);
    var registered := created.(actors := map[worker := WORKER, verifier := VERIFIER], registryVersion := 2);
    ForeignAppended(registered, other, foreign);
  }

  lemma BothCreated(task: Task, other: Task, created: Db)
    requires PublicTask(task) && PublicTask(other) && task.taskId != other.taskId
    requires created == Db(map[task.taskId := TaskDoc(task, [], None, 0, None),
                               other.taskId := TaskDoc(other, [], None, 0, None)], map[], map[], map[], 0, 2)
    ensures CreateDoc(CreateDoc(EmptyDb, task).db, other).db == created
  {
    hide PublicTask;
  }

  lemma BothRegistered(db: Db, worker: string, verifier: string)
    requires db.actors == map[] && db.registryVersion == 0
    requires ValidActorId(worker) && ValidActorId(verifier) && worker != verifier
    ensures RegisterDoc(RegisterDoc(db, worker, "worker", 0).db, verifier, "verifier", 1).db
         == db.(actors := map[worker := WORKER, verifier := VERIFIER], registryVersion := 2)
  {
    hide ValidActorId;
  }

  lemma ForeignAppended(db: Db, other: Task, foreign: Evidence)
    requires ValidEvidence(foreign) && foreign.taskId == other.taskId && Fresh(other) && db.markers == map[]
    requires other.taskId in db.tasks && db.tasks[other.taskId] == TaskDoc(other, [], None, 0, None)
    ensures MutateTask(db, Append(foreign, 0)).db ==
      db.(tasks := db.tasks[other.taskId := TaskDoc(other.(version := 1), [foreign], None, 0, None)],
          markers := map[foreign.evidenceId := other.taskId])
  {
    hide ValidEvidence, ValidTaskFields;
    assert [] + [foreign] == [foreign];
    assert Ids([]) == {} && {} + {foreign.evidenceId} - {} == {foreign.evidenceId};
  }

  // An intent for the first task by one of the two actors, under its own action.
  predicate FitToAct(task: Task, worker: string, verifier: string, intent: Intent, txn: Txn) {
    && ValidIntent(intent) && intent.taskId == task.taskId && intent.expectedVersion == 0
    && ((intent.actorId == worker && intent.action == RecordProgress)
        || (intent.actorId == verifier && intent.action == VerifyTask))
    && ValidTxn(txn) && txn.id == CycleId(intent.taskId, intent.cycleKey)
  }

  lemma SetUpAdmits(task: Task, other: Task, worker: string, verifier: string, foreign: Evidence, intent: Intent, txn: Txn)
    requires FitToSetUp(task, other, worker, verifier, foreign) && FitToAct(task, worker, verifier, intent, txn)
    ensures var db := SetUpDb(task, other, worker, verifier, foreign);
      && Admissible(Abs(db), intent)
      && Admit(Abs(db), intent) == Ok(AdmittedTask(task, db.actors[intent.actorId], intent.actorId))
      && Abs(db).evidenceIds == {foreign.evidenceId} && Abs(db).actors == db.actors
  {
    hide ValidIntent, ValidEvidence, PublicTask, ValidActorId, ValidTxn;
  }

  lemma CallAfterSetUp(task: Task, other: Task, worker: string, verifier: string, foreign: Evidence,
                       c: nat, txn: Txn, intent: Intent, behaviour: Behaviour, now: int)
    requires FitToSetUp(task, other, worker, verifier, foreign) && FitToAct(task, worker, verifier, intent, txn)
    requires (txn.intent == None || txn.intent == Some(intent)) && !behaviour.RaisedInterrupt?
    ensures var s := Reached(SetUp(task, other, worker, verifier, foreign));
            CallAdmitted(s, c, txn, intent, behaviour, now) && Going(BoundBy(s.db, txn), intent) == intent
  {
    hide FitToSetUp, Reached, ValidIntent, ValidTxn, Admissible, Admit, Abs, SetUp;
    SetUpReaches(task, other, worker, verifier, foreign);
    SetUpAdmits(task, other, worker, verifier, foreign, intent, txn);
  }

  // ---- a masked denial --------------------------------------------------------------------------------------

  // The record of a failed first action of a worker.
  function Stopped(task: Task, worker: string, code: string): ActionResult {
    VerdictResult(Rejected(code), AdmittedTask(task, WORKER, worker))
  }

  // A worker proposes PASSED with an item whose identifier the other task has
  // stored. Firestore commits the denial of the gate, while the memory cycle on
  // the same documents records an invalid outcome.
  lemma MaskedDenialCommits(task: Task, other: Task, worker: string, verifier: string, item: Evidence,
                            c: nat, txn: Txn, intent: Intent, now: int, later: int)
    requires FitToSetUp(task, other, worker, verifier, item.(taskId := other.taskId))
    requires ValidEvidence(item) && item.taskId == task.taskId
    requires FitToAct(task, worker, verifier, intent, txn) && intent.actorId == worker && intent.action == RecordProgress
    requires (txn.intent == None || txn.intent == Some(intent)) && now <= later < now + LEASE
    ensures var behaviour := Returned(Outcome(PASSED, [item], None, None));
      var events := SetUp(task, other, worker, verifier, item.(taskId := other.taskId))
                    + ApplyCall(c, txn, intent, behaviour, now);
      var s := Reached(events);
      && LegalEvents(events) && Commits(s, c, later)
      && ReadyWith(s, c, txn, txn.intent, intent, behaviour, Stopped(task, worker, "pass_requires_verifier"))
      && ApplyCycle(Abs(s.db), intent, txn.operation, behaviour).reply == Ok(Stopped(task, worker, "invalid_outcome"))
  {
    hide FitToSetUp, FitToAct, Reached, Execution, ApplyCall, ValidEvidence, Admissible, Admit, Abs, SetUp, Commits,
         CallAdmitted, Judge, Going, LegalEvents, ReadyWith, ApplyCycle, Stands;
    var foreign := item.(taskId := other.taskId);
    var behaviour := Returned(Outcome(PASSED, [item], None, None));
    var first := SetUp(task, other, worker, verifier, foreign);
    SetUpReaches(task, other, worker, verifier, foreign);
    CallAfterSetUp(task, other, worker, verifier, foreign, c, txn, intent, behaviour, now);
    CallExtends(first, c, txn, intent, behaviour, now);
    ActionCommits(first, c, txn, intent, behaviour, now, later);
    MaskedVerdicts(task, other, worker, verifier, item, intent, txn);
  }

  // A call adds no creation to an execution.
  lemma CallExtends(first: seq<Event>, c: nat, txn: Txn, incoming: Intent, behaviour: Behaviour, now: int)
    requires LegalEvents(first)
    ensures var call := ApplyCall(c, txn, incoming, behaviour, now);
            Reached(first + call) == Execution(Reached(first), call) && LegalEvents(first + call)
  {
    ExecutionConcat(Start, first, ApplyCall(c, txn, incoming, behaviour, now));
  }

  lemma MaskedVerdicts(task: Task, other: Task, worker: string, verifier: string, item: Evidence, intent: Intent, txn: Txn)
    requires FitToSetUp(task, other, worker, verifier, item.(taskId := other.taskId))
    requires ValidEvidence(item) && item.taskId == task.taskId
    requires FitToAct(task, worker, verifier, intent, txn) && intent.actorId == worker && intent.action == RecordProgress
    ensures var b := Abs(SetUpDb(task, other, worker, verifier, item.(taskId := other.taskId)));
      var behaviour := Returned(Outcome(PASSED, [item], None, None));
      var step := ApplyCycle(b, intent, txn.operation, behaviour);
      && Admissible(b, intent) && Admit(b, intent) == Ok(AdmittedTask(task, WORKER, worker))
      && LocalJudgement(SetUpDb(task, other, worker, verifier, item.(taskId := other.taskId)), intent, behaviour)
           == Rejected("pass_requires_verifier")
      && step.reply == Ok(Stopped(task, worker, "invalid_outcome"))
  {
    hide ValidEvidence, Admissible, Admit, Abs, Judge, ValidIntent, ValidTxn, PublicTask, Fresh, ApplyCycle, ValidActorId;
    var foreign := item.(taskId := other.taskId);
    var db := SetUpDb(task, other, worker, verifier, foreign);
    var behaviour := Returned(Outcome(PASSED, [item], None, None));
    SetUpAdmits(task, other, worker, verifier, foreign, intent, txn);
    var admitted := Admit(Abs(db), intent).value;
    assert Ids([]) == {};
    MaskedDenialHappens(item, admitted, intent, {}, {item.evidenceId});
    AdmittedCycleCommits(Abs(db), intent, txn.operation, behaviour);
  }

  // ---- a bound intent that is dropped ------------------------------------------------------------------------

  // A client binds its intent and stops. Once its lease has run out, another
  // call for the same key takes the cycle over, is denied, and records that: the
  // bound intent is gone.
  lemma DenialAfterTakeover(task: Task, other: Task, worker: string, verifier: string, foreign: Evidence,
                            c: nat, txn: Txn, intent: Intent, behaviour: Behaviour, now: int,
                            d: nat, rival: Txn, now2: int, later2: int, code: string)
    requires FitToSetUp(task, other, worker, verifier, foreign) && FitToAct(task, worker, verifier, intent, txn)
    requires (txn.intent == None || txn.intent == Some(intent)) && !behaviour.RaisedInterrupt?
    requires d != c && rival.id == txn.id && rival.operation == txn.operation && rival.owner != txn.owner && ValidTxn(rival)
    requires now + LEASE <= now2 <= later2 < now2 + LEASE && OpaqueToken(code)
    ensures var events := SetUp(task, other, worker, verifier, foreign) + ApplyCall(c, txn, intent, behaviour, now);
      var s := Reached(events);
      var after := Execution(s, [Begin(d, rival), TryClaim(d, now2), StartFail(d, 0, code), FinalizeWork(d, later2)]).db;
      && LegalEvents(events) && IsClaimed(s.db, txn.id) && s.db.cycles[txn.id].intent == Some(intent)
      && IsFinal(after, txn.id) && after.cycles[txn.id].intent == None
  {
    hide FitToSetUp, FitToAct, Reached, Execution, ApplyCall, SetUp, CallAdmitted, LegalEvents, ReadyWith, Commits, Abs,
         OpaqueToken, ValidTxn, LocalJudgement, Admissible, Going, Claim;
    var first := SetUp(task, other, worker, verifier, foreign);
    var events := first + ApplyCall(c, txn, intent, behaviour, now);
    SetUpReaches(task, other, worker, verifier, foreign);
    CallAfterSetUp(task, other, worker, verifier, foreign, c, txn, intent, behaviour, now);
    CallExtends(first, c, txn, intent, behaviour, now);
    ActionCommits(first, c, txn, intent, behaviour, now, now);
    FirstTaskIsOpen(task, other, worker, verifier, foreign, intent, txn);
    NeverWedged(events, d, rival, now2, later2, code);
  }

  lemma FirstTaskIsOpen(task: Task, other: Task, worker: string, verifier: string, foreign: Evidence, intent: Intent, txn: Txn)
    requires FitToSetUp(task, other, worker, verifier, foreign) && FitToAct(task, worker, verifier, intent, txn)
    ensures txn.id.task == task.taskId && !task.Terminal() && task.version == 0
    ensures var db := SetUpDb(task, other, worker, verifier, foreign);
            task.taskId in db.tasks && db.tasks[task.taskId] == TaskDoc(task, [], None, 0, None)
  {
  }

  // ---- evidence in another actor's name ----------------------------------------------------------------------

  // The steps of two service calls for one cycle, the second with a later clock.
  function TwoCalls(id: CycleId, c: nat, txn: Txn, first: Intent, now: int, d: nat, rival: Txn, second: Intent, now2: int)
    : seq<Event>
  {
    ApplyCall(c, txn, first, ProgressBehaviour(id, first.actorId, now), now)
    + ApplyCall(d, rival, second, ProgressBehaviour(id, second.actorId, now2), now2)
  }

  // A verifier's call binds its intent and stops; once its lease has run out a
  // worker's call takes the cycle over and commits. The cycle records the
  // verifier's intent, with an item in the worker's name. In the memory store,
  // where a call always goes on with its own intent, this cannot happen.
  lemma TakeoverMisattributes(task: Task, other: Task, worker: string, verifier: string, foreign: Evidence,
                              c: nat, txn: Txn, first: Intent, now: int,
                              d: nat, rival: Txn, second: Intent, now2: int, later: int)
    requires FitToSetUp(task, other, worker, verifier, foreign)
    requires FitToAct(task, worker, verifier, first, txn) && first.actorId == verifier
    requires FitToAct(task, worker, verifier, second, rival) && second.actorId == worker
    requires c != d && rival.id == txn.id && rival.operation == txn.operation && rival.owner != txn.owner
    requires txn.intent == None && rival.intent == None && now + LEASE <= now2 <= later < now2 + LEASE
    requires HexKey(txn.id.key) && ValidEvidence(ProgressEvidence(txn.id, worker, now2))
    requires ProgressEvidence(txn.id, worker, now2).evidenceId != foreign.evidenceId
    ensures var events := SetUp(task, other, worker, verifier, foreign)
                          + TwoCalls(txn.id, c, txn, first, now, d, rival, second, now2);
      var item := ProgressEvidence(txn.id, worker, now2);
      var s := Reached(events);
      && LegalEvents(events) && ServiceTrace(events) && Commits(s, d, later)
      && ReadyWith(s, d, rival, Some(first), first, ProgressBehaviour(txn.id, worker, now2),
                   ActionResult(AdmittedTask(task, VERIFIER, verifier).(state := RUNNING), [item], None))
      && item.actorId == worker != verifier == first.actorId
  {
    hide Reached, Execution, ApplyCall, SetUp, LegalEvents, ReadyWith, Commits, Abs, ServiceTrace, ProgressBehaviour, Admit,
         LocalJudgement, Admissible, Going, Claim, CallAdmitted, HexKey, ValidEvidence, PublicTask, Fresh, ValidIntent,
         ValidActorId, ValidTxn, DocsStand, SetUpDb;
    var setUp := SetUp(task, other, worker, verifier, foreign);
    var b1, b2 := ProgressBehaviour(txn.id, verifier, now), ProgressBehaviour(txn.id, worker, now2);
    var bound := setUp + ApplyCall(c, txn, first, b1, now);
    SetUpReaches(task, other, worker, verifier, foreign);
    ServiceNeverInterrupts(txn.id, verifier, now);
    ServiceNeverInterrupts(txn.id, worker, now2);
    CallAfterSetUp(task, other, worker, verifier, foreign, c, txn, first, b1, now);
    CallExtends(setUp, c, txn, first, b1, now);
    ActionCommits(setUp, c, txn, first, b1, now, now);
    SecondCallAdmitted(task, other, worker, verifier, foreign, Reached(setUp), Reached(bound), c, txn, first, now,
                       d, rival, second, now2);
    CallExtends(bound, d, rival, second, b2, now2);
    ActionCommits(bound, d, rival, second, b2, now2, later);
    SecondCallAccepted(task, other, worker, verifier, foreign, Reached(bound).db, txn, first, now2, now + LEASE);
    TwoCallsAreService(task, other, worker, verifier, foreign, c, txn, first, now, d, rival, second, now2);
    assert bound + ApplyCall(d, rival, second, b2, now2)
        == setUp + TwoCalls(txn.id, c, txn, first, now, d, rival, second, now2);
  }

  lemma ServiceNeverInterrupts(id: CycleId, actorId: string, now: int)
    ensures !ProgressBehaviour(id, actorId, now).RaisedInterrupt?
  {
  }

  lemma SecondCallAdmitted(task: Task, other: Task, worker: string, verifier: string, foreign: Evidence,
                           before: System, s: System, c: nat, txn: Txn, first: Intent, now: int,
                           d: nat, rival: Txn, second: Intent, now2: int)
    requires FitToSetUp(task, other, worker, verifier, foreign)
    requires FitToAct(task, worker, verifier, first, txn) && FitToAct(task, worker, verifier, second, rival)
    requires before == Start.(db := SetUpDb(task, other, worker, verifier, foreign))
    requires CallStands(before, s, c, txn, first, now + LEASE)
    requires c != d && rival.id == txn.id && rival.operation == txn.operation && rival.owner != txn.owner
    requires now + LEASE <= now2
    ensures CallAdmitted(s, d, rival, second, ProgressBehaviour(txn.id, second.actorId, now2), now2)
    ensures BoundBy(s.db, rival) == Some(first) && Going(BoundBy(s.db, rival), second) == first
  {
    hide FitToSetUp, Abs, Admissible, ProgressBehaviour, ValidIntent, ValidTxn, Admit, SetUpDb;
    ServiceNeverInterrupts(txn.id, second.actorId, now2);
    SetUpAdmits(task, other, worker, verifier, foreign, first, txn);
  }

  lemma SecondCallAccepted(task: Task, other: Task, worker: string, verifier: string, foreign: Evidence, db: Db,
                           txn: Txn, first: Intent, now2: int, expiry: int)
    requires FitToSetUp(task, other, worker, verifier, foreign)
    requires FitToAct(task, worker, verifier, first, txn) && first.actorId == verifier
    requires DocsStand(SetUpDb(task, other, worker, verifier, foreign), db, txn, first, expiry)
    requires HexKey(txn.id.key) && ValidEvidence(ProgressEvidence(txn.id, worker, now2))
    requires ProgressEvidence(txn.id, worker, now2).evidenceId != foreign.evidenceId
    ensures Admissible(Abs(db), first) && first.taskId in db.tasks && first.taskId == txn.id.task
    ensures var item := ProgressEvidence(txn.id, worker, now2);
      var admitted := AdmittedTask(task, VERIFIER, verifier);
      && Admit(Abs(db), first) == Ok(admitted)
      && LocalJudgement(db, first, ProgressBehaviour(txn.id, worker, now2))
           == Accepted(admitted.(state := RUNNING), [item], Some(ProgressBaton(txn.id)))
      && EvidenceOffered(ProgressBehaviour(txn.id, worker, now2)) == [item]
      && db.tasks[txn.id.task].evidence == [] && Ids([item]) !! db.markers.Keys
  {
    hide Abs, Admissible, Judge, ValidEvidence, BatonMetadataOnly, HexKey, Admit, Acceptable, ProgressBaton, ValidIntent;
    ProgressBatonIsValid(txn.id);
    SetUpAdmits(task, other, worker, verifier, foreign, first, txn);
    var admitted := AdmittedTask(task, VERIFIER, verifier);
    ProgressOutcomeAcceptable(txn.id, worker, now2, admitted, VERIFIER, first, {});
    AcceptedIffAcceptable(ProgressBehaviour(txn.id, worker, now2), admitted, VERIFIER, first, {});
    assert Ids([]) == {};
  }

  lemma TwoCallsAreService(task: Task, other: Task, worker: string, verifier: string, foreign: Evidence,
                           c: nat, txn: Txn, first: Intent, now: int, d: nat, rival: Txn, second: Intent, now2: int)
    requires c != d && txn.id == CycleId(first.taskId, first.cycleKey) == CycleId(second.taskId, second.cycleKey)
    ensures ServiceTrace(SetUp(task, other, worker, verifier, foreign)
                         + TwoCalls(txn.id, c, txn, first, now, d, rival, second, now2))
  {
    hide ProgressBehaviour;
    var events := SetUp(task, other, worker, verifier, foreign)
                  + TwoCalls(txn.id, c, txn, first, now, d, rival, second, now2);
    assert events[7] == StartApply(c, first) && events[13] == StartApply(d, second);
    assert Starts(events, 7, c) && Starts(events, 13, d);
    assert forall n | 0 <= n < |events| && events[n].StartApply? :: n == 7 || n == 13;
    assert forall n | 0 <= n < |events| && events[n].Execute? :: n == 10 || n == 16;
    assert ServiceBehaviour(first, events[10].behaviour) && ServiceBehaviour(second, events[16].behaviour);
  }

  // ---- one choice of names ------------------------------------------------------------------------------------

  const FIRST_TASK := Task("task-a", "synthetic_a", ["quality"], LocalApi, QUEUED, 0, 0, 0, None)
  const SECOND_TASK := Task("task-b", "synthetic_b", ["quality"], LocalApi, QUEUED, 0, 0, 0, None)
  const ITEM := Evidence("ev-1", "task-a", "quality", "worker-1", "progress", map[], 0)
  const WORKER_INTENT := Intent("task-a", "key", "worker-1", RecordProgress, 0, 0, map[])
  const CALL := Txn(CycleId("task-a", "key"), "operation", None, "owner-1")

  lemma NamesAreFit()
    ensures FitToSetUp(FIRST_TASK, SECOND_TASK, "worker-1", "verifier-1", ITEM.(taskId := "task-b"))
    ensures ValidEvidence(ITEM) && ITEM.taskId == FIRST_TASK.taskId
    ensures FitToAct(FIRST_TASK, "worker-1", "verifier-1", WORKER_INTENT, CALL)
  {
    hide PublicTask, Fresh, ValidEvidence, ValidIntent, ValidActorId, ValidTxn;
    FirstTaskIsFit();
    SecondTaskIsFit();
    TaskNamesDiffer();
    ActorsAreFit();
    ItemIsFit();
    IntentIsFit();
  }

  lemma FirstTaskIsFit()
    ensures Fresh(FIRST_TASK) && PublicTask(FIRST_TASK)
  {
    assert !IsSpace("task-a"[0]) && !IsSpace("synthetic_a"[0]) && !IsSpace("quality"[0]);
    assert "synthetic_a"[..|SYNTHETIC_PREFIX|] == SYNTHETIC_PREFIX;
  }

  lemma SecondTaskIsFit()
    ensures Fresh(SECOND_TASK) && PublicTask(SECOND_TASK)
  {
    assert !IsSpace("task-b"[0]) && !IsSpace("synthetic_b"[0]) && !IsSpace("quality"[0]);
    assert "synthetic_b"[..|SYNTHETIC_PREFIX|] == SYNTHETIC_PREFIX;
  }

  lemma TaskNamesDiffer() ensures FIRST_TASK.taskId != SECOND_TASK.taskId { assert "task-a"[5] != "task-b"[5]; }

  lemma ActorsAreFit()
    ensures ValidActorId("worker-1") && ValidActorId("verifier-1") && "worker-1" != "verifier-1"
  {
    assert "worker-1"[0] == 'w' && "verifier-1"[0] == 'v';
  }

  lemma ItemIsFit()
    ensures ValidEvidence(ITEM) && ValidEvidence(ITEM.(taskId := "task-b"))
  {
    assert OpaqueToken("ev-1") && OpaqueToken("task-a") && OpaqueToken("task-b") && OpaqueToken("quality");
    assert OpaqueToken("worker-1");
  }

  lemma IntentIsFit()
    ensures ValidIntent(WORKER_INTENT) && ValidTxn(CALL)
  {
    assert !IsSpace("task-a"[0]) && !IsSpace("key"[0]) && !IsSpace("worker-1"[0]);
  }

  // The masked denial for these names, claimed at 0 and finalized at 1.
  lemma SampleMaskedDenial()
    ensures var behaviour := Returned(Outcome(PASSED, [ITEM], None, None));
      var events := SetUp(FIRST_TASK, SECOND_TASK, "worker-1", "verifier-1", ITEM.(taskId := "task-b"))
                    + ApplyCall(0, CALL, WORKER_INTENT, behaviour, 0);
      var s := Reached(events);
      && LegalEvents(events) && Commits(s, 0, 1)
      && ReadyWith(s, 0, CALL, None, WORKER_INTENT, behaviour, Stopped(FIRST_TASK, "worker-1", "pass_requires_verifier"))
      && ApplyCycle(Abs(s.db), WORKER_INTENT, "operation", behaviour).reply
           == Ok(Stopped(FIRST_TASK, "worker-1", "invalid_outcome"))
  {
    hide FitToSetUp, FitToAct, ValidEvidence, SetUp, ApplyCall, Reached, LegalEvents, Commits, ReadyWith, ApplyCycle, Abs,
         Stopped;
    NamesAreFit();
    MaskedDenialCommits(FIRST_TASK, SECOND_TASK, "worker-1", "verifier-1", ITEM, 0, CALL, WORKER_INTENT, 0, 1);
  }

  // The dropped intent for these names: denied by another call after the lease.
  lemma SampleDroppedIntent()
    ensures var events := SetUp(FIRST_TASK, SECOND_TASK, "worker-1", "verifier-1", ITEM.(taskId := "task-b"))
                          + ApplyCall(0, CALL, WORKER_INTENT, RaisedOther, 0);
      var rival := CALL.(owner := "owner-2");
      var s := Reached(events);
      var after := Execution(s, [Begin(1, rival), TryClaim(1, LEASE), StartFail(1, 0, "coordinator_exception"),
                                 FinalizeWork(1, LEASE)]).db;
      && LegalEvents(events) && IsClaimed(s.db, CALL.id) && s.db.cycles[CALL.id].intent == Some(WORKER_INTENT)
      && IsFinal(after, CALL.id) && after.cycles[CALL.id].intent == None
  {
    hide FitToSetUp, FitToAct, ValidEvidence, SetUp, ApplyCall, Reached, LegalEvents, Execution;
    NamesAreFit();
    CoordinatorExceptionIsToken();
    assert "owner-1"[6] != "owner-2"[6];
    assert ValidTxn(CALL.(owner := "owner-2"));
    DenialAfterTakeover(FIRST_TASK, SECOND_TASK, "worker-1", "verifier-1", ITEM.(taskId := "task-b"), 0, CALL,
                        WORKER_INTENT, RaisedOther, 0, 1, CALL.(owner := "owner-2"), LEASE, LEASE, "coordinator_exception");
  }

  lemma CoordinatorExceptionIsToken() ensures OpaqueToken("coordinator_exception") {}

  lemma ProgressItemIsFit(key: string, now: int)
    requires HexKey(key)
    ensures ValidEvidence(ProgressEvidence(CycleId("task-a", key), "worker-1", now))
    ensures ProgressEvidence(CycleId("task-a", key), "worker-1", now).evidenceId != "ev-1"
  {
    HexKeyIsToken(key);
    var item := ProgressEvidence(CycleId("task-a", key), "worker-1", now);
    ItemIdIsToken(key);
    ItemReferenceIsFit(key);
    assert OpaqueToken("task-a") && OpaqueToken("progress") && OpaqueToken("worker-1");
    hide FieldSpecificMetadata;
  }

  lemma ItemIdIsToken(key: string)
    requires HexKey(key)
    ensures OpaqueToken("ev_" + "task-a" + "_" + key) && |"ev_" + "task-a" + "_" + key| == 74
  {
    var head := "ev_task-a_";
    assert "ev_" + "task-a" + "_" == head;
    assert forall i | 0 <= i < |head| :: TokenTail(head[i]);
    assert forall i | 10 <= i < 74 :: (head + key)[i] == key[i - 10];
  }

  lemma ItemReferenceIsFit(key: string)
    requires HexKey(key)
    ensures FieldSpecificMetadata(map["cycle_key" := Text(key), "status" := Text("recorded")], EVIDENCE_METADATA_KEYS)
  {
    HexKeyIsToken(key);
    var m: Metadata := map["cycle_key" := Text(key), "status" := Text("recorded")];
    assert "cycle_key" != "status" && "cycle_key" != "steps";
    assert m.Keys == {"cycle_key", "status"} && m.Keys <= EVIDENCE_METADATA_KEYS;
    CardinalitySubset(m.Keys, EVIDENCE_METADATA_KEYS);
  }

  // The misattributed item for these names and any cycle key of the service.
  lemma SampleMisattribution(key: string)
    requires HexKey(key)
    ensures var id := CycleId("task-a", key);
      var first := Intent("task-a", key, "verifier-1", VerifyTask, 0, 0, map[]);
      var second := Intent("task-a", key, "worker-1", RecordProgress, 0, LEASE, map[]);
      var events := SetUp(FIRST_TASK, SECOND_TASK, "worker-1", "verifier-1", ITEM.(taskId := "task-b"))
                    + TwoCalls(id, 0, Txn(id, "operation", None, "owner-1"), first, 0,
                               1, Txn(id, "operation", None, "owner-2"), second, LEASE);
      && ServiceTrace(events) && Commits(Reached(events), 1, LEASE)
      && ReadyWith(Reached(events), 1, Txn(id, "operation", None, "owner-2"), Some(first), first,
                   ProgressBehaviour(id, "worker-1", LEASE),
                   ActionResult(AdmittedTask(FIRST_TASK, VERIFIER, "verifier-1").(state := RUNNING),
                                [ProgressEvidence(id, "worker-1", LEASE)], None))
  {
    hide FitToSetUp, ValidEvidence, SetUp, TwoCalls, Reached, LegalEvents, Commits, ReadyWith, ServiceTrace, ProgressBehaviour,
         HexKey, ProgressEvidence;
    var id := CycleId("task-a", key);
    NamesAreFit();
    ServiceIntentsAreFit(key);
    ProgressItemIsFit(key, LEASE);
    assert "owner-1"[6] != "owner-2"[6];
    TakeoverMisattributes(
      FIRST_TASK, SECOND_TASK, "worker-1", "verifier-1", ITEM.(taskId := "task-b"),
      0, Txn(id, "operation", None, "owner-1"), Intent("task-a", key, "verifier-1", VerifyTask, 0, 0, map[]), 0,
      1, Txn(id, "operation", None, "owner-2"), Intent("task-a", key, "worker-1", RecordProgress, 0, LEASE, map[]),
      LEASE, LEASE);
  }

  lemma ServiceIntentsAreFit(key: string)
    requires HexKey(key)
    ensures var id := CycleId("task-a", key);
      && FitToAct(FIRST_TASK, "worker-1", "verifier-1", Intent("task-a", key, "verifier-1", VerifyTask, 0, 0, map[]),
                  Txn(id, "operation", None, "owner-1"))
      && FitToAct(FIRST_TASK, "worker-1", "verifier-1", Intent("task-a", key, "worker-1", RecordProgress, 0, LEASE, map[]),
                  Txn(id, "operation", None, "owner-2"))
  {
    HexKeyIsToken(key);
    assert !IsSpace("task-a"[0]) && !IsSpace("worker-1"[0]) && !IsSpace("verifier-1"[0]);
  }
}
