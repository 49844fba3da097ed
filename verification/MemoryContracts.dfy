// The operations of the memory store in terms of the stored fields alone: when
// each one succeeds, what it leaves, and which check fails otherwise.

module MemoryContracts {
  import opened Results
  import opened Domain
  import opened Policy
  import opened MemorySpec

  lemma CreateTaskContract(b: Backing, task: Task)
    ensures var step := CreateTask(b, task);
      if task.taskId !in b.tasks && |b.tasks| < 256 then
        && step.reply == Ok(task)
        && step.state == b.(tasks := b.tasks[task.taskId := task], evidence := b.evidence[task.taskId := []])
      else step == Done(b, Raise(ValueError))
  {
  }

  // ---- direct writes ---------------------------------------------------------------------------------

  lemma AppendEvidenceContract(b: Backing, e: Evidence, expectedVersion: int)
    ensures var t, step := e.taskId, AppendEvidence(b, e, expectedVersion);
      && (step.reply.Ok? <==>
            && t in b.tasks && b.tasks[t].state != PASSED && b.tasks[t].state != FAILED
            && b.tasks[t].version == expectedVersion && ValidEvidence(e) && e.evidenceId !in b.evidenceIds)
      && (step.reply == Raise(KeyError) <==> t !in b.tasks)
      && (step.reply == Raise(ValueError) <==>
            t in b.tasks && (b.tasks[t].state == PASSED || b.tasks[t].state == FAILED
                             || (b.tasks[t].version == expectedVersion && !ValidEvidence(e))))
      && (step.reply == Raise(VersionConflict) <==>
            t in b.tasks && b.tasks[t].state != PASSED && b.tasks[t].state != FAILED && b.tasks[t].version != expectedVersion)
      && (step.reply.Raise? ==> step.reply.error in {KeyError, ValueError, VersionConflict, EvidenceConflict} && step.state == b)
      && (step.reply.Ok? ==>
            var updated := b.tasks[t].(version := b.tasks[t].version + 1);
            && step.reply.value == updated
            && step.state == b.(tasks := b.tasks[t := updated], evidence := b.evidence[t := b.EvidenceOf(t) + [e]],
                                evidenceIds := b.evidenceIds + {e.evidenceId}))
  {
  }

  lemma SetBatonContract(b: Backing, t: string, baton: Metadata, expectedVersion: int)
    ensures var step := SetBaton(b, t, baton, expectedVersion);
      && (step.reply.Ok? <==>
            && t in b.tasks && b.tasks[t].state != PASSED && b.tasks[t].state != FAILED
            && b.tasks[t].version == expectedVersion && BatonMetadataOnly(baton))
      && (step.reply == Raise(KeyError) <==> BatonMetadataOnly(baton) && t !in b.tasks)
      && (step.reply == Raise(ValueError) <==>
            !BatonMetadataOnly(baton) || (t in b.tasks && (b.tasks[t].state == PASSED || b.tasks[t].state == FAILED)))
      && (step.reply.Raise? ==> step.reply.error in {KeyError, ValueError, VersionConflict} && step.state == b)
      && (step.reply.Ok? ==>
            var updated := b.tasks[t].(version := b.tasks[t].version + 1);
            && step.reply.value == updated
            && step.state == b.(tasks := b.tasks[t := updated], batons := b.batons[t := baton]))
  {
  }

  // ---- apply_cycle: who is handed a task ---------------------------------------------------------------

  // Worker for progress, verifier for verification.
  predicate RoleAllows(role: ActorRole, action: Action) {
    (role == WORKER && action == RecordProgress) || (role == VERIFIER && action == VerifyTask)
  }

  // A task is handed to the callback exactly when the intent is valid and new,
  // names the current version of a stored, open task with budget left, and its
  // actor is registered in the role for its action.
  lemma HandedIff(b: Backing, i: Intent, operation: string, behaviour: Behaviour)
    ensures ApplyCycle(b, i, operation, behaviour).handed.Some? <==>
      && ValidIntent(i) && CycleId(i.taskId, i.cycleKey) !in b.cycles
      && i.taskId in b.tasks
      && var task := b.tasks[i.taskId];
      && i.expectedVersion == task.version
      && task.state != PASSED && task.state != FAILED
      && task.toolActions < 3 && task.failedActions < 1
      && i.actorId in b.actors && RoleAllows(b.actors[i.actorId], i.action)
  {
  }

  // What it is handed: the task charged for one action, no longer queued, with
  // the first worker recorded.
  lemma HandedTask(b: Backing, i: Intent, operation: string, behaviour: Behaviour)
    requires ApplyCycle(b, i, operation, behaviour).handed.Some?
    ensures var task, handed := b.tasks[i.taskId], ApplyCycle(b, i, operation, behaviour).handed.value;
      && handed.SameIdentity(task)
      && handed.state == (if task.state == QUEUED then RUNNING else task.state)
      && handed.version == task.version + 1 && handed.toolActions == task.toolActions + 1
      && handed.failedActions == task.failedActions
      && handed.worker == if task.worker.Some? && task.worker.value != "" then task.worker
                          else if b.actors[i.actorId] == WORKER then Some(i.actorId)
                          else task.worker
  {
  }

  // A new valid intent that is not admitted raises the error of its first
  // failing check, in this order, and changes nothing.
  lemma NotHandedRaises(b: Backing, i: Intent, operation: string, behaviour: Behaviour)
    requires ValidIntent(i) && CycleId(i.taskId, i.cycleKey) !in b.cycles
    requires ApplyCycle(b, i, operation, behaviour).handed.None?
    ensures var step := ApplyCycle(b, i, operation, behaviour);
      && step.state == b
      && if i.taskId !in b.tasks then step.reply == Raise(KeyError)
         else
           var task := b.tasks[i.taskId];
           if i.expectedVersion != task.version then step.reply == Raise(VersionConflict)
           else if task.state == PASSED || task.state == FAILED then step.reply == Raise(ValueError)
           else if task.toolActions >= 3 || task.failedActions >= 1 then step.reply == Raise(BudgetExhausted)
           else if i.actorId !in b.actors then step.reply == Raise(PolicyDenied("unknown_actor"))
           else !RoleAllows(b.actors[i.actorId], i.action) && step.reply == Raise(PolicyDenied("actor_action_mismatch"))
  {
  }

  // A used key or an invalid intent, likewise.
  lemma UsedKeyAnswers(b: Backing, i: Intent, operation: string, behaviour: Behaviour)
    ensures var id, step := CycleId(i.taskId, i.cycleKey), ApplyCycle(b, i, operation, behaviour);
      && (!ValidIntent(i) ==> step == Applied(b, Raise(ValueError), None))
      && (ValidIntent(i) && id in b.cycles ==>
            step == Applied(b, if b.cycles[id].operation == operation && b.cycles[id].intent == Some(i)
                               then Ok(b.cycles[id].result) else Raise(IdempotencyConflict), None))
  {
  }

  lemma OperationNameContract(operation: Option<string>)
    ensures OperationName(operation) == "apply_cycle" <==> operation in {None, Some(""), Some("apply_cycle")}
    ensures operation.Some? && operation.value != "" ==> OperationName(operation) == operation.value
  {
  }

  // ---- the code of a failure ---------------------------------------------------------------------------------

  // The PASS gate's answer to a PASS that is proposed with admissible evidence.
  predicate PassProposed(o: Outcome, admitted: Task, known: set<string>) {
    o.failureCode == None && o.target == PASSED && EvidenceAdmissible(o.evidence, admitted.taskId, known)
  }

  // Every failed cycle records this code.
  lemma FailureCodeContract(behaviour: Behaviour, admitted: Task, role: ActorRole, intent: Intent, known: set<string>)
    requires Judge(behaviour, admitted, role, intent, known).Rejected?
    ensures var code := Judge(behaviour, admitted, role, intent, known).code;
      match behaviour
      case RaisedActionFailed(c) => code == if c.Some? && OpaqueToken(c.value) then c.value else "invalid_outcome"
      case RaisedOther => code == "action_exception"
      case RaisedInterrupt => code == "invalid_outcome"
      case ReturnedGarbage => code == "invalid_outcome"
      case Returned(o) =>
        if !ValidOutcome(o) then code == "invalid_outcome"
        else if o.failureCode.Some? then
          code == if o.evidence == [] && o.baton == None then o.failureCode.value else "invalid_outcome"
        else if !PassProposed(o, admitted, known) then code == "invalid_outcome"
        else if role != VERIFIER || intent.action != VerifyTask then code == "pass_requires_verifier"
        else if admitted.worker.None? then code == "missing_worker"
        else if admitted.worker.value == intent.actorId then code == "verifier_not_distinct"
        else if !NoContraryEvidence(admitted, o.evidence, intent.actorId) then code == "invalid_outcome"
        else if !AllChecksCovered(admitted, o.evidence, intent.actorId) then code == "missing_evidence"
        else admitted.state != RUNNING && code == "invalid_outcome"
  {
  }

  // ---- fail_cycle, replay and lookup -----------------------------------------------------------------------

  lemma FailCycleContract(b: Backing, id: CycleId, operation: string, expectedVersion: int, code: string)
    ensures var step := FailCycle(b, id, operation, expectedVersion, code);
      if id in b.cycles then
        step == Done(b, if b.cycles[id].operation == operation then Ok(b.cycles[id].result) else Raise(IdempotencyConflict))
      else if id.task !in b.tasks then step == Done(b, Raise(KeyError))
      else
        var task := b.tasks[id.task];
        if task.version != expectedVersion then step == Done(b, Raise(VersionConflict))
        else if task.state == PASSED || task.state == FAILED || !OpaqueToken(code) then step == Done(b, Raise(ValueError))
        else
          && step.reply.Ok? && step.reply.value.evidence == [] && step.reply.value.failureCode == Some(code)
          && step.reply.value.task == task.(state := NEEDS_OPERATOR, version := expectedVersion + 1)
          && step.state == b.(tasks := b.tasks[id.task := step.reply.value.task],
                              cycles := b.cycles[id := CycleRecord(operation, None, step.reply.value)])
  {
  }

  lemma GetCycleResultContract(b: Backing, id: CycleId, operation: Option<string>)
    ensures var r := GetCycleResult(b, id, operation);
      && (r == Ok(None) <==> id !in b.cycles)
      && (r == Raise(IdempotencyConflict) <==>
            id in b.cycles && operation.Some? && operation.value != b.cycles[id].operation)
      && (r.Ok? && id in b.cycles ==> r.value == Some(b.cycles[id].result))
      && (r.Raise? ==> r.error == IdempotencyConflict)
  {
  }

  // ---- the registry and the budget ---------------------------------------------------------------------------

  predicate NamesRole(name: string, role: ActorRole) {
    || (name == "coordinator" && role == COORDINATOR)
    || (name == "worker" && role == WORKER)
    || (name == "verifier" && role == VERIFIER)
  }

  lemma RegisterActorContract(b: Backing, a: string, name: string, expectedVersion: int, role: ActorRole)
    requires NamesRole(name, role)
    ensures var step := RegisterActor(b, a, name, expectedVersion);
      if b.registryVersion != expectedVersion then step == Done(b, Raise(VersionConflict))
      else if a !in b.actors then
        step == Done(b.(actors := b.actors[a := role], registryVersion := expectedVersion + 1), Ok(expectedVersion + 1))
      else step == Done(b, if b.actors[a] == role then Ok(b.registryVersion) else Raise(ValueError))
  {
  }

  lemma UnknownRoleIsRefused(b: Backing, a: string, name: string, expectedVersion: int)
    requires forall role :: !NamesRole(name, role)
    ensures RegisterActor(b, a, name, expectedVersion)
         == Done(b, Raise(if b.registryVersion != expectedVersion then VersionConflict else ValueError))
  {
    assert !NamesRole(name, COORDINATOR) && !NamesRole(name, WORKER) && !NamesRole(name, VERIFIER);
  }

  // One new version for each actor that was not registered before.
  lemma NewActorsCounted(known: map<string, ActorRole>, version: nat, actors: map<string, ActorRole>)
    ensures VersionAfter(known, version, actors) == version + |actors.Keys - known.Keys|
  {
    var merged := known + actors;
    assert merged.Keys == known.Keys + (actors.Keys - known.Keys);
    assert |merged.Keys| == |known.Keys| + |actors.Keys - known.Keys|;
  }

  lemma RoleConflictRaises(b: Backing, actors: map<string, ActorRole>, a: string)
    requires a in actors && a in b.actors && b.actors[a] != actors[a]
    ensures InitializeActors(b, actors) == Done(b, Raise(ValueError))
  {
  }

  lemma InitializeActorsContract(b: Backing, actors: map<string, ActorRole>)
    requires forall a | a in actors && a in b.actors :: b.actors[a] == actors[a]
    ensures var step := InitializeActors(b, actors);
      && step.state.actors.Keys == b.actors.Keys + actors.Keys
      && (forall a | a in b.actors :: step.state.actors[a] == b.actors[a])
      && (forall a | a in actors :: step.state.actors[a] == actors[a])
      && step.reply == Ok(step.state.registryVersion)
      && step.state.registryVersion == b.registryVersion + |actors.Keys - b.actors.Keys|
      && step.state == b.(actors := step.state.actors, registryVersion := step.state.registryVersion)
  {
    hide VersionAfter;
    NewActorsCounted(b.actors, b.registryVersion, actors);
    assert RolesAgree(b.actors, actors);
    assert InitializeActors(b, actors).state.actors == b.actors + actors;
  }

  lemma ConsumeModelCallContract(b: Backing, day: string, limit: int)
    ensures var step := ConsumeModelCall(b, day, limit);
      var used := if day in b.modelCalls then b.modelCalls[day] else 0;
      if !BudgetDay(day) || limit < 1 || limit > 1_000 then step == Done(b, Raise(ValueError))
      else if used < limit then step == Done(b.(modelCalls := map[day := used + 1]), Ok(true))
      else step == Done(b, Ok(false))
  {
  }

  predicate Digits(s: string) {
    forall c | c in s :: '0' <= c <= '9'
  }

  // Four, two and two digits, with dashes between them.
  lemma BudgetDayMeans(day: string)
    ensures BudgetDay(day) <==>
      exists y, m, d :: |y| == 4 && |m| == 2 && |d| == 2 && Digits(y) && Digits(m) && Digits(d)
                        && day == y + "-" + m + "-" + d
  {
    if BudgetDay(day) {
      var y, m, d := day[..4], day[5..7], day[8..];
      assert Digits(y) && Digits(m) && Digits(d);
      assert day == y + "-" + m + "-" + d;
    }
    forall y, m, d | |y| == 4 && |m| == 2 && |d| == 2 && Digits(y) && Digits(m) && Digits(d)
                     && day == y + "-" + m + "-" + d
      ensures BudgetDay(day)
    {
      DigitsOfDay(y, m, d);
    }
  }

  lemma DigitsOfDay(y: string, m: string, d: string)
    requires |y| == 4 && |m| == 2 && |d| == 2 && Digits(y) && Digits(m) && Digits(d)
    ensures BudgetDay(y + "-" + m + "-" + d)
  {
    var day := y + "-" + m + "-" + d;
    forall i | 0 <= i < 10 && i != 4 && i != 7 ensures Digit(day[i]) {
      assert day[i] == if i < 4 then y[i] else if i < 7 then m[i - 5] else d[i - 8];
      assert i < 4 ==> y[i] in y;
      assert 4 < i < 7 ==> m[i - 5] in m;
      assert 7 < i ==> d[i - 8] in d;
    }
  }
}
