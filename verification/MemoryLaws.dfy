// What one call of the memory store promises, whatever its callback does.

module MemoryLaws {
  import opened Results
  import opened Domain
  import opened Policy
  import opened MemorySpec

  // ---- which callbacks succeed --------------------------------------------------

  // An outcome that an admitted cycle stores as a success.
  predicate Acceptable(o: Outcome, admitted: Task, role: ActorRole, intent: Intent, known: set<string>) {
    && o.failureCode == None
    && ValidOutcome(o)
    && EvidenceAdmissible(o.evidence, admitted.taskId, known)
    && Edge(admitted.state, o.target) && o.target != FAILED
    && (o.target == PASSED ==>
          && role == VERIFIER && intent.action == VerifyTask
          && admitted.worker.Some? && admitted.worker.value != intent.actorId
          && NoContraryEvidence(admitted, o.evidence, intent.actorId)
          && AllChecksCovered(admitted, o.evidence, intent.actorId))
  }

  lemma AcceptedIffAcceptable(behaviour: Behaviour, admitted: Task, role: ActorRole, intent: Intent, known: set<string>)
    ensures var v := Judge(behaviour, admitted, role, intent, known);
      && (v.Accepted? <==> behaviour.Returned? && Acceptable(behaviour.outcome, admitted, role, intent, known))
      && (v.Accepted? ==> v == Accepted(admitted.(state := behaviour.outcome.target),
                                        behaviour.outcome.evidence, behaviour.outcome.baton))
  {
  }

  lemma InvalidOutcomeIsToken() ensures OpaqueToken(INVALID_OUTCOME) {}

  lemma DenialCodesAreTokens()
    ensures forall d :: OpaqueToken(Code(d))
  {
    forall d ensures OpaqueToken(Code(d)) {
      CodesAreTokens(d);
    }
  }

  // Whatever a callback raises or returns, the stored failure code is bounded.
  lemma RejectedCodeIsToken(behaviour: Behaviour, admitted: Task, role: ActorRole, intent: Intent, known: set<string>)
    ensures var v := Judge(behaviour, admitted, role, intent, known);
            v.Rejected? ==> OpaqueToken(v.code)
  {
    InvalidOutcomeIsToken();
    var c := Classify(behaviour);
    if c.Some? && c.value.failureCode.None? {
      JudgeSuccessCodeIsToken(c.value, admitted, role, intent, known);
    }
  }

  lemma JudgeSuccessCodeIsToken(o: Outcome, admitted: Task, role: ActorRole, intent: Intent, known: set<string>)
    ensures var v := JudgeSuccess(o, admitted, role, intent, known);
            v.Rejected? ==> OpaqueToken(v.code)
  {
    InvalidOutcomeIsToken();
    var pass := PassVerdict(admitted, role, intent, o.evidence);
    if pass.Raise? && pass.error.PolicyDenied? {
      var d :| pass.error == Denied(d);
      CodesAreTokens(d);
    }
  }

  // ---- fail-closed atomicity ------------------------------------------------------

  predicate Admissible(b: Backing, intent: Intent) {
    && ValidIntent(intent)
    && CycleId(intent.taskId, intent.cycleKey) !in b.cycles
    && Admit(b, intent).Ok?
  }

  // The record of a failed cycle: stopped, no evidence, no baton, one failure.
  ghost predicate FailsClosed(b: Backing, after: Backing, intent: Intent, result: ActionResult)
    requires intent.taskId in b.tasks
  {
    var task := b.tasks[intent.taskId];
    && result.failureCode.Some? && OpaqueToken(result.failureCode.value)
    && result.evidence == []
    && result.task.state == NEEDS_OPERATOR
    && result.task.failedActions == task.failedActions + 1
    && after.EvidenceOf(intent.taskId) == b.EvidenceOf(intent.taskId)
    && after.evidenceIds == b.evidenceIds
    && after.batons == b.batons
  }

  ghost predicate Succeeds(b: Backing, after: Backing, intent: Intent, o: Outcome, result: ActionResult)
    requires intent.taskId in b.tasks
  {
    var t := intent.taskId;
    var task := b.tasks[t];
    && result.failureCode == None
    && result.evidence == o.evidence
    && result.task.state == o.target
    && result.task.failedActions == task.failedActions
    && after.EvidenceOf(t) == b.EvidenceOf(t) + o.evidence
    && after.evidenceIds == b.evidenceIds + Ids(o.evidence)
    && after.batons == if o.baton.Some? then b.batons[t := o.baton.value] else b.batons
  }

  // Exactly one record is written, for the admitted task alone, and the task
  // is charged one version and one tool action.
  ghost predicate CommitsOneRecord(b: Backing, after: Backing, intent: Intent, operation: string,
                                   role: ActorRole, result: ActionResult)
    requires intent.taskId in b.tasks
  {
    var t := intent.taskId;
    var task := b.tasks[t];
    && after.cycles == b.cycles[CycleId(t, intent.cycleKey) := CycleRecord(operation, Some(intent), result)]
    && after.tasks == b.tasks[t := result.task]
    && after.evidence.Keys == b.evidence.Keys + {t}
    && (forall u | u != t && u in b.evidence :: after.evidence[u] == b.evidence[u])
    && after.actors == b.actors && after.registryVersion == b.registryVersion && after.modelCalls == b.modelCalls
    && result.task.SameIdentity(task)
    && result.task.version == task.version + 1
    && result.task.toolActions == task.toolActions + 1
    && result.task.worker == WorkerAfter(task, role, intent.actorId)
  }

  lemma CommitWritesOneRecord(b: Backing, intent: Intent, operation: string, role: ActorRole, v: Verdict)
    requires intent.taskId in b.tasks
    requires var admitted := AdmittedTask(b.tasks[intent.taskId], role, intent.actorId);
             v.Accepted? ==> v.task == admitted.(state := v.task.state)
    ensures var admitted := AdmittedTask(b.tasks[intent.taskId], role, intent.actorId);
            CommitsOneRecord(b, Commit(b, intent, operation, admitted, v), intent, operation, role,
                             VerdictResult(v, admitted))
  {
  }

  // An admitted cycle commits the verdict on its callback.
  lemma AdmittedCycleCommits(b: Backing, intent: Intent, operation: string, behaviour: Behaviour)
    requires Admissible(b, intent) && !behaviour.RaisedInterrupt?
    ensures var admitted := Admit(b, intent).value;
      var v := Judge(behaviour, admitted, b.actors[intent.actorId], intent, b.evidenceIds);
      ApplyCycle(b, intent, operation, behaviour) ==
        Applied(Commit(b, intent, operation, admitted, v), Ok(VerdictResult(v, admitted)), Some(admitted))
  {
  }

  // An admitted cycle commits exactly one record, which is a full success if
  // and only if the callback returned an acceptable outcome, and otherwise a
  // failure that keeps nothing of what the callback produced.
  lemma AdmittedCycleCommitsOnce(b: Backing, intent: Intent, operation: string, behaviour: Behaviour)
    requires Admissible(b, intent) && !behaviour.RaisedInterrupt?
    ensures var role := b.actors[intent.actorId];
      var step := ApplyCycle(b, intent, operation, behaviour);
      && step.reply.Ok?
      && step.handed == Some(AdmittedTask(b.tasks[intent.taskId], role, intent.actorId))
      && CommitsOneRecord(b, step.state, intent, operation, role, step.reply.value)
      && (if behaviour.Returned? && Acceptable(behaviour.outcome, step.handed.value, role, intent, b.evidenceIds)
          then Succeeds(b, step.state, intent, behaviour.outcome, step.reply.value)
          else FailsClosed(b, step.state, intent, step.reply.value))
  {
    var role := b.actors[intent.actorId];
    var admitted := Admit(b, intent).value;
    var v := Judge(behaviour, admitted, role, intent, b.evidenceIds);
    AdmittedCycleCommits(b, intent, operation, behaviour);
    AcceptedIffAcceptable(behaviour, admitted, role, intent, b.evidenceIds);
    CommitWritesOneRecord(b, intent, operation, role, v);
    if v.Accepted? {
      AcceptedCommitSucceeds(b, intent, operation, admitted, v, behaviour.outcome);
    } else {
      RejectedCodeIsToken(behaviour, admitted, role, intent, b.evidenceIds);
      RejectedCommitFailsClosed(b, intent, operation, admitted, v);
    }
  }

  lemma AcceptedCommitSucceeds(b: Backing, intent: Intent, operation: string, admitted: Task, v: Verdict, o: Outcome)
    requires intent.taskId in b.tasks && admitted.failedActions == b.tasks[intent.taskId].failedActions
    requires v == Accepted(admitted.(state := o.target), o.evidence, o.baton)
    ensures Succeeds(b, Commit(b, intent, operation, admitted, v), intent, o, VerdictResult(v, admitted))
  {
  }

  lemma RejectedCommitFailsClosed(b: Backing, intent: Intent, operation: string, admitted: Task, v: Verdict)
    requires intent.taskId in b.tasks && admitted.failedActions == b.tasks[intent.taskId].failedActions
    requires v.Rejected? && OpaqueToken(v.code)
    ensures FailsClosed(b, Commit(b, intent, operation, admitted, v), intent, VerdictResult(v, admitted))
  {
  }

  // A cycle that is not admitted, or whose callback is interrupted, changes
  // nothing; only an admitted one ever reaches the callback.
  lemma UnadmittedCycleChangesNothing(b: Backing, intent: Intent, operation: string, behaviour: Behaviour)
    ensures var step := ApplyCycle(b, intent, operation, behaviour);
      && (step.handed.Some? <==> Admissible(b, intent))
      && (step.reply.Raise? ==> step.state == b)
      && (step.state != b ==> Admissible(b, intent) && !behaviour.RaisedInterrupt?)
  {
  }

  // A task out of budget, or terminal, is never handed to a callback.
  lemma SpentTaskIsNeverHanded(b: Backing, intent: Intent, operation: string, behaviour: Behaviour)
    requires intent.taskId in b.tasks
    requires var task := b.tasks[intent.taskId];
             task.failedActions >= MAX_FAILED_ACTIONS || task.toolActions >= MAX_TOOL_ACTIONS || task.Terminal()
    ensures var step := ApplyCycle(b, intent, operation, behaviour);
            step.handed == None && step.state == b
  {
  }

  // ---- idempotent replay --------------------------------------------------------

  // A committed key answers the same operation and intent with the recorded
  // result, for every callback and without handing it a task, and refuses any
  // other operation or intent.
  lemma CommittedKeyReplays(b: Backing, intent: Intent, operation: string, behaviour: Behaviour)
    requires CycleId(intent.taskId, intent.cycleKey) in b.cycles && ValidIntent(intent)
    ensures var record := b.cycles[CycleId(intent.taskId, intent.cycleKey)];
      ApplyCycle(b, intent, operation, behaviour) ==
        Applied(b, if record.operation == operation && record.intent == Some(intent)
                   then Ok(record.result) else Raise(IdempotencyConflict), None)
  {
  }

  // Repeating a committed call right away replays it, whatever the callback
  // would now do.
  lemma RepeatedCallReplays(b: Backing, intent: Intent, operation: string, first: Behaviour, again: Behaviour)
    ensures var step := ApplyCycle(b, intent, operation, first);
      step.reply.Ok? ==> ApplyCycle(step.state, intent, operation, again) == Applied(step.state, step.reply, None)
  {
  }

  // A denial recorded by fail_cycle consumes no tool or failure budget.
  lemma FailCycleSpendsNoBudget(b: Backing, id: CycleId, operation: string, expectedVersion: int, code: string)
    requires id !in b.cycles && FailCycle(b, id, operation, expectedVersion, code).reply.Ok?
    ensures var step := FailCycle(b, id, operation, expectedVersion, code);
      var task := b.tasks[id.task];
      var result := step.reply.value;
      && result == ActionResult(step.state.tasks[id.task], [], Some(code))
      && result.task == task.(state := NEEDS_OPERATOR, version := task.version + 1)
      && step.state == b.(tasks := b.tasks[id.task := result.task],
                          cycles := b.cycles[id := CycleRecord(operation, None, result)])
      && FailCycle(step.state, id, operation, expectedVersion, code) == Done(step.state, Ok(result))
  {
  }
}
