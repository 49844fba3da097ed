// What one call of the service promises: which calls store a record and which,
// and what the demo breaker does to a task.

module ServiceLaws {
  import opened Results
  import opened Domain
  import opened Policy
  import opened MemorySpec
  import opened MemoryLaws
  import opened Coordinators
  import opened ServiceSpec

  // ---- vocabulary of the service's own strings ----------------------------------------------

  predicate HexKey(key: string) {
    |key| == 64 && forall i | 0 <= i < |key| :: '0' <= key[i] <= '9' || 'a' <= key[i] <= 'f'
  }

  lemma HexKeyIsToken(key: string)
    requires HexKey(key)
    ensures OpaqueToken(key) && !Blank(key)
  {
  }

  lemma CoordinatorExceptionIsToken() ensures OpaqueToken(COORDINATOR_EXCEPTION) {}
  lemma DemoFailureIsToken() ensures OpaqueToken(DEMO_FAILURE) {}

  // A key used for one kind of call is a different operation for the other.
  lemma OperationsDiffer(id: CycleId)
    ensures CanonicalOperation("normal", id.task, id.key) != CanonicalOperation("breaker", id.task, id.key)
  {
  }

  // ---- which cycles commit ---------------------------------------------------------------------

  // A proposal the gate judges under a worker's role without having looked up
  // the actor: an Intent object, a mapping that is no dict, or a dict whose
  // actor is no str.
  predicate ActorUnchecked(p: Proposal) {
    p.IntentObject? || p.MappingObject? || (p.Mapping? && p.raw.actor.ActorCoerced?)
  }

  predicate RegisteredWorker(actors: map<string, ActorRole>, p: Proposal) {
    var parsed := ParseProposal(p);
    parsed.Some? && parsed.value.actorId in actors && actors[parsed.value.actorId] == WORKER
  }

  // The answers of a coordinator that the service can always record.
  ghost predicate Recordable(actors: map<string, ActorRole>, answer: Answer, task: Task, cycleKey: string, now: int) {
    match answer
    case Fails => true
    case Interrupts => false
    case Denies(code) => OpaqueToken(code)
    case Proposed(p) =>
      ActorUnchecked(p) && AuthorizeIntent(p, task, WORKER, now, Some(cycleKey)).Ok? ==> RegisteredWorker(actors, p)
  }

  // One record for the key, one version for its task, nothing for any other.
  ghost predicate CommitsOne(b: Backing, step: Done<ActionResult>, id: CycleId, operation: string)
    requires id.task in b.tasks
  {
    && step.reply.Ok?
    && id in step.state.cycles
    && step.state.cycles == b.cycles[id := CycleRecord(operation, step.state.cycles[id].intent, step.reply.value)]
    && step.state.tasks == b.tasks[id.task := step.reply.value.task]
    && step.reply.value.task.version == b.tasks[id.task].version + 1
    && step.reply.value.task.SameIdentity(b.tasks[id.task])
  }

  // Nothing but the model-call counter moved, and the caller got an exception.
  ghost predicate ChangesNothingStored(b: Backing, step: Done<ActionResult>) {
    step.reply.Raise? && step.state == b.(modelCalls := step.state.modelCalls)
  }

  lemma ConsultOnlyCounts(b: Backing, c: Coordinator, task: Task, cycleKey: string, now: int, day: string)
    ensures var asked := Consult(b, c, task, cycleKey, now, day);
            asked.state == b.(modelCalls := asked.state.modelCalls)
  {
  }

  lemma RecordsDenial(b: Backing, id: CycleId, operation: string, code: string)
    requires id !in b.cycles && id.task in b.tasks
    ensures var step := FailCycle(b, id, operation, b.tasks[id.task].version, code);
      if !b.tasks[id.task].Terminal() && OpaqueToken(code)
      then CommitsOne(b, step, id, operation) && step.reply.value.failureCode == Some(code)
           && step.state == b.(tasks := step.state.tasks, cycles := step.state.cycles)
           && step.reply.value.task == b.tasks[id.task].(state := NEEDS_OPERATOR, version := b.tasks[id.task].version + 1)
      else step == Done(b, Raise(ValueError))
  {
  }

  // A current intent is admitted exactly when the registry gives its actor the
  // role for its action.
  lemma CurrentIsAdmitted(b: Backing, i: Intent, id: CycleId, now: int)
    requires id.task in b.tasks && b.tasks[id.task].taskId == id.task && id !in b.cycles
    requires Current(i, b.tasks[id.task], id.key, now)
    ensures Admissible(b, i) <==> i.actorId in b.actors && RoleAction(b.actors[i.actorId]) == Some(i.action)
    ensures !Admissible(b, i) ==> forall operation, behaviour {:trigger ApplyCycle(b, i, operation, behaviour)} ::
              ApplyCycle(b, i, operation, behaviour).reply.Raise? && ApplyCycle(b, i, operation, behaviour).state == b
  {
  }

  lemma AdmittedCommitsOne(b: Backing, i: Intent, id: CycleId, operation: string, behaviour: Behaviour)
    requires id == CycleId(i.taskId, i.cycleKey) && Admissible(b, i) && !behaviour.RaisedInterrupt?
    ensures var step := ApplyCycle(b, i, operation, behaviour);
            CommitsOne(b, Done(step.state, step.reply), id, operation)
  {
  }

  // The gate's answer to a proposal and the store's admission of it.
  lemma ClearedActor(actors: map<string, ActorRole>, p: Proposal, task: Task, cycleKey: string, now: int)
    ensures var answer := ProposeAuthorizedIntent(actors, Proposed(p), task, cycleKey, now);
      && (answer.Cleared? ==>
            var i := answer.intent;
            && ParseProposal(p) == Some(i) && Current(i, task, cycleKey, now)
            && (if ActorUnchecked(p) then i.action == RecordProgress && AuthorizeIntent(p, task, WORKER, now, Some(cycleKey)).Ok?
                else i.actorId in actors && RoleAction(actors[i.actorId]) == Some(i.action)))
      && (ActorUnchecked(p) && AuthorizeIntent(p, task, WORKER, now, Some(cycleKey)).Ok? ==> answer.Cleared?)
  {
  }

  // Recordable answers by what becomes of them: every denial under an opaque
  // code, and every cleared intent whose actor the registry lets act.
  lemma RecordableByOutcome(actors: map<string, ActorRole>, answer: Answer, task: Task, cycleKey: string, now: int)
    ensures var authorized := ProposeAuthorizedIntent(actors, answer, task, cycleKey, now);
      Recordable(actors, answer, task, cycleKey, now) <==>
        match authorized
        case DeniedWith(code) => OpaqueToken(code)
        case OtherException => true
        case Interruption => false
        case Cleared(i) => i.actorId in actors && RoleAction(actors[i.actorId]) == Some(i.action)
  {
    hide OpaqueToken, Code;
    DenialCodesAreTokens();
    if answer.Proposed? {
      GateAcceptsIff(actors, answer.proposal, task, cycleKey, now);
      ClearedActor(actors, answer.proposal, task, cycleKey, now);
      hide ProposeAuthorizedIntent, AuthorizeIntent;
    }
  }

  lemma ClearedIsCurrent(actors: map<string, ActorRole>, answer: Answer, task: Task, cycleKey: string, now: int)
    ensures var authorized := ProposeAuthorizedIntent(actors, answer, task, cycleKey, now);
            authorized.Cleared? ==> Current(authorized.intent, task, cycleKey, now)
  {
    if answer.Proposed? {
      ClearedActor(actors, answer.proposal, task, cycleKey, now);
    }
  }

  lemma BodyCommitsIff(b: Backing, id: CycleId, operation: string, c: Coordinator, now: int, day: string)
    requires id.task in b.tasks && b.tasks[id.task].taskId == id.task && id !in b.cycles
    ensures var task := b.tasks[id.task];
      var answer := Consult(b, c, task, id.key, now, day).answer;
      var step := NormalBody(b, task, id, operation, c, now, day);
      if !task.Terminal() && Recordable(b.actors, answer, task, id.key, now)
      then CommitsOne(b, step, id, operation) else ChangesNothingStored(b, step)
  {
    hide OpaqueToken, Recordable, ProposeAuthorizedIntent, Consult, ProgressBehaviour, Admissible;
    var task := b.tasks[id.task];
    var asked := Consult(b, c, task, id.key, now, day);
    ConsultOnlyCounts(b, c, task, id.key, now, day);
    RecordableByOutcome(b.actors, asked.answer, task, id.key, now);
    ClearedIsCurrent(b.actors, asked.answer, task, id.key, now);
    match ProposeAuthorizedIntent(b.actors, asked.answer, task, id.key, now) {
      case DeniedWith(code) => RecordsDenial(asked.state, id, operation, code);
      case Interruption =>
      case OtherException =>
        CoordinatorExceptionIsToken();
        RecordsDenial(asked.state, id, operation, COORDINATOR_EXCEPTION);
      case Cleared(intent) => ClearedCommitsIff(asked.state, id, operation, intent, now);
    }
    hide FailCycle, ApplyCycle;
  }

  lemma ClearedCommitsIff(b: Backing, id: CycleId, operation: string, intent: Intent, now: int)
    requires id.task in b.tasks && b.tasks[id.task].taskId == id.task && id !in b.cycles
    requires Current(intent, b.tasks[id.task], id.key, now)
    ensures var run := ApplyCycle(b, intent, operation, ProgressBehaviour(id, intent.actorId, now));
      var step := Done(run.state, run.reply);
      if intent.actorId in b.actors && RoleAction(b.actors[intent.actorId]) == Some(intent.action)
      then CommitsOne(b, step, id, operation) else step.reply.Raise? && step.state == b
  {
    hide ApplyCycle, CommitsOne, ValidEvidence, BatonMetadataOnly;
    CurrentIsAdmitted(b, intent, id, now);
    if Admissible(b, intent) {
      AdmittedCommitsOne(b, intent, id, operation, ProgressBehaviour(id, intent.actorId, now));
    }
  }

  lemma ConfirmCommitted(b: Backing, step: Done<ActionResult>, id: CycleId, operation: string)
    requires id.task in b.tasks
    requires CommitsOne(b, step, id, operation) || ChangesNothingStored(b, step)
    ensures Confirm(step, id, operation) == step
  {
  }

  // A cycle on a stored task under an unused key stores exactly one record at
  // the next version if and only if the task is not terminal and the answer of
  // the coordinator is one the service can record; otherwise nothing is stored.
  lemma CycleCommitsIff(b: Backing, id: CycleId, callerKey: string, c: Coordinator, now: int, day: string)
    requires AcceptedCallerKey(callerKey)
    requires id.task in b.tasks && b.tasks[id.task].taskId == id.task && id !in b.cycles
    ensures var task := b.tasks[id.task];
      var answer := Consult(b, c, task, id.key, now, day).answer;
      var step := RunCycle(b, id, callerKey, c, now, day);
      var commits := CommitsOne(b, step, id, CanonicalOperation("normal", id.task, id.key));
      && (commits <==> !task.Terminal() && Recordable(b.actors, answer, task, id.key, now))
      && (!commits ==> ChangesNothingStored(b, step))
  {
    var operation := CanonicalOperation("normal", id.task, id.key);
    BodyCommitsIff(b, id, operation, c, now, day);
    ConfirmCommitted(b, NormalBody(b, b.tasks[id.task], id, operation, c, now, day), id, operation);
  }

  // ---- the coordinators that ship with the service ------------------------------------------------

  // The built-in coordinator, or the model behind its budget, not interrupted,
  // with the built-in coordinator as fallback.
  predicate Shipped(c: Coordinator, task: Task, cycleKey: string, now: int) {
    || c.Deterministic?
    || (c.Gemini? && c.model != TransportInterrupted && c.fallback == Proposed(DeterministicProposal(task, cycleKey, now)))
  }

  lemma ShippedAnswersAreRecordable(b: Backing, c: Coordinator, task: Task, cycleKey: string, now: int, day: string)
    requires Shipped(c, task, cycleKey, now)
    ensures Recordable(b.actors, Consult(b, c, task, cycleKey, now, day).answer, task, cycleKey, now)
  {
    hide OpaqueToken, Code, AuthorizeIntent, RegisteredWorker;
    CodesAreTokens(ModelUnavailable);
    CodesAreTokens(ModelOutputInvalid);
  }

  // With a shipped coordinator every cycle on a task that is not terminal
  // stores its record, whatever the model, the clock or the registry do.
  lemma ShippedCycleCommits(b: Backing, id: CycleId, callerKey: string, c: Coordinator, now: int, day: string)
    requires AcceptedCallerKey(callerKey)
    requires id.task in b.tasks && b.tasks[id.task].taskId == id.task && id !in b.cycles
    requires !b.tasks[id.task].Terminal() && Shipped(c, b.tasks[id.task], id.key, now)
    ensures CommitsOne(b, RunCycle(b, id, callerKey, c, now, day), id, CanonicalOperation("normal", id.task, id.key))
  {
    ShippedAnswersAreRecordable(b, c, b.tasks[id.task], id.key, now, day);
    CycleCommitsIff(b, id, callerKey, c, now, day);
  }

  // ---- two families that are lost ------------------------------------------------------------------

  // A coordinator that denies with a code that is no opaque token: the failure
  // cannot be recorded either.
  lemma ProseDenialIsLost(b: Backing, id: CycleId, code: string, callerKey: string, now: int, day: string)
    requires AcceptedCallerKey(callerKey) && id.task in b.tasks && id !in b.cycles && !OpaqueToken(code)
    ensures RunCycle(b, id, callerKey, Custom(Denies(code)), now, day) == Done(b, Raise(ValueError))
  {
  }

  // A coordinator that returns an Intent object for an actor registered as no
  // worker: the gate judges it as a worker's and accepts, the store refuses it.
  lemma UncheckedActorIsLost(b: Backing, i: Intent, callerKey: string, now: int, day: string)
    requires AcceptedCallerKey(callerKey)
    requires i.taskId in b.tasks && CycleId(i.taskId, i.cycleKey) !in b.cycles
    requires Current(i, b.tasks[i.taskId], i.cycleKey, now) && i.action == RecordProgress
    requires i.actorId in b.actors && b.actors[i.actorId] != WORKER
    ensures var id, proposal := CycleId(i.taskId, i.cycleKey), Proposed(IntentObject(i));
      && ProposeAuthorizedIntent(b.actors, proposal, b.tasks[i.taskId], i.cycleKey, now) == Cleared(i)
      && RunCycle(b, id, callerKey, Custom(proposal), now, day) == Done(b, Raise(Denied(ActorActionMismatch)))
  {
    hide ValidIntent, CanonicalOperation, AcceptedCallerKey, ProgressBehaviour;
    GateAcceptsIff(b.actors, IntentObject(i), b.tasks[i.taskId], i.cycleKey, now);
  }

  // ---- what a cleared cycle stores -------------------------------------------------------------------

  lemma ProgressBatonIsValid(id: CycleId)
    requires HexKey(id.key)
    ensures BatonMetadataOnly(ProgressBaton(id))
  {
  }

  lemma ProgressOutcomeAcceptable(id: CycleId, actorId: string, now: int, admitted: Task, role: ActorRole, intent: Intent,
                                  known: set<string>)
    requires admitted.taskId == id.task && !admitted.Terminal() && admitted.state != QUEUED
    requires ValidEvidence(ProgressEvidence(id, actorId, now)) && BatonMetadataOnly(ProgressBaton(id))
    ensures var outcome := Outcome(RUNNING, [ProgressEvidence(id, actorId, now)], Some(ProgressBaton(id)), None);
      Acceptable(outcome, admitted, role, intent, known) <==> ProgressEvidence(id, actorId, now).evidenceId !in known
  {
    hide ValidEvidence, BatonMetadataOnly;
    var item := ProgressEvidence(id, actorId, now);
    assert Edge(admitted.state, RUNNING);
    if item.evidenceId in known {
      assert !EvidenceAdmissible([item], admitted.taskId, known) by { assert [item][0] == item; }
    }
  }

  // What the gate cleared and the store admitted becomes one progress record
  // and the task RUNNING, or, when that record cannot be stored, a failure that
  // keeps nothing.
  lemma ClearedCycleStoresProgress(b: Backing, id: CycleId, operation: string, intent: Intent, now: int)
    requires id.task in b.tasks && b.tasks[id.task].taskId == id.task && HexKey(id.key)
    requires id == CycleId(intent.taskId, intent.cycleKey) && Admissible(b, intent)
    ensures var item := Evidence("ev_" + id.task + "_" + id.key, id.task, "progress", intent.actorId, "progress",
                                 map["cycle_key" := Text(id.key), "status" := Text("recorded")], now);
      var baton: Metadata := map["last_cycle_key" := Text(id.key), "next_step" := Text("verify")];
      var step := ApplyCycle(b, intent, operation, ProgressBehaviour(id, intent.actorId, now));
      && step.reply.Ok?
      && (if ValidEvidence(item) && item.evidenceId !in b.evidenceIds
          then Succeeds(b, step.state, intent, Outcome(RUNNING, [item], Some(baton), None), step.reply.value)
          else FailsClosed(b, step.state, intent, step.reply.value))
  {
    hide ValidEvidence, BatonMetadataOnly, Succeeds, FailsClosed, CommitsOneRecord;
    var behaviour := ProgressBehaviour(id, intent.actorId, now);
    ProgressBatonIsValid(id);
    AdmittedCycleCommitsOnce(b, intent, operation, behaviour);
    var role := b.actors[intent.actorId];
    var admitted := AdmittedTask(b.tasks[id.task], role, intent.actorId);
    if behaviour.Returned? {
      ProgressOutcomeAcceptable(id, intent.actorId, now, admitted, role, intent, b.evidenceIds);
    }
  }
}
