// What the service and its coordinators do, in terms of their inputs alone.

module ServiceContracts {
  import opened Results
  import opened Domain
  import opened Policy
  import opened MemorySpec
  import opened MemoryLaws
  import opened Budget
  import opened Coordinators
  import opened ServiceSpec
  import opened ServiceLaws

  // ---- refused calls ----------------------------------------------------------------------------------

  // A blank or overlong caller key reaches neither the store nor a coordinator.
  lemma BadCallerKeyIsRefused(b: Backing, id: CycleId, callerKey: string, c: Coordinator, now: int, day: string)
    requires |callerKey| > 256 || forall i | 0 <= i < |callerKey| :: IsSpace(callerKey[i])
    ensures RunCycle(b, id, callerKey, c, now, day) == Done(b, Raise(ValueError))
    ensures TripDemoBreaker(b, id, callerKey, now) == Done(b, Raise(ValueError))
  {
  }

  lemma GoodCallerKeyIsAccepted(callerKey: string, i: nat)
    requires |callerKey| <= 256 && i < |callerKey| && !IsSpace(callerKey[i])
    ensures AcceptedCallerKey(callerKey)
  {
  }

  lemma UnknownTaskIsRefused(b: Backing, id: CycleId, callerKey: string, c: Coordinator, now: int, day: string)
    requires AcceptedCallerKey(callerKey) && id.task !in b.tasks && id !in b.cycles
    ensures RunCycle(b, id, callerKey, c, now, day) == Done(b, Raise(KeyError))
    ensures TripDemoBreaker(b, id, callerKey, now) == Done(b, Raise(KeyError))
  {
  }

  // A new service task: local, synthetic by name, fresh, and stored.
  lemma NewServiceTaskContract(b: Backing, uniqueId: string, title: string, checks: seq<string>)
    ensures var t, step := "syn_" + uniqueId, NewServiceTask(b, uniqueId, title, checks);
      if ValidTaskFields(t, title, checks) && t !in b.tasks && |b.tasks| < 256 then
        var task := Task(t, title, checks, LocalApi, QUEUED, 0, 0, 0, None);
        step == Done(b.(tasks := b.tasks[t := task], evidence := b.evidence[t := []]), Ok(task))
      else step == Done(b, Raise(ValueError))
  {
  }

  // ---- what a cycle records ----------------------------------------------------------------------------------

  // One denial, stored under the key: the task stopped, nothing spent.
  function DenialStored(b: Backing, id: CycleId, code: string): Done<ActionResult>
    requires id.task in b.tasks
  {
    var task := b.tasks[id.task];
    var result := ActionResult(task.(state := NEEDS_OPERATOR, version := task.version + 1), [], Some(code));
    Done(b.(tasks := b.tasks[id.task := result.task],
            cycles := b.cycles[id := CycleRecord(CanonicalOperation("normal", id.task, id.key), None, result)]),
         Ok(result))
  }

  // What run_cycle stores for each answer of its coordinator, on an open task
  // under an unused key; only the model-call counter may move besides.
  lemma CycleRecords(b: Backing, id: CycleId, callerKey: string, c: Coordinator, now: int, day: string)
    requires AcceptedCallerKey(callerKey)
    requires id.task in b.tasks && b.tasks[id.task].taskId == id.task && id !in b.cycles
    requires b.tasks[id.task].state != PASSED && b.tasks[id.task].state != FAILED
    ensures var asked := Consult(b, c, b.tasks[id.task], id.key, now, day);
      var step := RunCycle(b, id, callerKey, c, now, day);
      && asked.state == b.(modelCalls := asked.state.modelCalls)
      && match asked.answer
         case Interrupts => step == Done(asked.state, Raise(Interrupted))
         case Fails => step == DenialStored(asked.state, id, "coordinator_exception")
         case Denies(code) =>
           step == if OpaqueToken(code) then DenialStored(asked.state, id, code) else Done(asked.state, Raise(ValueError))
         case Proposed(p) =>
           match ProposeAuthorizedIntent(b.actors, asked.answer, b.tasks[id.task], id.key, now)
           case DeniedWith(code) => step == DenialStored(asked.state, id, code)
           case Cleared(intent) =>
             && ParseProposal(p) == Some(intent)
             && var operation := CanonicalOperation("normal", id.task, id.key);
                var run := ApplyCycle(asked.state, intent, operation, ProgressBehaviour(id, intent.actorId, now));
                step == Done(run.state, run.reply)
           case _ => false
  {
    hide CanonicalOperation, ApplyCycle, ProgressBehaviour, OpaqueToken, AuthorizeIntent, CommitsOne, ParseProposal;
    var task := b.tasks[id.task];
    var asked := Consult(b, c, task, id.key, now, day);
    var operation := CanonicalOperation("normal", id.task, id.key);
    ConsultOnlyCounts(b, c, task, id.key, now, day);
    BodyCommitsIff(b, id, operation, c, now, day);
    ConfirmCommitted(b, NormalBody(b, task, id, operation, c, now, day), id, operation);
    CoordinatorExceptionIsToken();
    if asked.answer.Proposed? {
      GateAcceptsIff(b.actors, asked.answer.proposal, task, id.key, now);
      DenialCodesAreTokens();
    }
  }

  // ---- the role a proposal is judged under -----------------------------------------------------------------------

  // A dict that names an actor as text is judged under that actor's stored role.
  lemma NamedActorIsLookedUp(actors: map<string, ActorRole>, raw: RawIntent, task: Task, cycleKey: string, now: int)
    requires raw.actor.ActorText? && !Blank(raw.actor.text)
    ensures var p := Mapping(raw);
      var answer := ProposeAuthorizedIntent(actors, Proposed(p), task, cycleKey, now);
      if raw.actor.text !in actors then answer == DeniedWith("unknown_actor")
      else
        match AuthorizeIntent(p, task, actors[raw.actor.text], now, Some(cycleKey))
        case Ok(intent) => answer == Cleared(intent)
        case Raise(error) => error.PolicyDenied? && answer == DeniedWith(error.code)
  {
  }

  // Whatever else a coordinator returns is judged as a worker's, whoever it names.
  lemma UnnamedActorIsAWorker(actors: map<string, ActorRole>, p: Proposal, task: Task, cycleKey: string, now: int)
    requires !(p.Mapping? && p.raw.actor.ActorText? && !Blank(p.raw.actor.text))
    ensures var answer := ProposeAuthorizedIntent(actors, Proposed(p), task, cycleKey, now);
      match AuthorizeIntent(p, task, WORKER, now, Some(cycleKey))
      case Ok(intent) => answer == Cleared(intent)
      case Raise(error) => error.PolicyDenied? && answer == DeniedWith(error.code)
  {
  }

  // ---- the coordinators -------------------------------------------------------------------------------------------

  // The built-in coordinator proposes progress by worker-1, which is cleared
  // exactly while the task can act.
  lemma DeterministicIsCleared(actors: map<string, ActorRole>, task: Task, cycleKey: string, now: int)
    requires "worker-1" in actors && actors["worker-1"] == WORKER && !Blank(task.taskId) && !Blank(cycleKey)
    ensures var answer := ProposeAuthorizedIntent(actors, Proposed(DeterministicProposal(task, cycleKey, now)),
                                                  task, cycleKey, now);
      if task.toolActions < 3 && task.failedActions < 1 && task.state != PASSED && task.state != FAILED
      then answer == Cleared(Intent(task.taskId, cycleKey, "worker-1", RecordProgress, task.version, now,
                                    map["summary_ref" := Text("synthetic-progress")]))
      else answer == DeniedWith("budget_exhausted") || answer == DeniedWith("terminal_task")
  {
    hide FieldSpecificMetadata, OpaqueToken, Blank, StepCount;
    ProgressRefIsToken();
    LocalPayloadIsValid("synthetic-progress");
    WorkerIsNamed();
  }

  lemma WorkerIsNamed() ensures !Blank("worker-1")
  {
    assert !IsSpace("worker-1"[0]);
  }

  lemma ProgressRefIsToken() ensures OpaqueToken("synthetic-progress") {}

  // The model is called exactly when the day's budget has room; otherwise the
  // fallback answers, and only a dict or an exception of it passes.
  lemma ModelProposeContract(b: Backing, limit: int, task: Task, cycleKey: string, now: int, day: string,
                             reply: ModelReply, fallback: Answer)
    ensures var step := ModelPropose(b, limit, task, cycleKey, now, day, reply, fallback);
      var used := if day in b.modelCalls then b.modelCalls[day] else 0;
      && (step.called <==> BudgetDay(day) && 1 <= limit <= 1_000 && used < limit)
      && step.state == (if step.called then b.(modelCalls := map[day := used + 1]) else b)
      && (!step.called ==>
            step.answer == if fallback.Proposed? && !fallback.proposal.Mapping? then Denies("fallback_invalid") else fallback)
      && (step.called && reply.TransportFails? ==> step.answer == Denies("model_unavailable"))
      && (step.called && reply.TransportInterrupted? ==> step.answer == Interrupts)
      && (step.called && (reply.NotAnObject? || reply.Object?) && ParseChoice(reply).None? ==>
            step.answer == Denies("model_output_invalid"))
  {
  }

  lemma SummaryRefMeans(s: string)
    ensures SummaryRef(s) <==>
      && 1 <= |s| <= 64 && s[0] != '_' && s[0] != '-'
      && forall c | c in s :: 'a' <= c <= 'z' || '0' <= c <= '9' || c == '_' || c == '-'
  {
    if 1 <= |s| <= 64 && SummaryHead(s[0]) && !SummaryRef(s) {
      var i :| 1 <= i < |s| && !SummaryHead(s[i]) && s[i] != '_' && s[i] != '-';
      assert s[i] in s;
    } else if 1 <= |s| {
      assert s[0] in s;
    }
  }

  lemma ModelProposesChoice(b: Backing, limit: int, task: Task, cycleKey: string, now: int, day: string,
                            choice: Choice, fallback: Answer)
    requires SummaryRef(choice.summaryRef)
    requires ModelPropose(b, limit, task, cycleKey, now, day, Rendered(choice), fallback).called
    ensures ModelPropose(b, limit, task, cycleKey, now, day, Rendered(choice), fallback).answer ==
      Proposed(Mapping(RawIntent(
        Some(task.taskId), Some(cycleKey), ActorText(if choice.action == RecordProgress then "worker-1" else "verifier-1"),
        Some(choice.action), Some(task.version), Some(now), Some(map["summary_ref" := Text(choice.summaryRef)]), false)))
  {
    ChoiceRoundTrip(choice);
  }

  // ---- the budget document ---------------------------------------------------------------------------------------------

  lemma ConsumeDocContract(doc: Option<BudgetDoc>, day: string, limit: int)
    ensures var step := ConsumeDoc(doc, day, limit);
      var broken := doc.Some? && !(0 <= doc.value.used <= 1_000 && BudgetDay(doc.value.day));
      var used := if doc.Some? && doc.value.day == day then doc.value.used else 0;
      if !BudgetDay(day) || limit < 1 || limit > 1_000 || broken then step == Consumed(doc, Raise(ValueError))
      else if used < limit then step == Consumed(Some(BudgetDoc(day, used + 1)), Ok(true))
      else step == Consumed(doc, Ok(false))
  {
  }
}
