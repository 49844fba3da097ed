// Every sequence of service calls: it is a legal run of the store, so all that
// is proved of such runs holds of it, and it has properties of its own.

module ServiceRuns {
  import opened Results
  import opened Domain
  import opened Policy
  import opened MemorySpec
  import opened MemoryLaws
  import opened MemoryRuns
  import opened MemoryInvariant
  import opened MemoryTheorems
  import opened Coordinators
  import opened ServiceSpec
  import opened ServiceLaws

  // ---- the demo breaker ------------------------------------------------------------------------

  ghost predicate DefaultRoles(b: Backing) {
    && WORKER_ACTOR in b.actors && b.actors[WORKER_ACTOR] == WORKER
    && VERIFIER_ACTOR in b.actors && b.actors[VERIFIER_ACTOR] == VERIFIER
  }

  lemma DemoIntentIsValid(id: CycleId, version: nat, now: int)
    requires SYNTHETIC_ID_PREFIX <= id.task && !Blank(id.key)
    ensures ValidIntent(DemoIntent(id, version, now))
  {
    assert !IsSpace(id.task[0]) && !IsSpace(WORKER_ACTOR[0]);
    DemoFailureIsToken();
    var m: Metadata := map["failure_code" := Text(DEMO_FAILURE)];
    assert "status" != "failure_code" && "steps" != "failure_code";
    assert m.Keys == {"failure_code"} && m.Keys <= INTENT_METADATA_KEYS;
    CardinalitySubset(m.Keys, INTENT_METADATA_KEYS);
  }

  // What a tripped breaker leaves: one spent action, one failure, stopped.
  function Tripped(task: Task): Task {
    AdmittedTask(task, WORKER, WORKER_ACTOR).(state := NEEDS_OPERATOR, failedActions := task.failedActions + 1)
  }

  lemma DemoOutcomeRejected(admitted: Task, role: ActorRole, intent: Intent, known: set<string>)
    ensures Judge(Returned(FailedOutcome(DEMO_FAILURE)), admitted, role, intent, known) == Rejected(DEMO_FAILURE)
  {
  }

  // Why the breaker refuses a stored task.
  function BreakerRefusal(task: Task): Error {
    if task.origin != LocalApi || !("syn_" <= task.taskId) then PermissionError
    else if task.state == PASSED || task.state == FAILED then ValueError
    else BudgetExhausted
  }

  lemma BreakerBodyIff(b: Backing, id: CycleId, operation: string, now: int)
    requires id.task in b.tasks && b.tasks[id.task].taskId == id.task && id !in b.cycles
    requires DefaultRoles(b) && HexKey(id.key)
    ensures var task := b.tasks[id.task];
      var step := BreakerBody(b, task, id, operation, now);
      if Synthetic(task) && CanAct(task)
      then CommitsOne(b, step, id, operation)
           && step.reply == Ok(ActionResult(Tripped(task), [], Some("demo_missing_evidence")))
           && step.state.cycles[id].intent == Some(DemoIntent(id, task.version, now))
           && step.state.batons == b.batons && step.state.evidenceIds == b.evidenceIds
      else step == Done(b, Raise(BreakerRefusal(task)))
  {
    hide ValidIntent, Judge, CommitsOneRecord, FailsClosed, Succeeds;
    var task := b.tasks[id.task];
    if Synthetic(task) {
      var intent := DemoIntent(id, task.version, now);
      HexKeyIsToken(id.key);
      DemoIntentIsValid(id, task.version, now);
      if CanAct(task) {
        assert Admissible(b, intent);
        AdmittedCommitsOne(b, intent, id, operation, Returned(FailedOutcome(DEMO_FAILURE)));
        AdmittedCycleCommits(b, intent, operation, Returned(FailedOutcome(DEMO_FAILURE)));
        var admitted := Admit(b, intent).value;
        DemoOutcomeRejected(admitted, WORKER, intent, b.evidenceIds);
        assert b.evidenceIds + Ids([]) == b.evidenceIds;
      }
    }
  }

  // The breaker trips exactly on local synthetic tasks that can still act;
  // otherwise it raises and nothing changes.
  lemma BreakerTripsIff(b: Backing, id: CycleId, callerKey: string, now: int)
    requires AcceptedCallerKey(callerKey)
    requires id.task in b.tasks && b.tasks[id.task].taskId == id.task && id !in b.cycles
    requires DefaultRoles(b) && HexKey(id.key)
    ensures var task := b.tasks[id.task];
      var step := TripDemoBreaker(b, id, callerKey, now);
      if task.origin == LocalApi && "syn_" <= task.taskId
         && task.toolActions < 3 && task.failedActions < 1 && task.state != PASSED && task.state != FAILED
      then
        && CommitsOne(b, step, id, CanonicalOperation("breaker", id.task, id.key))
        && step.reply.value.evidence == [] && step.reply.value.failureCode == Some("demo_missing_evidence")
        && step.reply.value.task.state == NEEDS_OPERATOR && step.reply.value.task.version == task.version + 1
        && step.reply.value.task.toolActions == task.toolActions + 1 && step.reply.value.task.failedActions == 1
        && step.state.cycles[id].intent
             == Some(Intent(id.task, id.key, "worker-1", RecordProgress, task.version, now,
                            map["failure_code" := Text("demo_missing_evidence")]))
      else step == Done(b, Raise(BreakerRefusal(task)))
  {
    hide CanonicalOperation, BreakerBody;
    var operation := CanonicalOperation("breaker", id.task, id.key);
    BreakerBodyIff(b, id, operation, now);
    ConfirmCommitted(b, BreakerBody(b, b.tasks[id.task], id, operation, now), id, operation);
  }

  // ---- service calls as store operations ---------------------------------------------------------

  datatype Call =
    | MakeTask(uniqueId: string, title: string, requiredChecks: seq<string>)
    | Cycle(id: CycleId, callerKey: string, c: Coordinator, now: int, day: string)
    | Trip(id: CycleId, callerKey: string, now: int)

  function CallAfter(b: Backing, call: Call): Backing {
    match call
    case MakeTask(uniqueId, title, checks) => NewServiceTask(b, uniqueId, title, checks).state
    case Cycle(id, callerKey, c, now, day) => RunCycle(b, id, callerKey, c, now, day).state
    case Trip(id, callerKey, now) => TripDemoBreaker(b, id, callerKey, now).state
  }

  function NormalOps(b: Backing, task: Task, id: CycleId, operation: string, c: Coordinator, now: int, day: string)
    : (ops: seq<Op>)
    ensures |ops| <= 2
  {
    var asked := Consult(b, c, task, id.key, now, day);
    (if c.Gemini? then [Consume(day, c.limit)] else []) +
    match ProposeAuthorizedIntent(asked.state.actors, asked.answer, task, id.key, now)
    case DeniedWith(code) => [Fail(id, operation, task.version, code)]
    case OtherException => [Fail(id, operation, task.version, COORDINATOR_EXCEPTION)]
    case Interruption => []
    case Cleared(intent) => [Apply(intent, operation, ProgressBehaviour(id, intent.actorId, now))]
  }

  // The operations a call performs on its store.
  function StoreOps(b: Backing, call: Call): (ops: seq<Op>)
    ensures |ops| <= 2
  {
    match call
    case MakeTask(uniqueId, title, checks) =>
      var made := NewTask(SYNTHETIC_ID_PREFIX + uniqueId, title, checks, LocalApi);
      if made.Ok? then [Create(made.value)] else []
    case Cycle(id, callerKey, c, now, day) =>
      if !AcceptedCallerKey(callerKey) || id in b.cycles || id.task !in b.tasks then []
      else NormalOps(b, b.tasks[id.task], id, CanonicalOperation("normal", id.task, id.key), c, now, day)
    case Trip(id, callerKey, now) =>
      if !AcceptedCallerKey(callerKey) || id in b.cycles || id.task !in b.tasks || !Synthetic(b.tasks[id.task]) then []
      else [Apply(DemoIntent(id, b.tasks[id.task].version, now), CanonicalOperation("breaker", id.task, id.key),
                  Returned(FailedOutcome(DEMO_FAILURE)))]
  }

  lemma ConfirmKeepsState(step: Done<ActionResult>, id: CycleId, operation: string)
    ensures Confirm(step, id, operation).state == step.state
  {
  }

  lemma NormalBodyIsOps(b: Backing, task: Task, id: CycleId, operation: string, c: Coordinator, now: int, day: string)
    ensures RunFrom(b, NormalOps(b, task, id, operation, c, now, day))
         == NormalBody(b, task, id, operation, c, now, day).state
    ensures Legal(NormalOps(b, task, id, operation, c, now, day))
  {
    hide FailCycle, ApplyCycle, ProgressBehaviour, ProposeAuthorizedIntent;
    var asked := Consult(b, c, task, id.key, now, day);
    var ops := NormalOps(b, task, id, operation, c, now, day);
    var consults: seq<Op> := if c.Gemini? then [Consume(day, c.limit)] else [];
    var rest := ops[|consults|..];
    assert ops == consults + rest;
    RunFromConcat(b, consults, rest);
    if c.Gemini? {
      RunOne(b, Consume(day, c.limit));
    }
    if rest != [] {
      assert rest == [rest[0]];
      RunOne(asked.state, rest[0]);
    }
  }

  lemma CallIsStoreOps(b: Backing, call: Call)
    ensures RunFrom(b, StoreOps(b, call)) == CallAfter(b, call)
    ensures Legal(StoreOps(b, call))
  {
    hide CanonicalOperation, NormalBody, NormalOps, Confirm, DemoIntent, ApplyCycle;
    match call {
      case MakeTask(uniqueId, title, checks) =>
        var made := NewTask(SYNTHETIC_ID_PREFIX + uniqueId, title, checks, LocalApi);
        if made.Ok? {
          RunOne(b, Create(made.value));
        }
      case Cycle(id, callerKey, c, now, day) =>
        var operation := CanonicalOperation("normal", id.task, id.key);
        if id.task in b.tasks {
          NormalBodyIsOps(b, b.tasks[id.task], id, operation, c, now, day);
          ConfirmKeepsState(NormalBody(b, b.tasks[id.task], id, operation, c, now, day), id, operation);
        }
      case Trip(id, callerKey, now) =>
        var operation := CanonicalOperation("breaker", id.task, id.key);
        if id.task in b.tasks {
          ConfirmKeepsState(BreakerBody(b, b.tasks[id.task], id, operation, now), id, operation);
          RunOne(b, Apply(DemoIntent(id, b.tasks[id.task].version, now), operation, Returned(FailedOutcome(DEMO_FAILURE))));
        }
    }
  }

  // ---- runs of the service --------------------------------------------------------------------------

  function ServiceRunFrom(b: Backing, calls: seq<Call>): Backing
    decreases |calls|
  {
    if calls == [] then b else ServiceRunFrom(CallAfter(b, calls[0]), calls[1..])
  }

  function StoreRunFrom(b: Backing, calls: seq<Call>): seq<Op>
    decreases |calls|
  {
    if calls == [] then [] else StoreOps(b, calls[0]) + StoreRunFrom(CallAfter(b, calls[0]), calls[1..])
  }

  // A new service on an empty store, then the calls.
  function ServiceRun(calls: seq<Call>): Backing {
    ServiceRunFrom(After(EmptyBacking, Initialize(DEFAULT_ACTORS)), calls)
  }

  function StoreRun(calls: seq<Call>): seq<Op> {
    [Initialize(DEFAULT_ACTORS)] + StoreRunFrom(After(EmptyBacking, Initialize(DEFAULT_ACTORS)), calls)
  }

  lemma {:induction false} ServiceRunFromIsStoreRun(b: Backing, calls: seq<Call>)
    ensures RunFrom(b, StoreRunFrom(b, calls)) == ServiceRunFrom(b, calls)
    ensures Legal(StoreRunFrom(b, calls))
    decreases |calls|
  {
    if calls != [] {
      var next := CallAfter(b, calls[0]);
      CallIsStoreOps(b, calls[0]);
      ServiceRunFromIsStoreRun(next, calls[1..]);
      RunFromConcat(b, StoreOps(b, calls[0]), StoreRunFrom(next, calls[1..]));
    }
  }

  // Whatever the callers, the coordinators and the clock do, the service only
  // ever performs a legal run of its store.
  lemma ServiceRunIsStoreRun(calls: seq<Call>)
    ensures ServiceRun(calls) == Run(StoreRun(calls)) && Legal(StoreRun(calls)) && Inv(ServiceRun(calls))
  {
    var started := After(EmptyBacking, Initialize(DEFAULT_ACTORS));
    ServiceRunFromIsStoreRun(started, calls);
    RunFromConcat(EmptyBacking, [Initialize(DEFAULT_ACTORS)], StoreRunFrom(started, calls));
    RunOne(EmptyBacking, Initialize(DEFAULT_ACTORS));
    RunKeepsInv(StoreRun(calls));
  }

  // ---- what the service alone can never do --------------------------------------------------------

  // Operations that open no way to PASSED, as all the service's own are.
  predicate Modest(op: Op) {
    match op
    case Create(task) => Fresh(task) && Synthetic(task)
    case Apply(_, _, behaviour) => behaviour.Returned? ==> behaviour.outcome.target != PASSED
    case Fail(_, _, _, _) => true
    case Consume(_, _) => true
    case Initialize(_) => true
    case _ => false
  }

  // Tasks as the service knows them: open, local and synthetic.
  ghost predicate AllOpen(b: Backing) {
    forall t | t in b.tasks :: !b.tasks[t].Terminal() && Synthetic(b.tasks[t]) && b.tasks[t].taskId == t
  }

  lemma CommittedStateIsOpen(b: Backing, intent: Intent, operation: string, behaviour: Behaviour)
    requires Admissible(b, intent) && !behaviour.RaisedInterrupt?
    requires behaviour.Returned? ==> behaviour.outcome.target != PASSED
    ensures !ApplyCycle(b, intent, operation, behaviour).reply.value.task.Terminal()
  {
  }

  lemma ModestKeepsOpen(b: Backing, op: Op)
    requires AllOpen(b) && Modest(op)
    ensures AllOpen(After(b, op))
  {
    match op {
      case Apply(intent, operation, behaviour) =>
        ApplyKeepsOpen(b, intent, operation, behaviour);
      case _ =>
    }
  }

  lemma ApplyKeepsOpen(b: Backing, intent: Intent, operation: string, behaviour: Behaviour)
    requires AllOpen(b) && (behaviour.Returned? ==> behaviour.outcome.target != PASSED)
    ensures AllOpen(ApplyCycle(b, intent, operation, behaviour).state)
  {
    hide ApplyCycle;
    UnadmittedCycleChangesNothing(b, intent, operation, behaviour);
    if Admissible(b, intent) && !behaviour.RaisedInterrupt? {
      AdmittedCycleCommitsOnce(b, intent, operation, behaviour);
      CommittedStateIsOpen(b, intent, operation, behaviour);
    }
  }

  lemma StoreOpsAreModest(b: Backing, call: Call)
    ensures forall i | 0 <= i < |StoreOps(b, call)| :: Modest(StoreOps(b, call)[i])
  {
    hide CanonicalOperation, ProposeAuthorizedIntent, ValidEvidence, BatonMetadataOnly;
  }

  lemma {:induction false} ModestRunKeepsOpen(b: Backing, ops: seq<Op>)
    requires AllOpen(b) && forall i | 0 <= i < |ops| :: Modest(ops[i])
    ensures AllOpen(RunFrom(b, ops))
    decreases |ops|
  {
    if ops != [] {
      ModestKeepsOpen(b, ops[0]);
      ModestRunKeepsOpen(After(b, ops[0]), ops[1..]);
    }
  }

  lemma {:induction false} ServiceRunFromKeepsOpen(b: Backing, calls: seq<Call>)
    requires AllOpen(b)
    ensures AllOpen(ServiceRunFrom(b, calls))
    decreases |calls|
  {
    if calls != [] {
      StoreOpsAreModest(b, calls[0]);
      CallIsStoreOps(b, calls[0]);
      ModestRunKeepsOpen(b, StoreOps(b, calls[0]));
      ServiceRunFromKeepsOpen(CallAfter(b, calls[0]), calls[1..]);
    }
  }

  // No sequence of service calls, whatever its coordinators propose, ever
  // passes a task or fails one for good.
  lemma ServiceNeverPasses(calls: seq<Call>, t: string)
    requires t in ServiceRun(calls).tasks
    ensures var task := ServiceRun(calls).tasks[t];
            task.state in {QUEUED, RUNNING, NEEDS_OPERATOR} && Synthetic(task) && task.taskId == t
  {
    ServiceRunFromKeepsOpen(After(EmptyBacking, Initialize(DEFAULT_ACTORS)), calls);
    assert AllOpen(ServiceRun(calls));
  }

  // With a shipped coordinator, every cycle on any task of any service run
  // under an unused key stores its record.
  lemma ServiceCycleIsRecorded(calls: seq<Call>, id: CycleId, callerKey: string, c: Coordinator, now: int, day: string)
    requires AcceptedCallerKey(callerKey)
    requires id.task in ServiceRun(calls).tasks && id !in ServiceRun(calls).cycles
    requires Shipped(c, ServiceRun(calls).tasks[id.task], id.key, now)
    ensures CommitsOne(ServiceRun(calls), RunCycle(ServiceRun(calls), id, callerKey, c, now, day), id,
                       CanonicalOperation("normal", id.task, id.key))
  {
    ServiceNeverPasses(calls, id.task);
    ShippedCycleCommits(ServiceRun(calls), id, callerKey, c, now, day);
  }

  // ---- whom the evidence speaks for --------------------------------------------------------------------

  // A recorded success holds one item, in the name of the recorded actor.
  ghost predicate SpeaksForItself(record: CycleRecord) {
    record.intent.Some? && record.result.failureCode == None ==>
      |record.result.evidence| == 1 && record.result.evidence[0].actorId == record.intent.value.actorId
  }

  ghost predicate AllSpeak(b: Backing) {
    forall id | id in b.cycles :: SpeaksForItself(b.cycles[id])
  }

  // The callbacks of the service: an item in the name of the intent's actor, or
  // the failure of the breaker.
  ghost predicate OwnVoice(op: Op) {
    op.Apply? ==>
      || op.behaviour == Returned(FailedOutcome(DEMO_FAILURE))
      || exists id, at :: op.behaviour == ProgressBehaviour(id, op.intent.actorId, at)
  }

  lemma OwnVoiceKeepsSpeaking(b: Backing, op: Op)
    requires AllSpeak(b) && OwnVoice(op)
    ensures AllSpeak(After(b, op))
  {
    hide ApplyCycle, ProgressBehaviour;
    match op {
      case Apply(intent, operation, behaviour) => ApplyKeepsSpeaking(b, intent, operation, behaviour);
      case _ =>
    }
  }

  lemma ApplyKeepsSpeaking(b: Backing, intent: Intent, operation: string, behaviour: Behaviour)
    requires AllSpeak(b) && OwnVoice(Apply(intent, operation, behaviour))
    ensures AllSpeak(ApplyCycle(b, intent, operation, behaviour).state)
  {
    hide ApplyCycle, Acceptable, FailsClosed, Succeeds, ValidEvidence, BatonMetadataOnly;
    UnadmittedCycleChangesNothing(b, intent, operation, behaviour);
    if Admissible(b, intent) && !behaviour.RaisedInterrupt? {
      AdmittedCycleCommitsOnce(b, intent, operation, behaviour);
      FailureIsCoded(b, intent, operation, behaviour);
    }
  }

  lemma FailureIsCoded(b: Backing, intent: Intent, operation: string, behaviour: Behaviour)
    requires Admissible(b, intent) && !behaviour.RaisedInterrupt?
    ensures var step := ApplyCycle(b, intent, operation, behaviour);
      step.reply.Ok? && step.handed.Some?
      && (step.reply.value.failureCode == None ==>
            behaviour.Returned? && behaviour.outcome.failureCode == None && step.reply.value.evidence == behaviour.outcome.evidence)
  {
    hide ApplyCycle, CommitsOneRecord;
    AdmittedCycleCommitsOnce(b, intent, operation, behaviour);
  }

  lemma StoreOpsHaveOwnVoice(b: Backing, call: Call)
    ensures forall i | 0 <= i < |StoreOps(b, call)| :: OwnVoice(StoreOps(b, call)[i])
  {
    hide CanonicalOperation, ProposeAuthorizedIntent, ProgressBehaviour;
  }

  lemma {:induction false} VoicesKeepSpeaking(b: Backing, ops: seq<Op>)
    requires AllSpeak(b) && forall i | 0 <= i < |ops| :: OwnVoice(ops[i])
    ensures AllSpeak(RunFrom(b, ops))
    decreases |ops|
  {
    hide OwnVoice, AllSpeak, After;
    if ops != [] {
      OwnVoiceKeepsSpeaking(b, ops[0]);
      VoicesKeepSpeaking(After(b, ops[0]), ops[1..]);
    }
  }

  lemma {:induction false} ServiceRunFromSpeaks(b: Backing, calls: seq<Call>)
    requires AllSpeak(b)
    ensures AllSpeak(ServiceRunFrom(b, calls))
    decreases |calls|
  {
    hide OwnVoice, AllSpeak, CallAfter, StoreOps;
    if calls != [] {
      StoreOpsHaveOwnVoice(b, calls[0]);
      CallIsStoreOps(b, calls[0]);
      VoicesKeepSpeaking(b, StoreOps(b, calls[0]));
      ServiceRunFromSpeaks(CallAfter(b, calls[0]), calls[1..]);
    }
  }

  // In every service run on the memory store, the evidence of a recorded
  // success speaks for the actor whose intent is recorded.
  lemma EvidenceSpeaksForRecord(calls: seq<Call>, id: CycleId)
    requires id in ServiceRun(calls).cycles
    ensures SpeaksForItself(ServiceRun(calls).cycles[id])
  {
    hide ServiceRunFrom, DEFAULT_ACTORS;
    ServiceRunFromSpeaks(After(EmptyBacking, Initialize(DEFAULT_ACTORS)), calls);
  }

  // ---- replay over whole service runs ---------------------------------------------------------------

  lemma CallKeepsInv(b: Backing, call: Call)
    requires Inv(b)
    ensures Inv(CallAfter(b, call))
  {
    CallIsStoreOps(b, call);
    RunFromKeepsInv(b, StoreOps(b, call));
  }

  lemma ServiceContinues(b: Backing, calls: seq<Call>)
    requires Inv(b)
    ensures Continues(b, ServiceRunFrom(b, calls)) && Inv(ServiceRunFrom(b, calls))
  {
    ServiceRunFromIsStoreRun(b, calls);
    RunContinues(b, StoreRunFrom(b, calls));
    RunFromKeepsInv(b, StoreRunFrom(b, calls));
  }

  // A normal return means a record for the key, under the operation of the call.
  lemma ReturnedIsRecorded(b: Backing, id: CycleId, callerKey: string, c: Coordinator, now: int, day: string)
    requires RunCycle(b, id, callerKey, c, now, day).reply.Ok?
    ensures var step := RunCycle(b, id, callerKey, c, now, day);
      && AcceptedCallerKey(callerKey) && id in step.state.cycles
      && step.state.cycles[id].operation == CanonicalOperation("normal", id.task, id.key)
      && step.state.cycles[id].result == step.reply.value
  {
    hide NormalBody, CanonicalOperation, AcceptedCallerKey;
  }

  // Once a cycle has returned a result, every later call with the same task and
  // key returns the same one, whatever the coordinator would now propose, and
  // changes nothing; tripping the breaker with that key is refused.
  lemma ServiceReplaysForever(calls: seq<Call>, id: CycleId, callerKey: string, c: Coordinator, now: int, day: string,
                              more: seq<Call>, c2: Coordinator, now2: int, day2: string)
    requires RunCycle(ServiceRun(calls), id, callerKey, c, now, day).reply.Ok?
    ensures var step := RunCycle(ServiceRun(calls), id, callerKey, c, now, day);
      var later := ServiceRunFrom(step.state, more);
      && RunCycle(later, id, callerKey, c2, now2, day2) == Done(later, step.reply)
      && TripDemoBreaker(later, id, callerKey, now2) == Done(later, Raise(IdempotencyConflict))
  {
    hide RunCycle, TripDemoBreaker, Inv, Later, CanonicalOperation;
    var b := ServiceRun(calls);
    var step := RunCycle(b, id, callerKey, c, now, day);
    ServiceRunIsStoreRun(calls);
    CallKeepsInv(b, Call.Cycle(id, callerKey, c, now, day));
    ReturnedIsRecorded(b, id, callerKey, c, now, day);
    ServiceContinues(step.state, more);
    var later := ServiceRunFrom(step.state, more);
    assert id in later.cycles && later.cycles[id] == step.state.cycles[id];
    OperationsDiffer(id);
    RecordedKeyAnswers(later, id, callerKey, c2, now2, day2);
  }

  lemma RecordedKeyAnswers(b: Backing, id: CycleId, callerKey: string, c: Coordinator, now: int, day: string)
    requires AcceptedCallerKey(callerKey) && id in b.cycles
    ensures RunCycle(b, id, callerKey, c, now, day) ==
      Done(b, if b.cycles[id].operation == CanonicalOperation("normal", id.task, id.key)
              then Ok(b.cycles[id].result) else Raise(IdempotencyConflict))
    ensures TripDemoBreaker(b, id, callerKey, now) ==
      Done(b, if b.cycles[id].operation == CanonicalOperation("breaker", id.task, id.key)
              then Ok(b.cycles[id].result) else Raise(IdempotencyConflict))
  {
    hide CanonicalOperation, AcceptedCallerKey;
  }

  // ---- the breaker over whole service runs -------------------------------------------------------------

  // A cycle on a task that cannot act records a denial and spends nothing.
  lemma SpentCycleRecordsDenial(b: Backing, id: CycleId, callerKey: string, c: Coordinator, now: int, day: string)
    requires AcceptedCallerKey(callerKey)
    requires id.task in b.tasks && b.tasks[id.task].taskId == id.task && id !in b.cycles
    requires var task := b.tasks[id.task];
             !task.Terminal() && task.failedActions >= MAX_FAILED_ACTIONS && Shipped(c, task, id.key, now)
    ensures var task := b.tasks[id.task];
      var step := RunCycle(b, id, callerKey, c, now, day);
      && CommitsOne(b, step, id, CanonicalOperation("normal", id.task, id.key))
      && step.reply.value.task == task.(state := NEEDS_OPERATOR, version := task.version + 1)
      && step.reply.value.failureCode.Some?
      && (c.Deterministic? && DefaultRoles(b) && !Blank(id.task) && !Blank(id.key) ==>
            step.reply.value.failureCode == Some(Code(BudgetSpent)))
  {
    hide CanonicalOperation, Recordable, OpaqueToken, FailCycle, ApplyCycle;
    ShippedCycleCommits(b, id, callerKey, c, now, day);
    SpentBodyIsDenial(b, id, CanonicalOperation("normal", id.task, id.key), c, now, day);
  }

  lemma SpentBodyIsDenial(b: Backing, id: CycleId, operation: string, c: Coordinator, now: int, day: string)
    requires id.task in b.tasks && b.tasks[id.task].taskId == id.task && id !in b.cycles
    requires var task := b.tasks[id.task];
             !task.Terminal() && task.failedActions >= MAX_FAILED_ACTIONS && Shipped(c, task, id.key, now)
    ensures var task := b.tasks[id.task];
      var step := NormalBody(b, task, id, operation, c, now, day);
      && step.reply.Ok?
      && step.reply.value.task == task.(state := NEEDS_OPERATOR, version := task.version + 1)
      && step.reply.value.failureCode.Some?
      && (c.Deterministic? && DefaultRoles(b) && !Blank(id.task) && !Blank(id.key) ==>
            step.reply.value.failureCode == Some(Code(BudgetSpent)))
  {
    hide ApplyCycle, OpaqueToken, AuthorizeIntent, DeterministicProposal;
    var task := b.tasks[id.task];
    var asked := Consult(b, c, task, id.key, now, day);
    BodyCommitsIff(b, id, operation, c, now, day);
    ShippedAnswersAreRecordable(b, c, task, id.key, now, day);
    ConsultOnlyCounts(b, c, task, id.key, now, day);
    if asked.answer.Proposed? {
      GateAcceptsIff(b.actors, asked.answer.proposal, task, id.key, now);
    }
    if c.Deterministic? && DefaultRoles(b) && !Blank(id.task) && !Blank(id.key) {
      DeterministicMeetsBudget(b.actors, task, id.key, now);
    }
  }

  lemma SyntheticProgressIsToken() ensures OpaqueToken("synthetic-progress") {}

  lemma DeterministicMeetsBudget(actors: map<string, ActorRole>, task: Task, cycleKey: string, now: int)
    requires WORKER_ACTOR in actors && actors[WORKER_ACTOR] == WORKER
    requires !Blank(task.taskId) && !Blank(cycleKey) && task.failedActions >= MAX_FAILED_ACTIONS
    ensures ProposeAuthorizedIntent(actors, Proposed(DeterministicProposal(task, cycleKey, now)), task, cycleKey, now)
         == DeniedWith(Code(BudgetSpent))
  {
    hide FieldSpecificMetadata, OpaqueToken;
    SyntheticProgressIsToken();
    LocalPayloadIsValid("synthetic-progress");
    assert !IsSpace(WORKER_ACTOR[0]);
  }

  lemma FailedStaysFailed(b: Backing, calls: seq<Call>, t: string)
    requires Inv(b) && t in b.tasks && b.tasks[t].failedActions == 1
    ensures var later := ServiceRunFrom(b, calls);
      && t in later.tasks
      && var task := later.tasks[t];
      && task.taskId == t && task.state == NEEDS_OPERATOR && task.failedActions == 1
      && task.toolActions == b.tasks[t].toolActions
  {
    hide SameTask, TaskInv, EvidenceInv, BatonInv, ServiceRunFrom;
    ServiceContinues(b, calls);
    assert Later(b, ServiceRunFrom(b, calls), t);
    assert b.tasks[t].taskId == t;
  }

  lemma TrippedStays(calls: seq<Call>, id: CycleId, callerKey: string, now: int, more: seq<Call>)
    requires HexKey(id.key) && id !in ServiceRun(calls).cycles
    requires TripDemoBreaker(ServiceRun(calls), id, callerKey, now).reply.Ok?
    ensures var step := TripDemoBreaker(ServiceRun(calls), id, callerKey, now);
      var later := ServiceRunFrom(step.state, more);
      && id.task in later.tasks
      && var task := later.tasks[id.task];
      && task.taskId == id.task && task.state == NEEDS_OPERATOR && task.failedActions == 1
      && task.toolActions == step.reply.value.task.toolActions
  {
    hide TripDemoBreaker, Inv, ServiceRun, ServiceRunFrom, HexKey;
    var step := TripDemoBreaker(ServiceRun(calls), id, callerKey, now);
    TripStoppedTask(calls, id, callerKey, now);
    CallKeepsInv(ServiceRun(calls), Call.Trip(id, callerKey, now));
    FailedStaysFailed(step.state, more, id.task);
  }

  // Once the breaker has tripped, the task stays stopped through every later
  // run of the service, and every later cycle with a shipped coordinator
  // records a denial without spending an action.
  lemma TrippedForever(calls: seq<Call>, id: CycleId, callerKey: string, now: int, more: seq<Call>,
                       id2: CycleId, callerKey2: string, c2: Coordinator, now2: int, day2: string)
    requires HexKey(id.key) && id !in ServiceRun(calls).cycles
    requires TripDemoBreaker(ServiceRun(calls), id, callerKey, now).reply.Ok?
    requires AcceptedCallerKey(callerKey2) && id2.task == id.task
    ensures var step := TripDemoBreaker(ServiceRun(calls), id, callerKey, now);
      var later := ServiceRunFrom(step.state, more);
      && id.task in later.tasks
      && var task := later.tasks[id.task];
      && task.state == NEEDS_OPERATOR && task.failedActions == 1
      && task.toolActions == step.reply.value.task.toolActions
      && (id2 !in later.cycles && Shipped(c2, task, id2.key, now2) ==>
            var cycle := RunCycle(later, id2, callerKey2, c2, now2, day2);
            && cycle.reply.Ok? && cycle.reply.value.failureCode.Some?
            && cycle.reply.value.task == task.(version := task.version + 1))
  {
    hide RunCycle, TripDemoBreaker, ServiceRun, ServiceRunFrom, CanonicalOperation, Shipped, HexKey, AcceptedCallerKey;
    TrippedStays(calls, id, callerKey, now, more);
    var later := ServiceRunFrom(TripDemoBreaker(ServiceRun(calls), id, callerKey, now).state, more);
    if id2 !in later.cycles && Shipped(c2, later.tasks[id.task], id2.key, now2) {
      SpentCycleRecordsDenial(later, id2, callerKey2, c2, now2, day2);
    }
  }

  lemma ServiceKeepsRoles(calls: seq<Call>)
    ensures DefaultRoles(ServiceRun(calls)) && Inv(ServiceRun(calls))
  {
    hide Later, Inv, Run;
    var started := After(EmptyBacking, Initialize(DEFAULT_ACTORS));
    EmptyInv();
    StepKeepsInv(EmptyBacking, Initialize(DEFAULT_ACTORS));
    ServiceContinues(started, calls);
    assert DefaultRoles(started);
  }

  lemma TripStoppedTask(calls: seq<Call>, id: CycleId, callerKey: string, now: int)
    requires HexKey(id.key) && id !in ServiceRun(calls).cycles
    requires TripDemoBreaker(ServiceRun(calls), id, callerKey, now).reply.Ok?
    ensures Inv(ServiceRun(calls))
    ensures var step := TripDemoBreaker(ServiceRun(calls), id, callerKey, now);
      && id.task in step.state.tasks && step.state.tasks[id.task] == step.reply.value.task
      && step.reply.value.task.state == NEEDS_OPERATOR && step.reply.value.task.failedActions == 1
  {
    hide AllOpen, CanonicalOperation, HexKey, Inv, BreakerBody;
    var b := ServiceRun(calls);
    ServiceKeepsRoles(calls);
    assert id.task in b.tasks;
    ServiceNeverPasses(calls, id.task);
    BreakerTripsIff(b, id, callerKey, now);
  }

  // ---- reachable states in which a cycle is lost --------------------------------------------------------

  const SAMPLE_TASK := Task("syn_1", "t", ["quality"], LocalApi, QUEUED, 0, 0, 0, None)

  // A new service that has made one task.
  function SampleService(): Backing {
    ServiceRun([MakeTask("1", "t", ["quality"])])
  }

  lemma SampleTaskIsStored()
    ensures var b := SampleService();
            b.tasks == map["syn_1" := SAMPLE_TASK] && b.cycles == map[] && b.actors == DEFAULT_ACTORS
  {
    hide DEFAULT_ACTORS, NewTask, SAMPLE_TASK;
    var started := After(EmptyBacking, Initialize(DEFAULT_ACTORS));
    assert started.actors == DEFAULT_ACTORS && started.tasks == map[];
    var call := MakeTask("1", "t", ["quality"]);
    assert ServiceRunFrom(CallAfter(started, call), [call][1..]) == CallAfter(started, call);
    SampleTaskIsNew();
  }

  lemma SampleTaskIsNew()
    ensures NewTask(SYNTHETIC_ID_PREFIX + "1", "t", ["quality"], LocalApi) == Ok(SAMPLE_TASK)
    ensures SAMPLE_TASK.taskId == "syn_1"
  {
    assert SYNTHETIC_ID_PREFIX + "1" == "syn_1";
    assert !IsSpace("syn_1"[0]) && !IsSpace("t"[0]) && !IsSpace("quality"[0]);
  }

  lemma ProseIsNoToken()
    ensures !OpaqueToken("not a token")
  {
    assert !TokenTail("not a token"[3]);
  }

  lemma SampleDenialIsLost(key: string, callerKey: string, now: int, day: string)
    requires AcceptedCallerKey(callerKey)
    ensures RunCycle(SampleService(), CycleId("syn_1", key), callerKey, Custom(Denies("not a token")), now, day)
         == Done(SampleService(), Raise(ValueError))
  {
    hide SampleService, RunCycle, AcceptedCallerKey, OpaqueToken;
    SampleTaskIsStored();
    ProseIsNoToken();
    ProseDenialIsLost(SampleService(), CycleId("syn_1", key), "not a token", callerKey, now, day);
  }

  // An Intent object for the registered verifier, on the same service.
  lemma SampleVerifierObjectIsLost(key: string, callerKey: string, now: int, day: string)
    requires AcceptedCallerKey(callerKey) && !Blank(key)
    ensures var i := Intent("syn_1", key, VERIFIER_ACTOR, RecordProgress, 0, now, map[]);
      RunCycle(SampleService(), CycleId("syn_1", key), callerKey, Custom(Proposed(IntentObject(i))), now, day)
        == Done(SampleService(), Raise(Denied(ActorActionMismatch)))
  {
    hide SampleService, RunCycle, AcceptedCallerKey;
    SampleTaskIsStored();
    var i := Intent("syn_1", key, VERIFIER_ACTOR, RecordProgress, 0, now, map[]);
    assert !IsSpace("syn_1"[0]) && !IsSpace(VERIFIER_ACTOR[0]);
    assert ValidIntent(i);
    UncheckedActorIsLost(SampleService(), i, callerKey, now, day);
  }
}
