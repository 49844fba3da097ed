// The atomic state store as functions on a value: what each operation of the
// memory store makes of its backing, and what it answers or raises.

module MemorySpec {
  import opened Results
  import opened Domain
  import opened Policy

  const MAX_TASKS: nat := 256
  const MAX_MODEL_CALLS_PER_DAY_BOUND: int := 1_000

  const DEFAULT_OPERATION := "apply_cycle"
  const INVALID_OUTCOME := "invalid_outcome"
  const ACTION_EXCEPTION := "action_exception"

  datatype CycleId = CycleId(task: string, key: string)

  // The canonical JSON of an intent determines the intent, so the intent
  // itself stands for it.
  datatype CycleRecord = CycleRecord(operation: string, intent: Option<Intent>, result: ActionResult)

  datatype Backing = Backing(
    tasks: map<string, Task>,
    evidence: map<string, seq<Evidence>>,
    evidenceIds: set<string>,
    cycles: map<CycleId, CycleRecord>,
    batons: map<string, Metadata>,
    actors: map<string, ActorRole>,
    registryVersion: nat,
    modelCalls: map<string, nat>)
  {
    function EvidenceOf(t: string): seq<Evidence> {
      if t in evidence then evidence[t] else []
    }
  }

  const EmptyBacking := Backing(map[], map[], {}, map[], map[], map[], 0, map[])

  // What an action callback returns when it returns a CycleOutcome.
  datatype Outcome = Outcome(
    target: TaskState,
    evidence: seq<Evidence>,
    baton: Option<Metadata>,
    failureCode: Option<string>)

  // Everything an untrusted action callback can do with one admitted task.
  datatype Behaviour =
    | RaisedActionFailed(code: Option<string>) // None: the code is not a str
    | RaisedOther
    | RaisedInterrupt // a BaseException such as KeyboardInterrupt
    | ReturnedGarbage // not a CycleOutcome, or one with ill-typed fields
    | Returned(outcome: Outcome)

  // The new backing, the answer, and the task handed to the callback, if any.
  datatype Applied = Applied(state: Backing, reply: Reply<ActionResult>, handed: Option<Task>)
  datatype Done<+T> = Done(state: Backing, reply: Reply<T>)

  // ---- tasks, evidence and batons -------------------------------------------

  function CreateTask(b: Backing, task: Task): Done<Task> {
    if task.taskId in b.tasks then Done(b, Raise(ValueError))
    else if |b.tasks| >= MAX_TASKS then Done(b, Raise(ValueError))
    else
      Done(b.(tasks := b.tasks[task.taskId := task], evidence := b.evidence[task.taskId := []]), Ok(task))
  }

  function Mutable(b: Backing, t: string, expectedVersion: int): Reply<Task> {
    if t !in b.tasks then Raise(KeyError)
    else if b.tasks[t].Terminal() then Raise(ValueError)
    else if b.tasks[t].version != expectedVersion then Raise(VersionConflict)
    else Ok(b.tasks[t])
  }

  function AppendEvidence(b: Backing, e: Evidence, expectedVersion: int): Done<Task> {
    match Mutable(b, e.taskId, expectedVersion)
    case Raise(error) => Done(b, Raise(error))
    case Ok(task) =>
      if !ValidEvidence(e) then Done(b, Raise(ValueError))
      else if e.evidenceId in b.evidenceIds then Done(b, Raise(EvidenceConflict))
      else
        var updated := task.(version := task.version + 1);
        Done(b.(tasks := b.tasks[e.taskId := updated],
                evidence := b.evidence[e.taskId := b.EvidenceOf(e.taskId) + [e]],
                evidenceIds := b.evidenceIds + {e.evidenceId}),
             Ok(updated))
  }

  function SetBaton(b: Backing, t: string, baton: Metadata, expectedVersion: int): Done<Task> {
    if !BatonMetadataOnly(baton) then Done(b, Raise(ValueError)) else
    match Mutable(b, t, expectedVersion)
    case Raise(error) => Done(b, Raise(error))
    case Ok(task) =>
      var updated := task.(version := task.version + 1);
      Done(b.(tasks := b.tasks[t := updated], batons := b.batons[t := baton]), Ok(updated))
  }

  // ---- cycles -----------------------------------------------------------------

  function GetCycleResult(b: Backing, id: CycleId, operation: Option<string>): Reply<Option<ActionResult>> {
    if id !in b.cycles then Ok(None)
    else if operation.Some? && b.cycles[id].operation != operation.value then Raise(IdempotencyConflict)
    else Ok(Some(b.cycles[id].result))
  }

  function OperationName(operation: Option<string>): string {
    if operation.Some? && operation.value != "" then operation.value else DEFAULT_OPERATION
  }

  // The worker that an admitted cycle records: Python's `worker or actor`.
  function WorkerAfter(task: Task, role: ActorRole, actorId: string): Option<string> {
    if role == WORKER && (task.worker == None || task.worker == Some("")) then Some(actorId) else task.worker
  }

  function AdmittedTask(task: Task, role: ActorRole, actorId: string): Task {
    task.(state := if task.state == QUEUED then RUNNING else task.state,
          version := task.version + 1,
          toolActions := task.toolActions + 1,
          worker := WorkerAfter(task, role, actorId))
  }

  function Admit(b: Backing, intent: Intent): Reply<Task> {
    if intent.taskId !in b.tasks then Raise(KeyError) else
    var task := b.tasks[intent.taskId];
    if task.version != intent.expectedVersion then Raise(VersionConflict)
    else if task.Terminal() then Raise(ValueError)
    else if task.toolActions >= MAX_TOOL_ACTIONS || task.failedActions >= MAX_FAILED_ACTIONS then
      Raise(BudgetExhausted)
    else if intent.actorId !in b.actors then Raise(Denied(UnknownActor))
    else if RoleAction(b.actors[intent.actorId]) != Some(intent.action) then Raise(Denied(ActorActionMismatch))
    else Ok(AdmittedTask(task, b.actors[intent.actorId], intent.actorId))
  }

  function FailedOutcome(code: string): Outcome {
    Outcome(NEEDS_OPERATOR, [], None, Some(code))
  }

  predicate ValidOutcome(o: Outcome) {
    && (forall i | 0 <= i < |o.evidence| :: ValidEvidence(o.evidence[i]))
    && (o.baton.Some? ==> BatonMetadataOnly(o.baton.value))
    && (o.failureCode.Some? ==> OpaqueToken(o.failureCode.value))
  }

  // The outcome a behaviour amounts to, or None when there is no valid one.
  function Classify(behaviour: Behaviour): (r: Option<Outcome>)
    ensures r.Some? ==> ValidOutcome(r.value)
    ensures behaviour.Returned? ==> (r.Some? <==> ValidOutcome(behaviour.outcome)) && (r.Some? ==> r.value == behaviour.outcome)
    ensures behaviour.RaisedActionFailed? && behaviour.code.Some? ==>
              r == if OpaqueToken(behaviour.code.value) then Some(FailedOutcome(behaviour.code.value)) else None
    ensures behaviour == RaisedActionFailed(None) ==> r == Some(FailedOutcome("invalid_outcome"))
    ensures behaviour.RaisedOther? ==> r == Some(FailedOutcome("action_exception"))
    ensures behaviour.RaisedInterrupt? || behaviour.ReturnedGarbage? ==> r == None
  {
    var o :=
      match behaviour
      case RaisedActionFailed(code) => Some(FailedOutcome(if code.Some? then code.value else INVALID_OUTCOME))
      case RaisedOther => Some(FailedOutcome(ACTION_EXCEPTION))
      case RaisedInterrupt => None
      case ReturnedGarbage => None
      case Returned(outcome) => Some(outcome);
    if o.Some? && ValidOutcome(o.value) then o else None
  }

  // Evidence that a cycle may add: about its own task, under fresh distinct ids.
  predicate EvidenceAdmissible(evidence: seq<Evidence>, taskId: string, known: set<string>) {
    && (forall i | 0 <= i < |evidence| ::
          ValidEvidence(evidence[i]) && evidence[i].taskId == taskId && evidence[i].evidenceId !in known)
    && (forall i, j | 0 <= i < j < |evidence| :: evidence[i].evidenceId != evidence[j].evidenceId)
  }

  function Ids(evidence: seq<Evidence>): set<string> {
    set i | 0 <= i < |evidence| :: evidence[i].evidenceId
  }

  lemma IdsSnoc(items: seq<Evidence>, item: Evidence)
    ensures Ids(items + [item]) == Ids(items) + {item.evidenceId}
  {
    var longer := items + [item];
    assert forall i | 0 <= i < |items| :: longer[i] == items[i];
    assert longer[|items|] == item;
  }

  lemma AdmissibleSnoc(items: seq<Evidence>, item: Evidence, taskId: string, known: set<string>)
    ensures Ids(items + [item]) == Ids(items) + {item.evidenceId}
    ensures EvidenceAdmissible(items + [item], taskId, known)
       <==> EvidenceAdmissible(items, taskId, known) && ValidEvidence(item) && item.taskId == taskId
            && item.evidenceId !in known && item.evidenceId !in Ids(items)
  {
    IdsSnoc(items, item);
    var longer := items + [item];
    assert forall i | 0 <= i < |items| :: longer[i] == items[i];
    assert longer[|items|] == item;
  }

  lemma AdmissiblePrefix(items: seq<Evidence>, n: nat, taskId: string, known: set<string>)
    requires n <= |items|
    ensures EvidenceAdmissible(items, taskId, known) ==> EvidenceAdmissible(items[..n], taskId, known)
  {
  }

  datatype Verdict =
    | Accepted(task: Task, evidence: seq<Evidence>, baton: Option<Metadata>)
    | Rejected(code: string)

  function PassVerdict(admitted: Task, role: ActorRole, intent: Intent, evidence: seq<Evidence>): (r: Reply<()>)
    ensures r.Raise? ==> r.error == ValueError || exists d :: r.error == Denied(d)
  {
    if role != VERIFIER || intent.action != VerifyTask then Raise(Denied(PassRequiresVerifier))
    else PassGate(admitted, evidence, intent.actorId)
  }

  function JudgeSuccess(o: Outcome, admitted: Task, role: ActorRole, intent: Intent, known: set<string>): Verdict {
    if o.target == FAILED then Rejected(INVALID_OUTCOME)
    else if !EvidenceAdmissible(o.evidence, admitted.taskId, known) then Rejected(INVALID_OUTCOME)
    else
      var pass := if o.target == PASSED then PassVerdict(admitted, role, intent, o.evidence) else Ok(());
      if pass.Raise? then
        Rejected(if pass.error.PolicyDenied? then pass.error.code else INVALID_OUTCOME)
      else
        match TransitionTask(admitted, o.target)
        case Raise(_) => Rejected(INVALID_OUTCOME)
        case Ok(updated) => Accepted(updated, o.evidence, o.baton)
  }

  // What becomes of an admitted cycle, whatever its callback did.
  function Judge(behaviour: Behaviour, admitted: Task, role: ActorRole, intent: Intent, known: set<string>): Verdict {
    match Classify(behaviour)
    case None => Rejected(INVALID_OUTCOME)
    case Some(o) =>
      if o.failureCode.Some? then
        Rejected(if o.evidence != [] || o.baton != None then INVALID_OUTCOME else o.failureCode.value)
      else
        JudgeSuccess(o, admitted, role, intent, known)
  }

  function VerdictResult(v: Verdict, admitted: Task): ActionResult {
    match v
    case Accepted(updated, evidence, _) => ActionResult(updated, evidence, None)
    case Rejected(code) =>
      ActionResult(admitted.(state := NEEDS_OPERATOR, failedActions := admitted.failedActions + 1), [], Some(code))
  }

  function Commit(b: Backing, intent: Intent, operation: string, admitted: Task, v: Verdict): Backing {
    var t := intent.taskId;
    var result := VerdictResult(v, admitted);
    b.(tasks := b.tasks[t := result.task],
       evidence := b.evidence[t := b.EvidenceOf(t) + result.evidence],
       evidenceIds := b.evidenceIds + Ids(result.evidence),
       batons := if v.Accepted? && v.baton.Some? then b.batons[t := v.baton.value] else b.batons,
       cycles := b.cycles[CycleId(t, intent.cycleKey) := CycleRecord(operation, Some(intent), result)])
  }

  function ApplyCycle(b: Backing, intent: Intent, operation: string, behaviour: Behaviour): Applied {
    if !ValidIntent(intent) then Applied(b, Raise(ValueError), None) else
    var id := CycleId(intent.taskId, intent.cycleKey);
    if id in b.cycles then
      if b.cycles[id].operation != operation || b.cycles[id].intent != Some(intent) then
        Applied(b, Raise(IdempotencyConflict), None)
      else
        Applied(b, Ok(b.cycles[id].result), None)
    else
      match Admit(b, intent)
      case Raise(error) => Applied(b, Raise(error), None)
      case Ok(admitted) =>
        if behaviour.RaisedInterrupt? then Applied(b, Raise(Interrupted), Some(admitted)) else
        var v := Judge(behaviour, admitted, b.actors[intent.actorId], intent, b.evidenceIds);
        Applied(Commit(b, intent, operation, admitted, v), Ok(VerdictResult(v, admitted)), Some(admitted))
  }

  function FailCycle(b: Backing, id: CycleId, operation: string, expectedVersion: int, code: string): Done<ActionResult> {
    if id in b.cycles then
      if b.cycles[id].operation != operation then Done(b, Raise(IdempotencyConflict))
      else Done(b, Ok(b.cycles[id].result))
    else if id.task !in b.tasks then Done(b, Raise(KeyError))
    else
      var task := b.tasks[id.task];
      if task.version != expectedVersion then Done(b, Raise(VersionConflict))
      else if task.Terminal() then Done(b, Raise(ValueError))
      else if !OpaqueToken(code) then Done(b, Raise(ValueError))
      else
        var updated := task.(state := NEEDS_OPERATOR, version := task.version + 1);
        var result := ActionResult(updated, [], Some(code));
        Done(b.(tasks := b.tasks[id.task := updated],
                cycles := b.cycles[id := CycleRecord(operation, None, result)]),
             Ok(result))
  }

  // ---- the actor registry -----------------------------------------------------

  function ParseRole(role: string): Option<ActorRole> {
    if role == "coordinator" then Some(COORDINATOR)
    else if role == "worker" then Some(WORKER)
    else if role == "verifier" then Some(VERIFIER)
    else None
  }

  function RegisterActor(b: Backing, actorId: string, role: string, expectedVersion: int): Done<nat> {
    if b.registryVersion != expectedVersion then Done(b, Raise(VersionConflict)) else
    match ParseRole(role)
    case None => Done(b, Raise(ValueError))
    case Some(parsed) =>
      if actorId in b.actors then
        Done(b, if b.actors[actorId] != parsed then Raise(ValueError) else Ok(b.registryVersion))
      else
        Done(b.(actors := b.actors[actorId := parsed], registryVersion := b.registryVersion + 1),
             Ok(b.registryVersion + 1))
  }

  predicate RolesAgree(known: map<string, ActorRole>, actors: map<string, ActorRole>) {
    forall a | a in actors && a in known :: known[a] == actors[a]
  }

  lemma MergeGrows(known: map<string, ActorRole>, actors: map<string, ActorRole>)
    ensures |known + actors| >= |known|
  {
    var merged := known + actors;
    assert merged.Keys == known.Keys + (actors.Keys - known.Keys);
    assert |merged.Keys| == |known.Keys| + |actors.Keys - known.Keys|;
  }

  // Registered actors keep their roles and exactly the given ones are added.
  predicate Merging(known: map<string, ActorRole>, actors: map<string, ActorRole>, pending: set<string>,
                    now: map<string, ActorRole>) {
    && (forall a | a in known :: a in now && now[a] == known[a])
    && (forall a | a in now && a !in known :: a in actors && now[a] == actors[a])
    && (forall a | a in actors && a !in pending :: a in now)
  }

  lemma Merged(known: map<string, ActorRole>, actors: map<string, ActorRole>, now: map<string, ActorRole>)
    requires RolesAgree(known, actors) && Merging(known, actors, {}, now)
    ensures now == known + actors
  {
  }

  lemma MergeOne(known: map<string, ActorRole>, actors: map<string, ActorRole>, pending: set<string>,
                 now: map<string, ActorRole>, a: string)
    requires Merging(known, actors, pending, now) && a in actors
    ensures Merging(known, actors, pending - {a}, if a in now then now else now[a := actors[a]])
  {
  }

  // One version for every actor added.
  function VersionAfter(known: map<string, ActorRole>, version: nat, actors: map<string, ActorRole>): nat {
    MergeGrows(known, actors);
    version + (|known + actors| - |known|)
  }

  function InitializeActors(b: Backing, actors: map<string, ActorRole>): Done<nat> {
    if !RolesAgree(b.actors, actors) then Done(b, Raise(ValueError))
    else
      var version := VersionAfter(b.actors, b.registryVersion, actors);
      Done(b.(actors := b.actors + actors, registryVersion := version), Ok(version))
  }

  // ---- the daily model-call budget ---------------------------------------------

  predicate Digit(c: char) {
    '0' <= c <= '9'
  }

  // A YYYY-MM-DD string.
  predicate BudgetDay(day: string) {
    && |day| == 10 && day[4] == '-' && day[7] == '-'
    && forall i | 0 <= i < 10 && i != 4 && i != 7 :: Digit(day[i])
  }

  predicate BudgetArgs(day: string, limit: int) {
    BudgetDay(day) && 1 <= limit <= MAX_MODEL_CALLS_PER_DAY_BOUND
  }

  function ConsumeModelCall(b: Backing, day: string, limit: int): Done<bool> {
    if !BudgetArgs(day, limit) then Done(b, Raise(ValueError)) else
    var used := if day in b.modelCalls then b.modelCalls[day] else 0;
    if used >= limit then Done(b, Ok(false))
    else Done(b.(modelCalls := map[day := used + 1]), Ok(true))
  }
}
