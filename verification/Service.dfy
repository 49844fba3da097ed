// The control-room service: one cycle from a caller's idempotency key to a
// stored result, the demo breaker, and task creation.

module ServiceSpec {
  import opened Results
  import opened Domain
  import opened MemorySpec
  import opened Coordinators

  const MAX_CALLER_IDEMPOTENCY_KEY_LENGTH: nat := 256
  const COORDINATOR_EXCEPTION := "coordinator_exception"
  const DEMO_FAILURE := "demo_missing_evidence"
  const SYNTHETIC_ID_PREFIX := "syn_"
  const DEFAULT_ACTORS := map["coordinator-1" := COORDINATOR, WORKER_ACTOR := WORKER, VERIFIER_ACTOR := VERIFIER]

  predicate AcceptedCallerKey(callerKey: string) {
    !Blank(callerKey) && |callerKey| <= MAX_CALLER_IDEMPOTENCY_KEY_LENGTH
  }

  // ---- the canonical operation: compact JSON with sorted keys ------------------------------

  function HexDigit(n: nat): char
    requires n < 16
  {
    "0123456789abcdef"[n]
  }

  function Hex4(n: nat): string
    requires n < 0x1_0000
  {
    [HexDigit(n / 4096), HexDigit(n / 256 % 16), HexDigit(n / 16 % 16), HexDigit(n % 16)]
  }

  function EscapeChar(c: char): string {
    var n := c as int;
    if c == '\"' then "\\\""
    else if c == '\\' then "\\\\"
    else if c == '\n' then "\\n"
    else if c == '\r' then "\\r"
    else if c == '\t' then "\\t"
    else if n == 0x08 then "\\b"
    else if n == 0x0C then "\\f"
    else if ' ' <= c <= '~' then [c]
    else if n < 0x1_0000 then "\\u" + Hex4(n)
    else "\\u" + Hex4(0xD800 + (n - 0x1_0000) / 0x400) + "\\u" + Hex4(0xDC00 + (n - 0x1_0000) % 0x400)
  }

  function Quoted(s: string): string {
    "\"" + Escaped(s) + "\""
  }

  function Escaped(s: string): string {
    if s == "" then "" else EscapeChar(s[0]) + Escaped(s[1..])
  }

  function BeforeKind(cycleKey: string): string {
    "{\"cycle_key\":" + Quoted(cycleKey) + ",\"kind\":"
  }

  function AfterKind(taskId: string): string {
    ",\"task_id\":" + Quoted(taskId) + "}"
  }

  function CanonicalOperation(kind: string, taskId: string, cycleKey: string): string {
    BeforeKind(cycleKey) + Quoted(kind) + AfterKind(taskId)
  }

  // ---- one cycle under the store's lock ------------------------------------------------------

  // Which coordinator the service was built with, and what it would do now.
  datatype Coordinator =
    | Deterministic
    | Gemini(limit: int, model: ModelReply, fallback: Answer)
    | Custom(answer: Answer)

  function Consult(b: Backing, c: Coordinator, task: Task, cycleKey: string, now: int, day: string): Proposing {
    match c
    case Deterministic => Proposing(b, Proposed(DeterministicProposal(task, cycleKey, now)), false)
    case Gemini(limit, model, fallback) => ModelPropose(b, limit, task, cycleKey, now, day, model, fallback)
    case Custom(answer) => Proposing(b, answer, false)
  }

  // What becomes of a transact callback that ended with `step`.
  function Confirm(step: Done<ActionResult>, id: CycleId, operation: string): Done<ActionResult> {
    if step.reply.Raise? then step else
    match GetCycleResult(step.state, id, Some(operation))
    case Raise(error) => Done(step.state, Raise(error))
    case Ok(persisted) =>
      if persisted != Some(step.reply.value) then Done(step.state, Raise(RuntimeError)) else step
  }

  function ProgressEvidence(id: CycleId, actorId: string, now: int): Evidence {
    Evidence("ev_" + id.task + "_" + id.key, id.task, "progress", actorId, "progress",
             map["cycle_key" := Text(id.key), "status" := Text("recorded")], now)
  }

  function ProgressBaton(id: CycleId): Metadata {
    map["last_cycle_key" := Text(id.key), "next_step" := Text("verify")]
  }

  // The execute callback: building the evidence or the outcome may raise.
  function ProgressBehaviour(id: CycleId, actorId: string, now: int): Behaviour {
    var item, baton := ProgressEvidence(id, actorId, now), ProgressBaton(id);
    if ValidEvidence(item) && BatonMetadataOnly(baton) then Returned(Outcome(RUNNING, [item], Some(baton), None))
    else RaisedOther
  }

  function NormalBody(b: Backing, task: Task, id: CycleId, operation: string, c: Coordinator, now: int, day: string)
    : Done<ActionResult>
  {
    var asked := Consult(b, c, task, id.key, now, day);
    match ProposeAuthorizedIntent(asked.state.actors, asked.answer, task, id.key, now)
    case DeniedWith(code) => FailCycle(asked.state, id, operation, task.version, code)
    case OtherException => FailCycle(asked.state, id, operation, task.version, COORDINATOR_EXCEPTION)
    case Interruption => Done(asked.state, Raise(Interrupted))
    case Cleared(intent) =>
      var step := ApplyCycle(asked.state, intent, operation, ProgressBehaviour(id, intent.actorId, now));
      Done(step.state, step.reply)
  }

  function DemoIntent(id: CycleId, version: int, now: int): Intent {
    Intent(id.task, id.key, WORKER_ACTOR, RecordProgress, version, now, map["failure_code" := Text(DEMO_FAILURE)])
  }

  predicate Synthetic(task: Task) {
    task.origin == LocalApi && SYNTHETIC_ID_PREFIX <= task.taskId
  }

  function BreakerBody(b: Backing, task: Task, id: CycleId, operation: string, now: int): Done<ActionResult> {
    if !Synthetic(task) then Done(b, Raise(PermissionError))
    else
      var step := ApplyCycle(b, DemoIntent(id, task.version, now), operation, Returned(FailedOutcome(DEMO_FAILURE)));
      Done(step.state, step.reply)
  }

  // The cycle key is the hexadecimal SHA-256 digest of the caller's key.
  function RunCycle(b: Backing, id: CycleId, callerKey: string, c: Coordinator, now: int, day: string): Done<ActionResult> {
    var operation := CanonicalOperation("normal", id.task, id.key);
    if !AcceptedCallerKey(callerKey) then Done(b, Raise(ValueError)) else
    match GetCycleResult(b, id, Some(operation))
    case Raise(error) => Done(b, Raise(error))
    case Ok(Some(result)) => Done(b, Ok(result))
    case Ok(None) =>
      if id.task !in b.tasks then Done(b, Raise(KeyError))
      else Confirm(NormalBody(b, b.tasks[id.task], id, operation, c, now, day), id, operation)
  }

  function TripDemoBreaker(b: Backing, id: CycleId, callerKey: string, now: int): Done<ActionResult> {
    var operation := CanonicalOperation("breaker", id.task, id.key);
    if !AcceptedCallerKey(callerKey) then Done(b, Raise(ValueError)) else
    match GetCycleResult(b, id, Some(operation))
    case Raise(error) => Done(b, Raise(error))
    case Ok(Some(result)) => Done(b, Ok(result))
    case Ok(None) =>
      if id.task !in b.tasks then Done(b, Raise(KeyError))
      else Confirm(BreakerBody(b, b.tasks[id.task], id, operation, now), id, operation)
  }

  function NewServiceTask(b: Backing, uniqueId: string, title: string, requiredChecks: seq<string>): Done<Task> {
    match NewTask(SYNTHETIC_ID_PREFIX + uniqueId, title, requiredChecks, LocalApi)
    case Raise(error) => Done(b, Raise(error))
    case Ok(task) => CreateTask(b, task)
  }
}

module Service {
  import opened Results
  import opened Domain
  import opened Policy
  import opened MemorySpec
  import opened MemoryStore
  import opened Coordinators
  import opened ServiceSpec

  class ControlRoomService {
    const store: MemoryStateStore
    const digest: string -> string // SHA-256 in hexadecimal

    var started: Reply<nat>        // what registering the default actors answered

    constructor (store: MemoryStateStore, digest: string -> string)
      requires store.backing.Valid()
      modifies store.backing
      ensures this.store == store && this.digest == digest && store.backing.Valid()
      ensures Done(store.backing.State(), started) == InitializeActors(old(store.backing.State()), DEFAULT_ACTORS)
    {
      this.store, this.digest := store, digest;
      new;
      started := store.InitializeActors(DEFAULT_ACTORS);
    }

    method CreateTask(uniqueId: string, title: string, requiredChecks: seq<string>) returns (r: Reply<Task>)
      requires store.backing.Valid()
      modifies store.backing
      ensures store.backing.Valid()
      ensures Done(store.backing.State(), r)
           == NewServiceTask(old(store.backing.State()), uniqueId, title, requiredChecks)
    {
      r := NewTask(SYNTHETIC_ID_PREFIX + uniqueId, title, requiredChecks, LocalApi);
      if r.Ok? {
        r := store.CreateTask(r.value);
      }
    }

    method Ask(c: Coordinator, task: Task, cycleKey: string, now: int, day: string) returns (answer: Answer)
      requires store.backing.Valid()
      modifies store.backing
      ensures store.backing.Valid()
      ensures var asked := Consult(old(store.backing.State()), c, task, cycleKey, now, day);
              store.backing.State() == asked.state && answer == asked.answer
    {
      match c {
        case Deterministic => return Proposed(DeterministicProposal(task, cycleKey, now));
        case Gemini(limit, model, fallback) =>
          var gemini := new GeminiCoordinator(store, limit);
          var called;
          answer, called := gemini.Propose(task, cycleKey, now, day, model, fallback);
        case Custom(given) => return given;
      }
    }

    // The role resolution around the gate, reading roles from the store.
    method Authorize(answer: Answer, task: Task, cycleKey: string, now: int) returns (a: Authorized)
      ensures a == ProposeAuthorizedIntent(store.backing.actors, answer, task, cycleKey, now)
    {
      if answer.Fails? {
        return OtherException;
      }
      if answer.Interrupts? {
        return Interruption;
      }
      if answer.Denies? {
        return DeniedWith(answer.code);
      }
      var p := answer.proposal;
      var role := WORKER;
      if p.Mapping? && p.raw.actor.ActorText? && !Blank(p.raw.actor.text) {
        var found := store.GetActorRole(p.raw.actor.text);
        if found.Raise? {
          return DeniedWith(Code(UnknownActor));
        }
        role := found.value;
      }
      var gate := AuthorizeIntent(p, task, role, now, Some(cycleKey));
      if gate.Ok? {
        return Cleared(gate.value);
      }
      return if gate.error.PolicyDenied? then DeniedWith(gate.error.code) else OtherException;
    }

    method TransactNormal(task: Task, id: CycleId, operation: string, c: Coordinator, now: int, day: string)
      returns (r: Reply<ActionResult>)
      requires store.backing.Valid() && operation != ""
      modifies store.backing
      ensures store.backing.Valid()
      ensures Done(store.backing.State(), r)
           == NormalBody(old(store.backing.State()), task, id, operation, c, now, day)
    {
      var answer := Ask(c, task, id.key, now, day);
      var authorized := Authorize(answer, task, id.key, now);
      match authorized {
        case DeniedWith(code) => r := store.FailCycle(id, operation, task.version, code);
        case OtherException => r := store.FailCycle(id, operation, task.version, COORDINATOR_EXCEPTION);
        case Interruption => r := Raise(Interrupted);
        case Cleared(intent) =>
          var handed;
          r, handed := store.ApplyCycle(intent, Some(operation), ProgressBehaviour(id, intent.actorId, now));
      }
    }

    method TransactBreaker(task: Task, id: CycleId, operation: string, now: int) returns (r: Reply<ActionResult>)
      requires store.backing.Valid() && operation != ""
      modifies store.backing
      ensures store.backing.Valid()
      ensures Done(store.backing.State(), r) == BreakerBody(old(store.backing.State()), task, id, operation, now)
    {
      if !Synthetic(task) {
        return Raise(PermissionError);
      }
      var handed;
      r, handed := store.ApplyCycle(DemoIntent(id, task.version, now), Some(operation),
                                    Returned(FailedOutcome(DEMO_FAILURE)));
    }

    method ConfirmPersisted(r: Reply<ActionResult>, id: CycleId, operation: string) returns (out: Reply<ActionResult>)
      ensures Done(store.backing.State(), out) == Confirm(Done(store.backing.State(), r), id, operation)
    {
      if r.Raise? {
        return r;
      }
      var persisted := store.GetCycleResult(id, Some(operation));
      if persisted.Raise? {
        return Raise(persisted.error);
      }
      if persisted.value != Some(r.value) {
        return Raise(RuntimeError);
      }
      return r;
    }

    method RunCycle(taskId: string, callerKey: string, c: Coordinator, now: int, day: string)
      returns (r: Reply<ActionResult>)
      requires store.backing.Valid()
      modifies store.backing
      ensures store.backing.Valid()
      ensures Done(store.backing.State(), r)
           == ServiceSpec.RunCycle(old(store.backing.State()), CycleId(taskId, digest(callerKey)), callerKey, c, now, day)
    {
      if !AcceptedCallerKey(callerKey) {
        return Raise(ValueError);
      }
      var id := CycleId(taskId, digest(callerKey));
      var operation := CanonicalOperation("normal", taskId, id.key);
      var previous := store.GetCycleResult(id, Some(operation));
      if previous.Raise? {
        return Raise(previous.error);
      }
      if previous.value.Some? {
        return Ok(previous.value.value);
      }
      var found := store.GetTask(taskId);
      if found.Raise? {
        return Raise(found.error);
      }
      r := TransactNormal(found.value, id, operation, c, now, day);
      r := ConfirmPersisted(r, id, operation);
    }

    method TripDemoBreaker(taskId: string, callerKey: string, now: int) returns (r: Reply<ActionResult>)
      requires store.backing.Valid()
      modifies store.backing
      ensures store.backing.Valid()
      ensures Done(store.backing.State(), r)
           == ServiceSpec.TripDemoBreaker(old(store.backing.State()), CycleId(taskId, digest(callerKey)), callerKey, now)
    {
      if !AcceptedCallerKey(callerKey) {
        return Raise(ValueError);
      }
      var id := CycleId(taskId, digest(callerKey));
      var operation := CanonicalOperation("breaker", taskId, id.key);
      var previous := store.GetCycleResult(id, Some(operation));
      if previous.Raise? {
        return Raise(previous.error);
      }
      if previous.value.Some? {
        return Ok(previous.value.value);
      }
      var found := store.GetTask(taskId);
      if found.Raise? {
        return Raise(found.error);
      }
      r := TransactBreaker(found.value, id, operation, now);
      r := ConfirmPersisted(r, id, operation);
    }
  }
}
