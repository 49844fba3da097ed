// The vocabulary of a bounded agent cycle: tasks, intents, evidence, metadata
// and the legal state transitions.

module Results {
  datatype Option<+T> = None | Some(value: T)

  // One constructor per exception class that the program raises.
  datatype Error =
    | VersionConflict
    | IdempotencyConflict
    | EvidenceConflict
    | BudgetExhausted
    | PolicyDenied(code: string)
    | ValueError
    | KeyError
    | RuntimeError
    | PermissionError
    | Interrupted // a BaseException, which no handler of the store swallows

  // What a call gives back: a value, or the exception it raised.
  datatype Reply<+T> = Ok(value: T) | Raise(error: Error)
}

module Domain {
  import opened Results

  // Timestamps are UTC instants counted in microseconds.
  const SECOND: int := 1_000_000

  const MAX_METADATA_STEPS: nat := 8
  const MAX_METADATA_TOKEN_LENGTH: nat := 128
  const METADATA_STATUS_VALUES := {"ok", "recorded", "verified", "failed"}
  const INTENT_METADATA_KEYS :=
    {"failure_code", "status", "steps", "summary_ref", "verification_run_id"}
  const EVIDENCE_METADATA_KEYS :=
    {"artifact_id", "cycle_key", "failure_code", "status", "summary_ref", "verification_run_ref"}
  const EVIDENCE_KIND_VALUES := {"check_result", "progress", "verification"}
  const BATON_METADATA_KEYS := {"last_cycle_key", "next_step", "steps"}

  datatype TaskState = QUEUED | RUNNING | NEEDS_OPERATOR | PASSED | FAILED
  datatype ActorRole = COORDINATOR | WORKER | VERIFIER
  datatype Action = RecordProgress | VerifyTask
  datatype Origin = LocalApi | External
  datatype VerificationStatus = Verified | NotVerified

  // An untrusted JSON-like value below a metadata key.
  datatype MetaValue = Text(text: string) | Items(items: seq<MetaValue>) | Other
  type Metadata = map<string, MetaValue>

  predicate IsSpace(c: char) {
    var n := c as int;
    || 0x09 <= n <= 0x0D || 0x1C <= n <= 0x20 || n == 0x85 || n == 0xA0 || n == 0x1680
    || 0x2000 <= n <= 0x200A || n == 0x2028 || n == 0x2029 || n == 0x202F || n == 0x205F || n == 0x3000
  }

  predicate Blank(s: string) {
    forall i | 0 <= i < |s| :: IsSpace(s[i])
  }

  predicate TokenHead(c: char) {
    'A' <= c <= 'Z' || 'a' <= c <= 'z' || '0' <= c <= '9'
  }

  predicate TokenTail(c: char) {
    TokenHead(c) || c == '.' || c == '_' || c == '-'
  }

  predicate OpaqueToken(s: string) {
    && 1 <= |s| <= MAX_METADATA_TOKEN_LENGTH
    && TokenHead(s[0])
    && forall i | 1 <= i < |s| :: TokenTail(s[i])
  }

  predicate OpaqueText(v: MetaValue) {
    v.Text? && OpaqueToken(v.text)
  }

  predicate FieldAllowed(key: string, v: MetaValue) {
    if key == "status" then
      v.Text? && v.text in METADATA_STATUS_VALUES
    else if key == "steps" then
      v.Items? && |v.items| <= MAX_METADATA_STEPS && forall i | 0 <= i < |v.items| :: OpaqueText(v.items[i])
    else
      OpaqueText(v)
  }

  predicate FieldSpecificMetadata(m: Metadata, allowedKeys: set<string>) {
    && |m| <= |allowedKeys|
    && forall k | k in m :: k in allowedKeys && FieldAllowed(k, m[k])
  }

  lemma CardinalitySubset(a: set<string>, b: set<string>)
    requires a <= b
    ensures |a| <= |b|
  {
    assert b == a + (b - a);
  }

  predicate BatonMetadataOnly(m: Metadata) {
    FieldSpecificMetadata(m, BATON_METADATA_KEYS)
  }

  // Every string that a metadata value can carry, whatever its nesting.
  ghost predicate Leaf(v: MetaValue, s: string) {
    match v
    case Text(t) => s == t
    case Items(xs) => exists i | 0 <= i < |xs| :: Leaf(xs[i], s)
    case Other => false
  }

  // Accepted metadata carries no prose: each leaf is one bounded opaque token,
  // and there are at most eight of them below any key.
  lemma MetadataCarriesOnlyTokens(m: Metadata, allowedKeys: set<string>, k: string, s: string)
    requires FieldSpecificMetadata(m, allowedKeys)
    requires k in m && Leaf(m[k], s)
    ensures k in allowedKeys && OpaqueToken(s)
    ensures m[k].Text? || (k == "steps" && |m[k].items| <= MAX_METADATA_STEPS)
  {
  }

  datatype Task = Task(
    taskId: string,
    title: string,
    requiredChecks: seq<string>,
    origin: Origin,
    state: TaskState,
    version: nat,
    toolActions: nat,
    failedActions: nat,
    worker: Option<string>)
  {
    predicate Terminal() {
      state == PASSED || state == FAILED
    }

    // The identity a task is created with; no operation ever rewrites it.
    predicate SameIdentity(other: Task) {
      && taskId == other.taskId && title == other.title
      && requiredChecks == other.requiredChecks && origin == other.origin
    }
  }

  predicate Unique(xs: seq<string>) {
    forall i, j | 0 <= i < j < |xs| :: xs[i] != xs[j]
  }

  predicate ValidTaskFields(taskId: string, title: string, requiredChecks: seq<string>) {
    && !Blank(taskId) && !Blank(title) && requiredChecks != []
    && (forall i | 0 <= i < |requiredChecks| :: !Blank(requiredChecks[i]))
    && Unique(requiredChecks)
  }

  function NewTask(taskId: string, title: string, requiredChecks: seq<string>, origin: Origin): (r: Reply<Task>)
    ensures r.Ok? <==> ValidTaskFields(taskId, title, requiredChecks)
    ensures r.Ok? ==> Fresh(r.value) && r.value.taskId == taskId && r.value.title == title
                      && r.value.requiredChecks == requiredChecks && r.value.origin == origin
  {
    if ValidTaskFields(taskId, title, requiredChecks) then
      Ok(Task(taskId, title, requiredChecks, origin, QUEUED, 0, 0, 0, None))
    else
      Raise(ValueError)
  }

  predicate Fresh(t: Task) {
    && t.state == QUEUED && t.version == 0 && t.toolActions == 0 && t.failedActions == 0
    && t.worker == None
    && ValidTaskFields(t.taskId, t.title, t.requiredChecks)
  }

  datatype Intent = Intent(
    taskId: string,
    cycleKey: string,
    actorId: string,
    action: Action,
    expectedVersion: int,
    issuedAt: int,
    payload: Metadata)

  predicate ValidIntent(i: Intent) {
    && !Blank(i.taskId) && !Blank(i.cycleKey) && !Blank(i.actorId)
    && 0 <= i.expectedVersion
    && FieldSpecificMetadata(i.payload, INTENT_METADATA_KEYS)
  }

  datatype Evidence = Evidence(
    evidenceId: string,
    taskId: string,
    checkId: string,
    actorId: string,
    kind: string,
    reference: Metadata,
    createdAt: int)
  {
    // The reference carries exactly this text as its status.
    predicate Says(status: string) {
      "status" in reference && reference["status"] == Text(status)
    }

    function TypedVerificationStatus(): (r: Reply<VerificationStatus>)
      ensures r == Ok(Verified) <==> Says("verified")
      ensures r == Ok(NotVerified) <==> Says("failed")
      ensures r.Raise? ==> r.error == ValueError
    {
      if "status" !in reference || !reference["status"].Text? then Raise(ValueError)
      else if reference["status"].text == "verified" then Ok(Verified)
      else if reference["status"].text == "failed" then Ok(NotVerified)
      else Raise(ValueError)
    }
  }

  predicate ValidEvidence(e: Evidence) {
    && OpaqueToken(e.evidenceId) && OpaqueToken(e.taskId) && OpaqueToken(e.checkId) && OpaqueToken(e.actorId)
    && e.kind in EVIDENCE_KIND_VALUES
    && FieldSpecificMetadata(e.reference, EVIDENCE_METADATA_KEYS)
  }

  datatype ActionResult = ActionResult(task: Task, evidence: seq<Evidence>, failureCode: Option<string>)

  function LegalTargets(s: TaskState): set<TaskState> {
    match s
    case QUEUED => {RUNNING, NEEDS_OPERATOR, FAILED}
    case RUNNING => {RUNNING, NEEDS_OPERATOR, PASSED, FAILED}
    case NEEDS_OPERATOR => {RUNNING, FAILED}
    case PASSED => {}
    case FAILED => {}
  }

  // The edges of the table, one by one.
  predicate Edge(before: TaskState, after: TaskState) {
    || (before == QUEUED && (after == RUNNING || after == NEEDS_OPERATOR || after == FAILED))
    || (before == RUNNING && (after == RUNNING || after == NEEDS_OPERATOR || after == PASSED || after == FAILED))
    || (before == NEEDS_OPERATOR && (after == RUNNING || after == FAILED))
  }

  function TransitionTask(t: Task, target: TaskState): (r: Reply<Task>)
    ensures r.Ok? <==> Edge(t.state, target)
    ensures r.Ok? ==> !t.Terminal() && r.value.SameIdentity(t) && r.value.state == target
    ensures r.Ok? ==> r.value.version == t.version && r.value.worker == t.worker
                      && r.value.toolActions == t.toolActions && r.value.failedActions == t.failedActions
  {
    if t.Terminal() then Raise(ValueError)
    else if target !in LegalTargets(t.state) then Raise(ValueError)
    else Ok(t.(state := target))
  }

  // A stored state may stay as it is or follow one edge of the table.
  predicate LegalMove(before: TaskState, after: TaskState) {
    after == before || Edge(before, after)
  }
}
