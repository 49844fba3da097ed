// The deterministic policy gate: which proposals may act, and which evidence
// supports a PASS.

module Policy {
  import opened Results
  import opened Domain

  const INTENT_MAX_AGE: int := 300 * SECOND
  const MAX_TOOL_ACTIONS: nat := 3
  const MAX_FAILED_ACTIONS: nat := 1

  // A task that still has action budget and is not terminal.
  predicate CanAct(task: Task) {
    task.toolActions < MAX_TOOL_ACTIONS && task.failedActions < MAX_FAILED_ACTIONS && !task.Terminal()
  }

  function RoleAction(role: ActorRole): Option<Action> {
    match role
    case WORKER => Some(RecordProgress)
    case VERIFIER => Some(VerifyTask)
    case COORDINATOR => None
  }

  // The reasons for which the program itself denies a cycle.
  datatype Denial =
    | Malformed | CycleKeyMismatch | StaleIntent | TaskMismatch
    | ActorActionMismatch | StaleVersion | ExcessSteps | BudgetSpent
    | TerminalTask | UnknownActor | PassRequiresVerifier | MissingWorker
    | VerifierNotDistinct | MissingEvidence
    | ModelUnavailable | ModelOutputInvalid | FallbackInvalid

  function Code(d: Denial): string {
    match d
    case Malformed => "malformed"
    case CycleKeyMismatch => "cycle_key_mismatch"
    case StaleIntent => "stale_intent"
    case TaskMismatch => "task_mismatch"
    case ActorActionMismatch => "actor_action_mismatch"
    case StaleVersion => "stale_version"
    case ExcessSteps => "excess_steps"
    case BudgetSpent => "budget_exhausted"
    case TerminalTask => "terminal_task"
    case UnknownActor => "unknown_actor"
    case PassRequiresVerifier => "pass_requires_verifier"
    case MissingWorker => "missing_worker"
    case VerifierNotDistinct => "verifier_not_distinct"
    case MissingEvidence => "missing_evidence"
    case ModelUnavailable => "model_unavailable"
    case ModelOutputInvalid => "model_output_invalid"
    case FallbackInvalid => "fallback_invalid"
  }

  function Denied(d: Denial): Error {
    PolicyDenied(Code(d))
  }

  // Every denial code the program uses can be stored as a failure code.
  lemma CodesAreTokens(d: Denial)
    ensures OpaqueToken(Code(d))
  {
    match d {
      case Malformed => MalformedIsToken();
      case CycleKeyMismatch => CycleKeyMismatchIsToken();
      case StaleIntent => StaleIntentIsToken();
      case TaskMismatch => TaskMismatchIsToken();
      case ActorActionMismatch => ActorActionMismatchIsToken();
      case StaleVersion => StaleVersionIsToken();
      case ExcessSteps => ExcessStepsIsToken();
      case BudgetSpent => BudgetSpentIsToken();
      case TerminalTask => TerminalTaskIsToken();
      case UnknownActor => UnknownActorIsToken();
      case PassRequiresVerifier => PassRequiresVerifierIsToken();
      case MissingWorker => MissingWorkerIsToken();
      case VerifierNotDistinct => VerifierNotDistinctIsToken();
      case MissingEvidence => MissingEvidenceIsToken();
      case ModelUnavailable => ModelUnavailableIsToken();
      case ModelOutputInvalid => ModelOutputInvalidIsToken();
      case FallbackInvalid => FallbackInvalidIsToken();
    }
  }

  lemma MalformedIsToken() ensures OpaqueToken("malformed") {}
  lemma CycleKeyMismatchIsToken() ensures OpaqueToken("cycle_key_mismatch") {}
  lemma StaleIntentIsToken() ensures OpaqueToken("stale_intent") {}
  lemma TaskMismatchIsToken() ensures OpaqueToken("task_mismatch") {}
  lemma ActorActionMismatchIsToken() ensures OpaqueToken("actor_action_mismatch") {}
  lemma StaleVersionIsToken() ensures OpaqueToken("stale_version") {}
  lemma ExcessStepsIsToken() ensures OpaqueToken("excess_steps") {}
  lemma BudgetSpentIsToken() ensures OpaqueToken("budget_exhausted") {}
  lemma TerminalTaskIsToken() ensures OpaqueToken("terminal_task") {}
  lemma UnknownActorIsToken() ensures OpaqueToken("unknown_actor") {}
  lemma PassRequiresVerifierIsToken() ensures OpaqueToken("pass_requires_verifier") {}
  lemma MissingWorkerIsToken() ensures OpaqueToken("missing_worker") {}
  lemma VerifierNotDistinctIsToken() ensures OpaqueToken("verifier_not_distinct") {}
  lemma MissingEvidenceIsToken() ensures OpaqueToken("missing_evidence") {}
  lemma ModelUnavailableIsToken() ensures OpaqueToken("model_unavailable") {}
  lemma ModelOutputInvalidIsToken() ensures OpaqueToken("model_output_invalid") {}
  lemma FallbackInvalidIsToken() ensures OpaqueToken("fallback_invalid") {}

  // No two reasons share a code.
  lemma CodesDistinct(d: Denial, e: Denial)
    requires Code(d) == Code(e)
    ensures d == e
  {
  }

  // The actor_id entry of an untrusted mapping: a str, a value that is not a
  // str but that validation turns into one, or something validation rejects.
  datatype RawActor = ActorText(text: string) | ActorCoerced(coerced: string) | ActorUnusable

  // The other entries are None when absent or rejected by validation.
  datatype RawIntent = RawIntent(
    taskId: Option<string>,
    cycleKey: Option<string>,
    actor: RawActor,
    action: Option<Action>,
    expectedVersion: Option<int>,
    issuedAt: Option<int>,
    payload: Option<Metadata>,
    extraKeys: bool)

  // Whatever a coordinator returns: a dict, another mapping, an Intent, or none
  // of these.
  datatype Proposal =
    | Mapping(raw: RawIntent)
    | MappingObject(raw: RawIntent)
    | IntentObject(intent: Intent)
    | Unrecognised

  predicate IsMapping(p: Proposal) {
    p.Mapping? || p.MappingObject?
  }

  // The mapping has exactly the entries of the intent, each as it validates.
  predicate Carries(m: RawIntent, i: Intent) {
    && m.taskId == Some(i.taskId) && m.cycleKey == Some(i.cycleKey)
    && (m.actor == ActorText(i.actorId) || m.actor == ActorCoerced(i.actorId))
    && m.action == Some(i.action) && m.expectedVersion == Some(i.expectedVersion)
    && m.issuedAt == Some(i.issuedAt) && m.payload == Some(i.payload) && !m.extraKeys
  }

  function ParseProposal(p: Proposal): (r: Option<Intent>)
    ensures r.Some? ==> ValidIntent(r.value)
    ensures p.IntentObject? ==> (r.Some? <==> ValidIntent(p.intent)) && (r.Some? ==> r.value == p.intent)
    ensures IsMapping(p) && r.Some? ==> Carries(p.raw, r.value)
    ensures IsMapping(p) ==> forall i | ValidIntent(i) && Carries(p.raw, i) :: r == Some(i)
    ensures p.Unrecognised? ==> r == None
  {
    match p
    case Unrecognised => None
    case IntentObject(i) => if ValidIntent(i) then Some(i) else None
    case _ =>
      var m := p.raw;
      if m.taskId.Some? && m.cycleKey.Some? && !m.actor.ActorUnusable? && m.action.Some?
         && m.expectedVersion.Some? && m.issuedAt.Some? && m.payload.Some? && !m.extraKeys then
        var actor := if m.actor.ActorText? then m.actor.text else m.actor.coerced;
        var i := Intent(m.taskId.value, m.cycleKey.value, actor, m.action.value,
                        m.expectedVersion.value, m.issuedAt.value, m.payload.value);
        if ValidIntent(i) then Some(i) else None
      else
        None
  }

  function StepCount(payload: Metadata): nat {
    if "steps" in payload && payload["steps"].Items? then |payload["steps"].items| else 0
  }

  // Why the gate denies a parsed intent, if it does.
  function DenialOf(i: Intent, task: Task, role: ActorRole, now: int, cycleKey: Option<string>): Option<Denial> {
    var age := now - i.issuedAt;
    if cycleKey.Some? && i.cycleKey != cycleKey.value then Some(CycleKeyMismatch)
    else if age >= INTENT_MAX_AGE || age < 0 then Some(StaleIntent)
    else if i.taskId != task.taskId then Some(TaskMismatch)
    else if RoleAction(role) != Some(i.action) then Some(ActorActionMismatch)
    else if i.expectedVersion != task.version then Some(StaleVersion)
    else if StepCount(i.payload) > 1 then Some(ExcessSteps)
    else if task.toolActions >= MAX_TOOL_ACTIONS || task.failedActions >= MAX_FAILED_ACTIONS then Some(BudgetSpent)
    else if task.Terminal() then Some(TerminalTask)
    else None
  }

  function AuthorizeIntent(p: Proposal, task: Task, role: ActorRole, now: int, cycleKey: Option<string>)
    : (r: Reply<Intent>)
    ensures r.Raise? ==> exists d :: r.error == Denied(d)
  {
    match ParseProposal(p)
    case None => Raise(Denied(Malformed))
    case Some(i) =>
      match DenialOf(i, task, role, now, cycleKey)
      case Some(d) => Raise(Denied(d))
      case None => Ok(i)
  }

  // The rules a parsed intent must keep, in the order in which they are enforced.
  const GATE_RULES := [CycleKeyMismatch, StaleIntent, TaskMismatch, ActorActionMismatch, StaleVersion, ExcessSteps,
                       BudgetSpent, TerminalTask]

  predicate Breaks(d: Denial, i: Intent, task: Task, role: ActorRole, now: int, cycleKey: Option<string>) {
    match d
    case CycleKeyMismatch => cycleKey.Some? && i.cycleKey != cycleKey.value
    case StaleIntent => !(now - 300 * SECOND < i.issuedAt <= now)
    case TaskMismatch => i.taskId != task.taskId
    case ActorActionMismatch =>
      !(role == WORKER && i.action == RecordProgress) && !(role == VERIFIER && i.action == VerifyTask)
    case StaleVersion => i.expectedVersion != task.version
    case ExcessSteps => StepCount(i.payload) > 1
    case BudgetSpent => task.toolActions >= 3 || task.failedActions >= 1
    case TerminalTask => task.state == PASSED || task.state == FAILED
    case _ => false
  }

  ghost predicate FirstBroken(n: nat, i: Intent, task: Task, role: ActorRole, now: int, cycleKey: Option<string>)
    requires n <= |GATE_RULES|
  {
    && (n < |GATE_RULES| ==> Breaks(GATE_RULES[n], i, task, role, now, cycleKey))
    && forall m | 0 <= m < n :: !Breaks(GATE_RULES[m], i, task, role, now, cycleKey)
  }

  lemma DenialIsFirstBroken(i: Intent, task: Task, role: ActorRole, now: int, cycleKey: Option<string>)
    returns (n: nat)
    ensures n <= |GATE_RULES| && FirstBroken(n, i, task, role, now, cycleKey)
    ensures DenialOf(i, task, role, now, cycleKey) == if n < |GATE_RULES| then Some(GATE_RULES[n]) else None
  {
    n := 0;
    while n < |GATE_RULES| && !Breaks(GATE_RULES[n], i, task, role, now, cycleKey)
      invariant n <= |GATE_RULES|
      invariant forall m | 0 <= m < n :: !Breaks(GATE_RULES[m], i, task, role, now, cycleKey)
      invariant n <= 0 || !Breaks(CycleKeyMismatch, i, task, role, now, cycleKey)
      invariant n <= 1 || !Breaks(StaleIntent, i, task, role, now, cycleKey)
      invariant n <= 2 || !Breaks(TaskMismatch, i, task, role, now, cycleKey)
      invariant n <= 3 || !Breaks(ActorActionMismatch, i, task, role, now, cycleKey)
      invariant n <= 4 || !Breaks(StaleVersion, i, task, role, now, cycleKey)
      invariant n <= 5 || !Breaks(ExcessSteps, i, task, role, now, cycleKey)
      invariant n <= 6 || !Breaks(BudgetSpent, i, task, role, now, cycleKey)
      invariant n <= 7 || !Breaks(TerminalTask, i, task, role, now, cycleKey)
    {
      n := n + 1;
    }
  }

  // The gate accepts an intent that parses and keeps every rule, and otherwise
  // denies it under the name of the first rule broken.
  lemma GateNamesFirstBrokenRule(p: Proposal, task: Task, role: ActorRole, now: int, cycleKey: Option<string>, n: nat)
    requires n <= |GATE_RULES|
    ensures var i, r := ParseProposal(p), AuthorizeIntent(p, task, role, now, cycleKey);
      if i.None? then r == Raise(Denied(Malformed))
      else
        FirstBroken(n, i.value, task, role, now, cycleKey) <==>
          r == if n < |GATE_RULES| then Raise(Denied(GATE_RULES[n])) else Ok(i.value)
  {
    hide Breaks, Code, Denied, ParseProposal, FirstBroken, GATE_RULES;
    var i := ParseProposal(p);
    if i.Some? {
      FirstBrokenIff(i.value, task, role, now, cycleKey, n);
      var d := DenialOf(i.value, task, role, now, cycleKey);
      if d.Some? && n < |GATE_RULES| && Denied(d.value) == Denied(GATE_RULES[n]) {
        DenialsDistinct(d.value, GATE_RULES[n]);
      }
    }
  }

  lemma FirstBrokenIff(i: Intent, task: Task, role: ActorRole, now: int, cycleKey: Option<string>, n: nat)
    requires n <= |GATE_RULES|
    ensures FirstBroken(n, i, task, role, now, cycleKey) <==>
            DenialOf(i, task, role, now, cycleKey) == if n < |GATE_RULES| then Some(GATE_RULES[n]) else None
  {
    hide Breaks, DenialOf;
    var first := DenialIsFirstBroken(i, task, role, now, cycleKey);
    assert forall k, m | 0 <= k < m < |GATE_RULES| :: GATE_RULES[k] != GATE_RULES[m];
  }

  lemma DenialsDistinct(d: Denial, e: Denial)
    requires Denied(d) == Denied(e)
    ensures d == e
  {
  }

  // An item that speaks for the verifier about this task.
  predicate SpeaksFor(e: Evidence, taskId: string, verifierId: string) {
    e.taskId == taskId && e.actorId == verifierId && e.kind == "verification"
  }

  predicate VerifiesCheck(e: Evidence, taskId: string, verifierId: string, check: string) {
    SpeaksFor(e, taskId, verifierId) && e.Says("verified") && e.checkId == check
  }

  predicate NoContraryEvidence(task: Task, evidence: seq<Evidence>, verifierId: string) {
    forall i | 0 <= i < |evidence| ::
      SpeaksFor(evidence[i], task.taskId, verifierId) ==> evidence[i].Says("verified")
  }

  predicate CheckCovered(task: Task, evidence: seq<Evidence>, verifierId: string, check: string) {
    exists i | 0 <= i < |evidence| :: VerifiesCheck(evidence[i], task.taskId, verifierId, check)
  }

  predicate AllChecksCovered(task: Task, evidence: seq<Evidence>, verifierId: string) {
    forall c | c in task.requiredChecks :: CheckCovered(task, evidence, verifierId, c)
  }

  // The PASS gate as a specification: the answer of RequirePassEvidence.
  function PassGate(task: Task, evidence: seq<Evidence>, verifierId: string): (r: Reply<()>)
    ensures r.Raise? ==> r.error == ValueError || exists d :: r.error == Denied(d)
  {
    if task.worker == None then Raise(Denied(MissingWorker))
    else if task.worker == Some(verifierId) then Raise(Denied(VerifierNotDistinct))
    else if !NoContraryEvidence(task, evidence, verifierId) then Raise(ValueError)
    else if !AllChecksCovered(task, evidence, verifierId) then Raise(Denied(MissingEvidence))
    else Ok(())
  }

  // The gate in terms of the stored fields alone.
  lemma PassGateMeans(task: Task, evidence: seq<Evidence>, verifierId: string)
    ensures NoContraryEvidence(task, evidence, verifierId) <==>
      forall e | e in evidence && e.taskId == task.taskId && e.actorId == verifierId && e.kind == "verification" ::
        "status" in e.reference && e.reference["status"] == Text("verified")
    ensures AllChecksCovered(task, evidence, verifierId) <==>
      forall c | c in task.requiredChecks ::
        exists e :: e in evidence && e.taskId == task.taskId && e.actorId == verifierId && e.kind == "verification"
                    && "status" in e.reference && e.reference["status"] == Text("verified") && e.checkId == c
  {
    forall c | c in task.requiredChecks
      ensures CheckCovered(task, evidence, verifierId, c) <==>
        exists e :: e in evidence && e.taskId == task.taskId && e.actorId == verifierId && e.kind == "verification"
                    && "status" in e.reference && e.reference["status"] == Text("verified") && e.checkId == c
    {
      if CheckCovered(task, evidence, verifierId, c) {
        var i :| 0 <= i < |evidence| && VerifiesCheck(evidence[i], task.taskId, verifierId, c);
        assert evidence[i] in evidence;
      }
      if e :| e in evidence && e.taskId == task.taskId && e.actorId == verifierId && e.kind == "verification"
              && "status" in e.reference && e.reference["status"] == Text("verified") && e.checkId == c {
        var i :| 0 <= i < |evidence| && evidence[i] == e;
        assert VerifiesCheck(evidence[i], task.taskId, verifierId, c);
      }
    }
  }

  // One pass over the evidence, collecting the checks it verifies.
  method RequirePassEvidence(task: Task, evidence: seq<Evidence>, verifierId: string) returns (r: Reply<()>)
    ensures r == PassGate(task, evidence, verifierId)
    ensures r.Ok? <==>
      && task.worker.Some? && task.worker.value != verifierId
      && (forall e | e in evidence && e.taskId == task.taskId && e.actorId == verifierId && e.kind == "verification" ::
            "status" in e.reference && e.reference["status"] == Text("verified"))
      && (forall c | c in task.requiredChecks ::
            exists e :: e in evidence && e.taskId == task.taskId && e.actorId == verifierId && e.kind == "verification"
                        && "status" in e.reference && e.reference["status"] == Text("verified") && e.checkId == c)
    ensures r.Raise? ==>
      r.error == if task.worker.None? then PolicyDenied("missing_worker")
                 else if task.worker.value == verifierId then PolicyDenied("verifier_not_distinct")
                 else if exists e :: e in evidence && SpeaksFor(e, task.taskId, verifierId) && !e.Says("verified")
                 then ValueError
                 else PolicyDenied("missing_evidence")
  {
    PassGateMeans(task, evidence, verifierId);
    if task.worker == None {
      return Raise(Denied(MissingWorker));
    }
    if Some(verifierId) == task.worker {
      return Raise(Denied(VerifierNotDistinct));
    }
    var verifiedChecks: set<string> := {};
    for n := 0 to |evidence|
      invariant NoContraryEvidence(task, evidence[..n], verifierId)
      invariant forall c :: c in verifiedChecks <==> CheckCovered(task, evidence[..n], verifierId, c)
    {
      var item := evidence[n];
      assert evidence[..n + 1] == evidence[..n] + [item];
      if !SpeaksFor(item, task.taskId, verifierId) {
        ExtendCoverage(task, evidence[..n], item, verifierId);
        continue;
      }
      if item.TypedVerificationStatus() != Ok(Verified) {
        assert !NoContraryEvidence(task, evidence, verifierId);
        return Raise(ValueError);
      }
      ExtendCoverage(task, evidence[..n], item, verifierId);
      verifiedChecks := verifiedChecks + {item.checkId};
    }
    assert evidence[..|evidence|] == evidence;
    var missing := (set c | c in task.requiredChecks) - verifiedChecks;
    if missing != {} {
      var c :| c in missing;
      assert c in task.requiredChecks && !CheckCovered(task, evidence, verifierId, c);
      return Raise(Denied(MissingEvidence));
    }
    forall c | c in task.requiredChecks ensures CheckCovered(task, evidence, verifierId, c) {
      assert c !in missing;
    }
    return Ok(());
  }

  lemma ExtendCoverage(task: Task, before: seq<Evidence>, item: Evidence, verifierId: string)
    ensures forall c :: CheckCovered(task, before + [item], verifierId, c)
                   <==> CheckCovered(task, before, verifierId, c) || VerifiesCheck(item, task.taskId, verifierId, c)
  {
    var after := before + [item];
    forall c
      ensures CheckCovered(task, after, verifierId, c)
         <==> CheckCovered(task, before, verifierId, c) || VerifiesCheck(item, task.taskId, verifierId, c)
    {
      if CheckCovered(task, before, verifierId, c) {
        var i :| 0 <= i < |before| && VerifiesCheck(before[i], task.taskId, verifierId, c);
        assert after[i] == before[i];
      }
      if VerifiesCheck(item, task.taskId, verifierId, c) {
        assert after[|before|] == item;
      }
      if CheckCovered(task, after, verifierId, c) {
        var i :| 0 <= i < |after| && VerifiesCheck(after[i], task.taskId, verifierId, c);
        assert i < |before| ==> before[i] == after[i];
      }
    }
  }
}
