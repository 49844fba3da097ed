// The in-memory state store: a backing of dictionaries updated in place, and
// the store whose methods do so under its lock. Each method is proved against
// the function of the same name in MemorySpec.

module MemoryStore {
  import opened Results
  import opened Domain
  import opened Policy
  import opened MemorySpec

  class MemoryBacking {
    var tasks: map<string, Task>
    var evidence: map<string, seq<Evidence>>
    var evidenceIds: set<string>
    var cycles: map<CycleId, CycleRecord>
    var batons: map<string, Metadata>
    var actors: map<string, ActorRole>
    var registryVersion: nat
    var modelCalls: map<string, nat>

    // Every stored task has its evidence list.
    ghost predicate Valid()
      reads this
    {
      tasks.Keys == evidence.Keys
    }

    ghost function State(): Backing
      reads this
    {
      Backing(tasks, evidence, evidenceIds, cycles, batons, actors, registryVersion, modelCalls)
    }

    constructor ()
      ensures Valid() && State() == EmptyBacking
    {
      tasks, evidence, evidenceIds, cycles := map[], map[], {}, map[];
      batons, actors, registryVersion, modelCalls := map[], map[], 0, map[];
    }

    // A private backing holding one task, its evidence and a registry.
    constructor Snapshot(task: Task, items: seq<Evidence>, baton: Option<Metadata>,
                         actors: map<string, ActorRole>, registryVersion: nat)
      ensures Valid()
      ensures State() == Backing(map[task.taskId := task], map[task.taskId := items], Ids(items), map[],
                                 if baton.Some? then map[task.taskId := baton.value] else map[],
                                 actors, registryVersion, map[])
    {
      tasks := map[task.taskId := task];
      evidence := map[task.taskId := items];
      evidenceIds := set i | 0 <= i < |items| :: items[i].evidenceId;
      cycles := map[];
      batons := if baton.Some? then map[task.taskId := baton.value] else map[];
      this.actors, this.registryVersion := actors, registryVersion;
      modelCalls := map[];
    }

    // A private backing holding a registry alone.
    constructor Registry(actors: map<string, ActorRole>, registryVersion: nat)
      ensures Valid()
      ensures State() == EmptyBacking.(actors := actors, registryVersion := registryVersion)
    {
      tasks, evidence, evidenceIds, cycles := map[], map[], {}, map[];
      batons, modelCalls := map[], map[];
      this.actors, this.registryVersion := actors, registryVersion;
    }
  }

  class MemoryStateStore {
    const backing: MemoryBacking

    constructor (backing: MemoryBacking)
      ensures this.backing == backing
    {
      this.backing := backing;
    }

    method CreateTask(task: Task) returns (r: Reply<Task>)
      requires backing.Valid()
      modifies backing
      ensures backing.Valid()
      ensures Done(backing.State(), r) == MemorySpec.CreateTask(old(backing.State()), task)
    {
      if task.taskId in backing.tasks {
        return Raise(ValueError);
      }
      if |backing.tasks| >= MAX_TASKS {
        return Raise(ValueError);
      }
      backing.tasks := backing.tasks[task.taskId := task];
      backing.evidence := backing.evidence[task.taskId := []];
      return Ok(task);
    }

    method GetTask(taskId: string) returns (r: Reply<Task>)
      ensures r == if taskId in backing.tasks then Ok(backing.tasks[taskId]) else Raise(KeyError)
    {
      if taskId !in backing.tasks {
        return Raise(KeyError);
      }
      return Ok(backing.tasks[taskId]);
    }

    method AppendEvidence(e: Evidence, expectedVersion: int) returns (r: Reply<Task>)
      requires backing.Valid()
      modifies backing
      ensures backing.Valid()
      ensures Done(backing.State(), r) == MemorySpec.AppendEvidence(old(backing.State()), e, expectedVersion)
    {
      hide ValidEvidence;
      var found := GetTask(e.taskId);
      if found.Raise? {
        return found;
      }
      var task := found.value;
      if task.Terminal() {
        return Raise(ValueError);
      }
      if task.version != expectedVersion {
        return Raise(VersionConflict);
      }
      if !ValidEvidence(e) {
        return Raise(ValueError);
      }
      if e.evidenceId in backing.evidenceIds {
        return Raise(EvidenceConflict);
      }
      var updated := task.(version := task.version + 1);
      backing.evidence := backing.evidence[e.taskId := backing.evidence[e.taskId] + [e]];
      backing.evidenceIds := backing.evidenceIds + {e.evidenceId};
      backing.tasks := backing.tasks[e.taskId := updated];
      return Ok(updated);
    }

    method SetBaton(taskId: string, baton: Metadata, expectedVersion: int) returns (r: Reply<Task>)
      requires backing.Valid()
      modifies backing
      ensures backing.Valid()
      ensures Done(backing.State(), r) == MemorySpec.SetBaton(old(backing.State()), taskId, baton, expectedVersion)
    {
      if !BatonMetadataOnly(baton) {
        return Raise(ValueError);
      }
      var found := GetTask(taskId);
      if found.Raise? {
        return found;
      }
      var task := found.value;
      if task.Terminal() {
        return Raise(ValueError);
      }
      if task.version != expectedVersion {
        return Raise(VersionConflict);
      }
      var updated := task.(version := task.version + 1);
      backing.batons := backing.batons[taskId := baton];
      backing.tasks := backing.tasks[taskId := updated];
      return Ok(updated);
    }

    method GetCycleResult(id: CycleId, operation: Option<string>) returns (r: Reply<Option<ActionResult>>)
      ensures r == MemorySpec.GetCycleResult(backing.State(), id, operation)
    {
      if id in backing.cycles {
        if operation.Some? && backing.cycles[id].operation != operation.value {
          return Raise(IdempotencyConflict);
        }
        return Ok(Some(backing.cycles[id].result));
      }
      return Ok(None);
    }

    // The loop over the evidence of an outcome: stops at the first item that
    // cannot be stored, otherwise returns the items and their identifiers.
    method CollectEvidence(items: seq<Evidence>, taskId: string)
      returns (ok: bool, pendingIds: set<string>, validated: seq<Evidence>)
      ensures ok == EvidenceAdmissible(items, taskId, backing.evidenceIds)
      ensures ok ==> validated == items && pendingIds == Ids(items)
    {
      pendingIds, validated := {}, [];
      for n := 0 to |items|
        invariant validated == items[..n]
        invariant pendingIds == Ids(items[..n])
        invariant EvidenceAdmissible(items[..n], taskId, backing.evidenceIds)
      {
        var item := items[n];
        assert items[..n + 1] == items[..n] + [item];
        AdmissibleSnoc(items[..n], item, taskId, backing.evidenceIds);
        if !EvidenceAdmissible(items[..n + 1], taskId, backing.evidenceIds) {
          AdmissiblePrefix(items, n + 1, taskId, backing.evidenceIds);
        }
        if !ValidEvidence(item) || item.taskId != taskId {
          return false, {}, [];
        }
        if item.evidenceId in backing.evidenceIds || item.evidenceId in pendingIds {
          return false, {}, [];
        }
        pendingIds := pendingIds + {item.evidenceId};
        validated := validated + [item];
      }
      assert items[..|items|] == items;
      return true, pendingIds, validated;
    }

    // The decision inside the try block: what to store for the outcome of the
    // callback, or the code of the failure to record instead.
    method JudgeOutcome(behaviour: Behaviour, admitted: Task, role: ActorRole, intent: Intent)
      returns (v: Verdict, pendingIds: set<string>)
      ensures v == Judge(behaviour, admitted, role, intent, backing.evidenceIds)
      ensures pendingIds == if v.Accepted? then Ids(v.evidence) else {}
    {
      pendingIds := {};
      var classified := Classify(behaviour);
      if classified.None? {
        return Rejected(INVALID_OUTCOME), {};
      }
      var outcome := classified.value;
      if outcome.failureCode.Some? {
        if outcome.evidence != [] || outcome.baton != None {
          return Rejected(INVALID_OUTCOME), {};
        }
        return Rejected(outcome.failureCode.value), {};
      }
      if outcome.target == FAILED {
        return Rejected(INVALID_OUTCOME), {};
      }
      var ok, ids, validated := CollectEvidence(outcome.evidence, admitted.taskId);
      if !ok {
        return Rejected(INVALID_OUTCOME), {};
      }
      if outcome.target == PASSED {
        if role != VERIFIER || intent.action != VerifyTask {
          return Rejected(Code(PassRequiresVerifier)), {};
        }
        var pass := RequirePassEvidence(admitted, validated, intent.actorId);
        if pass.Raise? {
          return Rejected(if pass.error.PolicyDenied? then pass.error.code else INVALID_OUTCOME), {};
        }
      }
      var moved := TransitionTask(admitted, outcome.target);
      if moved.Raise? {
        return Rejected(INVALID_OUTCOME), {};
      }
      return Accepted(moved.value, validated, outcome.baton), ids;
    }

    // The checks made before the callback sees the task.
    method AdmitCycle(intent: Intent) returns (r: Reply<Task>)
      ensures r == Admit(backing.State(), intent)
    {
      var found := GetTask(intent.taskId);
      if found.Raise? {
        return found;
      }
      var task := found.value;
      if task.version != intent.expectedVersion {
        return Raise(VersionConflict);
      }
      if task.Terminal() {
        return Raise(ValueError);
      }
      if task.toolActions >= MAX_TOOL_ACTIONS || task.failedActions >= MAX_FAILED_ACTIONS {
        return Raise(BudgetExhausted);
      }
      var role := GetActorRole(intent.actorId);
      if role.Raise? {
        return Raise(Denied(UnknownActor));
      }
      if RoleAction(role.value) != Some(intent.action) {
        return Raise(Denied(ActorActionMismatch));
      }
      return Ok(AdmittedTask(task, role.value, intent.actorId));
    }

    // The writes that end an admitted cycle, success or failure alike.
    method StoreCycle(intent: Intent, operation: string, admitted: Task, v: Verdict, pendingIds: set<string>)
      returns (result: ActionResult)
      requires backing.Valid() && intent.taskId in backing.tasks
      requires pendingIds == if v.Accepted? then Ids(v.evidence) else {}
      modifies backing
      ensures backing.Valid()
      ensures backing.State() == Commit(old(backing.State()), intent, operation, admitted, v)
      ensures result == VerdictResult(v, admitted)
    {
      if v.Accepted? {
        result := ActionResult(v.task, v.evidence, None);
      } else {
        result := ActionResult(
          admitted.(state := NEEDS_OPERATOR, failedActions := admitted.failedActions + 1), [], Some(v.code));
      }
      backing.tasks := backing.tasks[intent.taskId := result.task];
      backing.evidence := backing.evidence[intent.taskId := backing.evidence[intent.taskId] + result.evidence];
      backing.evidenceIds := backing.evidenceIds + pendingIds;
      if v.Accepted? && v.baton.Some? {
        backing.batons := backing.batons[intent.taskId := v.baton.value];
      }
      backing.cycles :=
        backing.cycles[CycleId(intent.taskId, intent.cycleKey) := CycleRecord(operation, Some(intent), result)];
    }

    method ApplyCycle(intent: Intent, canonicalOperation: Option<string>, behaviour: Behaviour)
      returns (r: Reply<ActionResult>, handed: Option<Task>)
      requires backing.Valid()
      modifies backing
      ensures backing.Valid()
      ensures Applied(backing.State(), r, handed)
           == MemorySpec.ApplyCycle(old(backing.State()), intent, OperationName(canonicalOperation), behaviour)
    {
      handed := None;
      var operation := OperationName(canonicalOperation);
      if !ValidIntent(intent) {
        return Raise(ValueError), None;
      }
      var id := CycleId(intent.taskId, intent.cycleKey);
      if id in backing.cycles {
        var previous := backing.cycles[id];
        if previous.operation != operation {
          return Raise(IdempotencyConflict), None;
        }
        if previous.intent != Some(intent) {
          return Raise(IdempotencyConflict), None;
        }
        return Ok(previous.result), None;
      }
      var admission := AdmitCycle(intent);
      if admission.Raise? {
        return Raise(admission.error), None;
      }
      var admitted := admission.value;
      handed := Some(admitted);
      if behaviour.RaisedInterrupt? {
        return Raise(Interrupted), handed;
      }
      var v, pendingIds := JudgeOutcome(behaviour, admitted, backing.actors[intent.actorId], intent);
      var result := StoreCycle(intent, operation, admitted, v, pendingIds);
      return Ok(result), handed;
    }

    method FailCycle(id: CycleId, canonicalOperation: string, expectedVersion: int, failureCode: string)
      returns (r: Reply<ActionResult>)
      requires backing.Valid()
      modifies backing
      ensures backing.Valid()
      ensures Done(backing.State(), r)
           == MemorySpec.FailCycle(old(backing.State()), id, canonicalOperation, expectedVersion, failureCode)
    {
      if id in backing.cycles {
        if backing.cycles[id].operation != canonicalOperation {
          return Raise(IdempotencyConflict);
        }
        return Ok(backing.cycles[id].result);
      }
      var found := GetTask(id.task);
      if found.Raise? {
        return Raise(found.error);
      }
      var task := found.value;
      if task.version != expectedVersion {
        return Raise(VersionConflict);
      }
      if task.Terminal() {
        return Raise(ValueError);
      }
      var updated := task.(state := NEEDS_OPERATOR, version := task.version + 1);
      if !OpaqueToken(failureCode) {
        return Raise(ValueError);
      }
      var result := ActionResult(updated, [], Some(failureCode));
      backing.tasks := backing.tasks[id.task := updated];
      backing.cycles := backing.cycles[id := CycleRecord(canonicalOperation, None, result)];
      return Ok(result);
    }

    method RegisterActor(actorId: string, role: string, expectedVersion: int) returns (r: Reply<nat>)
      requires backing.Valid()
      modifies backing
      ensures backing.Valid()
      ensures Done(backing.State(), r)
           == MemorySpec.RegisterActor(old(backing.State()), actorId, role, expectedVersion)
    {
      if backing.registryVersion != expectedVersion {
        return Raise(VersionConflict);
      }
      var parsed := ParseRole(role);
      if parsed.None? {
        return Raise(ValueError);
      }
      if actorId in backing.actors {
        if backing.actors[actorId] != parsed.value {
          return Raise(ValueError);
        }
        return Ok(backing.registryVersion);
      }
      backing.actors := backing.actors[actorId := parsed.value];
      backing.registryVersion := backing.registryVersion + 1;
      return Ok(backing.registryVersion);
    }

    // The first pass over the given roles: any conflict with a registered one?
    method FindRoleConflict(actors: map<string, ActorRole>) returns (conflict: bool)
      ensures conflict == !RolesAgree(backing.actors, actors)
    {
      var pending := actors.Keys;
      while pending != {}
        invariant pending <= actors.Keys
        invariant forall a | a in actors && a in backing.actors && a !in pending :: backing.actors[a] == actors[a]
        decreases |pending|
      {
        var a :| a in pending;
        if a in backing.actors && backing.actors[a] != actors[a] {
          return true;
        }
        pending := pending - {a};
      }
      return false;
    }

    method AddIfMissing(actorId: string, role: ActorRole)
      modifies backing`actors, backing`registryVersion
      ensures backing.actors == if actorId in old(backing.actors) then old(backing.actors)
                                else old(backing.actors)[actorId := role]
      ensures backing.registryVersion == old(backing.registryVersion) + (|backing.actors| - |old(backing.actors)|)
    {
      if actorId !in backing.actors {
        backing.actors := backing.actors[actorId := role];
        backing.registryVersion := backing.registryVersion + 1;
      }
    }

    // The second pass: adds the actors that are not yet registered.
    method AddMissingActors(actors: map<string, ActorRole>)
      requires RolesAgree(backing.actors, actors)
      modifies backing`actors, backing`registryVersion
      ensures backing.actors == old(backing.actors) + actors
      ensures backing.registryVersion == old(backing.registryVersion) + (|backing.actors| - |old(backing.actors)|)
    {
      ghost var known := backing.actors;
      var pending := actors.Keys;
      while pending != {}
        invariant pending <= actors.Keys
        invariant Merging(known, actors, pending, backing.actors)
        invariant backing.registryVersion == old(backing.registryVersion) + (|backing.actors| - |known|)
        decreases |pending|
      {
        var a :| a in pending;
        MergeOne(known, actors, pending, backing.actors, a);
        AddIfMissing(a, actors[a]);
        pending := pending - {a};
      }
      Merged(known, actors, backing.actors);
    }

    method InitializeActors(actors: map<string, ActorRole>) returns (r: Reply<nat>)
      requires backing.Valid()
      modifies backing
      ensures backing.Valid()
      ensures Done(backing.State(), r) == MemorySpec.InitializeActors(old(backing.State()), actors)
    {
      var conflict := FindRoleConflict(actors);
      ghost var specified := MemorySpec.InitializeActors(backing.State(), actors);
      if conflict {
        return Raise(ValueError);
      }
      AddMissingActors(actors);
      assert specified.reply.Ok? && specified.reply.value == backing.registryVersion;
      assert backing.State() == old(backing.State()).(actors := backing.actors, registryVersion := backing.registryVersion);
      return Ok(backing.registryVersion);
    }

    method GetActorRole(actorId: string) returns (r: Reply<ActorRole>)
      ensures r == if actorId in backing.actors then Ok(backing.actors[actorId]) else Raise(KeyError)
    {
      if actorId !in backing.actors {
        return Raise(KeyError);
      }
      return Ok(backing.actors[actorId]);
    }

    method ConsumeModelCall(day: string, limit: int) returns (r: Reply<bool>)
      requires backing.Valid()
      modifies backing
      ensures backing.Valid()
      ensures Done(backing.State(), r) == MemorySpec.ConsumeModelCall(old(backing.State()), day, limit)
    {
      if !BudgetArgs(day, limit) {
        return Raise(ValueError);
      }
      var used := if day in backing.modelCalls then backing.modelCalls[day] else 0;
      if used >= limit {
        return Ok(false);
      }
      backing.modelCalls := map[day := used + 1];
      return Ok(true);
    }
  }
}
