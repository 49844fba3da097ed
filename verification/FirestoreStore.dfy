// The Firestore store in its own form: shared documents written in place, one
// method per transaction, and the call that strings the transactions together.
// Each method is proved against the functions of FirestoreSpec, and the whole
// call against the step system of Protocol.

module FirestoreStore {
  import opened Results
  import opened Domain
  import opened MemorySpec
  import opened MemoryStore
  import opened MemoryRuns
  import opened FirestoreSpec
  import opened Protocol
  import opened ProtocolInvariant
  import opened ProtocolSafety
  import opened ProtocolSteps
  import opened Refinement
  import opened FirestoreTheorems
  import opened Progress
  import opened FirestoreContracts
  import opened Budget

  class DocumentCollection {
    var tasks: map<string, TaskDoc>
    var cycles: map<CycleId, CycleDoc>
    var markers: map<string, string>
    var actors: map<string, ActorRole>
    var registryVersion: nat
    var created: nat
    var modelBudget: Option<BudgetDoc>

    ghost function State(): Db
      reads this
    {
      Db(tasks, cycles, markers, actors, registryVersion, created)
    }

    constructor ()
      ensures State() == EmptyDb && modelBudget == None
    {
      tasks, cycles, markers, actors := map[], map[], map[], map[];
      registryVersion, created, modelBudget := 0, 0, None;
    }
  }

  lemma MarkOne(markers: map<string, string>, ids: set<string>, e: string, t: string)
    ensures MarkAll(markers, ids + {e}, t) == MarkAll(markers, ids, t)[e := t]
  {
  }

  lemma MarkNone(markers: map<string, string>, t: string)
    ensures MarkAll(markers, {}, t) == markers
  {
  }

  // The steps of apply_cycle under a held claim, up to its finalization.
  function ApplyBodyEvents(c: nat, incoming: Intent, behaviour: Behaviour): seq<Event> {
    [StartApply(c, incoming), BindIntent(c), ReadTask(c), Execute(c, behaviour)]
  }

  lemma ReadCommitsIff(s: System, c: nat, txn: Txn, bound: Option<Intent>, intent: Intent, behaviour: Behaviour, at: int)
    requires At(s, c) && s.clients[c] == Bound(txn, bound, intent)
    ensures var t := txn.id.task;
      Commits(Execution(s, [ReadTask(c), Execute(c, behaviour)]), c, at) <==>
        && t in s.db.tasks
        && var work := ApplyWork(intent, behaviour, s.db.tasks[t], s.db.actors, s.db.registryVersion);
           Prepare(txn, work).Ok? && Finalize(s.db, txn, Prepare(txn, work).value, at).reply.Ok?
  {
    hide Prepare, Finalize, Execution, Commits;
    if txn.id.task in s.db.tasks {
      var work := ApplyWork(intent, behaviour, s.db.tasks[txn.id.task], s.db.actors, s.db.registryVersion);
      ReadAndExecute(s, c, txn, bound, intent, behaviour);
      ComputedCommits(s, c, txn, bound, work, at);
    } else {
      ReadStuck(s, c, txn, bound, intent, behaviour, at);
    }
  }

  lemma ReadStuck(s: System, c: nat, txn: Txn, bound: Option<Intent>, intent: Intent, behaviour: Behaviour, at: int)
    requires At(s, c) && s.clients[c] == Bound(txn, bound, intent) && txn.id.task !in s.db.tasks
    ensures !Commits(Execution(s, [ReadTask(c), Execute(c, behaviour)]), c, at)
  {
    hide Prepare, Finalize;
    ExecutionConcat(s, [ReadTask(c)], [Execute(c, behaviour)]);
    assert [ReadTask(c)] + [Execute(c, behaviour)] == [ReadTask(c), Execute(c, behaviour)];
    ExecutionOne(s, ReadTask(c));
    ExecutionOne(Next(s, ReadTask(c)), Execute(c, behaviour));
  }

  lemma NotBoundCommitsNothing(s: System, c: nat, txn: Txn, bound: Option<Intent>, behaviour: Behaviour, at: int)
    ensures !Commits(Execution(With(s, c, InBody(txn, bound)), [ReadTask(c), Execute(c, behaviour)]), c, at)
  {
    hide Prepare, Finalize;
    var inside := With(s, c, InBody(txn, bound));
    ExecutionConcat(inside, [ReadTask(c)], [Execute(c, behaviour)]);
    assert [ReadTask(c)] + [Execute(c, behaviour)] == [ReadTask(c), Execute(c, behaviour)];
    ExecutionOne(inside, ReadTask(c));
    ExecutionOne(Next(inside, ReadTask(c)), Execute(c, behaviour));
  }

  // apply_cycle goes nowhere on an invalid intent or on a cycle that another
  // call has finalized with another intent.
  lemma ApplyStuck(s: System, c: nat, txn: Txn, bound: Option<Intent>, incoming: Intent, behaviour: Behaviour, at: int)
    requires At(s, c) && s.clients[c] == InBody(txn, bound)
    ensures !ValidIntent(incoming) || ChosenIntent(txn, bound, incoming).None?
            || (txn.id in s.db.cycles && s.db.cycles[txn.id].Finalized? && s.db.cycles[txn.id].intent != Some(incoming))
            ==> !Commits(Execution(s, ApplyBodyEvents(c, incoming, behaviour)), c, at)
  {
    hide Prepare, Finalize, ValidIntent, Commits, Execution;
    FourSteps(s, StartApply(c, incoming), BindIntent(c), ReadTask(c), Execute(c, behaviour));
    WithSame(s, c);
    NotBoundCommitsNothing(s, c, txn, bound, behaviour, at);
    ExecutionConcat(s, [StartApply(c, incoming), BindIntent(c)], [ReadTask(c), Execute(c, behaviour)]);
    assert [StartApply(c, incoming), BindIntent(c)] + [ReadTask(c), Execute(c, behaviour)]
        == ApplyBodyEvents(c, incoming, behaviour);
    ExecutionConcat(s, [StartApply(c, incoming)], [BindIntent(c)]);
    assert [StartApply(c, incoming)] + [BindIntent(c)] == [StartApply(c, incoming), BindIntent(c)];
    ExecutionOne(s, StartApply(c, incoming));
    ExecutionOne(Next(s, StartApply(c, incoming)), BindIntent(c));
  }

  // The steps of the transact callback up to its finalization.
  function BodyEvents(c: nat, body: Body): seq<Event> {
    match body
    case ApplyBody(intent, behaviour) => ApplyBodyEvents(c, intent, behaviour)
    case FailBody(expectedVersion, code) => [StartFail(c, expectedVersion, code)]
  }

  // The system once a new call has been granted its claim at this reading.
  function ClaimedAt(s: System, txn: Txn, c: nat, now: int): System {
    Execution(s, [Begin(c, txn), TryClaim(c, now)])
  }

  // How a whole call that nobody interrupts ends: out of bounds, as a replay, a
  // conflict or a refusal by its first claim that is not told to wait, or, when
  // that claim is granted, normally exactly if its callback's finalization commits.
  ghost predicate TransactionAnswer(s: System, txn: Txn, body: Body, clock: seq<int>, at: int, c: nat,
                                    r: Reply<ActionResult>, after: Db)
    requires |clock| == 101
  {
    if txn.id.key == "" || |txn.id.key| > 256 || txn.operation == "" || |txn.operation| > 4_096 then
      r == Raise(ValueError) && after == s.db
    else
      exists n: nat | n < 101 :: AnsweredAt(s, txn, body, clock, n, at, c, r, after)
  }

  ghost predicate AnsweredAt(s: System, txn: Txn, body: Body, clock: seq<int>, n: nat, at: int, c: nat,
                             r: Reply<ActionResult>, after: Db)
    requires n < |clock|
  {
    && FirstAnswer(s.db, txn, clock, n)
    && match FirestoreSpec.Claim(s.db, txn, clock[n]).reply
       case AlreadyFinalized(result) => r == Ok(result) && after == s.db
       case Refused(error) => r == Raise(error) && after == s.db
       case Waiting => n == 100 && r == Raise(VersionConflict) && after == s.db
       case Granted(_, _) => r.Ok? <==> Commits(Execution(ClaimedAt(s, txn, c, clock[n]), BodyEvents(c, body)), c, at)
  }

  lemma FirstSteps(s: System, txn: Txn, c: nat, clock: seq<int>)
    requires !At(s, c) && txn.owner !in s.issued && ValidTxn(txn)
    ensures Next(s, Begin(c, txn)) == With(s.(issued := s.issued + {txn.owner}), c, Trying(txn))
    ensures forall n | 0 <= n < |clock| && FirestoreSpec.Claim(s.db, txn, clock[n]).reply.Granted? ::
      var claim := FirestoreSpec.Claim(s.db, txn, clock[n]);
      ClaimedAt(s, txn, c, clock[n])
        == With(s.(issued := s.issued + {txn.owner}, db := claim.db), c, InBody(txn, claim.reply.bound))
  {
    hide FirestoreSpec.Claim, Execution;
    forall n | 0 <= n < |clock| && FirestoreSpec.Claim(s.db, txn, clock[n]).reply.Granted?
      ensures var claim := FirestoreSpec.Claim(s.db, txn, clock[n]);
        ClaimedAt(s, txn, c, clock[n])
          == With(s.(issued := s.issued + {txn.owner}, db := claim.db), c, InBody(txn, claim.reply.bound))
    {
      assert [Begin(c, txn)] + [TryClaim(c, clock[n])] == [Begin(c, txn), TryClaim(c, clock[n])];
      ExecutionConcat(s, [Begin(c, txn)], [TryClaim(c, clock[n])]);
      ExecutionOne(s, Begin(c, txn));
      ExecutionOne(Next(s, Begin(c, txn)), TryClaim(c, clock[n]));
    }
  }

  lemma NotGrantedChangesNothing(db: Db, txn: Txn, now: int)
    ensures !FirestoreSpec.Claim(db, txn, now).reply.Granted? ==> FirestoreSpec.Claim(db, txn, now).db == db
  {
    ClaimReplies(db, txn, now);
  }

  lemma UnusedTokenOwnsNothing(s: System, txn: Txn)
    requires txn.owner !in s.issued
    ensures SysInv(s) ==> forall id :: !OwnedBy(s.db, id, txn.owner)
  {
    if SysInv(s) {
      forall id: CycleId ensures !OwnedBy(s.db, id, txn.owner) {
        assert OwnedBy(s.db, id, txn.owner) ==> IsClaimed(s.db, id);
      }
    }
  }

  lemma KeepsSysAlong(s: System, events: seq<Event>)
    ensures SysInv(s) ==> SysInv(Execution(s, events))
  {
    hide SysInv, Execution;
    if SysInv(s) {
      RunFromKeepsSys(s, events);
    }
  }

  // Claims under a client's token are on its own cycle.
  lemma ClaimOnlyOwn(s: System, c: nat, txn: Txn)
    requires At(s, c) && s.clients[c].txn == txn
    ensures SysInv(s) ==> forall id :: OwnedBy(s.db, id, txn.owner) ==> id == txn.id
    ensures SysInv(s) ==> forall id | id != txn.id :: !OwnedBy(Abort(s.db, txn), id, txn.owner)
    ensures SysInv(s) ==> forall id :: !OwnedBy(Abort(s.db, txn), id, txn.owner)
  {
    hide DbInv, OwnersIssued, ReturnsRecorded, Locals;
    if SysInv(s) {
      assert ClientInv(s.db, s.clients[c]);
      forall id: CycleId ensures OwnedBy(s.db, id, txn.owner) ==> id == txn.id {
      }
    }
  }

  lemma RecordedIsFinal(db: Db, txn: Txn, result: ActionResult)
    requires Recorded(db, txn, result)
    ensures IsFinal(db, txn.id) && !OwnedBy(db, txn.id, txn.owner)
  {
  }

  // A raised step of the store that is invisible in what the documents stand for.
  ghost predicate Invisible(before: Db, after: Db) {
    DbInv(before) ==> DbInv(after) && Abs(after) == Abs(before)
  }

  ghost predicate Recorded(db: Db, txn: Txn, result: ActionResult) {
    && IsFinal(db, txn.id) && db.cycles[txn.id].operation == txn.operation && db.cycles[txn.id].result == result
  }

  lemma ClaimInvisible(db: Db, txn: Txn, now: int)
    ensures Invisible(db, FirestoreSpec.Claim(db, txn, now).db)
  {
    hide DbInv, Abs, FirestoreSpec.Claim;
    if DbInv(db) {
      ClaimKeepsDb(db, txn, now);
      ClaimStutters(db, txn, now);
    }
  }

  lemma BindInvisible(db: Db, txn: Txn, intent: Intent)
    ensures Invisible(db, Bind(db, txn, intent).db)
  {
    hide DbInv, Abs, Bind;
    if DbInv(db) {
      BindKeepsDb(db, txn, intent);
      BindStutters(db, txn, intent);
    }
  }

  lemma AbortInvisible(db: Db, txn: Txn)
    ensures Invisible(db, Abort(db, txn))
  {
    hide DbInv, Abs, Abort;
    if DbInv(db) {
      AbortKeepsDb(db, txn);
      AbortStutters(db, txn);
    }
  }

  lemma FinalizeRecords(db: Db, txn: Txn, p: Prepared, now: int)
    ensures var step := Finalize(db, txn, p, now);
            if step.reply.Ok? then Recorded(step.db, txn, step.reply.value) else step.db == db
  {
  }

  // All attempts before the n-th are told to wait.
  ghost predicate FirstAnswer(db: Db, txn: Txn, clock: seq<int>, n: nat)
    requires n < |clock|
  {
    forall m | 0 <= m < n :: FirestoreSpec.Claim(db, txn, clock[m]).reply.Waiting?
  }

  lemma WaitingChangesNothing(db: Db, txn: Txn, now: int)
    ensures FirestoreSpec.Claim(db, txn, now).reply.Waiting? ==> FirestoreSpec.Claim(db, txn, now).db == db
  {
    ClaimReplies(db, txn, now);
  }

  // Where a claim attempt has taken the client, by the answer it got.
  ghost predicate ClaimedAs(s: System, c: nat, txn: Txn, reply: ClaimReply, now: System) {
    match reply
    case Waiting => now == s
    case Refused(_) => now == Gone(s, c)
    case AlreadyFinalized(result) => now == Gone(s, c).(returned := s.returned + {Return(txn.id, txn.operation, result)})
    case Granted(_, bound) => now == With(s.(db := now.db), c, InBody(txn, bound))
  }

  class FirestoreStateStore {
    const docs: DocumentCollection

    constructor (docs: DocumentCollection)
      ensures this.docs == docs
    {
      this.docs := docs;
    }

    // ---- evidence markers -----------------------------------------------------------------

    method AllUnmarked(ids: set<string>) returns (free: bool)
      ensures free == (ids !! docs.markers.Keys)
    {
      var pending := ids;
      while pending != {}
        invariant pending <= ids
        invariant forall e | e in ids && e !in pending :: e !in docs.markers
        decreases |pending|
      {
        var e :| e in pending;
        if e in docs.markers {
          return false;
        }
        pending := pending - {e};
      }
      return true;
    }

    method SetMarkers(ids: set<string>, taskId: string)
      modifies docs`markers
      ensures docs.markers == MarkAll(old(docs.markers), ids, taskId)
    {
      ghost var before := docs.markers;
      var pending := ids;
      MarkNone(before, taskId);
      assert ids - pending == {};
      while pending != {}
        invariant pending <= ids
        invariant docs.markers == MarkAll(before, ids - pending, taskId)
        decreases |pending|
      {
        var e :| e in pending;
        MarkOne(before, ids - pending, e, taskId);
        assert ids - (pending - {e}) == (ids - pending) + {e};
        docs.markers := docs.markers[e := taskId];
        pending := pending - {e};
      }
      assert ids - {} == ids;
    }

    // The two loops of a finalization run over the evidence of its result.
    method EvidenceUnmarked(items: seq<Evidence>) returns (free: bool)
      ensures free == (Ids(items) !! docs.markers.Keys)
    {
      for n := 0 to |items|
        invariant forall i | 0 <= i < n :: items[i].evidenceId !in docs.markers
      {
        if items[n].evidenceId in docs.markers {
          assert items[n].evidenceId in Ids(items);
          return false;
        }
      }
      return true;
    }

    method MarkEvidence(items: seq<Evidence>, taskId: string)
      modifies docs`markers
      ensures docs.markers == MarkAll(old(docs.markers), Ids(items), taskId)
    {
      ghost var before := docs.markers;
      MarkNone(before, taskId);
      for n := 0 to |items|
        invariant docs.markers == MarkAll(before, Ids(items[..n]), taskId)
      {
        assert items[..n + 1] == items[..n] + [items[n]];
        IdsSnoc(items[..n], items[n]);
        MarkOne(before, Ids(items[..n]), items[n].evidenceId, taskId);
        docs.markers := docs.markers[items[n].evidenceId := taskId];
      }
      assert items[..|items|] == items;
    }

    // ---- the transactions on a claim ------------------------------------------------------------

    method WriteClaim(txn: Txn, bound: Option<Intent>, now: int)
      requires txn.id.task in docs.tasks
      modifies docs`tasks, docs`cycles
      ensures docs.State() == Grant(old(docs.State()), txn, bound, now).db
    {
      docs.tasks := docs.tasks[txn.id.task := docs.tasks[txn.id.task].(active := Some(txn.id.key))];
      docs.cycles := docs.cycles[txn.id := Claimed(txn.operation, bound, txn.owner, now, now + LEASE)];
    }

    method Claim(txn: Txn, now: int) returns (reply: ClaimReply)
      modifies docs
      ensures docs.modelBudget == old(docs.modelBudget)
      ensures ClaimStep(docs.State(), reply) == FirestoreSpec.Claim(old(docs.State()), txn, now)
    {
      var t := txn.id.task;
      if txn.id in docs.cycles {
        var cycle := docs.cycles[txn.id];
        if cycle.operation != txn.operation {
          return Refused(IdempotencyConflict);
        }
        if cycle.Finalized? {
          if IntentsClash(cycle.intent, txn.intent) {
            return Refused(IdempotencyConflict);
          }
          return AlreadyFinalized(cycle.result);
        }
        if cycle.expiresAt > now {
          if IntentsClash(cycle.intent, txn.intent) {
            return Refused(IdempotencyConflict);
          }
          return Waiting;
        }
        if t !in docs.tasks {
          return Refused(KeyError);
        }
        var bound := if cycle.intent.Some? then cycle.intent else txn.intent;
        reply := Granted(docs.tasks[t].task, bound);
        WriteClaim(txn, bound, now);
        return;
      }
      if t !in docs.tasks {
        return Refused(KeyError);
      }
      var doc := docs.tasks[t];
      var stale := None;
      if doc.active.Some? {
        var activeId := CycleId(t, doc.active.value);
        if activeId in docs.cycles && docs.cycles[activeId].Claimed? {
          if docs.cycles[activeId].expiresAt > now {
            return Waiting;
          }
          stale := Some(activeId);
        }
      }
      if doc.cycleCount >= MAX_CYCLES_PER_TASK {
        return Refused(ValueError);
      }
      if stale.Some? {
        docs.cycles := docs.cycles - {stale.value};
      }
      WriteClaim(txn, txn.intent, now);
      return Granted(doc.task, txn.intent);
    }

    method AbortClaim(txn: Txn)
      modifies docs`tasks, docs`cycles
      ensures docs.State() == Abort(old(docs.State()), txn)
    {
      // A finalized document names no owner.
      if txn.id !in docs.cycles || !docs.cycles[txn.id].Claimed? || docs.cycles[txn.id].owner != txn.owner {
        return;
      }
      var t := txn.id.task;
      if t in docs.tasks && docs.tasks[t].active == Some(txn.id.key) {
        docs.tasks := docs.tasks[t := docs.tasks[t].(active := None)];
      }
      docs.cycles := docs.cycles - {txn.id};
    }

    method BindClaimIntent(txn: Txn, intent: Intent) returns (r: Reply<()>)
      modifies docs`cycles
      ensures DbStep(docs.State(), r) == Bind(old(docs.State()), txn, intent)
    {
      if txn.id !in docs.cycles {
        return Raise(VersionConflict);
      }
      var cycle := docs.cycles[txn.id];
      if !cycle.Claimed? || cycle.owner != txn.owner || cycle.operation != txn.operation {
        return Raise(VersionConflict);
      }
      if cycle.intent.Some? && cycle.intent != Some(intent) {
        return Raise(IdempotencyConflict);
      }
      if cycle.intent.None? {
        docs.cycles := docs.cycles[txn.id :=
          Claimed(cycle.operation, Some(intent), cycle.owner, cycle.createdAt, cycle.expiresAt)];
      }
      return Ok(());
    }

    method FinalizeClaim(txn: Txn, p: Prepared, now: int) returns (r: Reply<ActionResult>)
      modifies docs`tasks, docs`cycles, docs`markers
      ensures DbStep(docs.State(), r) == Finalize(old(docs.State()), txn, p, now)
    {
      var t := txn.id.task;
      if txn.id !in docs.cycles || !docs.cycles[txn.id].Claimed? || docs.cycles[txn.id].owner != txn.owner {
        return Raise(VersionConflict);
      }
      var cycle := docs.cycles[txn.id];
      if cycle.expiresAt <= now {
        return Raise(VersionConflict);
      }
      if t !in docs.tasks {
        return Raise(KeyError);
      }
      var version := docs.tasks[t].task.version;
      if version != p.result.task.version && version != p.result.task.version - 1 {
        return Raise(VersionConflict);
      }
      var free := EvidenceUnmarked(p.result.evidence);
      if !free {
        return Raise(EvidenceConflict);
      }
      docs.tasks := docs.tasks[t := p.value];
      MarkEvidence(p.result.evidence, t);
      docs.cycles := docs.cycles[txn.id :=
        Finalized(txn.operation, p.intent, cycle.createdAt, cycle.expiresAt, p.result)];
      return Ok(p.result);
    }

    // ---- computing on a private backing ------------------------------------------------------------

    method TaskDocument(backing: MemoryBacking, taskId: string, cycleCount: nat, active: Option<string>)
      returns (r: Reply<TaskDoc>)
      requires backing.Valid()
      ensures r == Document(backing.State(), taskId, cycleCount, active)
    {
      if taskId !in backing.tasks {
        return Raise(KeyError);
      }
      if |backing.evidence[taskId]| > MAX_EVIDENCE {
        return Raise(ValueError);
      }
      var baton := if taskId in backing.batons then Some(backing.batons[taskId]) else None;
      return Ok(TaskDoc(backing.tasks[taskId], backing.evidence[taskId], baton, cycleCount, active));
    }

    // What _finalize_claim does before its transaction.
    method PrepareFinalization(txn: Txn, computed: Reply<ActionResult>, backing: MemoryBacking, cycleCount: nat)
      returns (r: Reply<Prepared>)
      requires backing.Valid()
      ensures r ==
        if computed.Raise? then Raise(computed.error)
        else if cycleCount + 1 > MAX_CYCLES_PER_TASK then Raise(ValueError)
        else
          var document := Document(backing.State(), txn.id.task, cycleCount + 1, None);
          if document.Raise? then Raise(document.error)
          else
            Ok(Prepared(computed.value, document.value,
                        if txn.id in backing.State().cycles then backing.State().cycles[txn.id].intent else None))
    {
      if computed.Raise? {
        return Raise(computed.error);
      }
      if cycleCount + 1 > MAX_CYCLES_PER_TASK {
        return Raise(ValueError);
      }
      var document := TaskDocument(backing, txn.id.task, cycleCount + 1, None);
      if document.Raise? {
        return Raise(document.error);
      }
      var intent := if txn.id in backing.cycles then backing.cycles[txn.id].intent else None;
      return Ok(Prepared(computed.value, document.value, intent));
    }

    method ComputeApply(txn: Txn, intent: Intent, behaviour: Behaviour, snap: TaskDoc,
                        actors: map<string, ActorRole>, registryVersion: nat)
      returns (r: Reply<Prepared>)
      requires txn.operation != ""
      ensures r == Prepare(txn, ApplyWork(intent, behaviour, snap, actors, registryVersion))
    {
      hide MemorySpec.ApplyCycle, Document;
      var backing := new MemoryBacking.Snapshot(snap.task, snap.evidence, snap.baton, actors, registryVersion);
      var memory := new MemoryStateStore(backing);
      var computed, handed := memory.ApplyCycle(intent, Some(txn.operation), behaviour);
      r := PrepareFinalization(txn, computed, backing, snap.cycleCount);
    }

    method ComputeFail(txn: Txn, expectedVersion: int, code: string, snap: TaskDoc) returns (r: Reply<Prepared>)
      ensures r == Prepare(txn, FailWork(expectedVersion, code, snap))
    {
      var backing := new MemoryBacking.Snapshot(snap.task, snap.evidence, snap.baton, map[], 0);
      var memory := new MemoryStateStore(backing);
      var computed := memory.FailCycle(txn.id, txn.operation, expectedVersion, code);
      r := PrepareFinalization(txn, computed, backing, snap.cycleCount);
    }

    // ---- direct mutations ---------------------------------------------------------------------------------

    method DecodeTask(taskId: string) returns (backing: MemoryBacking)
      ensures fresh(backing) && backing.Valid() && backing.State() == Local(docs.State(), taskId)
    {
      if taskId in docs.tasks {
        var doc := docs.tasks[taskId];
        backing := new MemoryBacking.Snapshot(doc.task, doc.evidence, doc.baton, map[], 0);
      } else {
        backing := new MemoryBacking();
      }
    }

    method MutateTask(op: Op) returns (r: Reply<Task>)
      requires op.Append? || op.WriteBaton?
      modifies docs`tasks, docs`markers
      ensures DbStep(docs.State(), r) == FirestoreSpec.MutateTask(old(docs.State()), op)
    {
      var t := DirectTask(op);
      if t in docs.tasks && docs.tasks[t].active.Some? {
        return Raise(VersionConflict);
      }
      var backing := DecodeTask(t);
      var beforeIds := backing.evidenceIds;
      var memory := new MemoryStateStore(backing);
      if op.Append? {
        r := memory.AppendEvidence(op.item, op.expectedVersion);
      } else {
        r := memory.SetBaton(op.taskId, op.baton, op.expectedVersion);
      }
      if r.Raise? {
        return;
      }
      var newIds := backing.evidenceIds - beforeIds;
      var free := AllUnmarked(newIds);
      if !free {
        return Raise(EvidenceConflict);
      }
      var document := TaskDocument(backing, t, if t in docs.tasks then docs.tasks[t].cycleCount else 0, None);
      if document.Raise? {
        return Raise(document.error);
      }
      docs.tasks := docs.tasks[t := document.value];
      SetMarkers(newIds, t);
    }

    method AppendEvidence(e: Evidence, expectedVersion: int) returns (r: Reply<Task>)
      modifies docs`tasks, docs`markers
      ensures DbStep(docs.State(), r) == FirestoreSpec.MutateTask(old(docs.State()), Append(e, expectedVersion))
    {
      r := MutateTask(Append(e, expectedVersion));
    }

    method SetBaton(taskId: string, baton: Metadata, expectedVersion: int) returns (r: Reply<Task>)
      modifies docs`tasks, docs`markers
      ensures DbStep(docs.State(), r)
           == FirestoreSpec.MutateTask(old(docs.State()), WriteBaton(taskId, baton, expectedVersion))
    {
      r := MutateTask(WriteBaton(taskId, baton, expectedVersion));
    }

    method CreateTask(task: Task) returns (r: Reply<Task>)
      modifies docs`tasks, docs`created
      ensures DbStep(docs.State(), r) == CreateDoc(old(docs.State()), task)
    {
      if !PublicTask(task) {
        return Raise(ValueError);
      }
      if docs.created >= MAX_TASKS {
        return Raise(ValueError);
      }
      if task.taskId in docs.tasks {
        return Raise(ValueError);
      }
      docs.tasks := docs.tasks[task.taskId := TaskDoc(task, [], None, 0, None)];
      docs.created := docs.created + 1;
      return Ok(task);
    }

    // ---- the registry and the model budget -------------------------------------------------------------------

    method WriteRegistry(backing: MemoryBacking, r: Reply<nat>) returns (out: Reply<nat>)
      modifies docs`actors, docs`registryVersion
      ensures DbStep(docs.State(), out) == MutateRegistry(old(docs.State()), Done(old(backing.State()), r))
    {
      if r.Raise? {
        return r;
      }
      if |backing.actors| > MAX_ACTORS {
        return Raise(ValueError);
      }
      docs.actors, docs.registryVersion := backing.actors, backing.registryVersion;
      return r;
    }

    method RegisterActor(actorId: string, role: string, expectedVersion: int) returns (r: Reply<nat>)
      modifies docs`actors, docs`registryVersion
      ensures DbStep(docs.State(), r) == RegisterDoc(old(docs.State()), actorId, role, expectedVersion)
    {
      if !ValidActorId(actorId) {
        return Raise(ValueError);
      }
      var backing := new MemoryBacking.Registry(docs.actors, docs.registryVersion);
      var memory := new MemoryStateStore(backing);
      r := memory.RegisterActor(actorId, role, expectedVersion);
      r := WriteRegistry(backing, r);
    }

    method InitializeActors(actors: map<string, ActorRole>) returns (r: Reply<nat>)
      modifies docs`actors, docs`registryVersion
      ensures DbStep(docs.State(), r) == InitializeDoc(old(docs.State()), actors)
    {
      if exists a | a in actors :: !ValidActorId(a) {
        return Raise(ValueError);
      }
      var backing := new MemoryBacking.Registry(docs.actors, docs.registryVersion);
      var memory := new MemoryStateStore(backing);
      r := memory.InitializeActors(actors);
      r := WriteRegistry(backing, r);
    }

    method ConsumeModelCall(day: string, limit: int) returns (r: Reply<bool>)
      modifies docs`modelBudget
      ensures Consumed(docs.modelBudget, r) == ConsumeDoc(old(docs.modelBudget), day, limit)
    {
      if !BudgetArgs(day, limit) {
        return Raise(ValueError);
      }
      var used := ModelBudgetUsed(docs.modelBudget, day);
      if used.Raise? {
        return Raise(used.error);
      }
      if used.value >= limit {
        return Ok(false);
      }
      docs.modelBudget := Some(BudgetDoc(day, used.value + 1));
      return Ok(true);
    }

    // ---- one whole call, while no other client moves ----------------------------------------------
    // `s` is the system before, with this client's state; `events` the steps of
    // the protocol that the method performed.

    // The claim loop: at most a hundred retries while another claim is live.
    method ClaimLoop(txn: Txn, clock: seq<int>, ghost s: System, ghost c: nat)
      returns (reply: ClaimReply, ghost events: seq<Event>, ghost tries: nat)
      requires |clock| == 101 && s.db == docs.State() && At(s, c) && s.clients[c] == Trying(txn)
      modifies docs
      ensures docs.modelBudget == old(docs.modelBudget)
      ensures Execution(s, events).db == docs.State() && ClaimedAs(s, c, txn, reply, Execution(s, events))
      ensures LegalEvents(events) && Invisible(old(docs.State()), docs.State())
      ensures reply.AlreadyFinalized? ==> Recorded(docs.State(), txn, reply.result)
      ensures tries < 101 && FirstAnswer(old(docs.State()), txn, clock, tries) && (reply.Waiting? ==> tries == 100)
      ensures ClaimStep(docs.State(), reply) == FirestoreSpec.Claim(old(docs.State()), txn, clock[tries])
    {
      hide Invisible;
      ghost var now := s;
      events := [];
      ExecutionNone(s);
      ClaimInvisible(s.db, txn, clock[0]);
      reply := Claim(txn, clock[0]);
      events, now := Took(s, events, now, TryClaim(c, clock[0]));
      var n := 1;
      WaitingChangesNothing(s.db, txn, clock[0]);
      while reply.Waiting? && n < 101
        invariant 1 <= n <= 101 && FirstAnswer(s.db, txn, clock, n - 1)
        invariant ClaimStep(docs.State(), reply) == FirestoreSpec.Claim(s.db, txn, clock[n - 1])
        invariant docs.modelBudget == old(docs.modelBudget)
        invariant now == Execution(s, events) && LegalEvents(events)
        invariant now.db == docs.State() && ClaimedAs(s, c, txn, reply, now)
        invariant Invisible(s.db, docs.State())
        invariant reply.AlreadyFinalized? ==> Recorded(docs.State(), txn, reply.result)
      {
        ClaimInvisible(s.db, txn, clock[n]);
        WaitingChangesNothing(s.db, txn, clock[n - 1]);
        reply := Claim(txn, clock[n]);
        events, now := Took(s, events, now, TryClaim(c, clock[n]));
        n := n + 1;
      }
      tries := n - 1;
    }

    // apply_cycle under a held claim, up to and including its finalization.
    method ApplyInClaim(txn: Txn, bound: Option<Intent>, incoming: Intent, behaviour: Behaviour, at: int,
                        ghost s: System, ghost c: nat)
      returns (r: Reply<ActionResult>, ghost events: seq<Event>)
      requires s.db == docs.State() && At(s, c) && s.clients[c] == InBody(txn, bound) && txn.operation != ""
      requires txn.id == CycleId(incoming.taskId, incoming.cycleKey)
      modifies docs
      ensures docs.modelBudget == old(docs.modelBudget)
      ensures Execution(s, events) == With(s.(db := docs.State()), c, InBody(txn, bound)) && LegalEvents(events)
      ensures if r.Ok? then Recorded(docs.State(), txn, r.value) else Invisible(old(docs.State()), docs.State())
      ensures r.Ok? <==> Commits(Execution(s, ApplyBodyEvents(c, incoming, behaviour)), c, at)
    {
      hide Bind, Execution, Next, With, DbInv, Abs, Recorded, Commits;
      ApplyStuck(s, c, txn, bound, incoming, behaviour, at);
      ghost var now := s;
      events := [];
      ExecutionNone(s);
      WithSame(s, c);
      if !ValidIntent(incoming) {
        return Raise(ValueError), events;
      }
      if txn.id in docs.cycles && docs.cycles[txn.id].Finalized? && docs.cycles[txn.id].intent != Some(incoming) {
        return Raise(IdempotencyConflict), events;
      }
      var chosen := ChosenIntent(txn, bound, incoming);
      if chosen.None? {
        return Raise(ValueError), events;
      }
      var intent := chosen.value;
      StartApplyTaken(s, c, txn, bound, incoming);
      events, now := Took(s, events, now, StartApply(c, incoming));
      BindInvisible(s.db, txn, intent);
      BindTaken(s, c, txn, bound, intent);
      var binding := BindClaimIntent(txn, intent);
      events, now := Took(s, events, now, BindIntent(c));
      ExecutionConcat(s, [StartApply(c, incoming), BindIntent(c)], [ReadTask(c), Execute(c, behaviour)]);
      assert ApplyBodyEvents(c, incoming, behaviour)
          == [StartApply(c, incoming), BindIntent(c)] + [ReadTask(c), Execute(c, behaviour)];
      assert events == [StartApply(c, incoming), BindIntent(c)];
      if binding.Raise? {
        NotBoundCommitsNothing(s.(db := docs.State()), c, txn, bound, behaviour, at);
        return Raise(binding.error), events;
      }
      WithTwice(s.(db := docs.State()), c, Bound(txn, bound, intent), InBody(txn, bound));
      ghost var more;
      r, more := ExecuteBound(txn, bound, intent, behaviour, at, now, c);
      events, now := Followed(s, events, now, more);
    }

    // The rest of apply_cycle once its intent is bound.
    method ExecuteBound(txn: Txn, bound: Option<Intent>, intent: Intent, behaviour: Behaviour, at: int,
                        ghost s: System, ghost c: nat)
      returns (r: Reply<ActionResult>, ghost events: seq<Event>)
      requires s.db == docs.State() && At(s, c) && s.clients[c] == Bound(txn, bound, intent) && txn.operation != ""
      modifies docs
      ensures docs.modelBudget == old(docs.modelBudget)
      ensures Execution(s, events) == With(s.(db := docs.State()), c, InBody(txn, bound)) && LegalEvents(events)
      ensures if r.Ok? then Recorded(docs.State(), txn, r.value) else docs.State() == old(docs.State())
      ensures r.Ok? <==> Commits(Execution(s, [ReadTask(c), Execute(c, behaviour)]), c, at)
    {
      hide Prepare, Finalize, Execution, Recorded, Commits;
      ghost var now := s;
      events := [];
      ExecutionNone(s);
      ReadCommitsIff(s, c, txn, bound, intent, behaviour, at);
      events, now := Took(s, events, now, ReadTask(c));
      if txn.id.task !in docs.tasks {
        return Raise(KeyError), events;
      }
      var snap := docs.tasks[txn.id.task];
      var prepared := ComputeApply(txn, intent, behaviour, snap, docs.actors, docs.registryVersion);
      events, now := Took(s, events, now, Execute(c, behaviour));
      if prepared.Raise? {
        return Raise(prepared.error), events;
      }
      FinalizeRecords(s.db, txn, prepared.value, at);
      r := FinalizeClaim(txn, prepared.value, at);
      events, now := Took(s, events, now, FinalizeWork(c, at));
    }

    // fail_cycle under a held claim.
    method FailInClaim(txn: Txn, bound: Option<Intent>, expectedVersion: int, code: string, at: int,
                       ghost s: System, ghost c: nat)
      returns (r: Reply<ActionResult>, ghost events: seq<Event>)
      requires s.db == docs.State() && At(s, c) && s.clients[c] == InBody(txn, bound)
      modifies docs
      ensures docs.modelBudget == old(docs.modelBudget)
      ensures Execution(s, events) == With(s.(db := docs.State()), c, InBody(txn, bound)) && LegalEvents(events)
      ensures if r.Ok? then Recorded(docs.State(), txn, r.value) else docs.State() == old(docs.State())
      ensures r.Ok? <==> Commits(Next(s, StartFail(c, expectedVersion, code)), c, at)
    {
      hide Prepare, Finalize, Execution, Recorded;
      ghost var now := s;
      events := [];
      ExecutionNone(s);
      WithSame(s, c);
      if txn.id.task !in docs.tasks {
        return Raise(KeyError), events;
      }
      var snap := docs.tasks[txn.id.task];
      var prepared := ComputeFail(txn, expectedVersion, code, snap);
      events, now := Took(s, events, now, StartFail(c, expectedVersion, code));
      if prepared.Raise? {
        return Raise(prepared.error), events;
      }
      FinalizeRecords(s.db, txn, prepared.value, at);
      r := FinalizeClaim(txn, prepared.value, at);
      events, now := Took(s, events, now, FinalizeWork(c, at));
    }

    method GetCycleResult(id: CycleId, operation: Option<string>) returns (r: Reply<Option<ActionResult>>)
      ensures r ==
        if id !in docs.cycles then Ok(None)
        else if operation.Some? && docs.cycles[id].operation != operation.value then Raise(IdempotencyConflict)
        else if docs.cycles[id].Claimed? then Ok(None)
        else Ok(Some(docs.cycles[id].result))
    {
      if id !in docs.cycles {
        return Ok(None);
      }
      var cycle := docs.cycles[id];
      if operation.Some? && cycle.operation != operation.value {
        return Raise(IdempotencyConflict);
      }
      if cycle.Claimed? {
        return Ok(None);
      }
      return Ok(Some(cycle.result));
    }

    // A callback that raised: give the claim back and raise again.
    method AbortCall(txn: Txn, bound: Option<Intent>, ghost s: System, ghost c: nat) returns (ghost events: seq<Event>)
      requires s.db == docs.State() && At(s, c) && s.clients[c] == InBody(txn, bound)
      modifies docs`tasks, docs`cycles
      ensures docs.State() == Abort(old(docs.State()), txn) && Invisible(old(docs.State()), docs.State())
      ensures Execution(s, events) == Gone(s.(db := docs.State()), c) && LegalEvents(events)
    {
      hide Abort, Execution, Invisible;
      ghost var now := s;
      events := [];
      ExecutionNone(s);
      AbortInvisible(s.db, txn);
      events, now := Took(s, events, now, BodyRaises(c));
      AbortClaim(txn);
      events, now := Took(s, events, now, Event.AbortClaim(c));
    }

    // A callback that returned: its result must be the stored one.
    method ConfirmCall(txn: Txn, bound: Option<Intent>, result: ActionResult, ghost s: System, ghost c: nat)
      returns (r: Reply<ActionResult>, ghost events: seq<Event>)
      requires s.db == docs.State() && At(s, c) && s.clients[c] == InBody(txn, bound)
      ensures r.Ok? <==> Recorded(docs.State(), txn, result)
      ensures r.Ok? ==> r.value == result
      ensures LegalEvents(events)
      ensures Execution(s, events) == if r.Ok?
        then Gone(s, c).(returned := s.returned + {Return(txn.id, txn.operation, result)}) else Gone(s, c)
    {
      hide Execution;
      ghost var now := s;
      events := [];
      ExecutionNone(s);
      events, now := Took(s, events, now, BodyReturns(c, result));
      events, now := Took(s, events, now, Check(c));
      var persisted := GetCycleResult(txn.id, Some(txn.operation));
      if persisted.Raise? {
        return Raise(persisted.error), events;
      }
      if persisted.value != Some(result) {
        return Raise(RuntimeError), events;
      }
      return Ok(result), events;
    }

    // A whole call up to the answer of its claim: a fresh token, then the loop.
    method OpenClaim(txn: Txn, clock: seq<int>, ghost s: System, ghost c: nat)
      returns (reply: ClaimReply, ghost events: seq<Event>, ghost now: System, ghost tries: nat)
      requires |clock| == 101 && s.db == docs.State() && !At(s, c) && txn.owner !in s.issued && ValidTxn(txn)
      modifies docs
      ensures docs.modelBudget == old(docs.modelBudget)
      ensures now == Execution(s, events) && now.db == docs.State() && LegalEvents(events)
      ensures ClaimedAs(With(s.(issued := s.issued + {txn.owner}), c, Trying(txn)), c, txn, reply, now)
      ensures now.clients - {c} == s.clients
      ensures Invisible(old(docs.State()), docs.State())
      ensures reply.AlreadyFinalized? ==> Recorded(docs.State(), txn, reply.result)
      ensures tries < 101 && FirstAnswer(old(docs.State()), txn, clock, tries) && (reply.Waiting? ==> tries == 100)
      ensures ClaimStep(docs.State(), reply) == FirestoreSpec.Claim(old(docs.State()), txn, clock[tries])
    {
      hide Execution, DbInv, Abs, Recorded, FirestoreSpec.Claim, Invisible, FirstAnswer;
      ghost var more;
      ExecutionNone(s);
      FirstSteps(s, txn, c, clock);
      events, now := Took(s, [], s, Begin(c, txn));
      reply, more, tries := ClaimLoop(txn, clock, now, c);
      events, now := Followed(s, events, now, more);
    }

    // run_cycle_transaction around apply_cycle or fail_cycle. A normal return
    // means that its result is stored; an exception, that the documents still
    // stand for the same memory backing. Either way no claim of the call is left.
    method RunCycleTransaction(txn: Txn, body: Body, clock: seq<int>, at: int, ghost s: System, ghost c: nat)
      returns (r: Reply<ActionResult>, ghost events: seq<Event>)
      requires |clock| == 101 && s.db == docs.State() && !At(s, c) && txn.owner !in s.issued
      requires body.ApplyBody? ==> txn.id == CycleId(body.intent.taskId, body.intent.cycleKey)
      modifies docs
      ensures docs.modelBudget == old(docs.modelBudget)
      ensures var now := Execution(s, events);
        && now.db == docs.State() && now.clients == s.clients && LegalEvents(events)
        && now.returned == if r.Ok? then s.returned + {Return(txn.id, txn.operation, r.value)} else s.returned
      ensures if r.Ok? then Recorded(docs.State(), txn, r.value) else Invisible(old(docs.State()), docs.State())
      ensures SysInv(s) ==> forall id :: !OwnedBy(docs.State(), id, txn.owner)
      ensures TransactionAnswer(s, txn, body, clock, at, c, r, docs.State())
    {
      hide Execution, DbInv, Abs, Recorded, SysInv, FirestoreSpec.Claim, Commits, BodyEvents, FirstAnswer, OwnedBy;
      events := [];
      ExecutionNone(s);
      if !ValidTxn(txn) {
        UnusedTokenOwnsNothing(s, txn);
        return Raise(ValueError), events;
      }
      ghost var now, more, tries;
      UnusedTokenOwnsNothing(s, txn);
      FirstSteps(s, txn, c, clock);
      var claim;
      claim, events, now, tries := OpenClaim(txn, clock, s, c);
      NotGrantedChangesNothing(s.db, txn, clock[tries]);
      KeepsSysAlong(s, events);
      match claim {
        case AlreadyFinalized(result) => r := Ok(result);
        case Refused(error) => r := Raise(error);
        case Waiting =>
          events, now := Took(s, events, now, Crash(c));
          r := Raise(VersionConflict);
        case Granted(_, bound) =>
          assert now == ClaimedAt(s, txn, c, clock[tries]);
          r, more := RunBody(txn, bound, body, at, now, c);
          events, now := Followed(s, events, now, more);
      }
      assert AnsweredAt(s, txn, body, clock, tries, at, c, r, docs.State());
    }

    // The callback under the claim and what follows it.
    method RunBody(txn: Txn, bound: Option<Intent>, body: Body, at: int, ghost s: System, ghost c: nat)
      returns (r: Reply<ActionResult>, ghost events: seq<Event>)
      requires s.db == docs.State() && At(s, c) && s.clients[c] == InBody(txn, bound) && txn.operation != ""
      requires body.ApplyBody? ==> txn.id == CycleId(body.intent.taskId, body.intent.cycleKey)
      modifies docs
      ensures docs.modelBudget == old(docs.modelBudget)
      ensures LegalEvents(events)
      ensures Execution(s, events) == Gone(s.(db := docs.State()), c).(
        returned := if r.Ok? then s.returned + {Return(txn.id, txn.operation, r.value)} else s.returned)
      ensures if r.Ok? then Recorded(docs.State(), txn, r.value) else Invisible(old(docs.State()), docs.State())
      ensures r.Ok? <==> Commits(Execution(s, BodyEvents(c, body)), c, at)
      ensures SysInv(s) ==> forall id :: !OwnedBy(docs.State(), id, txn.owner)
    {
      hide Execution, DbInv, Abs, Recorded, Commits, SysInv, Abort;
      ghost var more;
      match body {
        case ApplyBody(intent, behaviour) => r, events := ApplyInClaim(txn, bound, intent, behaviour, at, s, c);
        case FailBody(expectedVersion, code) =>
          ExecutionOne(s, StartFail(c, expectedVersion, code));
          r, events := FailInClaim(txn, bound, expectedVersion, code, at, s, c);
      }
      ghost var now := Execution(s, events);
      KeepsSysAlong(s, events);
      ClaimOnlyOwn(now, c, txn);
      if r.Raise? {
        more := AbortCall(txn, bound, now, c);
      } else {
        RecordedIsFinal(docs.State(), txn, r.value);
        r, more := ConfirmCall(txn, bound, r.value, now, c);
      }
      events, now := Followed(s, events, now, more);
    }

    // apply_cycle called outside any claim: a whole call of its own.
    method ApplyCycle(intent: Intent, canonicalOperation: Option<string>, behaviour: Behaviour, owner: string,
                      clock: seq<int>, at: int, ghost s: System, ghost c: nat)
      returns (r: Reply<ActionResult>, ghost events: seq<Event>)
      requires |clock| == 101 && s.db == docs.State() && !At(s, c) && owner !in s.issued
      modifies docs
      ensures var txn := Txn(CycleId(intent.taskId, intent.cycleKey), OperationName(canonicalOperation), Some(intent), owner);
        && Execution(s, events).db == docs.State() && Execution(s, events).clients == s.clients && LegalEvents(events)
        && (if r.Ok? then Recorded(docs.State(), txn, r.value) else Invisible(old(docs.State()), docs.State()))
        && (SysInv(s) ==> forall id :: !OwnedBy(docs.State(), id, owner))
        && (if !ValidIntent(intent) then r == Raise(ValueError) && docs.State() == old(docs.State())
            else if IsFinal(old(docs.State()), txn.id) && old(docs.State()).cycles[txn.id].intent != Some(intent) then
              r == Raise(IdempotencyConflict) && docs.State() == old(docs.State())
            else TransactionAnswer(s, txn, ApplyBody(intent, behaviour), clock, at, c, r, docs.State()))
    {
      hide Execution, DbInv, Abs, Recorded, TransactionAnswer, SysInv;
      events := [];
      ExecutionNone(s);
      var id := CycleId(intent.taskId, intent.cycleKey);
      UnusedTokenOwnsNothing(s, Txn(id, OperationName(canonicalOperation), Some(intent), owner));
      if !ValidIntent(intent) {
        return Raise(ValueError), events;
      }
      if id in docs.cycles && docs.cycles[id].Finalized? && docs.cycles[id].intent != Some(intent) {
        return Raise(IdempotencyConflict), events;
      }
      r, events := RunCycleTransaction(Txn(id, OperationName(canonicalOperation), Some(intent), owner),
                                       ApplyBody(intent, behaviour), clock, at, s, c);
    }

    method FailCycle(id: CycleId, canonicalOperation: string, expectedVersion: int, code: string, owner: string,
                     clock: seq<int>, at: int, ghost s: System, ghost c: nat)
      returns (r: Reply<ActionResult>, ghost events: seq<Event>)
      requires |clock| == 101 && s.db == docs.State() && !At(s, c) && owner !in s.issued
      modifies docs
      ensures var txn := Txn(id, canonicalOperation, None, owner);
        && Execution(s, events).db == docs.State() && Execution(s, events).clients == s.clients && LegalEvents(events)
        && (if r.Ok? then Recorded(docs.State(), txn, r.value) else Invisible(old(docs.State()), docs.State()))
        && (SysInv(s) ==> forall id :: !OwnedBy(docs.State(), id, owner))
        && TransactionAnswer(s, txn, FailBody(expectedVersion, code), clock, at, c, r, docs.State())
    {
      hide Execution, DbInv, Abs, Recorded, TransactionAnswer, SysInv;
      r, events := RunCycleTransaction(Txn(id, canonicalOperation, None, owner), FailBody(expectedVersion, code),
                                       clock, at, s, c);
    }
  }

  // What the transact callback does: apply_cycle or fail_cycle.
  datatype Body = ApplyBody(intent: Intent, behaviour: Behaviour) | FailBody(expectedVersion: int, code: string)
}
