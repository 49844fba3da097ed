// The invariant of the whole system, clients included, and its preservation by
// every step; with it, no finalization ever overwrites a change it did not see.

module ProtocolSafety {
  import opened Results
  import opened Domain
  import opened MemorySpec
  import opened MemoryRuns
  import opened FirestoreSpec
  import opened Protocol
  import opened ProtocolInvariant

  ghost predicate OwnersIssued(s: System) {
    && (forall id: CycleId | IsClaimed(s.db, id) :: s.db.cycles[id].owner in s.issued)
    && (forall c | c in s.clients :: s.clients[c].txn.owner in s.issued)
    && (forall c, d | c in s.clients && d in s.clients && c != d :: s.clients[c].txn.owner != s.clients[d].txn.owner)
  }

  // A claim under a client's token is the claim of its own call.
  ghost predicate OwnClaim(db: Db, client: Client) {
    forall id: CycleId | OwnedBy(db, id, client.txn.owner) ::
      !client.Trying? && id == client.txn.id && db.cycles[id].operation == client.txn.operation
  }

  predicate IntentFor(txn: Txn, intent: Intent) {
    ValidIntent(intent) && intent.taskId == txn.id.task && intent.cycleKey == txn.id.key
  }

  // While the claim is held, it records the intent the client goes on with.
  predicate BoundTo(db: Db, txn: Txn, intent: Intent) {
    Holds(db, txn) ==> db.cycles[txn.id].intent == Some(intent)
  }

  // While the claim is held, the snapshot is still the live document.
  predicate StillLive(db: Db, txn: Txn, snap: TaskDoc) {
    && snap.task.taskId == txn.id.task
    && (Holds(db, txn) ==> SnapMatches(db, txn, snap))
  }

  ghost predicate Locals(db: Db, client: Client) {
    match client
    case Trying(_) => true
    case InBody(_, _) => true
    case Binding(txn, _, intent) => IntentFor(txn, intent)
    case Bound(txn, _, intent) => IntentFor(txn, intent) && BoundTo(db, txn, intent)
    case Reading(txn, _, intent, snap) => IntentFor(txn, intent) && BoundTo(db, txn, intent) && StillLive(db, txn, snap)
    case Ready(txn, _, work) =>
      && WorkFor(txn, work) && Prepare(txn, work).Ok? && StillLive(db, txn, work.snap)
      && (work.ApplyWork? ==> BoundTo(db, txn, work.intent) && Extends(work.actors, db.actors))
    case Aborting(_) => true
    case Checking(_, _) => true
  }

  ghost predicate ClientInv(db: Db, client: Client) {
    OwnClaim(db, client) && Locals(db, client)
  }

  // Every result ever returned is the recorded result of its finalized cycle.
  ghost predicate ReturnsRecorded(s: System) {
    forall r | r in s.returned ::
      IsFinal(s.db, r.id) && s.db.cycles[r.id].operation == r.operation && s.db.cycles[r.id].result == r.result
  }

  ghost predicate SysInv(s: System) {
    && DbInv(s.db) && OwnersIssued(s) && ReturnsRecorded(s)
    && forall c | c in s.clients :: ClientInv(s.db, s.clients[c])
  }

  // ---- what one step may do to the documents of another owner --------------------------------

  // What a step leaves to the holder of a token: its claim can vanish, but as
  // long as it stands, its task changes in nothing but `active`.
  ghost predicate Fenced(db: Db, after: Db, owner: string) {
    forall id: CycleId | OwnedBy(after, id, owner) ::
      && OwnedBy(db, id, owner) && after.cycles[id] == db.cycles[id]
      && id.task in db.tasks && id.task in after.tasks
      && after.tasks[id.task].(active := None) == db.tasks[id.task].(active := None)
  }

  // Finalized cycle documents are never changed or deleted.
  ghost predicate KeepsFinal(db: Db, after: Db) {
    forall id: CycleId | IsFinal(db, id) :: IsFinal(after, id) && after.cycles[id] == db.cycles[id]
  }

  lemma FencedKeepsClient(db: Db, after: Db, client: Client)
    requires ClientInv(db, client) && Fenced(db, after, client.txn.owner) && Extends(db.actors, after.actors)
    ensures ClientInv(after, client)
  {
  }

  lemma ReclaimFences(db: Db, after: Db, txn: Txn, owner: string)
    requires Locked(db) && Reclaims(db, after, txn)
    requires owner == txn.owner ==> !IsClaimed(after, txn.id)
    requires IsClaimed(after, txn.id) ==> after.cycles[txn.id].owner == txn.owner
    ensures Fenced(db, after, owner)
  {
  }

  lemma ReclaimKeepsFinal(db: Db, after: Db, txn: Txn)
    requires Reclaims(db, after, txn)
    ensures KeepsFinal(db, after)
  {
  }

  lemma SameIsFenced(db: Db, owner: string)
    requires Locked(db)
    ensures Fenced(db, db, owner) && KeepsFinal(db, db)
  {
  }

  lemma AbortFences(db: Db, txn: Txn, owner: string)
    requires DbInv(db)
    ensures Fenced(db, Abort(db, txn), owner) && KeepsFinal(db, Abort(db, txn))
  {
    if Holds(db, txn) {
      AbortReclaims(db, txn);
      ReclaimFences(db, Abort(db, txn), txn, owner);
      ReclaimKeepsFinal(db, Abort(db, txn), txn);
    } else {
      SameIsFenced(db, owner);
    }
  }

  lemma BindFences(db: Db, txn: Txn, intent: Intent, owner: string)
    requires DbInv(db) && owner != txn.owner
    ensures Fenced(db, Bind(db, txn, intent).db, owner)
  {
    BindKeepsDb(db, txn, intent);
    if Bind(db, txn, intent).db != db {
      ReclaimFences(db, Bind(db, txn, intent).db, txn, owner);
    } else {
      SameIsFenced(db, owner);
    }
  }

  lemma BindKeepsFinal(db: Db, txn: Txn, intent: Intent)
    requires DbInv(db)
    ensures KeepsFinal(db, Bind(db, txn, intent).db)
  {
    BindKeepsDb(db, txn, intent);
    if Bind(db, txn, intent).db != db {
      ReclaimKeepsFinal(db, Bind(db, txn, intent).db, txn);
    }
  }

  // Two claims under different keys are on different tasks.
  lemma ClaimsAreOnDistinctTasks(db: Db, a: CycleId, b: CycleId)
    requires Locked(db) && IsClaimed(db, a) && IsClaimed(db, b) && a != b
    ensures a.task != b.task
  {
  }

  lemma FinalizeFences(db: Db, txn: Txn, p: Prepared, now: int, owner: string)
    requires DbInv(db)
    ensures Fenced(db, Finalize(db, txn, p, now).db, owner) && KeepsFinal(db, Finalize(db, txn, p, now).db)
  {
    var after := Finalize(db, txn, p, now).db;
    if Finalize(db, txn, p, now).reply.Ok? {
      forall id: CycleId | OwnedBy(after, id, owner)
        ensures OwnedBy(db, id, owner) && after.cycles[id] == db.cycles[id]
        ensures id.task in db.tasks && id.task in after.tasks && after.tasks[id.task] == db.tasks[id.task]
      {
        ClaimsAreOnDistinctTasks(db, id, txn.id);
      }
    } else {
      SameIsFenced(db, owner);
    }
  }

  lemma WrittenFences(db: Db, after: Db, op: Op, items: seq<Evidence>, owner: string)
    requires DbInv(db) && (op.Append? || op.WriteBaton?) && Written(db, after, op, items)
    ensures Fenced(db, after, owner) && KeepsFinal(db, after)
  {
    forall id: CycleId | OwnedBy(after, id, owner)
      ensures id.task in db.tasks && id.task in after.tasks && after.tasks[id.task] == db.tasks[id.task]
    {
      assert IsClaimed(db, id) && TaskLock(db, id.task);
      assert db.tasks[id.task].active == Some(id.key);
    }
  }

  lemma MutateFences(db: Db, op: Op, owner: string)
    requires DbInv(db) && (op.Append? || op.WriteBaton?)
    ensures Fenced(db, MutateTask(db, op).db, owner) && KeepsFinal(db, MutateTask(db, op).db)
  {
    hide MutateTask, Marked;
    if MutateTask(db, op).reply.Ok? {
      var items := MutationWrites(db, op);
      WrittenFences(db, MutateTask(db, op).db, op, items, owner);
    } else {
      RaisedMutationChangesNothing(db, op);
      SameIsFenced(db, owner);
    }
  }

  lemma CreateFences(db: Db, task: Task, owner: string)
    requires DbInv(db)
    ensures Fenced(db, CreateDoc(db, task).db, owner) && KeepsFinal(db, CreateDoc(db, task).db)
  {
  }

  lemma RegistryFences(db: Db, step: Done<nat>, owner: string)
    requires DbInv(db)
    ensures Fenced(db, MutateRegistry(db, step).db, owner) && KeepsFinal(db, MutateRegistry(db, step).db)
  {
  }

  // ---- from documents to the system ------------------------------------------------------------

  // A step that writes documents under the token of client c, or of nobody.
  lemma DocsStep(s: System, after: Db, clients: map<nat, Client>, acting: set<nat>)
    requires SysInv(s) && DbInv(after) && Extends(s.db.actors, after.actors) && KeepsFinal(s.db, after)
    requires forall id: CycleId | IsClaimed(after, id) :: after.cycles[id].owner in s.issued
    requires forall c | c in clients :: c in s.clients && clients[c].txn == s.clients[c].txn
    requires forall c | c in clients && c !in acting :: clients[c] == s.clients[c]
    requires forall c | c in clients && c !in acting :: Fenced(s.db, after, s.clients[c].txn.owner)
    requires forall c | c in clients && c in acting :: ClientInv(after, clients[c])
    ensures SysInv(s.(db := after, clients := clients))
  {
    forall c | c in clients ensures ClientInv(after, clients[c]) {
      if c !in acting {
        FencedKeepsClient(s.db, after, clients[c]);
      }
    }
  }

  // A step that leaves the documents alone and moves or removes client c.
  lemma LocalStep(s: System, c: nat, client: Client)
    requires SysInv(s) && c in s.clients && client.txn == s.clients[c].txn && ClientInv(s.db, client)
    ensures SysInv(With(s, c, client))
  {
  }

  lemma GoneStep(s: System, c: nat)
    requires SysInv(s)
    ensures SysInv(Gone(s, c))
  {
  }

  lemma BeginStep(s: System, c: nat, txn: Txn)
    requires SysInv(s) && c !in s.clients && txn.owner !in s.issued
    ensures SysInv(With(s.(issued := s.issued + {txn.owner}), c, Trying(txn)))
  {
    assert OwnClaim(s.db, Trying(txn));
  }

  lemma ReturnStep(s: System, c: nat, r: Return)
    requires SysInv(s)
    requires IsFinal(s.db, r.id) && s.db.cycles[r.id].operation == r.operation && s.db.cycles[r.id].result == r.result
    ensures SysInv(Gone(s, c).(returned := s.returned + {r}))
  {
    hide DbInv, ClientInv;
    GoneStep(s, c);
  }

  lemma ClaimStepKeeps(s: System, c: nat, now: int)
    requires SysInv(s) && c in s.clients && s.clients[c].Trying?
    ensures SysInv(ClaimNext(s, c, now))
  {
    var txn := s.clients[c].txn;
    var step := Claim(s.db, txn, now);
    ClaimKeepsDb(s.db, txn, now);
    match step.reply {
      case AlreadyFinalized(result) => ReturnStep(s, c, Return(txn.id, txn.operation, result));
      case Waiting =>
      case Refused(_) => GoneStep(s, c);
      case Granted(_, bound) => GrantStepKeeps(s, c, now);
    }
  }

  lemma GrantStepKeeps(s: System, c: nat, now: int)
    requires SysInv(s) && c in s.clients && s.clients[c].Trying?
    requires Claim(s.db, s.clients[c].txn, now).reply.Granted?
    ensures SysInv(ClaimNext(s, c, now))
  {
    hide Claim, Marked, Bounded, Reclaims, Prepare;
    var txn := s.clients[c].txn;
    var step := Claim(s.db, txn, now);
    var after := step.db;
    ClaimKeepsDb(s.db, txn, now);
    ClaimReclaims(s.db, txn, now);
    ClaimNames(s.db, txn, now);
    ReclaimKeepsFinal(s.db, after, txn);
    forall d | d in s.clients && d != c ensures Fenced(s.db, after, s.clients[d].txn.owner) {
      ReclaimFences(s.db, after, txn, s.clients[d].txn.owner);
    }
    GrantedClaimIsOwn(s.db, after, txn, step.reply.bound);
    DocsStep(s, after, s.clients[c := InBody(txn, step.reply.bound)], {c});
  }

  lemma GrantedClaimIsOwn(db: Db, after: Db, txn: Txn, bound: Option<Intent>)
    requires OwnClaim(db, Trying(txn)) && Reclaims(db, after, txn)
    requires Holds(after, txn) && after.cycles[txn.id].operation == txn.operation
    ensures ClientInv(after, InBody(txn, bound))
  {
  }

  // A granted claim names its owner and operation.
  lemma ClaimNames(db: Db, txn: Txn, now: int)
    requires Claim(db, txn, now).reply.Granted?
    ensures var after := Claim(db, txn, now).db;
            Holds(after, txn) && after.cycles[txn.id].operation == txn.operation
            && after.cycles[txn.id].intent == Claim(db, txn, now).reply.bound
            && after.cycles[txn.id].expiresAt == now + LEASE
  {
  }

  // ---- the steps of a claimed call -----------------------------------------------------------------

  lemma BindKeepsOwners(db: Db, txn: Txn, intent: Intent)
    ensures var after := Bind(db, txn, intent).db;
      && after.actors == db.actors
      && (forall id: CycleId | IsClaimed(after, id) :: IsClaimed(db, id) && after.cycles[id].owner == db.cycles[id].owner)
  {
  }

  lemma BindStepKeeps(s: System, c: nat)
    requires SysInv(s) && c in s.clients && s.clients[c].Binding?
    ensures SysInv(BindNext(s, c))
  {
    hide Bind, Marked, Bounded, Prepare;
    var client := s.clients[c];
    var step := Bind(s.db, client.txn, client.intent);
    BindKeepsDb(s.db, client.txn, client.intent);
    BindKeepsFinal(s.db, client.txn, client.intent);
    BindKeepsOwners(s.db, client.txn, client.intent);
    forall d | d in s.clients && d != c ensures Fenced(s.db, step.db, s.clients[d].txn.owner) {
      BindFences(s.db, client.txn, client.intent, s.clients[d].txn.owner);
    }
    var next := BindNext(s, c).clients[c];
    BindKeepsOwn(s.db, client, next);
    DocsStep(s, step.db, s.clients[c := next], {c});
  }

  lemma BindKeepsOwn(db: Db, client: Client, next: Client)
    requires client.Binding? && ClientInv(db, client)
    requires var step := Bind(db, client.txn, client.intent);
      next == if step.reply.Ok? then Bound(client.txn, client.bound, client.intent) else InBody(client.txn, client.bound)
    ensures ClientInv(Bind(db, client.txn, client.intent).db, next)
  {
  }

  lemma LiveIsCurrent(db: Db, txn: Txn)
    requires DbInv(db) && txn.id.task in db.tasks
    ensures StillLive(db, txn, db.tasks[txn.id.task])
  {
  }

  lemma ReadStepKeeps(s: System, c: nat)
    requires SysInv(s) && c in s.clients && s.clients[c].Bound?
    ensures SysInv(Next(s, ReadTask(c)))
  {
    hide SysInv, ClientInv;
    var client := s.clients[c];
    var t := client.txn.id.task;
    var next := if t in s.db.tasks then Reading(client.txn, client.bound, client.intent, s.db.tasks[t])
                else InBody(client.txn, client.bound);
    ReadKeepsClient(s, c, next);
    LocalStep(s, c, next);
  }

  lemma ReadKeepsClient(s: System, c: nat, next: Client)
    requires SysInv(s) && c in s.clients && s.clients[c].Bound?
    requires var client := s.clients[c];
      var t := client.txn.id.task;
      next == if t in s.db.tasks then Reading(client.txn, client.bound, client.intent, s.db.tasks[t])
              else InBody(client.txn, client.bound)
    ensures ClientInv(s.db, next)
  {
    hide DbInv, OwnersIssued, ReturnsRecorded, StillLive;
    assert ClientInv(s.db, s.clients[c]);
    if next.Reading? {
      LiveIsCurrent(s.db, next.txn);
    }
  }

  lemma ReadyOrBackKeeps(s: System, c: nat, work: Work)
    requires SysInv(s) && c in s.clients && (s.clients[c].InBody? || s.clients[c].Reading?)
    requires var txn := s.clients[c].txn;
      && WorkFor(txn, work) && StillLive(s.db, txn, work.snap)
      && (work.ApplyWork? ==> BoundTo(s.db, txn, work.intent) && Extends(work.actors, s.db.actors))
    ensures SysInv(ReadyOrBack(s, c, s.clients[c].txn, s.clients[c].bound, work))
  {
    var client := s.clients[c];
    LocalStep(s, c, if Prepare(client.txn, work).Ok? then Ready(client.txn, client.bound, work)
                    else InBody(client.txn, client.bound));
  }

  lemma FinalizeKeepsOwners(db: Db, txn: Txn, p: Prepared, now: int)
    ensures var after := Finalize(db, txn, p, now).db;
      && after.actors == db.actors
      && (forall id: CycleId | IsClaimed(after, id) :: IsClaimed(db, id) && after.cycles[id] == db.cycles[id])
  {
  }

  lemma FinalizeStepKeeps(s: System, c: nat, now: int)
    requires SysInv(s) && c in s.clients && s.clients[c].Ready?
    ensures SysInv(FinalizeNext(s, c, now))
  {
    hide Finalize, Prepare, Marked, Bounded;
    var client := s.clients[c];
    var p := Prepare(client.txn, client.work).value;
    var step := Finalize(s.db, client.txn, p, now);
    FinalizeKeepsDb(s.db, client.txn, client.work, now);
    FinalizeFences(s.db, client.txn, p, now, client.txn.owner);
    forall d | d in s.clients && d != c ensures Fenced(s.db, step.db, s.clients[d].txn.owner) {
      FinalizeFences(s.db, client.txn, p, now, s.clients[d].txn.owner);
    }
    FinalizeKeepsOwners(s.db, client.txn, p, now);
    DocsStep(s, step.db, s.clients[c := InBody(client.txn, client.bound)], {c});
  }

  lemma AbortStepKeeps(s: System, c: nat)
    requires SysInv(s) && c in s.clients && s.clients[c].Aborting?
    ensures SysInv(Gone(s.(db := Abort(s.db, s.clients[c].txn)), c))
  {
    var txn := s.clients[c].txn;
    var after := Abort(s.db, txn);
    AbortKeepsDb(s.db, txn);
    AbortFences(s.db, txn, txn.owner);
    forall d | d in s.clients ensures Fenced(s.db, after, s.clients[d].txn.owner) {
      AbortFences(s.db, txn, s.clients[d].txn.owner);
    }
    assert forall id: CycleId | IsClaimed(after, id) :: IsClaimed(s.db, id) && after.cycles[id] == s.db.cycles[id];
    DocsStep(s, after, s.clients - {c}, {});
  }

  lemma CheckStepKeeps(s: System, c: nat)
    requires SysInv(s) && c in s.clients && s.clients[c].Checking?
    ensures SysInv(CheckNext(s, c))
  {
    var txn, result := s.clients[c].txn, s.clients[c].result;
    if CheckNext(s, c) == Gone(s, c) {
      GoneStep(s, c);
    } else {
      ReturnStep(s, c, Return(txn.id, txn.operation, result));
    }
  }

  // ---- steps of nobody's call -------------------------------------------------------------------------

  lemma DirectStepKeeps(s: System, after: Db)
    requires SysInv(s) && DbInv(after) && Extends(s.db.actors, after.actors) && KeepsFinal(s.db, after)
    requires after.cycles == s.db.cycles
    requires forall c | c in s.clients :: Fenced(s.db, after, s.clients[c].txn.owner)
    ensures SysInv(s.(db := after))
  {
    assert forall id: CycleId | IsClaimed(after, id) :: IsClaimed(s.db, id);
    DocsStep(s, after, s.clients, {});
    assert s.(db := after, clients := s.clients) == s.(db := after);
  }

  lemma CreateStepKeeps(s: System, task: Task)
    requires SysInv(s)
    ensures SysInv(s.(db := CreateDoc(s.db, task).db))
  {
    CreateKeepsDb(s.db, task);
    CreateFences(s.db, task, "");
    forall c | c in s.clients { CreateFences(s.db, task, s.clients[c].txn.owner); }
    DirectStepKeeps(s, CreateDoc(s.db, task).db);
  }

  lemma MutateTouchesOneTask(db: Db, op: Op)
    requires op.Append? || op.WriteBaton?
    ensures MutateTask(db, op).db.cycles == db.cycles && MutateTask(db, op).db.actors == db.actors
  {
  }

  lemma MutateStepKeeps(s: System, op: Op)
    requires SysInv(s) && (op.Append? || op.WriteBaton?)
    ensures SysInv(s.(db := MutateTask(s.db, op).db))
  {
    MutateKeepsDb(s.db, op);
    MutateFences(s.db, op, "");
    forall c | c in s.clients { MutateFences(s.db, op, s.clients[c].txn.owner); }
    MutateTouchesOneTask(s.db, op);
    hide MutateTask;
    DirectStepKeeps(s, MutateTask(s.db, op).db);
  }

  lemma RegistryStepKeeps(s: System, step: Done<nat>)
    requires SysInv(s) && (step.reply.Ok? ==> Extends(s.db.actors, step.state.actors))
    ensures SysInv(s.(db := MutateRegistry(s.db, step).db))
  {
    RegistryKeepsDb(s.db, step);
    RegistryFences(s.db, step, "");
    forall c | c in s.clients { RegistryFences(s.db, step, s.clients[c].txn.owner); }
    DirectStepKeeps(s, MutateRegistry(s.db, step).db);
  }

  // ---- every step ------------------------------------------------------------------------------------------

  lemma CallStepKeeps(s: System, e: Event)
    requires SysInv(s) && (e.StartApply? || e.BindIntent? || e.ReadTask? || e.Execute? || e.StartFail? || e.FinalizeWork?)
    ensures SysInv(Next(s, e))
  {
    if Next(s, e) != s {
      var client := s.clients[e.c];
      match e {
        case StartApply(c, intent) =>
          LocalStep(s, c, Binding(client.txn, client.bound, ChosenIntent(client.txn, client.bound, intent).value));
        case BindIntent(c) => BindStepKeeps(s, c);
        case ReadTask(c) => ReadStepKeeps(s, c);
        case Execute(c, behaviour) =>
          ReadyOrBackKeeps(s, c, ApplyWork(client.intent, behaviour, client.snap, s.db.actors, s.db.registryVersion));
        case StartFail(c, v, code) =>
          assert TaskBounds(s.db, client.txn.id.task);
          ReadyOrBackKeeps(s, c, FailWork(v, code, s.db.tasks[client.txn.id.task]));
        case FinalizeWork(c, now) => FinalizeStepKeeps(s, c, now);
      }
    }
  }

  lemma LocalMoveKeeps(s: System, e: Event)
    requires SysInv(s) && (e.CallRaises? || e.BodyRaises? || e.BodyReturns?)
    ensures SysInv(Next(s, e))
  {
    if Next(s, e) != s {
      LocalStep(s, e.c, Next(s, e).clients[e.c]);
    }
  }

  // Every step of every client, and of anybody else, keeps the invariant.
  lemma StepKeepsSys(s: System, e: Event)
    requires SysInv(s)
    ensures SysInv(Next(s, e))
  {
    hide SysInv, Claim, Bind, Abort, Prepare, Finalize, MutateTask, CreateDoc;
    match e {
      case Begin(c, txn) => if Next(s, e) != s { BeginStep(s, c, txn); }
      case TryClaim(c, now) => if At(s, c) && s.clients[c].Trying? { ClaimStepKeeps(s, c, now); }
      case AbortClaim(c) => if At(s, c) && s.clients[c].Aborting? { AbortStepKeeps(s, c); }
      case Check(c) => if At(s, c) && s.clients[c].Checking? { CheckStepKeeps(s, c); }
      case Crash(c) => GoneStep(s, c);
      case CreateTaskDoc(task) => CreateStepKeeps(s, task);
      case Mutate(op) => if op.Append? || op.WriteBaton? { MutateStepKeeps(s, op); }
      case RegisterOne(a, role, v) =>
        if ValidActorId(a) { RegistryStepKeeps(s, RegisterActor(RegistryBacking(s.db), a, role, v)); }
      case RegisterMany(actors) =>
        if forall a | a in actors :: ValidActorId(a) {
          RegistryStepKeeps(s, InitializeActors(RegistryBacking(s.db), actors));
        }
      case CallRaises(_) => LocalMoveKeeps(s, e);
      case BodyRaises(_) => LocalMoveKeeps(s, e);
      case BodyReturns(_, _) => LocalMoveKeeps(s, e);
      case _ => CallStepKeeps(s, e);
    }
  }

  lemma StartInv()
    ensures SysInv(Start)
  {
  }

  lemma {:induction false} RunFromKeepsSys(s: System, events: seq<Event>)
    requires SysInv(s)
    ensures SysInv(Execution(s, events))
    decreases |events|
  {
    if events != [] {
      StepKeepsSys(s, events[0]);
      RunFromKeepsSys(Next(s, events[0]), events[1..]);
    }
  }

  // Every reachable state of the system satisfies the invariant.
  lemma RunKeepsSys(events: seq<Event>)
    ensures SysInv(Reached(events))
  {
    StartInv();
    RunFromKeepsSys(Start, events);
  }
}
