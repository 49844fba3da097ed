// That claimed work can be finished: from every reachable state in which a
// claim can be granted, a call that nobody interrupts commits.

module Progress {
  import opened Results
  import opened Domain
  import opened MemorySpec
  import opened MemoryLaws
  import opened FirestoreSpec
  import opened Protocol
  import opened ProtocolSteps
  import opened ProtocolInvariant
  import opened ProtocolSafety
  import opened Refinement
  import opened FirestoreTheorems
  import opened FirestoreContracts

  // The document a granted claim leaves for its task.
  lemma GrantedDoc(db: Db, txn: Txn, now: int)
    requires DbInv(db) && Claim(db, txn, now).reply.Granted?
    ensures var after := Claim(db, txn, now).db;
      && txn.id.task in db.tasks && txn.id.task in after.tasks
      && after.tasks[txn.id.task] == db.tasks[txn.id.task].(active := Some(txn.id.key))
      && after.markers == db.markers
      && after.tasks[txn.id.task].cycleCount < MAX_CYCLES_PER_TASK
      && |after.tasks[txn.id.task].evidence| <= MAX_EVIDENCE
      && after.tasks[txn.id.task].task.taskId == txn.id.task
  {
    hide Marked;
    assert TaskLock(db, txn.id.task) && TaskBounds(db, txn.id.task);
  }

  lemma DenialPrepares(txn: Txn, snap: TaskDoc, code: string)
    requires snap.task.taskId == txn.id.task && !snap.task.Terminal() && OpaqueToken(code)
    requires snap.cycleCount < MAX_CYCLES_PER_TASK && |snap.evidence| <= MAX_EVIDENCE
    ensures var p := Prepare(txn, FailWork(snap.task.version, code, snap));
      && p.Ok? && p.value.result.evidence == [] && p.value.result.failureCode == Some(code)
      && p.value.result.task.version == snap.task.version + 1
      && p.value.value.cycleCount == snap.cycleCount + 1
  {
  }

  lemma FourSteps(s: System, a: Event, b: Event, c: Event, d: Event)
    ensures Execution(s, [a, b, c, d]) == Next(Next(Next(Next(s, a), b), c), d)
  {
    assert [a, b, c, d][1..] == [b, c, d] && [b, c, d][1..] == [c, d] && [c, d][1..] == [d];
    assert Execution(s, [a, b, c, d]) == Execution(Next(s, a), [b, c, d]);
    assert Execution(Next(Next(s, a), b), [c, d]) == Execution(Next(Next(Next(s, a), b), c), [d]);
  }

  // A denial recorded by a call that nobody interrupts, step by step.
  lemma UninterruptedDenial(s: System, c: nat, txn: Txn, now: int, later: int, v: int, code: string)
    requires !At(s, c) && txn.owner !in s.issued && ValidTxn(txn)
    requires Claim(s.db, txn, now).reply.Granted? && txn.id.task in Claim(s.db, txn, now).db.tasks
    requires Prepare(txn, FailWork(v, code, Claim(s.db, txn, now).db.tasks[txn.id.task])).Ok?
    ensures var claimed := Claim(s.db, txn, now).db;
      var p := Prepare(txn, FailWork(v, code, claimed.tasks[txn.id.task])).value;
      Execution(s, [Begin(c, txn), TryClaim(c, now), StartFail(c, v, code), FinalizeWork(c, later)]).db
        == Finalize(claimed, txn, p, later).db
  {
    hide Claim, Prepare, Finalize, Execution;
    FourSteps(s, Begin(c, txn), TryClaim(c, now), StartFail(c, v, code), FinalizeWork(c, later));
  }

  // Giving a claim back frees its task at once: whatever the clock reads, any
  // call with an unused key, or with the same one, is granted the next claim,
  // and direct writes are no longer locked out.
  lemma AbortFreesTask(events: seq<Event>, c: nat, rival: Txn, now: int)
    requires var s := Reached(events);
      && At(s, c) && s.clients[c].Aborting? && Holds(s.db, s.clients[c].txn)
      && rival.id.task == s.clients[c].txn.id.task
      && (rival.id == s.clients[c].txn.id || rival.id !in s.db.cycles)
    ensures var s := Reached(events);
      var after := Next(s, AbortClaim(c)).db;
      && s.clients[c].txn.id !in after.cycles
      && rival.id.task in after.tasks && after.tasks[rival.id.task].active == None
      && Claim(after, rival, now).reply.Granted?
  {
    hide SysInv, Claim, Abort, Marked;
    var s := Reached(events);
    var txn := s.clients[c].txn;
    SysInvHasDbInv(events);
    AbortReleases(s.db, txn);
    assert TaskBounds(s.db, txn.id.task);
    ClaimReplies(Abort(s.db, txn), rival, now);
  }

  // No crash wedges a task: in every reachable state, as soon as a claim can be
  // granted, a new caller that works within its lease gets a cycle finalized.
  lemma NeverWedged(events: seq<Event>, c: nat, txn: Txn, now: int, later: int, code: string)
    requires var s := Reached(events);
      && !At(s, c) && txn.owner !in s.issued && ValidTxn(txn)
      && Grantable(s.db, txn, now) && now <= later < now + LEASE
      && !s.db.tasks[txn.id.task].task.Terminal() && OpaqueToken(code)
    ensures var s := Reached(events);
      var doc := s.db.tasks[txn.id.task];
      var call := [Begin(c, txn), TryClaim(c, now), StartFail(c, doc.task.version, code), FinalizeWork(c, later)];
      var after := Execution(s, call).db;
      && IsFinal(after, txn.id) && after.cycles[txn.id].result.failureCode == Some(code)
      && after.cycles[txn.id].intent == None
      && txn.id.task in after.tasks
      && after.tasks[txn.id.task].cycleCount == doc.cycleCount + 1 && after.tasks[txn.id.task].active == None
  {
    hide SysInv, DbInv, OpaqueToken, Grantable, Execution, Claim, Prepare, ValidTxn, Finalize;
    var s := Reached(events);
    SysInvHasDbInv(events);
    ClaimGrantedIff(events, txn, now);
    GrantedDoc(s.db, txn, now);
    GrantedLease(s.db, txn, now);
    var claimed := Claim(s.db, txn, now).db;
    var snap := claimed.tasks[txn.id.task];
    DenialPrepares(txn, snap, code);
    DenialFinalizes(claimed, txn, snap, code, later);
    UninterruptedDenial(s, c, txn, now, later, snap.task.version, code);
  }

  lemma SysInvHasDbInv(events: seq<Event>)
    ensures DbInv(Reached(events).db)
  {
    RunKeepsSys(events);
  }

  lemma DenialFinalizes(db: Db, txn: Txn, snap: TaskDoc, code: string, now: int)
    requires Holds(db, txn) && now < db.cycles[txn.id].expiresAt && txn.id.task in db.tasks
    requires db.tasks[txn.id.task] == snap && snap.task.taskId == txn.id.task && !snap.task.Terminal()
    requires OpaqueToken(code) && snap.cycleCount < MAX_CYCLES_PER_TASK && |snap.evidence| <= MAX_EVIDENCE
    ensures var p := Prepare(txn, FailWork(snap.task.version, code, snap));
      && p.Ok?
      && var after := Finalize(db, txn, p.value, now).db;
      && IsFinal(after, txn.id) && after.cycles[txn.id].result.failureCode == Some(code)
      && after.cycles[txn.id].intent == None
      && txn.id.task in after.tasks
      && after.tasks[txn.id.task].cycleCount == snap.cycleCount + 1 && after.tasks[txn.id.task].active == None
  {
    hide OpaqueToken;
    DenialPrepares(txn, snap, code);
    assert Ids([]) == {};
  }

  // ---- an action that nobody interrupts ---------------------------------------------------------------

  function EvidenceOffered(behaviour: Behaviour): seq<Evidence> {
    if behaviour.Returned? then behaviour.outcome.evidence else []
  }

  // What is bound after a granted claim, and that the claim is held.
  lemma GrantedBinding(db: Db, txn: Txn, now: int)
    requires Claim(db, txn, now).reply.Granted?
    ensures var step := Claim(db, txn, now);
      && Holds(step.db, txn) && step.db.cycles[txn.id].operation == txn.operation
      && step.db.cycles[txn.id].intent == step.reply.bound
      && step.db == db.(tasks := step.db.tasks, cycles := step.db.cycles)
      && step.reply.bound ==
           if txn.id in db.cycles && db.cycles[txn.id].intent.Some? then db.cycles[txn.id].intent else txn.intent
  {
  }

  lemma BindingTaken(db: Db, txn: Txn, intent: Intent)
    requires Holds(db, txn) && db.cycles[txn.id].operation == txn.operation
    requires db.cycles[txn.id].intent == None || db.cycles[txn.id].intent == Some(intent)
    ensures var step := Bind(db, txn, intent);
      && step.reply.Ok? && Holds(step.db, txn) && step.db == db.(cycles := step.db.cycles)
      && step.db.cycles[txn.id].expiresAt == db.cycles[txn.id].expiresAt
      && step.db.cycles[txn.id].operation == txn.operation && step.db.cycles[txn.id].intent == Some(intent)
  {
  }

  // What the store admits on the current documents it admits on a snapshot.
  lemma SnapshotAdmits(db: Db, intent: Intent, snap: TaskDoc)
    requires Admissible(Abs(db), intent) && snap.task.taskId == intent.taskId
    requires intent.taskId in db.tasks && db.tasks[intent.taskId].task == snap.task
    ensures var b := Snapshot(snap, db.actors, db.registryVersion);
            Admissible(b, intent) && Admit(b, intent) == Admit(Abs(db), intent)
  {
  }

  // The verdict on a callback, judged on the documents of the task alone.
  function LocalJudgement(db: Db, intent: Intent, behaviour: Behaviour): Verdict
    requires Admissible(Abs(db), intent) && intent.taskId in db.tasks
  {
    Judge(behaviour, Admit(Abs(db), intent).value, db.actors[intent.actorId], intent,
          Ids(db.tasks[intent.taskId].evidence))
  }

  // A success also needs room for its evidence; a rejection keeps none of it.
  lemma AdmittedPrepares(txn: Txn, work: Work)
    requires work.ApplyWork? && WorkFor(txn, work) && txn.id == CycleId(work.intent.taskId, work.intent.cycleKey)
    requires Admissible(WorkBacking(work), work.intent) && !work.behaviour.RaisedInterrupt?
    requires work.snap.cycleCount < MAX_CYCLES_PER_TASK && |work.snap.evidence| <= MAX_EVIDENCE
    ensures var b, p := WorkBacking(work), Prepare(txn, work);
      var admitted := Admit(b, work.intent).value;
      var v := Judge(work.behaviour, admitted, work.actors[work.intent.actorId], work.intent, Ids(work.snap.evidence));
      && (p.Ok? <==> v.Rejected? || |work.snap.evidence| + |EvidenceOffered(work.behaviour)| <= MAX_EVIDENCE)
      && (p.Ok? ==> p.value.result == VerdictResult(v, admitted))
      && VerdictResult(v, admitted).evidence == if v.Rejected? then [] else EvidenceOffered(work.behaviour)
  {
    hide Judge, ValidIntent, Acceptable, AdmittedTask;
    var b, intent := WorkBacking(work), work.intent;
    var admitted, role := Admit(b, intent).value, b.actors[intent.actorId];
    AdmittedCycleCommits(b, intent, txn.operation, work.behaviour);
    AcceptedIffAcceptable(work.behaviour, admitted, role, intent, b.evidenceIds);
    hide ApplyCycle;
  }

  // The six steps from an idle client to the end of its computation.
  function ApplyCall(c: nat, txn: Txn, incoming: Intent, behaviour: Behaviour, now: int): seq<Event> {
    [Begin(c, txn), TryClaim(c, now), StartApply(c, incoming), BindIntent(c), ReadTask(c), Execute(c, behaviour)]
  }

  // The client once it has computed: ready, or back in the callback.
  function Computed(txn: Txn, bound: Option<Intent>, work: Work): Client {
    if Prepare(txn, work).Ok? then Ready(txn, bound, work) else InBody(txn, bound)
  }

  // The intent a call goes on with: the one bound before, else the one it came with.
  function Going(bound: Option<Intent>, incoming: Intent): Intent {
    if bound.Some? then bound.value else incoming
  }

  lemma UninterruptedApply(s: System, c: nat, txn: Txn, incoming: Intent, behaviour: Behaviour, now: int)
    requires !At(s, c) && txn.owner !in s.issued && ValidTxn(txn)
    requires ValidIntent(incoming) && txn.id == CycleId(incoming.taskId, incoming.cycleKey)
    requires var claim := Claim(s.db, txn, now);
      && claim.reply.Granted? && Holds(claim.db, txn)
      && var intent := Going(claim.reply.bound, incoming);
      && ValidIntent(intent) && txn.id == CycleId(intent.taskId, intent.cycleKey)
      && Bind(claim.db, txn, intent).reply.Ok? && txn.id.task in Bind(claim.db, txn, intent).db.tasks
    ensures var claim := Claim(s.db, txn, now);
      var intent := Going(claim.reply.bound, incoming);
      var docs := Bind(claim.db, txn, intent).db;
      var work := ApplyWork(intent, behaviour, docs.tasks[txn.id.task], docs.actors, docs.registryVersion);
      Execution(s, ApplyCall(c, txn, incoming, behaviour, now))
        == With(s.(db := docs, issued := s.issued + {txn.owner}), c, Computed(txn, claim.reply.bound, work))
  {
    hide Claim, Bind, Prepare, Execution, ValidIntent, ValidTxn;
    var claim := Claim(s.db, txn, now);
    var intent := Going(claim.reply.bound, incoming);
    var docs := Bind(claim.db, txn, intent).db;
    var idle := s.(issued := s.issued + {txn.owner});
    FourSteps(s, Begin(c, txn), TryClaim(c, now), StartApply(c, incoming), BindIntent(c));
    var begun := With(idle, c, Trying(txn));
    assert Next(s, Begin(c, txn)) == begun;
    var inside := With(idle.(db := claim.db), c, InBody(txn, claim.reply.bound));
    assert Next(begun, TryClaim(c, now)) == inside;
    StartApplyTaken(inside, c, txn, claim.reply.bound, incoming);
    var binding := With(idle.(db := claim.db), c, Binding(txn, claim.reply.bound, intent));
    assert Next(inside, StartApply(c, incoming)) == binding;
    BindTaken(idle.(db := claim.db), c, txn, claim.reply.bound, intent);
    var bound := With(idle.(db := docs), c, Bound(txn, claim.reply.bound, intent));
    assert Next(binding, BindIntent(c)) == bound;
    ReadAndExecute(bound, c, txn, claim.reply.bound, intent, behaviour);
    var first := [Begin(c, txn), TryClaim(c, now), StartApply(c, incoming), BindIntent(c)];
    assert ApplyCall(c, txn, incoming, behaviour, now) == first + [ReadTask(c), Execute(c, behaviour)];
    ExecutionConcat(s, first, [ReadTask(c), Execute(c, behaviour)]);
  }

  lemma ReadAndExecute(s: System, c: nat, txn: Txn, bound: Option<Intent>, intent: Intent, behaviour: Behaviour)
    requires At(s, c) && s.clients[c] == Bound(txn, bound, intent) && txn.id.task in s.db.tasks
    ensures Execution(s, [ReadTask(c), Execute(c, behaviour)]) == With(s, c, Computed(txn, bound,
      ApplyWork(intent, behaviour, s.db.tasks[txn.id.task], s.db.actors, s.db.registryVersion)))
  {
    hide Prepare;
    var read := Next(s, ReadTask(c));
    assert [ReadTask(c), Execute(c, behaviour)][1..] == [Execute(c, behaviour)];
    ExecutionOne(read, Execute(c, behaviour));
  }

  // What a claim by this call leaves bound.
  function BoundBy(db: Db, txn: Txn): Option<Intent> {
    if txn.id in db.cycles && db.cycles[txn.id].intent.Some? then db.cycles[txn.id].intent else txn.intent
  }

  // A call of apply_cycle by a new client, in a reachable state in which its
  // claim is granted and the store admits the intent it goes on with: its own,
  // or one that an earlier call left bound.
  ghost predicate CallAdmitted(s: System, c: nat, txn: Txn, incoming: Intent, behaviour: Behaviour, now: int) {
    && !At(s, c) && txn.owner !in s.issued && ValidTxn(txn) && Grantable(s.db, txn, now)
    && ValidIntent(incoming) && txn.id == CycleId(incoming.taskId, incoming.cycleKey)
    && var intent := Going(BoundBy(s.db, txn), incoming);
    && txn.id == CycleId(intent.taskId, intent.cycleKey) && Admissible(Abs(s.db), intent)
    && txn.id.task in s.db.tasks && !behaviour.RaisedInterrupt?
  }

  // What a call that has bound its intent leaves of the system: its claim, and
  // otherwise documents that stand for the same backing.
  ghost predicate CallStands(s: System, now: System, c: nat, txn: Txn, intent: Intent, expiry: int) {
    && DocsStand(s.db, now.db, txn, intent, expiry)
    && now.clients.Keys == s.clients.Keys + {c} && now.issued == s.issued + {txn.owner} && now.returned == s.returned
  }

  ghost predicate DocsStand(db: Db, docs: Db, txn: Txn, intent: Intent, expiry: int) {
    && Stands(docs, txn, expiry) && docs.cycles[txn.id].operation == txn.operation
    && docs.cycles[txn.id].intent == Some(intent)
    && Abs(docs) == Abs(db) && docs == db.(tasks := docs.tasks, cycles := docs.cycles)
    && txn.id.task in db.tasks && txn.id.task in docs.tasks
    && docs.tasks[txn.id.task].(active := None) == db.tasks[txn.id.task].(active := None)
  }

  // A client ready to finalize the given result of the given work.
  ghost predicate ReadyWith(s: System, c: nat, txn: Txn, bound: Option<Intent>, intent: Intent, behaviour: Behaviour,
                            result: ActionResult) {
    && At(s, c) && s.clients[c].Ready? && s.clients[c].txn == txn && s.clients[c].bound == bound
    && s.clients[c].work.ApplyWork? && s.clients[c].work.intent == intent && s.clients[c].work.behaviour == behaviour
    && Prepare(txn, s.clients[c].work).Ok? && Prepare(txn, s.clients[c].work).value.result == result
  }

  // Such a call, if nobody interrupts it, commits at any later reading within
  // its lease if and only if its outcome is rejected, or its evidence fits and
  // none of it is stored anywhere; and what it commits is the verdict on its
  // callback, judged on the documents of its own task.
  lemma ActionCommits(events: seq<Event>, c: nat, txn: Txn, incoming: Intent, behaviour: Behaviour, now: int, later: int)
    requires CallAdmitted(Reached(events), c, txn, incoming, behaviour, now) && now <= later < now + LEASE
    ensures var s := Reached(events);
      var intent := Going(BoundBy(s.db, txn), incoming);
      var doc, offered := s.db.tasks[txn.id.task], EvidenceOffered(behaviour);
      var v := LocalJudgement(s.db, intent, behaviour);
      var ready := Execution(s, ApplyCall(c, txn, incoming, behaviour, now));
      && CallStands(s, ready, c, txn, intent, now + LEASE)
      && (Commits(ready, c, later) <==>
            v.Rejected? || (|doc.evidence| + |offered| <= MAX_EVIDENCE && Ids(offered) !! s.db.markers.Keys))
      && (Commits(ready, c, later) ==>
            ReadyWith(ready, c, txn, BoundBy(s.db, txn), intent, behaviour,
                      VerdictResult(v, Admit(Abs(s.db), intent).value)))
  {
    hide Reached, Claim, Bind, DocsOnceBound, LocalJudgement, Commits, ReadyWith, CallStands, Grantable, Execution, ApplyCall,
         Admit, Abs, ValidTxn;
    CallBinds(events, c, txn, incoming, behaviour, now);
    AdmissibleIsValid(Abs(Reached(events).db), Going(BoundBy(Reached(events).db, txn), incoming));
    UninterruptedCall(Reached(events), c, txn, incoming, behaviour, now, later);
  }

  // The same, from a state in which the claim and the binding succeed.
  lemma UninterruptedCall(s: System, c: nat, txn: Txn, incoming: Intent, behaviour: Behaviour, now: int, later: int)
    requires CallAdmitted(s, c, txn, incoming, behaviour, now) && now <= later < now + LEASE
    requires CallBound(s.db, txn, incoming, now)
    ensures var intent := Going(BoundBy(s.db, txn), incoming);
      var doc, offered := s.db.tasks[txn.id.task], EvidenceOffered(behaviour);
      var v := LocalJudgement(s.db, intent, behaviour);
      var ready := Execution(s, ApplyCall(c, txn, incoming, behaviour, now));
      && CallStands(s, ready, c, txn, intent, now + LEASE)
      && (Commits(ready, c, later) <==>
            v.Rejected? || (|doc.evidence| + |offered| <= MAX_EVIDENCE && Ids(offered) !! s.db.markers.Keys))
      && (Commits(ready, c, later) ==>
            ReadyWith(ready, c, txn, BoundBy(s.db, txn), intent, behaviour,
                      VerdictResult(v, Admit(Abs(s.db), intent).value)))
  {
    hide Grantable, Execution, Claim, Bind, Prepare, ValidTxn, Finalize, Abs, ApplyCall, LocalJudgement, Admissible, Admit,
         BoundBy, EvidenceOffered, Going, Commits, ReadyWith, Computed, Stands, VerdictResult;
    var intent := Going(BoundBy(s.db, txn), incoming);
    AdmissibleIsValid(Abs(s.db), intent);
    var docs := DocsOnceBound(s.db, txn, intent, now);
    var work := ApplyWork(intent, behaviour, docs.tasks[txn.id.task], docs.actors, docs.registryVersion);
    UninterruptedApply(s, c, txn, incoming, behaviour, now);
    BoundOutcome(s.db, docs, txn, work, now + LEASE, later);
    ComputedCommits(s.(db := docs, issued := s.issued + {txn.owner}), c, txn, BoundBy(s.db, txn), work, later);
  }

  lemma ComputedCommits(s: System, c: nat, txn: Txn, bound: Option<Intent>, work: Work, later: int)
    requires work.ApplyWork?
    ensures var ready := With(s, c, Computed(txn, bound, work));
      var p := Prepare(txn, work);
      && (Commits(ready, c, later) <==> p.Ok? && Finalize(s.db, txn, p.value, later).reply.Ok?)
      && (Commits(ready, c, later) ==> ReadyWith(ready, c, txn, bound, work.intent, work.behaviour, p.value.result))
  {
    hide Prepare, Finalize;
  }

  // What finalizing the work computed on the documents of a standing call does.
  lemma BoundOutcome(db: Db, docs: Db, txn: Txn, work: Work, expiry: int, later: int)
    requires work.ApplyWork? && txn.id == CycleId(work.intent.taskId, work.intent.cycleKey)
    requires DocsStand(db, docs, txn, work.intent, expiry) && later < expiry
    requires work.snap == docs.tasks[txn.id.task] && work.actors == docs.actors
    requires work.registryVersion == docs.registryVersion
    requires Admissible(Abs(db), work.intent) && !work.behaviour.RaisedInterrupt?
    requires work.snap.cycleCount < MAX_CYCLES_PER_TASK && |work.snap.evidence| <= MAX_EVIDENCE
    requires work.snap.task.taskId == txn.id.task
    ensures var v := LocalJudgement(db, work.intent, work.behaviour);
      var p, offered := Prepare(txn, work), EvidenceOffered(work.behaviour);
      && (p.Ok? ==> p.value.result == VerdictResult(v, Admit(Abs(db), work.intent).value))
      && (p.Ok? && Finalize(docs, txn, p.value, later).reply.Ok? <==>
            v.Rejected? || (|work.snap.evidence| + |offered| <= MAX_EVIDENCE && Ids(offered) !! db.markers.Keys))
  {
    hide Prepare, Finalize, Judge, Abs, Admissible, Admit;
    SnapshotAdmits(db, work.intent, work.snap);
    AdmittedPrepares(txn, work);
    if Prepare(txn, work).Ok? {
      ReadyFinalizes(docs, txn, work, later);
    }
  }

  lemma AdmissibleIsValid(b: Backing, intent: Intent)
    requires Admissible(b, intent)
    ensures ValidIntent(intent)
  {
  }

  // The claim and the binding of a call succeed, and its task has room.
  ghost predicate CallBound(db: Db, txn: Txn, incoming: Intent, now: int) {
    var intent := Going(BoundBy(db, txn), incoming);
    var claim := Claim(db, txn, now);
    var docs := DocsOnceBound(db, txn, intent, now);
    && claim.reply.Granted? && Holds(claim.db, txn) && claim.reply.bound == BoundBy(db, txn)
    && Bind(claim.db, txn, intent).reply.Ok?
    && DocsStand(db, docs, txn, intent, now + LEASE)
    && docs.tasks[txn.id.task].cycleCount < MAX_CYCLES_PER_TASK
    && |docs.tasks[txn.id.task].evidence| <= MAX_EVIDENCE
    && docs.tasks[txn.id.task].task.taskId == txn.id.task
  }

  // The documents after the claim and the binding of a call.
  function DocsOnceBound(db: Db, txn: Txn, intent: Intent, now: int): Db {
    Bind(Claim(db, txn, now).db, txn, intent).db
  }

  lemma CallBinds(events: seq<Event>, c: nat, txn: Txn, incoming: Intent, behaviour: Behaviour, now: int)
    requires CallAdmitted(Reached(events), c, txn, incoming, behaviour, now)
    ensures CallBound(Reached(events).db, txn, incoming, now)
  {
    hide SysInv, DbInv, Grantable, Claim, Bind, ValidTxn, Admissible, Abs;
    var s := Reached(events);
    SysInvHasDbInv(events);
    ClaimGrantedIff(events, txn, now);
    GrantedDoc(s.db, txn, now);
    GrantedLease(s.db, txn, now);
    GrantedBinding(s.db, txn, now);
    var claim := Claim(s.db, txn, now);
    BindingTaken(claim.db, txn, Going(claim.reply.bound, incoming));
    ClaimKeepsDb(s.db, txn, now);
    ClaimStutters(s.db, txn, now);
    BindStutters(claim.db, txn, Going(claim.reply.bound, incoming));
  }

  lemma ReadyFinalizes(db: Db, txn: Txn, work: Work, now: int)
    requires WorkFor(txn, work) && Prepare(txn, work).Ok?
    requires Holds(db, txn) && now < db.cycles[txn.id].expiresAt
    requires txn.id.task in db.tasks && db.tasks[txn.id.task] == work.snap
    ensures Finalize(db, txn, Prepare(txn, work).value, now).reply.Ok? <==>
            Ids(Prepare(txn, work).value.result.evidence) !! db.markers.Keys
  {
    PrepareComputes(txn, work);
    hide Prepare, Compute;
  }
}
