// The service on the Firestore protocol: for whom the stored evidence of a
// cycle speaks when its call went on with an intent bound by an earlier one.

module ServiceProtocol {
  import opened Results
  import opened Domain
  import opened MemorySpec
  import opened MemoryLaws
  import opened FirestoreSpec
  import opened Protocol
  import opened ProtocolInvariant
  import opened ProtocolSafety
  import opened Refinement
  import opened FirestoreTheorems
  import opened Progress
  import opened ServiceSpec

  // ---- executions of the service ---------------------------------------------------------------------

  // The call of client c hands this intent to apply_cycle at step k.
  predicate Starts(events: seq<Event>, k: int, c: nat) {
    0 <= k < |events| && events[k].StartApply? && events[k].c == c
  }

  // What the callback of a service call does: it builds its evidence from the
  // intent that the call came with, or is the breaker's.
  ghost predicate ServiceBehaviour(incoming: Intent, behaviour: Behaviour) {
    || behaviour == Returned(FailedOutcome(DEMO_FAILURE))
    || exists at: int :: behaviour == ProgressBehaviour(CycleId(incoming.taskId, incoming.cycleKey), incoming.actorId, at)
  }

  // Each call is a client of its own and calls apply_cycle at most once.
  ghost predicate OneStart(events: seq<Event>) {
    forall k, m | 0 <= k < |events| && 0 <= m < |events| && events[k].StartApply? && events[m].StartApply? ::
      events[k].c == events[m].c ==> k == m
  }

  ghost predicate ServiceTrace(events: seq<Event>) {
    && OneStart(events)
    && forall n | 0 <= n < |events| && events[n].Execute? ::
         exists k :: Starts(events, k, events[n].c) && ServiceBehaviour(events[k].intent, events[n].behaviour)
  }

  // The intent that a client goes on with, and the one it came with.
  ghost predicate Attributed(events: seq<Event>, c: nat, client: Client) {
    match client
    case Binding(_, bound, intent) => exists k :: Starts(events, k, c) && intent == Going(bound, events[k].intent)
    case Bound(_, bound, intent) => exists k :: Starts(events, k, c) && intent == Going(bound, events[k].intent)
    case Reading(_, bound, intent, _) => exists k :: Starts(events, k, c) && intent == Going(bound, events[k].intent)
    case Ready(_, bound, work) =>
      work.ApplyWork? ==>
        exists k :: Starts(events, k, c) && work.intent == Going(bound, events[k].intent)
                    && ServiceBehaviour(events[k].intent, work.behaviour)
    case _ => true
  }

  ghost predicate AllAttributed(events: seq<Event>, s: System) {
    forall c | c in s.clients :: Attributed(events, c, s.clients[c])
  }

  lemma StepAttributes(events: seq<Event>, n: nat, s: System)
    requires n < |events| && ServiceTrace(events) && AllAttributed(events, s)
    ensures AllAttributed(events, Next(s, events[n]))
  {
    hide Claim, Bind, Abort, Prepare, Finalize, MutateTask, CreateDoc, RegisterDoc, InitializeDoc, ServiceBehaviour,
         ValidIntent, ServiceTrace;
    var e := events[n];
    match e {
      case StartApply(c, intent) => assert Starts(events, n, c);
      case Execute(c, behaviour) => ExecuteAttributes(events, n, s);
      case _ =>
    }
  }

  lemma ExecuteAttributes(events: seq<Event>, n: nat, s: System)
    requires n < |events| && events[n].Execute? && ServiceTrace(events) && AllAttributed(events, s)
    ensures AllAttributed(events, Next(s, events[n]))
  {
    hide Prepare, ServiceBehaviour;
    var c, behaviour := events[n].c, events[n].behaviour;
    if At(s, c) && s.clients[c].Reading? {
      assert Attributed(events, c, s.clients[c]);
      var k :| Starts(events, k, c) && s.clients[c].intent == Going(s.clients[c].bound, events[k].intent);
      var m :| Starts(events, m, c) && ServiceBehaviour(events[m].intent, behaviour);
      assert k == m;
    }
  }

  lemma {:induction false} TraceAttributes(events: seq<Event>, n: nat)
    requires n <= |events| && ServiceTrace(events)
    ensures AllAttributed(events, Reached(events[..n]))
  {
    hide ServiceTrace, Attributed, Next;
    if n == 0 {
      assert events[..0] == [];
    } else {
      TraceAttributes(events, n - 1);
      assert events[..n] == events[..n - 1] + [events[n - 1]];
      ProtocolSteps.ExecutionSnoc(Start, events[..n - 1], events[n - 1]);
      StepAttributes(events, n - 1, Reached(events[..n - 1]));
    }
  }

  // ---- whom the evidence speaks for ---------------------------------------------------------------------

  // A successful service cycle stores one item, in the name of the actor that
  // its own call came with, while it records the intent the cycle was bound to.
  // The two are the same actor if and only if no earlier call had bound the
  // intent of another one.
  lemma EvidenceSpeaksForCaller(events: seq<Event>, c: nat, now: int) returns (k: nat)
    requires ServiceTrace(events) && Commits(Reached(events), c, now) && Reached(events).clients[c].work.ApplyWork?
    requires Prepare(Reached(events).clients[c].txn, Reached(events).clients[c].work).value.result.failureCode == None
    ensures Starts(events, k, c)
    ensures var s := Reached(events);
      var caller, bound := events[k].intent, s.clients[c].bound;
      var after := Next(s, FinalizeWork(c, now)).db;
      var id := s.clients[c].txn.id;
      && IsFinal(after, id) && after.cycles[id].intent == Some(Going(bound, caller))
      && |after.cycles[id].result.evidence| == 1
      && after.cycles[id].result.evidence[0].actorId == caller.actorId
      && (after.cycles[id].result.evidence[0].actorId == after.cycles[id].intent.value.actorId <==>
            bound == None || bound.value.actorId == caller.actorId)
  {
    hide ServiceTrace, Prepare, Finalize, ServiceBehaviour, Reached;
    k := CallerOf(events, c);
    var s := Reached(events);
    var txn, work := s.clients[c].txn, s.clients[c].work;
    FinalizeRecordsBoundIntent(events, c, now);
    ReachedWork(events, c);
    SuccessStoresItem(txn, work, events[k].intent);
    FinalizedDocs(s.db, txn, Prepare(txn, work).value, now);
  }

  lemma CallerOf(events: seq<Event>, c: nat) returns (k: nat)
    requires ServiceTrace(events) && At(Reached(events), c) && Reached(events).clients[c].Ready?
    requires Reached(events).clients[c].work.ApplyWork?
    ensures Starts(events, k, c)
    ensures var client := Reached(events).clients[c];
            client.work.intent == Going(client.bound, events[k].intent)
            && ServiceBehaviour(events[k].intent, client.work.behaviour)
  {
    hide ServiceTrace, ServiceBehaviour, Reached;
    assert events[..|events|] == events;
    TraceAttributes(events, |events|);
    var client := Reached(events).clients[c];
    assert Attributed(events, c, client);
    k :| Starts(events, k, c) && client.work.intent == Going(client.bound, events[k].intent)
         && ServiceBehaviour(events[k].intent, client.work.behaviour);
  }

  lemma ReachedWork(events: seq<Event>, c: nat)
    requires At(Reached(events), c) && Reached(events).clients[c].Ready?
    ensures WorkFor(Reached(events).clients[c].txn, Reached(events).clients[c].work)
  {
    RunKeepsSys(events);
    assert ClientInv(Reached(events).db, Reached(events).clients[c]);
  }

  lemma SuccessStoresItem(txn: Txn, work: Work, caller: Intent)
    requires work.ApplyWork? && WorkFor(txn, work) && Prepare(txn, work).Ok?
    requires Prepare(txn, work).value.result.failureCode == None && ServiceBehaviour(caller, work.behaviour)
    ensures |Prepare(txn, work).value.result.evidence| == 1
    ensures Prepare(txn, work).value.result.evidence[0].actorId == caller.actorId
  {
    hide Prepare, Judge, Acceptable;
    var admitted, v := LocalVerdict(txn, work);
    AcceptedIffAcceptable(work.behaviour, admitted, work.actors[work.intent.actorId], work.intent, Ids(work.snap.evidence));
    DemoNotAcceptable(admitted, work.actors[work.intent.actorId], work.intent, Ids(work.snap.evidence));
  }

  lemma DemoNotAcceptable(admitted: Task, role: ActorRole, intent: Intent, known: set<string>)
    ensures !Acceptable(FailedOutcome(DEMO_FAILURE), admitted, role, intent, known)
  {
  }
}
