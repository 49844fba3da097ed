// The claim, bind, execute, finalize protocol of the Firestore store as a step
// system: shared documents and any number of clients, each at some point of
// one call, interleaved arbitrarily, crashing anywhere, reading any clock.

module Protocol {
  import opened Results
  import opened Domain
  import opened MemorySpec
  import opened MemoryRuns
  import opened FirestoreSpec

  // Where a client is in its call. Everything it knows beyond the shared
  // documents is in here; `bound` is the intent its claim returned.
  datatype Client =
    | Trying(txn: Txn)                                            // in the claim loop
    | InBody(txn: Txn, bound: Option<Intent>)                     // claimed, in the transact callback
    | Binding(txn: Txn, bound: Option<Intent>, intent: Intent)    // in apply_cycle, about to bind
    | Bound(txn: Txn, bound: Option<Intent>, intent: Intent)      // about to read the task
    | Reading(txn: Txn, bound: Option<Intent>, intent: Intent, snap: TaskDoc) // about to read the registry and execute
    | Ready(txn: Txn, bound: Option<Intent>, work: Work)          // computed, about to finalize
    | Aborting(txn: Txn)                                          // the callback raised
    | Checking(txn: Txn, result: ActionResult)                    // the callback returned

  // A normal return of run_cycle_transaction.
  datatype Return = Return(id: CycleId, operation: string, result: ActionResult)

  datatype System = System(db: Db, clients: map<nat, Client>, issued: set<string>, returned: set<Return>)

  const Start := System(EmptyDb, map[], {}, {})

  datatype Event =
    | Begin(c: nat, txn: Txn)
    | TryClaim(c: nat, now: int)
    | StartApply(c: nat, intent: Intent)
    | BindIntent(c: nat)
    | ReadTask(c: nat)
    | Execute(c: nat, behaviour: Behaviour)
    | StartFail(c: nat, expectedVersion: int, code: string)
    | FinalizeWork(c: nat, now: int)
    | CallRaises(c: nat)                    // a store call of the callback fails in transport
    | BodyRaises(c: nat)
    | BodyReturns(c: nat, result: ActionResult)
    | AbortClaim(c: nat)
    | Check(c: nat)
    | Crash(c: nat)                         // a crash, or an exception that ends the call
    | CreateTaskDoc(task: Task)
    | Mutate(op: Op)
    | RegisterOne(actorId: string, role: string, expectedVersion: int)
    | RegisterMany(actors: map<string, ActorRole>)

  predicate At(s: System, c: nat) {
    c in s.clients
  }

  function With(s: System, c: nat, client: Client): System {
    s.(clients := s.clients[c := client])
  }

  function Gone(s: System, c: nat): System {
    s.(clients := s.clients - {c})
  }

  // The intent that apply_cycle goes on with: the bound one when there is one.
  function ChosenIntent(txn: Txn, bound: Option<Intent>, incoming: Intent): Option<Intent> {
    var i := if bound.Some? then bound.value else incoming;
    if ValidIntent(i) && i.taskId == txn.id.task && i.cycleKey == txn.id.key then Some(i) else None
  }

  function ClaimNext(s: System, c: nat, now: int): System
    requires c in s.clients && s.clients[c].Trying?
  {
    var txn := s.clients[c].txn;
    var step := Claim(s.db, txn, now);
    match step.reply
    case AlreadyFinalized(result) =>
      Gone(s, c).(returned := s.returned + {Return(txn.id, txn.operation, result)})
    case Waiting => s
    case Granted(_, bound) => With(s.(db := step.db), c, InBody(txn, bound))
    case Refused(_) => Gone(s, c)
  }

  function StartApplyNext(s: System, c: nat, intent: Intent): System
    requires c in s.clients && s.clients[c].InBody?
  {
    var txn, bound := s.clients[c].txn, s.clients[c].bound;
    var replaced := txn.id in s.db.cycles && s.db.cycles[txn.id].Finalized? && s.db.cycles[txn.id].intent != Some(intent);
    var chosen := ChosenIntent(txn, bound, intent);
    if !ValidIntent(intent) || replaced || chosen.None? then s
    else With(s, c, Binding(txn, bound, chosen.value))
  }

  function BindNext(s: System, c: nat): System
    requires c in s.clients && s.clients[c].Binding?
  {
    var client := s.clients[c];
    var step := Bind(s.db, client.txn, client.intent);
    With(s.(db := step.db), c,
         if step.reply.Ok? then Bound(client.txn, client.bound, client.intent) else InBody(client.txn, client.bound))
  }

  function ReadyOrBack(s: System, c: nat, txn: Txn, bound: Option<Intent>, work: Work): System {
    With(s, c, if Prepare(txn, work).Ok? then Ready(txn, bound, work) else InBody(txn, bound))
  }

  function FinalizeNext(s: System, c: nat, now: int): System
    requires c in s.clients && s.clients[c].Ready?
  {
    var client := s.clients[c];
    var prepared := Prepare(client.txn, client.work);
    if prepared.Raise? then With(s, c, InBody(client.txn, client.bound))
    else
      var step := Finalize(s.db, client.txn, prepared.value, now);
      With(s.(db := step.db), c, InBody(client.txn, client.bound))
  }

  function CheckNext(s: System, c: nat): System
    requires c in s.clients && s.clients[c].Checking?
  {
    var txn, result := s.clients[c].txn, s.clients[c].result;
    if txn.id in s.db.cycles && s.db.cycles[txn.id].Finalized?
       && s.db.cycles[txn.id].operation == txn.operation && s.db.cycles[txn.id].result == result then
      Gone(s, c).(returned := s.returned + {Return(txn.id, txn.operation, result)})
    else
      Gone(s, c)
  }

  // One step. An event that is not enabled leaves the system as it is.
  function Next(s: System, e: Event): System {
    match e
    case Begin(c, txn) =>
      if c !in s.clients && txn.owner !in s.issued && ValidTxn(txn)
      then With(s.(issued := s.issued + {txn.owner}), c, Trying(txn)) else s
    case TryClaim(c, now) => if At(s, c) && s.clients[c].Trying? then ClaimNext(s, c, now) else s
    case StartApply(c, intent) =>
      if At(s, c) && s.clients[c].InBody? && intent.taskId == s.clients[c].txn.id.task
         && intent.cycleKey == s.clients[c].txn.id.key
      then StartApplyNext(s, c, intent) else s
    case BindIntent(c) => if At(s, c) && s.clients[c].Binding? then BindNext(s, c) else s
    case ReadTask(c) =>
      if At(s, c) && s.clients[c].Bound? then
        var client := s.clients[c];
        With(s, c, if client.txn.id.task in s.db.tasks
                   then Reading(client.txn, client.bound, client.intent, s.db.tasks[client.txn.id.task])
                   else InBody(client.txn, client.bound))
      else s
    case Execute(c, behaviour) =>
      if At(s, c) && s.clients[c].Reading? then
        var client := s.clients[c];
        ReadyOrBack(s, c, client.txn, client.bound,
                    ApplyWork(client.intent, behaviour, client.snap, s.db.actors, s.db.registryVersion))
      else s
    case StartFail(c, v, code) =>
      if At(s, c) && s.clients[c].InBody? && s.clients[c].txn.id.task in s.db.tasks then
        var client := s.clients[c];
        ReadyOrBack(s, c, client.txn, client.bound, FailWork(v, code, s.db.tasks[client.txn.id.task]))
      else s
    case FinalizeWork(c, now) => if At(s, c) && s.clients[c].Ready? then FinalizeNext(s, c, now) else s
    case CallRaises(c) =>
      if At(s, c) && (s.clients[c].Binding? || s.clients[c].Bound? || s.clients[c].Reading? || s.clients[c].Ready?)
      then With(s, c, InBody(s.clients[c].txn, s.clients[c].bound)) else s
    case BodyRaises(c) => if At(s, c) && s.clients[c].InBody? then With(s, c, Aborting(s.clients[c].txn)) else s
    case BodyReturns(c, result) =>
      if At(s, c) && s.clients[c].InBody? then With(s, c, Checking(s.clients[c].txn, result)) else s
    case AbortClaim(c) =>
      if At(s, c) && s.clients[c].Aborting? then Gone(s.(db := Abort(s.db, s.clients[c].txn)), c) else s
    case Check(c) => if At(s, c) && s.clients[c].Checking? then CheckNext(s, c) else s
    case Crash(c) => Gone(s, c)
    case CreateTaskDoc(task) => s.(db := CreateDoc(s.db, task).db)
    case Mutate(op) => if op.Append? || op.WriteBaton? then s.(db := MutateTask(s.db, op).db) else s
    case RegisterOne(a, role, v) => s.(db := RegisterDoc(s.db, a, role, v).db)
    case RegisterMany(actors) => s.(db := InitializeDoc(s.db, actors).db)
  }

  function Execution(s: System, events: seq<Event>): System
    decreases |events|
  {
    if events == [] then s else Execution(Next(s, events[0]), events[1..])
  }

  function Reached(events: seq<Event>): System {
    Execution(Start, events)
  }

  // Tasks are created only as Task.new builds them.
  predicate CreatesFreshDoc(e: Event) {
    e.CreateTaskDoc? ==> Fresh(e.task)
  }

  ghost predicate LegalEvents(events: seq<Event>) {
    forall i | 0 <= i < |events| :: CreatesFreshDoc(events[i])
  }
}
