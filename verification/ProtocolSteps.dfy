// Executions step by step: how runs of the protocol concatenate, and where
// single steps of a call take its client.

module ProtocolSteps {
  import opened Results
  import opened Domain
  import opened MemorySpec
  import opened FirestoreSpec
  import opened Protocol

  lemma ExecutionNone(s: System)
    ensures Execution(s, []) == s
  {
  }

  lemma ExecutionOne(s: System, e: Event)
    ensures Execution(s, [e]) == Next(s, e)
  {
    assert Execution(Next(s, e), [e][1..]) == Next(s, e);
  }

  lemma {:induction false} ExecutionConcat(s: System, first: seq<Event>, second: seq<Event>)
    ensures Execution(s, first + second) == Execution(Execution(s, first), second)
    decreases |first|
  {
    if first == [] {
      assert first + second == second;
    } else {
      assert (first + second)[0] == first[0] && (first + second)[1..] == first[1..] + second;
      ExecutionConcat(Next(s, first[0]), first[1..], second);
    }
  }

  lemma ExecutionSnoc(s: System, events: seq<Event>, e: Event)
    ensures Execution(s, events + [e]) == Next(Execution(s, events), e)
  {
    ExecutionConcat(s, events, [e]);
    ExecutionOne(Execution(s, events), e);
  }

  // One more step of a run that starts at s and has come to `now`.
  lemma Took(s: System, events: seq<Event>, now: System, e: Event) returns (more: seq<Event>, next: System)
    requires now == Execution(s, events) && LegalEvents(events) && !e.CreateTaskDoc?
    ensures more == events + [e] && next == Next(now, e) && next == Execution(s, more) && LegalEvents(more)
  {
    ExecutionSnoc(s, events, e);
    more, next := events + [e], Next(now, e);
  }

  lemma Followed(s: System, events: seq<Event>, now: System, more: seq<Event>)
    returns (all: seq<Event>, next: System)
    requires now == Execution(s, events) && LegalEvents(events) && LegalEvents(more)
    ensures all == events + more && next == Execution(now, more) && next == Execution(s, all) && LegalEvents(all)
  {
    ExecutionConcat(s, events, more);
    all, next := events + more, Execution(now, more);
  }

  lemma WithSame(s: System, c: nat)
    requires At(s, c)
    ensures With(s, c, s.clients[c]) == s
  {
  }

  // Only the latest move of a client and the latest documents count.
  lemma WithTwice(s: System, c: nat, client: Client, next: Client)
    ensures forall db {:trigger With(With(s, c, client).(db := db), c, next)} ::
              With(With(s, c, client).(db := db), c, next) == With(s.(db := db), c, next)
    ensures With(s, c, client).db == s.db && At(With(s, c, client), c) && With(s, c, client).clients[c] == client
  {
  }

  lemma StartApplyTaken(s: System, c: nat, txn: Txn, bound: Option<Intent>, incoming: Intent)
    requires At(s, c) && s.clients[c] == InBody(txn, bound) && txn.id == CycleId(incoming.taskId, incoming.cycleKey)
    requires ValidIntent(incoming) && ChosenIntent(txn, bound, incoming).Some?
    requires !(txn.id in s.db.cycles && s.db.cycles[txn.id].Finalized? && s.db.cycles[txn.id].intent != Some(incoming))
    ensures Next(s, StartApply(c, incoming)) == With(s, c, Binding(txn, bound, ChosenIntent(txn, bound, incoming).value))
  {
  }

  lemma BindTaken(s: System, c: nat, txn: Txn, bound: Option<Intent>, intent: Intent)
    ensures var step := Bind(s.db, txn, intent);
      Next(With(s, c, Binding(txn, bound, intent)), BindIntent(c))
        == With(s.(db := step.db), c, if step.reply.Ok? then Bound(txn, bound, intent) else InBody(txn, bound))
  {
    hide Bind;
  }
}
