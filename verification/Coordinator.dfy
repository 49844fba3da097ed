// The coordinators that propose one action per cycle, and how a proposal
// becomes an authorised intent.

module Coordinators {
  import opened Results
  import opened Domain
  import opened Policy
  import opened MemorySpec
  import opened MemoryStore
  import opened Budget

  // What propose does: returns something, denies the cycle, raises another
  // exception, or is interrupted by what no handler of the service swallows.
  datatype Answer = Proposed(proposal: Proposal) | Denies(code: string) | Fails | Interrupts

  const WORKER_ACTOR := "worker-1"
  const VERIFIER_ACTOR := "verifier-1"

  function LocalProposal(task: Task, cycleKey: string, now: int, actor: string, action: Action, summaryRef: string)
    : Proposal
  {
    Mapping(RawIntent(Some(task.taskId), Some(cycleKey), ActorText(actor), Some(action), Some(task.version),
                      Some(now), Some(map["summary_ref" := Text(summaryRef)]), false))
  }

  function DeterministicProposal(task: Task, cycleKey: string, now: int): Proposal {
    LocalProposal(task, cycleKey, now, WORKER_ACTOR, RecordProgress, "synthetic-progress")
  }

  // ---- the model-backed coordinator --------------------------------------------------------

  // What the transport delivers: an exception, an interruption, text that is no
  // JSON object, or an object.
  datatype ModelReply = TransportFails | TransportInterrupted | NotAnObject | Object(fields: map<string, MetaValue>)

  datatype Choice = Choice(action: Action, summaryRef: string)

  predicate SummaryHead(c: char) {
    'a' <= c <= 'z' || '0' <= c <= '9'
  }

  predicate SummaryRef(s: string) {
    && 1 <= |s| <= 64 && SummaryHead(s[0])
    && forall i | 1 <= i < |s| :: SummaryHead(s[i]) || s[i] == '_' || s[i] == '-'
  }

  function ActionName(action: Action): string {
    match action
    case RecordProgress => "record_progress"
    case VerifyTask => "verify_task"
  }

  function ParseAction(s: string): (r: Option<Action>)
    ensures r.Some? ==> s == ActionName(r.value)
  {
    if s == "record_progress" then Some(RecordProgress)
    else if s == "verify_task" then Some(VerifyTask)
    else None
  }

  // The one reply that makes a choice.
  function Rendered(choice: Choice): ModelReply {
    Object(map["action" := Text(ActionName(choice.action)), "summary_ref" := Text(choice.summaryRef)])
  }

  function ParseChoice(reply: ModelReply): (r: Option<Choice>)
    ensures r.Some? ==> SummaryRef(r.value.summaryRef) && reply == Rendered(r.value)
  {
    if !reply.Object? || reply.fields.Keys != {"action", "summary_ref"} then None
    else if !reply.fields["action"].Text? || !reply.fields["summary_ref"].Text? then None
    else
      var action := ParseAction(reply.fields["action"].text);
      if action.None? || !SummaryRef(reply.fields["summary_ref"].text) then None
      else Some(Choice(action.value, reply.fields["summary_ref"].text))
  }

  // Accepted replies are exactly the renderings of choices with a bounded token.
  lemma ChoiceRoundTrip(choice: Choice)
    requires SummaryRef(choice.summaryRef)
    ensures ParseChoice(Rendered(choice)) == Some(choice)
  {
    var fields := Rendered(choice).fields;
    assert "action" != "summary_ref" && "record_progress" != "verify_task";
    assert fields.Keys == {"action", "summary_ref"};
  }

  function ActionActor(action: Action): string {
    match action
    case RecordProgress => WORKER_ACTOR
    case VerifyTask => VERIFIER_ACTOR
  }

  function ModelAnswer(task: Task, cycleKey: string, now: int, reply: ModelReply): Answer {
    if reply.TransportFails? then Denies(Code(ModelUnavailable))
    else if reply.TransportInterrupted? then Interrupts
    else
    match ParseChoice(reply)
    case None => Denies(Code(ModelOutputInvalid))
    case Some(choice) =>
      Proposed(LocalProposal(task, cycleKey, now, ActionActor(choice.action), choice.action, choice.summaryRef))
  }

  function FallbackAnswer(fallback: Answer): Answer {
    if fallback.Proposed? && !fallback.proposal.Mapping? then Denies(Code(FallbackInvalid)) else fallback
  }

  datatype Proposing = Proposing(state: Backing, answer: Answer, called: bool)

  // The budget is asked first; the model only when the budget admits the call.
  function ModelPropose(b: Backing, limit: int, task: Task, cycleKey: string, now: int, day: string,
                        reply: ModelReply, fallback: Answer): Proposing {
    var consumed := ConsumeModelCall(b, day, limit);
    if consumed.reply == Ok(true) then Proposing(consumed.state, ModelAnswer(task, cycleKey, now, reply), true)
    else Proposing(consumed.state, FallbackAnswer(fallback), false)
  }

  class GeminiCoordinator {
    const store: MemoryStateStore
    const limit: int

    constructor (store: MemoryStateStore, limit: int)
      ensures this.store == store && this.limit == limit
    {
      this.store, this.limit := store, limit;
    }

    // `reply` is what the transport would deliver; `called` says whether it was used.
    method Propose(task: Task, cycleKey: string, now: int, day: string, reply: ModelReply, fallback: Answer)
      returns (answer: Answer, called: bool)
      requires store.backing.Valid()
      modifies store.backing
      ensures store.backing.Valid()
      ensures Proposing(store.backing.State(), answer, called)
           == ModelPropose(old(store.backing.State()), limit, task, cycleKey, now, day, reply, fallback)
    {
      var consumed := store.ConsumeModelCall(day, limit);
      // A budget that cannot be read never admits a call.
      var admitted := consumed.Ok? && consumed.value;
      if !admitted {
        if fallback.Proposed? && !fallback.proposal.Mapping? {
          return Denies(Code(FallbackInvalid)), false;
        }
        return fallback, false;
      }
      if reply.TransportFails? {
        return Denies(Code(ModelUnavailable)), true;
      }
      if reply.TransportInterrupted? {
        return Interrupts, true;
      }
      var choice := ParseChoice(reply);
      if choice.None? {
        return Denies(Code(ModelOutputInvalid)), true;
      }
      answer := Proposed(LocalProposal(task, cycleKey, now, ActionActor(choice.value.action), choice.value.action,
                                       choice.value.summaryRef));
      return answer, true;
    }
  }

  // ---- transport calls over whole runs -------------------------------------------------------

  datatype Ask = Ask(task: Task, cycleKey: string, now: int, day: string, reply: ModelReply, fallback: Answer)

  function Days(asks: seq<Ask>): (r: seq<string>)
    ensures |r| == |asks| && forall i | 0 <= i < |asks| :: r[i] == asks[i].day
  {
    if asks == [] then [] else Days(asks[..|asks| - 1]) + [asks[|asks| - 1].day]
  }

  function BackingAfter(asks: seq<Ask>, limit: int): Backing {
    if asks == [] then EmptyBacking
    else
      var a := asks[|asks| - 1];
      ModelPropose(BackingAfter(asks[..|asks| - 1], limit), limit, a.task, a.cycleKey, a.now, a.day, a.reply,
                   a.fallback).state
  }

  // How often the transport is called on day d.
  function CallsOn(asks: seq<Ask>, limit: int, d: string): nat {
    if asks == [] then 0
    else
      var a := asks[|asks| - 1];
      var before := asks[..|asks| - 1];
      var step := ModelPropose(BackingAfter(before, limit), limit, a.task, a.cycleKey, a.now, a.day, a.reply, a.fallback);
      CallsOn(before, limit, d) + if step.called && a.day == d then 1 else 0
  }

  // The transport is called exactly as often as the budget grants a call,
  // whatever the transport and the fallback answer.
  lemma {:induction false} CallsAreGrants(asks: seq<Ask>, limit: int, d: string)
    ensures BackingAfter(asks, limit) == After(EmptyBacking, Days(asks), limit)
    ensures CallsOn(asks, limit, d) == Granted(Days(asks), limit, d)
  {
    if asks != [] {
      var before := asks[..|asks| - 1];
      CallsAreGrants(before, limit, d);
      assert Days(asks)[..|asks| - 1] == Days(before);
    }
  }

  // On a clock that never goes back, no day sees more than `limit` model calls.
  lemma ModelCallsBounded(asks: seq<Ask>, limit: int, d: string)
    requires ValidRequests(Days(asks), limit) && NonDecreasing(Days(asks))
    ensures CallsOn(asks, limit, d) == Min(limit, Requested(Days(asks), d)) <= limit
  {
    CallsAreGrants(asks, limit, d);
    ForwardClockBound(Days(asks), limit, d);
  }

  // ---- from a proposal to an authorised intent --------------------------------------------------

  // The role a proposal is judged under: that of the actor a mapping names,
  // and a worker's when it names none as text. None: not registered.
  function ResolveRole(actors: map<string, ActorRole>, p: Proposal): Option<ActorRole> {
    if p.Mapping? && p.raw.actor.ActorText? && !Blank(p.raw.actor.text) then
      if p.raw.actor.text in actors then Some(actors[p.raw.actor.text]) else None
    else Some(WORKER)
  }

  datatype Authorized = Cleared(intent: Intent) | DeniedWith(code: string) | OtherException | Interruption

  function ProposeAuthorizedIntent(actors: map<string, ActorRole>, answer: Answer, task: Task, cycleKey: string, now: int)
    : Authorized
  {
    match answer
    case Fails => OtherException
    case Interrupts => Interruption
    case Denies(code) => DeniedWith(code)
    case Proposed(p) =>
      var role := ResolveRole(actors, p);
      if role.None? then DeniedWith(Code(UnknownActor))
      else
        match AuthorizeIntent(p, task, role.value, now, Some(cycleKey))
        case Ok(intent) => Cleared(intent)
        case Raise(error) => if error.PolicyDenied? then DeniedWith(error.code) else OtherException
  }

  // What a caller of the gate may rely on: the intent is valid, current, for
  // this task and this key, and the task can still act.
  ghost predicate Current(i: Intent, task: Task, cycleKey: string, now: int) {
    && ValidIntent(i) && i.taskId == task.taskId && i.cycleKey == cycleKey && i.expectedVersion == task.version
    && 0 <= now - i.issuedAt < INTENT_MAX_AGE && StepCount(i.payload) <= 1
    && CanAct(task)
  }

  // The gate accepts exactly the current intents whose action the resolved
  // role may take, and denies everything else with one of its own codes.
  lemma GateAcceptsIff(actors: map<string, ActorRole>, p: Proposal, task: Task, cycleKey: string, now: int)
    ensures var parsed, role := ParseProposal(p), ResolveRole(actors, p);
      var accepted := parsed.Some? && Current(parsed.value, task, cycleKey, now)
                      && role.Some? && RoleAction(role.value) == Some(parsed.value.action);
      var answer := ProposeAuthorizedIntent(actors, Proposed(p), task, cycleKey, now);
      if accepted then answer == Cleared(parsed.value)
      else exists d :: answer == DeniedWith(Code(d))
  {
    var role := ResolveRole(actors, p);
    if role.Some? {
      var r := AuthorizeIntent(p, task, role.value, now, Some(cycleKey));
      if r.Raise? {
        var d :| r.error == Denied(d);
        assert ProposeAuthorizedIntent(actors, Proposed(p), task, cycleKey, now) == DeniedWith(Code(d));
      }
    } else {
      assert ProposeAuthorizedIntent(actors, Proposed(p), task, cycleKey, now) == DeniedWith(Code(UnknownActor));
    }
  }

  lemma SummaryRefIsToken(s: string)
    requires SummaryRef(s)
    ensures OpaqueToken(s)
  {
  }

  lemma LocalPayloadIsValid(summaryRef: string)
    requires OpaqueToken(summaryRef)
    ensures FieldSpecificMetadata(map["summary_ref" := Text(summaryRef)], INTENT_METADATA_KEYS)
    ensures StepCount(map["summary_ref" := Text(summaryRef)]) == 0
  {
  }

  // Model output decides nothing but the action: with the default actors
  // registered, a parsed choice is authorised exactly when the task can still
  // act, whatever else the model wrote.
  lemma ModelChoosesOnlyTheAction(actors: map<string, ActorRole>, task: Task, cycleKey: string, now: int, reply: ModelReply)
    requires WORKER_ACTOR in actors && actors[WORKER_ACTOR] == WORKER
    requires VERIFIER_ACTOR in actors && actors[VERIFIER_ACTOR] == VERIFIER
    requires !Blank(task.taskId) && !Blank(cycleKey) && ParseChoice(reply).Some?
    ensures var answer := ProposeAuthorizedIntent(actors, ModelAnswer(task, cycleKey, now, reply), task, cycleKey, now);
      var choice := ParseChoice(reply).value;
      if CanAct(task)
      then answer == Cleared(Intent(task.taskId, cycleKey, ActionActor(choice.action), choice.action, task.version, now,
                                    map["summary_ref" := Text(choice.summaryRef)]))
      else exists d :: answer == DeniedWith(Code(d))
  {
    var choice := ParseChoice(reply).value;
    var p := LocalProposal(task, cycleKey, now, ActionActor(choice.action), choice.action, choice.summaryRef);
    SummaryRefIsToken(choice.summaryRef);
    LocalPayloadIsValid(choice.summaryRef);
    assert !Blank(ActionActor(choice.action)) by { assert !IsSpace(ActionActor(choice.action)[0]); }
    GateAcceptsIff(actors, p, task, cycleKey, now);
  }
}
