# Control Room: bounded agent cycles, verified

The control room lets an untrusted coordinator (a fixed script or a language
model) propose one action per *cycle* on a synthetic task. A policy gate decides
which proposals may act, a worker and a separate verifier act under small
budgets, and a store commits each cycle exactly once under the caller's
idempotency key. Two stores offer this: one in memory, under a lock, and one on
Firestore documents, where only small transactions are atomic and the expensive
part of a cycle runs between them under a lease.

This project models that system and proves what it promises. It is written in
Dafny 4.11; `dafny verify dfyconfig.toml` checks all of it.

## How the files build on each other

| files | content |
|---|---|
| `Domain`, `DomainLaws`, `Policy` | tasks, intents, evidence, metadata, the transition table; validation field by field; the gate and the PASS evidence loop |
| `MemorySpec`, `MemoryStore` | the atomic store as functions on a value, and as a class that updates its dictionaries in place, each method proved equal to its function |
| `MemoryContracts`, `MemoryLaws`, `MemoryRuns`, `MemoryInvariant`, `MemoryTheorems` | each operation in terms of the stored fields alone; one call; the effect of each operation; the inductive invariant; theorems about every run |
| `FirestoreSpec`, `FirestoreContracts`, `FirestoreStore` | the Firestore transactions as functions on the shared documents, each one in terms of the document fields alone, and as a class whose whole calls are proved to be runs of the protocol below |
| `Protocol`, `ProtocolInvariant`, `ProtocolSafety` | any number of clients, each at some point of one call, interleaved arbitrarily, crashing anywhere, reading any clock; the invariant of that system |
| `Refinement`, `Simulation`, `FirestoreTheorems` | every step is a stutter or one memory operation; what follows for every execution |
| `ProtocolSteps`, `Progress` | executions step by step; claimed work can always be finished |
| `Budget`, `Coordinator` | the daily model-call counter over request sequences; the model-backed coordinator and role resolution |
| `Service`, `ServiceContracts`, `CanonicalJson`, `ServiceLaws`, `ServiceRuns` | the service methods; each one in terms of its inputs; the canonical operation read back as JSON; which calls store a record; every sequence of service calls |
| `ServiceProtocol`, `Scenarios` | the service's calls on the Firestore protocol; executions from the empty collection that reach the cases below |

Modelling conventions. An action callback is a value saying what it does when it
is handed a task (`Behaviour`): it may raise anything or return anything, and it
is universally quantified in every theorem. Timestamps are integers
(microseconds), and every step reads an arbitrary one. Document names are
injective, so documents are maps keyed by task, by task and cycle key, or by
evidence identifier. An owner token is fresh. A canonical intent is the intent
itself. A transaction commits as one step or changes nothing; a transaction that
fails in transport is the step `CallRaises` or `Crash`. Tasks are created as
`Task.new` builds them.

## Where the code does not do what one expects of it

* **A cycle can be lost although its gate accepted it** (`ServiceLaws.CycleCommitsIff`).
  The service stores one record per cycle except for exactly these answers of its
  coordinator: a proposal whose actor nobody looked up (an `Intent` object, a
  mapping that is no `dict`, a `dict` whose actor is no `str`), which the gate
  accepts as a worker's, for an actor not registered as a worker
  (`UncheckedActorIsLost`); a denial whose code is no opaque token
  (`ProseDenialIsLost`); and an interruption that no handler catches. The first
  two are reached in a service run (`ServiceRuns.SampleVerifierObjectIsLost`,
  `ServiceRuns.SampleDenialIsLost`). The coordinators that ship with the service
  give none of these answers unless interrupted (`ShippedCycleCommits`).
* **The daily bound holds only while a day is one uninterrupted run of requests**
  (`Budget.DailyBoundIff`): the counter remembers one day, so a clock that goes
  back over midnight starts that day again (`BackwardClockExceedsBound`).
* **A bound intent is kept if and only if no denial finalizes its cycle**
  (`FirestoreTheorems.BoundIntentWriteOnce`): a call that takes the cycle over and
  is denied records no intent (`Scenarios.DenialAfterTakeover`).
* **A failure code can differ between the stores**, exactly when the gate denies a
  PASS that also reuses another task's evidence identifier
  (`FirestoreTheorems.FinalizeIsOneAtomicCycle`); an execution reaches and commits
  that case (`Scenarios.MaskedDenialCommits`). Firestore sees only its own task's
  identifiers and records the gate's denial, the memory store records
  `invalid_outcome`. An otherwise acceptable outcome with such an identifier is
  not recorded by Firestore at all: its finalization raises
  (`Refinement.CrossTaskSuccessIsRefused`).
* **After a takeover the stored evidence can speak for another actor than the
  recorded intent** (`ServiceProtocol.EvidenceSpeaksForCaller`): a service call
  builds its evidence from the intent it came with, while Firestore records the
  intent an earlier call had bound. They name the same actor if and only if no
  other actor's intent was bound before; an execution reaches the other case
  (`Scenarios.TakeoverMisattributes`). On the memory store they always do
  (`ServiceRuns.EvidenceSpeaksForRecord`).

## Model

| member | source | states |
|---|---|---|
| Domain.MetadataCarriesOnlyTokens | control_room/domain.py:81-107 | every string inside accepted metadata, at any nesting, is a bounded opaque token under an allowed key; only `steps` may hold a list, of at most eight |
| DomainLaws.KeysBoundSize | control_room/domain.py:91-107 | metadata is accepted exactly when every key is allowed and every value is of the kind of its key; the bound on the number of entries never decides |
| DomainLaws.OpaqueTokenMeans | control_room/domain.py:81-88 | an opaque token is 1 to 128 ASCII letters, digits, dots, underscores and dashes, with a letter or digit first |
| DomainLaws.ValidEvidenceMeans | control_room/domain.py:180-195 | evidence is valid exactly when its four identifiers are tokens, its kind is one of three and its reference is metadata under six keys |
| DomainLaws.ValidIntentMeans | control_room/domain.py:164-177 | an intent is valid exactly when its names are not blank, its version is not negative and its payload is metadata under five keys |
| DomainLaws.BatonMeans | control_room/domain.py:118-121 | a baton is metadata under three keys |
| DomainLaws.TaskFieldsMean | control_room/domain.py:136-155 | the fields of a task: not blank, at least one check, no check twice |
| Domain.NewTask | control_room/domain.py:136-161 | a task is built exactly from nonblank, unique fields, carries them, and starts fresh |
| Domain.TransitionTask | control_room/domain.py:215-233 | succeeds exactly along one of the listed edges, never from a terminal state, and moves nothing but the state |
| Domain.Evidence.TypedVerificationStatus | control_room/domain.py:197-204 | verified exactly when the reference carries the text `verified` as its status, not verified exactly for `failed`, and a ValueError for everything else |
| Policy.ParseProposal | control_room/policy.py:40-44 | an intent object is accepted exactly when valid, a mapping exactly when it carries a valid intent, which is then the result; anything else is refused |
| Policy.GateNamesFirstBrokenRule | control_room/policy.py:32-68 | the gate accepts exactly the intents that parse and keep all eight rules, and otherwise denies under the first rule broken, in the order of enforcement |
| Policy.CodesAreTokens | control_room/policy.py:40-68 | every denial code of the gate, the store, the PASS gate and the model coordinator can be stored as a failure code |
| Policy.CodesDistinct | control_room/policy.py:40-68 | no two reasons share a code |
| Policy.RequirePassEvidence | control_room/policy.py:71-96 | the loop accepts exactly when a worker is recorded, the verifier is someone else, every item of the verifier's about this task carries the status `verified`, and every required check has such an item; otherwise it raises the error of the first of these that fails |
| Policy.PassGateMeans | control_room/policy.py:79-96 | coverage and the absence of contrary evidence in terms of the stored fields of the items |
| MemorySpec.Classify | control_room/state.py:307-320 | a returned outcome counts exactly when valid, a raised exception becomes a failure under its own code, `invalid_outcome` or `action_exception`, and an interruption or garbage becomes nothing |
| MemoryStore.MemoryBacking.constructor | control_room/state.py:79-91 | a new backing is empty |
| MemoryStore.MemoryBacking.Snapshot | control_room/state.py:577-608 | the private backing decoded from one task document: its task, evidence, identifiers and baton |
| MemoryStore.MemoryBacking.Registry | control_room/state.py:626-643 | the private backing decoded from the registry document |
| MemoryStore.MemoryStateStore.CreateTask | control_room/state.py:175-183 | adds exactly a new task with an empty evidence list within the bound, or raises and changes nothing |
| MemoryStore.MemoryStateStore.AppendEvidence | control_room/state.py:237-249 | appends one valid item under a fresh identifier and raises the version by one, or raises and changes nothing |
| MemoryStore.MemoryStateStore.SetBaton | control_room/state.py:464-475 | replaces the baton and raises the version by one, or raises and changes nothing |
| MemoryStore.MemoryStateStore.GetCycleResult | control_room/state.py:446-462 | the recorded result, nothing, or a conflict for another operation |
| MemoryStore.MemoryStateStore.CollectEvidence | control_room/state.py:333-345 | the loop accepts exactly valid items about this task with fresh, pairwise distinct identifiers, and then returns them all with their identifiers |
| MemoryStore.MemoryStateStore.JudgeOutcome | control_room/state.py:307-376 | the decision on a callback: what to store, or the code of the failure to record |
| MemoryStore.MemoryStateStore.AdmitCycle | control_room/state.py:275-304 | which intents are admitted, with the error of the first check that fails, and the task the callback is handed |
| MemoryStore.MemoryStateStore.StoreCycle | control_room/state.py:377-397 | the writes of an admitted cycle, for a success and for a failure |
| MemoryStore.MemoryStateStore.ApplyCycle | control_room/state.py:251-397 | replay, conflict, admission, callback, judgement and commit as one atomic step; what the callback was handed |
| MemoryStore.MemoryStateStore.FailCycle | control_room/state.py:399-432 | replay, conflict, or the record of one denial |
| MemoryStore.MemoryStateStore.RegisterActor | control_room/state.py:482-499 | adds an actor under the expected registry version; a registered role never changes |
| MemoryStore.MemoryStateStore.FindRoleConflict | control_room/state.py:504-507 | the first loop finds a conflict exactly when some given role disagrees with a registered one |
| MemoryStore.MemoryStateStore.AddMissingActors | control_room/state.py:508-511 | the second loop adds exactly the missing actors and counts them |
| MemoryStore.MemoryStateStore.InitializeActors | control_room/state.py:501-512 | all or nothing: merges the roles or raises |
| MemoryStore.MemoryStateStore.GetActorRole | control_room/state.py:518-523 | the registered role, or KeyError |
| MemoryStore.MemoryStateStore.ConsumeModelCall | control_room/state.py:529-536 | admits a call while the day has budget, and then remembers only that day |
| MemoryContracts.HandedIff | control_room/state.py:262-306 | a callback is handed a task if and only if the intent is valid, its key unused, its task stored, at the expected version, not terminal and within both budgets, and its actor is registered in the role for its action |
| MemoryContracts.HandedTask | control_room/state.py:290-304 | what it is handed: one more version and action, no longer queued, the first worker recorded |
| MemoryContracts.NotHandedRaises | control_room/state.py:275-288 | otherwise the error of the first check that fails, and no change |
| MemoryContracts.UsedKeyAnswers | control_room/state.py:262-273 | an invalid intent is refused, a used key answers with the recorded result or a conflict |
| MemoryContracts.OperationNameContract | control_room/state.py:251-262 | an absent or empty operation is recorded as `apply_cycle` |
| MemoryContracts.FailureCodeContract | control_room/state.py:307-376 | the code recorded for a rejected callback, for every behaviour: its own code, `action_exception`, the denial of the PASS gate, or `invalid_outcome` |
| MemoryContracts.FailCycleContract | control_room/state.py:399-432 | fail_cycle in terms of stored fields: the replay, the conflict, the error of the first failing check, and the one record it leaves |
| MemoryContracts.AppendEvidenceContract | control_room/state.py:237-249 | when an append commits, what it leaves, and which error it raises otherwise |
| MemoryContracts.SetBatonContract | control_room/state.py:464-475 | the same for a baton |
| MemoryContracts.CreateTaskContract | control_room/state.py:175-183 | the same for a new task |
| MemoryContracts.GetCycleResultContract | control_room/state.py:446-462 | the recorded result exactly under its own operation or none |
| MemoryContracts.RegisterActorContract | control_room/state.py:482-499 | when a registration commits, what it leaves, and which error it raises otherwise |
| MemoryContracts.UnknownRoleIsRefused | control_room/state.py:482-499 | a name that is no role registers nobody |
| MemoryContracts.NewActorsCounted | control_room/state.py:508-512 | initialisation raises the registry version by the number of actors that were not registered |
| MemoryContracts.RoleConflictRaises | control_room/state.py:504-507 | one disagreeing role refuses the whole initialisation |
| MemoryContracts.InitializeActorsContract | control_room/state.py:501-512 | otherwise every given actor is registered in its role, everyone else as before, and nothing else changes |
| MemoryContracts.ConsumeModelCallContract | control_room/state.py:529-536 | a call is granted exactly below the limit for the stored count of that day |
| MemoryContracts.BudgetDayMeans | control_room/state.py:566 | a budget day is four, two and two digits with dashes between them |
| MemoryLaws.AcceptedIffAcceptable | control_room/state.py:318-367 | a callback succeeds if and only if it returns a valid outcome with admissible evidence, a legal target other than FAILED and, for PASSED, a separate verifier with full coverage |
| MemoryLaws.RejectedCodeIsToken | control_room/state.py:368-374 | whatever a callback does, the recorded failure code is a bounded opaque token |
| MemoryLaws.AdmittedCycleCommitsOnce | control_room/state.py:290-397 | an admitted cycle commits exactly one record: a full success exactly for an acceptable outcome, and otherwise NEEDS_OPERATOR with no evidence, no baton and one failure |
| MemoryLaws.UnadmittedCycleChangesNothing | control_room/state.py:262-288 | only an admitted cycle reaches its callback; one that raises leaves the whole backing unchanged |
| MemoryLaws.SpentTaskIsNeverHanded | control_room/state.py:277-280 | a task that is terminal or out of budget is never handed to a callback |
| MemoryLaws.CommittedKeyReplays | control_room/state.py:263-273 | a committed key answers the same operation and intent with the recorded result and anything else with a conflict, without a callback or a change |
| MemoryLaws.RepeatedCallReplays | control_room/state.py:263-273 | repeating a committed call replays it, whatever the callback would now do |
| MemoryLaws.FailCycleSpendsNoBudget | control_room/state.py:419-432 | a recorded denial costs one version and no action or failure budget, and replays |
| MemoryRuns.RaisingChangesNothing | control_room/state.py:175-536 | every operation that raises leaves the entire backing as it was |
| MemoryRuns.EffectOf | control_room/state.py:175-536 | what each operation may touch: nothing, one new task, one direct write, one committed cycle, or the registry |
| MemoryInvariant.StepKeepsInv | control_room/state.py:175-536 | every operation keeps the invariant: counters are sizes of sets of committed cycles, workers are registered, passed tasks are certified, evidence is filed once under its task, identifiers are exact |
| MemoryTheorems.RunKeepsInv | control_room/state.py:175-536 | every run of store operations satisfies that invariant |
| MemoryTheorems.RunContinues | control_room/state.py:175-536 | in every continuation roles, committed cycles, identities and workers stay, evidence only grows at its end, passed tasks are frozen and failed ones stay stopped |
| MemoryTheorems.OnlyLegalMoves | control_room/domain.py:215-233 | in every run each stored state change is an edge of the table, FAILED is never entered, and a recorded worker is never replaced |
| MemoryTheorems.PassIntegrity | control_room/state.py:346-361 | a passed task of any run has a registered worker, another registered verifier, for every required check a stored item of that verifier of kind `verification` whose reference carries the status `verified`, no failure and two or three actions |
| MemoryTheorems.BreakerAbsorbs | control_room/state.py:277-280 | once an action has failed, the task stays NEEDS_OPERATOR in every continuation and no callback is ever handed it |
| MemoryTheorems.ReplaysForever | control_room/state.py:263-273 | a committed key replays or conflicts in every continuation, for apply_cycle and fail_cycle |
| MemoryTheorems.BudgetAccounting | control_room/state.py:279-329 | tool_actions is the number of committed cycles with an intent, at most three; failed_actions that of those with a failure code, at most one |
| MemoryTheorems.VersionAccounting | control_room/state.py:245-424 | a task's version is its committed cycles plus its committed appends and baton writes |
| MemoryTheorems.CyclesCommitInTurn | control_room/state.py:275-297 | optimistic concurrency over every run: a committed action was decided on exactly the version before its own, and no two cycles of a task commit at the same version |
| MemoryTheorems.EvidenceConserved | control_room/state.py:237-249 | evidence lists grow only at their end, identifiers are unique across tasks, and the identifier set is exact |
| ProtocolInvariant.ClaimKeepsDb | control_room/state.py:897-1001 | claiming, also by takeover or over an expired other cycle, keeps locks, bounds and markers, and changes nothing unless granted |
| ProtocolInvariant.AbortKeepsDb | control_room/state.py:1040-1055 | giving a claim back keeps locks, bounds and markers |
| ProtocolInvariant.BindKeepsDb | control_room/state.py:1116-1147 | binding an intent keeps locks, bounds and markers |
| ProtocolInvariant.PrepareComputes | control_room/state.py:1103-1202 | what a client computes on its snapshot: one more cycle, one more version, evidence appended, the intent it worked with |
| ProtocolInvariant.FinalizeKeepsDb | control_room/state.py:1204-1242 | overwriting the whole task document with a value computed earlier keeps locks, bounds and markers |
| ProtocolInvariant.MutateKeepsDb | control_room/state.py:801-823 | direct writes keep locks, bounds and markers |
| ProtocolInvariant.CreateKeepsDb | control_room/state.py:835-868 | creation keeps locks, bounds and markers |
| ProtocolInvariant.RegistryKeepsDb | control_room/state.py:1285-1292 | registry writes keep locks, bounds and markers |
| ProtocolSafety.FinalizeFences | control_room/state.py:1204-1242 | a finalization under one owner token touches no task on which another owner holds a claim |
| ProtocolSafety.MutateFences | control_room/state.py:806-809 | a direct write never touches a task with a held claim |
| ProtocolSafety.ReclaimFences | control_room/state.py:959-1001 | taking over, clearing or giving back a claim leaves every other holder's claim and task as they were |
| ProtocolSafety.StepKeepsSys | control_room/state.py:801-1292 | every step of every client keeps the system invariant: tokens are issued once, a held claim records its client's intent, its snapshot still matches the live document, and every result returned is recorded |
| ProtocolSafety.RunKeepsSys | control_room/state.py:801-1292 | the system invariant holds in every reachable state, for every interleaving, crash and clock |
| Refinement.ClaimStutters | control_room/state.py:897-1001 | no claim or takeover changes what the documents stand for |
| Refinement.AbortStutters | control_room/state.py:1040-1055 | nor does giving a claim back |
| Refinement.BindStutters | control_room/state.py:1129-1147 | nor does binding an intent |
| Refinement.FinalizedDocs | control_room/state.py:1204-1242 | what a committed finalization leaves: the claim was held, the document is the computed one, and the cycle is final |
| Refinement.SameBehaviourRefines | control_room/state.py:1107-1114 | a committed finalization equals the memory apply_cycle on the current documents, up to a failure code that differs for exactly the masked denials |
| Refinement.RejectedAgreesIff | control_room/state.py:333-356 | a rejection judged on one task's identifiers stays one against all identifiers, with the same code except for exactly the masked denials |
| Refinement.CrossTaskSuccessIsRefused | control_room/state.py:1215-1218 | a success that reuses another task's identifier is never committed: its finalization raises and changes nothing |
| Refinement.MaskedDenialHappens | control_room/state.py:333-356 | one outcome is judged differently on one task's identifiers and on all |
| Refinement.ApplyFinalizeRefines | control_room/state.py:1172-1242 | every committed apply finalization is one successful memory operation |
| Refinement.FailFinalizeRefines | control_room/state.py:1172-1242 | every committed denial is one memory fail_cycle |
| Simulation.MutateRefines | control_room/state.py:801-823 | a committed direct write is the same memory operation on all tasks |
| Simulation.StepRefines | control_room/state.py:801-1292 | every step of the system is a stutter or exactly one memory operation |
| Simulation.ExecutionRefines | control_room/state.py:801-1292 | so is every execution from a state that satisfies the invariant |
| Simulation.ReachedRefines | control_room/state.py:801-1292 | from the empty collection, the documents always stand for a state that a memory run reaches |
| FirestoreTheorems.ActiveIffClaimed | control_room/state.py:924-1001 | active_cycle names a key exactly when that cycle is claimed; so at most one cycle of a task is claimed, and it has room to be finalized |
| FirestoreTheorems.NoLostUpdate | control_room/state.py:1183-1219 | whenever a finalization commits, the snapshot read outside the transaction still equals the live document apart from active_cycle, and the write adds exactly this cycle to it: its task, evidence, count, and the baton of its outcome if it has one |
| FirestoreTheorems.FinalizeIsOneAtomicCycle | control_room/state.py:1107-1114 | each committed apply finalization is one atomic memory cycle on the current documents, with the exact condition under which its failure code differs |
| FirestoreTheorems.FinalizedForever | control_room/state.py:914-933 | a finalized cycle document is never changed or deleted |
| FirestoreTheorems.ReturnsAgree | control_room/state.py:1003-1038 | all calls that ever return normally for one task and key return the same, recorded result |
| FirestoreTheorems.BoundIntentWriteOnce | control_room/state.py:942-958 | across crashes and takeovers a cycle keeps the first intent bound to it if and only if no step finalizes it as a denial, which records none |
| FirestoreTheorems.FinalizeRecordsBoundIntent | control_room/state.py:1096-1114 | an apply finalization is computed from and records exactly the bound intent; a denial records none |
| FirestoreTheorems.FirestoreAccounting | control_room/state.py:1199-1201 | cycle_count is the number of finalized cycles, at most 64; action and failure counters as in memory; at most 24 evidence items and 256 tasks |
| FirestoreTheorems.FirestoreVersions | control_room/state.py:1199-1219 | a task's version is its cycle_count plus its committed direct writes |
| FirestoreTheorems.FinalizedInTurn | control_room/state.py:1204-1242 | in every execution a finalized action was decided on exactly the version before its own, and no two cycles of a task are finalized at the same version |
| FirestoreTheorems.FirestorePassIntegrity | control_room/state.py:1107-1114 | PASS integrity for the shared documents, in the same literal fields, in every execution |
| FirestoreTheorems.MarkersExact | control_room/state.py:812-821 | the evidence markers are exactly the identifiers stored in task documents, each naming its one task |
| FirestoreTheorems.FirestoreContinues | control_room/state.py:801-1292 | what every continuation keeps, lifted to the documents |
| FirestoreTheorems.FirestoreLegalMoves | control_room/domain.py:215-233 | every step moves stored tasks along the table only, and no task is ever FAILED |
| FirestoreTheorems.LeaseExclusive | control_room/state.py:924-933 | at any clock reading exactly one holds on expiry grounds: the owner may finalize, or the claim may be taken over |
| FirestoreTheorems.ClaimGrantedIff | control_room/state.py:897-1001 | in every reachable state, exactly when a claim is granted |
| FirestoreTheorems.GrantedLease | control_room/state.py:902-903 | a granted claim is held for 120 seconds |
| FirestoreTheorems.HeldClaimExcludes | control_room/state.py:924-974 | while a claim is held and not expired, no claim on its task is granted, under its own key or another |
| FirestoreTheorems.LeaseExcludesRivals | control_room/state.py:924-974 | so it is along every execution whose claims read the clock before the expiry and in which the owner keeps its claim, which then stands |
| Progress.NeverWedged | control_room/state.py:924-1001 | in every reachable state in which a claim can be granted, a new caller within its lease gets a denial finalized; so a crashed owner never wedges a task |
| Progress.AbortFreesTask | control_room/state.py:1025-1055 | in every reachable state, once a holder whose callback raised has given its claim back, any claim on that task under its own or a new key is granted at any clock reading |
| Progress.ActionCommits | control_room/state.py:1063-1242 | in every such state, an uninterrupted action that the store admits commits at any later reading within its lease if and only if its outcome is rejected, or its evidence fits and none of it is stored; what it commits is the verdict on its callback |
| Scenarios.FirstActionCommits | control_room/state.py:1063-1242 | from the empty collection, every public task and every worker can have a first action committed |
| Scenarios.MaskedDenialCommits | control_room/state.py:333-376 | from the empty collection an execution commits `pass_requires_verifier` where the memory cycle on the same documents records `invalid_outcome` |
| Scenarios.SampleMaskedDenial | control_room/state.py:333-376 | the same for one choice of names |
| Scenarios.DenialAfterTakeover | control_room/state.py:942-995 | an execution binds an intent, and after its lease another call's denial finalizes the cycle without it |
| Scenarios.SampleDroppedIntent | control_room/state.py:942-995 | the same for one choice of names |
| Scenarios.TakeoverMisattributes | control_room/service.py:119-135 | an execution of two service calls commits a verifier's intent with evidence in a worker's name |
| Scenarios.SampleMisattribution | control_room/service.py:119-135 | the same for one choice of names |
| ServiceProtocol.EvidenceSpeaksForCaller | control_room/service.py:119-135 | on Firestore a successful service cycle stores one item in the name of its caller's actor, which is the recorded one if and only if no other actor's intent was bound before |
| FirestoreContracts.ClaimReplies | control_room/state.py:897-1001 | for every state and clock reading, exactly when a claim answers with the recorded result, waits, is granted, or is refused, and with which error |
| FirestoreContracts.GrantedWrites | control_room/state.py:942-1001 | what a granted claim writes: the pointer of the task and its own document for 120 seconds, and the removal of an expired other claim |
| FirestoreContracts.AbortReleases | control_room/state.py:1040-1055 | giving a held claim back deletes its document and clears the pointer of its task, and nothing else; without the claim nothing changes |
| FirestoreContracts.BindContract | control_room/state.py:1116-1147 | when an intent is bound, kept or refused, and what is written |
| FirestoreContracts.FinalizeContract | control_room/state.py:1204-1242 | when a finalization commits, with the error of the first failing check, and every document it writes |
| FirestoreContracts.AppendCommitsIff | control_room/state.py:801-823 | an append commits if and only if its task is stored, unclaimed, not terminal and at the expected version, the item valid, its identifier unmarked and the evidence below its bound; and what it leaves |
| FirestoreContracts.AppendRaises | control_room/state.py:801-823 | otherwise the error of the first failing check, and no change |
| FirestoreContracts.BatonContract | control_room/state.py:801-823 | the same for a baton |
| FirestoreContracts.CreateDocContract | control_room/state.py:826-868 | creation in terms of the fields of a public task and the global counter |
| FirestoreContracts.OtherTitlesAreRefused | control_room/state.py:826-833 | no task without the synthetic prefix in its title is created |
| FirestoreContracts.RegistryContract | control_room/state.py:1285-1292 | a registry write within 64 actors, or none |
| FirestoreContracts.RegistryOperations | control_room/state.py:1272-1283 | registrations reach the registry only under well-formed identifiers |
| FirestoreContracts.ActorIdMeans | control_room/state.py:684-690 | a well-formed actor identifier, character by character |
| FirestoreStore.FirestoreStateStore.AllUnmarked | control_room/state.py:813-816 | the loop finds a marker exactly when one of the identifiers has one |
| FirestoreStore.FirestoreStateStore.SetMarkers | control_room/state.py:818-819 | the loop adds exactly the markers of the new identifiers |
| FirestoreStore.FirestoreStateStore.EvidenceUnmarked | control_room/state.py:1215-1218 | the same for the evidence of a finalization |
| FirestoreStore.FirestoreStateStore.MarkEvidence | control_room/state.py:1220-1221 | the same for the evidence of a finalization |
| FirestoreStore.FirestoreStateStore.Claim | control_room/state.py:897-1001 | the claim transaction in place, every branch |
| FirestoreStore.FirestoreStateStore.AbortClaim | control_room/state.py:1040-1055 | the abort transaction in place |
| FirestoreStore.FirestoreStateStore.BindClaimIntent | control_room/state.py:1116-1147 | the bind transaction in place |
| FirestoreStore.FirestoreStateStore.FinalizeClaim | control_room/state.py:1204-1242 | the finalize transaction in place, with its marker loops |
| FirestoreStore.FirestoreStateStore.TaskDocument | control_room/state.py:611-623 | the document of a task in a private backing, within the evidence bound |
| FirestoreStore.FirestoreStateStore.ComputeApply | control_room/state.py:1107-1114 | running the memory store on a private snapshot outside any transaction |
| FirestoreStore.FirestoreStateStore.ComputeFail | control_room/state.py:1172-1181 | the same for a denial |
| FirestoreStore.FirestoreStateStore.MutateTask | control_room/state.py:801-823 | a direct write on a decoded private backing, with its marker loops |
| FirestoreStore.FirestoreStateStore.CreateTask | control_room/state.py:835-868 | creation under the public-task rule and the global counter |
| FirestoreStore.FirestoreStateStore.RegisterActor | control_room/state.py:1272-1278 | registration on the decoded registry, within its bound |
| FirestoreStore.FirestoreStateStore.InitializeActors | control_room/state.py:1280-1292 | initialisation on the decoded registry, within its bound |
| FirestoreStore.FirestoreStateStore.ConsumeModelCall | control_room/state.py:1305-1322 | the budget transaction in place |
| FirestoreStore.FirestoreStateStore.ClaimLoop | control_room/state.py:1003-1022 | the retry loop is a run of claim steps; its answer is the first one that does not wait, or the last of a hundred retries, with the documents that claim leaves |
| FirestoreStore.FirestoreStateStore.OpenClaim | control_room/state.py:881-1022 | a fresh token and the claim loop as one run of the protocol |
| FirestoreStore.FirestoreStateStore.ApplyInClaim | control_room/state.py:1071-1114 | apply_cycle under a claim is a run of the protocol; it returns exactly when that run commits, and then what it stored; raising leaves the documents standing for the same backing |
| FirestoreStore.FirestoreStateStore.RunCycleTransaction | control_room/state.py:881-1038 | a whole call is a run of the protocol: its answer follows the first claim answer that does not wait, and a granted call returns exactly when its run commits; a normal return is recorded, an exception leaves what the documents stand for; either way no claim of the call is left |
| FirestoreStore.FirestoreStateStore.ApplyCycle | control_room/state.py:1063-1114 | the same for apply_cycle called outside a claim, with its refusals of an invalid intent and of a key finalized under another intent |
| FirestoreStore.FirestoreStateStore.FailCycle | control_room/state.py:1149-1181 | the same for fail_cycle called outside a claim |
| Budget.CountersAgree | control_room/state.py:1305-1322 | one step of the memory counter and of the document answer alike and stay in agreement |
| Budget.CountersAgreeAlways | control_room/state.py:667-681 | so they do after every sequence of requests |
| Budget.CounterHoldsTail | control_room/state.py:529-536 | the counter holds the length of the last run of one day, capped at the limit |
| Budget.DailyBoundIff | control_room/state.py:529-536 | a day is granted min(limit, requests) if and only if its requests are one uninterrupted run or do not outnumber the limit; and it stays within the limit in exactly those cases |
| Budget.ForwardClockBound | control_room/state.py:529-536 | for non-decreasing days every day is granted exactly min(limit, requests) |
| Budget.BackwardClockExceedsBound | control_room/state.py:529-536 | three requests, limit one, two grants on one day |
| Coordinators.ParseChoice | control_room/agents/gemini.py:63-92 | an accepted reply is the rendering of the choice, with a bounded summary token |
| Coordinators.ChoiceRoundTrip | control_room/agents/gemini.py:63-92 | the rendering of every choice with a bounded token is accepted as that choice |
| Coordinators.GeminiCoordinator.Propose | control_room/agents/gemini.py:109-136 | the budget is consumed first, the transport is used exactly when the budget admits the call, and every failure is a denial or the fallback |
| Coordinators.CallsAreGrants | control_room/agents/gemini.py:109-136 | over any sequence of proposals the transport is used exactly as often as calls are granted |
| Coordinators.ModelCallsBounded | control_room/agents/gemini.py:5-11 | no day of a forward clock sees more model calls than the limit |
| Coordinators.GateAcceptsIff | control_room/agents/agent.py:22-42 | a proposal is authorised exactly when its intent is current for task and key and the resolved role may take its action; otherwise it is denied with a code of the program's own |
| Coordinators.ModelChoosesOnlyTheAction | control_room/agents/gemini.py:13-17 | with the default actors, a parsed model choice becomes exactly the locally derived intent whenever the task can act, and a denial otherwise |
| ServiceContracts.ModelProposeContract | control_room/agents/gemini.py:109-136 | the model is called exactly when the stored count of the day is below the limit; every failure of it is a denial with its own code, and without a call the fallback answers |
| ServiceContracts.ModelProposesChoice | control_room/agents/gemini.py:109-136 | a rendered choice becomes the proposal whose every other field is local |
| ServiceContracts.SummaryRefMeans | control_room/agents/gemini.py:38 | a summary token, character by character |
| ServiceContracts.NamedActorIsLookedUp | control_room/agents/agent.py:34-42 | a proposal that names an actor as text is judged under exactly that actor's stored role |
| ServiceContracts.UnnamedActorIsAWorker | control_room/agents/agent.py:34-42 | every other proposal is judged as a worker's, whoever it names |
| ServiceContracts.DeterministicIsCleared | control_room/service.py:36-48 | the built-in proposal is cleared exactly while the task can act, as progress of worker-1 |
| ServiceContracts.ConsumeDocContract | control_room/state.py:1305-1322 | the budget document in terms of its fields, a malformed one included |
| Service.ControlRoomService.constructor | control_room/service.py:60-80 | a service registers the three default actors |
| Service.ControlRoomService.CreateTask | control_room/service.py:82-86 | creates a local synthetic task as Task.new builds it |
| Service.ControlRoomService.Authorize | control_room/agents/agent.py:30-42 | role resolution from the store around the gate |
| Service.ControlRoomService.TransactNormal | control_room/service.py:92-144 | propose, authorise, then apply or record the denial |
| Service.ControlRoomService.RunCycle | control_room/service.py:88-151 | key check, replay, conflict, one transaction and its confirmation |
| Service.ControlRoomService.TripDemoBreaker | control_room/service.py:153-192 | the same around the demo breaker |
| ServiceContracts.BadCallerKeyIsRefused | control_room/service.py:27-33 | a blank or overlong caller key reaches neither the store nor a coordinator |
| ServiceContracts.GoodCallerKeyIsAccepted | control_room/service.py:27-33 | every other caller key is accepted |
| ServiceContracts.UnknownTaskIsRefused | control_room/service.py:88-177 | a new key on no stored task raises KeyError and changes nothing |
| ServiceContracts.NewServiceTaskContract | control_room/service.py:82-86 | the task that is stored, with its prefix and origin, or the refusal |
| ServiceContracts.CycleRecords | control_room/service.py:92-151 | for each answer of the coordinator, the record an open task gets under a new key: a denial under its code, or the progress cycle of the cleared intent |
| CanonicalJson.StringRoundTrip | control_room/service.py:51-56 | a written JSON string, of any characters, is read back as the text, and what follows it is left alone |
| CanonicalJson.OperationIsInjective | control_room/service.py:51-56 | two calls share a canonical operation only when they agree on kind, task and key |
| CanonicalJson.CanonicalForm | control_room/service.py:51-56 | the operation of printable names, spelled out |
| ServiceLaws.OperationsDiffer | control_room/service.py:51-56 | one key is two different operations for a normal cycle and for the breaker |
| ServiceLaws.CycleCommitsIff | control_room/service.py:92-151 | a cycle on a stored task under an unused key stores exactly one record at the next version if and only if the task is not terminal and the answer is recordable; otherwise nothing is stored |
| ServiceLaws.ShippedCycleCommits | control_room/service.py:36-48 | with the coordinators that ship, it always does on a task that is not terminal, unless interrupted |
| ServiceLaws.UncheckedActorIsLost | control_room/agents/agent.py:34-42 | the family of accepted intents that the store then refuses |
| ServiceLaws.ProseDenialIsLost | control_room/service.py:102-109 | no denial under a code that is no opaque token is recorded |
| ServiceLaws.ClearedCycleStoresProgress | control_room/service.py:119-136 | an admitted service cycle stores exactly the progress item and baton of its key and the task RUNNING, or, when that record is invalid or known, a failure that keeps nothing |
| ServiceRuns.BreakerTripsIff | control_room/service.py:159-177 | the breaker trips exactly on local synthetic tasks that can act, spending one action and one failure and recording the intent of worker-1; otherwise it raises the error of the first failing check and changes nothing |
| ServiceRuns.CallIsStoreOps | control_room/service.py:82-192 | a service call performs at most two store operations, the second a commit or a denial |
| ServiceRuns.ServiceRunIsStoreRun | control_room/service.py:59-192 | every sequence of service calls is a legal run of the store |
| ServiceRuns.ServiceNeverPasses | control_room/service.py:119-136 | no sequence of service calls ever passes a task or fails it for good |
| ServiceRuns.ServiceCycleIsRecorded | control_room/service.py:92-151 | in every service run, every cycle with a shipped coordinator under an unused key is recorded |
| ServiceRuns.EvidenceSpeaksForRecord | control_room/service.py:119-135 | in every service run on the memory store, the evidence of a recorded success is one item in the name of the recorded actor |
| ServiceRuns.SampleVerifierObjectIsLost | control_room/agents/agent.py:34-42 | a service run in which an accepted verifier intent is lost |
| ServiceRuns.SampleDenialIsLost | control_room/service.py:102-109 | a service run in which a denial cannot be recorded |
| ServiceRuns.ServiceReplaysForever | control_room/service.py:146-151 | a returned result is returned again in every later state whatever the coordinator proposes, and the breaker conflicts with its key |
| ServiceRuns.TrippedForever | control_room/service.py:169-177 | after a trip the task stays stopped, and every later cycle records a denial that spends nothing |

## Left out

- FastAPI routes, HTTP status mapping, the dashboard, packaging and the smoke and canary scripts: input, output and plumbing.
- TelemetrySink, `build_state_store`, `model_calls_per_day`, `list_evidence`, `get_status` and the other plain reads: easy members.
- Firestore client internals and retries: a transaction is one step, or none.
- SHA-256, `secrets` and the JSON of intents and documents: document names and canonical intents are injective and round trip, owner tokens are fresh (the JSON of a canonical operation is modelled). Byte-size limits of documents and the length limit of a canonical intent are the transaction or the call raising (`CallRaises`, `Crash`).
- The checks that a document read back is well formed (schema version, types, stored actor identifiers): the count bounds among them are shown to hold in every reachable state.
- The prompt, the ADK and Vertex transport, and the step from model text to a JSON object: a model reply is an exception, an interruption, no object, or an object.
- How often a callback is executed: the store promises one commit, not one execution, and after a takeover a callback may be executed again.
- Nested cycles of another task inside one callback, and callbacks or coordinators that call the store themselves: a client has one claim, and a coordinator of the service changes nothing but the call budget.
- The service class on top of the Firestore store: its methods are modelled on the memory store; of the Firestore side the behaviour of its callbacks is put on the protocol.
- `set_baton` with no baton, time zones other than UTC, the calendar (a day is a string given with the clock reading), and digits outside ASCII in a day.
- FirestoreStore.FirestoreStateStore.RunCycleTransaction: follows one call while no other client moves; all interleavings are the subject of the step system, whose steps the method is proved to perform.
- FirestoreStore.FirestoreStateStore.ApplyCycle: likewise follows one call while no other client moves.
- FirestoreStore.FirestoreStateStore.FailCycle: likewise follows one call while no other client moves.
- Coordinators.GeminiCoordinator.Propose: the transport is the parameter `reply`, what it would deliver; using it is the out-parameter `called`.
