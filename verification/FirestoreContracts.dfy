// The Firestore transactions in terms of the document fields alone: when each
// one commits, what it leaves, and which check fails otherwise.

module FirestoreContracts {
  import opened Results
  import opened Domain
  import opened MemorySpec
  import opened MemoryContracts
  import opened MemoryRuns
  import opened FirestoreSpec
  import opened ProtocolInvariant

  // ---- claim ------------------------------------------------------------------------------------------

  // The caller and the cycle document both name an intent, and not the same one.
  predicate Clash(db: Db, txn: Txn) {
    && txn.id in db.cycles && db.cycles[txn.id].intent.Some? && txn.intent.Some?
    && db.cycles[txn.id].intent.value != txn.intent.value
  }

  // Another cycle of the task is claimed and its lease has not run out.
  predicate Blocked(db: Db, t: string, now: int) {
    && t in db.tasks && db.tasks[t].active.Some?
    && var held := CycleId(t, db.tasks[t].active.value);
       held in db.cycles && db.cycles[held].Claimed? && now < db.cycles[held].expiresAt
  }

  lemma ClaimReplies(db: Db, txn: Txn, now: int)
    ensures var reply, id, t := Claim(db, txn, now).reply, txn.id, txn.id.task;
      var own := id in db.cycles;
      var same := own && db.cycles[id].operation == txn.operation;
      var live := own && db.cycles[id].Claimed? && now < db.cycles[id].expiresAt;
      var final := own && db.cycles[id].Finalized?;
      && (reply.AlreadyFinalized? <==> same && final && !Clash(db, txn))
      && (reply.AlreadyFinalized? ==> reply.result == db.cycles[id].result)
      && (reply.Waiting? <==> (same && live && !Clash(db, txn)) || (!own && Blocked(db, t, now)))
      && (reply == Refused(IdempotencyConflict) <==> own && (!same || ((final || live) && Clash(db, txn))))
      && (reply == Refused(KeyError) <==> t !in db.tasks && (own ==> same && !final && !live))
      && (reply == Refused(ValueError) <==>
            !own && t in db.tasks && !Blocked(db, t, now) && db.tasks[t].cycleCount >= 64)
      && (reply.Refused? ==> reply.error in {IdempotencyConflict, KeyError, ValueError})
      && (reply.Granted? <==>
            t in db.tasks && if own then same && !final && !live else !Blocked(db, t, now) && db.tasks[t].cycleCount < 64)
      && (!reply.Granted? ==> Claim(db, txn, now).db == db)
  {
  }

  // A granted claim writes the task's pointer and its own document, for 120
  // seconds, removes an expired claim under another key, and nothing else.
  lemma GrantedWrites(db: Db, txn: Txn, now: int)
    requires Claim(db, txn, now).reply.Granted?
    ensures var step, id, t := Claim(db, txn, now), txn.id, txn.id.task;
      var doc, after := db.tasks[t], step.db;
      var bound := if id in db.cycles && db.cycles[id].intent.Some? then db.cycles[id].intent else txn.intent;
      && step.reply == Granted(doc.task, bound)
      && after.tasks == db.tasks[t := doc.(active := Some(id.key))]
      && id in after.cycles && after.cycles[id] == Claimed(txn.operation, bound, txn.owner, now, now + 120_000_000)
      && (forall other | other != id ::
            other in after.cycles <==>
              && other in db.cycles
              && !(id !in db.cycles && doc.active.Some? && other == CycleId(t, doc.active.value) && db.cycles[other].Claimed?))
      && (forall other | other != id && other in after.cycles :: after.cycles[other] == db.cycles[other])
      && after == db.(tasks := after.tasks, cycles := after.cycles)
  {
  }

  // ---- abort --------------------------------------------------------------------------------------------

  // Giving a held claim back deletes its document and clears the pointer of its
  // task; without the claim nothing changes.
  lemma AbortReleases(db: Db, txn: Txn)
    ensures var after, t := Abort(db, txn), txn.id.task;
      if txn.id in db.cycles && db.cycles[txn.id].Claimed? && db.cycles[txn.id].owner == txn.owner then
        && (Locked(db) ==> t in db.tasks && db.tasks[t].active == Some(txn.id.key))
        && txn.id !in after.cycles
        && (forall id | id != txn.id :: id in after.cycles <==> id in db.cycles)
        && (forall id | id in after.cycles :: after.cycles[id] == db.cycles[id])
        && after.tasks.Keys == db.tasks.Keys
        && (forall u | u in db.tasks && !(u == t && db.tasks[t].active == Some(txn.id.key)) ::
              after.tasks[u] == db.tasks[u])
        && (t in db.tasks && db.tasks[t].active == Some(txn.id.key) ==>
              after.tasks[t] == db.tasks[t].(active := None))
        && after == db.(tasks := after.tasks, cycles := after.cycles)
      else after == db
  {
    if Holds(db, txn) && Locked(db) {
      assert TaskLock(db, txn.id.task) && IsClaimed(db, txn.id);
    }
  }

  // ---- bind -----------------------------------------------------------------------------------------------

  lemma BindContract(db: Db, txn: Txn, intent: Intent)
    ensures var step, id := Bind(db, txn, intent), txn.id;
      var mine := id in db.cycles && db.cycles[id].Claimed? && db.cycles[id].owner == txn.owner
                  && db.cycles[id].operation == txn.operation;
      if !mine then step == DbStep(db, Raise(VersionConflict))
      else if db.cycles[id].intent.Some? then
        step == DbStep(db, if db.cycles[id].intent.value == intent then Ok(()) else Raise(IdempotencyConflict))
      else
        step == DbStep(db.(cycles := db.cycles[id := Claimed(txn.operation, Some(intent), txn.owner,
                                                             db.cycles[id].createdAt, db.cycles[id].expiresAt)]), Ok(()))
  {
  }

  // ---- finalize -------------------------------------------------------------------------------------------

  lemma FinalizeContract(db: Db, txn: Txn, p: Prepared, now: int)
    ensures var step, id, t := Finalize(db, txn, p, now), txn.id, txn.id.task;
      var lost := id !in db.cycles || !db.cycles[id].Claimed? || db.cycles[id].owner != txn.owner;
      if lost || db.cycles[id].expiresAt <= now then step == DbStep(db, Raise(VersionConflict))
      else if t !in db.tasks then step == DbStep(db, Raise(KeyError))
      else if db.tasks[t].task.version != p.result.task.version && db.tasks[t].task.version + 1 != p.result.task.version then
        step == DbStep(db, Raise(VersionConflict))
      else if exists e :: e in p.result.evidence && e.evidenceId in db.markers then
        step == DbStep(db, Raise(EvidenceConflict))
      else
        && step.reply == Ok(p.result)
        && step.db.tasks == db.tasks[t := p.value]
        && step.db.cycles == db.cycles[id := Finalized(txn.operation, p.intent, db.cycles[id].createdAt,
                                                       db.cycles[id].expiresAt, p.result)]
        && (forall m :: m in step.db.markers <==> m in db.markers || exists e :: e in p.result.evidence && e.evidenceId == m)
        && (forall m | m in db.markers :: step.db.markers[m] == db.markers[m])
        && (forall e | e in p.result.evidence :: step.db.markers[e.evidenceId] == t)
        && step.db == db.(tasks := step.db.tasks, cycles := step.db.cycles, markers := step.db.markers)
  {
    IdsAre(p.result.evidence);
  }

  lemma IdsAre(items: seq<Evidence>)
    ensures forall m :: m in Ids(items) <==> exists e :: e in items && e.evidenceId == m
  {
    forall m ensures m in Ids(items) <==> exists e :: e in items && e.evidenceId == m {
      if m in Ids(items) {
        var i :| 0 <= i < |items| && items[i].evidenceId == m;
        assert items[i] in items;
      }
    }
  }

  // ---- direct writes ----------------------------------------------------------------------------------------

  predicate Open(task: Task) {
    task.state != PASSED && task.state != FAILED
  }

  // An append commits exactly on a stored, unlocked, open task at the expected
  // version, for a valid item under an unused identifier, with room for it.
  lemma AppendCommitsIff(db: Db, e: Evidence, expectedVersion: int)
    requires DbInv(db)
    ensures var t, step := e.taskId, MutateTask(db, Append(e, expectedVersion));
      && (step.reply.Ok? <==>
            && t in db.tasks && db.tasks[t].active.None? && Open(db.tasks[t].task)
            && db.tasks[t].task.version == expectedVersion && ValidEvidence(e)
            && e.evidenceId !in db.markers && |db.tasks[t].evidence| < 24)
      && (step.reply.Ok? ==>
            var doc := db.tasks[t];
            var updated := doc.task.(version := expectedVersion + 1);
            && step.reply.value == updated
            && step.db == db.(tasks := db.tasks[t := doc.(task := updated, evidence := doc.evidence + [e])],
                              markers := db.markers[e.evidenceId := t]))
      && (step.reply.Raise? ==> step.db == db)
  {
    hide ValidEvidence, Locked;
    AppendRaises(db, e, expectedVersion);
    if MutateTask(db, Append(e, expectedVersion)).reply.Ok? {
      AppendLeaves(db, e, expectedVersion);
    }
  }

  // The private backing of a direct write.
  lemma LocalFields(db: Db, t: string)
    requires DbInv(db)
    ensures var b := Local(db, t);
      if t in db.tasks then
        && b.tasks == map[t := db.tasks[t].task] && b.EvidenceOf(t) == db.tasks[t].evidence
        && b.evidenceIds == Ids(db.tasks[t].evidence) <= db.markers.Keys
        && b.batons == if db.tasks[t].baton.Some? then map[t := db.tasks[t].baton.value] else map[]
      else b == EmptyBacking
  {
    hide DbInv;
    if t in db.tasks {
      FiledAndMarked(db, t);
    }
  }

  lemma FiledAndMarked(db: Db, t: string)
    requires DbInv(db) && t in db.tasks
    ensures db.tasks[t].task.taskId == t && Ids(db.tasks[t].evidence) <= db.markers.Keys
  {
    hide Locked;
    assert TaskBounds(db, t);
    assert forall m | m in Ids(db.tasks[t].evidence) :: m in db.markers;
  }

  lemma MarkFresh(markers: map<string, string>, ids: set<string>, e: string, t: string)
    requires e !in ids
    ensures ids + {e} - ids == {e} && MarkAll(markers, {e}, t) == markers[e := t]
  {
  }

  // The error of the first failing check.
  lemma AppendRaises(db: Db, e: Evidence, expectedVersion: int)
    requires DbInv(db)
    ensures var t, reply := e.taskId, MutateTask(db, Append(e, expectedVersion)).reply;
      && (reply.Raise? ==> MutateTask(db, Append(e, expectedVersion)).db == db)
      && if t !in db.tasks then reply == Raise(KeyError)
         else
           var doc := db.tasks[t];
           if doc.active.Some? then reply == Raise(VersionConflict)
           else if !Open(doc.task) then reply == Raise(ValueError)
           else if doc.task.version != expectedVersion then reply == Raise(VersionConflict)
           else if !ValidEvidence(e) then reply == Raise(ValueError)
           else if e.evidenceId in db.markers then reply == Raise(EvidenceConflict)
           else if |doc.evidence| >= 24 then reply == Raise(ValueError)
           else reply.Ok?
  {
    hide ValidEvidence, DbInv, AppendEvidence, Local, MarkAll, SetBaton;
    LocalFields(db, e.taskId);
    AppendEvidenceContract(Local(db, e.taskId), e, expectedVersion);
    if e.evidenceId !in Local(db, e.taskId).evidenceIds {
      MarkFresh(db.markers, Local(db, e.taskId).evidenceIds, e.evidenceId, e.taskId);
    }
  }

  lemma AppendLeaves(db: Db, e: Evidence, expectedVersion: int)
    requires DbInv(db) && MutateTask(db, Append(e, expectedVersion)).reply.Ok?
    ensures e.taskId in db.tasks
    ensures var t, step := e.taskId, MutateTask(db, Append(e, expectedVersion));
      var doc := db.tasks[t];
      var updated := doc.task.(version := expectedVersion + 1);
      && step.reply.value == updated
      && step.db == db.(tasks := db.tasks[t := doc.(task := updated, evidence := doc.evidence + [e])],
                        markers := db.markers[e.evidenceId := t])
  {
    hide ValidEvidence, DbInv, AppendEvidence, Local, MarkAll, SetBaton;
    LocalFields(db, e.taskId);
    AppendEvidenceContract(Local(db, e.taskId), e, expectedVersion);
    if e.evidenceId !in Local(db, e.taskId).evidenceIds {
      MarkFresh(db.markers, Local(db, e.taskId).evidenceIds, e.evidenceId, e.taskId);
    }
  }

  // A baton write commits exactly on a stored, unlocked, open task at the
  // expected version, for valid metadata; otherwise the first failing check
  // raises.
  lemma BatonContract(db: Db, t: string, baton: Metadata, expectedVersion: int)
    requires DbInv(db)
    ensures var step := MutateTask(db, WriteBaton(t, baton, expectedVersion));
      if t in db.tasks && db.tasks[t].active.Some? then step == DbStep(db, Raise(VersionConflict))
      else if !BatonMetadataOnly(baton) then step == DbStep(db, Raise(ValueError))
      else if t !in db.tasks then step == DbStep(db, Raise(KeyError))
      else
        var doc := db.tasks[t];
        if !Open(doc.task) then step == DbStep(db, Raise(ValueError))
        else if doc.task.version != expectedVersion then step == DbStep(db, Raise(VersionConflict))
        else
          var updated := doc.task.(version := expectedVersion + 1);
          step == DbStep(db.(tasks := db.tasks[t := doc.(task := updated, baton := Some(baton))]), Ok(updated))
  {
    hide BatonMetadataOnly, DbInv, AppendEvidence, Local, MarkAll, SetBaton, TaskBounds;
    LocalFields(db, t);
    SetBatonContract(Local(db, t), t, baton, expectedVersion);
    NoNewMarkers(db.markers, t);
    assert Local(db, t).evidenceIds - Local(db, t).evidenceIds == {};
    if t in db.tasks {
      FitsAlready(db, t);
    }
  }

  lemma FitsAlready(db: Db, t: string)
    requires DbInv(db) && t in db.tasks
    ensures |db.tasks[t].evidence| <= 24
  {
    assert TaskBounds(db, t);
  }

  lemma NoNewMarkers(markers: map<string, string>, t: string)
    ensures MarkAll(markers, {}, t) == markers
  {
  }

  // ---- creation and the registry ------------------------------------------------------------------------------

  // A title is the prefix and 1 to 54 lower-case letters, digits, '_' or '-'.
  predicate SyntheticTail(tail: string) {
    && 1 <= |tail| <= 54
    && forall c | c in tail :: 'a' <= c <= 'z' || '0' <= c <= '9' || c == '_' || c == '-'
  }

  lemma CreateDocContract(db: Db, task: Task, tail: string)
    requires task.title == "synthetic_" + tail
    ensures var step := CreateDoc(db, task);
      if task.origin == LocalApi && SyntheticTail(tail) && |task.requiredChecks| <= 8
         && (forall c | c in task.requiredChecks :: c == "check" || c == "progress" || c == "quality" || c == "safety")
         && db.created < 256 && task.taskId !in db.tasks
      then step == DbStep(db.(tasks := db.tasks[task.taskId := TaskDoc(task, [], None, 0, None)], created := db.created + 1),
                          Ok(task))
      else step == DbStep(db, Raise(ValueError))
  {
    TitleTail(tail);
    ChecksAreSynthetic(task.requiredChecks);
    hide SyntheticTitle, SyntheticTail;
  }

  lemma OtherTitlesAreRefused(db: Db, task: Task)
    requires |task.title| < 10 || task.title[..10] != "synthetic_"
    ensures CreateDoc(db, task) == DbStep(db, Raise(ValueError))
  {
  }

  lemma TitleTail(tail: string)
    ensures SyntheticTitle("synthetic_" + tail) <==> SyntheticTail(tail)
  {
    var title := "synthetic_" + tail;
    assert title[..10] == SYNTHETIC_PREFIX;
    if SyntheticTitle(title) {
      forall c | c in tail ensures 'a' <= c <= 'z' || '0' <= c <= '9' || c == '_' || c == '-' {
        var i :| 0 <= i < |tail| && tail[i] == c;
        assert title[10 + i] == c;
      }
    }
    if SyntheticTail(tail) {
      forall i | 10 <= i < |title|
        ensures 'a' <= title[i] <= 'z' || '0' <= title[i] <= '9' || title[i] == '_' || title[i] == '-'
      {
        assert title[i] == tail[i - 10] && tail[i - 10] in tail;
      }
    }
  }

  lemma ChecksAreSynthetic(checks: seq<string>)
    ensures (forall i | 0 <= i < |checks| :: checks[i] in SYNTHETIC_CHECKS) <==>
            (forall c | c in checks :: c == "check" || c == "progress" || c == "quality" || c == "safety")
  {
    assert (forall i | 0 <= i < |checks| :: checks[i] in SYNTHETIC_CHECKS) <==> (forall c | c in checks :: c in SYNTHETIC_CHECKS)
      by {
        if forall i | 0 <= i < |checks| :: checks[i] in SYNTHETIC_CHECKS {
          forall c | c in checks ensures c in SYNTHETIC_CHECKS { var i :| 0 <= i < |checks| && checks[i] == c; }
        }
      }
  }

  lemma RegistryContract(db: Db, step: Done<nat>)
    ensures MutateRegistry(db, step) ==
      if step.reply.Ok? && |step.state.actors| <= 64
      then DbStep(db.(actors := step.state.actors, registryVersion := step.state.registryVersion), step.reply)
      else DbStep(db, if step.reply.Raise? then step.reply else Raise(ValueError))
  {
  }

  // Registering and initialising run on the stored registry, for bounded names.
  lemma ActorIdMeans(a: string)
    ensures ValidActorId(a) <==>
      && 1 <= |a| <= 128 && a[0] != '.' && a[0] != '_' && a[0] != '-' && a[0] != ':'
      && forall c | c in a ::
           'A' <= c <= 'Z' || 'a' <= c <= 'z' || '0' <= c <= '9' || c == '.' || c == '_' || c == '-' || c == ':'
  {
    if 1 <= |a| <= 128 && TokenHead(a[0]) && !ValidActorId(a) {
      var i :| 1 <= i < |a| && !ActorIdChar(a[i]);
      assert a[i] in a;
    } else if 1 <= |a| {
      assert a[0] in a;
    }
  }

  lemma RegistryOperations(db: Db, a: string, role: string, v: int, actors: map<string, ActorRole>)
    ensures RegisterDoc(db, a, role, v) ==
      if ValidActorId(a) then MutateRegistry(db, RegisterActor(RegistryBacking(db), a, role, v))
      else DbStep(db, Raise(ValueError))
    ensures InitializeDoc(db, actors) ==
      if forall x | x in actors :: ValidActorId(x) then MutateRegistry(db, InitializeActors(RegistryBacking(db), actors))
      else DbStep(db, Raise(ValueError))
  {
  }
}
