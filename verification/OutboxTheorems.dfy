/** What the outbox promises about blobs, over every run from an empty system. */
module OutboxTheorems {
  import opened Common
  import opened Outbox
  import opened OutboxSteps
  import opened OutboxLeases
  import Schedule = CleanupSchedule

  ghost predicate Reachable(c: Config, s: State) {
    Schedule.Valid(c.schedule) && exists now, steps :: Run(c, Init(now), steps) == Some(s)
  }

  lemma ReachableKeeps(c: Config, s: State)
    requires Reachable(c, s)
    ensures Inv(s)
  {
    var now, steps :| Run(c, Init(now), steps) == Some(s);
    RunKeeps(c, Init(now), steps);
  }

  /** Every live file has its blob, of the recorded size and the uploaded content. */
  lemma LiveBlobs(c: Config, s: State, id: string)
    requires Reachable(c, s) && id in s.files
    ensures var f := s.files[id];
      f.key in s.blobs && |s.blobs[f.key]| == f.size && f.key in s.made && s.blobs[f.key] == s.made[f.key]
  {
    ReachableKeeps(c, s);
    assert FileOk(s.roles, s.blobs, s.made, id, s.files[id]);
    assert MadeOk(s.roles, s.blobs, s.files[id].key, s.made[s.files[id].key]);
  }

  /** No blob is shared, and none is live and due for cleanup at the same time. */
  lemma LiveKeysApart(c: Config, s: State, id: string)
    requires Reachable(c, s) && id in s.files
    ensures forall other :: other in s.files && other != id ==> s.files[other].key != s.files[id].key
    ensures forall t :: t in s.tasks ==> s.tasks[t].key != s.files[id].key
    ensures forall u :: u in s.uploads ==> s.uploads[u].key != s.files[id].key
    ensures forall w, i :: Busy(s, w) && 0 <= i < |s.workers[w].batch| ==> s.workers[w].batch[i].key != s.files[id].key
    ensures forall d :: d in s.deletions ==> s.deletions[d].key != s.files[id].key
  {
    ReachableKeeps(c, s);
    var key := s.files[id].key;
    assert FileOk(s.roles, s.blobs, s.made, id, s.files[id]);
    forall other | other in s.files && other != id ensures s.files[other].key != key {
      assert FileOk(s.roles, s.blobs, s.made, other, s.files[other]);
    }
    forall t | t in s.tasks ensures s.tasks[t].key != key { assert TaskOk(s.roles, s.queued, t, s.tasks[t].key); }
    forall u | u in s.uploads ensures s.uploads[u].key != key {
      assert UploadOk(s.roles, s.blobs, s.made, u, s.uploads[u]);
    }
    forall w, i | Busy(s, w) && 0 <= i < |s.workers[w].batch| ensures s.workers[w].batch[i].key != key {
      assert WorkerOk(s.roles, s.queued, s.blobs, s.workers[w]);
    }
    forall d | d in s.deletions ensures s.deletions[d].key != key {
      assert DeletionOk(s.roles, s.blobs, s.deletions[d]);
    }
  }

  ghost predicate BelongsToFile(s: State, key: string) { exists id :: id in s.files && s.files[id].key == key }
  ghost predicate BelongsToTask(s: State, key: string) { exists t :: t in s.tasks && s.tasks[t].key == key }
  ghost predicate BelongsToUpload(s: State, key: string) { exists u :: u in s.uploads && s.uploads[u].key == key }

  /** No blob is forgotten, but for those that a failed upload gave up. */
  lemma EveryBlobPlaced(c: Config, s: State, key: string)
    requires Reachable(c, s) && key in s.blobs
    ensures BelongsToFile(s, key) || BelongsToTask(s, key) || BelongsToUpload(s, key)
      || HasRole(s.roles, key, Abandoned)
  {
    ReachableKeeps(c, s);
    assert Placed(s, key);
  }

  /** Blobs only go. */
  predicate Shrinks(blobs: Blobs, fewer: Blobs) {
    fewer.Keys <= blobs.Keys && forall key :: key in fewer ==> fewer[key] == blobs[key]
  }

  /** What a step of a worker, or of a deletion, may touch. */
  predicate OnlyBlobsGo(s: State, t: State) {
    t.roles == s.roles && t.made == s.made && t.uploads == s.uploads && t.files == s.files && Shrinks(s.blobs, t.blobs)
  }

  lemma RemoveLeaves(s: State, w: nat, outcome: Outcome)
    requires Busy(s, w)
    ensures OnlyBlobsGo(s, AfterRemove(s, w, outcome))
  {
  }

  lemma ClaimLeaves(c: Config, s: State, w: nat, ids: seq<nat>)
    requires Schedule.Valid(c.schedule) && MayClaim(c, s, ids)
    ensures OnlyBlobsGo(s, AfterClaim(c, s, w, ids))
  {
  }

  lemma WorkersLeaveRoles(c: Config, s: State, w: nat, step: WorkerStep)
    requires Schedule.Valid(c.schedule) && WorkerEnabled(c, s, w, step)
    ensures OnlyBlobsGo(s, AfterWork(c, s, w, step))
  {
    match step
    case Claim(ids) => ClaimLeaves(c, s, w, ids);
    case Remove(outcome) => RemoveLeaves(s, w, outcome);
    case Complete(_) =>
    case Retry(_) =>
    case WorkerDies =>
  }

  lemma EraseLeaves(s: State, d: nat, outcome: Outcome)
    requires d in s.deletions
    ensures OnlyBlobsGo(s, AfterErase(s, d, outcome))
  {
  }

  lemma ConfirmLeaves(s: State, d: nat, done: bool)
    requires d in s.deletions
    ensures OnlyBlobsGo(s, AfterConfirm(s, d, done))
  {
  }

  lemma DeleteRetires(s: State, d: nat, id: string)
    requires id in s.files
    ensures OnlyBlobsGo(s.(roles := s.roles[s.files[id].key := Retired(s.nextTask)], files := s.files - {id}),
      AfterDelete(s, d, id))
  {
  }

  lemma DeletionsOnlyRetire(s: State, d: nat, step: DeletionStep)
    requires DeletionEnabled(s, d, step)
    ensures OnlyBlobsGo(if step.Delete? then
      s.(roles := s.roles[s.files[step.id].key := Retired(s.nextTask)], files := s.files - {step.id}) else s,
                        AfterDeletion(s, d, step))
  {
    match step
    case Delete(id, _) => DeleteRetires(s, d, id);
    case Erase(outcome) => EraseLeaves(s, d, outcome);
    case Confirm(done) => ConfirmLeaves(s, d, done);
    case DeletionDies =>
  }

  lemma AbandonedByUndo(s: State, u: nat, outcome: Outcome, key: string)
    requires u in s.uploads && !HasRole(s.roles, key, Abandoned)
    requires HasRole(AfterUndo(s, u, outcome).roles, key, Abandoned)
    ensures key == s.uploads[u].key && !Succeeds(outcome)
  {
  }

  lemma NotAbandonedByCreate(s: State, u: nat, id: string, commits: bool, key: string)
    requires u in s.uploads && !HasRole(s.roles, key, Abandoned)
    ensures !HasRole(AfterCreate(s, u, id, commits).roles, key, Abandoned)
  {
  }

  lemma NotAbandonedByPut(s: State, u: nat, k: string, owner: string, blob: Blob, stored: bool, key: string)
    requires !HasRole(s.roles, key, Abandoned)
    ensures !HasRole(AfterPut(s, u, k, owner, blob, stored).roles, key, Abandoned)
  {
  }

  lemma AbandonedByUpload(c: Config, s: State, u: nat, step: UploadStep, key: string)
    requires UploadEnabled(c, s, u, step)
    requires HasRole(AfterUpload(c, s, u, step).roles, key, Abandoned) && !HasRole(s.roles, key, Abandoned)
    ensures u in s.uploads && s.uploads[u].key == key && (step.UploadDies? || (step.Undo? && !Succeeds(step.outcome)))
  {
    match step
    case Put(k, owner, blob, stored) => NotAbandonedByPut(s, u, k, owner, blob, stored, key);
    case Create(id, commits) => NotAbandonedByCreate(s, u, id, commits, key);
    case Undo(outcome) => AbandonedByUndo(s, u, outcome, key);
    case UploadDies =>
  }

  /** An upload's blob is given up only when its own removal failed or it died. */
  lemma AbandonedOnlyByUploads(c: Config, s: State, step: Step, key: string)
    requires Schedule.Valid(c.schedule) && Enabled(c, s, step)
    requires HasRole(Next(c, s, step).roles, key, Abandoned) && !HasRole(s.roles, key, Abandoned)
    ensures step.OfUpload? && step.u in s.uploads && s.uploads[step.u].key == key
    ensures step.up.UploadDies? || (step.up.Undo? && !Succeeds(step.up.outcome))
  {
    match step
    case OfUpload(u, up) => AbandonedByUpload(c, s, u, up, key);
    case OfDeletion(d, del) => DeletionsOnlyRetire(s, d, del);
    case OfWorker(w, work) => WorkersLeaveRoles(c, s, w, work);
    case Tick(_) =>
  }

  lemma UploadsKeepFiles(c: Config, s: State, u: nat, step: UploadStep, id: string)
    requires UploadEnabled(c, s, u, step) && id in s.files
    ensures var t := AfterUpload(c, s, u, step); id in t.files && t.files[id] == s.files[id]
  {
    match step
    case Put(key, owner, blob, stored) =>
    case Create(other, commits) => if commits { } else { }
    case Undo(_) =>
    case UploadDies =>
  }

  lemma ErasesKeepFiles(s: State, d: nat, step: DeletionStep)
    requires DeletionEnabled(s, d, step) && !step.Delete?
    ensures AfterDeletion(s, d, step).files == s.files
  {
    DeletionsOnlyRetire(s, d, step);
  }

  /** A file's row goes only by a deletion that its owner asks for, and never changes. */
  lemma OnlyOwnerDeletes(c: Config, s: State, step: Step, id: string)
    requires Schedule.Valid(c.schedule) && Enabled(c, s, step) && id in s.files
    ensures id !in Next(c, s, step).files ==> step.OfDeletion? && step.del == Delete(id, s.files[id].owner)
    ensures id in Next(c, s, step).files ==> Next(c, s, step).files[id] == s.files[id]
  {
    match step
    case OfUpload(u, up) => UploadsKeepFiles(c, s, u, up, id);
    case OfDeletion(d, del) => if !del.Delete? { ErasesKeepFiles(s, d, del); } else { DeleteRetires(s, d, del.id); }
    case OfWorker(w, work) => WorkersLeaveRoles(c, s, w, work);
    case Tick(_) =>
  }

  // ----------------------------------------------------------------- sizes

  ghost predicate Bounded(c: Config, s: State) { forall id :: id in s.files ==> s.files[id].size <= c.maxFile }

  lemma NextBounded(c: Config, s: State, step: Step)
    requires Schedule.Valid(c.schedule) && Enabled(c, s, step) && Bounded(c, s)
    ensures Bounded(c, Next(c, s, step))
  {
    var t := Next(c, s, step);
    forall id | id in t.files ensures t.files[id].size <= c.maxFile {
      if id in s.files { OnlyOwnerDeletes(c, s, step, id); } else { NewFile(c, s, step, id); }
    }
  }

  /** A file's row comes only by an upload that is not too large. */
  lemma NewFile(c: Config, s: State, step: Step, id: string)
    requires Schedule.Valid(c.schedule) && Enabled(c, s, step) && id !in s.files && id in Next(c, s, step).files
    ensures step.OfUpload? && step.up == Create(id, true) && step.u in s.uploads
    ensures Next(c, s, step).files[id].size == s.uploads[step.u].size <= c.maxFile
    ensures Next(c, s, step).files[id].owner == s.uploads[step.u].owner
  {
    match step
    case OfUpload(u, up) => UploadAdds(c, s, u, up, id);
    case OfDeletion(d, del) => if !del.Delete? { ErasesKeepFiles(s, d, del); } else { DeleteRetires(s, d, del.id); }
    case OfWorker(w, work) => WorkersLeaveRoles(c, s, w, work);
    case Tick(_) =>
  }

  lemma UploadAdds(c: Config, s: State, u: nat, step: UploadStep, id: string)
    requires UploadEnabled(c, s, u, step) && id !in s.files && id in AfterUpload(c, s, u, step).files
    ensures step == Create(id, true) && u in s.uploads
    ensures var f := AfterUpload(c, s, u, step).files[id];
      f.size == s.uploads[u].size <= c.maxFile && f.owner == s.uploads[u].owner
  {
    match step
    case Put(key, owner, blob, stored) =>
    case Create(other, commits) => if commits { } else { }
    case Undo(_) =>
    case UploadDies =>
  }

  lemma {:induction false} RunBounded(c: Config, s: State, steps: seq<Step>)
    requires Schedule.Valid(c.schedule) && Bounded(c, s) && Run(c, s, steps).Some?
    ensures Bounded(c, Run(c, s, steps).value)
  {
    if steps != [] {
      RunBounded(c, s, steps[..|steps| - 1]);
      NextBounded(c, Run(c, s, steps[..|steps| - 1]).value, steps[|steps| - 1]);
    }
  }

  /** No stored file is larger than allowed. */
  lemma LiveSizeBounded(c: Config, s: State, id: string)
    requires Reachable(c, s) && id in s.files
    ensures s.files[id].size <= c.maxFile && s.files[id].key in s.blobs && |s.blobs[s.files[id].key]| <= c.maxFile
  {
    var now, steps :| Run(c, Init(now), steps) == Some(s);
    RunBounded(c, Init(now), steps);
    LiveBlobs(c, s, id);
  }

  // --------------------------------------------------------- over a whole run

  /** A storage key is never used again, and a stored blob never changes. */
  predicate Stays(s: State, t: State, key: string) {
    key in s.roles ==>
      && key in t.roles
      && (key in t.blobs ==> key in s.blobs && t.blobs[key] == s.blobs[key])
      && (key in s.made ==> key in t.made && t.made[key] == s.made[key])
      && (s.roles[key].Live? ==> t.roles[key] == s.roles[key] || t.roles[key].Retired?)
      && (s.roles[key].Retired? ==> t.roles[key] == s.roles[key])
  }

  ghost predicate Since(s: State, t: State) { forall key {:trigger Stays(s, t, key)} :: Stays(s, t, key) }

  lemma PutStays(s: State, u: nat, key: string, owner: string, blob: Blob, stored: bool, k: string)
    requires key !in s.roles
    ensures Stays(s, AfterPut(s, u, key, owner, blob, stored), k)
  {
  }

  lemma CreateStays(s: State, u: nat, id: string, commits: bool, key: string)
    requires u in s.uploads && UploadOk(s.roles, s.blobs, s.made, u, s.uploads[u])
    ensures Stays(s, AfterCreate(s, u, id, commits), key)
  {
  }

  lemma UndoStays(s: State, u: nat, outcome: Outcome, key: string)
    requires u in s.uploads && UploadOk(s.roles, s.blobs, s.made, u, s.uploads[u])
    ensures Stays(s, AfterUndo(s, u, outcome), key)
  {
  }

  lemma UploadStays(c: Config, s: State, u: nat, step: UploadStep, key: string)
    requires Inv(s) && UploadEnabled(c, s, u, step)
    ensures Stays(s, AfterUpload(c, s, u, step), key)
  {
    match step
    case Put(k, owner, blob, stored) => PutStays(s, u, k, owner, blob, stored, key);
    case Create(id, commits) => CreateStays(s, u, id, commits, key);
    case Undo(outcome) => UndoStays(s, u, outcome, key);
    case UploadDies => assert UploadOk(s.roles, s.blobs, s.made, u, s.uploads[u]);
  }

  lemma NextStays(c: Config, s: State, step: Step, key: string)
    requires Schedule.Valid(c.schedule) && Inv(s) && Enabled(c, s, step)
    ensures Stays(s, Next(c, s, step), key)
  {
    match step
    case OfUpload(u, up) => UploadStays(c, s, u, up, key);
    case OfDeletion(d, del) =>
      DeletionsOnlyRetire(s, d, del);
      if del.Delete? { assert FileOk(s.roles, s.blobs, s.made, del.id, s.files[del.id]); }
    case OfWorker(w, work) => WorkersLeaveRoles(c, s, w, work);
    case Tick(_) =>
  }

  /** A blob under a live key belongs to the file that the key was created for. */
  lemma LiveFile(s: State, key: string)
    requires Inv(s) && key in s.blobs && key in s.roles && s.roles[key].Live?
    ensures var id := s.roles[key].id;
      id in s.files && key in s.made && s.files[id].key == key && s.files[id].size == |s.made[key]|
  {
    assert Placed(s, key);
    assert FileOk(s.roles, s.blobs, s.made, s.roles[key].id, s.files[s.roles[key].id]);
  }

  lemma {:induction false} RunSince(c: Config, s: State, rest: seq<Step>)
    requires Schedule.Valid(c.schedule) && Inv(s) && Run(c, s, rest).Some?
    ensures Since(s, Run(c, s, rest).value)
  {
    if rest != [] {
      var t := Run(c, s, rest[..|rest| - 1]).value;
      RunKeeps(c, s, rest[..|rest| - 1]);
      RunSince(c, s, rest[..|rest| - 1]);
      forall key ensures Stays(s, Run(c, s, rest).value, key) {
        assert Stays(s, t, key);
        NextStays(c, t, rest[|rest| - 1], key);
      }
    }
  }

  /** A reader that learns of a file on state `s` and opens its blob on a later state
      `t` finds the uploaded content, of the recorded size, or nothing at all. */
  lemma OpenedLater(c: Config, s: State, rest: seq<Step>, t: State, id: string)
    requires Reachable(c, s) && id in s.files && Run(c, s, rest) == Some(t)
    ensures var f := s.files[id];
      && (f.key in t.blobs ==> f.key in s.blobs && t.blobs[f.key] == s.blobs[f.key] && |t.blobs[f.key]| == f.size)
      && (f.key !in t.blobs ==> id !in t.files || t.files[id].key != f.key)
  {
    LiveBlobs(c, s, id);
    ReachableKeeps(c, s);
    RunSince(c, s, rest);
    RunKeeps(c, s, rest);
    assert FileOk(s.roles, s.blobs, s.made, id, s.files[id]);
    assert Stays(s, t, s.files[id].key);
    if id in t.files { assert FileOk(t.roles, t.blobs, t.made, id, t.files[id]); }
  }

  /** The blob of a deleted document is gone for good, or a task for it is pending. */
  lemma DeletedBlobNotForgotten(c: Config, s: State, rest: seq<Step>, t: State, id: string)
    requires Reachable(c, s) && id in s.files && Run(c, s, rest) == Some(t)
    requires id !in t.files || t.files[id].key != s.files[id].key
    ensures s.files[id].key in t.blobs ==> BelongsToTask(t, s.files[id].key)
  {
    var key := s.files[id].key;
    ReachableKeeps(c, s);
    RunSince(c, s, rest);
    RunKeeps(c, s, rest);
    assert FileOk(s.roles, s.blobs, s.made, id, s.files[id]);
    assert Stays(s, t, key);
    if key in t.blobs {
      assert Placed(t, key);
      if t.roles[key].Live? { LiveFile(t, key); }
    }
  }

  lemma WorkerTaskGone(c: Config, s: State, w: nat, step: WorkerStep, id: nat)
    requires Schedule.Valid(c.schedule) && Inv(s) && WorkerEnabled(c, s, w, step)
    requires id in s.tasks && id !in AfterWork(c, s, w, step).tasks
    ensures s.tasks[id].key !in s.blobs
  {
    assert TaskOk(s.roles, s.queued, id, s.tasks[id].key);
    if step.Complete? { assert WorkerOk(s.roles, s.queued, s.blobs, s.workers[w]); }
  }

  lemma DeletionTaskGone(s: State, d: nat, step: DeletionStep, id: nat)
    requires Inv(s) && DeletionEnabled(s, d, step)
    requires id in s.tasks && id !in AfterDeletion(s, d, step).tasks
    ensures s.tasks[id].key !in s.blobs
  {
    if step.Confirm? { assert DeletionOk(s.roles, s.blobs, s.deletions[d]); }
  }

  /** A task row leaves the table only when its blob is gone, and gone it stays. */
  lemma TaskOutlivesBlob(c: Config, s: State, step: Step, rest: seq<Step>, t: State, id: nat)
    requires Reachable(c, s) && Enabled(c, s, step) && id in s.tasks && id !in Next(c, s, step).tasks
    requires Run(c, Next(c, s, step), rest) == Some(t)
    ensures s.tasks[id].key !in Next(c, s, step).blobs && s.tasks[id].key !in t.blobs
  {
    var u, key := Next(c, s, step), s.tasks[id].key;
    ReachableKeeps(c, s);
    NextKeeps(c, s, step);
    assert TaskOk(s.roles, s.queued, id, key);
    match step {
      case OfUpload(n, up) => UploadRows(c, s, n, up);
      case OfDeletion(d, del) => DeletionTaskGone(s, d, del, id);
      case OfWorker(w, work) => WorkerTaskGone(c, s, w, work, id);
      case Tick(_) =>
    }
    NextStays(c, s, step, key);
    RunSince(c, u, rest);
    assert Stays(u, t, key);
  }
}
