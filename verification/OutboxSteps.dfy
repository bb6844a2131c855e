/** Every step of the blob protocol keeps its invariant. */
module OutboxSteps {
  import opened Common
  import opened Outbox
  import Schedule = CleanupSchedule

  lemma PutKeepsTables(s: State, u: nat, key: string, owner: string, blob: Blob)
    requires Inv(s) && u !in s.uploads && key !in s.roles
    ensures var t := AfterPut(s, u, key, owner, blob, true); FilesOk(t) && UploadsOk(t) && TasksOk(t)
  {
  }

  lemma PutKeepsRest(s: State, u: nat, key: string, owner: string, blob: Blob)
    requires Inv(s) && u !in s.uploads && key !in s.roles
    ensures var t := AfterPut(s, u, key, owner, blob, true);
      DeletionsOk(t) && WorkersOk(t) && BlobsOk(t) && HistoryOk(t)
  {
  }

  lemma PutKeeps(s: State, u: nat, key: string, owner: string, blob: Blob)
    requires Inv(s) && u !in s.uploads && key !in s.roles
    ensures Inv(AfterPut(s, u, key, owner, blob, true))
  {
    PutKeepsTables(s, u, key, owner, blob);
    PutKeepsRest(s, u, key, owner, blob);
  }

  lemma PutFailsKeeps(s: State, u: nat, key: string, owner: string, blob: Blob)
    requires Inv(s) && key !in s.roles
    ensures Inv(AfterPut(s, u, key, owner, blob, false))
  {
  }

  lemma CreateFailsKeeps(s: State, u: nat)
    requires Inv(s) && u in s.uploads
    ensures Inv(s.(uploads := s.uploads[u := s.uploads[u].(pc := Undoing)]))
  {
  }

  lemma CreateKeepsTables(s: State, u: nat, id: string)
    requires Inv(s) && u in s.uploads && id !in s.files
    ensures var t := AfterCreate(s, u, id, true); FilesOk(t) && UploadsOk(t) && TasksOk(t)
  {
    assert UploadOk(s.roles, s.blobs, s.made, u, s.uploads[u]);
  }

  lemma CreateKeepsRest(s: State, u: nat, id: string)
    requires Inv(s) && u in s.uploads && id !in s.files
    ensures var t := AfterCreate(s, u, id, true); DeletionsOk(t) && WorkersOk(t) && BlobsOk(t) && HistoryOk(t)
  {
    assert UploadOk(s.roles, s.blobs, s.made, u, s.uploads[u]);
  }

  lemma CreateCommitsKeeps(s: State, u: nat, id: string)
    requires Inv(s) && u in s.uploads && id !in s.files
    ensures Inv(AfterCreate(s, u, id, true))
  {
    CreateKeepsTables(s, u, id);
    CreateKeepsRest(s, u, id);
  }

  lemma UndoKeeps(s: State, u: nat, outcome: Outcome)
    requires Inv(s) && u in s.uploads
    ensures Inv(AfterUndo(s, u, outcome))
  {
    if outcome.FailedBefore? { } else { }
  }

  lemma UploadDiesKeeps(s: State, u: nat)
    requires Inv(s) && u in s.uploads
    ensures Inv(s.(uploads := s.uploads - {u}, roles := s.roles[s.uploads[u].key := Left(s.blobs, s.uploads[u].key)]))
  {
  }

  lemma DeleteKeepsTables(s: State, d: nat, id: string)
    requires Inv(s) && d !in s.deletions && id in s.files
    ensures var t := AfterDelete(s, d, id); FilesOk(t) && UploadsOk(t) && TasksOk(t)
  {
    var t, key := AfterDelete(s, d, id), s.files[id].key;
    assert FileOk(s.roles, s.blobs, s.made, id, s.files[id]);
    forall n | n in s.tasks ensures s.tasks[n].key != key { assert TaskOk(s.roles, s.queued, n, s.tasks[n].key); }
  }

  lemma DeleteKeepsActors(s: State, d: nat, id: string)
    requires Inv(s) && d !in s.deletions && id in s.files
    ensures var t := AfterDelete(s, d, id); DeletionsOk(t) && WorkersOk(t)
  {
    assert FileOk(s.roles, s.blobs, s.made, id, s.files[id]);
  }

  lemma DeleteKeepsBlobs(s: State, d: nat, id: string)
    requires Inv(s) && d !in s.deletions && id in s.files
    ensures BlobsOk(AfterDelete(s, d, id))
  {
    var t, key := AfterDelete(s, d, id), s.files[id].key;
    assert FileOk(s.roles, s.blobs, s.made, id, s.files[id]);
    forall n | n in s.tasks ensures s.tasks[n].key != key { assert TaskOk(s.roles, s.queued, n, s.tasks[n].key); }
    assert t.tasks == s.tasks[s.nextTask := Task(key, 0, s.now)] && s.nextTask !in s.tasks;
  }

  lemma DeleteKeepsHistory(s: State, d: nat, id: string)
    requires Inv(s) && d !in s.deletions && id in s.files
    ensures HistoryOk(AfterDelete(s, d, id))
  {
  }

  lemma DeleteKeeps(s: State, d: nat, id: string)
    requires Inv(s) && d !in s.deletions && id in s.files
    ensures Inv(AfterDelete(s, d, id))
  {
    DeleteKeepsTables(s, d, id);
    DeleteKeepsActors(s, d, id);
    DeleteKeepsBlobs(s, d, id);
    DeleteKeepsHistory(s, d, id);
  }

  lemma EraseKeeps(s: State, d: nat, outcome: Outcome)
    requires Inv(s) && d in s.deletions && OutcomeFits(s.blobs, s.deletions[d].key, outcome)
    ensures Inv(AfterErase(s, d, outcome))
  {
  }

  lemma ConfirmKeeps(s: State, d: nat, done: bool)
    requires Inv(s) && d in s.deletions && s.deletions[d].pc.Confirming?
    ensures Inv(AfterConfirm(s, d, done))
  {
  }

  lemma ClaimKeeps(c: Config, s: State, w: nat, ids: seq<nat>)
    requires Schedule.Valid(c.schedule) && Inv(s) && w !in s.workers && MayClaim(c, s, ids)
    ensures Inv(AfterClaim(c, s, w, ids))
  {
  }

  lemma RemoveKeeps(s: State, w: nat, outcome: Outcome)
    requires Inv(s) && Busy(s, w) && OutcomeFits(s.blobs, Current(s, w).key, outcome)
    ensures Inv(AfterRemove(s, w, outcome))
  {
  }

  lemma WithWorkerKeeps(s: State, w: nat, worker: Worker)
    requires Inv(s) && WorkerOk(s.roles, s.queued, s.blobs, worker)
    ensures Inv(s.(workers := s.workers[w := worker]))
  {
  }

  lemma WithoutWorkerKeeps(s: State, w: nat)
    requires Inv(s)
    ensures Inv(s.(workers := s.workers - {w}))
  {
  }

  lemma AdvanceKeeps(s: State, w: nat)
    requires Inv(s) && Busy(s, w)
    ensures Inv(Advance(s, w))
  {
    var worker := s.workers[w];
    assert WorkerOk(s.roles, s.queued, s.blobs, worker);
    if worker.at + 1 == |worker.batch| { WithoutWorkerKeeps(s, w); }
    else { WithWorkerKeeps(s, w, worker.(at := worker.at + 1, since := s.now, pc := Removing)); }
  }

  lemma RescheduledKeeps(s: State, id: nat, nextAt: int)
    requires Inv(s)
    ensures Inv(s.(tasks := Rescheduled(s.tasks, id, nextAt)))
  {
    if id in s.tasks { assert TaskOk(s.roles, s.queued, id, s.tasks[id].key); }
  }

  lemma CompleteKeeps(s: State, w: nat, done: bool)
    requires Inv(s) && Busy(s, w) && s.workers[w].pc.Completing?
    ensures Inv(AfterComplete(s, w, done))
  {
    var task := Current(s, w);
    var t := s.(tasks := if done then s.tasks - {task.id} else s.tasks);
    assert WorkerOk(s.roles, s.queued, s.blobs, s.workers[w]);
    assert BlobsOk(t);
    AdvanceKeeps(t, w);
  }

  lemma RetryDoneKeeps(s: State, w: nat, delay: int)
    requires Inv(s) && Busy(s, w)
    ensures Inv(AfterRetry(s, w, true, delay))
  {
    var t := s.(tasks := Rescheduled(s.tasks, Current(s, w).id, s.now + delay));
    assert Inv(t) by { RescheduledKeeps(s, Current(s, w).id, s.now + delay); }
    assert AfterRetry(s, w, true, delay) == Advance(t, w);
    assert Inv(Advance(t, w)) by { AdvanceKeeps(t, w); }
  }

  lemma RetryKeeps(s: State, w: nat, done: bool, delay: int)
    requires Inv(s) && Busy(s, w)
    ensures Inv(AfterRetry(s, w, done, delay))
  {
    if done { RetryDoneKeeps(s, w, delay); } else { AdvanceKeeps(s, w); }
  }

  lemma OfUploadKeeps(c: Config, s: State, u: nat, step: UploadStep)
    requires Inv(s) && UploadEnabled(c, s, u, step)
    ensures Inv(AfterUpload(c, s, u, step))
  {
    match step
    case Put(key, owner, blob, stored) => if stored {
      PutKeeps(s, u, key, owner, blob);
    } else {
      PutFailsKeeps(s, u, key, owner, blob);
    }
    case Create(id, commits) => if commits { CreateCommitsKeeps(s, u, id); } else { CreateFailsKeeps(s, u); }
    case Undo(outcome) => UndoKeeps(s, u, outcome);
    case UploadDies => UploadDiesKeeps(s, u);
  }

  lemma OfDeletionKeeps(s: State, d: nat, step: DeletionStep)
    requires Inv(s) && DeletionEnabled(s, d, step)
    ensures Inv(AfterDeletion(s, d, step))
  {
    match step
    case Delete(id, _) => DeleteKeeps(s, d, id);
    case Erase(outcome) => EraseKeeps(s, d, outcome);
    case Confirm(done) => ConfirmKeeps(s, d, done);
    case DeletionDies =>
  }

  lemma OfWorkerKeeps(c: Config, s: State, w: nat, step: WorkerStep)
    requires Schedule.Valid(c.schedule) && Inv(s) && WorkerEnabled(c, s, w, step)
    ensures Inv(AfterWork(c, s, w, step))
  {
    match step
    case Claim(ids) => ClaimKeeps(c, s, w, ids);
    case Remove(outcome) => RemoveKeeps(s, w, outcome);
    case Complete(done) => CompleteKeeps(s, w, done);
    case Retry(done) => RetryKeeps(s, w, done, Schedule.Backoff(c.schedule, Current(s, w).attempts));
    case WorkerDies =>
  }

  lemma NextKeeps(c: Config, s: State, step: Step)
    requires Schedule.Valid(c.schedule) && Inv(s) && Enabled(c, s, step)
    ensures Inv(Next(c, s, step))
  {
    match step
    case OfUpload(u, up) => OfUploadKeeps(c, s, u, up);
    case OfDeletion(d, del) => OfDeletionKeeps(s, d, del);
    case OfWorker(w, work) => OfWorkerKeeps(c, s, w, work);
    case Tick(_) =>
  }

  /** Every state of every run, failures and deaths included, keeps the invariant. */
  lemma {:induction false} RunKeeps(c: Config, s: State, steps: seq<Step>)
    requires Schedule.Valid(c.schedule) && Inv(s)
    ensures Run(c, s, steps).Some? ==> Inv(Run(c, s, steps).value)
  {
    if steps != [] {
      RunKeeps(c, s, steps[..|steps| - 1]);
      if Run(c, s, steps).Some? { NextKeeps(c, Run(c, s, steps[..|steps| - 1]).value, steps[|steps| - 1]); }
    }
  }
}
