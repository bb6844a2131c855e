/** Several workers and one clock: while every task takes less than the operation's
    timeout, no task is in the hands of two workers at once. A task's time runs from
    the end of the task before it, or from the claim, to its own end. */
module OutboxLeases {
  import opened Common
  import opened Outbox
  import opened OutboxSteps
  import Schedule = CleanupSchedule

  function Timeout(c: Config): int { c.schedule.operationTimeout as int }

  /** Nobody has been at a task for the whole of the operation's timeout. */
  ghost predicate Timely(c: Config, s: State) {
    forall w :: w in s.workers ==> s.now < s.workers[w].since + Timeout(c)
  }

  ghost predicate TimelyRun(c: Config, s: State, steps: seq<Step>)
    requires Schedule.Valid(c.schedule)
  {
    && Run(c, s, steps).Some? && Timely(c, Run(c, s, steps).value)
    && (steps != [] ==> TimelyRun(c, s, steps[..|steps| - 1]))
  }

  predicate Held(tasks: map<nat, Task>, id: nat, until: int) { id in tasks ==> tasks[id].nextAt == until }

  predicate DistinctBatch(batch: seq<Claimed>) { forall i, j :: 0 <= i < j < |batch| ==> batch[i].id != batch[j].id }

  /** A worker is no later than its finished tasks allow, and what is left of its
      batch is still leased to it. */
  predicate LeaseOk(c: Config, tasks: map<nat, Task>, worker: Worker)
    requires Schedule.Valid(c.schedule)
  {
    && worker.at < |worker.batch| <= c.schedule.batchSize as int && DistinctBatch(worker.batch)
    && worker.since <= worker.claimedAt + worker.at * (Timeout(c) - 1)
    && forall i :: worker.at <= i < |worker.batch| ==>
      Held(tasks, worker.batch[i].id, worker.claimedAt + Schedule.Lease(c.schedule))
  }

  predicate Apart(a: Worker, b: Worker) {
    forall i, j :: a.at <= i < |a.batch| && b.at <= j < |b.batch| ==> a.batch[i].id != b.batch[j].id
  }

  ghost predicate LeaseInv(c: Config, s: State)
    requires Schedule.Valid(c.schedule)
  {
    && (forall w :: w in s.workers ==> LeaseOk(c, s.tasks, s.workers[w]))
    && (forall w, v :: w in s.workers && v in s.workers && w != v ==> Apart(s.workers[w], s.workers[v]))
  }

  /** The i-th task ends before the lease does. */
  lemma WithinLease(c: Config, s: State, worker: Worker)
    requires Schedule.Valid(c.schedule) && Schedule.LeaseLasts(c.schedule)
    requires LeaseOk(c, s.tasks, worker) && s.now < worker.since + Timeout(c)
    ensures s.now < worker.claimedAt + Schedule.Lease(c.schedule)
  {
    Schedule.ScaledMonotone(Timeout(c) - 1, worker.at + 1, c.schedule.batchSize as int);
    assert (worker.at + 1) * (Timeout(c) - 1) == worker.at * (Timeout(c) - 1) + (Timeout(c) - 1);
  }

  lemma ClaimApart(c: Config, s: State, ids: seq<nat>, worker: Worker)
    requires Schedule.Valid(c.schedule) && Schedule.LeaseLasts(c.schedule)
    requires LeaseOk(c, s.tasks, worker) && s.now < worker.since + Timeout(c) && MayClaim(c, s, ids)
    ensures forall i, j :: worker.at <= i < |worker.batch| && 0 <= j < |ids| ==> worker.batch[i].id != ids[j]
  {
    WithinLease(c, s, worker);
    forall i, j | worker.at <= i < |worker.batch| && 0 <= j < |ids| ensures worker.batch[i].id != ids[j] {
      assert Held(s.tasks, worker.batch[i].id, worker.claimedAt + Schedule.Lease(c.schedule));
      assert Due(s, ids[j]);
    }
  }

  lemma ClaimKeepsLeases(c: Config, s: State, w: nat, ids: seq<nat>)
    requires Schedule.Valid(c.schedule) && Schedule.LeaseLasts(c.schedule)
    requires LeaseInv(c, s) && Timely(c, s) && w !in s.workers && MayClaim(c, s, ids)
    ensures LeaseInv(c, AfterClaim(c, s, w, ids))
  {
    var t := AfterClaim(c, s, w, ids);
    var claimer := t.workers[w];
    assert t.tasks == Leased(c, s, ids) && claimer.batch == Batch(s, ids);
    forall v | v in s.workers ensures LeaseOk(c, t.tasks, s.workers[v]) && Apart(s.workers[v], claimer)
        && Apart(claimer, s.workers[v]) {
      ClaimApart(c, s, ids, s.workers[v]);
    }
    forall i | 0 <= i < |ids| ensures Held(t.tasks, claimer.batch[i].id,
        claimer.claimedAt + Schedule.Lease(c.schedule)) {
      assert ids[i] in ids;
    }
    assert LeaseOk(c, t.tasks, claimer);
  }

  /** Rows may go, and only the row `but` may be rescheduled. */
  predicate RowsStay(tasks: map<nat, Task>, more: map<nat, Task>, but: nat) {
    forall id :: id in more && id != but ==> id in tasks && more[id].nextAt == tasks[id].nextAt
  }

  lemma LeaseStays(c: Config, tasks: map<nat, Task>, more: map<nat, Task>, but: nat, worker: Worker)
    requires Schedule.Valid(c.schedule) && LeaseOk(c, tasks, worker) && RowsStay(tasks, more, but)
    requires forall i :: worker.at <= i < |worker.batch| ==> worker.batch[i].id != but
    ensures LeaseOk(c, more, worker)
  {
    forall i | worker.at <= i < |worker.batch|
        ensures Held(more, worker.batch[i].id, worker.claimedAt + Schedule.Lease(c.schedule)) {
      assert Held(tasks, worker.batch[i].id, worker.claimedAt + Schedule.Lease(c.schedule));
    }
  }

  function Further(s: State, w: nat): Worker
    requires Busy(s, w)
  {
    s.workers[w].(at := s.workers[w].at + 1, since := s.now, pc := Removing)
  }

  lemma FurtherOk(c: Config, s: State, tasks: map<nat, Task>, w: nat)
    requires Schedule.Valid(c.schedule) && Busy(s, w) && LeaseOk(c, s.tasks, s.workers[w])
    requires s.now < s.workers[w].since + Timeout(c)
    requires RowsStay(s.tasks, tasks, Current(s, w).id) && s.workers[w].at + 1 < |s.workers[w].batch|
    ensures LeaseOk(c, tasks, Further(s, w))
  {
    var worker, next := s.workers[w], Further(s, w);
    assert next.at * (Timeout(c) - 1) == worker.at * (Timeout(c) - 1) + (Timeout(c) - 1);
    forall i | next.at <= i < |next.batch|
        ensures Held(tasks, next.batch[i].id, next.claimedAt + Schedule.Lease(c.schedule)) {
      assert Held(s.tasks, worker.batch[i].id, worker.claimedAt + Schedule.Lease(c.schedule));
      assert worker.batch[worker.at].id != worker.batch[i].id;
    }
  }

  lemma AdvanceKeepsLeases(c: Config, s: State, u: State, w: nat)
    requires Schedule.Valid(c.schedule) && LeaseInv(c, s) && Timely(c, s) && Busy(s, w)
    requires u.workers == s.workers && u.now == s.now && RowsStay(s.tasks, u.tasks, Current(s, w).id)
    ensures LeaseInv(c, Advance(u, w))
  {
    var t, worker := Advance(u, w), s.workers[w];
    assert t.tasks == u.tasks;
    forall v | v in s.workers && v != w ensures LeaseOk(c, t.tasks, s.workers[v]) {
      assert Apart(s.workers[v], worker);
      LeaseStays(c, s.tasks, u.tasks, Current(s, w).id, s.workers[v]);
    }
    if worker.at + 1 < |worker.batch| {
      FurtherOk(c, s, u.tasks, w);
      assert t.workers == s.workers[w := Further(s, w)];
      forall v | v in s.workers && v != w
          ensures Apart(s.workers[v], Further(s, w)) && Apart(Further(s, w), s.workers[v]) {
        assert Apart(s.workers[v], worker) && Apart(worker, s.workers[v]);
      }
    } else {
      assert t.workers == s.workers - {w};
    }
  }

  lemma SameWorkersKeepLeases(c: Config, s: State, t: State, but: nat)
    requires Schedule.Valid(c.schedule) && LeaseInv(c, s) && t.workers == s.workers && RowsStay(s.tasks, t.tasks, but)
    requires forall w, i :: w in s.workers && 0 <= i < |s.workers[w].batch| ==> s.workers[w].batch[i].id != but
    ensures LeaseInv(c, t)
  {
    forall w | w in t.workers ensures LeaseOk(c, t.tasks, t.workers[w]) {
      LeaseStays(c, s.tasks, t.tasks, but, s.workers[w]);
    }
  }

  lemma DeletionKeepsLeases(c: Config, s: State, d: nat, step: DeletionStep)
    requires Schedule.Valid(c.schedule) && Inv(s) && LeaseInv(c, s) && DeletionEnabled(s, d, step)
    ensures LeaseInv(c, AfterDeletion(s, d, step))
  {
    var t := AfterDeletion(s, d, step);
    forall w, i | w in s.workers && 0 <= i < |s.workers[w].batch| ensures s.workers[w].batch[i].id != s.nextTask {
      assert WorkerOk(s.roles, s.queued, s.blobs, s.workers[w]);
    }
    assert t.workers == s.workers && RowsStay(s.tasks, t.tasks, s.nextTask) by { DeletionRows(s, d, step); }
    SameWorkersKeepLeases(c, s, t, s.nextTask);
  }

  lemma DeleteRows(s: State, d: nat, id: string)
    requires id in s.files
    ensures var t := AfterDelete(s, d, id); t.workers == s.workers && RowsStay(s.tasks, t.tasks, s.nextTask)
  {
  }

  lemma EraseRows(s: State, d: nat, outcome: Outcome)
    requires d in s.deletions
    ensures var t := AfterErase(s, d, outcome); t.workers == s.workers && t.tasks == s.tasks
  {
  }

  lemma ConfirmRows(s: State, d: nat, done: bool)
    requires d in s.deletions
    ensures var t := AfterConfirm(s, d, done); t.workers == s.workers && RowsStay(s.tasks, t.tasks, s.nextTask)
  {
  }

  lemma DeletionRows(s: State, d: nat, step: DeletionStep)
    requires DeletionEnabled(s, d, step)
    ensures var t := AfterDeletion(s, d, step); t.workers == s.workers && RowsStay(s.tasks, t.tasks, s.nextTask)
  {
    match step
    case Delete(id, _) => DeleteRows(s, d, id);
    case Erase(outcome) => EraseRows(s, d, outcome);
    case Confirm(done) => ConfirmRows(s, d, done);
    case DeletionDies =>
  }

  lemma PutRows(s: State, u: nat, key: string, owner: string, blob: Blob, stored: bool)
    ensures var t := AfterPut(s, u, key, owner, blob, stored); t.workers == s.workers && t.tasks == s.tasks
  {
  }

  lemma CreateRows(s: State, u: nat, id: string, commits: bool)
    requires u in s.uploads
    ensures var t := AfterCreate(s, u, id, commits); t.workers == s.workers && t.tasks == s.tasks
  {
  }

  lemma UndoRows(s: State, u: nat, outcome: Outcome)
    requires u in s.uploads
    ensures var t := AfterUndo(s, u, outcome); t.workers == s.workers && t.tasks == s.tasks
  {
  }

  lemma UploadRows(c: Config, s: State, u: nat, step: UploadStep)
    requires UploadEnabled(c, s, u, step)
    ensures var t := AfterUpload(c, s, u, step); t.workers == s.workers && t.tasks == s.tasks
  {
    match step
    case Put(key, owner, blob, stored) => PutRows(s, u, key, owner, blob, stored);
    case Create(id, commits) => CreateRows(s, u, id, commits);
    case Undo(outcome) => UndoRows(s, u, outcome);
    case UploadDies =>
  }

  lemma WorkerKeepsLeases(c: Config, s: State, w: nat, step: WorkerStep)
    requires Schedule.Valid(c.schedule) && Schedule.LeaseLasts(c.schedule)
    requires LeaseInv(c, s) && Timely(c, s) && WorkerEnabled(c, s, w, step)
    ensures LeaseInv(c, AfterWork(c, s, w, step))
  {
    match step
    case Claim(ids) => ClaimKeepsLeases(c, s, w, ids);
    case Remove(outcome) => RemoveKeepsLeases(c, s, w, outcome);
    case Complete(done) =>
      AdvanceKeepsLeases(c, s, s.(tasks := if done then s.tasks - {Current(s, w).id} else s.tasks), w);
    case Retry(done) => RetryKeepsLeases(c, s, w, done, Schedule.Backoff(c.schedule, Current(s, w).attempts));
    case WorkerDies =>
  }

  lemma RemoveKeepsLeases(c: Config, s: State, w: nat, outcome: Outcome)
    requires Schedule.Valid(c.schedule) && LeaseInv(c, s) && Busy(s, w)
    ensures LeaseInv(c, AfterRemove(s, w, outcome))
  {
    var t := AfterRemove(s, w, outcome);
    assert t.workers == s.workers[w := s.workers[w].(pc := t.workers[w].pc)] && t.tasks == s.tasks;
    forall v | v in s.workers && v != w ensures Apart(s.workers[v], t.workers[w]) && Apart(t.workers[w], s.workers[v]) {
      assert Apart(s.workers[v], s.workers[w]) && Apart(s.workers[w], s.workers[v]);
    }
  }

  lemma RetryKeepsLeases(c: Config, s: State, w: nat, done: bool, delay: int)
    requires Schedule.Valid(c.schedule) && LeaseInv(c, s) && Timely(c, s) && Busy(s, w)
    ensures LeaseInv(c, AfterRetry(s, w, done, delay))
  {
    var tasks := if done then Rescheduled(s.tasks, Current(s, w).id, s.now + delay) else s.tasks;
    assert RowsStay(s.tasks, tasks, Current(s, w).id);
    AdvanceKeepsLeases(c, s, s.(tasks := tasks), w);
  }

  lemma NextKeepsLeases(c: Config, s: State, step: Step)
    requires Schedule.Valid(c.schedule) && Schedule.LeaseLasts(c.schedule)
    requires Inv(s) && LeaseInv(c, s) && Timely(c, s) && Enabled(c, s, step)
    ensures LeaseInv(c, Next(c, s, step))
  {
    match step
    case OfUpload(u, up) => UploadRows(c, s, u, up);
    case OfDeletion(d, del) => DeletionKeepsLeases(c, s, d, del);
    case OfWorker(w, work) => WorkerKeepsLeases(c, s, w, work);
    case Tick(_) =>
  }

  lemma {:induction false} RunKeepsLeases(c: Config, now: int, steps: seq<Step>)
    requires Schedule.Valid(c.schedule) && Schedule.LeaseLasts(c.schedule)
    requires TimelyRun(c, Init(now), steps)
    ensures LeaseInv(c, Run(c, Init(now), steps).value)
  {
    if steps != [] {
      RunKeepsLeases(c, now, steps[..|steps| - 1]);
      RunKeeps(c, Init(now), steps[..|steps| - 1]);
      NextKeepsLeases(c, Run(c, Init(now), steps[..|steps| - 1]).value, steps[|steps| - 1]);
    }
  }

  /** Reached from an empty system by a run in which every state was timely. */
  ghost predicate TimelyReachable(c: Config, s: State)
    requires Schedule.Valid(c.schedule)
  {
    exists now, steps :: TimelyRun(c, Init(now), steps) && Run(c, Init(now), steps) == Some(s)
  }

  /** No two workers are at the same task or the same blob, and no task that a worker
      has yet to do can be claimed by another. */
  lemma LeasesExclude(c: Config, s: State, w: nat, v: nat)
    requires Schedule.Valid(c.schedule) && Schedule.LeaseLasts(c.schedule)
    requires TimelyReachable(c, s)
    ensures Busy(s, w) && Busy(s, v) && w != v ==>
      Current(s, w).id != Current(s, v).id && Current(s, w).key != Current(s, v).key
    ensures Busy(s, w) ==> forall i :: s.workers[w].at <= i < |s.workers[w].batch| ==> !Due(s, s.workers[w].batch[i].id)
  {
    var now, steps :| TimelyRun(c, Init(now), steps) && Run(c, Init(now), steps) == Some(s);
    RunKeeps(c, Init(now), steps);
    RunKeepsLeases(c, now, steps);
    if Busy(s, w) {
      WithinLease(c, s, s.workers[w]);
      forall i | s.workers[w].at <= i < |s.workers[w].batch| ensures !Due(s, s.workers[w].batch[i].id) {
        assert Held(s.tasks, s.workers[w].batch[i].id, s.workers[w].claimedAt + Schedule.Lease(c.schedule));
      }
      assert WorkerOk(s.roles, s.queued, s.blobs, s.workers[w]);
      if Busy(s, v) && w != v {
        assert WorkerOk(s.roles, s.queued, s.blobs, s.workers[v]);
        assert Apart(s.workers[w], s.workers[v]);
      }
    }
  }
}
