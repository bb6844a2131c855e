/** How often a cleanup task was taken up: its attempts, which set the delay of the next
    retry (internal/repository/postgres/blob_cleanup.go), count its claims. */
module OutboxRetries {
  import opened Common
  import opened Outbox
  import opened OutboxSteps
  import Schedule = CleanupSchedule

  predicate Claims(step: Step, id: nat) { step.OfWorker? && step.work.Claim? && id in step.work.ids }

  /** The claims of a task in a run. */
  function ClaimsOf(steps: seq<Step>, id: nat): nat {
    if steps == [] then 0
    else ClaimsOf(steps[..|steps| - 1], id) + if Claims(steps[|steps| - 1], id) then 1 else 0
  }

  /** A task row comes with no attempts under a new id, and only a claim adds one. */
  predicate CountedBy(s: State, t: State, id: nat, more: nat) {
    && s.nextTask <= t.nextTask
    && (id in t.tasks ==> if id in s.tasks then t.tasks[id].attempts == s.tasks[id].attempts + more
                          else s.nextTask <= id < t.nextTask && t.tasks[id].attempts == 0)
  }

  lemma DeletionCounts(s: State, d: nat, step: DeletionStep, id: nat)
    requires DeletionEnabled(s, d, step) && s.nextTask !in s.tasks
    ensures CountedBy(s, AfterDeletion(s, d, step), id, 0)
  {
    match step
    case Delete(_, _) =>
    case Erase(_) =>
    case Confirm(_) =>
    case DeletionDies =>
  }

  lemma UploadCounts(c: Config, s: State, u: nat, step: UploadStep, id: nat)
    requires UploadEnabled(c, s, u, step)
    ensures CountedBy(s, AfterUpload(c, s, u, step), id, 0)
  {
    match step
    case Put(key, owner, blob, stored) => assert AfterPut(s, u, key, owner, blob, stored).tasks == s.tasks;
    case Create(name, commits) => assert AfterCreate(s, u, name, commits).tasks == s.tasks;
    case Undo(outcome) =>
    case UploadDies =>
  }

  lemma WorkCounts(c: Config, s: State, w: nat, step: WorkerStep, id: nat)
    requires Schedule.Valid(c.schedule) && WorkerEnabled(c, s, w, step)
    ensures CountedBy(s, AfterWork(c, s, w, step), id, if step.Claim? && id in step.ids then 1 else 0)
  {
    match step
    case Claim(ids) =>
    case Remove(_) =>
    case Complete(_) =>
    case Retry(_) =>
    case WorkerDies =>
  }

  lemma StepCounts(c: Config, s: State, step: Step, id: nat)
    requires Schedule.Valid(c.schedule) && Enabled(c, s, step) && s.nextTask !in s.tasks
    ensures CountedBy(s, Next(c, s, step), id, if Claims(step, id) then 1 else 0)
  {
    match step
    case OfUpload(u, up) => UploadCounts(c, s, u, up, id);
    case OfDeletion(d, del) => DeletionCounts(s, d, del, id);
    case OfWorker(w, work) => WorkCounts(c, s, w, work, id);
    case Tick(_) =>
  }

  lemma TasksBelow(s: State)
    requires Inv(s)
    ensures forall id :: id in s.tasks ==> id < s.nextTask
  {
    forall id | id in s.tasks ensures id < s.nextTask { assert TaskOk(s.roles, s.queued, id, s.tasks[id].key); }
  }

  /** In every run, by any number of workers: the attempts of a task are its claims. */
  lemma {:induction false} AttemptsAreClaims(c: Config, now: int, steps: seq<Step>, s: State, id: nat)
    requires Schedule.Valid(c.schedule) && Run(c, Init(now), steps) == Some(s)
    ensures id in s.tasks ==> s.tasks[id].attempts == ClaimsOf(steps, id)
    ensures id >= s.nextTask ==> ClaimsOf(steps, id) == 0
  {
    if steps != [] {
      var n := |steps| - 1;
      var t := Run(c, Init(now), steps[..n]).value;
      AttemptsAreClaims(c, now, steps[..n], t, id);
      RunKeeps(c, Init(now), steps[..n]);
      TasksBelow(t);
      StepCounts(c, t, steps[n], id);
    }
  }

  /** What a worker carries of a task is the count at its own claim. */
  lemma ClaimedAttempts(c: Config, now: int, steps: seq<Step>, s: State, w: nat, ids: seq<nat>, i: nat)
    requires Schedule.Valid(c.schedule) && Run(c, Init(now), steps) == Some(s)
    requires WorkerEnabled(c, s, w, Claim(ids)) && i < |ids|
    ensures var claimed := AfterClaim(c, s, w, ids).workers[w].batch[i];
      claimed.id == ids[i] && claimed.attempts == ClaimsOf(steps + [OfWorker(w, Claim(ids))], ids[i])
  {
    assert (steps + [OfWorker(w, Claim(ids))])[..|steps|] == steps;
    AttemptsAreClaims(c, now, steps, s, ids[i]);
  }
}
