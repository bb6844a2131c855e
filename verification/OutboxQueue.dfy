/** Cleanup keeps up with deletions: tasks are claimed oldest first, so when nothing
    fails any more, whatever was pending is gone after a number of rounds that does not
    depend on the documents deleted meanwhile. */
module OutboxQueue {
  import opened Common
  import opened Outbox
  import opened OutboxSteps
  import opened OutboxLeases
  import opened OutboxTheorems
  import opened OutboxConverges
  import Schedule = CleanupSchedule

  /** No worker's call fails and no worker dies; requests may do as they like. */
  predicate Healthy(step: Step) {
    match step
    case OfWorker(_, Remove(outcome)) => Succeeds(outcome)
    case OfWorker(_, Complete(done)) => done
    case OfWorker(_, WorkerDies) => false
    case _ => true
  }

  predicate AllHealthy(steps: seq<Step>) { forall i :: 0 <= i < |steps| ==> Healthy(steps[i]) }

  predicate Holds(s: State, v: nat, i: nat, id: nat) {
    Busy(s, v) && s.workers[v].at <= i < |s.workers[v].batch| && s.workers[v].batch[i].id == id
  }

  /** Some worker has the task in what is left of its batch. */
  ghost predicate Held(s: State, id: nat) { exists v, i :: Holds(s, v, i, id) }

  /** No pending task is in a worker's hands. */
  ghost predicate Unheld(s: State) { forall id :: id in s.tasks ==> !Held(s, id) }

  /** So it is wherever every task is due, while all workers are timely. */
  lemma DueMeansUnheld(c: Config, s: State)
    requires Schedule.Valid(c.schedule) && Schedule.LeaseLasts(c.schedule)
    requires TimelyReachable(c, s) && AllDue(s)
    ensures Unheld(s)
  {
    forall id | id in s.tasks ensures !Held(s, id) {
      assert Due(s, id);
      if Held(s, id) {
        var v, i :| Holds(s, v, i, id);
        LeasesExclude(c, s, v, v);
      }
    }
  }

  /** A worker that is about to reschedule a task finds no row: failures lie behind. */
  ghost predicate NothingToRetry(s: State) {
    forall v :: Busy(s, v) && s.workers[v].pc.Retrying? ==> Gone(s, Current(s, v).id)
  }

  // -------------------------------------------------------------- one step

  /** Rows go, or are claimed and so held, or come at the end of the queue. */
  predicate RowFollows(s: State, t: State, id: nat, held: bool)
    requires id in t.tasks
  {
    if id in s.tasks then t.tasks[id].nextAt == s.tasks[id].nextAt || (held && t.tasks[id].nextAt >= s.now)
    else id == s.nextTask < t.nextTask && s.now <= t.tasks[id].nextAt <= t.now
  }

  ghost predicate Follows(s: State, t: State) {
    && s.now <= t.now && s.nextTask <= t.nextTask
    && (forall id :: id in t.tasks ==> RowFollows(s, t, id, Held(t, id)))
    && (forall id :: id in t.tasks && Held(s, id) ==> Held(t, id))
    && NothingToRetry(t)
  }

  predicate SameWork(s: State, t: State) {
    s.now <= t.now && s.nextTask <= t.nextTask && t.workers == s.workers
  }

  lemma SameWorkFollows(s: State, t: State)
    requires SameWork(s, t) && NothingToRetry(s)
    requires forall id :: id in t.tasks ==> RowFollows(s, t, id, false)
    ensures Follows(s, t)
  {
    forall v | Busy(t, v) && t.workers[v].pc.Retrying? ensures Gone(t, Current(t, v).id) {
      assert Gone(s, Current(s, v).id);
    }
    forall id | id in t.tasks && Held(s, id) ensures Held(t, id) {
      var v, i :| Holds(s, v, i, id);
      assert Holds(t, v, i, id);
    }
  }

  lemma PutWork(s: State, u: nat, key: string, owner: string, blob: Blob, stored: bool)
    ensures var t := AfterPut(s, u, key, owner, blob, stored); SameWork(s, t) && t.tasks == s.tasks
  {
  }

  lemma CreateWork(s: State, u: nat, id: string, commits: bool)
    requires u in s.uploads
    ensures var t := AfterCreate(s, u, id, commits); SameWork(s, t) && t.tasks == s.tasks
  {
  }

  lemma UndoWork(s: State, u: nat, outcome: Outcome)
    requires u in s.uploads
    ensures var t := AfterUndo(s, u, outcome); SameWork(s, t) && t.tasks == s.tasks
  {
  }

  lemma UploadWork(c: Config, s: State, u: nat, step: UploadStep)
    requires UploadEnabled(c, s, u, step)
    ensures var t := AfterUpload(c, s, u, step); SameWork(s, t) && t.tasks == s.tasks
  {
    match step
    case Put(key, owner, blob, stored) => PutWork(s, u, key, owner, blob, stored);
    case Create(id, commits) => CreateWork(s, u, id, commits);
    case Undo(outcome) => UndoWork(s, u, outcome);
    case UploadDies =>
  }

  ghost predicate RowsFollow(s: State, t: State) { forall id :: id in t.tasks ==> RowFollows(s, t, id, false) }

  lemma DeleteWork(s: State, d: nat, id: string)
    requires id in s.files && s.nextTask !in s.tasks
    ensures var t := AfterDelete(s, d, id); SameWork(s, t) && RowsFollow(s, t)
  {
  }

  lemma EraseWork(s: State, d: nat, outcome: Outcome)
    requires d in s.deletions
    ensures var t := AfterErase(s, d, outcome); SameWork(s, t) && RowsFollow(s, t)
  {
  }

  lemma ConfirmWork(s: State, d: nat, done: bool)
    requires d in s.deletions
    ensures var t := AfterConfirm(s, d, done); SameWork(s, t) && RowsFollow(s, t)
  {
  }

  lemma DeletionWork(s: State, d: nat, step: DeletionStep)
    requires DeletionEnabled(s, d, step) && s.nextTask !in s.tasks
    ensures var t := AfterDeletion(s, d, step); SameWork(s, t) && RowsFollow(s, t)
  {
    match step
    case Delete(id, _) => DeleteWork(s, d, id);
    case Erase(outcome) => EraseWork(s, d, outcome);
    case Confirm(done) => ConfirmWork(s, d, done);
    case DeletionDies =>
  }

  lemma ClaimFollows(c: Config, s: State, v: nat, ids: seq<nat>)
    requires Schedule.Valid(c.schedule) && v !in s.workers && MayClaim(c, s, ids) && NothingToRetry(s)
    ensures Follows(s, AfterClaim(c, s, v, ids))
  {
    var t := AfterClaim(c, s, v, ids);
    assert t.tasks == Leased(c, s, ids) && t.workers == s.workers[v := t.workers[v]]
      && t.workers[v].batch == Batch(s, ids);
    assert Schedule.Lease(c.schedule) >= 0 by {
      Schedule.ScaledMonotone(c.schedule.operationTimeout as int, 0, c.schedule.batchSize as int);
    }
    forall id | id in t.tasks ensures RowFollows(s, t, id, Held(t, id)) {
      if id in ids {
        var i :| 0 <= i < |ids| && ids[i] == id;
        assert Holds(t, v, i, id);
      }
    }
    forall id | id in t.tasks && Held(s, id) ensures Held(t, id) {
      var o, i :| Holds(s, o, i, id);
      assert Holds(t, o, i, id);
    }
    forall o | Busy(t, o) && t.workers[o].pc.Retrying? ensures Gone(t, Current(t, o).id) {
      assert Gone(s, Current(s, o).id);
    }
  }

  lemma RemoveFollows(s: State, v: nat, outcome: Outcome)
    requires Busy(s, v) && s.workers[v].pc.Removing? && Succeeds(outcome) && NothingToRetry(s)
    ensures Follows(s, AfterRemove(s, v, outcome))
  {
    var t := AfterRemove(s, v, outcome);
    assert t.tasks == s.tasks && t.workers == s.workers[v := s.workers[v].(pc := Completing)];
    forall id | id in t.tasks && Held(s, id) ensures Held(t, id) {
      var o, i :| Holds(s, o, i, id);
      assert Holds(t, o, i, id);
    }
    forall o | Busy(t, o) && t.workers[o].pc.Retrying? ensures Gone(t, Current(t, o).id) {
      assert Gone(s, Current(s, o).id);
    }
  }

  /** Done with a task whose row is gone. */
  lemma AdvanceFollows(s: State, u: State, v: nat)
    requires Busy(s, v) && NothingToRetry(s) && u.workers == s.workers && u.now == s.now && u.nextTask == s.nextTask
    requires Current(s, v).id !in u.tasks && forall id :: id in u.tasks ==> id in s.tasks && u.tasks[id] == s.tasks[id]
    ensures Follows(s, Advance(u, v))
  {
    var t, worker := Advance(u, v), s.workers[v];
    assert t.tasks == u.tasks && t.now == s.now && t.nextTask == s.nextTask;
    forall id | id in t.tasks && Held(s, id) ensures Held(t, id) {
      var o, i :| Holds(s, o, i, id);
      assert o == v ==> i != worker.at;
      assert Holds(t, o, i, id);
    }
    forall o | Busy(t, o) && t.workers[o].pc.Retrying? ensures Gone(t, Current(t, o).id) {
      assert o != v && t.workers[o] == s.workers[o];
      assert Gone(s, Current(s, o).id);
    }
  }

  lemma RetryFollows(s: State, v: nat, done: bool, delay: int)
    requires Busy(s, v) && s.workers[v].pc.Retrying? && NothingToRetry(s)
    ensures Follows(s, AfterRetry(s, v, done, delay))
  {
    assert Gone(s, Current(s, v).id);
    assert Rescheduled(s.tasks, Current(s, v).id, s.now + delay) == s.tasks;
    AdvanceFollows(s, s, v);
  }

  lemma WorkFollows(c: Config, s: State, v: nat, work: WorkerStep)
    requires Schedule.Valid(c.schedule) && WorkerEnabled(c, s, v, work) && Healthy(OfWorker(v, work))
    requires NothingToRetry(s)
    ensures Follows(s, AfterWork(c, s, v, work))
  {
    match work
    case Claim(ids) => ClaimFollows(c, s, v, ids);
    case Remove(outcome) => RemoveFollows(s, v, outcome);
    case Complete(done) => AdvanceFollows(s, s.(tasks := s.tasks - {Current(s, v).id}), v);
    case Retry(done) => RetryFollows(s, v, done, Schedule.Backoff(c.schedule, Current(s, v).attempts));
    case WorkerDies =>
  }

  lemma NextFollows(c: Config, s: State, step: Step)
    requires Schedule.Valid(c.schedule) && Enabled(c, s, step) && Healthy(step) && NothingToRetry(s) && Inv(s)
    ensures Follows(s, Next(c, s, step))
  {
    IdsBelow(s);
    match step
    case OfUpload(u, up) => UploadWork(c, s, u, up); SameWorkFollows(s, Next(c, s, step));
    case OfDeletion(d, del) => DeletionWork(s, d, del); SameWorkFollows(s, Next(c, s, step));
    case OfWorker(v, work) => WorkFollows(c, s, v, work);
    case Tick(_) => SameWorkFollows(s, Next(c, s, step));
  }

  // ------------------------------------------------------------- one round

  /** Nothing that waits is lost: a pending task is due, or a worker has it. */
  ghost predicate DueOrHeld(s: State) { forall id :: id in s.tasks ==> Due(s, id) || Held(s, id) }

  lemma DueOrHeldOn(s: State, t: State)
    requires DueOrHeld(s) && Follows(s, t)
    ensures DueOrHeld(t)
  {
    forall id | id in t.tasks ensures Due(t, id) || Held(t, id) {
      assert RowFollows(s, t, id, Held(t, id));
      if id in s.tasks { assert Due(s, id) || Held(s, id); }
    }
  }

  /** Since `s`: a pending task of then is where it was in the queue, held, or gone; new
      ones are at the end. */
  ghost predicate Tracked(s: State, u: State) {
    && s.now <= u.now && s.nextTask <= u.nextTask && NothingToRetry(u) && DueOrHeld(u)
    && (forall id :: id in s.tasks && id in u.tasks ==> u.tasks[id].nextAt == s.tasks[id].nextAt || Held(u, id))
    && (forall id :: id in u.tasks && id !in s.tasks ==> id >= s.nextTask && u.tasks[id].nextAt >= s.now)
  }

  lemma TrackedOn(s: State, u: State, t: State)
    requires Tracked(s, u) && Follows(u, t) && forall id :: id in s.tasks ==> id < u.nextTask
    ensures Tracked(s, t)
  {
    DueOrHeldOn(u, t);
    forall id | id in s.tasks && id in t.tasks ensures t.tasks[id].nextAt == s.tasks[id].nextAt || Held(t, id) {
      assert RowFollows(u, t, id, Held(t, id));
    }
    forall id | id in t.tasks && id !in s.tasks ensures id >= s.nextTask && t.tasks[id].nextAt >= s.now {
      assert RowFollows(u, t, id, Held(t, id));
    }
  }

  lemma IdsBelow(s: State)
    requires Inv(s)
    ensures forall id :: id in s.tasks ==> id < s.nextTask
  {
    forall id | id in s.tasks ensures id < s.nextTask { assert TaskOk(s.roles, s.queued, id, s.tasks[id].key); }
  }

  lemma {:induction false} RunTracked(c: Config, s: State, u: State, steps: seq<Step>)
    requires Schedule.Valid(c.schedule) && Inv(s) && Inv(u) && Tracked(s, u) && AllHealthy(steps)
    requires Run(c, u, steps).Some?
    ensures Tracked(s, Run(c, u, steps).value)
  {
    if steps != [] {
      var most, step := steps[..|steps| - 1], steps[|steps| - 1];
      var t := Run(c, u, most).value;
      RunTracked(c, s, u, most);
      RunKeeps(c, u, most);
      IdsBelow(s);
      assert Healthy(step);
      NextFollows(c, t, step);
      TrackedOn(s, t, Next(c, t, step));
    }
  }

  lemma UnheldNothingToRetry(s: State)
    requires Inv(s) && Unheld(s)
    ensures NothingToRetry(s)
  {
    forall v | Busy(s, v) && s.workers[v].pc.Retrying? ensures Gone(s, Current(s, v).id) {
      assert Holds(s, v, s.workers[v].at, Current(s, v).id);
      assert WorkerOk(s.roles, s.queued, s.blobs, s.workers[v]);
    }
  }

  lemma RoundTracked(c: Config, s: State, w: nat, round: Round, t: State)
    requires Schedule.Valid(c.schedule) && Inv(s) && Unheld(s) && IsRound(c, s, w, round, t)
    requires AllHealthy(round.steps)
    ensures Tracked(s, t)
  {
    var u := RoundStart(c, s, w, round.ids);
    UnheldNothingToRetry(s);
    if round.ids != [] {
      ClaimKeeps(c, s, w, round.ids);
      ClaimFollows(c, s, w, round.ids);
      IdsBelow(s);
      TrackedOn(s, s, u);
    }
    RunTracked(c, s, u, round.steps);
  }

  /** The tasks from `n` on queue behind the others. */
  ghost predicate Queued(s: State, n: nat) {
    forall x, y :: x in s.tasks && y in s.tasks && x < n <= y ==> s.tasks[x].nextAt <= s.tasks[y].nextAt
  }

  /** In a round without failures the order of the queue stays, the tasks at its head are
      removed, as many as the worker may claim, and what is left is due again. */
  lemma RoundServesHead(c: Config, s: State, w: nat, round: Round, t: State, n: nat)
    requires Schedule.Valid(c.schedule) && Inv(s) && Unheld(s) && IsRound(c, s, w, round, t)
    requires AllHealthy(round.steps) && n <= s.nextTask && Queued(s, n)
    ensures Unheld(t) ==> Queued(t, n) && AllDue(t)
    ensures |Old(t, n)| <= |Old(s, n)| - Min(BatchSize(c), |Old(s, n)|)
  {
    RoundTracked(c, s, w, round, t);
    if Unheld(t) { QueueStays(s, t, n); }
    RoundGone(c, s, w, round, t);
    HeadServed(c, s, w, round, t, n);
  }

  lemma QueueStays(s: State, t: State, n: nat)
    requires Tracked(s, t) && Queued(s, n) && n <= s.nextTask && Unheld(t) && AllDue(s)
    ensures Queued(t, n)
  {
    forall x, y | x in t.tasks && y in t.tasks && x < n <= y ensures t.tasks[x].nextAt <= t.tasks[y].nextAt {
      assert x in s.tasks && !Held(t, x) && !Held(t, y) && Due(s, x);
    }
  }

  lemma HeadServed(c: Config, s: State, w: nat, round: Round, t: State, n: nat)
    requires Schedule.Valid(c.schedule) && IsRound(c, s, w, round, t) && n <= s.nextTask && Queued(s, n)
    requires NewIdsOnly(s, t)
    requires forall i :: 0 <= i < |round.ids| ==> Gone(t, round.ids[i])
    ensures |Old(t, n)| <= |Old(s, n)| - Min(BatchSize(c), |Old(s, n)|)
  {
    var ids := round.ids;
    if y :| y in Old(s, n) && y !in ids {
      assert Due(s, y);
      forall i | 0 <= i < |ids| ensures ids[i] in Old(s, n) { assert Before(s.tasks, ids[i], y); }
      OldLeft(s, t, n, ids);
    } else {
      forall i | 0 <= i < |ids| ensures ids[i] !in Old(t, n) { assert Gone(t, ids[i]); }
      assert Old(t, n) <= Old(s, n) && Ids(ids) !! Old(t, n);
      assert Old(s, n) <= Ids(ids);
      assert Old(t, n) == {};
    }
  }

  // ---------------------------------------------------------------- rounds

  /** Batches in which nothing fails, with whatever uploads and deletions, each begun when
      no pending task is in a worker's hands. */
  ghost predicate HealthyRounds(c: Config, states: seq<State>, w: nat, rounds: seq<Round>)
    requires Schedule.Valid(c.schedule)
  {
    && Batches(c, states, w, rounds)
    && (forall k :: 0 <= k < |rounds| ==> Unheld(states[k]) && AllHealthy(rounds[k].steps))
  }

  lemma {:induction false} RoundsServe(c: Config, states: seq<State>, w: nat, rounds: seq<Round>)
    requires Schedule.Valid(c.schedule) && HealthyRounds(c, states, w, rounds) && Inv(states[0])
    requires AllDue(states[0])
    ensures var t, n := states[|rounds|], states[0].nextTask;
      && Inv(t) && n <= t.nextTask && (Unheld(t) ==> Queued(t, n) && AllDue(t))
      && (|Old(t, n)| == 0 || |Old(t, n)| <= |states[0].tasks| - |rounds| * BatchSize(c))
  {
    var n := states[0].nextTask;
    if rounds == [] {
      IdsBelow(states[0]);
      AllOld(states[0]);
    } else {
      var k := |rounds| - 1;
      var s, t := states[k], states[k + 1];
      assert states[..k + 1][|rounds[..k]|] == s;
      RoundsServe(c, states[..k + 1], w, rounds[..k]);
      assert Batched(c, s, w, rounds[k], t) && Unheld(s) && AllHealthy(rounds[k].steps);
      RoundGone(c, s, w, rounds[k], t);
      RoundServesHead(c, s, w, rounds[k], t, n);
      OneMore(k, BatchSize(c));
    }
  }

  /** A blob of a deleted document is there only while its task is. */
  lemma RetiredBlobPending(s: State, t: State, key: string)
    requires Inv(s) && Inv(t) && Since(s, t) && IsRetired(s.roles, key)
    ensures key in t.blobs ==> s.roles[key].task in s.tasks && s.roles[key].task in t.tasks
  {
    assert Stays(s, t, key);
    if key in t.blobs { assert Placed(s, key) && Placed(t, key); }
  }

  /** From a state in which every lease and delay has run out: whatever was pending is gone
      after enough batches, and so is every blob of a document deleted before them, however
      many documents are deleted meanwhile. */
  lemma CleanupConverges(c: Config, states: seq<State>, w: nat, rounds: seq<Round>)
    requires Schedule.Valid(c.schedule) && HealthyRounds(c, states, w, rounds) && Reachable(c, states[0])
    requires AllDue(states[0]) && |states[0].tasks| <= |rounds| * BatchSize(c)
    ensures var s, t := states[0], states[|rounds|];
      && (forall id :: id in t.tasks ==> id >= s.nextTask)
      && (forall key :: IsRetired(s.roles, key) ==> key !in t.blobs)
  {
    var s, t := states[0], states[|rounds|];
    ReachableKeeps(c, s);
    RoundsServe(c, states, w, rounds);
    RoundsKeep(c, states, w, rounds);
    assert Old(t, s.nextTask) == {};
    forall id | id in t.tasks ensures id >= s.nextTask { assert id < s.nextTask ==> id in Old(t, s.nextTask); }
    IdsBelow(s);
    forall key | IsRetired(s.roles, key) ensures key !in t.blobs { RetiredBlobPending(s, t, key); }
  }

  // ----------------------------------------------------------- a single worker

  predicate OnlyWorker(w: nat, steps: seq<Step>) {
    forall i :: 0 <= i < |steps| && steps[i].OfWorker? ==> steps[i].w == w
  }

  lemma NextAlone(c: Config, s: State, w: nat, step: Step)
    requires Schedule.Valid(c.schedule) && Enabled(c, s, step) && s.workers.Keys <= {w}
    requires step.OfWorker? ==> step.w == w
    ensures Next(c, s, step).workers.Keys <= {w}
  {
    match step
    case OfUpload(u, up) => UploadWork(c, s, u, up);
    case OfDeletion(d, del) => DeletionTasks(s, d, del);
    case OfWorker(v, work) => WorkerAlone(c, s, v, work);
    case Tick(_) =>
  }

  lemma WorkerAlone(c: Config, s: State, w: nat, work: WorkerStep)
    requires Schedule.Valid(c.schedule) && WorkerEnabled(c, s, w, work) && s.workers.Keys <= {w}
    ensures AfterWork(c, s, w, work).workers.Keys <= {w}
  {
    WorkerTasks(c, s, w, work);
    var t := AfterWork(c, s, w, work);
    forall v | v in t.workers ensures v == w { assert v != w ==> v in t.workers - {w}; }
  }

  lemma {:induction false} RunAlone(c: Config, s: State, w: nat, steps: seq<Step>)
    requires Schedule.Valid(c.schedule) && Run(c, s, steps).Some? && s.workers.Keys <= {w} && OnlyWorker(w, steps)
    ensures Run(c, s, steps).value.workers.Keys <= {w}
  {
    if steps != [] {
      var n := |steps| - 1;
      RunAlone(c, s, w, steps[..n]);
      NextAlone(c, Run(c, s, steps[..n]).value, w, steps[n]);
    }
  }

  /** An idle worker without others leaves nobody with a task in hand. */
  lemma BatchAlone(c: Config, s: State, w: nat, round: Round, t: State)
    requires Schedule.Valid(c.schedule) && Batched(c, s, w, round, t)
    requires s.workers == map[] && OnlyWorker(w, round.steps)
    ensures t.workers == map[]
  {
    RunAlone(c, RoundStart(c, s, w, round.ids), w, round.steps);
    assert t.workers.Keys == {};
  }

  lemma IdleUnheld(s: State)
    requires s.workers == map[]
    ensures Unheld(s)
  {
  }

  /** Batches of one worker and no other. */
  ghost predicate LoneBatches(c: Config, states: seq<State>, w: nat, rounds: seq<Round>)
    requires Schedule.Valid(c.schedule)
  {
    && Batches(c, states, w, rounds) && states[0].workers == map[]
    && (forall k :: 0 <= k < |rounds| ==> AllHealthy(rounds[k].steps) && OnlyWorker(w, rounds[k].steps))
  }

  lemma {:induction false} LoneBatchesIdle(c: Config, states: seq<State>, w: nat, rounds: seq<Round>)
    requires Schedule.Valid(c.schedule) && LoneBatches(c, states, w, rounds)
    ensures forall k :: 0 <= k <= |rounds| ==> states[k].workers == map[]
  {
    if rounds != [] {
      var n := |rounds| - 1;
      LoneBatchesIdle(c, states[..n + 1], w, rounds[..n]);
      assert states[..n + 1][n] == states[n];
      BatchAlone(c, states[n], w, rounds[n], states[n + 1]);
      forall k | 0 <= k <= |rounds| ensures states[k].workers == map[] {
        assert k <= n ==> states[..n + 1][k] == states[k];
      }
    }
  }

  /** With one worker nothing is asked of the states between its batches: if every lease and
      delay has run out once, and nothing fails from then on, then after enough batches
      whatever was pending then is gone. */
  lemma LoneWorkerConverges(c: Config, states: seq<State>, w: nat, rounds: seq<Round>)
    requires Schedule.Valid(c.schedule) && LoneBatches(c, states, w, rounds) && Reachable(c, states[0])
    requires AllDue(states[0]) && |states[0].tasks| <= |rounds| * BatchSize(c)
    ensures var s, t := states[0], states[|rounds|];
      && (forall id :: id in t.tasks ==> id >= s.nextTask)
      && (forall key :: IsRetired(s.roles, key) ==> key !in t.blobs)
  {
    LoneBatchesIdle(c, states, w, rounds);
    forall k | 0 <= k < |rounds| ensures Unheld(states[k]) { IdleUnheld(states[k]); }
    CleanupConverges(c, states, w, rounds);
  }
}
