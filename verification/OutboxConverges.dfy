/** Cleanup comes to an end: every batch that a worker claims and does not fail is gone
    from the table when the worker has finished it, whatever other workers, uploads and
    deletions do meanwhile; and rows are claimed oldest first, so that new deletions do
    not keep old tasks waiting. */
module OutboxConverges {
  import opened Common
  import opened Outbox
  import opened OutboxSteps
  import opened OutboxLeases
  import opened OutboxTheorems
  import Schedule = CleanupSchedule

  /** Worker `w` neither fails nor dies. */
  predicate Calm(w: nat, step: Step) {
    match step
    case OfWorker(v, Remove(outcome)) => v == w ==> Succeeds(outcome)
    case OfWorker(v, Complete(done)) => v == w ==> done
    case OfWorker(v, WorkerDies) => v != w
    case _ => true
  }

  predicate AllCalm(w: nat, steps: seq<Step>) { forall i :: 0 <= i < |steps| ==> Calm(w, steps[i]) }

  /** Not in the table, nor an id still to be given. */
  predicate Gone(s: State, id: nat) { id !in s.tasks && id < s.nextTask }

  /** The batch is done, or `w` is at it and the tasks before the current one are done. */
  predicate OnBatch(s: State, w: nat, ids: seq<nat>) {
    (forall i :: 0 <= i < |ids| ==> Gone(s, ids[i])) || Midway(s, w, ids)
  }

  predicate Midway(s: State, w: nat, ids: seq<nat>) {
    && Busy(s, w) && |s.workers[w].batch| == |ids| && !s.workers[w].pc.Retrying?
    && (forall i :: 0 <= i < |ids| ==> s.workers[w].batch[i].id == ids[i] && ids[i] < s.nextTask)
    && (forall i :: 0 <= i < s.workers[w].at ==> Gone(s, ids[i]))
  }

  /** Rows may go, and new ones have new ids. */
  predicate OnlyNewRows(s: State, t: State) {
    s.nextTask <= t.nextTask && forall id :: id in t.tasks ==> id in s.tasks || id == s.nextTask < t.nextTask
  }

  lemma DeletionTasks(s: State, d: nat, step: DeletionStep)
    requires DeletionEnabled(s, d, step)
    ensures var t := AfterDeletion(s, d, step); OnlyNewRows(s, t) && t.workers == s.workers
  {
    match step
    case Delete(id, _) => DeleteRows(s, d, id);
    case Erase(outcome) => EraseRows(s, d, outcome);
    case Confirm(done) => ConfirmRows(s, d, done);
    case DeletionDies =>
  }

  lemma WorkerTasks(c: Config, s: State, w: nat, step: WorkerStep)
    requires Schedule.Valid(c.schedule) && WorkerEnabled(c, s, w, step)
    ensures var t := AfterWork(c, s, w, step);
      t.tasks.Keys <= s.tasks.Keys && t.nextTask == s.nextTask && t.workers - {w} == s.workers - {w}
  {
    match step
    case Claim(ids) =>
    case Remove(outcome) =>
    case Complete(done) =>
    case Retry(done) =>
    case WorkerDies =>
  }

  lemma NextTasks(c: Config, s: State, w: nat, step: Step)
    requires Schedule.Valid(c.schedule) && Enabled(c, s, step)
    ensures var t := Next(c, s, step);
      && OnlyNewRows(s, t)
      && (w in s.workers && !(step.OfWorker? && step.w == w) ==> w in t.workers && t.workers[w] == s.workers[w])
  {
    match step
    case OfUpload(u, up) => UploadRows(c, s, u, up);
    case OfDeletion(d, del) => DeletionTasks(s, d, del);
    case OfWorker(v, work) =>
      WorkerTasks(c, s, v, work);
      assert w in s.workers && v != w ==> w in s.workers - {v};
    case Tick(_) =>
  }

  lemma CompleteOnBatch(s: State, w: nat, ids: seq<nat>)
    requires Midway(s, w, ids)
    ensures OnBatch(AfterComplete(s, w, true), w, ids)
  {
    var t, worker := AfterComplete(s, w, true), s.workers[w];
    assert t.tasks == s.tasks - {ids[worker.at]};
    forall i | 0 <= i < worker.at + 1 ensures Gone(t, ids[i]) { assert i < worker.at ==> Gone(s, ids[i]); }
    if worker.at + 1 < |ids| {
      assert t.workers[w] == worker.(at := worker.at + 1, since := s.now, pc := Removing);
    }
  }

  lemma StepOnBatch(c: Config, s: State, w: nat, ids: seq<nat>, work: WorkerStep)
    requires Schedule.Valid(c.schedule) && WorkerEnabled(c, s, w, work) && Calm(w, OfWorker(w, work))
    requires Midway(s, w, ids)
    ensures OnBatch(AfterWork(c, s, w, work), w, ids)
  {
    match work
    case Claim(_) =>
    case Remove(outcome) => assert Midway(AfterRemove(s, w, outcome), w, ids);
    case Complete(_) => CompleteOnBatch(s, w, ids);
    case Retry(_) =>
    case WorkerDies =>
  }

  lemma NextOnBatch(c: Config, s: State, w: nat, ids: seq<nat>, step: Step)
    requires Schedule.Valid(c.schedule) && Enabled(c, s, step) && Calm(w, step) && OnBatch(s, w, ids)
    ensures OnBatch(Next(c, s, step), w, ids)
  {
    var t := Next(c, s, step);
    NextTasks(c, s, w, step);
    if Midway(s, w, ids) && step.OfWorker? && step.w == w {
      StepOnBatch(c, s, w, ids, step.work);
    } else if Midway(s, w, ids) {
      forall i | 0 <= i < s.workers[w].at ensures Gone(t, ids[i]) { assert Gone(s, ids[i]); }
      assert Midway(t, w, ids);
    } else {
      forall i | 0 <= i < |ids| ensures Gone(t, ids[i]) { assert Gone(s, ids[i]); }
    }
  }

  lemma ClaimOnBatch(c: Config, s: State, w: nat, ids: seq<nat>)
    requires Schedule.Valid(c.schedule) && MayClaim(c, s, ids) && Inv(s)
    ensures OnBatch(AfterClaim(c, s, w, ids), w, ids)
  {
    forall i | 0 <= i < |ids| ensures ids[i] < s.nextTask {
      assert Due(s, ids[i]) && TaskOk(s.roles, s.queued, ids[i], s.tasks[ids[i]].key);
    }
    assert Midway(AfterClaim(c, s, w, ids), w, ids);
  }

  lemma {:induction false} RunOnBatch(c: Config, s: State, w: nat, ids: seq<nat>, steps: seq<Step>)
    requires Schedule.Valid(c.schedule) && Run(c, s, steps).Some? && AllCalm(w, steps) && OnBatch(s, w, ids)
    ensures OnBatch(Run(c, s, steps).value, w, ids)
  {
    if steps != [] {
      var most := steps[..|steps| - 1];
      RunOnBatch(c, s, w, ids, most);
      NextOnBatch(c, Run(c, s, most).value, w, ids, steps[|steps| - 1]);
    }
  }

  /** Rows that a run has added have ids from `from.nextTask` on. */
  predicate NewIdsOnly(from: State, t: State) {
    from.nextTask <= t.nextTask && forall id :: id in t.tasks ==> id in from.tasks || from.nextTask <= id
  }

  lemma {:induction false} RunNewIds(c: Config, s: State, steps: seq<Step>)
    requires Schedule.Valid(c.schedule) && Run(c, s, steps).Some?
    ensures NewIdsOnly(s, Run(c, s, steps).value)
  {
    if steps != [] {
      var most := steps[..|steps| - 1];
      RunNewIds(c, s, most);
      NextTasks(c, Run(c, s, most).value, 0, steps[|steps| - 1]);
    }
  }

  // ------------------------------------------------------------------- rounds

  function Min(a: nat, b: nat): nat { if a <= b then a else b }

  /** `ORDER BY next_attempt_at, id`. */
  predicate Before(tasks: map<nat, Task>, x: nat, y: nat)
    requires x in tasks && y in tasks
  {
    tasks[x].nextAt < tasks[y].nextAt || (tasks[x].nextAt == tasks[y].nextAt && x < y)
  }

  /** What the claiming statement picks, in any order: due rows, the oldest first, up to
      the limit. */
  ghost predicate Picked(tasks: map<nat, Task>, now: int, limit: nat, ids: seq<nat>) {
    && Distinct(ids) && |ids| <= limit
    && (forall i :: 0 <= i < |ids| ==> ids[i] in tasks && tasks[ids[i]].nextAt <= now)
    && (forall y :: y in tasks && tasks[y].nextAt <= now && y !in ids ==>
          |ids| == limit && forall i :: 0 <= i < |ids| ==> Before(tasks, ids[i], y))
  }

  function BatchSize(c: Config): int { c.schedule.batchSize as int }

  /** Nothing is claimed where nothing is due. */
  function RoundStart(c: Config, s: State, w: nat, ids: seq<nat>): State
    requires Schedule.Valid(c.schedule) && (ids == [] || MayClaim(c, s, ids))
  {
    if ids == [] then s else AfterClaim(c, s, w, ids)
  }

  datatype Round = Round(ids: seq<nat>, steps: seq<Step>)

  /** Every lease and every delay has run out. */
  ghost predicate AllDue(s: State) { forall id :: id in s.tasks ==> Due(s, id) }

  /** `w` claims what it may, and at the end it is idle again. Anything else may go on
      meanwhile. */
  ghost predicate Batched(c: Config, s: State, w: nat, round: Round, t: State)
    requires Schedule.Valid(c.schedule)
  {
    && w !in s.workers && Picked(s.tasks, s.now, BatchSize(c), round.ids)
    && (round.ids == [] || MayClaim(c, s, round.ids))
    && AllCalm(w, round.steps) && Run(c, RoundStart(c, s, w, round.ids), round.steps) == Some(t)
    && w !in t.workers
  }

  ghost predicate IsRound(c: Config, s: State, w: nat, round: Round, t: State)
    requires Schedule.Valid(c.schedule)
  {
    AllDue(s) && Batched(c, s, w, round, t)
  }

  function Ids(ids: seq<nat>): set<nat> { set i | 0 <= i < |ids| :: ids[i] }

  lemma {:induction false} DistinctIds(ids: seq<nat>)
    requires Distinct(ids)
    ensures |Ids(ids)| == |ids|
  {
    if ids != [] {
      var most := ids[..|ids| - 1];
      DistinctIds(most);
      assert Ids(ids) == Ids(most) + {ids[|ids| - 1]};
    }
  }

  lemma {:induction false} SubsetSize(a: set<nat>, b: set<nat>)
    requires a <= b
    ensures |a| <= |b|
  {
    if a != {} {
      var x :| x in a;
      SubsetSize(a - {x}, b - {x});
    }
  }

  /** The pending tasks with ids below `n`. */
  function Old(s: State, n: nat): set<nat> { set id | id in s.tasks && id < n }

  /** All that a round claims is gone at its end, also when other workers fail or die
      and documents are deleted meanwhile. */
  lemma RoundGone(c: Config, s: State, w: nat, round: Round, t: State)
    requires Schedule.Valid(c.schedule) && Inv(s) && Batched(c, s, w, round, t)
    ensures forall i :: 0 <= i < |round.ids| ==> Gone(t, round.ids[i])
    ensures NewIdsOnly(s, t) && Inv(t)
  {
    var u := RoundStart(c, s, w, round.ids);
    if round.ids != [] {
      ClaimKeeps(c, s, w, round.ids);
      ClaimOnBatch(c, s, w, round.ids);
      RunOnBatch(c, u, w, round.ids, round.steps);
    }
    RunNewIds(c, u, round.steps);
    RunKeeps(c, u, round.steps);
  }

  /** What is left of a set of old tasks that contains the claimed ones. */
  lemma OldLeft(s: State, t: State, n: nat, ids: seq<nat>)
    requires n <= s.nextTask && NewIdsOnly(s, t) && Distinct(ids)
    requires forall i :: 0 <= i < |ids| ==> ids[i] in Old(s, n) && Gone(t, ids[i])
    ensures |Old(t, n)| <= |Old(s, n)| - |ids|
  {
    DistinctIds(ids);
    assert Ids(ids) <= Old(s, n);
    assert Old(t, n) <= Old(s, n) - Ids(ids);
    SubsetSize(Old(t, n), Old(s, n) - Ids(ids));
    assert |Old(s, n) - Ids(ids)| == |Old(s, n)| - |Ids(ids)|;
  }

  lemma PickedCount(tasks: map<nat, Task>, now: int, limit: nat, ids: seq<nat>)
    requires Picked(tasks, now, limit, ids) && forall id :: id in tasks ==> tasks[id].nextAt <= now
    ensures |ids| == Min(limit, |tasks|)
  {
    DistinctIds(ids);
    assert Ids(ids) <= tasks.Keys;
    SubsetSize(Ids(ids), tasks.Keys);
    if |ids| < limit {
      assert forall y :: y in tasks.Keys ==> y in Ids(ids);
      assert Ids(ids) == tasks.Keys;
    }
  }

  /** Of the tasks pending at its start, a round removes as many as the worker may claim. */
  lemma RoundRemoves(c: Config, s: State, w: nat, round: Round, t: State)
    requires Schedule.Valid(c.schedule) && Inv(s) && IsRound(c, s, w, round, t)
    ensures |Old(t, s.nextTask)| <= |s.tasks| - Min(BatchSize(c), |s.tasks|)
  {
    RoundGone(c, s, w, round, t);
    AllOld(s);
    forall i | 0 <= i < |round.ids| ensures round.ids[i] in Old(s, s.nextTask) { assert round.ids[i] in s.tasks; }
    forall id | id in s.tasks ensures s.tasks[id].nextAt <= s.now { assert Due(s, id); }
    PickedCount(s.tasks, s.now, BatchSize(c), round.ids);
    OldLeft(s, t, s.nextTask, round.ids);
  }

  // ------------------------------------------------- rounds without deletions

  /** States between batches, with `w` idle. */
  ghost predicate Batches(c: Config, states: seq<State>, w: nat, rounds: seq<Round>)
    requires Schedule.Valid(c.schedule)
  {
    |states| == |rounds| + 1 && forall k :: 0 <= k < |rounds| ==> Batched(c, states[k], w, rounds[k], states[k + 1])
  }

  /** States between rounds. */
  ghost predicate Rounds(c: Config, states: seq<State>, w: nat, rounds: seq<Round>)
    requires Schedule.Valid(c.schedule)
  {
    |states| == |rounds| + 1 && forall k :: 0 <= k < |rounds| ==> IsRound(c, states[k], w, rounds[k], states[k + 1])
  }

  lemma {:induction false} RoundsKeep(c: Config, states: seq<State>, w: nat, rounds: seq<Round>)
    requires Schedule.Valid(c.schedule) && Batches(c, states, w, rounds) && Inv(states[0])
    ensures Inv(states[|rounds|]) && states[0].nextTask <= states[|rounds|].nextTask
    ensures Since(states[0], states[|rounds|])
  {
    if rounds != [] {
      var n := |rounds| - 1;
      var s, t := states[n], states[n + 1];
      RoundsKeep(c, states[..n + 1], w, rounds[..n]);
      assert states[..n + 1][|rounds[..n]|] == s && Batched(c, s, w, rounds[n], t);
      RoundGone(c, s, w, rounds[n], t);
      RoundSince(c, s, w, rounds[n], t);
      forall key ensures Stays(states[0], t, key) { assert Stays(states[0], s, key) && Stays(s, t, key); }
    } else {
      forall key ensures Stays(states[0], states[0], key) { }
    }
  }

  lemma RoundSince(c: Config, s: State, w: nat, round: Round, t: State)
    requires Schedule.Valid(c.schedule) && Inv(s) && Batched(c, s, w, round, t)
    ensures Since(s, t)
  {
    var u := RoundStart(c, s, w, round.ids);
    if round.ids == [] {
      RunSince(c, s, round.steps);
    } else {
      ClaimKeeps(c, s, w, round.ids);
      RunSince(c, u, round.steps);
      forall key ensures Stays(s, t, key) { assert Stays(u, t, key); }
    }
  }

  lemma AllOld(s: State)
    requires Inv(s)
    ensures Old(s, s.nextTask) == s.tasks.Keys
  {
    forall id ensures id in s.tasks <==> id in Old(s, s.nextTask) {
      if id in s.tasks { assert TaskOk(s.roles, s.queued, id, s.tasks[id].key); }
    }
  }

  lemma QuietRoundRemoves(c: Config, s: State, w: nat, round: Round, t: State)
    requires Schedule.Valid(c.schedule) && Inv(s) && IsRound(c, s, w, round, t) && t.nextTask == s.nextTask
    ensures Inv(t) && |t.tasks| <= |s.tasks| - Min(BatchSize(c), |s.tasks|)
  {
    RoundRemoves(c, s, w, round, t);
    RoundGone(c, s, w, round, t);
    AllOld(t);
  }

  lemma OneMore(n: nat, size: nat)
    ensures (n + 1) * size == n * size + size
  {
  }

  /** If no document is deleted, the table runs empty, whatever fails or dies around the
      one worker. */
  lemma {:induction false} QuietRoundsRemove(c: Config, states: seq<State>, w: nat, rounds: seq<Round>)
    requires Schedule.Valid(c.schedule) && Rounds(c, states, w, rounds) && Inv(states[0])
    requires forall k :: 0 <= k <= |rounds| ==> states[k].nextTask == states[0].nextTask
    ensures Inv(states[|rounds|])
    ensures var left := |states[|rounds|].tasks|; left == 0 || left <= |states[0].tasks| - |rounds| * BatchSize(c)
  {
    if rounds != [] {
      var n := |rounds| - 1;
      QuietRoundsRemove(c, states[..n + 1], w, rounds[..n]);
      assert states[..n + 1][|rounds[..n]|] == states[n];
      QuietRoundRemoves(c, states[n], w, rounds[n], states[n + 1]);
      OneMore(n, BatchSize(c));
    }
  }

  lemma QuietCleanupConverges(c: Config, states: seq<State>, w: nat, rounds: seq<Round>)
    requires Schedule.Valid(c.schedule) && Rounds(c, states, w, rounds) && Reachable(c, states[0])
    requires forall k :: 0 <= k <= |rounds| ==> states[k].nextTask == states[0].nextTask
    requires |states[0].tasks| <= |rounds| * BatchSize(c)
    ensures var t := states[|rounds|];
      t.tasks == map[] && forall key :: key in t.blobs ==>
        BelongsToFile(t, key) || BelongsToUpload(t, key) || HasRole(t.roles, key, Abandoned)
  {
    var t := states[|rounds|];
    ReachableKeeps(c, states[0]);
    QuietRoundsRemove(c, states, w, rounds);
    assert forall k :: 0 <= k < |rounds| ==> Batched(c, states[k], w, rounds[k], states[k + 1]);
    RoundsKeep(c, states, w, rounds);
    assert t.tasks == map[] by { assert |t.tasks.Keys| == 0; }
    forall key | key in t.blobs ensures BelongsToFile(t, key) || BelongsToUpload(t, key)
        || HasRole(t.roles, key, Abandoned) {
      assert Placed(t, key);
    }
  }
}
