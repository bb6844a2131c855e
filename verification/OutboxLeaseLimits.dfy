/** Leases exclude exactly where they last: with a lease that is cut off before the last
    task of a batch can end, a timely run brings two workers to one task. */
module OutboxLeaseLimits {
  import opened Common
  import opened Outbox
  import opened OutboxLeases
  import Schedule = CleanupSchedule

  lemma TimelyStep(c: Config, s: State, step: Step)
    requires Schedule.Valid(c.schedule) && TimelyReachable(c, s) && Enabled(c, s, step) && Timely(c, Next(c, s, step))
    ensures TimelyReachable(c, Next(c, s, step))
  {
    var now, steps :| TimelyRun(c, Init(now), steps) && Run(c, Init(now), steps) == Some(s);
    var more := steps + [step];
    assert more[..|more| - 1] == steps;
    assert TimelyRun(c, Init(now), more) && Run(c, Init(now), more) == Some(Next(c, s, step));
  }

  lemma TimelyInit(c: Config)
    requires Schedule.Valid(c.schedule)
    ensures TimelyReachable(c, Init(0))
  {
    assert Run(c, Init(0), []) == Some(Init(0)) && TimelyRun(c, Init(0), []);
  }

  // --------------------------------------------------------- many due tasks

  function FreshKey(n: nat): string { seq(n + 1, _ => 'k') }

  /** At time 0, tasks 0 to n - 1 are due, and nothing else is going on. */
  ghost predicate Filled(s: State, n: nat) {
    && s.now == 0 && s.nextTask == n && s.files == map[] && s.uploads == map[] && s.deletions == map[]
    && s.workers == map[]
    && (forall id: nat :: id in s.tasks <==> id < n)
    && (forall id: nat :: id in s.tasks ==> s.tasks[id].nextAt == 0 && |s.tasks[id].key| <= n)
    && (forall key :: key in s.roles ==> |key| <= n)
  }

  /** As `Filled`, but with one document more. */
  ghost predicate Uploaded(s: State, n: nat) {
    && s.now == 0 && s.nextTask == n && s.uploads == map[] && s.deletions == map[] && s.workers == map[]
    && s.files == map["id" := File("owner", FreshKey(n), 0)]
    && (forall id: nat :: id in s.tasks <==> id < n)
    && (forall id: nat :: id in s.tasks ==> s.tasks[id].nextAt == 0 && |s.tasks[id].key| <= n)
    && (forall key :: key in s.roles ==> |key| <= n + 1)
  }

  lemma CreateOne(c: Config, s: State, n: nat) returns (t: State)
    requires Schedule.Valid(c.schedule) && TimelyReachable(c, s) && s.workers == map[]
    requires s.uploads == map[0 := Upload("owner", FreshKey(n), 0, Stored)]
    requires Filled(s.(uploads := map[], roles := map[]), n)
    requires forall key :: key in s.roles ==> |key| <= n + 1
    ensures TimelyReachable(c, t) && Uploaded(t, n)
  {
    var create := OfUpload(0, Create("id", true));
    assert UploadEnabled(c, s, 0, create.up);
    t := AfterCreate(s, 0, "id", true);
    assert t.workers == map[] && t.uploads == map[] && t.files == map["id" := File("owner", FreshKey(n), 0)];
    TimelyStep(c, s, create);
  }

  lemma UploadOne(c: Config, s: State, n: nat) returns (t: State)
    requires Schedule.Valid(c.schedule) && TimelyReachable(c, s) && Filled(s, n)
    ensures TimelyReachable(c, t) && Uploaded(t, n)
  {
    var key := FreshKey(n);
    var put := OfUpload(0, Put(key, "owner", [], true));
    assert |key| == n + 1 && UploadEnabled(c, s, 0, put.up);
    t := AfterPut(s, 0, key, "owner", [], true);
    assert t.workers == map[] && t.uploads == map[0 := Upload("owner", key, 0, Stored)];
    TimelyStep(c, s, put);
    t := CreateOne(c, t, n);
  }

  lemma DeleteOneLeaves(s: State, n: nat)
    requires Uploaded(s, n)
    ensures var t := AfterDelete(s, 0, "id");
      && t == s.(tasks := s.tasks[n := Task(FreshKey(n), 0, 0)], files := map[], nextTask := n + 1,
                 deletions := map[0 := Deletion(FreshKey(n), Erasing)], roles := t.roles, queued := t.queued)
      && t.roles.Keys <= s.roles.Keys + {FreshKey(n)} && |FreshKey(n)| == n + 1
  {
    assert forall id: nat :: id in s.tasks ==> s.tasks[id].key != FreshKey(n);
    assert Enqueued(s, FreshKey(n)) == s.tasks[n := Task(FreshKey(n), 0, 0)];
  }

  lemma DeleteOne(c: Config, s: State, n: nat) returns (t: State)
    requires Schedule.Valid(c.schedule) && TimelyReachable(c, s) && Uploaded(s, n)
    ensures TimelyReachable(c, t) && t.deletions == map[0 := Deletion(FreshKey(n), Erasing)]
    ensures Filled(t.(deletions := map[]), n + 1)
  {
    var delete := OfDeletion(0, Delete("id", "owner"));
    assert DeletionEnabled(s, 0, delete.del);
    t := AfterDelete(s, 0, "id");
    DeleteOneLeaves(s, n);
    TimelyStep(c, s, delete);
  }

  /** Upload one more document, and delete it again. */
  lemma FillOne(c: Config, s: State, n: nat) returns (t: State)
    requires Schedule.Valid(c.schedule) && TimelyReachable(c, s) && Filled(s, n)
    ensures TimelyReachable(c, t) && Filled(t, n + 1)
  {
    var b := UploadOne(c, s, n);
    var d := DeleteOne(c, b, n);
    var leave := OfDeletion(0, DeletionDies);
    assert DeletionEnabled(d, 0, leave.del);
    t := d.(deletions := d.deletions - {0});
    assert t == d.(deletions := map[]);
    TimelyStep(c, d, leave);
  }

  lemma {:induction false} Fill(c: Config, n: nat) returns (s: State)
    requires Schedule.Valid(c.schedule)
    ensures TimelyReachable(c, s) && Filled(s, n)
  {
    if n == 0 {
      TimelyInit(c);
      s := Init(0);
    } else {
      s := Fill(c, n - 1);
      s := FillOne(c, s, n - 1);
    }
  }

  // ----------------------------------------------------------- a slow batch

  function Upto(n: nat): seq<nat> { seq(n, i requires 0 <= i < n => i) }

  /** Worker 0 has the tasks 0 to n - 1, is at task `at`, and took the longest time that
      is timely for each before; no row has changed since the claim. */
  ghost predicate Slow(c: Config, s: State, n: nat, at: nat)
    requires Schedule.Valid(c.schedule)
  {
    && s.workers.Keys == {0} && at < n && |s.workers[0].batch| == n && s.workers[0].at == at
    && s.workers[0].pc.Removing?
    && s.now == s.workers[0].since == at * (Timeout(c) - 1)
    && (forall i :: 0 <= i < n ==> s.workers[0].batch[i].id == i)
    && (forall id: nat :: id in s.tasks <==> id < n)
    && (forall id: nat :: id in s.tasks ==> s.tasks[id].nextAt == Schedule.Lease(c.schedule))
  }

  lemma ClaimAll(c: Config, s: State, n: nat) returns (t: State)
    requires Schedule.Valid(c.schedule) && TimelyReachable(c, s) && Filled(s, n) && n == c.schedule.batchSize as int
    ensures TimelyReachable(c, t) && Slow(c, t, n, 0)
  {
    var ids := Upto(n);
    assert forall i :: 0 <= i < n ==> Due(s, ids[i]);
    assert MayClaim(c, s, ids);
    t := AfterClaim(c, s, 0, ids);
    assert t.workers == map[0 := t.workers[0]];
    TimelyStep(c, s, OfWorker(0, Claim(ids)));
    forall id | id in t.tasks ensures t.tasks[id].nextAt == Schedule.Lease(c.schedule) { assert ids[id] == id; }
  }

  lemma FailsToRemove(c: Config, s: State) returns (t: State)
    requires Schedule.Valid(c.schedule) && TimelyReachable(c, s) && Busy(s, 0) && s.workers[0].pc.Removing?
    requires Timely(c, s)
    ensures TimelyReachable(c, t) && t == s.(workers := s.workers[0 := s.workers[0].(pc := Retrying)])
  {
    var remove := OfWorker(0, Remove(FailedBefore));
    assert WorkerEnabled(c, s, 0, remove.work);
    t := AfterRemove(s, 0, FailedBefore);
    assert t == s.(workers := s.workers[0 := s.workers[0].(pc := Retrying)]);
    TimelyStep(c, s, remove);
  }

  lemma FailsToRetry(c: Config, s: State) returns (t: State)
    requires Schedule.Valid(c.schedule) && TimelyReachable(c, s) && Busy(s, 0) && s.workers[0].pc.Retrying?
    requires s.workers.Keys == {0}
    requires s.workers[0].at + 1 < |s.workers[0].batch|
    ensures TimelyReachable(c, t)
    ensures t == s.(workers := map[0 := s.workers[0].(at := s.workers[0].at + 1, since := s.now, pc := Removing)])
  {
    var retry := OfWorker(0, Retry(false));
    assert WorkerEnabled(c, s, 0, retry.work);
    t := Advance(s, 0);
    assert t.workers == map[0 := s.workers[0].(at := s.workers[0].at + 1, since := s.now, pc := Removing)];
    assert s.(tasks := s.tasks) == s;
    TimelyStep(c, s, retry);
  }

  /** The time passes, the removal fails, and so does the rescheduling. */
  lemma SlowTask(c: Config, s: State, n: nat, at: nat) returns (t: State)
    requires Schedule.Valid(c.schedule) && TimelyReachable(c, s) && Slow(c, s, n, at) && at + 1 < n
    ensures TimelyReachable(c, t) && Slow(c, t, n, at + 1)
  {
    var a := SlowTick(c, s, n, at);
    var b := FailsToRemove(c, a);
    t := FailsToRetry(c, b);
    assert (at + 1) * (Timeout(c) - 1) == at * (Timeout(c) - 1) + (Timeout(c) - 1);
  }

  lemma SlowTick(c: Config, s: State, n: nat, at: nat) returns (t: State)
    requires Schedule.Valid(c.schedule) && TimelyReachable(c, s) && Slow(c, s, n, at)
    ensures TimelyReachable(c, t) && t == s.(now := s.now + (Timeout(c) - 1))
  {
    TimelyStep(c, s, Tick(Timeout(c) - 1));
    t := s.(now := s.now + (Timeout(c) - 1));
  }

  lemma {:induction false} SlowTasks(c: Config, s: State, n: nat, at: nat) returns (t: State)
    requires Schedule.Valid(c.schedule) && TimelyReachable(c, s) && Slow(c, s, n, 0) && at < n
    ensures TimelyReachable(c, t) && Slow(c, t, n, at)
  {
    if at == 0 {
      t := s;
    } else {
      t := SlowTasks(c, s, n, at - 1);
      t := SlowTask(c, t, n, at - 1);
    }
  }

  predicate Collide(s: State, w: nat, v: nat) {
    Busy(s, w) && Busy(s, v) && w != v && Current(s, w).id == Current(s, v).id
  }

  /** The lease is over, so another worker claims the task that the first is at. */
  lemma ClaimLast(c: Config, s: State, n: nat) returns (t: State)
    requires Schedule.Valid(c.schedule) && TimelyReachable(c, s) && n > 0 && Busy(s, 0) && s.workers.Keys == {0}
    requires Timely(c, s)
    requires Current(s, 0).id == n - 1 && Due(s, n - 1)
    ensures TimelyReachable(c, t) && Collide(t, 0, 1)
  {
    var ids: seq<nat> := [n - 1];
    assert MayClaim(c, s, ids);
    t := AfterClaim(c, s, 1, ids);
    assert t.workers == s.workers[1 := t.workers[1]] && t.workers[1].since == s.now;
    TimelyStep(c, s, OfWorker(1, Claim(ids)));
  }

  lemma LastTaskDue(c: Config, s: State, n: nat)
    requires Schedule.Valid(c.schedule) && !Schedule.LeaseLasts(c.schedule) && n == c.schedule.batchSize as int
    requires Slow(c, s, n, n - 1)
    ensures var t := s.(now := s.now + (Timeout(c) - 1));
      Busy(t, 0) && t.workers.Keys == {0} && Current(t, 0).id == n - 1 && Due(t, n - 1) && Timely(c, t)
  {
    assert n * (Timeout(c) - 1) == (n - 1) * (Timeout(c) - 1) + (Timeout(c) - 1);
  }

  lemma CutLeaseCollides(c: Config)
    requires Schedule.Valid(c.schedule) && !Schedule.LeaseLasts(c.schedule)
    ensures exists s, w, v :: TimelyReachable(c, s) && Collide(s, w, v)
  {
    var n: nat := c.schedule.batchSize as int;
    var s := Fill(c, n);
    s := ClaimAll(c, s, n);
    s := SlowTasks(c, s, n, n - 1);
    LastTaskDue(c, s, n);
    s := SlowTick(c, s, n, n - 1);
    s := ClaimLast(c, s, n);
  }

  /** Timely workers are never at one task if and only if a batch whose tasks all take less
      than the timeout ends before its lease. */
  lemma LeasesExcludeIff(c: Config)
    requires Schedule.Valid(c.schedule)
    ensures (forall s, w, v :: TimelyReachable(c, s) ==> !Collide(s, w, v)) <==> Schedule.LeaseLasts(c.schedule)
  {
    if Schedule.LeaseLasts(c.schedule) {
      forall s, w, v | TimelyReachable(c, s) ensures !Collide(s, w, v) { LeasesExclude(c, s, w, v); }
    } else {
      CutLeaseCollides(c);
    }
  }
}
