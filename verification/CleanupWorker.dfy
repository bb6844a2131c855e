/** internal/document/cleanup_worker.go as it runs: a batch is claimed, then every
    task's blob is removed and its row completed or rescheduled. Each batch is a run
    of the blob protocol (Outbox), so all that holds of runs holds of batches. */
module CleanupWorker {
  import opened Common
  import opened Outbox
  import opened OutboxConverges
  import opened OutboxQueue
  import Schedule = CleanupSchedule

  /** How the calls for one task turn out: the blob store, the row's update, whether
      the worker has been told to stop, and how long it all takes. */
  datatype Removal = Works | FailsBefore | FailsAfter
  datatype Fault = Fault(removal: Removal, recorded: bool, cancelled: bool, took: nat)

  predicate Faultless(f: Fault) { f.removal.Works? && f.recorded }

  /** The row could not be updated, or the worker is told to stop before it would. */
  predicate Fails(f: Fault) { !f.recorded || (!f.removal.Works? && f.cancelled) }

  predicate SomeFails(faults: seq<Fault>) { exists f :: f in faults && Fails(f) }

  /** The tasks that are taken up: the worker stops after a failure if it has been told to. */
  function TakenUp(faults: seq<Fault>): seq<Fault> {
    if faults == [] then []
    else if Fails(faults[0]) && faults[0].cancelled then [faults[0]]
    else [faults[0]] + TakenUp(faults[1..])
  }

  function TimeOf(faults: seq<Fault>): nat {
    if faults == [] then 0 else faults[0].took + TimeOf(faults[1..])
  }

  /** How a batch of `n` stands before task `i`: whether it has failed, and the clock. */
  predicate Standing(faults: seq<Fault>, n: nat, start: int, i: nat, failed: bool, now: int)
    requires i <= n <= |faults|
  {
    && (failed <==> SomeFails(faults[..i]))
    && now + TimeOf(TakenUp(faults[i..n])) == start + TimeOf(TakenUp(faults[..n]))
  }

  /** How it ends. */
  predicate Ended(faults: seq<Fault>, n: nat, start: int, failed: bool, now: int)
    requires n <= |faults|
  {
    (failed <==> SomeFails(faults[..n])) && now == start + TimeOf(TakenUp(faults[..n]))
  }

  lemma StandsFirst(faults: seq<Fault>, n: nat, start: int)
    requires n <= |faults|
    ensures Standing(faults, n, start, 0, false, start)
  {
    assert faults[..0] == [] && faults[0..n] == faults[..n];
  }

  lemma StandsNext(faults: seq<Fault>, n: nat, start: int, i: nat, failed: bool, now: int)
    requires i < n <= |faults| && Standing(faults, n, start, i, failed, now)
    ensures if Fails(faults[i]) && faults[i].cancelled then Ended(faults, n, start, true, now + faults[i].took)
            else Standing(faults, n, start, i + 1, failed || Fails(faults[i]), now + faults[i].took)
  {
    assert faults[..i + 1] == faults[..i] + [faults[i]] && faults[i] in faults[..n];
    assert faults[i..n][0] == faults[i] && faults[i..n][1..] == faults[i + 1..n];
    var rest := TakenUp(faults[i + 1..n]);
    assert [faults[i]][1..] == [] && ([faults[i]] + rest)[1..] == rest;
    assert TimeOf([faults[i]]) == faults[i].took;
  }

  lemma StandsLast(faults: seq<Fault>, n: nat, start: int, failed: bool, now: int)
    requires n <= |faults| && Standing(faults, n, start, n, failed, now)
    ensures Ended(faults, n, start, failed, now)
  {
    assert faults[n..n] == [];
  }

  function OutcomeOf(blobs: map<string, Blob>, key: string, removal: Removal): Outcome {
    match removal
    case FailsBefore => FailedBefore
    case FailsAfter => FailedAfter
    case Works => if key in blobs then Removed else Missing
  }

  class BlobStore {
    var blobs: map<string, Blob>

    method Put(key: string, data: Blob, works: bool) returns (stored: bool)
      modifies this
      ensures stored == (works && key !in old(blobs)) && blobs == if stored then old(blobs)[key := data] else old(blobs)
    {
      stored := works && key !in blobs;
      if stored { blobs := blobs[key := data]; }
    }

    method Delete(key: string, removal: Removal) returns (outcome: Outcome)
      modifies this
      ensures outcome == OutcomeOf(old(blobs), key, removal) && blobs == AfterRemoval(old(blobs), key, outcome)
    {
      match removal
      case FailsBefore => outcome := FailedBefore;
      case FailsAfter =>
        blobs := blobs - {key};
        outcome := FailedAfter;
      case Works =>
        outcome := if key in blobs then Removed else Missing;
        blobs := blobs - {key};
    }
  }

  class TaskTable {
    var rows: map<nat, Task>

    /** The oldest of some rows. */
    method Oldest(candidates: set<nat>) returns (oldest: nat)
      requires candidates != {} && forall id :: id in candidates ==> id in rows
      ensures oldest in candidates && forall y :: y in candidates && y != oldest ==> Before(rows, oldest, y)
    {
      oldest :| oldest in candidates;
      var left := candidates - {oldest};
      while left != {}
        invariant left <= candidates && oldest in candidates && oldest !in left
        invariant forall y :: y in candidates && y !in left && y != oldest ==> Before(rows, oldest, y)
        decreases left
      {
        var y :| y in left;
        left := left - {y};
        if rows[y].nextAt < rows[oldest].nextAt || (rows[y].nextAt == rows[oldest].nextAt && y < oldest) {
          oldest := y;
        }
      }
    }

    /** The oldest due rows, up to the limit. */
    method Pick(limit: nat, now: int) returns (ids: seq<nat>)
      ensures Picked(rows, now, limit, ids)
    {
      ids := [];
      var due := set id | id in rows && rows[id].nextAt <= now;
      while |ids| < limit && due != {}
        invariant |ids| <= limit && Distinct(ids)
        invariant forall i :: 0 <= i < |ids| ==> ids[i] in rows && rows[ids[i]].nextAt <= now && ids[i] !in due
        invariant forall id :: id in due ==> id in rows && rows[id].nextAt <= now
        invariant forall id :: id in rows && rows[id].nextAt <= now ==> id in due || id in ids
        invariant forall i, y :: 0 <= i < |ids| && y in due ==> Before(rows, ids[i], y)
        decreases due
      {
        var oldest := Oldest(due);
        ids := ids + [oldest];
        due := due - {oldest};
      }
    }

    /** The picked rows are leased and counted. */
    method Lease(ids: seq<nat>, leaseUntil: int) returns (batch: seq<Claimed>)
      requires forall i :: 0 <= i < |ids| ==> ids[i] in rows
      modifies this
      ensures rows.Keys == old(rows).Keys && |batch| == |ids|
      ensures forall id :: id in rows ==>
        rows[id] == if id in ids then old(rows)[id].(attempts := old(rows)[id].attempts + 1, nextAt := leaseUntil)
          else old(rows)[id]
      ensures forall i :: 0 <= i < |ids| ==>
        batch[i] == Claimed(ids[i], old(rows)[ids[i]].key, old(rows)[ids[i]].attempts + 1)
    {
      batch := seq(|ids|, i requires 0 <= i < |ids| reads this requires ids[i] in rows =>
        Claimed(ids[i], rows[ids[i]].key, rows[ids[i]].attempts + 1));
      rows := map id | id in rows :: if id in ids then
        rows[id].(attempts := rows[id].attempts + 1, nextAt := leaseUntil) else rows[id];
    }

    /** The claiming statement: the oldest due rows up to the limit are leased and
        counted, the others stay. */
    method Claim(limit: nat, now: int, leaseUntil: int) returns (batch: seq<Claimed>, ghost ids: seq<nat>)
      modifies this
      ensures Picked(old(rows), now, limit, ids) && rows.Keys == old(rows).Keys && |batch| == |ids|
      ensures forall id :: id in rows ==>
        rows[id] == if id in ids then old(rows)[id].(attempts := old(rows)[id].attempts + 1, nextAt := leaseUntil)
          else old(rows)[id]
      ensures forall i :: 0 <= i < |ids| ==>
        batch[i] == Claimed(ids[i], old(rows)[ids[i]].key, old(rows)[ids[i]].attempts + 1)
    {
      var picked := Pick(limit, now);
      batch := Lease(picked, leaseUntil);
      ids := picked;
    }

    method Complete(id: nat, works: bool) returns (failed: bool)
      modifies this
      ensures failed == !works && rows == if works then old(rows) - {id} else old(rows)
    {
      if works { rows := rows - {id}; }
      failed := !works;
    }

    method CompleteByStorageKey(key: string)
      modifies this
      ensures rows == map id | id in old(rows) && old(rows)[id].key != key :: old(rows)[id]
    {
      rows := map id | id in rows && rows[id].key != key :: rows[id];
    }

    method Retry(id: nat, nextAt: int, works: bool) returns (failed: bool)
      modifies this
      ensures failed == !works && rows.Keys == old(rows).Keys
      ensures forall t :: t in rows ==>
        rows[t] == if works && t == id then Task(old(rows)[t].key, old(rows)[t].attempts, nextAt) else old(rows)[t]
    {
      if works && id in rows { rows := rows[id := rows[id].(nextAt := nextAt)]; }
      failed := !works;
    }
  }

  // ------------------------------------------------------- one task as a run

  predicate AtTask(s: State, w: nat) { Busy(s, w) && s.workers[w].pc.Removing? }

  /** The blob's removal, and the time that the task takes. */
  function AfterBlob(s: State, w: nat, fault: Fault): State
    requires AtTask(s, w)
  {
    AfterRemove(s, w, OutcomeOf(s.blobs, Current(s, w).key, fault.removal)).(now := s.now + fault.took)
  }

  function LastStep(w: nat, fault: Fault): Step {
    OfWorker(w, if fault.removal.Works? then Complete(fault.recorded) else if fault.cancelled then WorkerDies
      else Retry(fault.recorded))
  }

  function TaskSteps(s: State, w: nat, fault: Fault): seq<Step>
    requires AtTask(s, w)
  {
    [OfWorker(w, Remove(OutcomeOf(s.blobs, Current(s, w).key, fault.removal))), Tick(fault.took), LastStep(w, fault)]
  }

  function AfterTask(c: Config, s: State, w: nat, fault: Fault): State
    requires Schedule.Valid(c.schedule) && AtTask(s, w)
  {
    AfterWork(c, AfterBlob(s, w, fault), w, LastStep(w, fault).work)
  }

  lemma RunOne(c: Config, s: State, steps: seq<Step>, t: State, step: Step)
    requires Schedule.Valid(c.schedule) && Run(c, s, steps) == Some(t) && Enabled(c, t, step)
    ensures Run(c, s, steps + [step]) == Some(Next(c, t, step))
  {
    assert (steps + [step])[..|steps + [step]| - 1] == steps;
  }

  lemma BlobRuns(c: Config, first: State, done: seq<Step>, s: State, w: nat, fault: Fault)
    requires Schedule.Valid(c.schedule) && AtTask(s, w) && Run(c, first, done) == Some(s)
    ensures Run(c, first, done + TaskSteps(s, w, fault)[..2]) == Some(AfterBlob(s, w, fault))
  {
    var steps := TaskSteps(s, w, fault);
    RunOne(c, first, done, s, steps[0]);
    RunOne(c, first, done + [steps[0]], Next(c, s, steps[0]), steps[1]);
    assert done + [steps[0]] + [steps[1]] == done + steps[..2];
  }

  lemma LastEnabled(c: Config, s: State, w: nat, fault: Fault)
    requires AtTask(s, w)
    ensures WorkerEnabled(c, AfterBlob(s, w, fault), w, LastStep(w, fault).work)
  {
    if fault.removal.Works? { } else if fault.cancelled { } else { }
  }

  lemma TaskRuns(c: Config, first: State, done: seq<Step>, s: State, w: nat, fault: Fault)
    requires Schedule.Valid(c.schedule) && AtTask(s, w) && Run(c, first, done) == Some(s)
    ensures WorkerEnabled(c, AfterBlob(s, w, fault), w, LastStep(w, fault).work)
    ensures Run(c, first, done + TaskSteps(s, w, fault)) == Some(AfterTask(c, s, w, fault))
  {
    var steps := TaskSteps(s, w, fault);
    BlobRuns(c, first, done, s, w, fault);
    LastEnabled(c, s, w, fault);
    RunOne(c, first, done + steps[..2], AfterBlob(s, w, fault), steps[2]);
    assert done + steps[..2] + [steps[2]] == done + steps;
  }

  lemma AdvanceRows(s: State, w: nat)
    requires Busy(s, w)
    ensures var t := Advance(s, w); t.tasks == s.tasks && t.blobs == s.blobs && t.now == s.now
  {
  }

  /** What the task's removal leaves, and the rows after it, by how it ends. */
  predicate TaskLeft(s: State, t: State, w: nat, fault: Fault, rows: map<nat, Task>)
    requires AtTask(s, w)
  {
    && t.blobs == AfterRemoval(s.blobs, Current(s, w).key, OutcomeOf(s.blobs, Current(s, w).key, fault.removal))
    && t.now == s.now + fault.took && t.tasks == rows
  }

  lemma DoneRows(c: Config, s: State, w: nat, fault: Fault)
    requires Schedule.Valid(c.schedule) && AtTask(s, w) && fault.removal.Works?
    ensures TaskLeft(s, AfterTask(c, s, w, fault), w, fault,
      if fault.recorded then s.tasks - {Current(s, w).id} else s.tasks)
  {
    var a := AfterBlob(s, w, fault);
    AdvanceRows(a.(tasks := if fault.recorded then a.tasks - {Current(s, w).id} else a.tasks), w);
  }

  lemma RetriedRows(c: Config, s: State, w: nat, fault: Fault)
    requires Schedule.Valid(c.schedule) && AtTask(s, w) && !fault.removal.Works? && !fault.cancelled
    ensures TaskLeft(s, AfterTask(c, s, w, fault), w, fault,
      if fault.recorded then Rescheduled(s.tasks, Current(s, w).id,
        s.now + fault.took + Schedule.Backoff(c.schedule, Current(s, w).attempts)) else s.tasks)
  {
    var a, delay := AfterBlob(s, w, fault), Schedule.Backoff(c.schedule, Current(s, w).attempts);
    AdvanceRows(a.(tasks := if fault.recorded then Rescheduled(a.tasks, Current(s, w).id, a.now + delay)
      else a.tasks), w);
  }

  lemma StoppedRows(c: Config, s: State, w: nat, fault: Fault)
    requires Schedule.Valid(c.schedule) && AtTask(s, w) && !fault.removal.Works? && fault.cancelled
    ensures TaskLeft(s, AfterTask(c, s, w, fault), w, fault, s.tasks)
  {
  }

  function RowsAfter(c: Config, s: State, w: nat, fault: Fault): map<nat, Task>
    requires Schedule.Valid(c.schedule) && AtTask(s, w)
  {
    if Fails(fault) then s.tasks
    else if fault.removal.Works? then s.tasks - {Current(s, w).id}
    else Rescheduled(s.tasks, Current(s, w).id,
      s.now + fault.took + Schedule.Backoff(c.schedule, Current(s, w).attempts))
  }

  /** What one task leaves in the tables and on the clock. */
  lemma TaskRows(c: Config, s: State, w: nat, fault: Fault)
    requires Schedule.Valid(c.schedule) && AtTask(s, w)
    ensures TaskLeft(s, AfterTask(c, s, w, fault), w, fault, RowsAfter(c, s, w, fault))
  {
    if fault.removal.Works? { DoneRows(c, s, w, fault); }
    else if fault.cancelled { StoppedRows(c, s, w, fault); }
    else { RetriedRows(c, s, w, fault); }
  }

  /** Where the worker is after `at` tasks of its batch. */
  predicate Reached(s: State, w: nat, batch: seq<Claimed>, at: nat) {
    if at < |batch| then AtTask(s, w) && s.workers[w].batch == batch && s.workers[w].at == at else w !in s.workers
  }

  lemma TaskReached(c: Config, s: State, w: nat, fault: Fault, batch: seq<Claimed>, at: nat)
    requires Schedule.Valid(c.schedule) && at < |batch| && Reached(s, w, batch, at)
    ensures var t := AfterTask(c, s, w, fault);
      if fault.removal.Works? || !fault.cancelled then Reached(t, w, batch, at + 1) else w !in t.workers
  {
    var a := AfterBlob(s, w, fault);
    assert Busy(a, w) && a.workers[w].batch == batch && a.workers[w].at == at;
    if fault.removal.Works? {
      AdvanceReached(a.(tasks := if fault.recorded then a.tasks - {Current(a, w).id} else a.tasks), w, batch, at);
    } else if !fault.cancelled {
      var delay := Schedule.Backoff(c.schedule, Current(a, w).attempts);
      AdvanceReached(a.(tasks := if fault.recorded then Rescheduled(a.tasks, Current(a, w).id, a.now + delay)
        else a.tasks), w, batch, at);
    }
  }

  lemma AdvanceReached(s: State, w: nat, batch: seq<Claimed>, at: nat)
    requires Busy(s, w) && s.workers[w].batch == batch && s.workers[w].at == at
    ensures Reached(Advance(s, w), w, batch, at + 1)
  {
  }

  /** Nothing has failed. */
  predicate Smooth(w: nat, steps: seq<Step>) { AllCalm(w, steps) && AllHealthy(steps) }

  /** The run `steps` has brought the worker to task `at` of its batch. */
  ghost predicate Arrived(c: Config, first: State, steps: seq<Step>, t: State, w: nat, batch: seq<Claimed>, at: nat)
    requires Schedule.Valid(c.schedule)
  {
    Run(c, first, steps) == Some(t) && Reached(t, w, batch, at)
  }

  lemma Arrives(c: Config, first: State, steps: seq<Step>, s: State, w: nat, fault: Fault, batch: seq<Claimed>, at: nat)
    requires Schedule.Valid(c.schedule) && at < |batch| && Arrived(c, first, steps, s, w, batch, at)
    ensures AtTask(s, w) && Current(s, w) == batch[at]
    ensures var more, t := steps + TaskSteps(s, w, fault), AfterTask(c, s, w, fault);
      && Run(c, first, more) == Some(t)
      && (fault.removal.Works? || !fault.cancelled ==> Arrived(c, first, more, t, w, batch, at + 1))
      && (Smooth(w, steps) && Faultless(fault) ==> Smooth(w, more))
  {
    TaskRuns(c, first, steps, s, w, fault);
    TaskReached(c, s, w, fault, batch, at);
    if Smooth(w, steps) && Faultless(fault) {
      var more := steps + TaskSteps(s, w, fault);
      forall i | 0 <= i < |more| ensures Calm(w, more[i]) && Healthy(more[i]) {
        assert i < |steps| ==> Calm(w, steps[i]) && Healthy(steps[i]);
      }
    }
  }

  function Stopped(s: State, w: nat): State { s.(workers := s.workers - {w}) }

  function StopSteps(s: State, w: nat): seq<Step> { if w in s.workers then [OfWorker(w, WorkerDies)] else [] }

  lemma StopRuns(c: Config, first: State, steps: seq<Step>, s: State, w: nat)
    requires Schedule.Valid(c.schedule) && Run(c, first, steps) == Some(s)
    ensures Run(c, first, steps + StopSteps(s, w)) == Some(Stopped(s, w))
  {
    if w in s.workers { RunOne(c, first, steps, s, OfWorker(w, WorkerDies)); }
    else { assert steps + [] == steps && s.workers - {w} == s.workers; }
  }

  // -------------------------------------------------------------- the worker

  class Worker {
    const c: Config
    const w: nat
    const tasks: TaskTable
    const blobs: BlobStore
    var now: int

    constructor (c: Config, w: nat, tasks: TaskTable, blobs: BlobStore, now: int)
      ensures this.c == c && this.w == w && this.tasks == tasks && this.blobs == blobs && this.now == now
    {
      this.c, this.w, this.tasks, this.blobs, this.now := c, w, tasks, blobs, now;
    }

    /** The protocol's state `s` is what the tables, the store and the clock say. */
    ghost predicate Matches(s: State)
      reads this, tasks, blobs
    {
      s.tasks == tasks.rows && s.blobs == blobs.blobs && s.now == now
    }

    /** The blob goes, and then its task; if it does not, the task is tried again after a
        delay, unless the worker is to stop. */
    method Process(task: Claimed, fault: Fault, ghost s: State) returns (failed: bool)
      requires Schedule.Valid(c.schedule) && Matches(s) && AtTask(s, w) && Current(s, w) == task
      modifies this, tasks, blobs
      ensures Matches(AfterTask(c, s, w, fault))
      ensures failed <==> Fails(fault)
      ensures now == old(now) + fault.took
      ensures blobs.blobs == if fault.removal.FailsBefore? then old(blobs.blobs) else old(blobs.blobs) - {task.key}
      ensures failed ==> tasks.rows == old(tasks.rows)
      ensures !failed && fault.removal.Works? ==> tasks.rows == old(tasks.rows) - {task.id}
      ensures !fault.removal.Works? ==> tasks.rows.Keys == old(tasks.rows).Keys
      ensures !failed && !fault.removal.Works? ==> forall id :: id in tasks.rows ==>
        tasks.rows[id] == (if id == task.id
                           then old(tasks.rows)[id].(nextAt := now + Schedule.Backoff(c.schedule, task.attempts))
                           else old(tasks.rows)[id])
    {
      TaskRows(c, s, w, fault);
      var outcome := blobs.Delete(task.key, fault.removal);
      now := now + fault.took;
      if Succeeds(outcome) {
        failed := tasks.Complete(task.id, fault.recorded);
      } else if fault.cancelled {
        failed := true;
      } else {
        var delay := Schedule.BackoffDelay(c.schedule, task.attempts);
        failed := tasks.Retry(task.id, now + delay as int, fault.recorded);
      }
    }

    /** The claimed rows are leased for as long as the whole batch may take, so that they
        are due again only after that. */
    method ClaimBatch(ghost s: State) returns (batch: seq<Claimed>, ghost ids: seq<nat>)
      requires Schedule.Valid(c.schedule) && Matches(s)
      modifies tasks
      ensures Picked(s.tasks, s.now, BatchSize(c), ids) && |batch| == |ids| && (ids == [] || MayClaim(c, s, ids))
      ensures forall i :: 0 <= i < |ids| ==> ids[i] in tasks.rows && batch[i].id == ids[i]
      ensures forall i :: 0 <= i < |ids| ==>
        tasks.rows[ids[i]] == Task(batch[i].key, batch[i].attempts, now + Schedule.Lease(c.schedule))
      ensures Matches(RoundStart(c, s, w, ids))
      ensures ids != [] ==> Arrived(c, AfterClaim(c, s, w, ids), [], AfterClaim(c, s, w, ids), w, batch, 0)
    {
      var lease := Schedule.LeaseDuration(c.schedule);
      batch, ids := tasks.Claim(c.schedule.batchSize as int, now, now + lease as int);
      PickedMayBeClaimed(c, s, ids);
      if ids == [] {
        assert tasks.rows == s.tasks;
      } else {
        assert AfterClaim(c, s, w, ids).tasks == tasks.rows;
        assert batch == Batch(s, ids);
      }
    }

    /** One batch is one run of the protocol, begun by a claim of the oldest due tasks;
        without faults nothing in it fails. `claims`: the claiming statement works. */
    method ProcessBatch(claims: bool, faults: seq<Fault>, ghost s: State)
      returns (processed: nat, failed: bool, ghost ids: seq<nat>, ghost steps: seq<Step>, ghost t: State)
      requires Schedule.Valid(c.schedule) && Matches(s) && w !in s.workers && |faults| == BatchSize(c)
      modifies this, tasks, blobs
      ensures processed == |ids| && Matches(t) && w !in t.workers
      ensures if claims then Picked(s.tasks, s.now, BatchSize(c), ids) else ids == [] && failed
      ensures ids == [] || MayClaim(c, s, ids)
      ensures Run(c, RoundStart(c, s, w, ids), steps) == Some(t)
      ensures if claims then Ended(faults, |ids|, old(now), failed, now) else failed && now == old(now)
      ensures claims && (forall i :: 0 <= i < |ids| ==> Faultless(faults[i])) ==> Smooth(w, steps)
    {
      processed, failed, ids, steps, t := 0, true, [], [], s;
      if !claims { return; }
      failed := false;
      var batch;
      batch, ids := ClaimBatch(s);
      processed := |batch|;
      ghost var first := RoundStart(c, s, w, ids);
      t := first;
      StandsFirst(faults, |batch|, now);
      if |batch| == 0 {
        StandsLast(faults, 0, now, false, now);
        return;
      }
      var i := 0;
      while i < |batch|
        invariant i <= |batch| && Arrived(c, first, steps, t, w, batch, i) && Matches(t)
        invariant Standing(faults, |batch|, old(now), i, failed, now)
        invariant (forall k :: 0 <= k < i ==> Faultless(faults[k])) ==> Smooth(w, steps)
      {
        Arrives(c, first, steps, t, w, faults[i], batch, i);
        StandsNext(faults, |batch|, old(now), i, failed, now);
        var err := Process(batch[i], faults[i], t);
        steps, t := steps + TaskSteps(t, w, faults[i]), AfterTask(c, t, w, faults[i]);
        if err {
          failed := true;
          if faults[i].cancelled {
            StopRuns(c, first, steps, t, w);
            steps, t := steps + StopSteps(t, w), Stopped(t, w);
            return;
          }
        }
        i := i + 1;
      }
      StandsLast(faults, |batch|, old(now), failed, now);
    }
  }

  lemma PickedMayBeClaimed(c: Config, s: State, ids: seq<nat>)
    requires Schedule.Valid(c.schedule) && Picked(s.tasks, s.now, BatchSize(c), ids)
    ensures ids == [] || MayClaim(c, s, ids)
  {
  }

  /** Where every task is due, a batch without faults is a round, and takes away as many
      tasks as the worker may claim. */
  lemma FaultlessBatchIsRound(c: Config, s: State, w: nat, ids: seq<nat>, steps: seq<Step>, t: State)
    requires Schedule.Valid(c.schedule) && Inv(s) && w !in s.workers && w !in t.workers
    requires (forall id :: id in s.tasks ==> Due(s, id))
    requires Picked(s.tasks, s.now, BatchSize(c), ids) && (ids == [] || MayClaim(c, s, ids))
    requires Run(c, RoundStart(c, s, w, ids), steps) == Some(t) && Smooth(w, steps)
    ensures IsRound(c, s, w, Round(ids, steps), t) && AllHealthy(steps)
    ensures |Old(t, s.nextTask)| <= |s.tasks| - Min(BatchSize(c), |s.tasks|)
  {
    assert Round(ids, steps).ids == ids;
    RoundRemoves(c, s, w, Round(ids, steps), t);
  }
}
