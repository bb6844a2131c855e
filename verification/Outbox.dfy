/** The life of a blob: internal/document/upload.go, delete.go and cleanup_worker.go
    over the document and cleanup-task tables and a blob store.

    Every transaction and every blob operation is one step. Any of them may fail, a
    failed removal may still have removed the blob, and every request and worker may
    die between any two of its steps; a process crash is several deaths at once. */
module Outbox {
  import opened Common
  import Schedule = CleanupSchedule

  type Blob = seq<byte>

  /** The row of a file document, as far as its blob goes. */
  datatype File = File(owner: string, key: string, size: nat)

  datatype Task = Task(key: string, attempts: nat, nextAt: int)

  datatype UploadPc = Stored | Undoing

  datatype Upload = Upload(owner: string, key: string, size: nat, pc: UploadPc)

  datatype DeletionPc = Erasing | Confirming

  /** The work of a delete request after its transaction has committed. */
  datatype Deletion = Deletion(key: string, pc: DeletionPc)

  datatype Claimed = Claimed(id: nat, key: string, attempts: nat)

  datatype WorkerPc = Removing | Completing | Retrying

  /** A worker with a claimed batch: it is at task `at`, which it began at `since`. */
  datatype Worker = Worker(batch: seq<Claimed>, at: nat, claimedAt: int, since: int, pc: WorkerPc)

  /** What became of a storage key. `Abandoned`: its upload left a blob behind that no
      table mentions. */
  datatype Role = Nothing | Uploading(u: nat) | Live(id: string) | Retired(task: nat) | Abandoned

  datatype Config = Config(maxFile: nat, schedule: Schedule.Config)

  /** `roles`, `made` and `queued` record history; no step depends on them but for the
      freshness of a new storage key. */
  datatype State = State(
    files: map<string, File>,
    tasks: map<nat, Task>,
    blobs: map<string, Blob>,
    uploads: map<nat, Upload>,
    deletions: map<nat, Deletion>,
    workers: map<nat, Worker>,
    nextTask: nat,
    now: int,
    roles: map<string, Role>,
    made: map<string, Blob>,    // what every file document was created with
    queued: map<nat, string>)   // the key of every task that was ever inserted

  function Init(now: int): State {
    State(map[], map[], map[], map[], map[], map[], 0, now, map[], map[], map[])
  }

  // --------------------------------------------------------------------- steps

  /** How the removal of a blob can end. */
  datatype Outcome = Removed | Missing | FailedBefore | FailedAfter

  datatype UploadStep =
    | Put(key: string, owner: string, blob: Blob, stored: bool)
    | Create(id: string, commits: bool)
    | Undo(outcome: Outcome)
    | UploadDies

  datatype DeletionStep =
    | Delete(id: string, owner: string)
    | Erase(outcome: Outcome)
    | Confirm(done: bool)
    | DeletionDies

  datatype WorkerStep =
    | Claim(ids: seq<nat>)
    | Remove(outcome: Outcome)
    | Complete(done: bool)
    | Retry(done: bool)
    | WorkerDies

  datatype Step =
    | OfUpload(u: nat, up: UploadStep)
    | OfDeletion(d: nat, del: DeletionStep)
    | OfWorker(w: nat, work: WorkerStep)
    | Tick(time: nat)

  predicate OutcomeFits(blobs: map<string, Blob>, key: string, outcome: Outcome) {
    match outcome
    case Removed => key in blobs
    case Missing => key !in blobs
    case FailedBefore => true
    case FailedAfter => true
  }

  function AfterRemoval(blobs: map<string, Blob>, key: string, outcome: Outcome): map<string, Blob> {
    if outcome.FailedBefore? then blobs else blobs - {key}
  }

  /** `ErrNotFound` is as good as success. */
  predicate Succeeds(outcome: Outcome) { outcome.Removed? || outcome.Missing? }

  predicate Distinct(ids: seq<nat>) { forall i, j :: 0 <= i < j < |ids| ==> ids[i] != ids[j] }

  predicate Due(s: State, id: nat) { id in s.tasks && s.tasks[id].nextAt <= s.now }

  predicate MayClaim(c: Config, s: State, ids: seq<nat>) {
    0 < |ids| <= c.schedule.batchSize as int && Distinct(ids) && forall i :: 0 <= i < |ids| ==> Due(s, ids[i])
  }

  predicate UploadEnabled(c: Config, s: State, u: nat, step: UploadStep) {
    match step
    case Put(key, _, _, _) => u !in s.uploads && key !in s.roles
    case Create(id, commits) =>
      u in s.uploads && s.uploads[u].pc.Stored? && s.uploads[u].size <= c.maxFile && (commits ==> id !in s.files)
    case Undo(outcome) =>
      && u in s.uploads && (s.uploads[u].pc.Undoing? || s.uploads[u].size > c.maxFile)
      && OutcomeFits(s.blobs, s.uploads[u].key, outcome)
    case UploadDies => u in s.uploads
  }

  predicate DeletionEnabled(s: State, d: nat, step: DeletionStep) {
    match step
    case Delete(id, owner) => d !in s.deletions && id in s.files && s.files[id].owner == owner
    case Erase(outcome) =>
      d in s.deletions && s.deletions[d].pc.Erasing? && OutcomeFits(s.blobs, s.deletions[d].key, outcome)
    case Confirm(_) => d in s.deletions && s.deletions[d].pc.Confirming?
    case DeletionDies => d in s.deletions
  }

  predicate WorkerEnabled(c: Config, s: State, w: nat, step: WorkerStep) {
    match step
    case Claim(ids) => w !in s.workers && MayClaim(c, s, ids)
    case Remove(outcome) =>
      Busy(s, w) && s.workers[w].pc.Removing? && OutcomeFits(s.blobs, Current(s, w).key, outcome)
    case Complete(_) => Busy(s, w) && s.workers[w].pc.Completing?
    case Retry(_) => Busy(s, w) && s.workers[w].pc.Retrying?
    case WorkerDies => w in s.workers
  }

  predicate Enabled(c: Config, s: State, step: Step) {
    match step
    case OfUpload(u, up) => UploadEnabled(c, s, u, up)
    case OfDeletion(d, del) => DeletionEnabled(s, d, del)
    case OfWorker(w, work) => WorkerEnabled(c, s, w, work)
    case Tick(_) => true
  }

  predicate Busy(s: State, w: nat) { w in s.workers && s.workers[w].at < |s.workers[w].batch| }

  function Current(s: State, w: nat): Claimed
    requires Busy(s, w)
  {
    s.workers[w].batch[s.workers[w].at]
  }

  function Left(blobs: map<string, Blob>, key: string): Role { if key in blobs then Abandoned else Nothing }

  /** `ON CONFLICT (storage_key) DO NOTHING`. */
  function Enqueued(s: State, key: string): map<nat, Task> {
    if exists t :: t in s.tasks && s.tasks[t].key == key then s.tasks
    else s.tasks[s.nextTask := Task(key, 0, s.now)]
  }

  function Leased(c: Config, s: State, ids: seq<nat>): map<nat, Task>
    requires Schedule.Valid(c.schedule)
  {
    map t | t in s.tasks ::
      if t in ids then s.tasks[t].(attempts := s.tasks[t].attempts + 1, nextAt := s.now + Schedule.Lease(c.schedule))
      else s.tasks[t]
  }

  function Batch(s: State, ids: seq<nat>): seq<Claimed>
    requires forall i :: 0 <= i < |ids| ==> ids[i] in s.tasks
  {
    seq(|ids|, i requires 0 <= i < |ids| => Claimed(ids[i], s.tasks[ids[i]].key, s.tasks[ids[i]].attempts + 1))
  }

  /** On to the next task of the batch, or idle again. */
  function Advance(s: State, w: nat): State
    requires Busy(s, w)
  {
    var worker := s.workers[w];
    s.(workers := if worker.at + 1 == |worker.batch| then s.workers - {w}
                  else s.workers[w := worker.(at := worker.at + 1, since := s.now, pc := Removing)])
  }

  function AfterPut(s: State, u: nat, key: string, owner: string, blob: Blob, stored: bool): State {
    s.(blobs := if stored then s.blobs[key := blob] else s.blobs,
       uploads := if stored then s.uploads[u := Upload(owner, key, |blob|, Stored)] else s.uploads,
       roles := s.roles[key := if stored then Uploading(u) else Nothing])
  }

  function AfterCreate(s: State, u: nat, id: string, commits: bool): State
    requires u in s.uploads
  {
    var up := s.uploads[u];
    s.(files := if commits then s.files[id := File(up.owner, up.key, up.size)] else s.files,
       uploads := if commits then s.uploads - {u} else s.uploads[u := up.(pc := Undoing)],
       roles := if commits then s.roles[up.key := Live(id)] else s.roles,
       made := if commits && up.key in s.blobs then s.made[up.key := s.blobs[up.key]] else s.made)
  }

  function AfterUndo(s: State, u: nat, outcome: Outcome): State
    requires u in s.uploads
  {
    var key := s.uploads[u].key;
    var blobs := AfterRemoval(s.blobs, key, outcome);
    s.(blobs := blobs, uploads := s.uploads - {u}, roles := s.roles[key := Left(blobs, key)])
  }

  function AfterDelete(s: State, d: nat, id: string): State
    requires id in s.files
  {
    var key := s.files[id].key;
    s.(files := s.files - {id}, tasks := Enqueued(s, key), nextTask := s.nextTask + 1,
       deletions := s.deletions[d := Deletion(key, Erasing)], roles := s.roles[key := Retired(s.nextTask)],
       queued := s.queued[s.nextTask := key])
  }

  function AfterErase(s: State, d: nat, outcome: Outcome): State
    requires d in s.deletions
  {
    var key := s.deletions[d].key;
    s.(blobs := AfterRemoval(s.blobs, key, outcome),
       deletions := if Succeeds(outcome) then s.deletions[d := Deletion(key, Confirming)] else s.deletions - {d})
  }

  function AfterConfirm(s: State, d: nat, done: bool): State
    requires d in s.deletions
  {
    var key := s.deletions[d].key;
    s.(deletions := s.deletions - {d},
       tasks := if done then map t | t in s.tasks && s.tasks[t].key != key :: s.tasks[t] else s.tasks)
  }

  function AfterClaim(c: Config, s: State, w: nat, ids: seq<nat>): State
    requires Schedule.Valid(c.schedule) && MayClaim(c, s, ids)
  {
    s.(tasks := Leased(c, s, ids), workers := s.workers[w := Worker(Batch(s, ids), 0, s.now, s.now, Removing)])
  }

  function AfterRemove(s: State, w: nat, outcome: Outcome): State
    requires Busy(s, w)
  {
    s.(blobs := AfterRemoval(s.blobs, Current(s, w).key, outcome),
       workers := s.workers[w := s.workers[w].(pc := if Succeeds(outcome) then Completing else Retrying)])
  }

  function AfterComplete(s: State, w: nat, done: bool): State
    requires Busy(s, w)
  {
    Advance(s.(tasks := if done then s.tasks - {Current(s, w).id} else s.tasks), w)
  }

  /** `UPDATE ... WHERE id`: nothing to update when the row is gone. */
  function Rescheduled(tasks: map<nat, Task>, id: nat, nextAt: int): map<nat, Task> {
    if id in tasks then tasks[id := tasks[id].(nextAt := nextAt)] else tasks
  }

  function AfterRetry(s: State, w: nat, done: bool, delay: int): State
    requires Busy(s, w)
  {
    Advance(s.(tasks := if done then Rescheduled(s.tasks, Current(s, w).id, s.now + delay) else s.tasks), w)
  }

  function AfterUpload(c: Config, s: State, u: nat, step: UploadStep): State
    requires UploadEnabled(c, s, u, step)
  {
    match step
    case Put(key, owner, blob, stored) => AfterPut(s, u, key, owner, blob, stored)
    case Create(id, commits) => AfterCreate(s, u, id, commits)
    case Undo(outcome) => AfterUndo(s, u, outcome)
    case UploadDies => s.(uploads := s.uploads - {u},
      roles := s.roles[s.uploads[u].key := Left(s.blobs, s.uploads[u].key)])
  }

  function AfterDeletion(s: State, d: nat, step: DeletionStep): State
    requires DeletionEnabled(s, d, step)
  {
    match step
    case Delete(id, _) => AfterDelete(s, d, id)
    case Erase(outcome) => AfterErase(s, d, outcome)
    case Confirm(done) => AfterConfirm(s, d, done)
    case DeletionDies => s.(deletions := s.deletions - {d})
  }

  function AfterWork(c: Config, s: State, w: nat, step: WorkerStep): State
    requires Schedule.Valid(c.schedule) && WorkerEnabled(c, s, w, step)
  {
    match step
    case Claim(ids) => AfterClaim(c, s, w, ids)
    case Remove(outcome) => AfterRemove(s, w, outcome)
    case Complete(done) => AfterComplete(s, w, done)
    case Retry(done) => AfterRetry(s, w, done, Schedule.Backoff(c.schedule, Current(s, w).attempts))
    case WorkerDies => s.(workers := s.workers - {w})
  }

  function Next(c: Config, s: State, step: Step): State
    requires Schedule.Valid(c.schedule) && Enabled(c, s, step)
  {
    match step
    case OfUpload(u, up) => AfterUpload(c, s, u, up)
    case OfDeletion(d, del) => AfterDeletion(s, d, del)
    case OfWorker(w, work) => AfterWork(c, s, w, work)
    case Tick(time) => s.(now := s.now + time)
  }

  function Run(c: Config, s: State, steps: seq<Step>): (r: Option<State>)
    requires Schedule.Valid(c.schedule)
  {
    if steps == [] then Some(s)
    else match Run(c, s, steps[..|steps| - 1])
         case None => None
         case Some(t) => if Enabled(c, t, steps[|steps| - 1]) then Some(Next(c, t, steps[|steps| - 1])) else None
  }

  // ------------------------------------------------------------ the invariant

  type Roles = map<string, Role>
  type Blobs = map<string, Blob>

  predicate HasRole(roles: Roles, key: string, role: Role) { key in roles && roles[key] == role }

  predicate IsRetired(roles: Roles, key: string) { key in roles && roles[key].Retired? }

  predicate FileOk(roles: Roles, blobs: Blobs, made: Blobs, id: string, f: File) {
    HasRole(roles, f.key, Live(id)) && f.key in blobs && f.key in made && |made[f.key]| == f.size
  }

  predicate UploadOk(roles: Roles, blobs: Blobs, made: Blobs, u: nat, up: Upload) {
    HasRole(roles, up.key, Uploading(u)) && up.key in blobs && |blobs[up.key]| == up.size && up.key !in made
  }

  predicate TaskOk(roles: Roles, queued: map<nat, string>, id: nat, key: string) {
    HasRole(roles, key, Retired(id)) && id in queued && queued[id] == key
  }

  predicate DeletionOk(roles: Roles, blobs: Blobs, del: Deletion) {
    IsRetired(roles, del.key) && (del.pc.Confirming? ==> del.key !in blobs)
  }

  predicate WorkerOk(roles: Roles, queued: map<nat, string>, blobs: Blobs, worker: Worker) {
    && worker.at < |worker.batch|
    && (forall i :: 0 <= i < |worker.batch| ==> TaskOk(roles, queued, worker.batch[i].id, worker.batch[i].key))
    && (worker.pc.Completing? ==> worker.batch[worker.at].key !in blobs)
  }

  /** What a stored blob's key may be. */
  predicate Placed(s: State, key: string) {
    && key in s.roles
    && match s.roles[key]
       case Nothing => false
       case Uploading(u) => u in s.uploads && s.uploads[u].key == key
       case Live(id) => id in s.files && s.files[id].key == key
       case Retired(t) => t in s.tasks && s.tasks[t].key == key
       case Abandoned => true
  }

  predicate MadeOk(roles: Roles, blobs: Blobs, key: string, blob: Blob) {
    key in roles && (roles[key].Live? || roles[key].Retired?) && (key in blobs ==> blobs[key] == blob)
  }

  ghost predicate FilesOk(s: State) { forall id :: id in s.files ==> FileOk(s.roles, s.blobs, s.made, id, s.files[id]) }

  ghost predicate UploadsOk(s: State) {
    forall u :: u in s.uploads ==> UploadOk(s.roles, s.blobs, s.made, u, s.uploads[u])
  }

  ghost predicate TasksOk(s: State) { forall t :: t in s.tasks ==> TaskOk(s.roles, s.queued, t, s.tasks[t].key) }

  ghost predicate DeletionsOk(s: State) {
    forall d :: d in s.deletions ==> DeletionOk(s.roles, s.blobs, s.deletions[d])
  }

  ghost predicate WorkersOk(s: State) {
    forall w :: w in s.workers ==> WorkerOk(s.roles, s.queued, s.blobs, s.workers[w])
  }

  ghost predicate BlobsOk(s: State) { forall key :: key in s.blobs ==> Placed(s, key) }

  ghost predicate HistoryOk(s: State) {
    && (forall key :: key in s.made ==> MadeOk(s.roles, s.blobs, key, s.made[key]))
    && (forall t :: t in s.queued ==> t < s.nextTask)
  }

  ghost predicate Inv(s: State) {
    FilesOk(s) && UploadsOk(s) && TasksOk(s) && DeletionsOk(s) && WorkersOk(s) && BlobsOk(s) && HistoryOk(s)
  }
}
