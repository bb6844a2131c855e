/** internal/document/upload.go and delete.go as they run for file documents: every
    call is a run of the blob protocol (Outbox), so all that holds of runs holds of it. */
module DocumentService {
  import opened Common
  import opened Outbox
  import opened CleanupWorker
  import Schedule = CleanupSchedule

  /** The document table and its transactions; a task goes into the other table. */
  class DocumentTable {
    var files: map<string, File>
    var nextTask: nat
    const tasks: TaskTable

    constructor (tasks: TaskTable)
      ensures this.tasks == tasks && files == map[] && nextTask == 0
    {
      this.tasks, files, nextTask := tasks, map[], 0;
    }

    method Create(id: string, file: File, works: bool) returns (failed: bool)
      modifies this`files
      ensures failed == (!works || id in old(files))
      ensures files == if failed then old(files) else old(files)[id := file]
    {
      failed := !works || id in files;
      if !failed { files := files[id := file]; }
    }

    /** One transaction: the document's row goes and the cleanup task comes, if the row is
        there and belongs to the requester. `works`: no statement fails. */
    method Delete(id: string, requester: string, now: int, works: bool) returns (answer: Answer)
      modifies this, tasks
      ensures answer.Gone? <==> works && id in old(files) && old(files)[id].owner == requester
      ensures answer.NotFound? <==> works && id !in old(files)
      ensures answer.Forbidden? <==> works && id in old(files) && old(files)[id].owner != requester
      ensures !answer.Gone? ==> files == old(files) && tasks.rows == old(tasks.rows) && nextTask == old(nextTask)
      ensures answer.Gone? ==> answer.file == old(files)[id] && files == old(files) - {id}
      ensures answer.Gone? ==> nextTask == old(nextTask) + 1
      ensures answer.Gone? ==> tasks.rows == Inserted(old(tasks.rows), old(nextTask), answer.file.key, now)
    {
      if !works { return Broken; }
      if id !in files { return NotFound; }
      if files[id].owner != requester { return Forbidden; }
      var file := files[id];
      var known := false;
      var left := tasks.rows.Keys;
      while left != {}
        invariant left <= tasks.rows.Keys
        invariant known <==> exists t :: t in tasks.rows.Keys - left && tasks.rows[t].key == file.key
        decreases left
      {
        var t :| t in left;
        if tasks.rows[t].key == file.key { known := true; }
        left := left - {t};
      }
      if !known { tasks.rows := tasks.rows[nextTask := Task(file.key, 0, now)]; }
      nextTask := nextTask + 1;
      files := files - {id};
      answer := Gone(file);
    }
  }

  datatype Answer = Gone(file: File) | NotFound | Forbidden | Broken

  function Inserted(rows: map<nat, Task>, id: nat, key: string, now: int): map<nat, Task> {
    if exists t :: t in rows && rows[t].key == key then rows else rows[id := Task(key, 0, now)]
  }

  /** The table keeps all its rows, and has exactly one more if none was for the key. */
  lemma InsertedFacts(rows: map<nat, Task>, id: nat, key: string, now: int)
    requires id !in rows
    ensures var more := Inserted(rows, id, key, now);
      && (forall t :: t in rows ==> t in more && more[t] == rows[t])
      && (forall t :: t in more && t !in rows ==> t == id && more[t] == Task(key, 0, now))
      && (exists t :: t in more && more[t].key == key)
      && ((exists t :: t in rows && rows[t].key == key) ==> more == rows)
  {
    if forall t :: t in rows ==> rows[t].key != key {
      var more := Inserted(rows, id, key, now);
      assert id in more && more[id].key == key;
    }
  }

  // ----------------------------------------------------- a deletion as a run

  /** The deletion's blob step, after its transaction. */
  function Erased(s: State, d: nat, id: string, removal: Removal): State
    requires id in s.files
  {
    AfterErase(AfterDelete(s, d, id), d, OutcomeOf(s.blobs, s.files[id].key, removal))
  }

  function Deleted(s: State, d: nat, id: string, removal: Removal, confirmed: bool): State
    requires id in s.files
  {
    if removal.Works? then AfterConfirm(Erased(s, d, id, removal), d, confirmed) else Erased(s, d, id, removal)
  }

  function DeleteSteps(s: State, d: nat, id: string, requester: string, removal: Removal, confirmed: bool): seq<Step>
    requires id in s.files
  {
    [OfDeletion(d, Delete(id, requester)), OfDeletion(d, Erase(OutcomeOf(s.blobs, s.files[id].key, removal)))]
    + if removal.Works? then [OfDeletion(d, Confirm(confirmed))] else []
  }

  lemma DeleteRuns(c: Config, s: State, d: nat, id: string, requester: string, removal: Removal, confirmed: bool)
    requires Schedule.Valid(c.schedule) && d !in s.deletions && id in s.files && s.files[id].owner == requester
    ensures Run(c, s, DeleteSteps(s, d, id, requester, removal, confirmed))
         == Some(Deleted(s, d, id, removal, confirmed))
  {
    var key := s.files[id].key;
    var one, two := OfDeletion(d, Delete(id, requester)), OfDeletion(d, Erase(OutcomeOf(s.blobs, key, removal)));
    assert Run(c, s, []) == Some(s);
    RunOne(c, s, [], s, one);
    assert [] + [one] == [one];
    RunOne(c, s, [one], AfterDelete(s, d, id), two);
    if removal.Works? {
      RunOne(c, s, [one] + [two], Erased(s, d, id, removal), OfDeletion(d, Confirm(confirmed)));
      assert [one, two] == [one] + [two];
    } else {
      assert DeleteSteps(s, d, id, requester, removal, confirmed) == [one] + [two];
    }
  }

  function WithoutKey(rows: map<nat, Task>, key: string): map<nat, Task> {
    map t | t in rows && rows[t].key != key :: rows[t]
  }

  /** What a deletion leaves in the tables and the store. */
  lemma DeleteLeaves(s: State, d: nat, id: string, removal: Removal, confirmed: bool)
    requires id in s.files
    ensures var t, key := Deleted(s, d, id, removal, confirmed), s.files[id].key;
      var rows := Inserted(s.tasks, s.nextTask, key, s.now);
      && t.files == s.files - {id} && t.nextTask == s.nextTask + 1 && t.now == s.now
      && t.blobs == AfterRemoval(s.blobs, key, OutcomeOf(s.blobs, key, removal))
      && t.tasks == if removal.Works? && confirmed then WithoutKey(rows, key) else rows
  {
    assert AfterDelete(s, d, id).tasks == Inserted(s.tasks, s.nextTask, s.files[id].key, s.now);
    if removal.Works? {
      if confirmed { } else { }
    } else { }
  }

  // ------------------------------------------------------ an upload as a run

  /** What an upload is made of, and how its calls fare. */
  datatype Attempt = Attempt(u: nat, id: string, owner: string, key: string, source: Blob, stores: bool,
      creates: bool, removal: Removal)

  /** At most one byte more than allowed is read. */
  function Limited(c: Config, source: Blob): Blob { if |source| <= c.maxFile then source else source[..c.maxFile + 1] }

  function AfterStored(c: Config, s: State, a: Attempt): State {
    AfterPut(s, a.u, a.key, a.owner, Limited(c, a.source), a.stores)
  }

  predicate Fits(c: Config, a: Attempt) { |a.source| <= c.maxFile }

  predicate Succeeded(c: Config, files: map<string, File>, a: Attempt) {
    a.stores && Fits(c, a) && a.creates && a.id !in files
  }

  function Uploaded(c: Config, s: State, a: Attempt): State {
    var stored := AfterStored(c, s, a);
    if !a.stores then stored
    else
      var created := if Fits(c, a) then AfterCreate(stored, a.u, a.id, Succeeded(c, s.files, a)) else stored;
      if Succeeded(c, s.files, a) then created
      else AfterUndo(created, a.u, OutcomeOf(created.blobs, a.key, a.removal))
  }

  function UploadSteps(c: Config, s: State, a: Attempt): seq<Step> {
    [OfUpload(a.u, Put(a.key, a.owner, Limited(c, a.source), a.stores))]
    + (if a.stores && Fits(c, a) then [OfUpload(a.u, Create(a.id, Succeeded(c, s.files, a)))] else [])
    + (if a.stores && !Succeeded(c, s.files, a) then
      [OfUpload(a.u, Undo(OutcomeOf(AfterStored(c, s, a).blobs, a.key, a.removal)))] else [])
  }

  lemma UndoRuns(c: Config, s: State, steps: seq<Step>, t: State, a: Attempt)
    requires Schedule.Valid(c.schedule) && Run(c, s, steps) == Some(t)
    requires a.u in t.uploads && t.uploads[a.u].key == a.key
    requires (t.uploads[a.u].pc.Undoing? || t.uploads[a.u].size > c.maxFile)
    ensures var outcome := OutcomeOf(t.blobs, a.key, a.removal);
      Run(c, s, steps + [OfUpload(a.u, Undo(outcome))]) == Some(AfterUndo(t, a.u, outcome))
  {
    RunOne(c, s, steps, t, OfUpload(a.u, Undo(OutcomeOf(t.blobs, a.key, a.removal))));
  }

  lemma UploadRuns(c: Config, s: State, a: Attempt)
    requires Schedule.Valid(c.schedule) && a.u !in s.uploads && a.key !in s.roles
    ensures Run(c, s, UploadSteps(c, s, a)) == Some(Uploaded(c, s, a))
  {
    var put := OfUpload(a.u, Put(a.key, a.owner, Limited(c, a.source), a.stores));
    var create := OfUpload(a.u, Create(a.id, Succeeded(c, s.files, a)));
    var stored := AfterStored(c, s, a);
    assert Run(c, s, []) == Some(s) && [] + [put] == [put];
    RunOne(c, s, [], s, put);
    if a.stores && !Fits(c, a) {
      UndoRuns(c, s, [put], stored, a);
    } else if a.stores {
      RunOne(c, s, [put], stored, create);
      if !Succeeded(c, s.files, a) { UndoRuns(c, s, [put] + [create], AfterCreate(stored, a.u, a.id, false), a); }
    }
  }

  predicate Leaves(s: State, t: State, files: map<string, File>, blobs: map<string, Blob>) {
    t.tasks == s.tasks && t.nextTask == s.nextTask && t.now == s.now && t.files == files && t.blobs == blobs
  }

  lemma PutLeaves(c: Config, s: State, a: Attempt)
    ensures Leaves(s, AfterStored(c, s, a), s.files, if a.stores then s.blobs[a.key := Limited(c, a.source)]
      else s.blobs)
  {
  }

  lemma CreateLeaves(s: State, u: nat, id: string, commits: bool)
    requires u in s.uploads
    ensures var up := s.uploads[u];
      Leaves(s, AfterCreate(s, u, id, commits), if commits then s.files[id := File(up.owner, up.key, up.size)]
      else s.files, s.blobs)
  {
  }

  lemma UndoLeaves(s: State, u: nat, outcome: Outcome)
    requires u in s.uploads
    ensures Leaves(s, AfterUndo(s, u, outcome), s.files, AfterRemoval(s.blobs, s.uploads[u].key, outcome))
  {
  }

  function FilesAfter(c: Config, files: map<string, File>, a: Attempt): map<string, File> {
    if Succeeded(c, files, a) then files[a.id := File(a.owner, a.key, |a.source|)] else files
  }

  function BlobsAfter(c: Config, files: map<string, File>, blobs: map<string, Blob>, a: Attempt): map<string, Blob> {
    if Succeeded(c, files, a) || (a.stores && a.removal.FailsBefore?) then blobs[a.key := Limited(c, a.source)]
        else blobs
  }

  /** What an upload leaves in the tables and the store: all of it, or nothing but what a
      failed removal leaves of its own blob. */
  lemma UploadLeaves(c: Config, s: State, a: Attempt)
    requires a.u !in s.uploads && a.key !in s.blobs
    ensures Leaves(s, Uploaded(c, s, a), FilesAfter(c, s.files, a), BlobsAfter(c, s.files, s.blobs, a))
  {
    var stored := AfterStored(c, s, a);
    PutLeaves(c, s, a);
    if a.stores {
      assert s.blobs[a.key := Limited(c, a.source)] - {a.key} == s.blobs;
      var created := if Fits(c, a) then AfterCreate(stored, a.u, a.id, Succeeded(c, s.files, a)) else stored;
      if Fits(c, a) { CreateLeaves(stored, a.u, a.id, Succeeded(c, s.files, a)); }
      if !Succeeded(c, s.files, a) {
        assert created.uploads[a.u].key == a.key;
        UndoLeaves(created, a.u, OutcomeOf(created.blobs, a.key, a.removal));
      }
    }
  }

  class Service {
    const c: Config
    const documents: DocumentTable
    const tasks: TaskTable
    const blobs: BlobStore
    var epoch: nat

    constructor (c: Config, documents: DocumentTable, blobs: BlobStore)
      ensures this.c == c && this.documents == documents && tasks == documents.tasks && this.blobs == blobs
      ensures epoch == 0
    {
      this.c, this.documents, this.tasks, this.blobs, this.epoch := c, documents, documents.tasks, blobs, 0;
    }

    ghost predicate Matches(s: State)
      reads this, documents, tasks, blobs
    {
      && tasks == documents.tasks
      && s.files == documents.files && s.nextTask == documents.nextTask && s.tasks == tasks.rows
      && s.blobs == blobs.blobs
    }

    /** Store the blob, create the row, and take the blob back where either is refused. The
        key is a new random one. */
    method Upload(a: Attempt) returns (failed: bool)
      requires a.key !in blobs.blobs
      modifies documents`files, blobs
      ensures !failed <==> a.stores && |a.source| <= c.maxFile && a.creates && a.id !in old(documents.files)
      ensures !failed ==> documents.files == old(documents.files)[a.id := File(a.owner, a.key, |a.source|)]
      ensures !failed ==> blobs.blobs == old(blobs.blobs)[a.key := a.source]
      ensures failed ==> documents.files == old(documents.files)
      ensures failed && !(a.stores && a.removal.FailsBefore?) ==> blobs.blobs == old(blobs.blobs)
      ensures documents.files == FilesAfter(c, old(documents.files), a)
      ensures blobs.blobs == BlobsAfter(c, old(documents.files), old(blobs.blobs), a)
    {
      var data := if |a.source| <= c.maxFile then a.source else a.source[..c.maxFile + 1];
      var stored := blobs.Put(a.key, data, a.stores);
      if !stored { return true; }
      assert blobs.blobs - {a.key} == old(blobs.blobs);
      if |data| > c.maxFile {
        var _ := blobs.Delete(a.key, a.removal);
        return true;
      }
      failed := documents.Create(a.id, File(a.owner, a.key, |data|), a.creates);
      if failed { var _ := blobs.Delete(a.key, a.removal); }
    }

    /** So an upload is a run of the protocol. */
    method UploadIsRun(a: Attempt, ghost s: State) returns (failed: bool)
      requires Schedule.Valid(c.schedule) && Matches(s) && a.u !in s.uploads && a.key !in s.roles && a.key !in s.blobs
      modifies documents`files, blobs
      ensures Matches(Uploaded(c, s, a)) && Run(c, s, UploadSteps(c, s, a)) == Some(Uploaded(c, s, a))
    {
      UploadLeaves(c, s, a);
      UploadRuns(c, s, a);
      failed := Upload(a);
    }

    /** Commit, bump the epoch, remove the blob, confirm the task. `hook` says whether the
        invalidation hook, which has bumped the epoch, reports no error; `removal` how the
        blob's removal fares; `confirmed` whether the task's row could be removed. An error
        of the hook is reported in the end, and stops nothing. */
    method Delete(d: nat, id: string, requester: string, now: int, works: bool, hook: bool,
                  removal: Removal, confirmed: bool, ghost s: State)
      returns (answer: Answer, failed: bool)
      requires Matches(s) && s.now == now
      modifies this`epoch, documents, tasks, blobs
      ensures answer.Gone? <==> works && id in s.files && s.files[id].owner == requester
      ensures answer.NotFound? <==> works && id !in s.files
      ensures answer.Forbidden? <==> works && id in s.files && s.files[id].owner != requester
      ensures answer.Gone? ==> documents.files == s.files - {id}
      ensures Matches(if answer.Gone? then Deleted(s, d, id, removal, confirmed) else s)
      ensures failed == !(answer.Gone? && hook && removal.Works? && confirmed)
      ensures epoch == old(epoch) + if answer.Gone? then 1 else 0
    {
      answer := documents.Delete(id, requester, now, works);
      if !answer.Gone? { return answer, true; }
      DeleteLeaves(s, d, id, removal, confirmed);
      epoch := epoch + 1;
      var key := answer.file.key;
      var outcome := blobs.Delete(key, removal);
      if !Succeeds(outcome) { return answer, true; }
      if confirmed { tasks.CompleteByStorageKey(key); }
      failed := !hook || !confirmed;
    }
  }

  /** A deletion that reports success leaves neither the blob nor a task for it. */
  lemma SuccessfulDeleteLeavesNothing(c: Config, s: State, d: nat, id: string, requester: string)
    requires Schedule.Valid(c.schedule) && d !in s.deletions && id in s.files && s.files[id].owner == requester
    ensures var t, key := Deleted(s, d, id, Works, true), s.files[id].key;
      && Run(c, s, DeleteSteps(s, d, id, requester, Works, true)) == Some(t)
      && id !in t.files && key !in t.blobs && forall n :: n in t.tasks ==> t.tasks[n].key != key
  {
    DeleteRuns(c, s, d, id, requester, Works, true);
    DeleteLeaves(s, d, id, Works, true);
  }
}
