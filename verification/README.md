# Document server: caches, responses and blobs

A verified model of the parts of the document server in which several things happen at once: one
response shared by a handler and a deadline, a response cache shared by all requests, and blobs
shared by uploads, deletions and cleanup workers. `dafny verify dfyconfig.toml` checks it all.

**One response** (`ObservedResponse`, `ObservedResponseSteps`, `ObservedResponseTheorems`, `ObservedResponsePanics`,
`ObservedResponseAbandoned`, `ObservedResponseAnswers`, `ObservedResponseDeadline`). The handler
goroutine, the watchdog of `serveHTTP` and the deadline take turns in any order. A step is one read or
compare-and-swap of the state, one lock, one call of the real writer. The log is what reached the wire, and
`ObservedResponseAnswers` tells it from the handler's operations alone, read in order as if nobody else ran.

**The cache as a data structure** (`LinkedList`, `CacheModel`, `CacheRetention`, `Memory`). `Memory` is a class over a real
linked list, a map and a byte counter, whose entries hold mutable arrays. Every method is proved to do to
`Contents()` what a function of `CacheModel` does to a sequence of items, and a whole run of those functions is
proved to refine a timed history that has no order and no bounds, and to keep what was used last.

**The cache as shared by requests** (`Coherence`, `CoherenceTheorems`, `CoherenceSizes`, `CoherenceMonotone`,
`CoherenceLimits`, `CoherenceReuse`). Any number of lists, reads, uploads and deletes around a growing history of database states, the
epoch counter, a cache that may lose, shorten or refuse an entry at any moment, and one single-flight load per key.
`CoherenceSizes` says by its size what the cache keeps of a list.

**The names of cached answers** (`CacheKeys`, `DocumentLists`): the quoted keys, the queries they stand for, and what
those queries select from a table.

**File answers** (`FileReads`, `FileAnswers`): HEAD and GET of a file over `Memory`, with a blob streamed in chunks of
any size, and with what the blob protocol below says of the blob that a read opens.

**Blobs** (`Outbox`, `OutboxSteps`, `OutboxTheorems`, `OutboxLeases`, `OutboxLeaseLimits`, `OutboxConverges`,
`OutboxQueue`, `OutboxRetries`). Every transaction and
every blob operation is a step that may fail; a failed removal may still have removed the blob; every request and
worker may die between two steps. `DocumentService` and `CleanupWorker` are the code's own sequences of calls,
as classes and loops, each proved to be a run of that protocol. `CleanupSchedule` has the lease and
backoff arithmetic on 64-bit durations, `FileStorage` the directory behind the blobs, `StorageKeys` the names it is given, and `StorageSteps` shows that a
whole `Put` or `Delete` of the directory is one step of the protocol.

**Grants** (`Grants`): from the upload's list of logins to the rows of the grant table.

## What the code does not promise

These were found false of the code, and are stated as they are.

- A handler panics in time, and the deadline fires before the 500 answer is written
  (internal/httptransport/handler.go:183-198): the client gets the 500 headers with status 500, or even status 200,
  and no body. `PanicAnswer` says which, both ways, by whether the deadline fires before the answer's `WriteHeader` and
  its `Write` look at it; `LatePanicAnswers200` is a run that ends so.
- Lists under one cache key can go back in time. A HEAD request leaves a list without its body; an upload makes the list
  longer, so that its Content-Length has one digit more; a GET loads it, and the cache refuses the new entry for that
  digit and keeps the old one (internal/cache/cache.go:83-85), which a later HEAD gets. `ListsOfOneKeyAdvanceIff` gives
  the condition both ways, `ListsGoBackExample` an input, and `NeverCrosses` what a configuration needs: a budget that
  takes the headers of the longest list, or not even those of the shortest.
- A `Set` whose key, header and tags alone exceed the byte budget is refused and leaves the older entry in place
  (internal/cache/cache.go:83-85), so `Get` answers the last *accepted* `Set`. `OnlyLastSetServed` gives the condition
  both ways, `RefusedSetExample` an input.
- A GET that joins a HEAD-led load can be answered without a body (internal/httptransport/response_cache.go:47-50):
  `GetWithoutBody` is a run, `JoinedGetsLoseBodyIff` the condition at the re-check, both ways, for all who join.
- A batch's lease is cut off at the longest duration (internal/document/cleanup_worker.go:88-92), which is shorter than a
  batch of that many slow tasks: then two workers can be at one task, both in time. `LeasesExcludeIff` gives the condition
  on the configuration, both ways.
- The repository drops empty logins and the upload does not, so its second pass is the identity exactly when no grantee
  other than the owner is the empty login: `SecondPassIdentity`.
- `WriteHeader` never finds the response streaming without a header written, so its last branch
  (internal/httptransport/handler.go:458-465) is unreachable; the invariant `CallInv` contains this.

## Assumptions

Storage keys and document ids are new random values. A transaction that reports an error has not committed. Workers
and database read one clock, and claiming a batch takes no time; a task's time runs from the end of the task before it
(or from the claim) to its own end, and is below the operation's timeout. One process serves all requests, since the
epoch and the cache are a process's own; cleanup workers may run in several. Each method of `Memory` is one step: it
holds the mutex, but for what `Set` does before it takes the lock, which reads its arguments and the clock only.
Integers other than durations are unbounded.

## Model

| member | source | states |
|---|---|---|
| ObservedResponseSteps.RunKeeps | internal/httptransport/handler.go:142-212 | every interleaving of handler, watchdog and deadline keeps the invariant on lock, state, calls, status, buffer and wire |
| ObservedResponseTheorems.ServedExactlyOnce | internal/httptransport/handler.go:142-212 | when `serveHTTP` returns the header was committed exactly once, and the wire holds a status line with a body wherever one is allowed, exactly the 503 answer, or a prefix of what was streamed; HEAD emits no byte |
| ObservedResponseTheorems.StreamIsNeverAppendedTo | internal/httptransport/handler.go:565-590 | after streaming began the wire is never given the 503 or 500 answer, and it has all that was streamed if at the return the deadline has not won |
| ObservedResponseTheorems.SilentAfterReturn | internal/httptransport/handler.go:449-501 | a handler still running after `serveHTTP` returned reaches the real writer no more |
| ObservedResponseTheorems.FinishedMeansComplete | internal/httptransport/handler.go:525-546 | a committed response of a handler that did not panic is all that the handler produced, and with a timeout set its context was never seen done |
| ObservedResponseAnswers.FinishedAnswer | internal/httptransport/handler.go:525-546 | the committed answer is told by the handler's operations alone: the first status, the last headers and all the bytes in order; where a status allows a body the length is added if the handler gave none; 1xx, 204 and 304 get neither length nor body, and HEAD no body |
| ObservedResponseAnswers.StreamedAnswer | internal/httptransport/handler.go:503-523 | a stream opens with the first status and the last headers asked for up to the first call that asks for streaming, and then has the written bytes in order, all of them if the deadline has not won |
| ObservedResponseDeadline.NothingAfterDeadline | internal/httptransport/handler.go:449-516 | once the deadline has fired, and the call that had looked at it before is over, nothing that the handler does starts a stream or adds a byte to one |
| ObservedResponseDeadline.NothingLostWithoutTimeout | internal/httptransport/handler.go:152-156 | without a processing timeout there is no 503 and nothing is ignored, even when the context is done |
| ObservedResponseDeadline.FlushesArrive | internal/httptransport/handler.go:494-501 | while the stream is not timed out, every flush that the handler asked for has reached the client, but for one still running |
| ObservedResponseDeadline.ReturnCancels | internal/httptransport/handler.go:200-212 | with a processing timeout, the handler's context is done when `serveHTTP` returns |
| ObservedResponseAbandoned.GivenUpAnswers503 | internal/httptransport/response_cache.go:58-61 | with a processing timeout, a handler that saw its context done and did not stream is answered 503, whatever it writes |
| ObservedResponseAbandoned.EmptyEntryNeverSent | internal/httptransport/response_cache.go:101-111 | the empty entry of a load that was given up, which would print as 200, never reaches the client |
| ObservedResponsePanics.PanicAnswer | internal/httptransport/handler.go:178-199 | a panic before streaming gets the whole 500 text if and only if the deadline had not fired when the answer's `Write` looked at it, and status 500 if and only if it had not when its `WriteHeader` did |
| ObservedResponsePanics.PanicInTimeAnswers500 | internal/httptransport/handler.go:178-199 | the whole 500 answer when the deadline does not fire before the end |
| ObservedResponseTheorems.LatePanicAnswers200 | internal/httptransport/handler.go:555-563 | a run in which a panic is answered 200 with no body |
| ObservedResponseTheorems.NeverStuck | internal/httptransport/handler.go:142-212 | `serveHTTP` waits for nothing but a running handler or a mutex that the handler can release |
| LinkedList.List.MoveToFront | internal/cache/cache.go:65 | the element goes to the front, the others keep their order |
| LinkedList.List.Remove | internal/cache/cache.go:165 | exactly that element leaves the list |
| Memory.CloneEntry | internal/cache/cache.go:191-200 | the copy says the same and shares no array |
| Memory.SizeOf | internal/cache/cache.go:177-189 | the running sum is the entry's size, in whatever order the header is visited |
| Memory.Memory.Get | internal/cache/cache.go:50-67 | a miss, or a fresh deep copy of the unexpired entry, which becomes the most recent; an expired one leaves |
| Memory.Memory.Set | internal/cache/cache.go:69-96 | new contents: the kept entry in front of the others without its key, cut from the back to the bounds; or unchanged when refused |
| Memory.Memory.Delete | internal/cache/cache.go:98-107 | exactly the key's item leaves |
| Memory.Memory.Invalidate | internal/cache/cache.go:109-126 | the back-to-front walk leaves exactly the items without a wanted tag, in order |
| Memory.Memory.Close | internal/cache/cache.go:149-156 | nothing is left |
| Memory.Memory.Stats | internal/cache/cache.go:129-133 | the counter is the sum of the sizes, and both bounds hold |
| Memory.Memory.EntryFits | internal/cache/cache.go:138-146 | true exactly when metadata and body together fit |
| Memory.CallerWrites | internal/cache/cache.go:73 | writing to arrays that the cache does not own changes nothing in it |
| Memory.OverwrittenAnswer | internal/cache/cache.go:66 | an answer overwritten by its caller leaves the cached entry as it was |
| CacheModel.HeaderBytesAnyOrder | internal/cache/cache.go:179-184 | a header's size does not depend on the map's order |
| CacheModel.EvictKeepsLongestPrefix | internal/cache/cache.go:93-95 | eviction keeps exactly the longest most-recent prefix within both bounds |
| CacheModel.SetKeepsWellFormed | internal/cache/cache.go:69-96 | one item a key, true sizes and both bounds after every `Set` |
| CacheModel.SetFacts | internal/cache/cache.go:87-95 | the entry just inserted is in front and not evicted, and only other keys' items follow it |
| CacheModel.UntaggedFacts | internal/cache/cache.go:109-126 | what invalidation leaves: exactly the untagged items, in their order |
| CacheModel.RunRefines | internal/cache/cache.go:50-166 | after any run every item is the last accepted `Set` of its key, and the cache is well formed |
| CacheModel.AnswerIsLastAccepted | internal/cache/cache.go:50-67 | an answer is the last accepted `Set`, unexpired and not deleted, invalidated or closed since |
| CacheModel.AcceptedSetIsServed | internal/cache/cache.go:69-96 | an accepted `Set` is served until it expires |
| CacheModel.OnlyLastSetServed | internal/cache/cache.go:83-85 | the last `Set` alone is served if and only if it was accepted or nothing was served before |
| CacheModel.RefusedSetExample | internal/cache/cache.go:83-85 | a refused `Set` after which the older entry is served |
| CacheModel.ReplacementAccepted | internal/cache/cache.go:76-85 | an entry with the header and tags of the one it replaces is never refused |
| CacheModel.BodyFitsIffKept | internal/cache/cache.go:138-146 | `EntryFits` holds if and only if an otherwise accepted `Set` keeps the body |
| CacheModel.AcceptedIff | internal/cache/cache.go:69-86 | a `Set` is accepted if and only if it is not cancelled, key, ttl and bounds are positive, and key, header and tags fit, whatever its body; what it keeps differs only in the time stamp and a body that is too much |
| CacheRetention.GetOrder | internal/cache/cache.go:50-67 | after a `Get` the item is first and the others keep their order; an expired one leaves alone |
| CacheRetention.DeleteOrder | internal/cache/cache.go:98-107 | a `Delete` takes the key's item and leaves the others in their order |
| CacheRetention.RecentlyUsedIsServed | internal/cache/cache.go:50-166 | after any run, what an accepted `Set` stored or a `Get` hit is answered until it expires, whatever else is set, read, deleted or invalidated, as long as it and the items used since fit both bounds |
| Coherence.RunKeeps | internal/httptransport/response_cache.go:42-71 | every run keeps the invariant on cache entries, flights, keys and answers |
| CoherenceTheorems.ListReadsWrites | internal/httptransport/upload_handler.go:95-115 | a list that begins after an upload or delete reported success shows a database state that contains it, be it a hit, a leader or a joiner, and even when nothing is invalidated |
| CoherenceTheorems.DocumentLinearizes | internal/httptransport/read_handler.go:54-73 | every 200, 403 and 404 is what the database said at a moment inside the request; a 200 carries that document |
| Coherence.WaiterOk | internal/httptransport/response_cache.go:58-69 | the result of a load led by another request answers the joiner too, also a 404 |
| CoherenceMonotone.ListsAdvance | internal/httptransport/response_cache.go:46-57 | where no commit takes the list past what the cache accepts, a list that begins after another of the same key was answered never shows an older state |
| CoherenceLimits.ListsOfOneKeyAdvanceIff | internal/cache/cache.go:69-86 | lists of a key never go back if and only if no commit takes the list past what the cache accepts without a body |
| CoherenceLimits.RefusedOverHeld | internal/cache/cache.go:83-85 | the run in which a newer list was answered while the cache still holds the older one |
| CoherenceLimits.ListsGoBackExample | internal/cache/cache.go:83-85 | sizes with which lists of every key can go back |
| CoherenceLimits.NeverCrosses | internal/httptransport/response.go:46-57 | it is enough that the budget takes the headers of the longest list, or not those of the shortest |
| CoherenceSizes.ListStoreIsKept | internal/cache/cache.go:69-86 | what `Set` keeps of a list, told by the size of its headers and its body |
| CoherenceSizes.StoreOfIsKept | internal/cache/cache.go:69-86 | the store that a run assumes for a list of given sizes is what `Set` does to an entry of those sizes |
| CoherenceReuse.LoadedListIsHit | internal/httptransport/response_cache.go:42-57 | a list that was loaded and kept whole answers every later request for it in its epoch without a load, until the cache loses it |
| CoherenceReuse.HeadIsHit | internal/httptransport/read_handler.go:98-117 | whatever request or load put an answer under a key, a later HEAD of that key is a hit, until the cache loses it |
| CoherenceReuse.BodyOnlyFromWhole | internal/httptransport/read_handler.go:145-158 | an answer with its body comes into the cache only from a load that succeeded or a file stream that got through |
| CoherenceReuse.OneLoadAtATime | internal/httptransport/response_cache.go:46-57 | however many requests miss a key, it is loaded again only after the last load was delivered to all who waited |
| CoherenceReuse.SoundRunsAnswer | internal/httptransport/response_cache.go:42-71 | where no request gives up, no load fails and no stream breaks, every answered list is a page, and every answered document is its content, 403 or 404 as the database has it at a moment of the request |
| CoherenceLimits.GetWithoutBody | internal/httptransport/response_cache.go:47-50 | wherever a list fits only without its body, a run in which a GET is answered without one |
| CoherenceLimits.JoinedGetsLoseBodyIff | internal/httptransport/response_cache.go:47-69 | whatever happens between a re-check and the delivery, the GETs it answers lose their body if and only if a HEAD led and the re-check found an entry without one |
| CacheKeys.EscapeAllThen | internal/httptransport/response_cache.go:121-127 | a quoted text ends at its closing quote and tells what was quoted |
| CacheKeys.ListKeyInjective | internal/httptransport/response_cache.go:121-123 | epoch, user, owner, filter key, normalized value and limit can be read back from a list key |
| CacheKeys.DocumentKeyInjective | internal/httptransport/response_cache.go:125-127 | epoch, id and version can be read back from a document key |
| CacheKeys.KeysDiffer | internal/httptransport/response_cache.go:121-127 | list keys and document keys never collide |
| CacheKeys.SameKeySameQuery | internal/repository/postgres/documents.go:227-272 | two valid list requests with one key give the database the same filter, parameter and limit |
| CacheKeys.ListKeysEqualIff | internal/httptransport/list_handler.go:143-159 | valid list requests share a key if and only if they agree in epoch, user, owner, filter, value and limit, where ids and instants are compared as parsed |
| CacheKeys.ValidIffBuilds | internal/httptransport/list_handler.go:123-141 | the handler lets through exactly the filters that the repository can build |
| CacheKeys.DigitsSayIt | internal/httptransport/handler.go:536-538 | the printed number is the number in base ten, without a leading zero |
| DocumentLists.FilterSelects | internal/repository/postgres/documents.go:227-272 | the condition that is built selects exactly the rows whose own id, name, mime type, flag or second of creation is the requested value, and without a key all rows |
| DocumentLists.ListsWanted | internal/repository/postgres/documents.go:129-180 | a list has only rows of the asked owner that the requester may see and that meet the filter, and it has all of them, or as many as the limit, and then the missing ones come after the listed ones |
| DocumentLists.OneAnswer | internal/repository/postgres/documents.go:157-163 | the order leaves one answer for a table |
| DocumentLists.SameKeySameAnswer | internal/httptransport/response_cache.go:121-123 | two valid list requests under one key have the same answer from any table |
| DocumentLists.ListedIsFoundAgain | internal/httptransport/list_handler.go:64-85 | asking for any field of a listed document with the value that the response printed lists it again |
| FileReads.BoundedCapture.Write | internal/httptransport/read_handler.go:188-200 | the buffer is the first `limit` bytes of all that was given, and overflow means there were more |
| FileReads.CopyChunks | internal/httptransport/read_handler.go:236-251 | the client gets the stream up to the failing read or write, which may fail inside a chunk; the capture the whole chunks before it |
| FileReads.SentIsPrefix | internal/httptransport/read_handler.go:236-251 | what a client gets of a broken stream is a prefix of the blob: the whole chunks before the failure and the part of the next that got through |
| FileReads.ReadFile | internal/httptransport/read_handler.go:98-160 | the answer and the new cache contents of every file request |
| FileReads.KeptBodyIsWholeBlob | internal/httptransport/read_handler.go:140-160 | a cached body is the whole declared blob, and `Set` does keep it |
| FileReads.HitAnswers | internal/httptransport/read_handler.go:98-124 | an unexpired entry, with a body if the request is a GET, answers it, and nothing is set |
| FileReads.UnopenedAnswer | internal/httptransport/read_handler.go:126-132 | a GET that finds no body in the cache and cannot open the blob answers the error, and keeps nothing |
| FileReads.WholeReadIsKept | internal/httptransport/read_handler.go:138-160 | a GET whose stream was whole and fits need not be opened again: until it expires the same blob and headers are answered from the cache |
| FileReads.MetadataIsKept | internal/httptransport/read_handler.go:102-147 | a HEAD, or a GET whose body does not fit, leaves the metadata for later HEADs |
| FileReads.EventsKeepGenuine | internal/httptransport/read_handler.go:98-171 | after any run a cached entry of a file has its headers and its whole blob, or none of it |
| FileReads.HeadAndGetAgree | internal/httptransport/read_handler.go:98-171 | HEAD and GET of a file have the same status and headers, each a hit or a miss (section 9.3.2 of RFC 9110) |
| FileAnswers.HeadAndGetAgreeOverStore | internal/document/read.go:12-33 | the same over the blob protocol: HEAD's length from the metadata and GET's from the opened blob agree, and a GET carries the uploaded blob |
| FileAnswers.UnopenedOverStore | internal/httptransport/read_handler.go:119-132 | from any reachable state, a GET that cannot open the blob answers the whole uploaded blob from the cache, or the error |
| OutboxSteps.RunKeeps | internal/document/cleanup_worker.go:84-120 | the invariant at every state of every run, with failures and deaths between any two steps |
| OutboxTheorems.LiveBlobs | internal/document/upload.go:128-159 | each live file's blob exists, with its recorded size and its uploaded content |
| OutboxTheorems.LiveKeysApart | internal/repository/postgres/documents.go:182-225 | live keys are distinct, and no task, upload, deletion or worker has one |
| OutboxTheorems.EveryBlobPlaced | internal/document/upload.go:128-159 | every blob belongs to a live file, a pending task, a running upload or an abandoned one |
| OutboxTheorems.AbandonedOnlyByUploads | internal/document/upload.go:137-158 | a blob is abandoned only where its upload's own removal failed or the upload died |
| OutboxTheorems.OnlyOwnerDeletes | internal/repository/postgres/documents.go:182-213 | in no step does a document go but by a deletion that its owner asks for |
| OutboxTheorems.LiveSizeBounded | internal/document/upload.go:134-146 | no document is larger than the limit |
| OutboxTheorems.TaskOutlivesBlob | internal/document/cleanup_worker.go:109-120 | a task's row goes only when its blob is gone, and the blob never comes back |
| OutboxTheorems.DeletedBlobNotForgotten | internal/document/delete.go:16-49 | the blob of a deleted document is gone or has a pending task |
| OutboxTheorems.OpenedLater | internal/document/read.go:12-33 | a reader that opens a blob after reading the metadata finds the uploaded content of the recorded size, or nothing if the document was deleted |
| OutboxLeases.LeasesExclude | internal/document/cleanup_worker.go:84-107 | no two workers are at one task or one blob, and no task of a worker's batch is due before it is done |
| OutboxLeaseLimits.LeasesExcludeIff | internal/document/cleanup_worker.go:84-107 | timely workers are never at one task if and only if a batch whose tasks all take less than the timeout ends before its lease |
| OutboxLeases.WithinLease | internal/document/cleanup_worker.go:84-107 | at every task of a timely batch the lease is still running |
| OutboxConverges.RoundGone | internal/document/cleanup_worker.go:84-120 | all that one worker claims and does not fail is gone when it is done, whatever others claim, fail or delete meanwhile |
| OutboxConverges.RoundRemoves | internal/document/cleanup_worker.go:84-120 | of the tasks pending at its start a round removes as many as the worker may claim |
| OutboxConverges.QuietCleanupConverges | internal/document/cleanup_worker.go:59-80 | if no document is deleted, after enough rounds the table is empty and no blob of a deleted document is left, even if other workers fail and die |
| OutboxQueue.RoundServesHead | internal/repository/postgres/blob_cleanup.go:20-36 | when nothing fails, a round serves the oldest tasks, new deletions queue behind them, and what is left is due again |
| OutboxQueue.CleanupConverges | internal/document/cleanup_worker.go:59-80 | when every lease and delay has run out once and nothing fails any more, after enough batches every task that was pending and every blob of a document deleted by then are gone, however many documents are deleted meanwhile |
| OutboxQueue.LoneWorkerConverges | internal/document/cleanup_worker.go:59-107 | the same for a single worker, with every lease and delay run out once at the start and nothing asked of the states between its batches |
| OutboxQueue.DueMeansUnheld | internal/document/cleanup_worker.go:84-92 | while workers are timely, a task that is due is in nobody's hands |
| OutboxRetries.AttemptsAreClaims | internal/repository/postgres/blob_cleanup.go:28-34 | in every run, by any number of workers, a task's attempts are the number of times it was claimed |
| OutboxRetries.ClaimedAttempts | internal/repository/postgres/blob_cleanup.go:28-34 | what a worker computes its delay from is that number at its own claim |
| DocumentService.DocumentTable.Delete | internal/repository/postgres/documents.go:190-220 | the row goes and the task comes in one transaction, or neither; it succeeds if and only if the row is there and the requester owns it, and is `Forbidden` or `NotFound` otherwise with nothing changed |
| DocumentService.Service.Delete | internal/document/delete.go:16-49 | commit, one epoch bump, blob removal and confirmation; an error of the hook is reported in the end and stops nothing, a later one stops the rest |
| DocumentService.DeleteRuns | internal/document/delete.go:16-49 | a deletion is a run of the blob protocol |
| DocumentService.SuccessfulDeleteLeavesNothing | internal/document/delete.go:16-49 | after a successful deletion neither row, blob nor task is left |
| DocumentService.Service.Upload | internal/document/upload.go:128-159 | the document with its whole blob, or neither but for the blob that a failed removal leaves |
| DocumentService.UploadRuns | internal/document/upload.go:128-159 | an upload with its compensation is a run of the blob protocol |
| CleanupWorker.TaskTable.Claim | internal/repository/postgres/blob_cleanup.go:18-48 | the oldest due rows up to the limit are leased and counted, the others unchanged |
| CleanupWorker.Worker.ClaimBatch | internal/document/cleanup_worker.go:84-96 | the oldest due rows, each counted and leased until the clock plus the whole batch's lease |
| CleanupWorker.TaskTable.Complete | internal/repository/postgres/blob_cleanup.go:50-59 | exactly that row goes |
| CleanupWorker.TaskTable.CompleteByStorageKey | internal/repository/postgres/blob_cleanup.go:61-70 | exactly the rows of that key go |
| CleanupWorker.TaskTable.Retry | internal/repository/postgres/blob_cleanup.go:72-84 | exactly that row is rescheduled, if it is there |
| CleanupWorker.Worker.Process | internal/document/cleanup_worker.go:109-120 | one task: the blob goes and then its row, or the row waits for its backoff, in every case of failure and cancellation; blob store, rows and clock afterwards |
| CleanupWorker.Worker.ProcessBatch | internal/document/cleanup_worker.go:84-107 | a batch is a run of the blob protocol that begins with a claim of the oldest due tasks, without faults nothing in it fails; it fails if and only if some row could not be updated or the worker was stopped, after which no further task is taken up |
| CleanupWorker.FaultlessBatchIsRound | internal/document/cleanup_worker.go:84-107 | where every task is due, a batch without faults is a round and removes as many tasks as it may claim |
| CleanupSchedule.BackoffDelay | internal/document/cleanup_worker.go:122-137 | min(initial * 2^(max(attempts, 1) - 1), max), with no overflow on the way |
| CleanupSchedule.BackoffMonotone | internal/document/cleanup_worker.go:122-137 | the backoff never shrinks and stays between initial and longest delay |
| CleanupSchedule.BackoffDoubles | internal/document/cleanup_worker.go:122-137 | the first delay is the initial one, and each further one twice the one before, up to the longest |
| CleanupSchedule.LeaseDuration | internal/document/cleanup_worker.go:86-92 | min(batch * timeout, 2^63 - 1), with no overflow on the way |
| CleanupSchedule.LeaseBounds | internal/document/cleanup_worker.go:86-92 | a lease is positive, no longer than batch * timeout nor 2^63 - 1, and one of the two |
| CleanupSchedule.LeaseCoversBatch | internal/document/cleanup_worker.go:86-92 | every task of a batch ends within the lease if and only if the lease was not cut off |
| CleanupSchedule.LeaseLastsIff | internal/document/cleanup_worker.go:86-92 | when that is, told by batch size and timeout |
| FileStorage.CheckKey | internal/blob/filesystem.go:126-138 | accepts exactly the nonempty names of letters, digits, dashes and underscores |
| FileStorage.TempNameRejected | internal/blob/filesystem.go:126-138 | no temporary file's name is a valid key |
| StorageKeys.NewKeyIsValid | internal/document/upload.go:214-220 | every generated storage key is one that the store accepts; it has 43 characters |
| StorageKeys.NewKeysDiffer | internal/document/upload.go:214-220 | two generated keys are the same only if the same bytes were drawn |
| FileStorage.RunKeeps | internal/blob/filesystem.go:49-85 | every run of puts and deletes keeps the invariant on names and files |
| FileStorage.StoredIsWhole | internal/blob/filesystem.go:49-85 | a stored key holds the complete source of one put of that key which did not fail |
| FileStorage.FailedPutIsNowhere | internal/blob/filesystem.go:49-85 | a put that returned an error is under no key |
| FileStorage.NothingLeftBehind | internal/blob/filesystem.go:49-85 | a put that returned, with success or not, left its temporary file behind only if removing it failed |
| FileStorage.StoredStays | internal/blob/filesystem.go:79-83 | a stored file never changes, and its key keeps it until deleted |
| FileStorage.SecondPutFails | internal/blob/filesystem.go:79-83 | a second put of a key fails and replaces nothing |
| StorageSteps.StepSeen | internal/blob/filesystem.go:49-124 | in any interleaving, seen through valid keys a successful link adds a whole source, a delete takes its key away, and nothing else can be seen |
| StorageSteps.PutIsStep | internal/blob/filesystem.go:49-85 | a whole put of a new key is one `Put` step of the blob protocol, stored if and only if it returned a size, or that step and the upload's death |
| StorageSteps.DeleteIsRemoval | internal/blob/filesystem.go:109-124 | a delete is the protocol's removal, which finds the blob or not |
| Grants.UniqueGrants | internal/document/upload.go:182-196 | first occurrences without the owner |
| Grants.UniqueNonOwnerLogins | internal/repository/postgres/documents.go:340-354 | first occurrences without the owner and empty logins |
| Grants.SameLoginSet | internal/document/upload.go:198-212 | equal lengths and one inclusion |
| Grants.UniquesFacts | internal/document/upload.go:182-196 | no duplicates, exactly the input's logins but those dropped, in order of first occurrence |
| Grants.SameLoginSetIsEquality | internal/document/upload.go:198-212 | without duplicates the one-sided check is set equality |
| Grants.GrantsEndToEnd | internal/repository/postgres/documents.go:57-85 | an upload goes on if and only if every grantee exists; the second pass changes nothing; the row count is right if and only if they still exist |
| Grants.SecondPassIdentity | internal/repository/postgres/documents.go:340-354 | when the second pass is the identity |

## Left out

- HTTP parsing, multipart bodies, MIME types, JSON and header text: library behaviour; a file name's header text is a field of the metadata.
- SQL text, connections, error classification and ambiguous commits: a statement or transaction is one step.
- Hashing, tokens, UUID and time parsing, and which characters are printable: parameters of `CacheKeys.Library`; different instants are assumed to print differently, and a printed id to be read back. How names sort is a parameter of `DocumentLists.Printer`.
- Authentication, sessions, migrations, configuration and the route table: guard-by-guard checks that would only add easy members.
- Logging, metrics and the logged status; the logged status need not be the one sent.
- Writes to the socket that fail in `ObservedResponse`, informational (1xx) statuses, and header maps captured before a state change. The two fixed JSON answers are fields of the configuration.
- CoherenceTheorems.DocumentLinearizes: of a body whose stream broke it says whose prefix it is; how much got through is in `FileReads.CopyChunks`.
- Epoch wrap-around, and a file size limit equal to the largest integer.
- The handler's methods and `cachedResponse` are modelled as steps on values rather than as classes, because their callers interleave inside them; the mutex is a field of the state.
- Coherence.RunKeeps: a cached list of an unknown owner login, and any other status, is one answer `Failed`; the login lookup before a list query is not a step of its own, because a login never changes its user.
- Coherence: `FileFinish` and `FileBreak` cache and answer in one step, though the code streams before or after `Set`; the entries under one document key agree whichever comes first.
- CoherenceMonotone.ListsAdvance: nothing is claimed between lists of different epochs, because the key is part of the promise; a list's bytes are a function of the query and the database state, and no shorter than an empty list's.
- OutboxQueue.CleanupConverges: with several workers each batch begins when no pending task is in a worker's hands (`DueMeansUnheld`); a worker that fails or dies for ever may push an old task behind new ones each time, so none does once the batches have begun. Rows skipped because another statement has them locked are not modelled in a round's claim.
- FileReads.HeadAndGetAgree: that the opened blob has the recorded size and content is required here and discharged in `FileAnswers.HeadAndGetAgreeOverStore`; the X-Cache header is not part of the answer.
- DocumentService.Service.Upload: validation of names and shapes before the blob is stored is not modelled; documents without a file never touch the blob store.
- CleanupWorker: the polling loop `Run` around `ProcessBatch` and its timer.
- FileStorage: permissions, fsync, and what a crash of the machine does to unsynced data.
