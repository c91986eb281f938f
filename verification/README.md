# Verified model of the event gallery's durable upload path

Guests upload photos and videos through a tus server. From the moment an upload
is admitted, one row of the `upload_jobs` table says who may touch it. Leased
workers copy it into permanent storage and publish it, duplicates resolve to an
existing media row, rejected or cancelled uploads are discarded, an
administrator may purge published items, and any of this may be cut short by a
crash. The question behind most of the code is whether the only copy of a
guest's file can be deleted too early. This project answers it for every run,
and proves the components the answer rests on.

## How it is built

**The ingest queue** is one transition system. `UploadJobs` holds one function
for each SQL statement; `Store` is the same store as an object, each method
proved to be the transition of the same name. `World` puts the statements, the
file operations and the looks at the outside side by side as single steps of any
number of concurrent actors: tus hooks and writes, public cancellations,
durability barriers, the janitor, workers (including stale ones whose lease has
expired), the reconciler, moderation, purges, time, crashes and restarts.
Whatever an actor has learnt but not yet acted on sits in its program counter,
so any other step may come between a look and the act. `Invariant` states what
every reachable state satisfies, `Frames`, `TransferSteps`, `ProcessingSteps`,
`WorkerSteps`, `OtherSteps` and `IngestSafety` prove that every step keeps it,
`History` says what no step ever takes back, and `IngestTheorems`,
`GalleryTheorems` and `Verdicts` draw the conclusions for whole runs. `Judgement`
carries what a rejection knows
about the bytes, `FinalRefusals` says which refusals are the last word, and
`Reachability` shows that the runs they speak
about include an upload's whole way from admission to completion. `BarrierRuns`
shows that the barrier procedure, between any steps of anyone else, performs the
barrier's steps of this system, and returns nil exactly when it acknowledges.

**Procedures** whose own branching matters are imperative, against an outside
that may answer anything: `Worker` (claims and processing attempts), `SourceRemoval`
(cleanup and discard), `Barrier` (the durability barrier), `Handlers` (tus proxy,
hooks, janitor), `Reconciliation` and `Adoption` (the reconciler), `Registry` (single-flight
operations), `Purge` (permanent deletion, with the machine free to stop after any
primitive operation) and `DurableCopy` (the copy into permanent storage, with
other attempts interleaved). Each of the first five records what it asked and was
told, and is proved to have concluded exactly what that supports.

**Algorithms**: `Boxes`, `ItemLocation` and `HeifExif` (finding the Exif payload
of a HEIF still, ISO/IEC 14496-12 sections 4.2, 8.11.3 and 8.11.6, ISO/IEC
23008-12 Annex A), `GalleryPages` (keyset pagination), and `TusBattle` and
`TusClient` (resumable uploads against a tus 1.0.0 server that keeps any prefix
of a request and loses any reply).

`dafny verify dfyconfig.toml` checks everything.

## Assumptions

- SQL statements and transactions are atomic and their outcome is known to the
  caller; `sha256` is unique on media rows; a row's two lease columns are set
  and cleared together.
- Lease tokens, upload ids and media ids are never generated twice.
- SHA-256 is injective, so a digest is represented by its content. Content
  sniffing is a fixed predicate on contents. An original's file name is its
  media id with an extension that content and upload name determine.
- tusd appends to an incomplete source and never rewrites a complete one. A file
  that comes back for a finished upload (a mount that returns) is the one that
  was removed.
- A crash leaves flushed files and synced directory entries as they were. An
  unflushed source may lose any suffix, an unsynced rename may be undone. In
  `Purge`, directory operations reach the disk in the order they were issued.
- A claim returns within ReconcileInterval of the clock reading it used.
  `OverlapNeedsASlowClaim` shows that, on one clock, the exclusion of live attempts
  needs exactly this. Leases are read off the wall clock and attempt deadlines off
  a monotonic one; they are taken to advance together, so a forward step of the
  wall clock during an attempt is excluded. The start-up requeue runs before any
  worker, or not at all.
- No attempt, barrier or janitor call outlives the retention of the row it works
  on. Claims are about uploads admitted by pre-create or adopted with a row.
- A tus server has finished with a request before the client's next one is
  answered, and an Upload-Offset header it sends is true. What goes wrong during
  one upload is a finite script of partial writes, lost replies and refusals.
- A look at the upload directory may fail to see a file that is there
  (`UploadPathsExist` takes every failed stat for absence), and a file may come to be
  there under an id that has no row or one closed as unobservable.
- Reconciler passes follow each other, so the stale uploads one pass listed are
  forgotten when the next one lists, or at a crash.

## What was found

- A 204 without Upload-Offset is taken by the wedding client as a full
  acknowledgement (`loadtest/wedding/tusclient.py:203`). tus 1.0.0 demands the
  header; where it may be missing, every upload can end with `transport_ok` and
  bytes missing (`TusClient.TransportOkIsExactIff`).
- `itemExtent` bounds each of two parts by 2^62 and adds them: the sum wraps to
  a negative offset exactly when both are 2^62 (`ItemLocation.OffsetIsExactUnlessItWraps`),
  which the caller refuses. Its own size check can also wrap; the failing read
  is then what refuses the file, and the result is still a range of the file.
- `ErrDurabilityFinal` is documented as a refusal that can only repeat
  (`backend/internal/ingest/durability.go:25-29`). For the row that was read that
  is so (`Verdicts.RefusalsAreFinal`), unless the refusal came from the stat of the
  source, which also covers a passing I/O fault
  (`FinalRefusals.StatRefusalsCanBeLifted`). For the upload id it is so, until the
  row expires, exactly when the row is condemned for another reason than
  unobservable bytes, or cancelled and not in a listing still being worked through,
  or a file that can never be right is stuck under that id
  (`FinalRefusals.RefusalIsFinalIff`): a missing row, an unobservable one and a
  source that did not fit can all be followed by an adoption that succeeds.
- A guest's DELETE that is recorded between the listing of stale uploads and
  `MarkUnobservable` does not stop the closure, whose statement does not test the
  cancellation (`backend/internal/store/upload_jobs.go:581-592`). The row then ends as
  unobservable instead of cancelled, and if its bytes come back they are adopted and
  committed (`FinalRefusals.CancellationCanBeOvertaken`).

## Model

| member | source | states |
|---|---|---|
| IngestTheorems.NoBytesAreLost | backend/internal/ingest/process.go:134-439 | In every reachable state a durable upload has its exact bytes in its tus source or in the original (live or staged) of the media row it resolved to, unless some earlier purge deleted that row after the job was complete, or the upload is condemned and its bytes are unsupported or not the declared ones. |
| IngestTheorems.OnlyContentIsRejected | backend/internal/ingest/process.go:140-157 | A durable row is condemned only when its promoted bytes are of no supported type or differ from the declared digest, as its reason says; one whose bytes are in order is never condemned. |
| IngestTheorems.RunStaysJudged | backend/internal/ingest/process.go:86-98 | In every run, whatever an attempt is about to reject, and whatever was rejected, are the promoted bytes, with the fault that is given as the reason. |
| IngestTheorems.PromotionIsDurable | backend/internal/ingest/durability.go:181-208 | The commit to pending happens only with the source complete, of the admitted size and flushed, and records exactly those bytes. |
| IngestTheorems.CrashesSparePromotedSources | backend/internal/ingest/durability.go:192-208 | A crash at any moment leaves the source of every pending or processing row as it was, at its admitted size. |
| IngestTheorems.DurableBytesStay | backend/internal/ingest/durability.go:202-208 | The bytes an upload was promoted with are the same in every later state of that row. |
| IngestTheorems.TokensAndClassesAreFenced | backend/internal/store/upload_jobs.go:229-251 | A token on a row is in the stage it was issued for, so published rows stay published with their result, condemned rows stay condemned with their reason, and nothing returns to uploading, although release and finish test only the token. |
| IngestTheorems.DuplicatesNeverDangle | backend/internal/store/upload_jobs.go:554-572 | A job in cleanup that was not reopened names an existing media row of its authoritative content whose original is kept. |
| GalleryTheorems.PublishedOriginalsAreKept | backend/internal/store/purge.go:83-86 | From any state on until the purge of that very row, a media row is there for the same content with its exact original in place or staged, whether or not a job row still points to it. |
| IngestTheorems.RemovalsAreAuthorised | backend/internal/httpapi/tus_proxy.go:286-295 | No terminate or unlink is issued while the row is uploading, pending or processing, even with other steps between the read and the removal. |
| IngestTheorems.OwnedSourcesOnlyGrow | backend/internal/ingest/process.go:346-412 | Apart from those removals and crashes, no step takes a byte from any source. |
| IngestTheorems.ArtifactRemovalSparesMedia | backend/internal/ingest/process.go:300-326 | No cleanup or discard, however stale its ownership check, deletes a file of a committed media row. |
| IngestTheorems.LiveAttemptsExclude | backend/internal/ingest/process.go:28-72 | No two unexpired, unfinished attempts on one job exist in any state of any run. |
| IngestTheorems.OverlapNeedsASlowClaim | backend/internal/ingest/manager.go:106-110 | A second claim can find the row due while the first attempt has time left if and only if the first claim returned later than ReconcileInterval after its reading. |
| IngestTheorems.SuccessExcludesCancellation | backend/internal/store/upload_jobs.go:256-306 | Once EnsureDurable has returned nil, no cancellation, sweep, janitor claim or unobservable closure of that row can succeed. |
| IngestTheorems.CancellationExcludesSuccess | backend/internal/store/upload_jobs.go:169-185 | Once a cancellation is recorded the row is never promoted, worked on or published, and success is never reported for it. |
| IngestTheorems.RunKeepsInv | backend/internal/store/upload_jobs.go:166-628 | Every state of every run, from any empty queue over a consistent gallery, satisfies the global invariant. |
| IngestTheorems.RunSucceeds | backend/internal/store/upload_jobs.go:166-628 | Any two states of a run are related by the two-state monotonicity relation. |
| IngestTheorems.RowEvolves | backend/internal/store/upload_jobs.go:221-251 | Between any two states in which a row is the same incarnation, its size, declared digest, completion and cancellation never change once set, and its class only moves forward. |
| IngestSafety.StepKeeps | backend/internal/ingest/process.go:21-439 | Every step of every actor keeps the invariant. |
| IngestSafety.TransferKeeps | backend/internal/httpapi/tus_hooks.go:152-220 | Admission, file creation, writes, cancellation, sweeps and unobservable closures keep the invariant. |
| IngestSafety.BarrierKeeps | backend/internal/ingest/durability.go:155-237 | Every step of every concurrent barrier keeps the invariant, promotion and its loss included. |
| IngestSafety.JanitorKeeps | backend/internal/httpapi/storage_cleanup.go:233-249 | Claim-then-terminate keeps the invariant at every point between its three operations. |
| IngestSafety.AttemptKeeps | backend/internal/ingest/process.go:58-120 | Claims, failures and silent deaths of attempts keep the invariant. |
| IngestSafety.ProcessingKeeps | backend/internal/ingest/process.go:134-239 | Each operation of prepare-and-publish keeps the invariant, also when a stale attempt performs it. |
| IngestSafety.RemovalKeeps | backend/internal/ingest/process.go:244-439 | Each operation of cleanup and discard keeps the invariant, also when a stale attempt performs it. |
| IngestSafety.OtherKeeps | backend/internal/ingest/recover.go:61-296 | Reconciliation, expiry, moderation, purges, restored mounts, crashes, and restarts with or without a successful requeue keep the invariant. |
| History.StepSucceeds | backend/internal/store/upload_jobs.go:166-628 | No step takes back what History.Succeeds lists: classes, results, reasons, completion, cancellation, promoted bytes, acknowledgements. |
| Reachability.UploadsCanComplete | backend/internal/ingest/process.go:21-439 | For every supported content and every configuration some run of the system takes an upload of it through admission, durability, publication and cleanup to completion, with its original in place and its source gone. |
| Verdicts.VerdictsAreFinal | backend/internal/httpapi/uploads_status.go:81-119 | Once a row is reported published, duplicate, cancelled or failed, it keeps that verdict while it exists. |
| Verdicts.FailureMeansRejection | backend/internal/httpapi/uploads_status.go:104-115 | Failure is reported exactly for content rejections, and cancelled only for uploads never acknowledged. |
| Verdicts.RefusalsAreFinal | backend/internal/ingest/durability.go:170-180 | A row the barrier refuses is refused for as long as it is that row, and never promoted. |
| BarrierRuns.MakeDurableIsPartOfARun | backend/internal/ingest/durability.go:155-237 | An execution of makeDurable with truthful answers, between any steps of any other actors, is part of a run: each of its steps is possible in its turn, reachable states stay reachable, and it returns nil exactly when its last step acknowledges the upload. |
| FinalRefusals.RefusalIsFinalIff | backend/internal/ingest/durability.go:163-190 | From any reachable state no further run, short of the row expiring, can make EnsureDurable succeed for the upload id if and only if its row is condemned for another reason than unobservable bytes, or is cancelled and not in a listing in progress, or an empty or overlong file is stuck under it: any such file if crashes are left out of account, else one on stable storage. |
| FinalRefusals.StatRefusalsCanBeLifted | backend/internal/ingest/durability.go:181-190 | From any reachable state with an uncancelled uploading row whose source can still be the admitted one, some further run without a crash commits that very row. |
| FinalRefusals.CancellationCanBeOvertaken | backend/internal/ingest/recover.go:177-192 | Some reachable state has a recorded cancellation on a row that can still be closed as unobservable, and leads to EnsureDurable succeeding for that id without any crash. |
| FinalRefusals.HopelessForGood | backend/internal/httpapi/tus_proxy.go:286-295 | A decided row stays decided until it expires, a cancelled row that no listing holds can only be decided as cancelled, and a spoilt source stays spoilt until a decision removes it. |
| FinalRefusals.WithdrawnStays | backend/internal/store/upload_jobs.go:308-319 | Whatever step comes, a cancelled row outside a listing in progress stays one or is condemned for a reason other than unobservable bytes. |
| Verdicts.PublicationsNeverCollide | backend/internal/store/upload_jobs.go:535-552 | An attempt that may publish never finds a media row under its own id, so the insert cannot violate the primary key. |
| Backoff.BackoffIsMonotone | backend/internal/ingest/manager.go:257-269 | More failures never wait less, the wait never exceeds the cap and is positive if the cap is. |
| Store.Store.CreateUploadingJob | backend/internal/store/upload_jobs.go:134-151 | Succeeds exactly for a new upload id, an unused media id and a positive size, and then adds just that row. |
| Store.Store.PromoteToPending | backend/internal/store/upload_jobs.go:169-185 | Succeeds exactly on an uploading, uncancelled row, which is then marked durable and due at once. |
| Store.Store.FirstDue | backend/internal/store/upload_jobs.go:201-207 | Finds a due row that no other due row precedes, or that there is none. |
| Store.Store.ClaimNextJob | backend/internal/store/upload_jobs.go:190-219 | Claims the due row with the earliest next attempt, which then carries the token and is due for nobody, in any stage, until the lease has run out; claims nothing only when nothing is due. |
| Store.Store.ReleaseForRetry | backend/internal/store/upload_jobs.go:229-251 | Succeeds exactly for the holder of the token, whatever the status; the row is then due exactly from its next attempt on, has one failure more in the counter named, and keeps its decisions. |
| Store.Store.ClaimUploadingForDiscard | backend/internal/store/upload_jobs.go:256-268 | Succeeds exactly on an uploading row, which can then neither be promoted nor closed as unobservable. |
| Store.Store.RequestCancellation | backend/internal/store/upload_jobs.go:272-284 | Succeeds exactly on an uploading row, which can then not be promoted; the first recorded time is kept. |
| Store.Store.ClaimCancelledForDiscard | backend/internal/store/upload_jobs.go:290-306 | Exactly the cancelled, idle, uploading rows become due for discard, unleased and with a reason; every other row, durable ones above all, is untouched. |
| Store.Store.ListStaleUploading | backend/internal/store/upload_jobs.go:312-336 | Up to the limit, distinct rows that are uploading, idle, never durable and not cancelled; all of them when fewer than the limit come back. |
| Store.Store.FinishJob | backend/internal/store/upload_jobs.go:337-354 | Succeeds exactly for the holder of the token, who then holds nothing; a terminal status is stamped, and an empty reason keeps the recorded one. |
| Store.Store.RequeueStartup | backend/internal/store/upload_jobs.go:358-373 | Afterwards nothing is in processing, every interrupted row is unleased and due at once in the stage it can resume from, no result, reason, hash, failure count or durability mark has changed, and other rows are untouched. |
| Store.Store.DeleteTerminalJobsBefore | backend/internal/store/upload_jobs.go:376-390 | Deletes at most the limit, only expired terminal rows, and leaves none behind when it deletes fewer. |
| Store.Store.PublishMedia | backend/internal/store/upload_jobs.go:512-573 | Needs token and stage; resolves to a media row of exactly this content, reports a duplicate exactly when that is another id, keeps the unique index, and changes nothing otherwise. |
| Store.Store.MarkUnobservable | backend/internal/store/upload_jobs.go:581-597 | Succeeds exactly on an uploading row that was never durable, which is then terminal. |
| Store.Store.ReopenTerminal | backend/internal/store/upload_jobs.go:613-628 | Succeeds exactly on a terminal row, which is then due at once in the stage given and keeps its result and reason. |
| Store.Store.PurgeTrashed | backend/internal/store/purge.go:43-87 | Deletes exactly the requested trashed rows that no unfinished job resolves to, and reports those. |
| SourceRemoval.RunCleanup | backend/internal/ingest/process.go:244-265 | For every sequence of answers, complete is committed exactly when both paths were seen absent after the last directory sync; otherwise the last answer was an obstacle and the job stays in cleanup with a failure counted. If the looks were truthful, a row it still held is complete only with both files gone. Removals follow the looks that justify them, and artifacts go only for a duplicate. |
| SourceRemoval.RunDiscard | backend/internal/ingest/process.go:271-283 | The same for discard, with the claimed row's reason. |
| SourceRemoval.FinishBySourceRemoval | backend/internal/ingest/process.go:351-439 | The same from any careful start, for whichever stage the job was claimed in. |
| SourceRemoval.RemoveArtifactsIfUnowned | backend/internal/ingest/process.go:290-326 | Artifacts go only after health was proved and the media row was seen absent; an unknown owner stops the attempt. |
| SourceRemoval.UnlinkOrphans | backend/internal/ingest/process.go:371-417 | A data file is unlinked only when its sidecar was seen absent, a sidecar only when its data file was, and the attempt goes on exactly when an orphan was unlinked or neither was there. |
| SourceRemoval.VerifyGone | backend/internal/ingest/process.go:419-430 | Answers yes exactly when both paths were seen absent after a fresh directory sync. |
| Worker.ClaimOnce | backend/internal/ingest/process.go:21-72 | Claims at most one row: one due in the first stage that has any, with the earliest next attempt there; no work means that no stage had any. |
| Worker.RunProcessing | backend/internal/ingest/process.go:74-120 | With other actors between any two statements: publication rests on the whole sequence of checks and on still holding the row, rejection only on content and before anything was recorded, everything else follows a setback, returns the row to pending and counts one failure. |
| Worker.PrepareAndPublish | backend/internal/ingest/process.go:134-206 | Ready to publish exactly behind health, type, hash, identity, copy, verification, the prepared mark and an intact existing copy, in that order. |
| Worker.Identify | backend/internal/ingest/process.go:140-163 | Unsupported content and a hash unlike the declared one are the only rejections, and nothing has been written by then. |
| Worker.Prepare | backend/internal/ingest/process.go:165-189 | The prepared mark comes only after the recorded identity, the copy and its verification. |
| Worker.CheckExisting | backend/internal/ingest/process.go:191-204 | Goes on only when there is no media row of this content or its original was proved intact. |
| Barrier.MakeDurable | backend/internal/ingest/durability.go:155-209 | Every question follows from the answers before it, and nothing follows one that ends the operation. Success leaves a durable row; a commit comes only behind read, size check, file, sidecar and directory flush in that order; the refusal is final exactly when the row said so or the source was not the admitted one. |
| Barrier.ClassifyLostPromotion | backend/internal/ingest/durability.go:215-237 | A promotion that matched no row is success, final or transient by what the row then says. |
| Handlers.HandleTusDelete | backend/internal/httpapi/tus_proxy.go:234-264 | 204 leaves no row or a recorded cancellation of an uploading one; any other answer wrote nothing. |
| Handlers.Terminate | backend/internal/httpapi/tus_proxy.go:286-295 | A removal is issued exactly when the row just read is not owned by the queue, whatever moves in between. |
| Handlers.ExpireIncomplete | backend/internal/httpapi/storage_cleanup.go:239-249 | The janitor removes only after claiming the row itself or finding that there is none. |
| Handlers.PreFinish | backend/internal/httpapi/tus_hooks.go:267-290 | The final PATCH is allowed only on a row that is durable at that moment; otherwise the reply is the barrier's verdict. |
| Handlers.FenceCompletedUpload | backend/internal/httpapi/tus_proxy.go:178-229 | Forwards only when no row was being sent, its source was seen incomplete, or it has just become durable. |
| Registry.Registry.Enter | backend/internal/ingest/durability.go:88-107 | Joins the operation of the upload if there is one; else refuses after closing, refuses when every slot is used, or starts exactly one. |
| Registry.Registry.Release | backend/internal/ingest/durability.go:117-125 | Map entry and slot go together. |
| Registry.Registry.WaitReturned | backend/internal/ingest/durability.go:71-76 | When wait can return, nothing is in flight and every operation is done. |
| Registry.SlotsCountOperations | backend/internal/ingest/durability.go:96-104 | The slots in use are exactly the operations between admission and release. |
| Registry.Schedule | backend/internal/ingest/durability.go:66-132 | Under any schedule no upload ever has two operations under way, every collected result is the one its operation wrote, no operation is added from the first wait on, and once wait returned nothing runs. |
| DurableCopy.FinalIsAbsentOrExact | backend/internal/media/durable.go:70-128 | For any interleaving and any crashes the final path is absent or exactly the source, what was there before is never replaced, the source is unchanged, and after any nil return the file is there for good. |
| DurableCopy.StepKeeps | backend/internal/media/durable.go:70-128 | Every operation of every attempt, and every crash, keeps the invariant behind it. |
| DurableCopy.Originals.PrepareOriginal | backend/internal/media/durable.go:70-128 | With other attempts between any two operations, nil means in place, exact and crash-proof; alone and without a fault it succeeds unless a different original was there first. |
| DurableCopy.Originals.CopyBytes | backend/internal/media/durable.go:172-191 | The copy loop ends with all of the source written, or with a fault. |
| PurgeStages.MoveInKeeps | backend/internal/media/purge.go:203-211 | Staging one file keeps the volume recoverable. |
| PurgeStages.MoveOutKeeps | backend/internal/media/purge.go:213-225 | Restoring one file finds its place free and keeps the volume recoverable. |
| PurgeStages.DropFileKeeps | backend/internal/media/purge.go:151-156 | Removing a staged file of a deleted row keeps the volume recoverable. |
| PurgeStages.DeleteRowsKeeps | backend/internal/store/purge.go:83-86 | The commit keeps the volume recoverable once no file of a deleted row is in place. |
| Purge.Volume.StageForPurge | backend/internal/media/purge.go:35-76 | Success leaves no file of the item in place and all of them under a manifest that names it; stopping anywhere leaves the volume recoverable. |
| Purge.Volume.Restore | backend/internal/media/purge.go:129-149 | Without a fault the stage is gone and its files are back; with one the volume is recoverable. |
| Purge.Volume.Finalize | backend/internal/media/purge.go:151-161 | Without a fault the stage is gone; with one the volume is recoverable. |
| Purge.Volume.RemoveManifestAndDir | backend/internal/media/purge.go:163-174 | Never removes the manifest of a stage that still holds a file. |
| Purge.Volume.LoadPurgeStages | backend/internal/media/purge.go:80-117 | Returns every stage that holds a file unless a read fails, and removes only empty directories. |
| Purge.Volume.PurgeMedia | backend/internal/httpapi/storage_cleanup.go:25-89 | Wherever it stops, the volume is recoverable. The one commit deletes every requested row but those it had to spare (not trashed, or needed by an unfinished job), nothing is deleted only for a fault or an untrashed item, and without a fault no stage is left. |
| Purge.Volume.ReconcilePurgeStages | backend/internal/httpapi/storage_cleanup.go:91-119 | A pass without faults settles everything, any other leaves the volume recoverable. |
| Purge.Volume.DeleteAndRecover | backend/internal/httpapi/storage_cleanup.go:121-149 | A delete stopped anywhere, any number of partial recoveries and one complete one: present rows have all files in place, deleted rows have none in place or staged. |
| Adoption.Reconciler.ReconcileOnce | backend/internal/ingest/recover.go:104-152 | After the sweep and the closures, one look per upload and pass; every action is justified by it and carried out in order, bare adoption by an earlier pass that saw the same size and time, with the upload listed in every completed pass since and older than the quiet period. An unreadable directory leads to no statement at all. |
| Adoption.Reconciler.ReconcileOne | backend/internal/ingest/recover.go:194-296 | With other actors between any two statements: drops an unobservable row first, reads the sidecar only where it decides, and promotes, reopens or adopts exactly when the looks and the evidence say so; a failed drop or insert stops it. |
| Reconciliation.IssueAt | backend/internal/ingest/recover.go:157-245 | Each statement does its transition on a row it matches and nothing otherwise; whatever moved since the look, rows the workers own and rows it does not concern stay as they were. |
| Reconciliation.ResolveRowsWithoutFiles | backend/internal/ingest/recover.go:177-192 | Each listed upload once, in order, closed only if no file of it was seen; every one of them was uncancelled, idle and not durable when listed, and not durable when closed. |
| Adoption.Reconciler.AdoptionWitnessed | backend/internal/ingest/recover.go:319-337 | Yes exactly when the file is old enough and its previous observation is identical. |
| Adoption.Reconciler.ForgetAdoptionCandidates | backend/internal/ingest/recover.go:342-350 | Keeps exactly the observations of uploads this pass listed. |
| Adoption.Reconciler.RecoverInventory | backend/internal/ingest/recover.go:81-98 | Readiness opens exactly with a completed pass that shutdown has not overtaken, and stays open. |
| Adoption.PassIsRecorded | backend/internal/ingest/recover.go:339-350 | Evidence survives a pass that lists the upload or is cut short, and a fresh look is evidence for later passes only. |
| GalleryPages.ListGallery | backend/internal/store/media.go:251-313 | A page is the first rows of the feed after the cursor, and carries a cursor exactly when more follow. |
| GalleryPages.Select | backend/internal/store/media.go:265-276 | The ordered, limited selection: anything left out follows everything returned. |
| GalleryPages.WalkIsExact | backend/internal/store/media.go:248-313 | In a finished walk over arbitrarily changing tables, an item that stays visible and unchanged is returned exactly once and the feed is in order. |
| GalleryPages.ReturnedRowsWereVisible | backend/internal/store/media.go:266-274 | Every returned row was visible under its key when its page was read. |
| GalleryPages.NothingIsSkipped | backend/internal/store/media.go:269-272 | At every point an unchanged item has been returned or is still ahead of the cursor. |
| GalleryPages.WalkIsOrdered | backend/internal/store/media.go:269-273 | Pages concatenate in strict (key, id) order, ascending or descending. |
| TusBattle.Payload | loadtest/tus_battle.py:171-198 | Whatever the block boundaries, the blocks concatenate to the requested slice of one fixed file. |
| TusBattle.PartitionsAgree | loadtest/tus_battle.py:171-198 | However two uploads cut the same file, their slices concatenate to the same fixed file. |
| TusBattle.Patch | loadtest/tus_battle.py:242-276 | Returns only an offset the server itself gave, or -1 for a HEAD without one. |
| TusBattle.UploadOne | loadtest/tus_battle.py:278-308 | Success only if the server holds exactly the file, under partial writes and lost replies; success when nothing goes wrong. The loop ends when finitely much goes wrong, and within as many rounds as the file has bytes if no successful HEAD lacks its offset. |
| TusClient.Blocks | loadtest/wedding/tusclient.py:151-160 | Re-chunking loses, adds and reorders nothing, and every block but the last is full. |
| TusClient.Patch | loadtest/wedding/tusclient.py:186-225 | The retry loop does what the block-sending function says, request by request. |
| TusClient.SentIsHeld | loadtest/wedding/tusclient.py:197-225 | If a 204 carries its offset, either the whole block is on the server or the attempt has failed. |
| TusClient.Upload | loadtest/wedding/tusclient.py:93-118 | transport_ok implies the server holds exactly the payload if a 204 carries its offset; transport_ok when nothing goes wrong. |
| TusClient.TransportOkIsExactIff | loadtest/wedding/tusclient.py:197-207 | For every upload that sends anything: transport_ok means exact content, whatever goes wrong, if and only if a 204 may not come without its offset; otherwise a run ends transport_ok with bytes missing. |
| Bytes.ReadUintLoop | backend/internal/media/heif_exif.go:304-316 | The accumulating loop reads the big-endian value of any width up to eight, and its 64-bit arithmetic never wraps. |
| Boxes.NextBox | backend/internal/media/heif_exif.go:74-95 | Payload and rest are adjacent parts of the input, and the rest is shorter. |
| Boxes.FindBox | backend/internal/media/heif_exif.go:97-109 | The loop ends with the payload of the first box of the kind, all before it being well formed. |
| Boxes.ReadTopLevelBox | backend/internal/media/heif_exif.go:113-149 | The header-only walk finds what FindBox finds in the whole file, or gives up because that is too long. |
| Boxes.SplitsEncodedBox | backend/internal/media/heif_exif.go:74-95 | Splitting undoes encoding in the compact, 64-bit and to-the-end forms. |
| Boxes.FindsFirstChild | backend/internal/media/heif_exif.go:97-109 | In a well-formed container the walk finds the first child of the kind, or that there is none. |
| ItemLocation.ItemExtent | backend/internal/media/heif_exif.go:206-300 | The loops find what the recursive reading of the box finds, on any input. |
| ItemLocation.ExtentIsExact | backend/internal/media/heif_exif.go:206-300 | For every well-formed box of versions 0 to 2 and widths 0 to 8, the first extent of the first matching construction-0 entry that has one. |
| ItemLocation.OffsetIsExactUnlessItWraps | backend/internal/media/heif_exif.go:291-296 | For a well-formed box within the bounds the reported offset is base plus offset except exactly when both are 2^62, and then it is negative. |
| HeifExif.ExifItemId | backend/internal/media/heif_exif.go:153-203 | The loop finds the first entry that declares the Exif type, on any input. |
| HeifExif.FindsFirstExif | backend/internal/media/heif_exif.go:173-202 | In a list of entries and stray boxes of any size form that is the first entry of version 2 or later with the Exif type. |
| HeifExif.ReadExif | backend/internal/media/heif_exif.go:23-70 | Any returned payload is a contiguous range of the file; it is returned exactly when the described range can be read. |
| HeifExif.ReadsWhatWasWritten | backend/internal/media/heif_exif.go:23-70 | For a well-formed file, with an iinf of any version and boxes of any size form, the range is the one its own boxes describe. |

## Left out

- The stage loop and the procedures appear twice: as methods, and as steps over values in `World`, because only there can every other actor's step come between two of their operations; that the methods perform those steps is proved for the barrier (`BarrierRuns`) only.
- Rowless legacy partials: the read-then-DELETE window of `Terminate` for an upload without a row.
- Concurrent purges of one item, and a janitor recovery during an admin purge: only the conservation of bytes covers them, in `World`; `Purge` runs one purge at a time.
- TusBattle.UploadOne: a server that sends successful HEADs without an offset for ever is not modelled, because a script is finite.
- GalleryPages.ListGallery: requires a limit of at least 1, as its callers ensure; chronological order is not claimed, because trimmed timestamps do not sort by time; the base64 and JSON form of a cursor is not modelled.
- Registry.Registry.Enter: a caller's own deadline only abandons its wait and is not modelled.
- Handlers.FenceCompletedUpload: the case of an unsafe or missing upload id, which is forwarded unexamined, is not modelled.
- Purge.Volume.ReconcilePurgeStages: a stage whose stored file name differs from its row's is impossible here, because the name is fixed with the media id.
- The declared digest's spelling, MIME and file-name columns, uploader fields, audit rows and free-form error texts.
- Operator summaries, stale-upload listing limits, health sampling: their answers are inputs, or only make an attempt fail.
- Derivatives: thumbnails and previews may be written or not; nothing depends on them but their removal.
- HTTP, JSON, sessions, rate limits, admission by free space, configuration, the frontend.
- Liveness: eventual publication and the return of `Stop` depend on fairness.
