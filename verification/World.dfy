/**
  The whole system as one transition system: the database, the files, and every
  actor that is part-way through a multi-step procedure. A step is one SQL
  statement, one file operation or one look at the outside, and what an actor has
  learnt but not yet acted on is kept in its program counter, so any other step may
  come between the look and the act. Some adjacent operations make one step: Hash
  sniffs, hashes and stats, CheckDuplicate looks the content up and verifies its
  original, ConfirmGone syncs and stats twice, UnlinkData and UnlinkInfo stat and
  unlink, and MarkUnobservable looks for the files and closes the row.
*/
module World {
  import opened Records
  import opened UploadJobs

  /** Content sniffing and the two durations a run is configured with. */
  datatype Rules = Rules(supported: Content -> bool, processingTimeout: nat, reconcileInterval: nat)

  /** What tusd keeps for one upload: the bytes so far and the declared total. */
  datatype Source = Source(data: Option<Content>, info: Option<nat>)

  datatype Artifact = Original | Thumbnail | Preview

  /** An original's name is its media id plus an extension fixed by content and file name. */
  datatype Path = Path(m: MediaId, art: Artifact)

  /** A purge staging directory; doomed once its row was seen to be gone. */
  datatype Stage = Stage(m: MediaId, files: map<Artifact, Content>, doomed: bool)

  datatype Pc =
    | Claimed
    // processing
    | Hashed | Identified | Copied | Renamed | Synced | Verified | Marked | Checked | Derived
    | Rejecting(reason: Reason)
    // cleanup and discard
    | Unowned | Swept | Terminating | Authorised | Removed | Gone
    | Finished

  /** One worker attempt: the row as its claim returned it, and how far it got. */
  datatype Attempt = Attempt(
    u: UploadId, job: Job, pc: Pc, content: Content, copy: Content, deadline: Time)

  datatype BarrierPc = Admitted | Statted | Flushed | Lost

  /** One EnsureDurable operation that has read an uploading row. */
  datatype Barrier = Barrier(u: UploadId, expected: nat, pc: BarrierPc)

  /** One janitor removal: it has claimed the row, and may have passed Terminate's read. */
  datatype Janitor = Janitor(u: UploadId, m: MediaId, authorised: bool)

  /** The reconciler's decision to reopen a finished job, taken but not yet written. */
  datatype Reopening = Reopening(u: UploadId, target: Status)

  datatype World = World(
    db: Db,
    sources: map<UploadId, Source>,
    live: map<Path, Content>,
    stages: map<StageId, Stage>,
    attempts: map<Token, Attempt>,
    barriers: map<nat, Barrier>,
    janitors: map<nat, Janitor>,
    reopening: Option<Reopening>,
    listed: set<UploadId>,              // stale uploads the reconciler's pass has yet to look for
    clock: Time,
    started: bool,
    // History. None of it influences a step except through freshness.
    awaiting: map<UploadId, nat>,       // admitted, files not created yet
    known: set<UploadId>,               // upload ids ever allocated or found on disk
    usedMedia: set<MediaId>,            // media ids ever allocated
    flushed: set<UploadId>,             // sources whose present bytes survive a crash
    flushedOriginals: set<MediaId>,     // originals whose directory entry survives a crash
    durable: map<UploadId, Content>,    // the bytes each promoted upload was promoted with
    acked: set<MediaId>,                // incarnations for which EnsureDurable returned nil
    published: map<MediaId, Digest>,    // media rows ever inserted
    home: map<MediaId, StageId>,        // where a staged original was last moved
    latePurged: set<MediaId>,           // incarnations whose result was purged after completion
    reopened: set<MediaId>)             // incarnations reopened after completion

  datatype Step =
    // admission, transfer and cancellation
    | PreCreate(u: UploadId, m: MediaId, size: nat, declared: Option<Digest>)
    | CreateFiles(u: UploadId)
    | Write(u: UploadId, chunk: Content)
    | RequestCancellation(u: UploadId)
    | Sweep(idleBefore: Time)
    | ListStale(ids: set<UploadId>, idleBefore: Time)
    | MarkUnobservable(u: UploadId)
    // the durability barrier
    | BarrierJoinDone(u: UploadId)
    | BarrierRead(b: nat, u: UploadId)
    | BarrierStat(b: nat)
    | BarrierFlush(b: nat)
    | BarrierPromote(b: nat)
    | BarrierClassify(b: nat)
    | BarrierDrop(b: nat)
    // the incomplete-upload janitor
    | JanitorClaim(k: nat, u: UploadId)
    | JanitorRead(k: nat)
    | JanitorDelete(k: nat, dropData: bool, dropInfo: bool)
    | JanitorDrop(k: nat)
    // workers
    | Claim(t: Token, u: UploadId, from: Status, to: Status, reading: Time, deadline: Time)
    | Fail(t: Token, next: Time)
    | Vanish(t: Token)
    | Hash(t: Token)
    | RecordIdentity(t: Token)
    | ReuseOriginal(t: Token)
    | Copy(t: Token)
    | Rename(t: Token)
    | SyncOriginal(t: Token)
    | Verify(t: Token)
    | RecordPrepared(t: Token)
    | CheckDuplicate(t: Token)
    | Derive(t: Token, thumbnail: Option<Content>, preview: Option<Content>)
    | Publish(t: Token)
    | Reject(t: Token)
    | CheckOwner(t: Token)
    | KeepArtifacts(t: Token)
    | RemoveArtifact(t: Token, art: Artifact)
    | EndArtifacts(t: Token)
    | LookForSource(t: Token)
    | ReadBeforeDelete(t: Token)
    | Delete(t: Token, dropData: bool, dropInfo: bool)
    | UnlinkData(t: Token)
    | UnlinkInfo(t: Token)
    | ConfirmGone(t: Token)
    | Finish(t: Token)
    // the reconciler
    | DecideReopen(u: UploadId)
    | Reopen
    | DeleteUnobservable(u: UploadId)
    | Adopt(u: UploadId, m: MediaId, declared: Option<Digest>)
    | Expire(gone: set<UploadId>, cutoff: Time)
    // moderation and purge
    | SetMediaStatus(m: MediaId, status: MediaStatus)
    | OpenStage(s: StageId, m: MediaId)
    | StageFile(s: StageId, art: Artifact)
    | PurgeCommit(gone: set<MediaId>)
    | DoomStage(s: StageId)
    | FinalizeFile(s: StageId, art: Artifact)
    | RestoreFile(s: StageId, art: Artifact)
    // time, restarts and mounts
    | Tick(micros: nat)
    | Reappear(u: UploadId, file: Source)
    | Crash(sources: map<UploadId, Source>, live: map<Path, Content>)
    | RequeueAndStart
    | StartWithoutRequeue

  const NoSource := Source(None, None)

  function SourceOf(sources: map<UploadId, Source>, u: UploadId): Source {
    if u in sources then sources[u] else NoSource
  }

  function Bytes(sources: map<UploadId, Source>, u: UploadId): Content {
    if SourceOf(sources, u).data.Some? then SourceOf(sources, u).data.value else []
  }

  predicate SourceComplete(f: Source) {
    f.data.Some? && (f.info.Some? ==> |f.data.value| == f.info.value)
  }

  predicate Running(a: Attempt) { a.pc != Finished }

  predicate At(w: World, t: Token, stage: Status, pc: Pc) {
    t in w.attempts && w.attempts[t].job.status == stage && w.attempts[t].pc == pc
  }

  /** Cleanup and discard attempts share the source-removal procedure. */
  predicate Removing(w: World, t: Token, pc: Pc) {
    t in w.attempts && w.attempts[t].job.status != Processing && w.attempts[t].pc == pc
  }

  function Moved(w: World, t: Token, pc: Pc): World
    requires t in w.attempts
  {
    w.(attempts := w.attempts[t := w.attempts[t].(pc := pc)])
  }

  function WithJob(w: World, u: UploadId, j: Job): World {
    w.(db := w.db.(jobs := w.db.jobs[u := j]))
  }

  function WithDerived(live: map<Path, Content>, m: MediaId, thumbnail: Option<Content>, preview: Option<Content>)
    : map<Path, Content>
  {
    var l := if thumbnail.Some? then live[Path(m, Thumbnail) := thumbnail.value] else live;
    if preview.Some? then l[Path(m, Preview) := preview.value] else l
  }

  /** A processing failure returns to pending; a removal failure stays in its own stage. */
  function RetriedRow(w: World, a: Attempt, next: Time): Job
    requires a.u in w.db.jobs
  {
    if a.job.status == Processing then ReleaseRow(w.db.jobs[a.u], Pending, next, ProcessingFailures, w.clock)
    else ReleaseRow(w.db.jobs[a.u], a.job.status, next, CleanupFailures, w.clock)
  }

  /** The attempt hands its job back, if the row is still its own. */
  function Retried(w: World, t: Token, next: Time): World
    requires t in w.attempts
  {
    var a := w.attempts[t];
    Moved(w, t, Finished)
    .(db := if Holds(w.db, a.u, t) then WithJob(w, a.u, RetriedRow(w, a, next)).db else w.db)
  }

  /** Complete for a published upload; discarded, with the claimed row's reason, for a condemned one. */
  function ClosedRow(w: World, a: Attempt): Job
    requires a.u in w.db.jobs
  {
    if a.job.status == Cleanup then FinishRow(w.db.jobs[a.u], Complete, NoReason, w.clock)
    else FinishRow(w.db.jobs[a.u], Discarded, a.job.reason, w.clock)
  }

  /** The attempt commits the terminal state of its stage, if the row is still its own. */
  function Closed(w: World, t: Token): World
    requires t in w.attempts
  {
    var a := w.attempts[t];
    Moved(w, t, Finished)
    .(db := if Holds(w.db, a.u, t) then WithJob(w, a.u, ClosedRow(w, a)).db else w.db)
  }

  /** The durability commit. */
  function PromotedWorld(w: World, b: nat): World
    requires b in w.barriers && w.barriers[b].u in w.db.jobs
  {
    var u := w.barriers[b].u;
    WithJob(w, u, PromoteRow(w.db.jobs[u], w.clock))
    .(barriers := w.barriers - {b},
      durable := w.durable[u := Bytes(w.sources, u)],
      acked := w.acked + {w.db.jobs[u].mediaId})
  }

  /** The publication transaction of an attempt that still holds its row. */
  function PublishedWorld(w: World, t: Token): World
    requires t in w.attempts && w.attempts[t].u in w.db.jobs
  {
    var a := w.attempts[t];
    w.(db := PublishMedia(w.db, a.u, a.job.mediaId, a.content, w.clock),
       published := if a.content !in w.db.bySha then w.published[a.job.mediaId := a.content] else w.published)
  }

  /** The statuses Terminate refuses to delete under. */
  predicate StillOwned(db: Db, u: UploadId) {
    u in db.jobs && (db.jobs[u].status == Uploading || Working(db.jobs[u].status))
  }

  function Dropped(f: Source, dropData: bool, dropInfo: bool): Source {
    Source(if dropData then None else f.data, if dropInfo then None else f.info)
  }

  function Drop(w: World, u: UploadId, dropData: bool, dropInfo: bool): World {
    w.(sources := w.sources[u := Dropped(SourceOf(w.sources, u), dropData, dropInfo)])
  }

  /** No procedure that presumes this row is still running. */
  ghost predicate Unattended(w: World, u: UploadId) {
    && (forall t | t in w.attempts && Running(w.attempts[t]) :: w.attempts[t].u != u)
    && (forall b | b in w.barriers :: w.barriers[b].u != u)
    && (forall k | k in w.janitors :: w.janitors[k].u != u)
  }

  ghost predicate EnabledTransfer(w: World, s: Step) {
    match s
    case PreCreate(u, m, size, declared) =>
      u !in w.known && m !in w.usedMedia && CanCreate(w.db, u, m, size)
    case CreateFiles(u) => u in w.awaiting
    case Write(u, chunk) =>
      var f := SourceOf(w.sources, u);
      chunk != [] && f.data.Some? && f.info.Some? && |f.data.value| + |chunk| <= f.info.value
    case RequestCancellation(u) => IsUploading(w.db, u)
    case Sweep(_) => true
    case ListStale(ids, idleBefore) => forall u | u in ids :: IsStale(w.db, u, idleBefore)
    case MarkUnobservable(u) => u in w.listed && CanMarkUnobservable(w.db, u)
    case _ => false
  }

  ghost predicate EnabledBarrier(w: World, s: Step) {
    match s
    case BarrierJoinDone(u) =>
      u in w.db.jobs && (Working(w.db.jobs[u].status) || Published(w.db.jobs[u].status))
    case BarrierRead(b, u) => b !in w.barriers && IsUploading(w.db, u)
    case BarrierStat(b) =>
      && b in w.barriers && w.barriers[b].pc == Admitted
      && SourceOf(w.sources, w.barriers[b].u).data.Some?
      && |Bytes(w.sources, w.barriers[b].u)| == w.barriers[b].expected
    case BarrierFlush(b) => b in w.barriers && w.barriers[b].pc == Statted
    case BarrierPromote(b) => b in w.barriers && w.barriers[b].pc == Flushed
    case BarrierClassify(b) => b in w.barriers && w.barriers[b].pc == Lost
    case BarrierDrop(b) => b in w.barriers
    case _ => false
  }

  ghost predicate EnabledJanitor(w: World, s: Step) {
    match s
    case JanitorClaim(k, u) => k !in w.janitors && IsUploading(w.db, u)
    case JanitorRead(k) => k in w.janitors && !StillOwned(w.db, w.janitors[k].u)
    case JanitorDelete(k, _, _) => k in w.janitors && w.janitors[k].authorised
    case JanitorDrop(k) => k in w.janitors
    case _ => false
  }

  function ApplyTransfer(w: World, s: Step): World
    requires EnabledTransfer(w, s)
  {
    match s
    case PreCreate(u, m, size, declared) =>
      WithJob(w, u, NewJob(m, size, declared, w.clock))
      .(awaiting := w.awaiting[u := size], known := w.known + {u}, usedMedia := w.usedMedia + {m})
    case CreateFiles(u) =>
      w.(sources := w.sources[u := Source(Some([]), Some(w.awaiting[u]))],
         awaiting := w.awaiting - {u}, flushed := w.flushed - {u})
    case Write(u, chunk) =>
      var f := SourceOf(w.sources, u);
      w.(sources := w.sources[u := f.(data := Some(f.data.value + chunk))], flushed := w.flushed - {u})
    case RequestCancellation(u) => WithJob(w, u, CancelRow(w.db.jobs[u], w.clock))
    case Sweep(idleBefore) => w.(db := SweepCancelled(w.db, idleBefore, w.clock))
    case ListStale(ids, _) => w.(listed := ids)
    case MarkUnobservable(u) =>
      WithJob(w, u, UnobservableRow(w.db.jobs[u], w.clock)).(listed := w.listed - {u})
  }

  function ApplyBarrier(w: World, s: Step): World
    requires EnabledBarrier(w, s)
  {
    match s
    case BarrierJoinDone(u) => w.(acked := w.acked + {w.db.jobs[u].mediaId})
    case BarrierRead(b, u) =>
      w.(barriers := w.barriers[b := Barrier(u, w.db.jobs[u].expectedSize, Admitted)])
    case BarrierStat(b) => w.(barriers := w.barriers[b := w.barriers[b].(pc := Statted)])
    case BarrierFlush(b) =>
      w.(barriers := w.barriers[b := w.barriers[b].(pc := Flushed)],
         flushed := w.flushed + {w.barriers[b].u})
    case BarrierPromote(b) =>
      var u := w.barriers[b].u;
      if CanPromote(w.db, u) then
        PromotedWorld(w, b)
      else
        w.(barriers := w.barriers[b := w.barriers[b].(pc := Lost)])
    case BarrierClassify(b) =>
      var u := w.barriers[b].u;
      w.(barriers := w.barriers - {b},
         acked := if u in w.db.jobs && (Working(w.db.jobs[u].status) || Published(w.db.jobs[u].status))
                  then w.acked + {w.db.jobs[u].mediaId} else w.acked)
    case BarrierDrop(b) => w.(barriers := w.barriers - {b})
  }

  function ApplyJanitor(w: World, s: Step): World
    requires EnabledJanitor(w, s)
  {
    match s
    case JanitorClaim(k, u) =>
      WithJob(w, u, DiscardRow(w.db.jobs[u], w.clock))
      .(janitors := w.janitors[k := Janitor(u, w.db.jobs[u].mediaId, false)])
    case JanitorRead(k) => w.(janitors := w.janitors[k := w.janitors[k].(authorised := true)])
    case JanitorDelete(k, dropData, dropInfo) =>
      Drop(w, w.janitors[k].u, dropData, dropInfo).(janitors := w.janitors - {k})
    case JanitorDrop(k) => w.(janitors := w.janitors - {k})
  }

  predicate StagePair(from: Status, to: Status) {
    || (from == Cleanup && to == Cleanup)
    || (from == Discarding && to == Discarding)
    || (from == Pending && to == Processing)
    || (from == Processing && to == Processing)
  }

  ghost predicate EnabledAttempt(r: Rules, w: World, s: Step) {
    match s
    case Claim(t, u, from, to, reading, deadline) =>
      // The claim returns between the present and reading + ReconcileInterval,
      // and the attempt's own clock starts then.
      && w.started && t !in w.attempts && StagePair(from, to)
      && u in w.db.jobs && IsDue(w.db.jobs[u], from, reading)
      && reading <= w.clock
      && w.clock + r.processingTimeout <= deadline <= reading + r.reconcileInterval + r.processingTimeout
    case Fail(t, _) =>
      t in w.attempts && Running(w.attempts[t]) && !w.attempts[t].pc.Rejecting?
    case Vanish(t) => t in w.attempts
    case _ => false
  }

  ghost predicate EnabledProcessing(w: World, s: Step) {
    match s
    case Hash(t) =>
      At(w, t, Processing, Claimed) && SourceOf(w.sources, w.attempts[t].u).data.Some?
    case RecordIdentity(t) => At(w, t, Processing, Hashed) && Holds(w.db, w.attempts[t].u, t)
    case ReuseOriginal(t) =>
      var p := Path(if t in w.attempts then w.attempts[t].job.mediaId else 0, Original);
      At(w, t, Processing, Identified) && p in w.live && w.live[p] == w.attempts[t].content
    case Copy(t) =>
      At(w, t, Processing, Identified) && SourceOf(w.sources, w.attempts[t].u).data.Some?
    case Rename(t) => At(w, t, Processing, Copied)
    case SyncOriginal(t) => At(w, t, Processing, Renamed)
    case Verify(t) =>
      var p := Path(if t in w.attempts then w.attempts[t].job.mediaId else 0, Original);
      At(w, t, Processing, Synced) && p in w.live && w.live[p] == w.attempts[t].content
    case RecordPrepared(t) => At(w, t, Processing, Verified) && Holds(w.db, w.attempts[t].u, t)
    case CheckDuplicate(t) =>
      && At(w, t, Processing, Marked)
      && var sha := w.attempts[t].content;
         sha in w.db.bySha ==>
           Path(w.db.bySha[sha], Original) in w.live && w.live[Path(w.db.bySha[sha], Original)] == sha
    case Derive(t, _, _) => At(w, t, Processing, Checked)
    case Publish(t) => At(w, t, Processing, Derived)
    case Reject(t) =>
      t in w.attempts && w.attempts[t].job.status == Processing && w.attempts[t].pc.Rejecting?
    case _ => false
  }

  /** Cleanup and discard attempts: own artifacts first, then the tus source. */
  ghost predicate EnabledRemoval(w: World, s: Step) {
    match s
    case CheckOwner(t) =>
      && Removing(w, t, Claimed)
      && (w.attempts[t].job.status == Cleanup ==>
            w.attempts[t].job.result.Some? && w.attempts[t].job.result.value != w.attempts[t].job.mediaId)
    case KeepArtifacts(t) =>
      && At(w, t, Cleanup, Claimed)
      && (w.attempts[t].job.result == None || w.attempts[t].job.result == Some(w.attempts[t].job.mediaId))
    case RemoveArtifact(t, art) =>
      Removing(w, t, Unowned) && (art == Original ==> w.attempts[t].job.identityRecorded)
    case EndArtifacts(t) => Removing(w, t, Unowned)
    case LookForSource(t) => Removing(w, t, Swept)
    case ReadBeforeDelete(t) => Removing(w, t, Terminating) && !StillOwned(w.db, w.attempts[t].u)
    case Delete(t, _, _) => Removing(w, t, Authorised)
    case UnlinkData(t) => Removing(w, t, Removed) && SourceOf(w.sources, w.attempts[t].u).info == None
    case UnlinkInfo(t) => Removing(w, t, Removed) && SourceOf(w.sources, w.attempts[t].u).data == None
    case ConfirmGone(t) => Removing(w, t, Removed) && SourceOf(w.sources, w.attempts[t].u) == NoSource
    case Finish(t) => Removing(w, t, Gone)
    case _ => false
  }

  function ApplyAttempt(r: Rules, w: World, s: Step): World
    requires EnabledAttempt(r, w, s)
  {
    match s
    case Claim(t, u, from, to, reading, deadline) =>
      var j := ClaimRow(w.db.jobs[u], to, t, reading, r.processingTimeout + r.reconcileInterval);
      WithJob(w, u, j).(attempts := w.attempts[t := Attempt(u, j, Claimed, [], [], deadline)])
    case Fail(t, next) => Retried(w, t, next)
    case Vanish(t) => Moved(w, t, Finished)
  }

  /** prepareAndPublish, one operation at a time. */
  function ApplyProcessing(r: Rules, w: World, s: Step): World
    requires EnabledProcessing(w, s)
  {
    match s
    case Hash(t) =>
      var a := w.attempts[t];
      var c := Bytes(w.sources, a.u);
      var pc := if !r.supported(c) then Rejecting(UnsupportedType)
                else if a.job.declared.Some? && a.job.declared.value != c then Rejecting(ChecksumMismatch)
                else Hashed;
      w.(attempts := w.attempts[t := a.(pc := pc, content := c)])
    case RecordIdentity(t) =>
      var a := w.attempts[t];
      Moved(WithJob(w, a.u, RecordIdentityRow(w.db.jobs[a.u], a.content, w.clock)), t, Identified)
    case ReuseOriginal(t) => Moved(w, t, Renamed)
    case Copy(t) =>
      var a := w.attempts[t];
      w.(attempts := w.attempts[t := a.(pc := Copied, copy := Bytes(w.sources, a.u))])
    case Rename(t) =>
      var a := w.attempts[t];
      Moved(w, t, Renamed).(live := w.live[Path(a.job.mediaId, Original) := a.copy])
    case SyncOriginal(t) =>
      Moved(w, t, Synced).(flushedOriginals := w.flushedOriginals + {w.attempts[t].job.mediaId})
    case Verify(t) => Moved(w, t, Verified)
    case RecordPrepared(t) =>
      var a := w.attempts[t];
      Moved(WithJob(w, a.u, RecordPreparedRow(w.db.jobs[a.u], w.clock)), t, Marked)
    case CheckDuplicate(t) => Moved(w, t, Checked)
    case Derive(t, thumbnail, preview) =>
      Moved(w, t, Derived).(live := WithDerived(w.live, w.attempts[t].job.mediaId, thumbnail, preview))
    case Publish(t) =>
      var owned := CanPublish(w.db, w.attempts[t].u, t);
      Moved(w, t, Finished)
      .(db := if owned then PublishedWorld(w, t).db else w.db,
        published := if owned then PublishedWorld(w, t).published else w.published)
    case Reject(t) =>
      var a := w.attempts[t];
      Moved(w, t, Finished)
      .(db := if Holds(w.db, a.u, t)
              then WithJob(w, a.u, FinishRow(w.db.jobs[a.u], Discarding, a.pc.reason, w.clock)).db
              else w.db)
  }

  function ApplyRemoval(w: World, s: Step): World
    requires EnabledRemoval(w, s)
  {
    match s
    case CheckOwner(t) =>
      Moved(w, t, if w.attempts[t].job.mediaId in w.db.media then Swept else Unowned)
    case KeepArtifacts(t) => Moved(w, t, Swept)
    case RemoveArtifact(t, art) => w.(live := w.live - {Path(w.attempts[t].job.mediaId, art)})
    case EndArtifacts(t) => Moved(w, t, Swept)
    case LookForSource(t) =>
      Moved(w, t, if SourceOf(w.sources, w.attempts[t].u).data.Some? then Terminating else Removed)
    case ReadBeforeDelete(t) => Moved(w, t, Authorised)
    case Delete(t, dropData, dropInfo) => Drop(Moved(w, t, Removed), w.attempts[t].u, dropData, dropInfo)
    case UnlinkData(t) => Drop(w, w.attempts[t].u, true, false)
    case UnlinkInfo(t) => Drop(w, w.attempts[t].u, false, true)
    case ConfirmGone(t) => Moved(w, t, Gone)
    case Finish(t) => Closed(w, t)
  }

  /** A crash keeps flushed bytes, and leaves any prefix of the others. */
  ghost predicate SurvivingSources(w: World, after: map<UploadId, Source>) {
    forall u ::
      var f, g := SourceOf(w.sources, u), SourceOf(after, u);
      && (u in w.flushed ==> g == f)
      && (g.info.Some? ==> g.info == f.info)
      && (g.data.Some? ==> f.data.Some? && g.data.value <= f.data.value)
  }

  /** A crash may undo a rename whose directory was not synced; it invents nothing. */
  ghost predicate SurvivingFiles(w: World, after: map<Path, Content>) {
    && (forall p | p in after :: p in w.live && after[p] == w.live[p])
    && (forall p | p in w.live && p.m in w.flushedOriginals :: p in after)
  }

  ghost predicate EnabledOther(w: World, s: Step) {
    match s
    case DecideReopen(u) =>
      && w.reopening == None && IsTerminal(w.db, u)
      && w.db.jobs[u].reason != Unobservable
      && SourceOf(w.sources, u) != NoSource
    case Reopen => w.reopening.Some?
    case DeleteUnobservable(u) =>
      && w.reopening == None && u in w.db.jobs
      && w.db.jobs[u].status == Discarded && w.db.jobs[u].reason == Unobservable
    case Adopt(u, m, declared) =>
      && w.reopening == None && SourceComplete(SourceOf(w.sources, u))
      && m !in w.usedMedia
      && CanCreate(w.db, u, m, |Bytes(w.sources, u)|)
    case Expire(gone, cutoff) =>
      && w.reopening == None
      && (forall u | u in gone :: u in w.db.jobs && Expired(w.db.jobs[u], cutoff) && Unattended(w, u))
    case SetMediaStatus(m, _) => m in w.db.media
    case OpenStage(s, m) => s !in w.stages && m in w.published
    case StageFile(s, art) => s in w.stages && Path(w.stages[s].m, art) in w.live
    case PurgeCommit(gone) => forall m | m in gone :: CanPurge(w.db, m)
    case DoomStage(s) => s in w.stages && w.stages[s].m !in w.db.media
    case FinalizeFile(s, art) => s in w.stages && w.stages[s].doomed
    case RestoreFile(s, art) =>
      s in w.stages && art in w.stages[s].files && Path(w.stages[s].m, art) !in w.live
    case Tick(_) => true
    case Reappear(u, f) =>
      // A file that comes back for a finished upload is the one that was removed,
      // with the bytes the barrier had flushed.
      && SourceOf(w.sources, u).data == None && u !in w.awaiting
      && !StillOwned(w.db, u) && (forall b | b in w.barriers :: w.barriers[b].u != u)
      && (u in w.db.jobs && w.db.jobs[u].completedAt.Some? && u in w.durable ==>
            && (f.data.Some? ==> f.data.value == w.durable[u])
            && (f.info.Some? ==> f.info.value == |w.durable[u]|))
    case Crash(sources, live) => SurvivingSources(w, sources) && SurvivingFiles(w, live)
    case RequeueAndStart => !w.started
    case StartWithoutRequeue => !w.started
    case _ => false
  }

  function ApplyOther(w: World, s: Step): World
    requires EnabledOther(w, s)
  {
    match s
    case DecideReopen(u) =>
      w.(reopening := Some(Reopening(u, if w.db.jobs[u].status == Discarded then Discarding else Cleanup)))
    case Reopen =>
      var u := w.reopening.value.u;
      var found := IsTerminal(w.db, u);
      w.(reopening := None,
         db := if found then WithJob(w, u, ReopenRow(w.db.jobs[u], w.reopening.value.target, w.clock)).db else w.db,
         reopened := if found then w.reopened + {w.db.jobs[u].mediaId} else w.reopened)
    case DeleteUnobservable(u) => w.(db := w.db.(jobs := w.db.jobs - {u}))
    case Adopt(u, m, declared) =>
      WithJob(w, u, NewJob(m, |Bytes(w.sources, u)|, declared, w.clock))
      .(known := w.known + {u}, usedMedia := w.usedMedia + {m})
    case Expire(gone, cutoff) => w.(db := w.db.(jobs := w.db.jobs - gone))
    case SetMediaStatus(m, status) =>
      w.(db := w.db.(media := w.db.media[m := w.db.media[m].(status := status)]))
    case OpenStage(s, m) => w.(stages := w.stages[s := Stage(m, map[], false)])
    case StageFile(s, art) =>
      var st := w.stages[s];
      var p := Path(st.m, art);
      w.(live := w.live - {p},
         stages := w.stages[s := st.(files := st.files[art := w.live[p]])],
         home := if art == Original then w.home[st.m := s] else w.home)
    case PurgeCommit(gone) =>
      w.(db := DropMedia(w.db, gone),
         latePurged := w.latePurged + set u | u in w.db.jobs && w.db.jobs[u].status == Complete
                                         && w.db.jobs[u].result.Some? && w.db.jobs[u].result.value in gone
                                       :: w.db.jobs[u].mediaId)
    case DoomStage(s) => w.(stages := w.stages[s := w.stages[s].(doomed := true)])
    case FinalizeFile(s, art) =>
      w.(stages := w.stages[s := w.stages[s].(files := w.stages[s].files - {art})])
    case RestoreFile(s, art) =>
      var st := w.stages[s];
      w.(live := w.live[Path(st.m, art) := st.files[art]],
         stages := w.stages[s := st.(files := st.files - {art})])
    case Tick(micros) => w.(clock := w.clock + micros)
    case Reappear(u, f) =>
      w.(sources := w.sources[u := f], known := w.known + {u},
         flushed := if u in w.db.jobs && w.db.jobs[u].completedAt.Some? then w.flushed + {u}
                    else w.flushed - {u})
    case Crash(sources, live) =>
      w.(sources := sources, live := live,
         attempts := map t | t in w.attempts :: w.attempts[t].(pc := Finished),
         barriers := map[], janitors := map[], reopening := None, listed := {}, started := false)
    case RequeueAndStart => w.(db := RequeueStartup(w.db, w.clock), started := true)
    case StartWithoutRequeue => w.(started := true)
  }

  ghost predicate Enabled(r: Rules, w: World, s: Step) {
    || EnabledTransfer(w, s) || EnabledBarrier(w, s) || EnabledJanitor(w, s)
    || EnabledAttempt(r, w, s) || EnabledProcessing(w, s) || EnabledRemoval(w, s) || EnabledOther(w, s)
  }

  ghost function Apply(r: Rules, w: World, s: Step): World
    requires Enabled(r, w, s)
  {
    if EnabledTransfer(w, s) then ApplyTransfer(w, s)
    else if EnabledBarrier(w, s) then ApplyBarrier(w, s)
    else if EnabledJanitor(w, s) then ApplyJanitor(w, s)
    else if EnabledAttempt(r, w, s) then ApplyAttempt(r, w, s)
    else if EnabledProcessing(w, s) then ApplyProcessing(r, w, s)
    else if EnabledRemoval(w, s) then ApplyRemoval(w, s)
    else ApplyOther(w, s)
  }
}
