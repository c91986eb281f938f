/** Cleanup and discard: what they may remove, and when they may call a job finished. */
module SourceRemoval {
  import opened Records
  import opened UploadFiles
  import U = UploadJobs
  import S = Store
  import B = Barrier

  type Trace = seq<Event>

  /** The last events of a trace, seen backwards. */
  function Back(trace: Trace, k: nat): Event
    requires k < |trace|
  {
    trace[|trace| - 1 - k]
  }

  predicate SeenPresent(e: Event, part: Part) {
    e.Statted? && e.part == part && e.answer.Present?
  }

  /** What the events so far must show before `e` may be done. */
  predicate Justified(trace: Trace, e: Event) {
    match e
    case Terminated(_) => |trace| >= 1 && SeenPresent(Back(trace, 0), Data)
    case Unlinked(Data, _) =>
      && |trace| >= 3 && Back(trace, 2) == DirSynced(true)
      && SeenPresent(Back(trace, 1), Data) && Back(trace, 0) == Statted(Info, Absent)
    case Unlinked(Info, _) =>
      && |trace| >= 3 && Back(trace, 2) == DirSynced(true)
      && Back(trace, 1) == Statted(Data, Absent) && SeenPresent(Back(trace, 0), Info)
    case ArtifactsRemoved =>
      |trace| >= 2 && Back(trace, 0) == Looked(NoRow) && Back(trace, 1) == Healthy(true)
    case _ => true
  }

  predicate Careful(trace: Trace) {
    forall i | 0 <= i < |trace| :: Justified(trace[..i], trace[i])
  }

  /** Both paths were seen absent after the last directory sync, and nothing happened since. */
  predicate SeenGone(trace: Trace) {
    && |trace| >= 3
    && Back(trace, 2) == DirSynced(true) && Back(trace, 1) == Statted(Data, Absent)
    && Back(trace, 0) == Statted(Info, Absent)
  }

  /** An answer that stops an attempt. */
  predicate Obstacle(e: Event) {
    match e
    case Healthy(ok) => !ok
    case Looked(owner) => owner == Unknown
    case Statted(_, answer) => answer != Absent
    case Terminated(ok) => !ok
    case Unlinked(_, ok) => !ok
    case DirSynced(ok) => !ok
    case _ => false
  }

  /** An attempt that is not done was stopped by the last thing it was told. */
  predicate Stopped(trace: Trace) {
    |trace| > 0 && Obstacle(Back(trace, 0))
  }

  lemma StaysCareful(trace: Trace, e: Event)
    requires Careful(trace) && Justified(trace, e)
    ensures Careful(trace + [e])
  {
    hide Justified;
    var t := trace + [e];
    forall i | 0 <= i < |t| ensures Justified(t[..i], t[i]) {
      assert t[..i] == trace[..i];
      if i == |trace| { assert trace[..i] == trace; }
    }
  }

  function TerminalOf(j: Job): Status {
    if j.status == Cleanup then Complete else Discarded
  }

  function ReasonOf(j: Job): Reason {
    if j.status == Cleanup then NoReason else j.reason
  }

  /** The terminal state is committed, or the job fails in its own stage with the failure counted. */
  ghost function Closing(db: U.Db, j: Job, u: UploadId, token: Token, gone: bool, next: Time, now: Time): U.Db {
    if !U.Holds(db, u, token) then db
    else if gone then db.(jobs := db.jobs[u := U.FinishRow(db.jobs[u], TerminalOf(j), ReasonOf(j), now)])
    else db.(jobs := db.jobs[u := U.ReleaseRow(db.jobs[u], j.status, next, U.CleanupFailures, now)])
  }

  // ---- what the trace means when looks are truthful ----

  /** Which of the two files exist. */
  datatype Dir = Dir(data: bool, info: bool)

  function Exists(d: Dir, part: Part): bool {
    if part == Data then d.data else d.info
  }

  /** The directory before each event and at the end: looks are truthful, and nothing comes back. */
  ghost predicate Truthful(trace: Trace, dirs: seq<Dir>) {
    && |dirs| == |trace| + 1
    && (forall i | 0 <= i < |trace| :: trace[i].Statted? && trace[i].answer == Absent ==> !Exists(dirs[i], trace[i].part))
    && (forall i, k, part | 0 <= i <= k < |dirs| :: Exists(dirs[k], part) ==> Exists(dirs[i], part))
  }

  lemma SeenGoneIsGone(trace: Trace, dirs: seq<Dir>)
    requires SeenGone(trace) && Truthful(trace, dirs)
    ensures dirs[|trace|] == Dir(false, false)
  {
    var n := |trace|;
    assert !Exists(dirs[n - 2], Data) && !Exists(dirs[n - 1], Info);
    assert !Exists(dirs[n], Data) && !Exists(dirs[n], Info);
  }

  /**
    A row the attempt still held in its stage is terminal exactly if both files were
    seen gone, and then, if its looks were truthful, they are. Otherwise it stays in
    that stage with one failure more.
    */
  ghost predicate EndsTruly(trace: Trace, before: U.Db, after: U.Db, j: Job, u: UploadId, token: Token, now: Time) {
    U.Holds(before, u, token) && before.jobs[u].status == j.status ==>
      && u in after.jobs
      && var k := after.jobs[u];
         && (Terminal(k.status) <==> SeenGone(trace))
         && (Terminal(k.status) ==>
               && k.status == TerminalOf(j) && k.terminalAt == Some(now)
               && forall dirs | Truthful(trace, dirs) :: dirs[|trace|] == Dir(false, false))
         && (!Terminal(k.status) ==>
               k.status == j.status && k.cleanupFailures == before.jobs[u].cleanupFailures + 1)
  }

  lemma ClosingEndsTruly(trace: Trace, before: U.Db, j: Job, u: UploadId, token: Token, next: Time, now: Time)
    requires j.status == Cleanup || j.status == Discarding
    ensures EndsTruly(trace, before, Closing(before, j, u, token, SeenGone(trace), next, now), j, u, token, now)
  {
    forall dirs | SeenGone(trace) && Truthful(trace, dirs)
      ensures dirs[|trace|] == Dir(false, false)
    {
      SeenGoneIsGone(trace, dirs);
    }
  }

  /** Everything up to the final verification; false when the job must be retried. */
  method RemoveSource(files: UploadFiles) returns (removed: bool)
    requires Careful(files.log)
    modifies files
    ensures old(files.log) <= files.log && Careful(files.log)
    ensures !removed ==> Stopped(files.log)
    ensures ArtifactsRemoved in files.log ==> ArtifactsRemoved in old(files.log)
  {
    hide Careful, Justified;
    var found := files.Stat(Data);
    StaysCarefulLooking(old(files.log), Statted(Data, found));
    if found.Present? {
      removed := TerminateSource(files);
      if !removed { return; }
    } else if found.Ambiguous? {
      return false;
    }
    ghost var before := files.log;
    var synced := files.SyncDir();
    StaysCarefulLooking(before, DirSynced(synced));
    if !synced { return false; }
    removed := UnlinkOrphans(files);
  }

  lemma StaysCarefulLooking(trace: Trace, e: Event)
    requires Careful(trace) && (e.Statted? || e.DirSynced? || e.Healthy? || e.Looked? || e.TemporariesSwept?)
    ensures Careful(trace + [e])
  {
    hide Careful;
    StaysCareful(trace, e);
  }

  method TerminateSource(files: UploadFiles) returns (ok: bool)
    requires Careful(files.log) && |files.log| >= 1 && SeenPresent(Back(files.log, 0), Data)
    modifies files
    ensures files.log == old(files.log) + [Terminated(ok)] && Careful(files.log)
  {
    hide Careful;
    ok := files.Terminate();
    StaysCareful(old(files.log), Terminated(ok));
  }

  /** The orphan was unlinked, or there was nothing left of either. */
  predicate Cleared(trace: Trace) {
    && |trace| >= 2
    && (Back(trace, 0) == Unlinked(Data, true) || Back(trace, 0) == Unlinked(Info, true)
        || (Back(trace, 1) == Statted(Data, Absent) && Back(trace, 0) == Statted(Info, Absent)))
  }

  /** tusd cannot address a data file without its sidecar, nor will it remove a sidecar without its data file. */
  method UnlinkOrphans(files: UploadFiles) returns (removed: bool)
    requires Careful(files.log) && |files.log| >= 1 && Back(files.log, 0) == DirSynced(true)
    modifies files
    ensures old(files.log) <= files.log && Careful(files.log)
    ensures removed <==> Cleared(files.log)
    ensures !removed ==> Stopped(files.log)
    ensures ArtifactsRemoved in files.log ==> ArtifactsRemoved in old(files.log)
  {
    hide Careful;
    var data := files.Stat(Data);
    StaysCareful(old(files.log), Statted(Data, data));
    if data.Ambiguous? { return false; }
    ghost var before := files.log;
    var info := files.Stat(Info);
    StaysCareful(before, Statted(Info, info));
    if info.Ambiguous? { return false; }
    var dataGone, infoGone := data.Absent?, info.Absent?;

    before := files.log;
    if !dataGone && infoGone {
      var unlinked := files.Unlink(Data);
      StaysCareful(before, Unlinked(Data, unlinked));
      if !unlinked { return false; }
      dataGone := true;
    }
    if dataGone && !infoGone {
      var unlinked := files.Unlink(Info);
      StaysCareful(before, Unlinked(Info, unlinked));
      if !unlinked { return false; }
    }
    removed := dataGone;
  }

  /** The last look: each path once more, after the directory was synced again. */
  method VerifyGone(files: UploadFiles) returns (gone: bool)
    requires Careful(files.log)
    modifies files
    ensures old(files.log) <= files.log && Careful(files.log)
    ensures gone <==> SeenGone(files.log)
    ensures gone || Stopped(files.log)
    ensures ArtifactsRemoved in files.log ==> ArtifactsRemoved in old(files.log)
  {
    hide Careful, Justified;
    var synced := files.SyncDir();
    StaysCarefulLooking(old(files.log), DirSynced(synced));
    if !synced { return false; }
    ghost var before := files.log;
    var data := files.Stat(Data);
    StaysCarefulLooking(before, Statted(Data, data));
    if !data.Absent? { return false; }
    before := files.log;
    var info := files.Stat(Info);
    StaysCarefulLooking(before, Statted(Info, info));
    return info.Absent?;
  }

  /** retryCleanup: the job stays in the stage it was claimed in. */
  method RetryCleanup(store: S.Store, j: Job, u: UploadId, token: Token, next: Time, now: Time)
    returns (ghost before: U.Db)
    modifies store
    ensures store.State() == Closing(before, j, u, token, false, next, now)
  {
    B.Others(store);
    before := store.State();
    var _ := store.ReleaseForRetry(u, token, j.status, next, U.CleanupFailures, now);
  }

  method FinishBySourceRemoval(store: S.Store, files: UploadFiles, j: Job, u: UploadId, token: Token, next: Time, now: Time)
    returns (ghost before: U.Db)
    requires Careful(files.log)
    modifies store, files
    ensures old(files.log) <= files.log && Careful(files.log)
    ensures SeenGone(files.log) || Stopped(files.log)
    ensures ArtifactsRemoved in files.log ==> ArtifactsRemoved in old(files.log)
    ensures store.State() == Closing(before, j, u, token, SeenGone(files.log), next, now)
  {
    hide Careful, S.Store.State;
    var removed := RemoveSource(files);
    if !removed {
      before := RetryCleanup(store, j, u, token, next, now);
      return;
    }
    var gone := VerifyGone(files);
    if !gone {
      before := RetryCleanup(store, j, u, token, next, now);
      return;
    }
    before := CommitTerminal(store, j, u, token, next, now);
  }

  method CommitTerminal(store: S.Store, j: Job, u: UploadId, token: Token, next: Time, now: Time)
    returns (ghost before: U.Db)
    modifies store
    ensures store.State() == Closing(before, j, u, token, true, next, now)
  {
    B.Others(store);
    before := store.State();
    var _ := store.FinishJob(u, token, TerminalOf(j), ReasonOf(j), now);
  }

  /** deletionAllowed and removeArtifactsIfUnowned: false when the caller must stop, having retried. */
  method RemoveArtifactsIfUnowned(files: UploadFiles) returns (goOn: bool)
    requires Careful(files.log) && |files.log| >= 1 && Back(files.log, 0) == Healthy(true)
    modifies files
    ensures Careful(files.log)
    ensures || (goOn && files.log == old(files.log) + [Looked(NoRow), ArtifactsRemoved])
            || (goOn && files.log == old(files.log) + [Looked(Owned)])
            || (!goOn && files.log == old(files.log) + [Looked(Unknown)])
  {
    hide Careful;
    var owner := files.LookUpOwner();
    StaysCareful(old(files.log), Looked(owner));
    if owner.NoRow? {
      ghost var before := files.log;
      files.Note(ArtifactsRemoved);
      StaysCareful(before, ArtifactsRemoved);
    }
    return !owner.Unknown?;
  }

  /**
    Whatever the file system, the terminator and the ownership look-up answer, the
    attempt commits its terminal state exactly when both paths were seen absent
    after its last directory sync. Otherwise the last answer was an obstacle, and
    the job stays in its own stage.
  */
  method RunCleanup(store: S.Store, files: UploadFiles, j: Job, u: UploadId, token: Token, next: Time, now: Time)
    returns (ghost before: U.Db)
    requires j.status == Cleanup && files.log == []
    modifies store, files
    ensures Careful(files.log) && (SeenGone(files.log) || Stopped(files.log))
    ensures ArtifactsRemoved in files.log ==> j.result.Some? && j.result.value != j.mediaId
    ensures store.State() == Closing(before, j, u, token, SeenGone(files.log), next, now)
    ensures EndsTruly(files.log, before, store.State(), j, u, token, now)
  {
    hide Careful, Justified, Closing, EndsTruly, S.Store.State;
    StaysCarefulFromNothing();
    var goOn := files.CheckHealth();
    StaysCarefulLooking([], Healthy(goOn));
    if goOn && j.result.Some? && j.result.value != j.mediaId {
      goOn := RemoveArtifactsIfUnowned(files);
    }
    if goOn {
      SweepTemporaries(files);
      before := FinishBySourceRemoval(store, files, j, u, token, next, now);
    } else {
      before := RetryCleanup(store, j, u, token, next, now);
    }
    ClosingEndsTruly(files.log, before, j, u, token, next, now);
  }

  method RunDiscard(store: S.Store, files: UploadFiles, j: Job, u: UploadId, token: Token, next: Time, now: Time)
    returns (ghost before: U.Db)
    requires j.status == Discarding && files.log == []
    modifies store, files
    ensures Careful(files.log) && (SeenGone(files.log) || Stopped(files.log))
    ensures store.State() == Closing(before, j, u, token, SeenGone(files.log), next, now)
    ensures EndsTruly(files.log, before, store.State(), j, u, token, now)
  {
    hide Careful, Justified, Closing, EndsTruly, S.Store.State;
    StaysCarefulFromNothing();
    var goOn := files.CheckHealth();
    StaysCarefulLooking([], Healthy(goOn));
    if goOn {
      goOn := RemoveArtifactsIfUnowned(files);
    }
    if goOn {
      SweepTemporaries(files);
      before := FinishBySourceRemoval(store, files, j, u, token, next, now);
    } else {
      before := RetryCleanup(store, j, u, token, next, now);
    }
    ClosingEndsTruly(files.log, before, j, u, token, next, now);
  }

  method SweepTemporaries(files: UploadFiles)
    requires Careful(files.log)
    modifies files
    ensures files.log == old(files.log) + [TemporariesSwept] && Careful(files.log)
  {
    files.Note(TemporariesSwept);
    StaysCareful(old(files.log), TemporariesSwept);
  }

  lemma StaysCarefulFromNothing()
    ensures Careful([])
  {}
}
