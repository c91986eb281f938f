/** Every run of the system keeps the invariant; the properties guests rely on follow. */
module IngestSafety {
  import opened Records
  import opened UploadJobs
  import opened World
  import opened Invariant
  import opened Frames
  import opened Footprints
  import opened TransferSteps
  import opened ProcessingSteps
  import opened WorkerSteps
  import opened OtherSteps

  // ---- every step ----

  lemma TransferKeeps(w: World, s: Step)
    requires Inv(w) && EnabledTransfer(w, s)
    ensures Inv(ApplyTransfer(w, s))
  {
    hide Inv, EnabledTransfer, ApplyTransfer;
    TransferKinds(w, s);
    match s {
      case PreCreate(u, m, size, declared) => PreCreateKeeps(w, u, m, size, declared);
      case CreateFiles(u) => CreateFilesKeeps(w, u);
      case Write(u, chunk) => WriteKeeps(w, u, chunk);
      case RequestCancellation(u) => RequestCancellationKeeps(w, u);
      case Sweep(idleBefore) => SweepKeeps(w, idleBefore);
      case ListStale(ids, idleBefore) => ListStaleKeeps(w, ids, idleBefore);
      case MarkUnobservable(u) => MarkUnobservableKeeps(w, u);
    }
  }

  lemma BarrierKeeps(w: World, s: Step)
    requires Inv(w) && EnabledBarrier(w, s)
    ensures Inv(ApplyBarrier(w, s))
  {
    hide Inv, EnabledBarrier, ApplyBarrier;
    BarrierKinds(w, s);
    match s {
      case BarrierJoinDone(u) => BarrierJoinDoneKeeps(w, u);
      case BarrierRead(b, u) => BarrierReadKeeps(w, b, u);
      case BarrierStat(b) => BarrierStatKeeps(w, b);
      case BarrierFlush(b) => BarrierFlushKeeps(w, b);
      case BarrierPromote(b) => BarrierPromoteKeeps(w, b);
      case BarrierClassify(b) => BarrierClassifyKeeps(w, b);
      case BarrierDrop(b) => BarrierDropIsKept(w, b);
    }
  }

  lemma JanitorKeeps(w: World, s: Step)
    requires Inv(w) && EnabledJanitor(w, s)
    ensures Inv(ApplyJanitor(w, s))
  {
    hide Inv, ApplyJanitor, At, Removing, SourceOf, Holds, StillOwned, IsUploading;
    match s {
      case JanitorClaim(k, u) => JanitorClaimKeeps(w, k, u);
      case JanitorRead(k) => JanitorReadKeeps(w, k);
      case JanitorDelete(k, dropData, dropInfo) => JanitorDeleteKeeps(w, k, dropData, dropInfo);
      case JanitorDrop(k) => JanitorDropIsKept(w, k);
    }
  }

  lemma AttemptKeeps(r: Rules, w: World, s: Step)
    requires Inv(w) && EnabledAttempt(r, w, s)
    ensures Inv(ApplyAttempt(r, w, s))
  {
    hide Inv, ApplyAttempt, At, Removing, SourceOf, Holds, StillOwned, IsUploading;
    match s {
      case Claim(t, u, from, to, reading, deadline) => ClaimKeeps(r, w, t, u, from, to, reading, deadline);
      case Fail(t, next) => FailKeeps(r, w, t, next);
      case Vanish(t) => VanishKeeps(r, w, t);
    }
  }

  lemma ProcessingKeeps(r: Rules, w: World, s: Step)
    requires Inv(w) && EnabledProcessing(w, s)
    ensures Inv(ApplyProcessing(r, w, s))
  {
    hide Inv, EnabledProcessing, ApplyProcessing;
    ProcessingKinds(w, s);
    match s {
      case Hash(t) => HashKeeps(r, w, t);
      case RecordIdentity(t) => RecordIdentityKeeps(r, w, t);
      case ReuseOriginal(t) => ReuseOriginalKeeps(r, w, t);
      case Copy(t) => CopyKeeps(r, w, t);
      case Rename(t) => RenameKeeps(r, w, t);
      case SyncOriginal(t) => SyncOriginalKeepsInv(r, w, t);
      case Verify(t) => VerifyKeeps(r, w, t);
      case RecordPrepared(t) => RecordPreparedKeeps(r, w, t);
      case CheckDuplicate(t) => CheckDuplicateKeeps(r, w, t);
      case Derive(t, thumbnail, preview) => DeriveKeeps(r, w, t, thumbnail, preview);
      case Publish(t) => PublishKeeps(r, w, t);
      case Reject(t) => RejectKeeps(r, w, t);
    }
  }

  lemma RemovalKeeps(w: World, s: Step)
    requires Inv(w) && EnabledRemoval(w, s)
    ensures Inv(ApplyRemoval(w, s))
  {
    hide Inv, ApplyRemoval, At, Removing, SourceOf, Holds, StillOwned, IsUploading;
    match s {
      case CheckOwner(t) => CheckOwnerKeeps(w, t);
      case KeepArtifacts(t) => KeepArtifactsKeeps(w, t);
      case RemoveArtifact(t, art) => RemoveArtifactKeeps(w, t, art);
      case EndArtifacts(t) => EndArtifactsKeeps(w, t);
      case LookForSource(t) => LookForSourceKeeps(w, t);
      case ReadBeforeDelete(t) => ReadBeforeDeleteKeeps(w, t);
      case Delete(t, dropData, dropInfo) => DeleteKeeps(w, t, dropData, dropInfo);
      case UnlinkData(t) => UnlinkDataKeeps(w, t);
      case UnlinkInfo(t) => UnlinkInfoKeeps(w, t);
      case ConfirmGone(t) => ConfirmGoneKeeps(w, t);
      case Finish(t) => FinishKeeps(w, t);
    }
  }

  lemma OtherKeeps(w: World, s: Step)
    requires Inv(w) && EnabledOther(w, s)
    ensures Inv(ApplyOther(w, s))
  {
    hide Inv, ApplyOther, At, Removing, SourceOf, Holds, StillOwned, IsUploading;
    match s {
      case DecideReopen(u) => DecideReopenKeeps(w, u);
      case Reopen => ReopenKeeps(w);
      case DeleteUnobservable(u) => DeleteUnobservableKeeps(w, u);
      case Adopt(u, m, declared) => AdoptKeeps(w, u, m, declared);
      case Expire(gone, cutoff) => ExpireKeeps(w, gone, cutoff);
      case SetMediaStatus(m, status) => SetMediaStatusKeeps(w, m, status);
      case OpenStage(s0, m) => OpenStageKeeps(w, s0, m);
      case StageFile(s0, art) => StageFileKeeps(w, s0, art);
      case PurgeCommit(gone) => PurgeCommitKeeps(w, gone);
      case DoomStage(s0) => DoomStageKeeps(w, s0);
      case FinalizeFile(s0, art) => FinalizeFileKeeps(w, s0, art);
      case RestoreFile(s0, art) => RestoreFileKeeps(w, s0, art);
      case Tick(micros) => TickIsKept(w, micros);
      case Reappear(u, f) => ReappearKeeps(w, u, f);
      case Crash(sources, live) => CrashKeeps(w, sources, live);
      case RequeueAndStart => RequeueAndStartKeeps(w);
      case StartWithoutRequeue => StartWithoutRequeueKeeps(w);
    }
  }

  lemma StepKeeps(r: Rules, w: World, s: Step)
    requires Inv(w) && Enabled(r, w, s)
    ensures Inv(Apply(r, w, s))
  {
    hide Inv, EnabledTransfer, EnabledBarrier, EnabledJanitor;
    hide EnabledAttempt, EnabledProcessing, EnabledRemoval, EnabledOther;
    hide ApplyTransfer, ApplyBarrier, ApplyJanitor, ApplyAttempt, ApplyProcessing, ApplyRemoval, ApplyOther;
    if EnabledTransfer(w, s) { TransferKeeps(w, s); }
    else if EnabledBarrier(w, s) { BarrierKeeps(w, s); }
    else if EnabledJanitor(w, s) { JanitorKeeps(w, s); }
    else if EnabledAttempt(r, w, s) { AttemptKeeps(r, w, s); }
    else if EnabledProcessing(w, s) { ProcessingKeeps(r, w, s); }
    else if EnabledRemoval(w, s) { RemovalKeeps(w, s); }
    else { OtherKeeps(w, s); }
  }
}
