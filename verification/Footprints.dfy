/** Which parts of the world each group of steps may change. */
module Footprints {
  import opened Records
  import opened UploadJobs
  import opened World

  // ---- which steps a group has ----

  lemma TransferKinds(w: World, s: Step)
    requires EnabledTransfer(w, s)
    ensures s.PreCreate? || s.CreateFiles? || s.Write? || s.RequestCancellation? || s.Sweep? || s.ListStale?
            || s.MarkUnobservable?
  {}

  lemma BarrierKinds(w: World, s: Step)
    requires EnabledBarrier(w, s)
    ensures s.BarrierJoinDone? || s.BarrierRead? || s.BarrierStat? || s.BarrierFlush? || s.BarrierPromote?
            || s.BarrierClassify? || s.BarrierDrop?
  {}

  lemma ProcessingKinds(w: World, s: Step)
    requires EnabledProcessing(w, s)
    ensures s.Hash? || s.RecordIdentity? || s.ReuseOriginal? || s.Copy? || s.Rename? || s.SyncOriginal? || s.Verify?
            || s.RecordPrepared? || s.CheckDuplicate? || s.Derive? || s.Publish? || s.Reject?
  {}

  // ---- what they change ----

  lemma TransferFootprint(w: World, s: Step)
    requires EnabledTransfer(w, s)
    ensures var x := ApplyTransfer(w, s);
      x == w.(db := x.db, sources := x.sources, awaiting := x.awaiting, known := x.known,
              usedMedia := x.usedMedia, flushed := x.flushed, listed := x.listed)
  {
    hide EnabledTransfer, ApplyTransfer;
    TransferKinds(w, s);
    if s.CreateFiles? || s.Write? || s.ListStale? { SendingFootprint(w, s); } else { AdmissionFootprint(w, s); }
  }

  lemma SendingFootprint(w: World, s: Step)
    requires EnabledTransfer(w, s) && (s.CreateFiles? || s.Write? || s.ListStale?)
    ensures var x := ApplyTransfer(w, s);
      x == w.(sources := x.sources, awaiting := x.awaiting, flushed := x.flushed, listed := x.listed)
  {
    hide SourceOf, IsStale;
  }

  lemma SendingLeavesRows(w: World, s: Step)
    requires EnabledTransfer(w, s) && (s.CreateFiles? || s.Write? || s.ListStale?)
    ensures ApplyTransfer(w, s).db == w.db
  {
    hide SourceOf, IsStale;
  }

  lemma AdmissionFootprint(w: World, s: Step)
    requires EnabledTransfer(w, s)
    requires s.PreCreate? || s.RequestCancellation? || s.Sweep? || s.MarkUnobservable?
    ensures var x := ApplyTransfer(w, s);
      x == w.(db := x.db, awaiting := x.awaiting, known := x.known, usedMedia := x.usedMedia, listed := x.listed)
  {
    hide CanCreate, NewJob, SweepCancelled, CancelRow, UnobservableRow, IsUploading;
  }

  lemma TransferLeavesSources(w: World, s: Step)
    requires EnabledTransfer(w, s) && !s.CreateFiles? && !s.Write?
    ensures ApplyTransfer(w, s).sources == w.sources && ApplyTransfer(w, s).flushed == w.flushed
  {
    hide SourceOf, CanCreate, NewJob, SweepCancelled, CancelRow, UnobservableRow, IsStale, IsUploading;
  }

  lemma RemovalLeavesSources(w: World, s: Step)
    requires EnabledRemoval(w, s) && !s.Delete? && !s.UnlinkData? && !s.UnlinkInfo?
    ensures ApplyRemoval(w, s).sources == w.sources
  {
    hide Closed, SourceOf;
    if s.Finish? { ClosedFootprint(w, s.t); }
  }

  lemma BarrierFootprint(w: World, s: Step)
    requires EnabledBarrier(w, s)
    ensures var x := ApplyBarrier(w, s);
      x == w.(db := x.db, barriers := x.barriers, flushed := x.flushed, durable := x.durable, acked := x.acked)
  {
    hide PromotedWorld;
    if s.BarrierPromote? && CanPromote(w.db, w.barriers[s.b].u) { PromotionFootprint(w, s.b); }
  }

  lemma BarrierFlushesMore(w: World, s: Step)
    requires EnabledBarrier(w, s)
    ensures w.flushed <= ApplyBarrier(w, s).flushed
  {
    hide PromotedWorld;
    if s.BarrierPromote? && CanPromote(w.db, w.barriers[s.b].u) { PromotionFootprint(w, s.b); }
  }

  lemma PromotionFootprint(w: World, b: nat)
    requires b in w.barriers && w.barriers[b].u in w.db.jobs
    ensures var x := PromotedWorld(w, b);
      x == w.(db := x.db, barriers := x.barriers, durable := x.durable, acked := x.acked)
  {}

  lemma JanitorFootprint(w: World, s: Step)
    requires EnabledJanitor(w, s)
    ensures var x := ApplyJanitor(w, s); x == w.(db := x.db, janitors := x.janitors, sources := x.sources)
  {}

  lemma RetriedFootprint(w: World, t: Token, next: Time)
    requires t in w.attempts
    ensures var x := Retried(w, t, next); x == w.(db := x.db, attempts := x.attempts)
  {}

  lemma AttemptFootprint(r: Rules, w: World, s: Step)
    requires EnabledAttempt(r, w, s)
    ensures var x := ApplyAttempt(r, w, s); x == w.(db := x.db, attempts := x.attempts)
  {
    hide Retried;
    if s.Fail? { RetriedFootprint(w, s.t, s.next); }
  }

  lemma ProcessingFootprint(r: Rules, w: World, s: Step)
    requires EnabledProcessing(w, s)
    ensures var x := ApplyProcessing(r, w, s);
      x == w.(db := x.db, attempts := x.attempts, live := x.live,
              flushedOriginals := x.flushedOriginals, published := x.published)
  {
    hide EnabledProcessing, ApplyProcessing;
    if s.RecordIdentity? || s.RecordPrepared? || s.Publish? || s.Reject? {
      EndingFootprint(r, w, s);
    } else {
      LookingFootprint(r, w, s);
    }
  }

  lemma EndingFootprint(r: Rules, w: World, s: Step)
    requires EnabledProcessing(w, s) && (s.RecordIdentity? || s.RecordPrepared? || s.Publish? || s.Reject?)
    ensures var x := ApplyProcessing(r, w, s); x == w.(db := x.db, attempts := x.attempts, published := x.published)
  {
    hide Holds, PublishedWorld, FinishRow, RecordIdentityRow, RecordPreparedRow;
  }

  lemma LookingFootprint(r: Rules, w: World, s: Step)
    requires EnabledProcessing(w, s) && !s.RecordIdentity? && !s.RecordPrepared? && !s.Publish? && !s.Reject?
    ensures var x := ApplyProcessing(r, w, s);
      x == w.(attempts := x.attempts, live := x.live, flushedOriginals := x.flushedOriginals)
  {
    hide SourceOf, WithDerived;
  }

  lemma ProcessingLeavesRows(r: Rules, w: World, s: Step)
    requires EnabledProcessing(w, s) && !s.RecordIdentity? && !s.RecordPrepared? && !s.Publish? && !s.Reject?
    ensures ApplyProcessing(r, w, s).db == w.db
  {
    hide EnabledProcessing, ApplyProcessing;
    LookingFootprint(r, w, s);
  }

  lemma ClosedFootprint(w: World, t: Token)
    requires t in w.attempts
    ensures var x := Closed(w, t); x == w.(db := x.db, attempts := x.attempts)
  {}

  lemma RemovalFootprint(w: World, s: Step)
    requires EnabledRemoval(w, s)
    ensures var x := ApplyRemoval(w, s);
      && x == w.(db := x.db, attempts := x.attempts, live := x.live, sources := x.sources)
      && (s.Finish? || x.db == w.db)
  {
    hide Closed;
    if s.Finish? { ClosedFootprint(w, s.t); }
  }

  lemma OtherFootprint(w: World, s: Step)
    requires EnabledOther(w, s)
    ensures !s.PurgeCommit? ==> ApplyOther(w, s).latePurged == w.latePurged
    ensures !s.Reappear? && !s.Crash? ==> ApplyOther(w, s).sources == w.sources
    ensures !s.Crash? ==> ApplyOther(w, s).attempts == w.attempts
  {
    hide EnabledOther, ApplyOther;
    if !s.PurgeCommit? { OtherPurgesNothing(w, s); }
    if !s.Reappear? && !s.Crash? { OtherLeavesSources(w, s); }
    if !s.Crash? { OtherLeavesAttempts(w, s); }
  }

  lemma OtherPurgesNothing(w: World, s: Step)
    requires EnabledOther(w, s) && !s.PurgeCommit?
    ensures ApplyOther(w, s).latePurged == w.latePurged
  {
    hide SourceOf, SourceComplete, SurvivingSources, SurvivingFiles, CanCreate, NewJob, ReopenRow;
    hide DropMedia, RequeueStartup, Unattended, Expired, CanPurge, StillOwned;
  }

  lemma OtherLeavesSources(w: World, s: Step)
    requires EnabledOther(w, s) && !s.Reappear? && !s.Crash?
    ensures ApplyOther(w, s).sources == w.sources
  {
    hide SourceOf, SourceComplete, SurvivingSources, SurvivingFiles, CanCreate, NewJob, ReopenRow;
    hide DropMedia, RequeueStartup, Unattended, Expired, CanPurge, StillOwned;
  }

  lemma OtherLeavesAttempts(w: World, s: Step)
    requires EnabledOther(w, s) && !s.Crash?
    ensures ApplyOther(w, s).attempts == w.attempts
  {
    hide SourceOf, SourceComplete, SurvivingSources, SurvivingFiles, CanCreate, NewJob, ReopenRow;
    hide DropMedia, RequeueStartup, Unattended, Expired, CanPurge, StillOwned;
  }

  lemma OtherLeavesTransfers(w: World, s: Step)
    requires EnabledOther(w, s)
    ensures ApplyOther(w, s).awaiting == w.awaiting
    ensures !s.Reappear? ==> ApplyOther(w, s).flushed == w.flushed
  {
    hide SourceOf, SourceComplete, SurvivingSources, SurvivingFiles, CanCreate, NewJob, ReopenRow;
    hide DropMedia, RequeueStartup, Unattended, Expired, CanPurge, StillOwned;
  }
}
