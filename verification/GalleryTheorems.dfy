/** What is published stays published, with its exact original, until it is purged. */
module GalleryTheorems {
  import opened Records
  import opened UploadJobs
  import opened World
  import opened Invariant
  import opened Frames
  import opened IngestSafety
  import opened IngestTheorems
  import opened Footprints

  /** The commit that deletes this media row. */
  predicate Purges(s: Step, m: MediaId) {
    s.PurgeCommit? && m in s.gone
  }

  /** The row is still there, for the same content. */
  predicate StillShows(db: Db, db': Db, m: MediaId) {
    m in db.media && m in db'.media && db'.media[m].sha == db.media[m].sha
  }

  lemma TransferLeavesMedia(w: World, s: Step)
    requires EnabledTransfer(w, s)
    ensures ApplyTransfer(w, s).db.media == w.db.media
  {
    hide SourceOf, CanCreate, NewJob, CancelRow, UnobservableRow, IsStale, IsUploading;
  }

  lemma BarrierLeavesMedia(w: World, s: Step)
    requires EnabledBarrier(w, s)
    ensures ApplyBarrier(w, s).db.media == w.db.media
  {
    hide PromotedWorld;
    if s.BarrierPromote? && CanPromote(w.db, w.barriers[s.b].u) { PromotionLeavesMedia(w, s.b); }
  }

  lemma PromotionLeavesMedia(w: World, b: nat)
    requires b in w.barriers && w.barriers[b].u in w.db.jobs
    ensures PromotedWorld(w, b).db.media == w.db.media
  {}

  lemma JanitorLeavesMedia(w: World, s: Step)
    requires EnabledJanitor(w, s)
    ensures ApplyJanitor(w, s).db.media == w.db.media
  {}

  lemma AttemptLeavesMedia(r: Rules, w: World, s: Step)
    requires EnabledAttempt(r, w, s)
    ensures ApplyAttempt(r, w, s).db.media == w.db.media
  {
    hide RetriedRow, ClaimRow, IsDue;
  }

  lemma ProcessingLeavesMedia(r: Rules, w: World, s: Step)
    requires EnabledProcessing(w, s) && !s.Publish?
    ensures ApplyProcessing(r, w, s).db.media == w.db.media
  {
    hide ApplyProcessing, EnabledProcessing;
    if s.Reject? || s.RecordIdentity? || s.RecordPrepared? {
      RowChangeLeavesMedia(r, w, s);
    } else {
      ProcessingLeavesRows(r, w, s);
    }
  }

  lemma RowChangeLeavesMedia(r: Rules, w: World, s: Step)
    requires EnabledProcessing(w, s) && (s.Reject? || s.RecordIdentity? || s.RecordPrepared?)
    ensures ApplyProcessing(r, w, s).db.media == w.db.media
  {
    hide FinishRow, RecordIdentityRow, RecordPreparedRow;
  }

  lemma RemovalLeavesMedia(w: World, s: Step)
    requires EnabledRemoval(w, s)
    ensures ApplyRemoval(w, s).db.media == w.db.media
  {
    hide ApplyRemoval, EnabledRemoval;
    RemovalFootprint(w, s);
    if s.Finish? { FinishLeavesMedia(w, s.t); }
  }

  lemma FinishLeavesMedia(w: World, t: Token)
    requires EnabledRemoval(w, Finish(t))
    ensures ApplyRemoval(w, Finish(t)).db.media == w.db.media
  {
    hide ClosedRow;
  }

  /** A publication inserts under an id no media row has. */
  lemma PublishAdds(r: Rules, w: World, t: Token, m: MediaId)
    requires Inv(w) && EnabledProcessing(w, Publish(t)) && m in w.db.media
    ensures StillShows(w.db, ApplyProcessing(r, w, Publish(t)).db, m)
  {
    hide Inv, Relies, Believes, SourceIntact, PublishedWorld;
    if CanPublish(w.db, w.attempts[t].u, t) {
      AttemptFacts(w, t);
      ShownIsPublished(w, m);
      PublicationAdds(w, t, m);
    }
  }

  lemma ShownIsPublished(w: World, m: MediaId)
    requires Inv(w) && m in w.db.media
    ensures m in w.published
  {
    hide QueueInv, SourceInv, WorkInv;
  }

  lemma PublicationAdds(w: World, t: Token, m: MediaId)
    requires t in w.attempts && w.attempts[t].u in w.db.jobs
    requires m in w.db.media && m != w.attempts[t].job.mediaId
    ensures StillShows(w.db, PublishedWorld(w, t).db, m)
  {}

  lemma OtherSparesMedia(w: World, s: Step, m: MediaId)
    requires EnabledOther(w, s) && m in w.db.media && !Purges(s, m)
    ensures StillShows(w.db, ApplyOther(w, s).db, m)
  {}

  /** Only a purge of that very row ends a publication. */
  lemma ShownStays(r: Rules, w: World, s: Step, m: MediaId)
    requires Inv(w) && Enabled(r, w, s) && m in w.db.media && !Purges(s, m)
    ensures StillShows(w.db, Apply(r, w, s).db, m)
  {
    hide Inv, Purges;
    hide EnabledTransfer, EnabledBarrier, EnabledJanitor, EnabledAttempt;
    hide EnabledProcessing, EnabledRemoval, EnabledOther;
    hide ApplyTransfer, ApplyBarrier, ApplyJanitor, ApplyAttempt, ApplyProcessing, ApplyRemoval, ApplyOther;
    if EnabledTransfer(w, s) { TransferLeavesMedia(w, s); }
    else if EnabledBarrier(w, s) { BarrierLeavesMedia(w, s); }
    else if EnabledJanitor(w, s) { JanitorLeavesMedia(w, s); }
    else if EnabledAttempt(r, w, s) { AttemptLeavesMedia(r, w, s); }
    else if EnabledProcessing(w, s) {
      if s.Publish? { PublishAdds(r, w, s.t, m); } else { ProcessingLeavesMedia(r, w, s); }
    }
    else if EnabledRemoval(w, s) { RemovalLeavesMedia(w, s); }
    else { OtherSparesMedia(w, s, m); }
  }

  lemma {:induction false} ShownThroughout(r: Rules, ws: seq<World>, ss: seq<Step>, i: nat, j: nat, m: MediaId)
    requires IsRun(r, ws, ss) && i <= j < |ws| && m in ws[i].db.media
    requires forall k | i <= k < j :: !Purges(ss[k], m)
    ensures StillShows(ws[i].db, ws[j].db, m)
  {
    hide Inv, Initial, Enabled, Apply, Purges;
    if i == j {
    } else {
      ShownThroughout(r, ws, ss, i, j - 1, m);
      RunKeepsInv(r, ws, ss, j - 1);
      ShownStays(r, ws[j - 1], ss[j - 1], m);
    }
  }

  /**
    Every media row has its exact original, in place or staged, in every state from
    its publication until the purge of that row, whether or not the job that
    published it still has a row of its own.
    */
  lemma PublishedOriginalsAreKept(r: Rules, ws: seq<World>, ss: seq<Step>, i: nat, j: nat, m: MediaId)
    requires IsRun(r, ws, ss) && i <= j < |ws| && m in ws[i].db.media
    requires forall k | i <= k < j :: !Purges(ss[k], m)
    ensures m in ws[j].db.media && ws[j].db.media[m].sha == ws[i].db.media[m].sha
    ensures OriginalKept(ws[j], m, ws[i].db.media[m].sha)
  {
    hide Inv, Initial, Enabled, Apply, OriginalKept, Purges;
    ShownThroughout(r, ws, ss, i, j, m);
    RunKeepsInv(r, ws, ss, j);
    ResultKept(ws[j], m);
  }
}
