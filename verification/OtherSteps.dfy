/** The reconciler, moderation, purge, crashes and restarts keep the invariant. */
module OtherSteps {
  import opened Records
  import opened UploadJobs
  import opened World
  import opened Invariant
  import opened Frames

  // ---- the reconciler ----

  lemma ReopeningQueue(w: World, r': Option<Reopening>)
    requires QueueInv(w) && ReopensTerminal(w.db.jobs, r')
    ensures QueueInv(w.(reopening := r'))
  {}

  lemma ReopeningKeeps(w: World, r': Option<Reopening>)
    requires Inv(w) && ReopensTerminal(w.db.jobs, r')
    ensures Inv(w.(reopening := r'))
  {
    hide QueueInv, SourceInv, MediaInv;
    ReopeningQueue(w, r');
    SameSources(w, w.(reopening := r'));
    SameMedia(w, w.(reopening := r'));
  }

  lemma DecideReopenKeeps(w: World, u: UploadId)
    requires Inv(w) && EnabledOther(w, DecideReopen(u))
    ensures Inv(ApplyOther(w, DecideReopen(u)))
  {
    hide Inv;
    ReopeningKeeps(w, ApplyOther(w, DecideReopen(u)).reopening);
  }

  lemma ReopenedRowLeases(w: World, u: UploadId, target: Status)
    requires QueueInv(w) && w.reopening == Some(Reopening(u, target)) && u in w.db.jobs
    ensures var jobs' := WithJob(w, u, ReopenRow(w.db.jobs[u], target, w.clock)).db.jobs;
      Fenced(jobs', w.attempts) && Attended(jobs', w.attempts) && Timely(jobs', w.attempts, w.clock)
  {
    hide DistinctMedia, Allocated, Quiet, Acknowledged, Janitors;
  }

  lemma ReopenedRowTable(w: World, u: UploadId, target: Status)
    requires QueueInv(w) && w.reopening == Some(Reopening(u, target)) && u in w.db.jobs
    ensures var jobs' := WithJob(w, u, ReopenRow(w.db.jobs[u], target, w.clock)).db.jobs;
      Rows(jobs') && DistinctMedia(jobs') && Allocated(jobs', w.published, w.usedMedia)
      && Janitors(jobs', w.janitors) && Acknowledged(jobs', w.acked, w.usedMedia)
  {
    hide Fenced, Attended, Timely, Quiet;
  }

  lemma ReopenedRowQueue(w: World, u: UploadId, target: Status)
    requires QueueInv(w) && w.reopening == Some(Reopening(u, target))
    ensures u in w.db.jobs
    ensures QueueInv(WithJob(w, u, ReopenRow(w.db.jobs[u], target, w.clock)).(reopening := None))
  {
    assert u in w.db.jobs;
    hide Rows, DistinctMedia, Allocated, Fenced, Attended, Timely, Quiet, Janitors, Acknowledged;
    ReopenedRowLeases(w, u, target);
    ReopenedRowTable(w, u, target);
  }

  lemma ReopenedRowSources(w: World, u: UploadId, target: Status)
    requires SourceInv(w) && ReopensTerminal(w.db.jobs, w.reopening) && w.reopening == Some(Reopening(u, target))
    requires RowShape(w.db.jobs[u])
    ensures SourceInv(WithJob(w, u, ReopenRow(w.db.jobs[u], target, w.clock)))
  {
    hide Transfers, DurableSources, Identifies;
    ReopenedRowRest(w, u, target);
  }

  lemma ReopenedRowRest(w: World, u: UploadId, target: Status)
    requires SourceInv(w) && ReopensTerminal(w.db.jobs, w.reopening) && w.reopening == Some(Reopening(u, target))
    requires RowShape(w.db.jobs[u])
    ensures var jobs' := WithJob(w, u, ReopenRow(w.db.jobs[u], target, w.clock)).db.jobs;
      && Transfers(jobs', w.sources, w.awaiting, w.known)
      && DurableSources(jobs', w.sources, w.durable, w.flushed)
      && Identifies(jobs', w.attempts, w.durable)
  {
    hide Barriers, Transfers, DurableSources, Identifies;
    ReopenedRowTransfers(w, u, target);
    ReopenedRowDurable(w, u, target);
    ReopenedRowIdentifies(w, u, target);
  }

  lemma ReopenedRowTransfers(w: World, u: UploadId, target: Status)
    requires SourceInv(w) && ReopensTerminal(w.db.jobs, w.reopening) && w.reopening == Some(Reopening(u, target))
    ensures var jobs' := WithJob(w, u, ReopenRow(w.db.jobs[u], target, w.clock)).db.jobs;
      Transfers(jobs', w.sources, w.awaiting, w.known)
  {
    hide Barriers, DurableSources, Identifies;
  }

  lemma ReopenedRowDurable(w: World, u: UploadId, target: Status)
    requires SourceInv(w) && ReopensTerminal(w.db.jobs, w.reopening) && w.reopening == Some(Reopening(u, target))
    requires RowShape(w.db.jobs[u])
    ensures var jobs' := WithJob(w, u, ReopenRow(w.db.jobs[u], target, w.clock)).db.jobs;
      DurableSources(jobs', w.sources, w.durable, w.flushed)
  {
    hide Barriers, Transfers, Identifies;
  }

  lemma ReopenedRowIdentifies(w: World, u: UploadId, target: Status)
    requires SourceInv(w) && ReopensTerminal(w.db.jobs, w.reopening) && w.reopening == Some(Reopening(u, target))
    ensures var jobs' := WithJob(w, u, ReopenRow(w.db.jobs[u], target, w.clock)).db.jobs;
      Identifies(jobs', w.attempts, w.durable)
  {
    hide Barriers, DurableSources, Transfers;
  }

  lemma ReopenedRowMedia(w: World, u: UploadId, target: Status)
    requires MediaInv(w) && ReopensTerminal(w.db.jobs, w.reopening) && w.reopening == Some(Reopening(u, target))
    requires RowShape(w.db.jobs[u])
    ensures MediaInv(WithJob(w, u, ReopenRow(w.db.jobs[u], target, w.clock))
                     .(reopened := w.reopened + {w.db.jobs[u].mediaId}))
  {
    hide Gallery, LiveOriginals, Stages, Originals, Prepared, Publications, Resolved, LatePurges, Disowned;
    ReopenedRowAttempts(w, u, target);
    ReopenedRowResults(w, u, target);
  }

  lemma ReopenedRowAttempts(w: World, u: UploadId, target: Status)
    requires WorkInv(w) && ReopensTerminal(w.db.jobs, w.reopening) && w.reopening == Some(Reopening(u, target))
    requires RowShape(w.db.jobs[u])
    ensures var jobs' := w.db.jobs[u := ReopenRow(w.db.jobs[u], target, w.clock)];
      && Prepared(jobs', w.attempts, w.live, w.flushedOriginals)
      && Publications(jobs', w.published, w.durable, w.flushedOriginals)
  {
    hide Resolved, LatePurges, Disowned;
  }

  lemma ReopenedRowResults(w: World, u: UploadId, target: Status)
    requires WorkInv(w) && ReopensTerminal(w.db.jobs, w.reopening) && w.reopening == Some(Reopening(u, target))
    requires RowShape(w.db.jobs[u])
    ensures var jobs' := w.db.jobs[u := ReopenRow(w.db.jobs[u], target, w.clock)];
      && Resolved(jobs', w.db.media, w.durable, w.latePurged, w.reopened + {w.db.jobs[u].mediaId})
      && LatePurges(w.latePurged, w.usedMedia, jobs')
  {
    hide Prepared, Publications, Disowned;
  }

  lemma ReopenKeeps(w: World)
    requires Inv(w) && EnabledOther(w, Reopen)
    ensures Inv(ApplyOther(w, Reopen))
  {
    hide QueueInv, SourceInv, MediaInv;
    var u, target := w.reopening.value.u, w.reopening.value.target;
    TableFacts(w);
    var w1 := WithJob(w, u, ReopenRow(w.db.jobs[u], target, w.clock));
    var w2 := w1.(reopened := w.reopened + {w.db.jobs[u].mediaId});
    ReopenedRowQueue(w, u, target);
    ReopenedRowSources(w, u, target);
    ReopenedRowMedia(w, u, target);
    SameQueue(w1.(reopening := None), w2.(reopening := None));
    SameSources(w1, w2.(reopening := None));
    SameMedia(w2, w2.(reopening := None));
  }

  // ---- rows that go away ----

  lemma FewerRowsQueue(w: World, gone: set<UploadId>)
    requires QueueInv(w)
    requires forall t | t in w.attempts && Running(w.attempts[t]) :: w.attempts[t].u !in gone
    requires forall k | k in w.janitors :: w.janitors[k].u !in gone
    requires w.reopening == None
    ensures QueueInv(w.(db := w.db.(jobs := w.db.jobs - gone)))
  {}

  lemma FewerRowsSources(w: World, gone: set<UploadId>)
    requires SourceInv(w)
    requires forall t | t in w.attempts && Running(w.attempts[t]) :: w.attempts[t].u !in gone
    requires forall b | b in w.barriers && w.barriers[b].u in gone :: Unclaimed(w.db.jobs, w.barriers[b].u)
    ensures SourceInv(w.(db := w.db.(jobs := w.db.jobs - gone)))
  {}

  lemma FewerRowsMedia(w: World, gone: set<UploadId>)
    requires MediaInv(w)
    ensures MediaInv(w.(db := w.db.(jobs := w.db.jobs - gone)))
  {}

  lemma FewerRowsKeep(w: World, gone: set<UploadId>)
    requires Inv(w) && w.reopening == None
    requires forall t | t in w.attempts && Running(w.attempts[t]) :: w.attempts[t].u !in gone
    requires forall k | k in w.janitors :: w.janitors[k].u !in gone
    requires forall b | b in w.barriers && w.barriers[b].u in gone :: Unclaimed(w.db.jobs, w.barriers[b].u)
    ensures Inv(w.(db := w.db.(jobs := w.db.jobs - gone)))
  {
    hide QueueInv, SourceInv, MediaInv;
    FewerRowsQueue(w, gone);
    FewerRowsSources(w, gone);
    FewerRowsMedia(w, gone);
  }

  lemma ExpireKeeps(w: World, gone: set<UploadId>, cutoff: Time)
    requires Inv(w) && EnabledOther(w, Expire(gone, cutoff))
    ensures Inv(ApplyOther(w, Expire(gone, cutoff)))
  {
    hide Inv;
    assert forall u | u in gone :: Unattended(w, u);
    FewerRowsKeep(w, gone);
  }

  lemma UnobservableIsUnattended(w: World, u: UploadId)
    requires QueueInv(w) && u in w.db.jobs && w.db.jobs[u].reason == Unobservable
    ensures forall t | t in w.attempts && Running(w.attempts[t]) :: w.attempts[t].u != u
    ensures forall k | k in w.janitors :: w.janitors[k].u != u
  {}

  lemma DeleteUnobservableKeeps(w: World, u: UploadId)
    requires Inv(w) && EnabledOther(w, DeleteUnobservable(u))
    ensures Inv(ApplyOther(w, DeleteUnobservable(u)))
  {
    hide QueueInv, SourceInv, MediaInv;
    UnobservableIsUnattended(w, u);
    FewerRowsKeep(w, {u});
  }

  // ---- moderation and purge ----

  lemma MediaStatusMedia(w: World, m: MediaId, status: MediaStatus)
    requires MediaInv(w) && m in w.db.media
    ensures MediaInv(w.(db := w.db.(media := w.db.media[m := w.db.media[m].(status := status)])))
  {}

  /** Changes to the gallery, the files and the staging area leave the queue as it was. */
  lemma GalleryOnly(w: World, w': World)
    requires Inv(w) && MediaInv(w')
    requires w'.db.jobs == w.db.jobs && w'.attempts == w.attempts && w'.clock == w.clock && w'.started == w.started
    requires w'.janitors == w.janitors && w'.reopening == w.reopening && w'.acked == w.acked
    requires w'.usedMedia == w.usedMedia && w'.published == w.published && w'.sources == w.sources
    requires w'.awaiting == w.awaiting && w'.known == w.known && w'.durable == w.durable
    requires w'.flushed == w.flushed && w'.barriers == w.barriers
    ensures Inv(w')
  {
    hide QueueInv, SourceInv, MediaInv;
    SameQueue(w, w');
    SameSources(w, w');
  }

  lemma SetMediaStatusKeeps(w: World, m: MediaId, status: MediaStatus)
    requires Inv(w) && EnabledOther(w, SetMediaStatus(m, status))
    ensures Inv(ApplyOther(w, SetMediaStatus(m, status)))
  {
    hide QueueInv, SourceInv, MediaInv;
    MediaStatusMedia(w, m, status);
    GalleryOnly(w, ApplyOther(w, SetMediaStatus(m, status)));
  }

  /** Only the gallery half of the media invariant looks at the staging area. */
  lemma SameWork(w: World, w': World)
    requires WorkInv(w)
    requires w'.db == w.db && w'.attempts == w.attempts && w'.durable == w.durable
    requires w'.flushedOriginals == w.flushedOriginals && w'.published == w.published
    requires w'.latePurged == w.latePurged && w'.reopened == w.reopened && w'.usedMedia == w.usedMedia
    requires forall t | t in w.attempts && Running(w.attempts[t]) && w.attempts[t].job.status == Processing
                        && w.attempts[t].u in w.db.jobs && Working(w.db.jobs[w.attempts[t].u].status)
                        && Path(w.attempts[t].job.mediaId, Original) in w.live ::
               Path(w.attempts[t].job.mediaId, Original) in w'.live
               && w'.live[Path(w.attempts[t].job.mediaId, Original)] == w.live[Path(w.attempts[t].job.mediaId, Original)]
    ensures WorkInv(w')
  {}

  lemma WorkedOnIsUnpublished(w: World, t: Token)
    requires Inv(w) && t in w.attempts && Running(w.attempts[t])
    requires w.attempts[t].u in w.db.jobs && Working(w.db.jobs[w.attempts[t].u].status)
    ensures w.attempts[t].job.mediaId !in w.published
  {
    hide Inv;
    AttemptFacts(w, t);
  }

  /** A step that only touches the files of one published id. */
  lemma StagingKeeps(w: World, w': World, m: MediaId)
    requires Inv(w) && GalleryInv(w') && m in w.published
    requires w' == w.(live := w'.live, stages := w'.stages, home := w'.home)
    requires forall p: Path :: p.m != m ==> (p in w'.live <==> p in w.live)
    requires forall p: Path :: p.m != m && p in w.live ==> w'.live[p] == w.live[p]
    ensures Inv(w')
  {
    hide QueueInv, SourceInv, WorkInv, GalleryInv;
    forall t | t in w.attempts && Running(w.attempts[t]) && w.attempts[t].u in w.db.jobs
               && Working(w.db.jobs[w.attempts[t].u].status)
      ensures w.attempts[t].job.mediaId != m
    {
      WorkedOnIsUnpublished(w, t);
    }
    SameWork(w, w');
    GalleryOnly(w, w');
  }

  lemma OpenStageGallery(w: World, s: StageId, m: MediaId)
    requires GalleryInv(w) && EnabledOther(w, OpenStage(s, m))
    ensures GalleryInv(ApplyOther(w, OpenStage(s, m)))
  {}

  lemma OpenStageKeeps(w: World, s: StageId, m: MediaId)
    requires Inv(w) && EnabledOther(w, OpenStage(s, m))
    ensures Inv(ApplyOther(w, OpenStage(s, m)))
  {
    hide QueueInv, SourceInv, WorkInv, GalleryInv;
    OpenStageGallery(w, s, m);
    StagingKeeps(w, ApplyOther(w, OpenStage(s, m)), m);
  }

  lemma StageFileGallery(w: World, s: StageId, art: Artifact)
    requires GalleryInv(w) && EnabledOther(w, StageFile(s, art))
    ensures GalleryInv(ApplyOther(w, StageFile(s, art)))
  {
    hide Gallery, LiveOriginals, Stages, Originals;
    StageFileFiles(w, s, art);
    StageFileStages(w, s, art);
    StageFileOriginals(w, s, art);
  }

  lemma StageFileFiles(w: World, s: StageId, art: Artifact)
    requires GalleryInv(w) && EnabledOther(w, StageFile(s, art))
    ensures var x := ApplyOther(w, StageFile(s, art));
      Gallery(x.db.media, x.db.bySha, x.published) && LiveOriginals(x.live, x.published)
  {
    hide Stages, Originals;
  }

  lemma StageFileStages(w: World, s: StageId, art: Artifact)
    requires GalleryInv(w) && EnabledOther(w, StageFile(s, art))
    ensures var x := ApplyOther(w, StageFile(s, art));
      Stages(x.stages, x.db.media, x.published)
  {
    hide Originals, Gallery;
  }

  lemma StageFileOriginals(w: World, s: StageId, art: Artifact)
    requires GalleryInv(w) && EnabledOther(w, StageFile(s, art))
    ensures var x := ApplyOther(w, StageFile(s, art));
      Originals(x.db.media, x.live, x.stages, x.home)
  {
    hide LiveOriginals, Gallery;
  }

  lemma StagedIsPublished(w: World, s: StageId)
    requires Inv(w) && s in w.stages
    ensures w.stages[s].m in w.published
  {}

  lemma StageFileKeeps(w: World, s: StageId, art: Artifact)
    requires Inv(w) && EnabledOther(w, StageFile(s, art))
    ensures Inv(ApplyOther(w, StageFile(s, art)))
  {
    hide QueueInv, SourceInv, WorkInv, GalleryInv;
    StageFileGallery(w, s, art);
    StagedIsPublished(w, s);
    StagingKeeps(w, ApplyOther(w, StageFile(s, art)), w.stages[s].m);
  }

  lemma DoomStageGallery(w: World, s: StageId)
    requires GalleryInv(w) && EnabledOther(w, DoomStage(s))
    ensures GalleryInv(ApplyOther(w, DoomStage(s)))
  {
    hide Gallery, LiveOriginals, Stages, Originals;
    DoomStageFiles(w, s);
    DoomStageStages(w, s);
    DoomStageOriginals(w, s);
  }

  lemma DoomStageFiles(w: World, s: StageId)
    requires GalleryInv(w) && EnabledOther(w, DoomStage(s))
    ensures var x := ApplyOther(w, DoomStage(s));
      Gallery(x.db.media, x.db.bySha, x.published) && LiveOriginals(x.live, x.published)
  {
    hide Stages, Originals;
  }

  lemma DoomStageStages(w: World, s: StageId)
    requires GalleryInv(w) && EnabledOther(w, DoomStage(s))
    ensures var x := ApplyOther(w, DoomStage(s));
      Stages(x.stages, x.db.media, x.published)
  {
    hide LiveOriginals, Originals;
  }

  lemma DoomStageOriginals(w: World, s: StageId)
    requires GalleryInv(w) && EnabledOther(w, DoomStage(s))
    ensures var x := ApplyOther(w, DoomStage(s));
      Originals(x.db.media, x.live, x.stages, x.home)
  {
    hide LiveOriginals, Gallery;
  }

  lemma DoomStageKeeps(w: World, s: StageId)
    requires Inv(w) && EnabledOther(w, DoomStage(s))
    ensures Inv(ApplyOther(w, DoomStage(s)))
  {
    hide QueueInv, SourceInv, WorkInv, GalleryInv;
    DoomStageGallery(w, s);
    StagedIsPublished(w, s);
    StagingKeeps(w, ApplyOther(w, DoomStage(s)), w.stages[s].m);
  }

  lemma FinalizeFileGallery(w: World, s: StageId, art: Artifact)
    requires GalleryInv(w) && EnabledOther(w, FinalizeFile(s, art))
    ensures GalleryInv(ApplyOther(w, FinalizeFile(s, art)))
  {
    hide Gallery, LiveOriginals, Stages, Originals;
    FinalizeFileFiles(w, s, art);
    FinalizeFileStages(w, s, art);
    FinalizeFileOriginals(w, s, art);
  }

  lemma FinalizeFileFiles(w: World, s: StageId, art: Artifact)
    requires GalleryInv(w) && EnabledOther(w, FinalizeFile(s, art))
    ensures var x := ApplyOther(w, FinalizeFile(s, art));
      Gallery(x.db.media, x.db.bySha, x.published) && LiveOriginals(x.live, x.published)
  {
    hide Stages, Originals;
  }

  lemma FinalizeFileStages(w: World, s: StageId, art: Artifact)
    requires GalleryInv(w) && EnabledOther(w, FinalizeFile(s, art))
    ensures var x := ApplyOther(w, FinalizeFile(s, art));
      Stages(x.stages, x.db.media, x.published)
  {
    hide LiveOriginals, Originals, Gallery;
  }

  lemma FinalizeFileOriginals(w: World, s: StageId, art: Artifact)
    requires GalleryInv(w) && EnabledOther(w, FinalizeFile(s, art))
    ensures var x := ApplyOther(w, FinalizeFile(s, art));
      Originals(x.db.media, x.live, x.stages, x.home)
  {
    hide LiveOriginals, Gallery;
  }

  lemma FinalizeFileKeeps(w: World, s: StageId, art: Artifact)
    requires Inv(w) && EnabledOther(w, FinalizeFile(s, art))
    ensures Inv(ApplyOther(w, FinalizeFile(s, art)))
  {
    hide QueueInv, SourceInv, WorkInv, GalleryInv;
    FinalizeFileGallery(w, s, art);
    StagedIsPublished(w, s);
    StagingKeeps(w, ApplyOther(w, FinalizeFile(s, art)), w.stages[s].m);
  }

  lemma RestoreFileGallery(w: World, s: StageId, art: Artifact)
    requires GalleryInv(w) && EnabledOther(w, RestoreFile(s, art))
    ensures GalleryInv(ApplyOther(w, RestoreFile(s, art)))
  {
    hide Originals;
    RestoreFileOriginals(w, s, art);
  }

  lemma RestoreFileOriginals(w: World, s: StageId, art: Artifact)
    requires GalleryInv(w) && EnabledOther(w, RestoreFile(s, art))
    ensures var w' := ApplyOther(w, RestoreFile(s, art)); Originals(w'.db.media, w'.live, w'.stages, w'.home)
  {
    hide Gallery, LiveOriginals, Stages;
  }

  lemma RestoreFileKeeps(w: World, s: StageId, art: Artifact)
    requires Inv(w) && EnabledOther(w, RestoreFile(s, art))
    ensures Inv(ApplyOther(w, RestoreFile(s, art)))
  {
    hide QueueInv, SourceInv, WorkInv, GalleryInv;
    RestoreFileGallery(w, s, art);
    StagedIsPublished(w, s);
    StagingKeeps(w, ApplyOther(w, RestoreFile(s, art)), w.stages[s].m);
  }

  function LatelyPurged(w: World, gone: set<MediaId>): set<MediaId> {
    set u | u in w.db.jobs && w.db.jobs[u].status == Complete
            && w.db.jobs[u].result.Some? && w.db.jobs[u].result.value in gone
          :: w.db.jobs[u].mediaId
  }

  lemma PurgeGallery(w: World, gone: set<MediaId>)
    requires GalleryInv(w)
    ensures GalleryInv(w.(db := DropMedia(w.db, gone)))
  {}

  lemma PurgeWork(w: World, gone: set<MediaId>)
    requires WorkInv(w) && Rows(w.db.jobs) && DistinctMedia(w.db.jobs)
    requires Allocated(w.db.jobs, w.published, w.usedMedia)
    requires forall m | m in gone :: CanPurge(w.db, m)
    ensures WorkInv(w.(db := DropMedia(w.db, gone), latePurged := w.latePurged + LatelyPurged(w, gone)))
  {}

  lemma PurgeCommitKeeps(w: World, gone: set<MediaId>)
    requires Inv(w) && EnabledOther(w, PurgeCommit(gone))
    ensures Inv(ApplyOther(w, PurgeCommit(gone)))
  {
    hide QueueInv, SourceInv, WorkInv, GalleryInv;
    var w1 := w.(db := DropMedia(w.db, gone));
    var w' := w1.(latePurged := w.latePurged + LatelyPurged(w, gone));
    TableFacts(w);
    IdentityFacts(w);
    PurgeGallery(w, gone);
    PurgeWork(w, gone);
    SameGallery(w1, w');
    GalleryOnly(w, w');
  }

  lemma IdentityFacts(w: World)
    requires QueueInv(w)
    ensures DistinctMedia(w.db.jobs) && Allocated(w.db.jobs, w.published, w.usedMedia)
  {}

  lemma SameGallery(w: World, w': World)
    requires GalleryInv(w)
    requires w'.db.media == w.db.media && w'.db.bySha == w.db.bySha && w'.published == w.published
    requires w'.live == w.live && w'.stages == w.stages && w'.home == w.home
    ensures GalleryInv(w')
  {}

  // ---- time, restarts and mounts ----

  lemma TickQueue(w: World, micros: nat)
    requires QueueInv(w)
    ensures QueueInv(w.(clock := w.clock + micros))
  {}

  lemma TickKeeps(w: World, micros: nat)
    requires Inv(w)
    ensures Inv(w.(clock := w.clock + micros))
  {
    hide QueueInv, SourceInv, MediaInv;
    TickQueue(w, micros);
    SameSources(w, w.(clock := w.clock + micros));
    SameMedia(w, w.(clock := w.clock + micros));
  }

  lemma ReappearBarriers(w: World, u: UploadId, f: Source)
    requires SourceInv(w) && EnabledOther(w, Reappear(u, f))
    ensures var w' := ApplyOther(w, Reappear(u, f));
      Barriers(w'.db.jobs, w'.barriers, w'.sources, w'.flushed, w'.awaiting, w'.known)
  {
    hide Transfers, DurableSources, Identifies;
  }

  lemma ReappearRows(w: World, u: UploadId, f: Source)
    requires SourceInv(w) && EnabledOther(w, Reappear(u, f))
    ensures var w' := ApplyOther(w, Reappear(u, f));
      && Transfers(w'.db.jobs, w'.sources, w'.awaiting, w'.known)
      && DurableSources(w'.db.jobs, w'.sources, w'.durable, w'.flushed)
      && Identifies(w'.db.jobs, w'.attempts, w'.durable)
  {
    hide Barriers;
  }

  lemma ReappearSources(w: World, u: UploadId, f: Source)
    requires SourceInv(w) && EnabledOther(w, Reappear(u, f))
    ensures SourceInv(ApplyOther(w, Reappear(u, f)))
  {
    hide Transfers, DurableSources, Identifies, Barriers;
    ReappearBarriers(w, u, f);
    ReappearRows(w, u, f);
  }

  lemma ReappearKeeps(w: World, u: UploadId, f: Source)
    requires Inv(w) && EnabledOther(w, Reappear(u, f))
    ensures Inv(ApplyOther(w, Reappear(u, f)))
  {
    hide QueueInv, SourceInv, MediaInv;
    ReappearSources(w, u, f);
    SameQueue(w, ApplyOther(w, Reappear(u, f)));
    SameMedia(w, ApplyOther(w, Reappear(u, f)));
  }

  lemma CrashQueue(w: World, sources: map<UploadId, Source>, live: map<Path, Content>)
    requires QueueInv(w) && EnabledOther(w, Crash(sources, live))
    ensures QueueInv(ApplyOther(w, Crash(sources, live)))
  {}

  lemma CrashSources(w: World, sources: map<UploadId, Source>, live: map<Path, Content>)
    requires SourceInv(w) && EnabledOther(w, Crash(sources, live))
    ensures SourceInv(ApplyOther(w, Crash(sources, live)))
  {}

  lemma CrashMedia(w: World, sources: map<UploadId, Source>, live: map<Path, Content>)
    requires MediaInv(w) && EnabledOther(w, Crash(sources, live))
    ensures MediaInv(ApplyOther(w, Crash(sources, live)))
  {}

  lemma CrashKeeps(w: World, sources: map<UploadId, Source>, live: map<Path, Content>)
    requires Inv(w) && EnabledOther(w, Crash(sources, live))
    ensures Inv(ApplyOther(w, Crash(sources, live)))
  {
    hide QueueInv, SourceInv, MediaInv, EnabledOther, ApplyOther;
    CrashQueue(w, sources, live);
    CrashSources(w, sources, live);
    CrashMedia(w, sources, live);
  }

  lemma RequeueIsCalm(w: World)
    requires Rows(w.db.jobs)
    ensures var jobs' := RequeueStartup(w.db, w.clock).jobs;
      && CalmTable(w.db.jobs, jobs') && Rows(jobs') && LeasesKept(w.db.jobs, jobs')
      && (forall u | u in jobs' ::
            && Unpublishing(w.db.jobs[u], jobs'[u])
            && jobs'[u].authoritative == w.db.jobs[u].authoritative
            && (jobs'[u].lease.Some? ==> jobs'[u].lease == w.db.jobs[u].lease)
            && (Terminal(w.db.jobs[u].status) ==> jobs'[u].status == w.db.jobs[u].status))
  {}

  lemma QuietFacts(w: World)
    requires QueueInv(w) && !w.started
    ensures forall t | t in w.attempts :: !Running(w.attempts[t])
  {}

  lemma StartQueue(w: World)
    requires QueueInv(w)
    ensures QueueInv(w.(started := true))
  {}

  function Requeued(w: World): World {
    w.(db := w.db.(jobs := RequeueStartup(w.db, w.clock).jobs))
  }

  lemma RequeueQueue(w: World)
    requires QueueInv(w) && !w.started
    ensures QueueInv(Requeued(w))
  {
    hide QueueInv, CalmTable, LeasesKept;
    TableFacts(w);
    QuietFacts(w);
    RequeueIsCalm(w);
    hide RequeueStartup;
    CalmQueue(w, RequeueStartup(w.db, w.clock).jobs, w.attempts);
  }

  lemma RequeueSources(w: World)
    requires SourceInv(w) && Rows(w.db.jobs)
    ensures SourceInv(Requeued(w))
  {
    hide SourceInv, CalmTable, LeasesKept, RequeueStartup;
    RequeueIsCalm(w);
    CalmSources(w, RequeueStartup(w.db, w.clock).jobs, w.attempts);
  }

  lemma RequeueMedia(w: World)
    requires MediaInv(w) && Rows(w.db.jobs)
    ensures MediaInv(Requeued(w))
  {
    hide MediaInv, CalmTable, LeasesKept, RequeueStartup;
    RequeueIsCalm(w);
    CalmMedia(w, RequeueStartup(w.db, w.clock).jobs, w.attempts);
  }

  lemma RequeueAndStartKeeps(w: World)
    requires Inv(w) && EnabledOther(w, RequeueAndStart)
    ensures Inv(ApplyOther(w, RequeueAndStart))
  {
    hide QueueInv, SourceInv, MediaInv;
    TableFacts(w);
    RequeueQueue(w);
    RequeueSources(w);
    RequeueMedia(w);
    StartQueue(Requeued(w));
    SameSources(Requeued(w), ApplyOther(w, RequeueAndStart));
    SameMedia(Requeued(w), ApplyOther(w, RequeueAndStart));
  }

  /** Workers start even when the start-up requeue failed; old leases then run out by themselves. */
  lemma StartWithoutRequeueKeeps(w: World)
    requires Inv(w) && EnabledOther(w, StartWithoutRequeue)
    ensures Inv(ApplyOther(w, StartWithoutRequeue))
  {
    hide QueueInv, SourceInv, MediaInv;
    StartQueue(w);
    SameSources(w, ApplyOther(w, StartWithoutRequeue));
    SameMedia(w, ApplyOther(w, StartWithoutRequeue));
  }

  lemma TickIsKept(w: World, micros: nat)
    requires Inv(w) && EnabledOther(w, Tick(micros))
    ensures Inv(ApplyOther(w, Tick(micros)))
  {
    hide Inv;
    TickKeeps(w, micros);
  }
}
