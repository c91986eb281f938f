/** What every reachable state of the ingest queue satisfies. */
module Invariant {
  import opened Records
  import opened UploadJobs
  import opened World

  type Jobs = map<UploadId, Job>
  type Attempts = map<Token, Attempt>

  // ---- the queue table ----

  predicate RowShape(j: Job) {
    && j.expectedSize > 0
    && (j.completedAt.Some? <==> !(j.status == Uploading || (Condemned(j.status) && !ContentRejection(j.reason))))
    && (j.completedAt.Some? ==> j.cancelledAt == None)
    && (j.result.Some? <==> Published(j.status))
    && (j.status == Uploading || Working(j.status) ==> j.reason == NoReason)
    && (j.status == Uploading ==> j.authoritative == None)
    && (Condemned(j.status) ==> j.reason != NoReason)
    && (j.reason == Unobservable ==> j.status == Discarded)
    && (j.lease.Some? ==> j.status == Processing || j.status == Cleanup || j.status == Discarding)
  }

  ghost predicate Rows(jobs: Jobs) {
    forall u | u in jobs :: RowShape(jobs[u])
  }

  ghost predicate DistinctMedia(jobs: Jobs) {
    forall u, v | u in jobs && v in jobs && jobs[u].mediaId == jobs[v].mediaId :: u == v
  }

  ghost predicate Allocated(jobs: Jobs, published: map<MediaId, Digest>, usedMedia: set<MediaId>) {
    && (forall u | u in jobs :: jobs[u].mediaId in usedMedia)
    && (forall m | m in published :: m in usedMedia)
  }

  // ---- tokens and stages ----

  /** A token only ever sits on a row in the stage it was issued for. */
  ghost predicate Fenced(jobs: Jobs, attempts: Attempts) {
    forall u | u in jobs && jobs[u].lease.Some? ::
      && jobs[u].lease.value.token in attempts
      && var a := attempts[jobs[u].lease.value.token];
         a.u == u && a.job.mediaId == jobs[u].mediaId && a.job.status == jobs[u].status
  }

  predicate InStage(stage: Status, j: Job) {
    match stage
    case Processing => j.completedAt.Some?
    case Cleanup => Published(j.status)
    case Discarding => Condemned(j.status) && j.reason != Unobservable
    case _ => false
  }

  ghost predicate Attended(jobs: Jobs, attempts: Attempts) {
    forall t | t in attempts && Running(attempts[t]) ::
      && attempts[t].u in jobs
      && jobs[attempts[t].u].mediaId == attempts[t].job.mediaId
      && InStage(attempts[t].job.status, jobs[attempts[t].u])
      && (attempts[t].job.status == Discarding ==> attempts[t].job.reason == jobs[attempts[t].u].reason)
  }

  ghost predicate Timely(jobs: Jobs, attempts: Attempts, clock: Time) {
    forall t | t in attempts && Running(attempts[t]) && clock < attempts[t].deadline ::
      && attempts[t].u in jobs
      && jobs[attempts[t].u].lease.Some?
      && jobs[attempts[t].u].lease.value.token == t
      && jobs[attempts[t].u].lease.value.until >= attempts[t].deadline
  }

  ghost predicate Quiet(started: bool, attempts: Attempts) {
    !started ==> forall t | t in attempts :: !Running(attempts[t])
  }

  // ---- sources ----

  ghost predicate Transfers(jobs: Jobs, sources: map<UploadId, Source>, awaiting: map<UploadId, nat>,
                            known: set<UploadId>) {
    && (forall u | u in jobs :: u in known)
    && (forall u | u !in known :: SourceOf(sources, u) == NoSource)
    && (forall u | u in awaiting ::
          && u in known && SourceOf(sources, u) == NoSource
          && (u in jobs ==> jobs[u].completedAt == None)
          && (u in jobs && jobs[u].status == Uploading ==> jobs[u].expectedSize == awaiting[u]))
    && (forall u | u in jobs && jobs[u].status == Uploading && SourceOf(sources, u).info.Some? ::
          SourceOf(sources, u).info.value == jobs[u].expectedSize)
  }

  /** A promoted upload's source is what it was promoted with, until it is removed. */
  predicate SourceIntact(j: Job, f: Source, d: Content, isFlushed: bool) {
    && |d| == j.expectedSize
    && (f.data.Some? ==> f.data.value == d && isFlushed)
    && (f.info.Some? ==> f.info.value == |d|)
    && (Working(j.status) ==> f.data.Some?)
    && (j.authoritative.Some? ==> j.authoritative.value == d)
    && (Published(j.status) ==> j.authoritative.Some?)
  }

  ghost predicate DurableSources(jobs: Jobs, sources: map<UploadId, Source>,
                                 durable: map<UploadId, Content>, flushed: set<UploadId>) {
    forall u | u in jobs && jobs[u].completedAt.Some? ::
      u in durable && SourceIntact(jobs[u], SourceOf(sources, u), durable[u], u in flushed)
  }

  /** No worker and no janitor can be about to remove this source. */
  predicate Unclaimed(jobs: Jobs, u: UploadId) {
    u in jobs ==> jobs[u].status == Uploading || jobs[u].reason == Unobservable
  }

  ghost predicate Barriers(jobs: Jobs, barriers: map<nat, Barrier>, sources: map<UploadId, Source>,
                           flushed: set<UploadId>, awaiting: map<UploadId, nat>, known: set<UploadId>) {
    forall b | b in barriers ::
      var u, e, pc := barriers[b].u, barriers[b].expected, barriers[b].pc;
      var f := SourceOf(sources, u);
      && u in known
      && (Unclaimed(jobs, u) ==>
            && (f.info.Some? ==> f.info.value == e)
            && (u in awaiting ==> awaiting[u] == e)
            && (u in jobs && jobs[u].status == Uploading ==>
                  jobs[u].expectedSize == e
                  || (SourceComplete(f) && |Bytes(sources, u)| == jobs[u].expectedSize))
            && (pc == Statted || pc == Flushed ==> SourceComplete(f) && |Bytes(sources, u)| == e)
            && (pc == Flushed ==> u in flushed))
  }

  ghost predicate Janitors(jobs: Jobs, janitors: map<nat, Janitor>) {
    forall k | k in janitors ::
      && janitors[k].u in jobs
      && jobs[janitors[k].u].mediaId == janitors[k].m
      && Condemned(jobs[janitors[k].u].status)
      && jobs[janitors[k].u].reason != Unobservable
  }

  ghost predicate ReopensTerminal(jobs: Jobs, reopening: Option<Reopening>) {
    reopening.Some? ==>
      var u, target := reopening.value.u, reopening.value.target;
      && u in jobs && Terminal(jobs[u].status) && jobs[u].reason != Unobservable
      && target == (if jobs[u].status == Discarded then Discarding else Cleanup)
  }

  // ---- publication ----

  predicate KnowsContent(pc: Pc) {
    pc == Identified || pc == Copied || pc == Renamed || pc == Synced || pc == Verified
    || pc == Marked || pc == Checked || pc == Derived
  }

  predicate HasVerified(pc: Pc) {
    pc == Verified || pc == Marked || pc == Checked || pc == Derived
  }

  /** What a processing attempt believes its source to be is what was promoted. */
  ghost predicate Identifies(jobs: Jobs, attempts: Attempts, durable: map<UploadId, Content>) {
    forall t | t in attempts && Running(attempts[t]) && attempts[t].job.status == Processing ::
      var a := attempts[t];
      && (KnowsContent(a.pc) ==>
            && a.u in durable && a.content == durable[a.u]
            && a.u in jobs && jobs[a.u].authoritative.Some?)
      && (a.pc == Copied ==> a.copy == a.content)
      && (a.pc == Hashed && a.u in jobs && jobs[a.u].lease.Some? && jobs[a.u].lease.value.token == t ==>
            a.u in durable && a.content == durable[a.u])
      && (a.pc.Rejecting? ==> ContentRejection(a.pc.reason))
  }

  /** A verified original stays in place, on stable storage, for as long as its row is worked on. */
  ghost predicate Prepared(jobs: Jobs, attempts: Attempts, live: map<Path, Content>, flushedOriginals: set<MediaId>) {
    forall t | t in attempts && Running(attempts[t]) && attempts[t].job.status == Processing
               && attempts[t].u in jobs && Working(jobs[attempts[t].u].status) ::
      var a := attempts[t];
      var p := Path(a.job.mediaId, Original);
      && (a.pc == Synced || HasVerified(a.pc) ==> a.job.mediaId in flushedOriginals)
      && (HasVerified(a.pc) ==> p in live && live[p] == a.content)
  }

  ghost predicate Publications(jobs: Jobs, published: map<MediaId, Digest>, durable: map<UploadId, Content>,
                               flushedOriginals: set<MediaId>) {
    && (forall u | u in jobs && (jobs[u].status == Uploading || Working(jobs[u].status)) ::
          jobs[u].mediaId !in published)
    && (forall u | u in jobs && jobs[u].completedAt.Some? && jobs[u].mediaId in published ::
          u in durable && published[jobs[u].mediaId] == durable[u])
    && (forall m | m in published :: m in flushedOriginals)
  }

  ghost predicate Gallery(media: map<MediaId, Media>, bySha: map<Digest, MediaId>, published: map<MediaId, Digest>) {
    && (forall m | m in media ::
          m in published && media[m].sha == published[m] && media[m].sha in bySha && bySha[media[m].sha] == m)
    && (forall d | d in bySha :: bySha[d] in media && media[bySha[d]].sha == d)
  }

  ghost predicate LiveOriginals(live: map<Path, Content>, published: map<MediaId, Digest>) {
    forall m | m in published && Path(m, Original) in live :: live[Path(m, Original)] == published[m]
  }

  ghost predicate Stages(stages: map<StageId, Stage>, media: map<MediaId, Media>, published: map<MediaId, Digest>) {
    forall s | s in stages ::
      && stages[s].m in published
      && (Original in stages[s].files ==> stages[s].files[Original] == published[stages[s].m])
      && (stages[s].doomed ==> stages[s].m !in media)
  }

  /** The original of every media row is in place or staged. */
  predicate Kept(m: MediaId, live: map<Path, Content>, stages: map<StageId, Stage>, home: map<MediaId, StageId>) {
    || Path(m, Original) in live
    || (m in home && home[m] in stages && stages[home[m]].m == m && Original in stages[home[m]].files)
  }

  ghost predicate Originals(media: map<MediaId, Media>, live: map<Path, Content>, stages: map<StageId, Stage>,
                            home: map<MediaId, StageId>) {
    forall m | m in media :: Kept(m, live, stages, home)
  }

  /** A published job's result is a media row of its content, unless a purge came after completion. */
  ghost predicate Resolved(jobs: Jobs, media: map<MediaId, Media>, durable: map<UploadId, Content>,
                           latePurged: set<MediaId>, reopened: set<MediaId>) {
    forall u | u in jobs && Published(jobs[u].status) ::
      && (jobs[u].mediaId !in latePurged ==>
            && jobs[u].result.Some? && jobs[u].result.value in media
            && u in durable && media[jobs[u].result.value].sha == durable[u])
      && (jobs[u].mediaId in latePurged ==> jobs[u].status == Complete || jobs[u].mediaId in reopened)
  }

  ghost predicate LatePurges(latePurged: set<MediaId>, usedMedia: set<MediaId>, jobs: Jobs) {
    && latePurged <= usedMedia
    && forall u | u in jobs && !Published(jobs[u].status) :: jobs[u].mediaId !in latePurged
  }

  // ---- removal and acknowledgement ----

  ghost predicate Disowned(attempts: Attempts, media: map<MediaId, Media>) {
    forall t | t in attempts && attempts[t].pc == Unowned && attempts[t].job.status != Processing ::
      attempts[t].job.mediaId !in media
  }

  ghost predicate Acknowledged(jobs: Jobs, acked: set<MediaId>, usedMedia: set<MediaId>) {
    && acked <= usedMedia
    && forall u | u in jobs && jobs[u].mediaId in acked :: jobs[u].completedAt.Some?
  }

  ghost predicate QueueInv(w: World) {
    && Rows(w.db.jobs)
    && DistinctMedia(w.db.jobs)
    && Allocated(w.db.jobs, w.published, w.usedMedia)
    && Fenced(w.db.jobs, w.attempts)
    && Attended(w.db.jobs, w.attempts)
    && Timely(w.db.jobs, w.attempts, w.clock)
    && Quiet(w.started, w.attempts)
    && Janitors(w.db.jobs, w.janitors)
    && ReopensTerminal(w.db.jobs, w.reopening)
    && Acknowledged(w.db.jobs, w.acked, w.usedMedia)
  }

  ghost predicate SourceInv(w: World) {
    && Transfers(w.db.jobs, w.sources, w.awaiting, w.known)
    && DurableSources(w.db.jobs, w.sources, w.durable, w.flushed)
    && Barriers(w.db.jobs, w.barriers, w.sources, w.flushed, w.awaiting, w.known)
    && Identifies(w.db.jobs, w.attempts, w.durable)
  }

  ghost predicate WorkInv(w: World) {
    && Prepared(w.db.jobs, w.attempts, w.live, w.flushedOriginals)
    && Publications(w.db.jobs, w.published, w.durable, w.flushedOriginals)
    && Resolved(w.db.jobs, w.db.media, w.durable, w.latePurged, w.reopened)
    && LatePurges(w.latePurged, w.usedMedia, w.db.jobs)
    && Disowned(w.attempts, w.db.media)
  }

  ghost predicate GalleryInv(w: World) {
    && Gallery(w.db.media, w.db.bySha, w.published)
    && LiveOriginals(w.live, w.published)
    && Stages(w.stages, w.db.media, w.published)
    && Originals(w.db.media, w.live, w.stages, w.home)
  }

  ghost predicate MediaInv(w: World) {
    WorkInv(w) && GalleryInv(w)
  }

  ghost predicate Inv(w: World) {
    QueueInv(w) && SourceInv(w) && MediaInv(w)
  }
}
