/**
  Most steps change one part of the world. These lemmas say, once for each kind
  of change, what it may do without disturbing the invariant.
*/
module Frames {
  import opened Records
  import opened UploadJobs
  import opened World
  import opened Invariant

  /** A row change that neither promotes nor revives an upload. */
  ghost predicate Calm(j: Job, k: Job) {
    && k.mediaId == j.mediaId && k.expectedSize == j.expectedSize
    && k.completedAt == j.completedAt
    && (j.authoritative.Some? ==> k.authoritative.Some?)
    && (k.status == Uploading ==> j.status == Uploading)
    && (Working(k.status) ==> Working(j.status))
    && (Published(j.status) ==> Published(k.status))
    && (j.status == Complete ==> k.status == Complete)
    && (Condemned(j.status) ==> Condemned(k.status) && k.reason == j.reason)
    && (k.reason == Unobservable ==> j.status == Uploading || j.reason == Unobservable)
  }

  /** ... and does not publish one either. */
  ghost predicate Unpublishing(j: Job, k: Job) {
    k.result == j.result && (Published(k.status) ==> Published(j.status))
  }

  ghost predicate CalmTable(jobs: Jobs, jobs': Jobs) {
    jobs'.Keys == jobs.Keys && forall u | u in jobs :: Calm(jobs[u], jobs'[u])
  }

  /** Attempts may end and new ones may begin; the others are as they were. */
  ghost predicate Ended(attempts: Attempts, attempts': Attempts) {
    forall t | t in attempts' && Running(attempts'[t]) ::
      (t in attempts && attempts'[t] == attempts[t]) || (t !in attempts && attempts'[t].pc == Claimed)
  }

  /** A lease stays on a row only with the token and the stage it came with. */
  ghost predicate LeasesKept(jobs: Jobs, jobs': Jobs) {
    forall u | u in jobs && u in jobs' && jobs'[u].lease.Some? ::
      jobs'[u].lease == jobs[u].lease && jobs'[u].status == jobs[u].status
  }

  lemma CalmQueue(w: World, jobs': Jobs, attempts': Attempts)
    requires QueueInv(w)
    requires CalmTable(w.db.jobs, jobs') && Rows(jobs') && LeasesKept(w.db.jobs, jobs')
    requires Ended(w.attempts, attempts') && attempts'.Keys == w.attempts.Keys
    requires forall t | t in w.attempts :: attempts'[t].u == w.attempts[t].u && attempts'[t].job == w.attempts[t].job
    requires forall t | t in attempts' && Running(attempts'[t]) && w.clock < attempts'[t].deadline
                        && attempts'[t].u in jobs' ::
               jobs'[attempts'[t].u].lease == w.db.jobs[attempts'[t].u].lease
    requires w.reopening.Some? && w.reopening.value.u in w.db.jobs ==>
               jobs'[w.reopening.value.u].status == w.db.jobs[w.reopening.value.u].status
    ensures QueueInv(w.(db := w.db.(jobs := jobs'), attempts := attempts'))
  {
    hide Rows, DistinctMedia, Allocated, Fenced, Attended, Timely, Quiet, Janitors, ReopensTerminal, Acknowledged;
    hide CalmTable, LeasesKept, Ended;
    CalmRows(w, jobs');
    CalmLeases(w, jobs', attempts');
    CalmAttempts(w, jobs', attempts');
  }

  lemma CalmRows(w: World, jobs': Jobs)
    requires QueueInv(w) && CalmTable(w.db.jobs, jobs')
    requires w.reopening.Some? && w.reopening.value.u in w.db.jobs && w.reopening.value.u in jobs' ==>
               jobs'[w.reopening.value.u].status == w.db.jobs[w.reopening.value.u].status
    ensures DistinctMedia(jobs') && Allocated(jobs', w.published, w.usedMedia) && Janitors(jobs', w.janitors)
    ensures ReopensTerminal(jobs', w.reopening) && Acknowledged(jobs', w.acked, w.usedMedia)
  {
    hide Fenced, Attended, Timely, Quiet;
  }

  lemma CalmLeases(w: World, jobs': Jobs, attempts': Attempts)
    requires QueueInv(w) && CalmTable(w.db.jobs, jobs') && LeasesKept(w.db.jobs, jobs')
    requires attempts'.Keys == w.attempts.Keys
    requires forall t | t in w.attempts :: attempts'[t].u == w.attempts[t].u && attempts'[t].job == w.attempts[t].job
    ensures Fenced(jobs', attempts')
  {
    hide Rows, DistinctMedia, Allocated, Attended, Timely, Quiet, Janitors, ReopensTerminal, Acknowledged;
  }

  lemma CalmAttempts(w: World, jobs': Jobs, attempts': Attempts)
    requires QueueInv(w) && CalmTable(w.db.jobs, jobs') && Ended(w.attempts, attempts')
    requires attempts'.Keys == w.attempts.Keys
    requires forall t | t in attempts' && Running(attempts'[t]) && w.clock < attempts'[t].deadline
                        && attempts'[t].u in jobs' && attempts'[t].u in w.db.jobs ::
               jobs'[attempts'[t].u].lease == w.db.jobs[attempts'[t].u].lease
    ensures Attended(jobs', attempts') && Timely(jobs', attempts', w.clock) && Quiet(w.started, attempts')
  {
    hide DistinctMedia, Allocated, Fenced, Janitors, ReopensTerminal, Acknowledged;
  }

  lemma CalmSources(w: World, jobs': Jobs, attempts': Attempts)
    requires SourceInv(w) && CalmTable(w.db.jobs, jobs') && Ended(w.attempts, attempts')
    requires forall u | u in jobs' && jobs'[u].lease.Some? && jobs'[u].lease != w.db.jobs[u].lease ::
               jobs'[u].lease.value.token !in w.attempts
    requires forall u | u in jobs' && jobs'[u].authoritative != w.db.jobs[u].authoritative ::
               u in w.durable && jobs'[u].authoritative == Some(w.durable[u])
    requires forall u | u in jobs' && Published(jobs'[u].status) ::
               Published(w.db.jobs[u].status) || jobs'[u].authoritative.Some?
    ensures SourceInv(w.(db := w.db.(jobs := jobs'), attempts := attempts'))
  {}

  ghost predicate CalmChange(w: World, jobs': Jobs, attempts': Attempts) {
    && CalmTable(w.db.jobs, jobs') && Ended(w.attempts, attempts')
    && (forall u | u in jobs' :: u in w.db.jobs && Unpublishing(w.db.jobs[u], jobs'[u]))
    && (forall t | t in attempts' && attempts'[t].pc == Unowned :: t in w.attempts && w.attempts[t] == attempts'[t])
  }

  lemma CalmMedia(w: World, jobs': Jobs, attempts': Attempts)
    requires MediaInv(w) && CalmChange(w, jobs', attempts')
    ensures MediaInv(w.(db := w.db.(jobs := jobs'), attempts := attempts'))
  {
    hide CalmChange, Prepared, Publications, Resolved, LatePurges;
    hide Disowned, Gallery, LiveOriginals, Stages, Originals;
    CalmWork(w, jobs', attempts');
    CalmResults(w, jobs', attempts');
  }

  lemma CalmWork(w: World, jobs': Jobs, attempts': Attempts)
    requires WorkInv(w) && CalmChange(w, jobs', attempts')
    ensures Prepared(jobs', attempts', w.live, w.flushedOriginals)
    ensures Publications(jobs', w.published, w.durable, w.flushedOriginals)
    ensures Disowned(attempts', w.db.media)
  {
    hide Resolved, LatePurges;
  }

  lemma CalmResults(w: World, jobs': Jobs, attempts': Attempts)
    requires WorkInv(w) && CalmChange(w, jobs', attempts')
    ensures Resolved(jobs', w.db.media, w.durable, w.latePurged, w.reopened)
    ensures LatePurges(w.latePurged, w.usedMedia, jobs')
  {
    hide Prepared, Publications, Disowned, Ended;
  }

  lemma SameQueue(w: World, w': World)
    requires QueueInv(w)
    requires w'.db.jobs == w.db.jobs && w'.attempts == w.attempts && w'.clock == w.clock && w'.started == w.started
    requires w'.janitors == w.janitors && w'.reopening == w.reopening
    requires w'.acked == w.acked && w'.usedMedia == w.usedMedia && w'.published == w.published
    ensures QueueInv(w')
  {}

  lemma SameSources(w: World, w': World)
    requires SourceInv(w)
    requires w'.db.jobs == w.db.jobs && w'.attempts == w.attempts && w'.sources == w.sources
    requires w'.awaiting == w.awaiting && w'.known == w.known && w'.durable == w.durable
    requires w'.flushed == w.flushed && w'.barriers == w.barriers
    ensures SourceInv(w')
  {}

  lemma SameMedia(w: World, w': World)
    requires MediaInv(w)
    requires w'.db == w.db && w'.attempts == w.attempts && w'.live == w.live && w'.stages == w.stages
    requires w'.flushedOriginals == w.flushedOriginals && w'.published == w.published && w'.durable == w.durable
    requires w'.home == w.home && w'.latePurged == w.latePurged && w'.reopened == w.reopened
    requires w'.usedMedia == w.usedMedia
    ensures MediaInv(w')
  {}

  lemma PublicationQueue(w: World, m: MediaId, sha: Digest)
    requires QueueInv(w) && m in w.usedMedia
    ensures QueueInv(w.(published := w.published[m := sha]))
  {}

  /** One attempt gets further, or ends. */
  predicate Advances(a: Attempt, b: Attempt) {
    b.u == a.u && b.job == a.job && b.deadline == a.deadline && (Running(b) ==> Running(a))
  }

  lemma AdvanceQueue(w: World, t: Token, b: Attempt)
    requires QueueInv(w) && t in w.attempts && Advances(w.attempts[t], b)
    ensures QueueInv(w.(attempts := w.attempts[t := b]))
  {}

  /** What the attempt may believe about its source. */
  ghost predicate Believes(w: World, t: Token, b: Attempt) {
    && (KnowsContent(b.pc) ==>
          && b.u in w.durable && b.content == w.durable[b.u]
          && b.u in w.db.jobs && w.db.jobs[b.u].authoritative.Some?)
    && (b.pc == Copied ==> b.copy == b.content)
    && (b.pc == Hashed && b.u in w.db.jobs && w.db.jobs[b.u].lease.Some? && w.db.jobs[b.u].lease.value.token == t ==>
          b.u in w.durable && b.content == w.durable[b.u])
    && (b.pc.Rejecting? ==> ContentRejection(b.pc.reason))
  }

  lemma AdvanceSources(w: World, t: Token, b: Attempt)
    requires SourceInv(w) && t in w.attempts && Advances(w.attempts[t], b)
    requires Running(b) && b.job.status == Processing ==> Believes(w, t, b)
    ensures SourceInv(w.(attempts := w.attempts[t := b]))
  {}

  ghost predicate Relies(w: World, b: Attempt) {
    && (b.pc == Synced || HasVerified(b.pc) ==> b.job.mediaId in w.flushedOriginals)
    && (HasVerified(b.pc) ==>
          Path(b.job.mediaId, Original) in w.live && w.live[Path(b.job.mediaId, Original)] == b.content)
  }

  lemma AdvanceMedia(w: World, t: Token, b: Attempt)
    requires MediaInv(w) && t in w.attempts && Advances(w.attempts[t], b)
    requires Running(b) && b.job.status == Processing && b.u in w.db.jobs && Working(w.db.jobs[b.u].status) ==>
               Relies(w, b)
    requires b.pc == Unowned && b.job.status != Processing ==> b.job.mediaId !in w.db.media
    ensures MediaInv(w.(attempts := w.attempts[t := b]))
  {}

  // ---- the invariant at one row and at one attempt ----

  ghost predicate RowKnown(w: World, u: UploadId) {
    u in w.db.jobs &&
    var j := w.db.jobs[u];
    && RowShape(j)
    && j.mediaId in w.usedMedia && u in w.known
    && (j.lease.Some? ==>
          && j.lease.value.token in w.attempts
          && var a := w.attempts[j.lease.value.token];
             a.u == u && a.job.mediaId == j.mediaId && a.job.status == j.status)
    && (j.completedAt.Some? ==>
          u in w.durable && SourceIntact(j, SourceOf(w.sources, u), w.durable[u], u in w.flushed))
    && (j.status == Uploading || Working(j.status) ==> j.mediaId !in w.published)
    && (j.status == Uploading ==> j.authoritative == None)
    && (j.completedAt.Some? && j.mediaId in w.published ==> w.published[j.mediaId] == w.durable[u])
  }

  lemma RowFacts(w: World, u: UploadId)
    requires Inv(w) && u in w.db.jobs
    ensures RowKnown(w, u)
  {}

  ghost predicate AttemptKnown(w: World, t: Token) {
    t in w.attempts && Running(w.attempts[t]) &&
    var a := w.attempts[t];
    && a.u in w.db.jobs
    && w.db.jobs[a.u].mediaId == a.job.mediaId
    && InStage(a.job.status, w.db.jobs[a.u])
    && (a.job.status == Discarding ==> a.job.reason == w.db.jobs[a.u].reason)
    && (w.clock < a.deadline ==> Holds(w.db, a.u, t))
    && (a.job.status == Processing ==> Believes(w, t, a))
    && (a.job.status == Processing && Working(w.db.jobs[a.u].status) ==> Relies(w, a))
    && (a.pc == Unowned && a.job.status != Processing ==> a.job.mediaId !in w.db.media)
  }

  lemma AttemptFacts(w: World, t: Token)
    requires Inv(w) && t in w.attempts && Running(w.attempts[t])
    ensures AttemptKnown(w, t)
    ensures RowKnown(w, w.attempts[t].u)
  {
    RowFacts(w, w.attempts[t].u);
  }

  lemma SameIncarnation(w: World, u: UploadId, v: UploadId)
    requires Inv(w) && u in w.db.jobs && v in w.db.jobs && w.db.jobs[u].mediaId == w.db.jobs[v].mediaId
    ensures u == v
  {}

  lemma AdvanceKeeps(w: World, t: Token, b: Attempt)
    requires Inv(w) && t in w.attempts && Advances(w.attempts[t], b)
    requires Running(b) && b.job.status == Processing ==> Believes(w, t, b)
    requires Running(b) && b.job.status == Processing && b.u in w.db.jobs && Working(w.db.jobs[b.u].status) ==>
               Relies(w, b)
    requires b.pc == Unowned && b.job.status != Processing ==> b.job.mediaId !in w.db.media
    ensures Inv(w.(attempts := w.attempts[t := b]))
  {
    hide QueueInv, SourceInv, MediaInv;
    AdvanceQueue(w, t, b);
    AdvanceSources(w, t, b);
    AdvanceMedia(w, t, b);
  }

  /** One row changes calmly while, at most, the attempt holding it ends. */
  ghost predicate CalmRow(w: World, u: UploadId, k: Job, t: Option<Token>) {
    && u in w.db.jobs && Calm(w.db.jobs[u], k) && RowShape(k)
    && (k.lease.Some? ==> k.lease == w.db.jobs[u].lease && k.status == w.db.jobs[u].status)
    && (k.authoritative != w.db.jobs[u].authoritative ==>
          u in w.durable && k.authoritative == Some(w.durable[u]))
    && (t.Some? ==> t.value in w.attempts)
    && (k.lease == w.db.jobs[u].lease || (t.Some? && Holds(w.db, u, t.value)))
    && (Terminal(w.db.jobs[u].status) ==> k.status == w.db.jobs[u].status)
  }

  function EndedAttempts(w: World, t: Option<Token>): Attempts {
    if t.Some? && t.value in w.attempts then w.attempts[t.value := w.attempts[t.value].(pc := Finished)]
    else w.attempts
  }

  function CalmWorld(w: World, u: UploadId, k: Job, t: Option<Token>): World {
    w.(db := w.db.(jobs := w.db.jobs[u := k]), attempts := EndedAttempts(w, t))
  }

  lemma CalmRowQueue(w: World, u: UploadId, k: Job, t: Option<Token>)
    requires QueueInv(w) && CalmRow(w, u, k, t)
    ensures QueueInv(CalmWorld(w, u, k, t))
  {
    hide QueueInv;
    TableFacts(w);
    CalmQueue(w, w.db.jobs[u := k], EndedAttempts(w, t));
  }

  lemma CalmRowSources(w: World, u: UploadId, k: Job, t: Option<Token>)
    requires SourceInv(w) && CalmRow(w, u, k, t)
    requires Published(k.status) ==> Published(w.db.jobs[u].status) || k.authoritative.Some?
    ensures SourceInv(CalmWorld(w, u, k, t))
  {
    hide SourceInv;
    CalmSources(w, w.db.jobs[u := k], EndedAttempts(w, t));
  }

  lemma CalmRowMedia(w: World, u: UploadId, k: Job, t: Option<Token>)
    requires MediaInv(w) && CalmRow(w, u, k, t) && Unpublishing(w.db.jobs[u], k)
    ensures MediaInv(CalmWorld(w, u, k, t))
  {
    hide MediaInv;
    CalmMedia(w, w.db.jobs[u := k], EndedAttempts(w, t));
  }

  lemma CalmRowKeeps(w: World, u: UploadId, k: Job, t: Option<Token>)
    requires Inv(w) && CalmRow(w, u, k, t) && u in w.db.jobs && Unpublishing(w.db.jobs[u], k)
    ensures Inv(CalmWorld(w, u, k, t))
  {
    hide QueueInv, SourceInv, MediaInv, CalmRow, CalmWorld;
    CalmRowQueue(w, u, k, t);
    CalmRowSources(w, u, k, t);
    CalmRowMedia(w, u, k, t);
  }

  lemma TableFacts(w: World)
    requires QueueInv(w)
    ensures Rows(w.db.jobs) && Timely(w.db.jobs, w.attempts, w.clock) && ReopensTerminal(w.db.jobs, w.reopening)
  {}

  /** Only originals matter to the invariant; other derived files may come and go. */
  lemma OtherFilesKeep(w: World, live': map<Path, Content>)
    requires MediaInv(w)
    requires forall m :: (Path(m, Original) in live' <==> Path(m, Original) in w.live)
    requires forall m :: Path(m, Original) in live' ==> live'[Path(m, Original)] == w.live[Path(m, Original)]
    ensures MediaInv(w.(live := live'))
  {}

  lemma WriteOriginalKeeps(w: World, m: MediaId, c: Content)
    requires MediaInv(w)
    requires m in w.published ==> c == w.published[m]
    requires forall t | t in w.attempts && Running(w.attempts[t]) && w.attempts[t].job.status == Processing
                        && w.attempts[t].job.mediaId == m && HasVerified(w.attempts[t].pc) ::
               w.attempts[t].content == c
    ensures MediaInv(w.(live := w.live[Path(m, Original) := c]))
  {}

  lemma SyncOriginalKeeps(w: World, m: MediaId)
    requires MediaInv(w)
    ensures MediaInv(w.(flushedOriginals := w.flushedOriginals + {m}))
  {}

  lemma RemoveOriginalKeeps(w: World, m: MediaId)
    requires MediaInv(w) && m !in w.db.media
    requires forall t | t in w.attempts && Running(w.attempts[t]) && w.attempts[t].job.status == Processing
                        && w.attempts[t].job.mediaId == m && w.attempts[t].u in w.db.jobs ::
               !Working(w.db.jobs[w.attempts[t].u].status)
    ensures MediaInv(w.(live := w.live - {Path(m, Original)}))
  {}
}
