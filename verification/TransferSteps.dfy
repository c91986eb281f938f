/** Admission, transfer, cancellation and the durability barrier keep the invariant. */
module TransferSteps {
  import opened Records
  import opened UploadJobs
  import opened World
  import opened Invariant
  import opened Frames

  // ---- new rows ----

  /** What pre-create and adoption share: an unused upload id and an unused media id. */
  ghost predicate NewRow(w: World, u: UploadId, m: MediaId, k: Job) {
    && u !in w.db.jobs && m !in w.usedMedia
    && k.mediaId == m && k.status == Uploading && RowShape(k) && k.authoritative == None
  }

  function Admitted(w: World, u: UploadId, m: MediaId, k: Job): World {
    WithJob(w, u, k).(known := w.known + {u}, usedMedia := w.usedMedia + {m})
  }

  lemma NewRowQueue(w: World, u: UploadId, m: MediaId, k: Job)
    requires QueueInv(w) && NewRow(w, u, m, k)
    ensures QueueInv(Admitted(w, u, m, k))
    ensures m !in w.published
  {
    hide Rows, DistinctMedia, Fenced, Attended, Timely, Quiet, Janitors, ReopensTerminal, Acknowledged;
    NewRowTable(w, u, m, k);
    NewRowActors(w, u, m, k);
  }

  lemma NewRowTable(w: World, u: UploadId, m: MediaId, k: Job)
    requires QueueInv(w) && NewRow(w, u, m, k)
    ensures var x := Admitted(w, u, m, k);
      && Rows(x.db.jobs) && DistinctMedia(x.db.jobs) && Allocated(x.db.jobs, x.published, x.usedMedia)
      && Acknowledged(x.db.jobs, x.acked, x.usedMedia) && Janitors(x.db.jobs, x.janitors)
  {
    hide Fenced, Attended, Timely, Quiet, ReopensTerminal;
  }

  lemma NewRowActors(w: World, u: UploadId, m: MediaId, k: Job)
    requires QueueInv(w) && NewRow(w, u, m, k)
    ensures var x := Admitted(w, u, m, k);
      && Fenced(x.db.jobs, x.attempts) && Attended(x.db.jobs, x.attempts)
      && Timely(x.db.jobs, x.attempts, x.clock) && ReopensTerminal(x.db.jobs, x.reopening)
      && Quiet(x.started, x.attempts)
  {
    hide Rows, DistinctMedia, Acknowledged, Janitors;
  }

  lemma NewRowMedia(w: World, u: UploadId, m: MediaId, k: Job)
    requires MediaInv(w) && NewRow(w, u, m, k) && m !in w.published
    ensures MediaInv(Admitted(w, u, m, k))
  {
    hide GalleryInv;
    NewRowGallery(w, u, m, k);
  }

  lemma NewRowGallery(w: World, u: UploadId, m: MediaId, k: Job)
    requires GalleryInv(w)
    ensures GalleryInv(Admitted(w, u, m, k))
  {}

  lemma PreCreateTransfers(w: World, u: UploadId, m: MediaId, k: Job)
    requires Transfers(w.db.jobs, w.sources, w.awaiting, w.known) && NewRow(w, u, m, k) && u !in w.known
    ensures Transfers(w.db.jobs[u := k], w.sources, w.awaiting[u := k.expectedSize], w.known + {u})
  {}

  lemma PreCreateOthers(w: World, u: UploadId, m: MediaId, k: Job)
    requires SourceInv(w) && NewRow(w, u, m, k) && u !in w.known
    ensures DurableSources(w.db.jobs[u := k], w.sources, w.durable, w.flushed)
    ensures Barriers(w.db.jobs[u := k], w.barriers, w.sources, w.flushed, w.awaiting[u := k.expectedSize], w.known + {u})
    ensures Identifies(w.db.jobs[u := k], w.attempts, w.durable)
  {
    hide Transfers;
  }

  lemma PreCreateSources(w: World, u: UploadId, m: MediaId, k: Job)
    requires SourceInv(w) && NewRow(w, u, m, k) && u !in w.known
    ensures SourceInv(Admitted(w, u, m, k).(awaiting := w.awaiting[u := k.expectedSize]))
  {
    hide Transfers, DurableSources, Barriers, Identifies;
    PreCreateTransfers(w, u, m, k);
    PreCreateOthers(w, u, m, k);
  }

  lemma PreCreateKeeps(w: World, u: UploadId, m: MediaId, size: nat, declared: Option<Digest>)
    requires Inv(w) && EnabledTransfer(w, PreCreate(u, m, size, declared))
    ensures Inv(ApplyTransfer(w, PreCreate(u, m, size, declared)))
  {
    hide QueueInv, SourceInv, MediaInv;
    var k := NewJob(m, size, declared, w.clock);
    var w1 := Admitted(w, u, m, k);
    NewRowQueue(w, u, m, k);
    NewRowMedia(w, u, m, k);
    PreCreateSources(w, u, m, k);
    SameQueue(w1, w1.(awaiting := w.awaiting[u := size]));
    SameMedia(w1, w1.(awaiting := w.awaiting[u := size]));
  }

  lemma AdoptSources(w: World, u: UploadId, m: MediaId, k: Job)
    requires SourceInv(w) && NewRow(w, u, m, k)
    requires SourceComplete(SourceOf(w.sources, u)) && k.expectedSize == |Bytes(w.sources, u)|
    ensures SourceInv(Admitted(w, u, m, k))
  {
    hide Transfers, DurableSources, Barriers, Identifies;
    AdoptTransfers(w, u, m, k);
    AdoptBarriers(w, u, m, k);
    AdoptDurable(w, u, m, k);
  }

  lemma AdoptTransfers(w: World, u: UploadId, m: MediaId, k: Job)
    requires SourceInv(w) && NewRow(w, u, m, k)
    requires SourceComplete(SourceOf(w.sources, u)) && k.expectedSize == |Bytes(w.sources, u)|
    ensures var x := Admitted(w, u, m, k);
      Transfers(x.db.jobs, x.sources, x.awaiting, x.known)
  {
    hide DurableSources, Barriers, Identifies;
  }

  lemma AdoptBarriers(w: World, u: UploadId, m: MediaId, k: Job)
    requires SourceInv(w) && NewRow(w, u, m, k)
    requires SourceComplete(SourceOf(w.sources, u)) && k.expectedSize == |Bytes(w.sources, u)|
    ensures var x := Admitted(w, u, m, k);
      Barriers(x.db.jobs, x.barriers, x.sources, x.flushed, x.awaiting, x.known)
  {
    hide DurableSources, Identifies;
  }

  lemma AdoptDurable(w: World, u: UploadId, m: MediaId, k: Job)
    requires SourceInv(w) && NewRow(w, u, m, k)
    requires SourceComplete(SourceOf(w.sources, u)) && k.expectedSize == |Bytes(w.sources, u)|
    ensures var x := Admitted(w, u, m, k);
      DurableSources(x.db.jobs, x.sources, x.durable, x.flushed) && Identifies(x.db.jobs, x.attempts, x.durable)
  {
    hide Barriers;
  }

  lemma AdoptKeeps(w: World, u: UploadId, m: MediaId, declared: Option<Digest>)
    requires Inv(w) && EnabledOther(w, Adopt(u, m, declared))
    ensures Inv(ApplyOther(w, Adopt(u, m, declared)))
  {
    hide QueueInv, SourceInv, MediaInv;
    var k := NewJob(m, |Bytes(w.sources, u)|, declared, w.clock);
    NewRowQueue(w, u, m, k);
    NewRowMedia(w, u, m, k);
    AdoptSources(w, u, m, k);
  }

  // ---- the source as tusd writes it ----

  lemma CreateFilesSources(w: World, u: UploadId)
    requires SourceInv(w) && EnabledTransfer(w, CreateFiles(u))
    ensures SourceInv(ApplyTransfer(w, CreateFiles(u)))
  {}

  lemma CreateFilesKeeps(w: World, u: UploadId)
    requires Inv(w) && EnabledTransfer(w, CreateFiles(u))
    ensures Inv(ApplyTransfer(w, CreateFiles(u)))
  {
    hide QueueInv, SourceInv, MediaInv;
    CreateFilesSources(w, u);
    SameQueue(w, ApplyTransfer(w, CreateFiles(u)));
    SameMedia(w, ApplyTransfer(w, CreateFiles(u)));
  }

  /** A complete source takes no more bytes, so a promoted or flushed one is never touched. */
  lemma WriteSources(w: World, u: UploadId, chunk: Content)
    requires SourceInv(w) && EnabledTransfer(w, Write(u, chunk))
    ensures SourceInv(ApplyTransfer(w, Write(u, chunk)))
  {
    hide Transfers, DurableSources, Barriers, Identifies;
    WriteTransfers(w, u, chunk);
    WriteBarriers(w, u, chunk);
    WriteDurable(w, u, chunk);
  }

  lemma WriteTransfers(w: World, u: UploadId, chunk: Content)
    requires SourceInv(w) && EnabledTransfer(w, Write(u, chunk))
    ensures var x := ApplyTransfer(w, Write(u, chunk));
      Transfers(x.db.jobs, x.sources, x.awaiting, x.known)
  {
    hide DurableSources, Barriers, Identifies;
  }

  lemma WriteBarriers(w: World, u: UploadId, chunk: Content)
    requires SourceInv(w) && EnabledTransfer(w, Write(u, chunk))
    ensures var x := ApplyTransfer(w, Write(u, chunk));
      Barriers(x.db.jobs, x.barriers, x.sources, x.flushed, x.awaiting, x.known)
  {
    hide DurableSources, Identifies;
  }

  lemma WriteDurable(w: World, u: UploadId, chunk: Content)
    requires SourceInv(w) && EnabledTransfer(w, Write(u, chunk))
    ensures var x := ApplyTransfer(w, Write(u, chunk));
      DurableSources(x.db.jobs, x.sources, x.durable, x.flushed) && Identifies(x.db.jobs, x.attempts, x.durable)
  {
    hide Barriers;
  }

  lemma WriteKeeps(w: World, u: UploadId, chunk: Content)
    requires Inv(w) && EnabledTransfer(w, Write(u, chunk))
    ensures Inv(ApplyTransfer(w, Write(u, chunk)))
  {
    hide QueueInv, SourceInv, MediaInv;
    WriteSources(w, u, chunk);
    SameQueue(w, ApplyTransfer(w, Write(u, chunk)));
    SameMedia(w, ApplyTransfer(w, Write(u, chunk)));
  }

  // ---- cancellation ----

  lemma RequestCancellationKeeps(w: World, u: UploadId)
    requires Inv(w) && EnabledTransfer(w, RequestCancellation(u))
    ensures Inv(ApplyTransfer(w, RequestCancellation(u)))
  {
    hide Inv;
    RowFacts(w, u);
    CalmRowKeeps(w, u, CancelRow(w.db.jobs[u], w.clock), None);
  }

  lemma MarkUnobservableKeeps(w: World, u: UploadId)
    requires Inv(w) && EnabledTransfer(w, MarkUnobservable(u))
    ensures Inv(ApplyTransfer(w, MarkUnobservable(u)))
  {
    hide Inv;
    RowFacts(w, u);
    CalmRowKeeps(w, u, UnobservableRow(w.db.jobs[u], w.clock), None);
    ListingKeeps(WithJob(w, u, UnobservableRow(w.db.jobs[u], w.clock)), w.listed - {u});
  }

  /** What the reconciler has listed is no one else's business. */
  lemma ListingKeeps(w: World, listed': set<UploadId>)
    requires Inv(w)
    ensures Inv(w.(listed := listed'))
  {
    hide QueueInv, SourceInv, MediaInv;
    SameQueue(w, w.(listed := listed'));
    SameSources(w, w.(listed := listed'));
    SameMedia(w, w.(listed := listed'));
  }

  lemma ListStaleKeeps(w: World, ids: set<UploadId>, idleBefore: Time)
    requires Inv(w) && EnabledTransfer(w, ListStale(ids, idleBefore))
    ensures Inv(ApplyTransfer(w, ListStale(ids, idleBefore)))
  {
    hide Inv;
    ListingKeeps(w, ids);
  }

  function SweptRow(j: Job, idleBefore: Time, now: Time): Job {
    if SweepDue(j, idleBefore) then SweepRow(j, now) else j
  }

  lemma SweptRowIsCalm(j: Job, idleBefore: Time, now: Time)
    requires RowShape(j)
    ensures var k := SweptRow(j, idleBefore, now);
      && Calm(j, k) && RowShape(k) && Unpublishing(j, k)
      && k.authoritative == j.authoritative && k.lease == j.lease
      && (k.lease.Some? ==> k.status == j.status) && (Terminal(j.status) ==> k.status == j.status)
  {}

  lemma SweepIsCalm(w: World, idleBefore: Time)
    requires Rows(w.db.jobs)
    ensures var jobs' := SweepCancelled(w.db, idleBefore, w.clock).jobs;
      && jobs'.Keys == w.db.jobs.Keys
      && CalmTable(w.db.jobs, jobs') && Rows(jobs') && LeasesKept(w.db.jobs, jobs')
      && (forall u | u in jobs' ::
            && Unpublishing(w.db.jobs[u], jobs'[u])
            && jobs'[u].authoritative == w.db.jobs[u].authoritative
            && jobs'[u].lease == w.db.jobs[u].lease
            && (Terminal(w.db.jobs[u].status) ==> jobs'[u].status == w.db.jobs[u].status))
  {
    hide Calm, RowShape, Unpublishing, SweepRow, SweepDue;
    var jobs' := SweepCancelled(w.db, idleBefore, w.clock).jobs;
    forall u | u in w.db.jobs
      ensures RowShape(w.db.jobs[u]) && jobs'[u] == SweptRow(w.db.jobs[u], idleBefore, w.clock)
    {
    }
    forall u | u in w.db.jobs
      ensures var j, k := w.db.jobs[u], jobs'[u];
        && Calm(j, k) && RowShape(k) && Unpublishing(j, k)
        && k.authoritative == j.authoritative && k.lease == j.lease
        && (k.lease.Some? ==> k.status == j.status) && (Terminal(j.status) ==> k.status == j.status)
    {
      SweptRowIsCalm(w.db.jobs[u], idleBefore, w.clock);
    }
  }

  lemma SweepKeeps(w: World, idleBefore: Time)
    requires Inv(w) && EnabledTransfer(w, Sweep(idleBefore))
    ensures Inv(ApplyTransfer(w, Sweep(idleBefore)))
  {
    hide QueueInv, SourceInv, MediaInv, SweepCancelled;
    TableFacts(w);
    SweepTouchesJobs(w, idleBefore);
    SweepQueue(w, idleBefore);
    SweepSources(w, idleBefore);
    SweepMedia(w, idleBefore);
  }

  function Swept(w: World, idleBefore: Time): World {
    w.(db := w.db.(jobs := SweepCancelled(w.db, idleBefore, w.clock).jobs))
  }

  lemma SweepQueue(w: World, idleBefore: Time)
    requires QueueInv(w)
    ensures QueueInv(Swept(w, idleBefore))
  {
    hide QueueInv, CalmTable, LeasesKept, SweepCancelled;
    TableFacts(w);
    SweepIsCalm(w, idleBefore);
    CalmQueue(w, SweepCancelled(w.db, idleBefore, w.clock).jobs, w.attempts);
  }

  lemma SweepSources(w: World, idleBefore: Time)
    requires SourceInv(w) && Rows(w.db.jobs)
    ensures SourceInv(Swept(w, idleBefore))
  {
    hide SourceInv, CalmTable, LeasesKept, SweepCancelled;
    SweepIsCalm(w, idleBefore);
    CalmSources(w, SweepCancelled(w.db, idleBefore, w.clock).jobs, w.attempts);
  }

  lemma SweepMedia(w: World, idleBefore: Time)
    requires MediaInv(w) && Rows(w.db.jobs)
    ensures MediaInv(Swept(w, idleBefore))
  {
    hide MediaInv, CalmTable, LeasesKept, SweepCancelled;
    SweepIsCalm(w, idleBefore);
    CalmMedia(w, SweepCancelled(w.db, idleBefore, w.clock).jobs, w.attempts);
  }

  lemma SweepTouchesJobs(w: World, idleBefore: Time)
    ensures SweepCancelled(w.db, idleBefore, w.clock) == w.db.(jobs := SweepCancelled(w.db, idleBefore, w.clock).jobs)
  {}

  // ---- the durability barrier ----

  lemma AcknowledgeQueue(w: World, u: UploadId)
    requires QueueInv(w) && u in w.db.jobs && w.db.jobs[u].completedAt.Some?
    ensures QueueInv(w.(acked := w.acked + {w.db.jobs[u].mediaId}))
  {}

  lemma AcknowledgeKeeps(w: World, u: UploadId)
    requires Inv(w) && u in w.db.jobs && w.db.jobs[u].completedAt.Some?
    ensures Inv(w.(acked := w.acked + {w.db.jobs[u].mediaId}))
  {
    hide QueueInv, SourceInv, MediaInv;
    var w' := w.(acked := w.acked + {w.db.jobs[u].mediaId});
    AcknowledgeQueue(w, u);
    SameSources(w, w');
    SameMedia(w, w');
  }

  lemma BarriersKeep(w: World, barriers': map<nat, Barrier>, flushed': set<UploadId>)
    requires Inv(w)
    requires SourceInv(w.(barriers := barriers', flushed := flushed'))
    ensures Inv(w.(barriers := barriers', flushed := flushed'))
  {
    hide QueueInv, SourceInv, MediaInv;
    SameQueue(w, w.(barriers := barriers', flushed := flushed'));
    SameMedia(w, w.(barriers := barriers', flushed := flushed'));
  }

  lemma BarrierReadSources(w: World, b: nat, u: UploadId)
    requires SourceInv(w) && EnabledBarrier(w, BarrierRead(b, u))
    ensures SourceInv(ApplyBarrier(w, BarrierRead(b, u)))
  {}

  lemma BarrierStatSources(w: World, b: nat)
    requires SourceInv(w) && EnabledBarrier(w, BarrierStat(b))
    ensures SourceInv(ApplyBarrier(w, BarrierStat(b)))
  {}

  lemma BarrierFlushSources(w: World, b: nat)
    requires SourceInv(w) && EnabledBarrier(w, BarrierFlush(b))
    ensures SourceInv(ApplyBarrier(w, BarrierFlush(b)))
  {}

  lemma BarrierDropSources(w: World, b: nat)
    requires SourceInv(w)
    ensures SourceInv(w.(barriers := w.barriers - {b}))
  {}

  lemma BarrierLoseSources(w: World, b: nat)
    requires SourceInv(w) && b in w.barriers
    ensures SourceInv(w.(barriers := w.barriers[b := w.barriers[b].(pc := Lost)]))
  {}

  lemma BarrierDropKeeps(w: World, b: nat)
    requires Inv(w)
    ensures Inv(w.(barriers := w.barriers - {b}))
  {
    hide QueueInv, SourceInv, MediaInv;
    BarrierDropSources(w, b);
    BarriersKeep(w, w.barriers - {b}, w.flushed);
  }

  lemma BarrierReadKeeps(w: World, b: nat, u: UploadId)
    requires Inv(w) && EnabledBarrier(w, BarrierRead(b, u))
    ensures Inv(ApplyBarrier(w, BarrierRead(b, u)))
  {
    hide QueueInv, SourceInv, MediaInv;
    var w' := ApplyBarrier(w, BarrierRead(b, u));
    BarrierReadSources(w, b, u);
    BarriersKeep(w, w'.barriers, w'.flushed);
  }

  lemma BarrierStatKeeps(w: World, b: nat)
    requires Inv(w) && EnabledBarrier(w, BarrierStat(b))
    ensures Inv(ApplyBarrier(w, BarrierStat(b)))
  {
    hide QueueInv, SourceInv, MediaInv;
    var w' := ApplyBarrier(w, BarrierStat(b));
    BarrierStatSources(w, b);
    BarriersKeep(w, w'.barriers, w'.flushed);
  }

  lemma BarrierFlushKeeps(w: World, b: nat)
    requires Inv(w) && EnabledBarrier(w, BarrierFlush(b))
    ensures Inv(ApplyBarrier(w, BarrierFlush(b)))
  {
    hide QueueInv, SourceInv, MediaInv;
    var w' := ApplyBarrier(w, BarrierFlush(b));
    BarrierFlushSources(w, b);
    BarriersKeep(w, w'.barriers, w'.flushed);
  }

  lemma BarrierJoinDoneKeeps(w: World, u: UploadId)
    requires Inv(w) && EnabledBarrier(w, BarrierJoinDone(u))
    ensures Inv(ApplyBarrier(w, BarrierJoinDone(u)))
  {
    hide Inv;
    RowFacts(w, u);
    AcknowledgeKeeps(w, u);
  }

  lemma BarrierClassifyKeeps(w: World, b: nat)
    requires Inv(w) && EnabledBarrier(w, BarrierClassify(b))
    ensures Inv(ApplyBarrier(w, BarrierClassify(b)))
  {
    hide Inv;
    var u := w.barriers[b].u;
    BarrierDropKeeps(w, b);
    if u in w.db.jobs && (Working(w.db.jobs[u].status) || Published(w.db.jobs[u].status)) {
      RowFacts(w, u);
      AcknowledgeKeeps(w.(barriers := w.barriers - {b}), u);
    }
  }

  // ---- promotion: the durability commit ----

  ghost predicate MayPromote(w: World, b: nat) {
    && b in w.barriers && w.barriers[b].pc == Flushed
    && var u := w.barriers[b].u;
       && CanPromote(w.db, u)
       && RowShape(w.db.jobs[u])
       && w.db.jobs[u].mediaId !in w.published
       && w.db.jobs[u].authoritative == None
  }

  lemma PromoteRowQueue(w: World, b: nat)
    requires QueueInv(w) && MayPromote(w, b)
    ensures QueueInv(WithJob(w, w.barriers[b].u, PromoteRow(w.db.jobs[w.barriers[b].u], w.clock)))
  {
    hide Rows, DistinctMedia, Allocated, Fenced, Attended, Timely, Quiet, Janitors, ReopensTerminal, Acknowledged;
    PromoteRowTable(w, b);
    PromoteRowActors(w, b);
  }

  lemma PromoteRowTable(w: World, b: nat)
    requires QueueInv(w) && MayPromote(w, b)
    ensures var jobs' := w.db.jobs[w.barriers[b].u := PromoteRow(w.db.jobs[w.barriers[b].u], w.clock)];
      && Rows(jobs') && DistinctMedia(jobs') && Allocated(jobs', w.published, w.usedMedia)
      && Acknowledged(jobs', w.acked, w.usedMedia) && Janitors(jobs', w.janitors)
  {
    hide Fenced, Attended, Timely, Quiet, ReopensTerminal;
  }

  lemma PromoteRowActors(w: World, b: nat)
    requires QueueInv(w) && MayPromote(w, b)
    ensures var jobs' := w.db.jobs[w.barriers[b].u := PromoteRow(w.db.jobs[w.barriers[b].u], w.clock)];
      && Fenced(jobs', w.attempts) && Attended(jobs', w.attempts) && Timely(jobs', w.attempts, w.clock)
      && ReopensTerminal(jobs', w.reopening)
  {
    hide Rows, DistinctMedia, Allocated, Acknowledged, Janitors, Quiet;
  }

  lemma PromoteQueue(w: World, b: nat)
    requires QueueInv(w) && MayPromote(w, b)
    ensures QueueInv(PromotedWorld(w, b))
  {
    hide QueueInv;
    var u := w.barriers[b].u;
    var w1 := WithJob(w, u, PromoteRow(w.db.jobs[u], w.clock));
    var w2 := w1.(acked := w1.acked + {w1.db.jobs[u].mediaId});
    PromoteRowQueue(w, b);
    AcknowledgeQueue(w1, u);
    SameQueue(w2, PromotedWorld(w, b));
  }

  lemma PromoteSources(w: World, b: nat)
    requires SourceInv(w) && MayPromote(w, b)
    requires forall t | t in w.attempts && Running(w.attempts[t]) && w.attempts[t].job.status == Processing ::
               w.attempts[t].u != w.barriers[b].u
    ensures SourceInv(PromotedWorld(w, b))
  {
    hide Transfers, DurableSources, Barriers, Identifies;
    PromoteDurable(w, b);
    PromoteBarriers(w, b);
  }

  lemma PromoteDurable(w: World, b: nat)
    requires SourceInv(w) && MayPromote(w, b)
    ensures var x := PromotedWorld(w, b);
      Transfers(x.db.jobs, x.sources, x.awaiting, x.known) && DurableSources(x.db.jobs, x.sources, x.durable, x.flushed)
  {
    hide Identifies;
  }

  lemma PromoteBarriers(w: World, b: nat)
    requires SourceInv(w) && MayPromote(w, b)
    requires forall t | t in w.attempts && Running(w.attempts[t]) && w.attempts[t].job.status == Processing ::
               w.attempts[t].u != w.barriers[b].u
    ensures var x := PromotedWorld(w, b);
      && Barriers(x.db.jobs, x.barriers, x.sources, x.flushed, x.awaiting, x.known)
      && Identifies(x.db.jobs, x.attempts, x.durable)
  {
    hide Transfers, DurableSources;
  }

  lemma PromoteMedia(w: World, b: nat)
    requires MediaInv(w) && MayPromote(w, b)
    requires forall t | t in w.attempts && Running(w.attempts[t]) && w.attempts[t].job.status == Processing ::
               w.attempts[t].u != w.barriers[b].u
    ensures MediaInv(PromotedWorld(w, b))
  {
    hide Gallery, LiveOriginals, Stages, Originals, Prepared, Publications, Resolved, LatePurges, Disowned;
    PromoteWork(w, b);
    PromoteResults(w, b);
  }

  lemma PromoteWork(w: World, b: nat)
    requires WorkInv(w) && MayPromote(w, b)
    requires forall t | t in w.attempts && Running(w.attempts[t]) && w.attempts[t].job.status == Processing ::
               w.attempts[t].u != w.barriers[b].u
    ensures var x := PromotedWorld(w, b);
      && Prepared(x.db.jobs, x.attempts, x.live, x.flushedOriginals)
      && Publications(x.db.jobs, x.published, x.durable, x.flushedOriginals)
  {
    hide Resolved, LatePurges, Disowned;
  }

  lemma PromoteResults(w: World, b: nat)
    requires WorkInv(w) && MayPromote(w, b)
    ensures var x := PromotedWorld(w, b);
      && Resolved(x.db.jobs, x.db.media, x.durable, x.latePurged, x.reopened)
      && LatePurges(x.latePurged, x.usedMedia, x.db.jobs) && Disowned(x.attempts, x.db.media)
  {
    hide Prepared, Publications;
  }

  lemma NobodyWorksOnUploading(w: World, u: UploadId)
    requires Inv(w) && IsUploading(w.db, u)
    ensures forall t | t in w.attempts && Running(w.attempts[t]) && w.attempts[t].job.status == Processing ::
              w.attempts[t].u != u
  {
    hide Inv;
    forall t | t in w.attempts && Running(w.attempts[t]) && w.attempts[t].job.status == Processing
      ensures w.attempts[t].u != u
    {
      AttemptFacts(w, t);
    }
  }

  lemma BarrierPromoteKeeps(w: World, b: nat)
    requires Inv(w) && EnabledBarrier(w, BarrierPromote(b))
    ensures Inv(ApplyBarrier(w, BarrierPromote(b)))
  {
    hide QueueInv, SourceInv, MediaInv;
    var u := w.barriers[b].u;
    if CanPromote(w.db, u) {
      RowFacts(w, u);
      NobodyWorksOnUploading(w, u);
      PromoteQueue(w, b);
      PromoteSources(w, b);
      PromoteMedia(w, b);
    } else {
      BarrierLoseSources(w, b);
      BarriersKeep(w, ApplyBarrier(w, BarrierPromote(b)).barriers, w.flushed);
    }
  }

  lemma BarrierDropIsKept(w: World, b: nat)
    requires Inv(w) && EnabledBarrier(w, BarrierDrop(b))
    ensures Inv(ApplyBarrier(w, BarrierDrop(b)))
  {
    hide Inv;
    BarrierDropKeeps(w, b);
  }
}
