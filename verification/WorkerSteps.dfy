/** Claims, retries, cleanup, discard and the janitor keep the invariant. */
module WorkerSteps {
  import opened Records
  import opened UploadJobs
  import opened World
  import opened Invariant
  import opened Frames

  // ---- claims ----

  function ClaimedWorld(w: World, t: Token, u: UploadId, k: Job, deadline: Time): World {
    w.(db := w.db.(jobs := w.db.jobs[u := k]),
       attempts := w.attempts[t := Attempt(u, k, Claimed, [], [], deadline)])
  }

  /** `k` is row `u` under a new lease for `t`, which outlives the attempt. */
  ghost predicate NewLease(w: World, t: Token, u: UploadId, k: Job, deadline: Time) {
    && t !in w.attempts && u in w.db.jobs && w.started
    && var j := w.db.jobs[u];
       && RowShape(j)
       && (j.lease == None || j.lease.value.until <= w.clock)
       && StagePair(j.status, k.status)
       && k.lease.Some? && k.lease.value.token == t && deadline <= k.lease.value.until
       && k == j.(status := k.status, lease := k.lease, updatedAt := k.updatedAt)
  }

  lemma ClaimFenced(w: World, t: Token, u: UploadId, k: Job, deadline: Time)
    requires QueueInv(w) && NewLease(w, t, u, k, deadline)
    ensures var w' := ClaimedWorld(w, t, u, k, deadline);
      Fenced(w'.db.jobs, w'.attempts) && Attended(w'.db.jobs, w'.attempts)
      && Timely(w'.db.jobs, w'.attempts, w'.clock)
  {
    hide Rows, DistinctMedia, Allocated, Fenced, Attended, Timely, Quiet, Janitors, ReopensTerminal, Acknowledged;
    ClaimTokens(w, t, u, k, deadline);
    ClaimAttended(w, t, u, k, deadline);
    ClaimTimely(w, t, u, k, deadline);
  }

  lemma ClaimTokens(w: World, t: Token, u: UploadId, k: Job, deadline: Time)
    requires QueueInv(w) && NewLease(w, t, u, k, deadline)
    ensures var x := ClaimedWorld(w, t, u, k, deadline);
      Fenced(x.db.jobs, x.attempts)
  {
    hide DistinctMedia, Allocated, Attended, Timely, Quiet, Janitors, ReopensTerminal, Acknowledged;
  }

  lemma ClaimAttended(w: World, t: Token, u: UploadId, k: Job, deadline: Time)
    requires QueueInv(w) && NewLease(w, t, u, k, deadline)
    ensures var x := ClaimedWorld(w, t, u, k, deadline);
      Attended(x.db.jobs, x.attempts)
  {
    hide DistinctMedia, Allocated, Fenced, Timely, Quiet, Janitors, ReopensTerminal, Acknowledged;
  }

  lemma ClaimTimely(w: World, t: Token, u: UploadId, k: Job, deadline: Time)
    requires QueueInv(w) && NewLease(w, t, u, k, deadline)
    ensures var x := ClaimedWorld(w, t, u, k, deadline);
      Timely(x.db.jobs, x.attempts, x.clock)
  {
    hide DistinctMedia, Allocated, Fenced, Attended, Quiet, Janitors, ReopensTerminal, Acknowledged;
  }

  lemma ClaimTable(w: World, t: Token, u: UploadId, k: Job, deadline: Time)
    requires QueueInv(w) && NewLease(w, t, u, k, deadline)
    ensures var w' := ClaimedWorld(w, t, u, k, deadline);
      Rows(w'.db.jobs) && DistinctMedia(w'.db.jobs) && Allocated(w'.db.jobs, w'.published, w'.usedMedia)
      && Quiet(w'.started, w'.attempts) && Janitors(w'.db.jobs, w'.janitors)
      && ReopensTerminal(w'.db.jobs, w'.reopening) && Acknowledged(w'.db.jobs, w'.acked, w'.usedMedia)
  {
    hide Fenced, Attended, Timely;
  }

  lemma ClaimQueue(w: World, t: Token, u: UploadId, k: Job, deadline: Time)
    requires QueueInv(w) && NewLease(w, t, u, k, deadline)
    ensures QueueInv(ClaimedWorld(w, t, u, k, deadline))
  {
    hide Fenced, Attended, Timely, Rows, DistinctMedia, Allocated, Quiet, Janitors, ReopensTerminal, Acknowledged;
    ClaimFenced(w, t, u, k, deadline);
    ClaimTable(w, t, u, k, deadline);
  }

  lemma ClaimSources(w: World, t: Token, u: UploadId, k: Job, deadline: Time)
    requires SourceInv(w) && NewLease(w, t, u, k, deadline)
    ensures SourceInv(ClaimedWorld(w, t, u, k, deadline))
  {
    hide SourceInv;
    var w' := ClaimedWorld(w, t, u, k, deadline);
    CalmSources(w, w'.db.jobs, w'.attempts);
  }

  lemma ClaimMedia(w: World, t: Token, u: UploadId, k: Job, deadline: Time)
    requires MediaInv(w) && NewLease(w, t, u, k, deadline)
    ensures MediaInv(ClaimedWorld(w, t, u, k, deadline))
  {
    hide MediaInv;
    var w' := ClaimedWorld(w, t, u, k, deadline);
    CalmMedia(w, w'.db.jobs, w'.attempts);
  }

  lemma ClaimKeeps(r: Rules, w: World, t: Token, u: UploadId, from: Status, to: Status, reading: Time, deadline: Time)
    requires Inv(w) && EnabledAttempt(r, w, Claim(t, u, from, to, reading, deadline))
    ensures Inv(ApplyAttempt(r, w, Claim(t, u, from, to, reading, deadline)))
  {
    hide QueueInv, SourceInv, MediaInv;
    RowFacts(w, u);
    var k := ClaimRow(w.db.jobs[u], to, t, reading, r.processingTimeout + r.reconcileInterval);
    ClaimQueue(w, t, u, k, deadline);
    ClaimSources(w, t, u, k, deadline);
    ClaimMedia(w, t, u, k, deadline);
  }

  // ---- the end of an attempt ----

  lemma EndKeeps(w: World, t: Token)
    requires Inv(w) && t in w.attempts
    ensures Inv(Moved(w, t, Finished))
  {
    hide Inv;
    AdvanceKeeps(w, t, w.attempts[t].(pc := Finished));
  }

  /** Only the token is tested, yet the row must be in the stage the token was issued for. */
  lemma RetryIsCalm(w: World, t: Token, next: Time)
    requires Inv(w) && t in w.attempts && Running(w.attempts[t]) && Holds(w.db, w.attempts[t].u, t)
    ensures var a := w.attempts[t];
      CalmRow(w, a.u, RetriedRow(w, a, next), Some(t)) && Unpublishing(w.db.jobs[a.u], RetriedRow(w, a, next))
  {
    hide Inv, AttemptKnown, SourceIntact;
    RowFacts(w, w.attempts[t].u);
  }

  lemma RetriedKeeps(w: World, t: Token, next: Time)
    requires Inv(w) && t in w.attempts && Running(w.attempts[t])
    ensures Inv(Retried(w, t, next))
  {
    hide Inv, CalmRow, Unpublishing, RetriedRow;
    var a := w.attempts[t];
    if Holds(w.db, a.u, t) {
      RetryIsCalm(w, t, next);
      CalmRowKeeps(w, a.u, RetriedRow(w, a, next), Some(t));
    } else {
      EndKeeps(w, t);
    }
  }

  lemma FailKeeps(r: Rules, w: World, t: Token, next: Time)
    requires Inv(w) && EnabledAttempt(r, w, Fail(t, next))
    ensures Inv(ApplyAttempt(r, w, Fail(t, next)))
  {
    hide Inv, Retried;
    RetriedKeeps(w, t, next);
  }

  lemma ClosedKeeps(w: World, t: Token)
    requires Inv(w) && t in w.attempts && Running(w.attempts[t]) && w.attempts[t].job.status != Processing
    ensures Inv(Closed(w, t))
  {
    hide Inv, Believes, Relies, SourceIntact;
    AttemptFacts(w, t);
    var a := w.attempts[t];
    if Holds(w.db, a.u, t) {
      CalmRowKeeps(w, a.u, ClosedRow(w, a), Some(t));
    } else {
      EndKeeps(w, t);
    }
  }

  lemma FinishKeeps(w: World, t: Token)
    requires Inv(w) && EnabledRemoval(w, Finish(t))
    ensures Inv(ApplyRemoval(w, Finish(t)))
  {
    hide Inv, Closed;
    ClosedKeeps(w, t);
  }

  lemma VanishKeeps(r: Rules, w: World, t: Token)
    requires Inv(w) && EnabledAttempt(r, w, Vanish(t))
    ensures Inv(ApplyAttempt(r, w, Vanish(t)))
  {
    hide Inv;
    EndKeeps(w, t);
  }

  // ---- looks and decisions of cleanup and discard ----

  lemma LookKeeps(w: World, t: Token, pc: Pc)
    requires Inv(w) && t in w.attempts && Running(w.attempts[t]) && w.attempts[t].job.status != Processing
    requires pc == Unowned ==> w.attempts[t].job.mediaId !in w.db.media
    ensures Inv(Moved(w, t, pc))
  {
    hide Inv;
    AdvanceKeeps(w, t, w.attempts[t].(pc := pc));
  }

  lemma CheckOwnerKeeps(w: World, t: Token)
    requires Inv(w) && EnabledRemoval(w, CheckOwner(t))
    ensures Inv(ApplyRemoval(w, CheckOwner(t)))
  {
    hide Inv;
    LookKeeps(w, t, if w.attempts[t].job.mediaId in w.db.media then Swept else Unowned);
  }

  lemma KeepArtifactsKeeps(w: World, t: Token)
    requires Inv(w) && EnabledRemoval(w, KeepArtifacts(t))
    ensures Inv(ApplyRemoval(w, KeepArtifacts(t)))
  {
    hide Inv;
    LookKeeps(w, t, Swept);
  }

  lemma EndArtifactsKeeps(w: World, t: Token)
    requires Inv(w) && EnabledRemoval(w, EndArtifacts(t))
    ensures Inv(ApplyRemoval(w, EndArtifacts(t)))
  {
    hide Inv;
    LookKeeps(w, t, Swept);
  }

  lemma LookForSourceKeeps(w: World, t: Token)
    requires Inv(w) && EnabledRemoval(w, LookForSource(t))
    ensures Inv(ApplyRemoval(w, LookForSource(t)))
  {
    hide Inv;
    LookKeeps(w, t, if SourceOf(w.sources, w.attempts[t].u).data.Some? then Terminating else Removed);
  }

  lemma ReadBeforeDeleteKeeps(w: World, t: Token)
    requires Inv(w) && EnabledRemoval(w, ReadBeforeDelete(t))
    ensures Inv(ApplyRemoval(w, ReadBeforeDelete(t)))
  {
    hide Inv;
    LookKeeps(w, t, Authorised);
  }

  lemma ConfirmGoneKeeps(w: World, t: Token)
    requires Inv(w) && EnabledRemoval(w, ConfirmGone(t))
    ensures Inv(ApplyRemoval(w, ConfirmGone(t)))
  {
    hide Inv;
    LookKeeps(w, t, Gone);
  }

  // ---- artifact removal ----

  lemma NobodyPublishes(w: World, t: Token)
    requires Inv(w) && Removing(w, t, Unowned)
    ensures w.attempts[t].job.mediaId !in w.db.media
    ensures forall v | v in w.attempts && Running(w.attempts[v]) && w.attempts[v].job.status == Processing
                       && w.attempts[v].job.mediaId == w.attempts[t].job.mediaId && w.attempts[v].u in w.db.jobs ::
              !Working(w.db.jobs[w.attempts[v].u].status)
  {
    hide Inv;
    AttemptFacts(w, t);
    forall v | v in w.attempts && Running(w.attempts[v]) && w.attempts[v].job.status == Processing
               && w.attempts[v].job.mediaId == w.attempts[t].job.mediaId && w.attempts[v].u in w.db.jobs
      ensures !Working(w.db.jobs[w.attempts[v].u].status)
    {
      AttemptFacts(w, v);
      SameIncarnation(w, w.attempts[t].u, w.attempts[v].u);
    }
  }

  lemma RemoveOtherKeeps(w: World, m: MediaId, art: Artifact)
    requires MediaInv(w) && art != Original
    ensures MediaInv(w.(live := w.live - {Path(m, art)}))
  {
    hide MediaInv;
    OtherFilesKeep(w, w.live - {Path(m, art)});
  }

  lemma RemoveArtifactKeeps(w: World, t: Token, art: Artifact)
    requires Inv(w) && EnabledRemoval(w, RemoveArtifact(t, art))
    ensures Inv(ApplyRemoval(w, RemoveArtifact(t, art)))
  {
    hide QueueInv, SourceInv, MediaInv;
    var m := w.attempts[t].job.mediaId;
    var w' := w.(live := w.live - {Path(m, art)});
    NobodyPublishes(w, t);
    SameQueue(w, w');
    SameSources(w, w');
    if art == Original { RemoveOriginalKeeps(w, m); } else { RemoveOtherKeeps(w, m, art); }
  }

  // ---- source removal ----

  /** Only an upload that is published or condemned may lose its source. */
  ghost predicate Removable(w: World, u: UploadId) {
    u in w.db.jobs
    && (Published(w.db.jobs[u].status) || (Condemned(w.db.jobs[u].status) && w.db.jobs[u].reason != Unobservable))
  }

  lemma DropTransfers(w: World, u: UploadId, dropData: bool, dropInfo: bool)
    requires SourceInv(w) && Removable(w, u)
    ensures var s' := Drop(w, u, dropData, dropInfo).sources;
      Transfers(w.db.jobs, s', w.awaiting, w.known) && DurableSources(w.db.jobs, s', w.durable, w.flushed)
  {
    hide Barriers, Identifies;
  }

  lemma DropBarriers(w: World, u: UploadId, dropData: bool, dropInfo: bool)
    requires SourceInv(w) && Removable(w, u) && RowShape(w.db.jobs[u])
    ensures Barriers(w.db.jobs, w.barriers, Drop(w, u, dropData, dropInfo).sources, w.flushed, w.awaiting, w.known)
  {
    hide Transfers, DurableSources, Identifies;
  }

  lemma DropSources(w: World, u: UploadId, dropData: bool, dropInfo: bool)
    requires SourceInv(w) && Removable(w, u) && RowShape(w.db.jobs[u])
    ensures SourceInv(Drop(w, u, dropData, dropInfo))
  {
    hide Transfers, DurableSources, Barriers, Identifies;
    DropTransfers(w, u, dropData, dropInfo);
    DropBarriers(w, u, dropData, dropInfo);
  }

  lemma DropKeeps(w: World, u: UploadId, dropData: bool, dropInfo: bool)
    requires Inv(w) && Removable(w, u)
    ensures Inv(Drop(w, u, dropData, dropInfo))
  {
    hide QueueInv, SourceInv, MediaInv;
    RowFacts(w, u);
    DropSources(w, u, dropData, dropInfo);
    SameQueue(w, Drop(w, u, dropData, dropInfo));
    SameMedia(w, Drop(w, u, dropData, dropInfo));
  }

  lemma RemoverMayRemove(w: World, t: Token)
    requires Inv(w) && t in w.attempts && Running(w.attempts[t]) && w.attempts[t].job.status != Processing
    ensures Removable(w, w.attempts[t].u)
  {
    hide Inv;
    AttemptFacts(w, t);
  }

  lemma DeleteKeeps(w: World, t: Token, dropData: bool, dropInfo: bool)
    requires Inv(w) && EnabledRemoval(w, Delete(t, dropData, dropInfo))
    ensures Inv(ApplyRemoval(w, Delete(t, dropData, dropInfo)))
  {
    hide Inv;
    RemoverMayRemove(w, t);
    LookKeeps(w, t, Removed);
    DropKeeps(Moved(w, t, Removed), w.attempts[t].u, dropData, dropInfo);
  }

  lemma UnlinkDataKeeps(w: World, t: Token)
    requires Inv(w) && EnabledRemoval(w, UnlinkData(t))
    ensures Inv(ApplyRemoval(w, UnlinkData(t)))
  {
    hide Inv;
    RemoverMayRemove(w, t);
    DropKeeps(w, w.attempts[t].u, true, false);
  }

  lemma UnlinkInfoKeeps(w: World, t: Token)
    requires Inv(w) && EnabledRemoval(w, UnlinkInfo(t))
    ensures Inv(ApplyRemoval(w, UnlinkInfo(t)))
  {
    hide Inv;
    RemoverMayRemove(w, t);
    DropKeeps(w, w.attempts[t].u, false, true);
  }

  // ---- the janitor ----

  lemma JanitorsQueue(w: World, janitors': map<nat, Janitor>)
    requires QueueInv(w) && Janitors(w.db.jobs, janitors')
    ensures QueueInv(w.(janitors := janitors'))
  {}

  lemma JanitorsKeep(w: World, janitors': map<nat, Janitor>)
    requires Inv(w) && Janitors(w.db.jobs, janitors')
    ensures Inv(w.(janitors := janitors'))
  {
    hide QueueInv, SourceInv, MediaInv;
    JanitorsQueue(w, janitors');
    SameSources(w, w.(janitors := janitors'));
    SameMedia(w, w.(janitors := janitors'));
  }

  lemma JanitorFacts(w: World)
    requires Inv(w)
    ensures Janitors(w.db.jobs, w.janitors)
  {}

  lemma JanitorClaimKeeps(w: World, k: nat, u: UploadId)
    requires Inv(w) && EnabledJanitor(w, JanitorClaim(k, u))
    ensures Inv(ApplyJanitor(w, JanitorClaim(k, u)))
  {
    hide Inv;
    RowFacts(w, u);
    var j := DiscardRow(w.db.jobs[u], w.clock);
    CalmRowKeeps(w, u, j, None);
    JanitorFacts(WithJob(w, u, j));
    JanitorsKeep(WithJob(w, u, j), w.janitors[k := Janitor(u, j.mediaId, false)]);
  }

  lemma JanitorReadKeeps(w: World, k: nat)
    requires Inv(w) && EnabledJanitor(w, JanitorRead(k))
    ensures Inv(ApplyJanitor(w, JanitorRead(k)))
  {
    hide Inv;
    JanitorFacts(w);
    JanitorsKeep(w, w.janitors[k := w.janitors[k].(authorised := true)]);
  }

  lemma JanitorDropKeeps(w: World, k: nat)
    requires Inv(w)
    ensures Inv(w.(janitors := w.janitors - {k}))
  {
    hide Inv;
    JanitorFacts(w);
    JanitorsKeep(w, w.janitors - {k});
  }

  lemma JanitorDeleteKeeps(w: World, k: nat, dropData: bool, dropInfo: bool)
    requires Inv(w) && EnabledJanitor(w, JanitorDelete(k, dropData, dropInfo))
    ensures Inv(ApplyJanitor(w, JanitorDelete(k, dropData, dropInfo)))
  {
    hide Inv;
    JanitorFacts(w);
    DropKeeps(w, w.janitors[k].u, dropData, dropInfo);
    JanitorDropKeeps(Drop(w, w.janitors[k].u, dropData, dropInfo), k);
  }

  lemma JanitorDropIsKept(w: World, k: nat)
    requires Inv(w) && EnabledJanitor(w, JanitorDrop(k))
    ensures Inv(ApplyJanitor(w, JanitorDrop(k)))
  {
    hide Inv;
    JanitorDropKeeps(w, k);
  }
}
