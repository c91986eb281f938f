/** How one state may follow another: what no step ever takes back. */
module History {
  import opened Records
  import opened UploadJobs
  import opened World
  import opened Invariant
  import opened Frames

  /** What one row may become. The two decided classes are closed, and nothing returns to uploading. */
  ghost predicate Evolves(j: Job, k: Job) {
    && k.expectedSize == j.expectedSize && k.declared == j.declared
    && (Published(j.status) ==> Published(k.status) && k.result == j.result)
    && (Condemned(j.status) ==> Condemned(k.status) && k.reason == j.reason)
    && (Working(j.status) && Condemned(k.status) ==> ContentRejection(k.reason))
    && (k.status == Uploading ==> j.status == Uploading)
    && (j.completedAt.Some? ==> k.completedAt == j.completedAt)
    && (j.cancelledAt.Some? ==> k.cancelledAt == j.cancelledAt)
  }

  /** A row either continues an incarnation, or starts one under a media id never used before. */
  ghost predicate TableSucceeds(jobs: Jobs, jobs': Jobs, usedMedia: set<MediaId>) {
    forall u | u in jobs' ::
      (u in jobs && jobs'[u].mediaId == jobs[u].mediaId && Evolves(jobs[u], jobs'[u]))
      || jobs'[u].mediaId !in usedMedia
  }

  /** Evolves, and rejects nobody for content. */
  ghost predicate Steady(j: Job, k: Job) {
    Evolves(j, k) && (Condemned(k.status) && ContentRejection(k.reason) ==> Condemned(j.status))
  }

  ghost predicate SteadyTable(jobs: Jobs, jobs': Jobs, usedMedia: set<MediaId>) {
    forall u | u in jobs' ::
      (u in jobs && jobs'[u].mediaId == jobs[u].mediaId && Steady(jobs[u], jobs'[u]))
      || (jobs'[u].mediaId !in usedMedia && jobs'[u].status == Uploading)
  }

  /** What is never forgotten, besides the rows. */
  ghost predicate Remembers(w: World, w': World) {
    && w.usedMedia <= w'.usedMedia
    && w.acked <= w'.acked && w.reopened <= w'.reopened && w.latePurged <= w'.latePurged
    && (forall u | u in w.db.jobs && w.db.jobs[u].completedAt.Some? && u in w.durable
                   && u in w'.db.jobs && w'.db.jobs[u].mediaId == w.db.jobs[u].mediaId ::
          u in w'.durable && w'.durable[u] == w.durable[u])
  }

  ghost predicate Succeeds(w: World, w': World) {
    TableSucceeds(w.db.jobs, w'.db.jobs, w.usedMedia) && Remembers(w, w')
  }

  /** Succession without a rejection, and without rows that do not start as uploads. */
  ghost predicate Steadily(w: World, w': World) {
    SteadyTable(w.db.jobs, w'.db.jobs, w.usedMedia) && Remembers(w, w')
  }

  lemma SteadilySucceeds(w: World, w': World)
    requires Steadily(w, w')
    ensures Succeeds(w, w')
  {
    hide Remembers, Evolves;
  }

  lemma SucceedsTransitively(a: World, b: World, c: World)
    requires Succeeds(a, b) && Succeeds(b, c)
    requires forall u | u in a.db.jobs :: a.db.jobs[u].mediaId in a.usedMedia
    ensures Succeeds(a, c)
  {}

  /** Steps that leave the queue table alone. */
  lemma Untouched(w: World, w': World)
    requires w'.db.jobs == w.db.jobs && w'.usedMedia == w.usedMedia && w'.durable == w.durable
    requires w.acked <= w'.acked && w'.reopened == w.reopened && w.latePurged <= w'.latePurged
    ensures Steadily(w, w')
  {}

  /** Steps that change one row. */
  lemma OneRow(w: World, w': World, u: UploadId, k: Job)
    requires u in w.db.jobs && w'.db.jobs == w.db.jobs[u := k]
    requires k.mediaId == w.db.jobs[u].mediaId && Steady(w.db.jobs[u], k)
    requires w'.usedMedia == w.usedMedia && w.acked <= w'.acked && w.reopened <= w'.reopened
    requires w'.latePurged == w.latePurged
    requires forall v | v in w.durable && (v != u || w.db.jobs[u].completedAt.Some?) ::
               v in w'.durable && w'.durable[v] == w.durable[v]
    ensures Steadily(w, w')
  {}

  lemma NewRowSucceeds(w: World, w': World, u: UploadId, k: Job)
    requires w'.db.jobs == w.db.jobs[u := k] && u !in w.db.jobs && k.mediaId !in w.usedMedia
    requires k.status == Uploading
    requires w.usedMedia <= w'.usedMedia && w'.durable == w.durable
    requires w'.acked == w.acked && w'.reopened == w.reopened && w'.latePurged == w.latePurged
    ensures Steadily(w, w')
  {}

  lemma TransferSucceeds(w: World, s: Step)
    requires Inv(w) && EnabledTransfer(w, s)
    ensures Steadily(w, ApplyTransfer(w, s))
  {
    hide QueueInv, SourceInv, MediaInv, Steadily, EnabledTransfer, ApplyTransfer;
    if s.PreCreate? { PreCreateSucceeds(w, s); }
    else if s.Sweep? { SweptSucceeds(w, s); }
    else if s.RequestCancellation? || s.MarkUnobservable? { EndedSucceeds(w, s); }
    else { TransferGroup(w, s); TransferredSucceeds(w, s); }
  }

  lemma TransferGroup(w: World, s: Step)
    requires EnabledTransfer(w, s)
    requires !s.PreCreate? && !s.Sweep? && !s.RequestCancellation? && !s.MarkUnobservable?
    ensures s.CreateFiles? || s.Write? || s.ListStale?
  {}

  lemma PreCreateSucceeds(w: World, s: Step)
    requires EnabledTransfer(w, s) && s.PreCreate?
    ensures Steadily(w, ApplyTransfer(w, s))
  {
    hide Steadily;
    NewRowSucceeds(w, ApplyTransfer(w, s), s.u, NewJob(s.m, s.size, s.declared, w.clock));
  }

  lemma EndedSucceeds(w: World, s: Step)
    requires EnabledTransfer(w, s) && (s.RequestCancellation? || s.MarkUnobservable?)
    ensures Steadily(w, ApplyTransfer(w, s))
  {
    hide Steadily;
    OneRow(w, ApplyTransfer(w, s), s.u, ApplyTransfer(w, s).db.jobs[s.u]);
  }

  lemma SweptSucceeds(w: World, s: Step)
    requires QueueInv(w) && EnabledTransfer(w, s) && s.Sweep?
    ensures Steadily(w, ApplyTransfer(w, s))
  {
    hide QueueInv, Steadily;
    TableFacts(w);
    SweepSucceeds(w, s.idleBefore);
  }

  lemma TransferredSucceeds(w: World, s: Step)
    requires EnabledTransfer(w, s) && (s.CreateFiles? || s.Write? || s.ListStale?)
    ensures Steadily(w, ApplyTransfer(w, s))
  {
    hide Steadily;
    Untouched(w, ApplyTransfer(w, s));
  }

  lemma SweepSucceeds(w: World, idleBefore: Time)
    requires Rows(w.db.jobs)
    ensures Steadily(w, w.(db := SweepCancelled(w.db, idleBefore, w.clock)))
  {}

  /** One row evolves while, at most, its attempt ends. */
  lemma EndSucceeds(w: World, t: Token, k: Job)
    requires t in w.attempts && w.attempts[t].u in w.db.jobs
    requires k.mediaId == w.db.jobs[w.attempts[t].u].mediaId && Steady(w.db.jobs[w.attempts[t].u], k)
    ensures Steadily(w, Moved(WithJob(w, w.attempts[t].u, k), t, Finished))
  {
    hide Steadily;
    OneRow(w, Moved(WithJob(w, w.attempts[t].u, k), t, Finished), w.attempts[t].u, k);
  }

  lemma PromotionEvolves(w: World, u: UploadId)
    requires Inv(w) && CanPromote(w.db, u)
    ensures Steady(w.db.jobs[u], PromoteRow(w.db.jobs[u], w.clock))
    ensures w.db.jobs[u].completedAt == None
  {
    hide Inv, SourceIntact;
    RowFacts(w, u);
  }

  lemma PromotedSucceeds(w: World, b: nat)
    requires b in w.barriers && w.barriers[b].u in w.db.jobs && w.db.jobs[w.barriers[b].u].completedAt == None
    requires Steady(w.db.jobs[w.barriers[b].u], PromoteRow(w.db.jobs[w.barriers[b].u], w.clock))
    ensures Steadily(w, PromotedWorld(w, b))
  {
    hide Steadily, Steady;
    OneRow(w, PromotedWorld(w, b), w.barriers[b].u, PromoteRow(w.db.jobs[w.barriers[b].u], w.clock));
  }

  lemma PromoteSucceeds(w: World, b: nat)
    requires Inv(w) && EnabledBarrier(w, BarrierPromote(b))
    ensures Steadily(w, ApplyBarrier(w, BarrierPromote(b)))
  {
    hide Inv, Steadily, Steady, PromotedWorld;
    if CanPromote(w.db, w.barriers[b].u) {
      PromotionEvolves(w, w.barriers[b].u);
      PromotedSucceeds(w, b);
    } else {
      Untouched(w, w.(barriers := w.barriers[b := w.barriers[b].(pc := Lost)]));
    }
  }

  lemma AcknowledgeSucceeds(w: World, w': World)
    requires w' == w.(barriers := w'.barriers, flushed := w'.flushed, acked := w'.acked) && w.acked <= w'.acked
    ensures Steadily(w, w')
  {
    hide Steadily;
    Untouched(w, w');
  }

  lemma BarrierSucceeds(w: World, s: Step)
    requires Inv(w) && EnabledBarrier(w, s)
    ensures Steadily(w, ApplyBarrier(w, s))
  {
    hide Inv, Steadily, PromotedWorld;
    if s.BarrierPromote? {
      PromoteSucceeds(w, s.b);
    } else {
      AcknowledgeSucceeds(w, ApplyBarrier(w, s));
    }
  }

  lemma JanitorSucceeds(w: World, s: Step)
    requires Inv(w) && EnabledJanitor(w, s)
    ensures Steadily(w, ApplyJanitor(w, s))
  {
    hide Inv, Steadily;
    if s.JanitorClaim? {
      RowFacts(w, s.u);
      OneRow(w, ApplyJanitor(w, s), s.u, DiscardRow(w.db.jobs[s.u], w.clock));
    } else {
      Untouched(w, ApplyJanitor(w, s));
    }
  }

  lemma RetryEvolves(w: World, t: Token, next: Time)
    requires Inv(w) && t in w.attempts && Running(w.attempts[t]) && Holds(w.db, w.attempts[t].u, t)
    ensures var a := w.attempts[t]; var k := RetriedRow(w, a, next);
      Steady(w.db.jobs[a.u], k) && k.mediaId == w.db.jobs[a.u].mediaId
  {
    hide Inv, SourceIntact;
    RowFacts(w, w.attempts[t].u);
  }

  lemma RetrySucceeds(w: World, t: Token, next: Time)
    requires Inv(w) && t in w.attempts && Running(w.attempts[t])
    ensures Steadily(w, Retried(w, t, next))
  {
    hide Inv, Steadily, Steady, RetriedRow, Retried;
    var a := w.attempts[t];
    RetriedForm(w, t, next);
    if Holds(w.db, a.u, t) {
      RetryEvolves(w, t, next);
      EndSucceeds(w, t, RetriedRow(w, a, next));
    } else {
      Untouched(w, Moved(w, t, Finished));
    }
  }

  lemma RetriedForm(w: World, t: Token, next: Time)
    requires t in w.attempts
    ensures Holds(w.db, w.attempts[t].u, t) ==>
              Retried(w, t, next) ==
              Moved(WithJob(w, w.attempts[t].u, RetriedRow(w, w.attempts[t], next)), t, Finished)
    ensures !Holds(w.db, w.attempts[t].u, t) ==> Retried(w, t, next) == Moved(w, t, Finished)
  {
    hide RetriedRow;
  }

  lemma AttemptSucceeds(r: Rules, w: World, s: Step)
    requires Inv(w) && EnabledAttempt(r, w, s)
    ensures Steadily(w, ApplyAttempt(r, w, s))
  {
    hide Inv, Steadily, Retried;
    var w' := ApplyAttempt(r, w, s);
    match s {
      case Claim(t, u, from, to, reading, deadline) => OneRow(w, w', u, w'.db.jobs[u]);
      case Fail(t, next) => RetrySucceeds(w, t, next);
      case Vanish(t) => Untouched(w, w');
    }
  }

  lemma PublishedSucceeds(w: World, t: Token)
    requires t in w.attempts && CanPublish(w.db, w.attempts[t].u, t)
    ensures Steadily(w, Moved(PublishedWorld(w, t), t, Finished))
  {
    hide Steadily;
    var a := w.attempts[t];
    OneRow(w, Moved(PublishedWorld(w, t), t, Finished), a.u, PublishRow(w.db.jobs[a.u], Winner(w.db, a.job.mediaId, a.content), w.clock));
  }

  lemma PublishedForm(w: World, t: Token)
    requires t in w.attempts && w.attempts[t].u in w.db.jobs
    ensures var x := PublishedWorld(w, t);
      Moved(w, t, Finished).(db := x.db, published := x.published) == Moved(x, t, Finished)
  {
    hide PublishMedia;
  }

  lemma PublishSucceeds(r: Rules, w: World, t: Token)
    requires EnabledProcessing(w, Publish(t))
    ensures Steadily(w, ApplyProcessing(r, w, Publish(t)))
  {
    hide Steadily, PublishedWorld;
    if CanPublish(w.db, w.attempts[t].u, t) {
      PublishedForm(w, t);
      PublishedSucceeds(w, t);
    } else {
      Untouched(w, Moved(w, t, Finished));
    }
  }

  lemma RecordSucceeds(r: Rules, w: World, s: Step)
    requires EnabledProcessing(w, s) && (s.RecordIdentity? || s.RecordPrepared?)
    ensures Steadily(w, ApplyProcessing(r, w, s))
  {
    hide Steadily;
    var u, w' := w.attempts[s.t].u, ApplyProcessing(r, w, s);
    OneRow(w, w', u, w'.db.jobs[u]);
  }

  lemma ProcessingSucceeds(r: Rules, w: World, s: Step)
    requires Inv(w) && EnabledProcessing(w, s) && !s.Reject?
    ensures Steadily(w, ApplyProcessing(r, w, s))
  {
    hide Inv, Steadily, EnabledProcessing, ApplyProcessing;
    if s.RecordIdentity? || s.RecordPrepared? { RecordSucceeds(r, w, s); }
    else if s.Publish? { PublishSucceeds(r, w, s.t); }
    else { LookSucceeds(r, w, s); }
  }

  lemma LookSucceeds(r: Rules, w: World, s: Step)
    requires EnabledProcessing(w, s)
    requires !s.RecordIdentity? && !s.RecordPrepared? && !s.Publish? && !s.Reject?
    ensures Steadily(w, ApplyProcessing(r, w, s))
  {
    hide Steadily;
    var w' := ApplyProcessing(r, w, s);
    assert w' == w.(attempts := w'.attempts, live := w'.live, flushedOriginals := w'.flushedOriginals);
    Untouched(w, w.(attempts := w'.attempts, live := w'.live, flushedOriginals := w'.flushedOriginals));
  }

  lemma CloseEvolves(w: World, t: Token)
    requires Inv(w) && t in w.attempts && Running(w.attempts[t]) && w.attempts[t].job.status != Processing
    requires Holds(w.db, w.attempts[t].u, t)
    ensures var a := w.attempts[t]; var k := ClosedRow(w, a);
      Steady(w.db.jobs[a.u], k) && k.mediaId == w.db.jobs[a.u].mediaId
  {
    hide Inv, SourceIntact, Relies, Believes;
    AttemptFacts(w, t);
  }

  lemma CloseSucceeds(w: World, t: Token)
    requires Inv(w) && t in w.attempts && Running(w.attempts[t]) && w.attempts[t].job.status != Processing
    ensures Steadily(w, Closed(w, t))
  {
    hide Inv, Steadily, Steady, ClosedRow, Closed;
    var a := w.attempts[t];
    ClosedForm(w, t);
    if Holds(w.db, a.u, t) {
      CloseEvolves(w, t);
      EndSucceeds(w, t, ClosedRow(w, a));
    } else {
      Untouched(w, Moved(w, t, Finished));
    }
  }

  lemma ClosedForm(w: World, t: Token)
    requires t in w.attempts
    ensures Holds(w.db, w.attempts[t].u, t) ==>
              Closed(w, t) == Moved(WithJob(w, w.attempts[t].u, ClosedRow(w, w.attempts[t])), t, Finished)
    ensures !Holds(w.db, w.attempts[t].u, t) ==> Closed(w, t) == Moved(w, t, Finished)
  {
    hide ClosedRow;
  }

  lemma RemovalSucceeds(w: World, s: Step)
    requires Inv(w) && EnabledRemoval(w, s)
    ensures Steadily(w, ApplyRemoval(w, s))
  {
    hide Inv, Steadily, Closed;
    if s.Finish? {
      CloseSucceeds(w, s.t);
    } else {
      Untouched(w, ApplyRemoval(w, s));
    }
  }

  lemma DeletedSucceeds(w: World, gone: set<UploadId>)
    ensures Steadily(w, w.(db := w.db.(jobs := w.db.jobs - gone)))
  {}

  lemma RequeueSucceeds(w: World)
    ensures Steadily(w, w.(db := RequeueStartup(w.db, w.clock), started := true))
  {}

  lemma ReopenEvolves(w: World)
    requires QueueInv(w) && EnabledOther(w, Reopen)
    ensures var u := w.reopening.value.u;
      && IsTerminal(w.db, u)
      && Steady(w.db.jobs[u], ReopenRow(w.db.jobs[u], w.reopening.value.target, w.clock))
  {
    TableFacts(w);
  }

  lemma ReopenSucceeds(w: World)
    requires Inv(w) && EnabledOther(w, Reopen)
    ensures Steadily(w, ApplyOther(w, Reopen))
  {
    hide Steadily, QueueInv, SourceInv, MediaInv, Steady;
    var u := w.reopening.value.u;
    ReopenEvolves(w);
    OneRow(w, ApplyOther(w, Reopen), u, ReopenRow(w.db.jobs[u], w.reopening.value.target, w.clock));
  }

  lemma AdoptSucceeds(w: World, s: Step)
    requires EnabledOther(w, s) && s.Adopt?
    ensures Steadily(w, ApplyOther(w, s))
  {
    hide Steadily;
    NewRowSucceeds(w, ApplyOther(w, s), s.u, ApplyOther(w, s).db.jobs[s.u]);
  }

  lemma PurgeSucceeds(w: World, s: Step)
    requires EnabledOther(w, s) && (s.PurgeCommit? || s.SetMediaStatus? || s.Crash?)
    ensures Steadily(w, ApplyOther(w, s))
  {
    hide Steadily;
    Untouched(w, ApplyOther(w, s));
  }

  lemma RestSucceeds(w: World, s: Step)
    requires EnabledOther(w, s)
    requires !s.Reopen? && !s.DeleteUnobservable? && !s.Adopt? && !s.Expire? && !s.RequeueAndStart?
    requires !s.PurgeCommit? && !s.SetMediaStatus? && !s.Crash?
    ensures Steadily(w, ApplyOther(w, s))
  {
    hide Steadily;
    Untouched(w, ApplyOther(w, s));
  }

  lemma OtherSucceeds(w: World, s: Step)
    requires Inv(w) && EnabledOther(w, s)
    ensures Steadily(w, ApplyOther(w, s))
  {
    hide Inv, Steadily;
    if s.Reopen? { ReopenSucceeds(w); }
    else if s.DeleteUnobservable? { DeletedSucceeds(w, {s.u}); }
    else if s.Adopt? { AdoptSucceeds(w, s); }
    else if s.Expire? { DeletedSucceeds(w, s.gone); }
    else if s.RequeueAndStart? { RequeueSucceeds(w); }
    else if s.PurgeCommit? || s.SetMediaStatus? || s.Crash? { PurgeSucceeds(w, s); }
    else { RestSucceeds(w, s); }
  }

  lemma RejectEvolves(w: World, t: Token)
    requires Inv(w) && t in w.attempts && Holds(w.db, w.attempts[t].u, t)
    requires w.attempts[t].job.status == Processing && w.attempts[t].pc.Rejecting?
    ensures var a := w.attempts[t]; var k := FinishRow(w.db.jobs[a.u], Discarding, a.pc.reason, w.clock);
      Evolves(w.db.jobs[a.u], k) && k.mediaId == w.db.jobs[a.u].mediaId
  {
    hide Inv, SourceIntact, Relies;
    AttemptFacts(w, t);
  }

  lemma RejectedSucceeds(w: World, t: Token, k: Job)
    requires t in w.attempts && w.attempts[t].u in w.db.jobs
    requires k.mediaId == w.db.jobs[w.attempts[t].u].mediaId && Evolves(w.db.jobs[w.attempts[t].u], k)
    ensures Succeeds(w, Moved(WithJob(w, w.attempts[t].u, k), t, Finished))
  {}

  lemma RejectSucceeds(r: Rules, w: World, t: Token)
    requires Inv(w) && EnabledProcessing(w, Reject(t))
    ensures Succeeds(w, ApplyProcessing(r, w, Reject(t)))
  {
    hide Inv, Succeeds, Evolves;
    var a := w.attempts[t];
    if Holds(w.db, a.u, t) {
      RejectEvolves(w, t);
      RejectedSucceeds(w, t, FinishRow(w.db.jobs[a.u], Discarding, a.pc.reason, w.clock));
    } else {
      Untouched(w, Moved(w, t, Finished));
      SteadilySucceeds(w, Moved(w, t, Finished));
    }
  }

  /** Every step but a rejection is steady. */
  lemma StepIsSteady(r: Rules, w: World, s: Step)
    requires Inv(w) && Enabled(r, w, s) && !s.Reject?
    ensures Steadily(w, Apply(r, w, s))
  {
    hide Inv, Steadily;
    hide EnabledTransfer, EnabledBarrier, EnabledJanitor, EnabledAttempt;
    hide EnabledProcessing, EnabledRemoval, EnabledOther;
    hide ApplyTransfer, ApplyBarrier, ApplyJanitor, ApplyAttempt, ApplyProcessing, ApplyRemoval, ApplyOther;
    if EnabledTransfer(w, s) { TransferSucceeds(w, s); }
    else if EnabledBarrier(w, s) { BarrierSucceeds(w, s); }
    else if EnabledJanitor(w, s) { JanitorSucceeds(w, s); }
    else if EnabledAttempt(r, w, s) { AttemptSucceeds(r, w, s); }
    else if EnabledProcessing(w, s) { ProcessingSucceeds(r, w, s); }
    else if EnabledRemoval(w, s) { RemovalSucceeds(w, s); }
    else { OtherSucceeds(w, s); }
  }

  lemma StepSucceeds(r: Rules, w: World, s: Step)
    requires Inv(w) && Enabled(r, w, s)
    ensures Succeeds(w, Apply(r, w, s))
  {
    hide Inv, Succeeds, Steadily, Enabled, Apply;
    if s.Reject? {
      RejectsByProcessing(r, w, s);
      RejectSucceeds(r, w, s.t);
    } else {
      StepIsSteady(r, w, s);
      SteadilySucceeds(w, Apply(r, w, s));
    }
  }

  lemma RejectsByProcessing(r: Rules, w: World, s: Step)
    requires Enabled(r, w, s) && s.Reject?
    ensures EnabledProcessing(w, s) && Apply(r, w, s) == ApplyProcessing(r, w, s)
  {
    hide ApplyTransfer, ApplyBarrier, ApplyJanitor, ApplyAttempt, ApplyProcessing, ApplyRemoval, ApplyOther;
  }
}
