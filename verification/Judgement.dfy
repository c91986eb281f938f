/** A rejection is right about the bytes it rejects. */
module Judgement {
  import opened Records
  import opened UploadJobs
  import opened World
  import opened Invariant
  import opened Frames
  import opened History
  import opened Footprints

  /** The bytes are of no supported type, or not the ones that were declared. */
  predicate Faulty(r: Rules, declared: Option<Digest>, c: Content) {
    !r.supported(c) || (declared.Some? && declared.value != c)
  }

  /** The reason given is the fault there is. */
  predicate Rightly(r: Rules, declared: Option<Digest>, c: Content, reason: Reason) {
    || (reason == UnsupportedType && !r.supported(c))
    || (reason == ChecksumMismatch && declared.Some? && declared.value != c)
  }

  /** What a processing attempt is about to reject is what was promoted, and deserves it. */
  ghost predicate AttemptJudges(r: Rules, w: World, a: Attempt) {
    && (a.u in w.db.jobs ==> a.job.declared == w.db.jobs[a.u].declared)
    && (a.pc.Rejecting? ==>
          a.u in w.durable && a.content == w.durable[a.u] && Rightly(r, a.job.declared, a.content, a.pc.reason))
  }

  ghost predicate RowJudged(r: Rules, w: World, u: UploadId)
    requires u in w.db.jobs
  {
    Condemned(w.db.jobs[u].status) && ContentRejection(w.db.jobs[u].reason) ==>
      u in w.durable && Rightly(r, w.db.jobs[u].declared, w.durable[u], w.db.jobs[u].reason)
  }

  ghost predicate Judged(r: Rules, w: World) {
    && (forall t | t in w.attempts && Running(w.attempts[t]) && w.attempts[t].job.status == Processing ::
          AttemptJudges(r, w, w.attempts[t]))
    && (forall u | u in w.db.jobs :: RowJudged(r, w, u))
  }

  // ---- how attempts move ----

  /** A running attempt is an older one, which turned to rejecting only by hashing, or it was just claimed. */
  ghost predicate Follows(w: World, w': World, s: Step) {
    forall t | t in w'.attempts && Running(w'.attempts[t]) ::
      var b := w'.attempts[t];
      || (t in w.attempts && Running(w.attempts[t]) && b.u == w.attempts[t].u && b.job == w.attempts[t].job
          && (b.pc.Rejecting? ==> b == w.attempts[t] || s == Hash(t)))
      || (s.Claim? && !b.pc.Rejecting? && b.u in w.db.jobs
          && b.job.mediaId == w.db.jobs[b.u].mediaId && b.job.declared == w.db.jobs[b.u].declared)
  }

  lemma SameAttemptsFollow(w: World, w': World, s: Step)
    requires w'.attempts == w.attempts
    ensures Follows(w, w', s)
  {}

  lemma MoveFollows(w: World, w': World, s: Step, t: Token, b: Attempt)
    requires t in w.attempts && w'.attempts == w.attempts[t := b]
    requires b.u == w.attempts[t].u && b.job == w.attempts[t].job && (Running(b) ==> Running(w.attempts[t]))
    requires b.pc.Rejecting? ==> s == Hash(t)
    ensures Follows(w, w', s)
  {}

  lemma AttemptFollows(r: Rules, w: World, s: Step)
    requires EnabledAttempt(r, w, s)
    ensures Follows(w, ApplyAttempt(r, w, s), s)
  {
    hide Follows, RetriedRow;
    if s.Claim? {
      ClaimFollows(r, w, s);
    } else {
      MoveFollows(w, ApplyAttempt(r, w, s), s, s.t, w.attempts[s.t].(pc := Finished));
    }
  }

  lemma ClaimFollows(r: Rules, w: World, s: Step)
    requires EnabledAttempt(r, w, s) && s.Claim?
    ensures Follows(w, ApplyAttempt(r, w, s), s)
  {}

  lemma ProcessingFollows(r: Rules, w: World, s: Step)
    requires EnabledProcessing(w, s)
    ensures Follows(w, ApplyProcessing(r, w, s), s)
  {
    hide Follows;
    var x := ApplyProcessing(r, w, s);
    ProcessingMovesOne(r, w, s);
    MoveFollows(w, x, s, s.t, x.attempts[s.t]);
  }

  lemma ProcessingMovesOne(r: Rules, w: World, s: Step)
    requires EnabledProcessing(w, s)
    ensures s.Hash? || s.RecordIdentity? || s.ReuseOriginal? || s.Copy? || s.Rename? || s.SyncOriginal? || s.Verify?
            || s.RecordPrepared? || s.CheckDuplicate? || s.Derive? || s.Publish? || s.Reject?
    ensures var x := ApplyProcessing(r, w, s);
      && s.t in w.attempts && s.t in x.attempts
      && x.attempts == w.attempts[s.t := x.attempts[s.t]]
      && x.attempts[s.t].u == w.attempts[s.t].u && x.attempts[s.t].job == w.attempts[s.t].job
      && Running(w.attempts[s.t]) && (x.attempts[s.t].pc.Rejecting? ==> s.Hash?)
  {
    hide PublishedWorld, Holds, CanPublish, WithDerived;
  }

  lemma RemovalFollows(w: World, s: Step)
    requires EnabledRemoval(w, s)
    ensures Follows(w, ApplyRemoval(w, s), s)
  {
    hide Follows, ApplyRemoval, EnabledRemoval;
    var x := ApplyRemoval(w, s);
    RemovalMovesOne(w, s);
    if s.RemoveArtifact? || s.UnlinkData? || s.UnlinkInfo? {
      SameAttemptsFollow(w, x, s);
    } else {
      MoveFollows(w, x, s, s.t, x.attempts[s.t]);
    }
  }

  lemma RemovalMovesOne(w: World, s: Step)
    requires EnabledRemoval(w, s)
    ensures s.CheckOwner? || s.KeepArtifacts? || s.RemoveArtifact? || s.EndArtifacts? || s.LookForSource?
            || s.ReadBeforeDelete? || s.Delete? || s.UnlinkData? || s.UnlinkInfo? || s.ConfirmGone? || s.Finish?
    ensures var x := ApplyRemoval(w, s);
      && s.t in w.attempts && s.t in x.attempts
      && (s.RemoveArtifact? || s.UnlinkData? || s.UnlinkInfo? ==> x.attempts == w.attempts)
      && (!s.RemoveArtifact? && !s.UnlinkData? && !s.UnlinkInfo? ==> x.attempts == w.attempts[s.t := x.attempts[s.t]])
      && x.attempts[s.t].u == w.attempts[s.t].u && x.attempts[s.t].job == w.attempts[s.t].job
      && Running(w.attempts[s.t]) && !x.attempts[s.t].pc.Rejecting?
  {
    hide ClosedRow, SourceOf, Holds;
  }

  lemma OtherFollows(w: World, s: Step)
    requires EnabledOther(w, s)
    ensures Follows(w, ApplyOther(w, s), s)
  {
    if s.Crash? {
      assert forall t | t in ApplyOther(w, s).attempts :: !Running(ApplyOther(w, s).attempts[t]);
    } else {
      hide Follows;
      OtherFootprint(w, s);
      SameAttemptsFollow(w, ApplyOther(w, s), s);
    }
  }

  lemma StepFollows(r: Rules, w: World, s: Step)
    requires Enabled(r, w, s)
    ensures Follows(w, Apply(r, w, s), s)
  {
    hide Follows;
    hide EnabledTransfer, EnabledBarrier, EnabledJanitor, EnabledAttempt;
    hide EnabledProcessing, EnabledRemoval, EnabledOther;
    hide ApplyTransfer, ApplyBarrier, ApplyJanitor, ApplyAttempt, ApplyProcessing, ApplyRemoval, ApplyOther;
    if EnabledTransfer(w, s) { TransferFootprint(w, s); SameAttemptsFollow(w, ApplyTransfer(w, s), s); }
    else if EnabledBarrier(w, s) { BarrierFootprint(w, s); SameAttemptsFollow(w, ApplyBarrier(w, s), s); }
    else if EnabledJanitor(w, s) { JanitorFootprint(w, s); SameAttemptsFollow(w, ApplyJanitor(w, s), s); }
    else if EnabledAttempt(r, w, s) { AttemptFollows(r, w, s); }
    else if EnabledProcessing(w, s) { ProcessingFollows(r, w, s); }
    else if EnabledRemoval(w, s) { RemovalFollows(w, s); }
    else { OtherFollows(w, s); }
  }

  // ---- one step keeps every judgement right ----

  /** What is hashed is what was promoted, so the verdict on it is a verdict on the promoted bytes. */
  lemma HashJudges(r: Rules, w: World, t: Token)
    requires Inv(w) && EnabledProcessing(w, Hash(t))
    ensures var b := ApplyProcessing(r, w, Hash(t)).attempts[t];
      b.pc.Rejecting? ==>
        b.u in w.durable && b.content == w.durable[b.u] && Rightly(r, b.job.declared, b.content, b.pc.reason)
  {
    hide Inv, Relies, Believes;
    AttemptFacts(w, t);
  }

  lemma HashesByProcessing(r: Rules, w: World, s: Step)
    requires Enabled(r, w, s) && s.Hash?
    ensures EnabledProcessing(w, s) && Apply(r, w, s) == ApplyProcessing(r, w, s)
  {
    hide ApplyTransfer, ApplyBarrier, ApplyJanitor, ApplyAttempt, ApplyProcessing, ApplyRemoval, ApplyOther;
  }

  /** A processing attempt's row has been durable since before the attempt. */
  lemma ProcessedIsDurable(w: World, t: Token)
    requires Inv(w) && t in w.attempts && Running(w.attempts[t]) && w.attempts[t].job.status == Processing
    ensures w.attempts[t].u in w.db.jobs && w.db.jobs[w.attempts[t].u].completedAt.Some?
    ensures w.db.jobs[w.attempts[t].u].mediaId == w.attempts[t].job.mediaId && w.attempts[t].u in w.durable
    ensures w.attempts[t].job.mediaId in w.usedMedia
  {
    hide Inv, Relies, Believes, SourceIntact;
    AttemptFacts(w, t);
  }

  lemma SameIncarnationRemembered(w: World, w': World, u: UploadId)
    requires Succeeds(w, w') && u in w.db.jobs && u in w'.db.jobs && w.db.jobs[u].mediaId == w'.db.jobs[u].mediaId
    requires w.db.jobs[u].mediaId in w.usedMedia && w.db.jobs[u].completedAt.Some? && u in w.durable
    ensures w'.db.jobs[u].declared == w.db.jobs[u].declared
    ensures u in w'.durable && w'.durable[u] == w.durable[u]
  {}

  lemma AttemptStaysJudged(r: Rules, w: World, s: Step, t: Token)
    requires Inv(w) && Judged(r, w) && Enabled(r, w, s) && Inv(Apply(r, w, s))
    requires t in Apply(r, w, s).attempts && Running(Apply(r, w, s).attempts[t])
    requires Apply(r, w, s).attempts[t].job.status == Processing
    ensures AttemptJudges(r, Apply(r, w, s), Apply(r, w, s).attempts[t])
  {
    hide Inv, Enabled, Apply, Succeeds;
    var x := Apply(r, w, s);
    var b := x.attempts[t];
    StepFollows(r, w, s);
    StepSucceeds(r, w, s);
    ProcessedIsDurable(x, t);
    if t in w.attempts && Running(w.attempts[t]) && b.u == w.attempts[t].u && b.job == w.attempts[t].job {
      ProcessedIsDurable(w, t);
      SameIncarnationRemembered(w, x, b.u);
      if s == Hash(t) {
        HashesByProcessing(r, w, s);
        HashJudges(r, w, t);
      }
    } else {
      ClaimedIsRemembered(w, x, b.u);
    }
  }

  /** No row's declared digest ever changes. */
  lemma ClaimedIsRemembered(w: World, x: World, u: UploadId)
    requires Inv(w) && Succeeds(w, x) && u in w.db.jobs && u in x.db.jobs
    requires x.db.jobs[u].mediaId == w.db.jobs[u].mediaId
    ensures x.db.jobs[u].declared == w.db.jobs[u].declared
  {
    hide Inv;
    RowFacts(w, u);
  }

  // ---- rows ----

  lemma SteadyRowStaysJudged(r: Rules, w: World, x: World, u: UploadId)
    requires Inv(w) && Judged(r, w) && Steadily(w, x) && u in x.db.jobs
    ensures RowJudged(r, x, u)
  {
    hide Inv, SourceIntact;
    if u in w.db.jobs && x.db.jobs[u].mediaId == w.db.jobs[u].mediaId {
      RowFacts(w, u);
    }
  }

  /** A rejection condemns the row its token is on, for a fault its content has. */
  lemma RejectedRowIsJudged(r: Rules, w: World, t: Token, u: UploadId)
    requires Inv(w) && Judged(r, w) && EnabledProcessing(w, Reject(t)) && u in w.db.jobs
    ensures u in ApplyProcessing(r, w, Reject(t)).db.jobs && RowJudged(r, ApplyProcessing(r, w, Reject(t)), u)
  {
    hide Inv, Relies, Believes, SourceIntact, ApplyProcessing;
    RejectTouchesOneRow(r, w, t);
    AttemptFacts(w, t);
  }

  lemma RejectTouchesOneRow(r: Rules, w: World, t: Token)
    requires EnabledProcessing(w, Reject(t))
    ensures t in w.attempts && Running(w.attempts[t]) && w.attempts[t].job.status == Processing && w.attempts[t].pc.Rejecting?
    ensures var x, a := ApplyProcessing(r, w, Reject(t)), w.attempts[t];
      && x.durable == w.durable && x.db.jobs.Keys == w.db.jobs.Keys
      && (Holds(w.db, a.u, t) ==>
            x.db.jobs == w.db.jobs[a.u := FinishRow(w.db.jobs[a.u], Discarding, a.pc.reason, w.clock)])
      && (!Holds(w.db, a.u, t) ==> x.db.jobs == w.db.jobs)
  {
    hide FinishRow;
  }

  lemma RowStaysJudged(r: Rules, w: World, s: Step, u: UploadId)
    requires Inv(w) && Judged(r, w) && Enabled(r, w, s) && u in Apply(r, w, s).db.jobs
    ensures RowJudged(r, Apply(r, w, s), u)
  {
    hide Inv, Judged, RowJudged, Enabled, Apply, Steadily;
    if s.Reject? {
      RejectsByProcessing(r, w, s);
      RejectTouchesOneRow(r, w, s.t);
      RejectedRowIsJudged(r, w, s.t, u);
    } else {
      StepIsSteady(r, w, s);
      SteadyRowStaysJudged(r, w, Apply(r, w, s), u);
    }
  }

  lemma StepStaysJudged(r: Rules, w: World, s: Step)
    requires Inv(w) && Judged(r, w) && Enabled(r, w, s) && Inv(Apply(r, w, s))
    ensures Judged(r, Apply(r, w, s))
  {
    hide Inv, AttemptJudges, RowJudged, Enabled, Apply;
    var x := Apply(r, w, s);
    forall t | t in x.attempts && Running(x.attempts[t]) && x.attempts[t].job.status == Processing
      ensures AttemptJudges(r, x, x.attempts[t])
    {
      AttemptStaysJudged(r, w, s, t);
    }
    forall u | u in x.db.jobs ensures RowJudged(r, x, u) {
      RowStaysJudged(r, w, s, u);
    }
  }
}
