/** When a refusal by the durability barrier is the last word on an upload id. */
module FinalRefusals {
  import opened Records
  import opened UploadJobs
  import opened World
  import opened Invariant
  import opened Frames
  import opened History
  import opened IngestSafety
  import opened IngestTheorems
  import opened Footprints
  import opened Reachability
  import WorkerSteps

  /** EnsureDurable returns nil on such a row. */
  predicate Accepts(w: World, u: UploadId) {
    u in w.db.jobs && (Working(w.db.jobs[u].status) || Published(w.db.jobs[u].status))
  }

  /** The row says no, and not because its bytes were only hidden. */
  predicate Decided(w: World, u: UploadId) {
    u in w.db.jobs && Condemned(w.db.jobs[u].status) && w.db.jobs[u].reason != Unobservable
  }

  predicate Whole(f: Source) {
    SourceComplete(f) && f.data.value != []
  }

  /** A source that is missing may come back, and one that is short may be continued. */
  predicate Mendable(f: Source) {
    f.data == None || Whole(f) || (f.info.Some? && |f.data.value| < f.info.value)
  }

  /** A recorded cancellation, and no pass under way that listed the row before it was recorded. */
  predicate Withdrawn(w: World, u: UploadId) {
    u in w.db.jobs && w.db.jobs[u].status == Uploading && w.db.jobs[u].cancelledAt.Some? && u !in w.listed
  }

  /**
    An empty file that nothing will ever fill, or one longer than its sidecar says.
    Only a crash can take it away, and only if it never reached stable storage.
    */
  predicate Spoilt(w: World, u: UploadId, crashes: bool) {
    !Mendable(SourceOf(w.sources, u)) && (crashes ==> u in w.flushed)
  }

  /** The upload's row expires, or there is a crash when none is reckoned with. */
  predicate Excluded(s: Step, u: UploadId, crashes: bool) {
    (s.Expire? && u in s.gone) || (s.Crash? && !crashes)
  }

  /** Some further run from `w` to `x` in which no row of `u` outlives its retention. */
  ghost predicate IsPath(r: Rules, ws: seq<World>, ss: seq<Step>, w: World, x: World, u: UploadId, crashes: bool) {
    && |ws| == |ss| + 1 && ws[0] == w && ws[|ss|] == x
    && forall k | 0 <= k < |ss| ::
         Enabled(r, ws[k], ss[k]) && ws[k + 1] == Apply(r, ws[k], ss[k]) && !Excluded(ss[k], u, crashes)
  }

  ghost predicate Leads(r: Rules, w: World, x: World, u: UploadId, crashes: bool) {
    exists ws: seq<World>, ss: seq<Step> :: IsPath(r, ws, ss, w, x, u, crashes)
  }

  // ---- what a decided row stays ----

  lemma TransferKeepsRow(w: World, s: Step, u: UploadId)
    requires EnabledTransfer(w, s) && u in w.db.jobs && u in w.known
    ensures u in ApplyTransfer(w, s).db.jobs && ApplyTransfer(w, s).db.jobs[u].mediaId == w.db.jobs[u].mediaId
  {
    hide EnabledTransfer, ApplyTransfer;
    TransferKinds(w, s);
    if s.CreateFiles? || s.Write? || s.ListStale? { SendingLeavesRows(w, s); }
    else if s.PreCreate? { PreCreateKeepsRow(w, s, u); }
    else { CancellingKeepsRow(w, s, u); }
  }

  lemma PreCreateKeepsRow(w: World, s: Step, u: UploadId)
    requires EnabledTransfer(w, s) && s.PreCreate? && u in w.db.jobs && u in w.known
    ensures u in ApplyTransfer(w, s).db.jobs && ApplyTransfer(w, s).db.jobs[u] == w.db.jobs[u]
  {
    hide NewJob, CanCreate;
  }

  lemma CancellingKeepsRow(w: World, s: Step, u: UploadId)
    requires EnabledTransfer(w, s) && (s.RequestCancellation? || s.Sweep? || s.MarkUnobservable?) && u in w.db.jobs
    ensures u in ApplyTransfer(w, s).db.jobs && ApplyTransfer(w, s).db.jobs[u].mediaId == w.db.jobs[u].mediaId
  {}

  lemma BarrierKeepsRow(w: World, s: Step, u: UploadId)
    requires EnabledBarrier(w, s) && u in w.db.jobs
    ensures u in ApplyBarrier(w, s).db.jobs && ApplyBarrier(w, s).db.jobs[u].mediaId == w.db.jobs[u].mediaId
  {
    hide ApplyBarrier, EnabledBarrier;
    if s.BarrierPromote? {
      PromoteKeepsRow(w, s.b, u);
    } else {
      BarrierLeavesRows(w, s);
    }
  }

  lemma PromoteKeepsRow(w: World, b: nat, u: UploadId)
    requires EnabledBarrier(w, BarrierPromote(b)) && u in w.db.jobs
    ensures var x := ApplyBarrier(w, BarrierPromote(b)); u in x.db.jobs && x.db.jobs[u].mediaId == w.db.jobs[u].mediaId
  {
    hide ApplyBarrier, EnabledBarrier;
    PromoteTouchesOneRow(w, b);
  }

  lemma PromoteTouchesOneRow(w: World, b: nat)
    requires EnabledBarrier(w, BarrierPromote(b))
    ensures b in w.barriers
    ensures var v, jobs := w.barriers[b].u, w.db.jobs;
      ApplyBarrier(w, BarrierPromote(b)).db.jobs ==
      if CanPromote(w.db, v) then jobs[v := PromoteRow(jobs[v], w.clock)] else jobs
  {
    hide PromotedWorld, PromoteRow, SourceOf, Bytes;
    if CanPromote(w.db, w.barriers[b].u) { PromotedTable(w, b); }
  }

  lemma PromotedTable(w: World, b: nat)
    requires b in w.barriers && w.barriers[b].u in w.db.jobs
    ensures var v, jobs := w.barriers[b].u, w.db.jobs;
      PromotedWorld(w, b).db.jobs == jobs[v := PromoteRow(jobs[v], w.clock)]
  {
    hide PromoteRow, Bytes;
  }

  lemma BarrierLeavesRows(w: World, s: Step)
    requires EnabledBarrier(w, s) && !s.BarrierPromote?
    ensures ApplyBarrier(w, s).db == w.db
  {}

  lemma JanitorKeepsRow(w: World, s: Step, u: UploadId)
    requires EnabledJanitor(w, s) && u in w.db.jobs
    ensures u in ApplyJanitor(w, s).db.jobs && ApplyJanitor(w, s).db.jobs[u].mediaId == w.db.jobs[u].mediaId
  {}

  lemma AttemptKeepsRow(r: Rules, w: World, s: Step, u: UploadId)
    requires EnabledAttempt(r, w, s) && u in w.db.jobs
    ensures u in ApplyAttempt(r, w, s).db.jobs && ApplyAttempt(r, w, s).db.jobs[u].mediaId == w.db.jobs[u].mediaId
  {}

  lemma ProcessingKeepsRow(r: Rules, w: World, s: Step, u: UploadId)
    requires EnabledProcessing(w, s) && u in w.db.jobs
    ensures u in ApplyProcessing(r, w, s).db.jobs && ApplyProcessing(r, w, s).db.jobs[u].mediaId == w.db.jobs[u].mediaId
  {
    hide ApplyProcessing, EnabledProcessing;
    if s.Publish? {
      PublishKeepsRow(r, w, s.t, u);
    } else if s.Reject? {
      RejectKeepsRow(r, w, s.t, u);
    } else if s.RecordIdentity? || s.RecordPrepared? {
      RecordKeepsRow(r, w, s, u);
    } else {
      ProcessingLeavesRows(r, w, s);
    }
  }

  lemma PublishKeepsRow(r: Rules, w: World, t: Token, u: UploadId)
    requires EnabledProcessing(w, Publish(t)) && u in w.db.jobs
    ensures var x := ApplyProcessing(r, w, Publish(t)); u in x.db.jobs && x.db.jobs[u].mediaId == w.db.jobs[u].mediaId
  {}

  lemma RejectKeepsRow(r: Rules, w: World, t: Token, u: UploadId)
    requires EnabledProcessing(w, Reject(t)) && u in w.db.jobs
    ensures var x := ApplyProcessing(r, w, Reject(t)); u in x.db.jobs && x.db.jobs[u].mediaId == w.db.jobs[u].mediaId
  {}

  lemma RecordKeepsRow(r: Rules, w: World, s: Step, u: UploadId)
    requires EnabledProcessing(w, s) && (s.RecordIdentity? || s.RecordPrepared?) && u in w.db.jobs
    ensures var x := ApplyProcessing(r, w, s); u in x.db.jobs && x.db.jobs[u].mediaId == w.db.jobs[u].mediaId
  {}

  lemma RemovalKeepsRow(w: World, s: Step, u: UploadId)
    requires EnabledRemoval(w, s) && u in w.db.jobs
    ensures u in ApplyRemoval(w, s).db.jobs && ApplyRemoval(w, s).db.jobs[u].mediaId == w.db.jobs[u].mediaId
  {
    hide ApplyRemoval, EnabledRemoval;
    RemovalFootprint(w, s);
    if s.Finish? { FinishKeepsRow(w, s.t, u); }
  }

  lemma FinishKeepsRow(w: World, t: Token, u: UploadId)
    requires EnabledRemoval(w, Finish(t)) && u in w.db.jobs
    ensures var x := ApplyRemoval(w, Finish(t)); u in x.db.jobs && x.db.jobs[u].mediaId == w.db.jobs[u].mediaId
  {}

  lemma OtherKeepsRow(w: World, s: Step, u: UploadId)
    requires EnabledOther(w, s) && Decided(w, u) && !(s.Expire? && u in s.gone)
    ensures u in ApplyOther(w, s).db.jobs && ApplyOther(w, s).db.jobs[u].mediaId == w.db.jobs[u].mediaId
  {}

  lemma RowsAreKnown(w: World, u: UploadId)
    requires Inv(w) && u in w.db.jobs
    ensures u in w.known && (w.db.jobs[u].status == Uploading ==> w.db.jobs[u].reason == NoReason && w.db.jobs[u].lease == None)
  {
    hide QueueInv, MediaInv, SourceInv, SourceIntact;
    RowFacts(w, u);
  }

  lemma DecidedRowStays(r: Rules, w: World, s: Step, u: UploadId)
    requires Inv(w) && Enabled(r, w, s) && Decided(w, u) && !(s.Expire? && u in s.gone)
    ensures SameRow(w, Apply(r, w, s), u)
  {
    hide Inv, RowShape, SourceIntact;
    hide EnabledTransfer, EnabledBarrier, EnabledJanitor, EnabledAttempt;
    hide EnabledProcessing, EnabledRemoval, EnabledOther;
    hide ApplyTransfer, ApplyBarrier, ApplyJanitor, ApplyAttempt, ApplyProcessing, ApplyRemoval, ApplyOther;
    RowsAreKnown(w, u);
    if EnabledTransfer(w, s) { TransferKeepsRow(w, s, u); }
    else if EnabledBarrier(w, s) { BarrierKeepsRow(w, s, u); }
    else if EnabledJanitor(w, s) { JanitorKeepsRow(w, s, u); }
    else if EnabledAttempt(r, w, s) { AttemptKeepsRow(r, w, s, u); }
    else if EnabledProcessing(w, s) { ProcessingKeepsRow(r, w, s, u); }
    else if EnabledRemoval(w, s) { RemovalKeepsRow(w, s, u); }
    else { OtherKeepsRow(w, s, u); }
  }

  lemma DecidedStays(r: Rules, w: World, s: Step, u: UploadId)
    requires Inv(w) && Enabled(r, w, s) && Decided(w, u) && !(s.Expire? && u in s.gone)
    ensures Decided(Apply(r, w, s), u)
  {
    hide Inv, Enabled, Apply;
    DecidedRowStays(r, w, s, u);
    StepSucceeds(r, w, s);
    MediaIdsAreUsed(w);
  }

  // ---- what a withdrawn upload stays ----

  lemma TransferOnWithdrawn(w: World, s: Step, u: UploadId)
    requires EnabledTransfer(w, s) && Withdrawn(w, u) && w.db.jobs[u].reason == NoReason && u in w.known
    ensures Withdrawn(ApplyTransfer(w, s), u) || Decided(ApplyTransfer(w, s), u)
  {
    hide EnabledTransfer, ApplyTransfer;
    TransferKinds(w, s);
    if s.Sweep? { SweepOnWithdrawn(w, s, u); }
    else if s.PreCreate? || s.CreateFiles? || s.Write? { SendingOnWithdrawn(w, s, u); }
    else { ClosingOnWithdrawn(w, s, u); }
  }

  lemma SweepOnWithdrawn(w: World, s: Step, u: UploadId)
    requires EnabledTransfer(w, s) && s.Sweep? && Withdrawn(w, u) && w.db.jobs[u].reason == NoReason
    ensures Withdrawn(ApplyTransfer(w, s), u) || Decided(ApplyTransfer(w, s), u)
  {}

  lemma SendingOnWithdrawn(w: World, s: Step, u: UploadId)
    requires EnabledTransfer(w, s) && (s.PreCreate? || s.CreateFiles? || s.Write?) && Withdrawn(w, u) && u in w.known
    ensures Withdrawn(ApplyTransfer(w, s), u)
  {
    hide SourceOf, NewJob, CanCreate;
  }

  lemma ClosingOnWithdrawn(w: World, s: Step, u: UploadId)
    requires EnabledTransfer(w, s) && (s.RequestCancellation? || s.ListStale? || s.MarkUnobservable?)
    requires Withdrawn(w, u)
    ensures Withdrawn(ApplyTransfer(w, s), u)
  {
    hide UnobservableRow;
  }

  lemma BarrierOnWithdrawn(w: World, s: Step, u: UploadId)
    requires EnabledBarrier(w, s) && Withdrawn(w, u)
    ensures Withdrawn(ApplyBarrier(w, s), u)
  {
    hide ApplyBarrier, EnabledBarrier;
    BarrierFootprint(w, s);
    if s.BarrierPromote? {
      PromoteOnWithdrawn(w, s.b, u);
    } else {
      BarrierLeavesRows(w, s);
    }
  }

  lemma PromoteOnWithdrawn(w: World, b: nat, u: UploadId)
    requires EnabledBarrier(w, BarrierPromote(b)) && Withdrawn(w, u)
    ensures var x := ApplyBarrier(w, BarrierPromote(b)); u in x.db.jobs && x.db.jobs[u] == w.db.jobs[u]
  {
    hide ApplyBarrier, EnabledBarrier;
    PromoteTouchesOneRow(w, b);
  }

  lemma JanitorOnWithdrawn(w: World, s: Step, u: UploadId)
    requires EnabledJanitor(w, s) && Withdrawn(w, u) && w.db.jobs[u].reason == NoReason
    ensures Withdrawn(ApplyJanitor(w, s), u) || Decided(ApplyJanitor(w, s), u)
  {}

  /** No worker has anything to do with an upload that is only being sent. */
  predicate Idle(w: World, u: UploadId) {
    u in w.db.jobs && w.db.jobs[u].status == Uploading && w.db.jobs[u].lease == None
  }

  predicate Unmoved(w: World, x: World, u: UploadId) {
    u in w.db.jobs && u in x.db.jobs && x.db.jobs[u] == w.db.jobs[u] && x.listed == w.listed
  }

  lemma AttemptOnIdle(r: Rules, w: World, s: Step, u: UploadId)
    requires EnabledAttempt(r, w, s) && Idle(w, u)
    ensures Unmoved(w, ApplyAttempt(r, w, s), u)
  {
    hide Retried, ClaimRow;
    AttemptFootprint(r, w, s);
    if s.Fail? { RetryOnIdle(w, s.t, s.next, u); }
  }

  lemma RetryOnIdle(w: World, t: Token, next: Time, u: UploadId)
    requires t in w.attempts && Idle(w, u)
    ensures var x := Retried(w, t, next); u in x.db.jobs && x.db.jobs[u] == w.db.jobs[u]
  {
    hide RetriedRow;
  }

  lemma ProcessingOnIdle(r: Rules, w: World, s: Step, u: UploadId)
    requires EnabledProcessing(w, s) && Idle(w, u)
    ensures Unmoved(w, ApplyProcessing(r, w, s), u)
  {
    hide ApplyProcessing, EnabledProcessing;
    ProcessingFootprint(r, w, s);
    if s.Publish? || s.Reject? {
      EndingOnIdle(r, w, s, u);
    } else if s.RecordIdentity? || s.RecordPrepared? {
      RecordOnIdle(r, w, s, u);
    } else {
      ProcessingLeavesRows(r, w, s);
    }
  }

  lemma EndingOnIdle(r: Rules, w: World, s: Step, u: UploadId)
    requires EnabledProcessing(w, s) && (s.Publish? || s.Reject?) && Idle(w, u)
    ensures var x := ApplyProcessing(r, w, s); u in x.db.jobs && x.db.jobs[u] == w.db.jobs[u]
  {}

  lemma RecordOnIdle(r: Rules, w: World, s: Step, u: UploadId)
    requires EnabledProcessing(w, s) && (s.RecordIdentity? || s.RecordPrepared?) && Idle(w, u)
    ensures var x := ApplyProcessing(r, w, s); u in x.db.jobs && x.db.jobs[u] == w.db.jobs[u]
  {}

  lemma RemovalOnIdle(w: World, s: Step, u: UploadId)
    requires EnabledRemoval(w, s) && Idle(w, u)
    ensures Unmoved(w, ApplyRemoval(w, s), u)
  {
    hide ApplyRemoval, EnabledRemoval;
    RemovalFootprint(w, s);
    if s.Finish? { FinishOnIdle(w, s.t, u); }
  }

  lemma FinishOnIdle(w: World, t: Token, u: UploadId)
    requires EnabledRemoval(w, Finish(t)) && Idle(w, u)
    ensures var x := ApplyRemoval(w, Finish(t)); u in x.db.jobs && x.db.jobs[u] == w.db.jobs[u]
  {}

  lemma OtherOnWithdrawn(w: World, s: Step, u: UploadId)
    requires EnabledOther(w, s) && Withdrawn(w, u) && !(s.Expire? && u in s.gone)
    ensures Withdrawn(ApplyOther(w, s), u)
  {
    OtherListsNothing(w, s);
    OtherOnUploading(w, s, u);
  }

  lemma OtherListsNothing(w: World, s: Step)
    requires EnabledOther(w, s)
    ensures ApplyOther(w, s).listed <= w.listed
  {}

  lemma OtherOnUploading(w: World, s: Step, u: UploadId)
    requires EnabledOther(w, s) && IsUploading(w.db, u) && !(s.Expire? && u in s.gone)
    ensures u in ApplyOther(w, s).db.jobs && ApplyOther(w, s).db.jobs[u] == w.db.jobs[u]
  {}

  /** Whatever ends a withdrawn upload ends it as cancelled: no pass can list it any more. */
  lemma WithdrawnStays(r: Rules, w: World, s: Step, u: UploadId)
    requires Inv(w) && Enabled(r, w, s) && Withdrawn(w, u) && !(s.Expire? && u in s.gone)
    ensures Withdrawn(Apply(r, w, s), u) || Decided(Apply(r, w, s), u)
  {
    hide Inv, SourceIntact;
    hide EnabledTransfer, EnabledBarrier, EnabledJanitor, EnabledAttempt;
    hide EnabledProcessing, EnabledRemoval, EnabledOther;
    hide ApplyTransfer, ApplyBarrier, ApplyJanitor, ApplyAttempt, ApplyProcessing, ApplyRemoval, ApplyOther;
    RowsAreKnown(w, u);
    if EnabledTransfer(w, s) { TransferOnWithdrawn(w, s, u); }
    else if EnabledBarrier(w, s) { BarrierOnWithdrawn(w, s, u); }
    else if EnabledJanitor(w, s) { JanitorOnWithdrawn(w, s, u); }
    else if EnabledAttempt(r, w, s) { AttemptOnIdle(r, w, s, u); }
    else if EnabledProcessing(w, s) { ProcessingOnIdle(r, w, s, u); }
    else if EnabledRemoval(w, s) { RemovalOnIdle(w, s, u); }
    else { OtherOnWithdrawn(w, s, u); }
  }

  // ---- what a spoilt source stays ----

  /** A complete, non-empty source is what every accepted row rests on. */
  lemma AcceptedIsMendable(w: World, u: UploadId)
    requires Inv(w) && Accepts(w, u)
    ensures Mendable(SourceOf(w.sources, u))
  {
    hide Inv;
    RowFacts(w, u);
  }

  /** Only a row that is decided, or published, lets anyone remove a source. */
  lemma RemovalNeedsDecision(r: Rules, w: World, s: Step, u: UploadId)
    requires Inv(w) && Enabled(r, w, s) && RemovesSource(w, s, u) && !Accepts(w, u)
    ensures Decided(w, u)
  {
    hide Inv, SourceIntact, Relies, Believes;
    if s.JanitorDelete? {
      WorkerSteps.JanitorFacts(w);
    } else {
      AttemptFacts(w, s.t);
    }
  }

  predicate SameSource(w: World, x: World, u: UploadId) {
    SourceOf(x.sources, u) == SourceOf(w.sources, u) && (u in w.flushed ==> u in x.flushed)
  }

  lemma SpoiltInTransfer(w: World, s: Step, u: UploadId)
    requires EnabledTransfer(w, s) && !Mendable(SourceOf(w.sources, u)) && u !in w.awaiting
    ensures SameSource(w, ApplyTransfer(w, s), u)
  {
    if s.CreateFiles? || s.Write? {
      SpoiltInWrite(w, s, u);
    } else {
      hide ApplyTransfer, EnabledTransfer;
      TransferLeavesSources(w, s);
    }
  }

  lemma SpoiltInWrite(w: World, s: Step, u: UploadId)
    requires EnabledTransfer(w, s) && (s.CreateFiles? || s.Write?)
    requires !Mendable(SourceOf(w.sources, u)) && u !in w.awaiting
    ensures SameSource(w, ApplyTransfer(w, s), u)
  {}

  lemma SpoiltInJanitor(w: World, s: Step, u: UploadId)
    requires EnabledJanitor(w, s) && !RemovesSource(w, s, u)
    ensures SameSource(w, ApplyJanitor(w, s), u)
  {}

  lemma SpoiltInRemoval(w: World, s: Step, u: UploadId)
    requires EnabledRemoval(w, s) && !RemovesSource(w, s, u)
    ensures SameSource(w, ApplyRemoval(w, s), u)
  {
    hide ApplyRemoval, EnabledRemoval, RemovesSource;
    RemovalFootprint(w, s);
    if s.Delete? || s.UnlinkData? || s.UnlinkInfo? { RemovalElsewhere(w, s, u); } else { RemovalLeavesSources(w, s); }
  }

  lemma SpoiltInOther(w: World, s: Step, u: UploadId)
    requires EnabledOther(w, s) && !Mendable(SourceOf(w.sources, u)) && (s.Crash? ==> u in w.flushed)
    ensures SameSource(w, ApplyOther(w, s), u)
  {
    if !s.Crash? && !s.Reappear? { OtherFootprint(w, s); OtherLeavesTransfers(w, s); }
  }

  lemma SpoiltSourceStays(r: Rules, w: World, s: Step, u: UploadId)
    requires Inv(w) && Enabled(r, w, s) && !RemovesSource(w, s, u)
    requires !Mendable(SourceOf(w.sources, u)) && (s.Crash? ==> u in w.flushed)
    ensures SameSource(w, Apply(r, w, s), u)
  {
    hide Inv, RemovesSource, SameSource, Mendable, SourceOf;
    hide EnabledTransfer, EnabledBarrier, EnabledJanitor, EnabledAttempt;
    hide EnabledProcessing, EnabledRemoval, EnabledOther;
    hide ApplyTransfer, ApplyBarrier, ApplyJanitor, ApplyAttempt, ApplyProcessing, ApplyRemoval, ApplyOther;
    if EnabledTransfer(w, s) { SpoiltIsNotAwaited(w, u); SpoiltInTransfer(w, s, u); }
    else if EnabledBarrier(w, s) { SpoiltElsewhere(r, w, s, u); }
    else if EnabledJanitor(w, s) { SpoiltInJanitor(w, s, u); }
    else if EnabledAttempt(r, w, s) || EnabledProcessing(w, s) { SpoiltElsewhere(r, w, s, u); }
    else if EnabledRemoval(w, s) { SpoiltInRemoval(w, s, u); }
    else { SpoiltInOther(w, s, u); }
  }

  lemma SpoiltIsNotAwaited(w: World, u: UploadId)
    requires Inv(w) && !Mendable(SourceOf(w.sources, u))
    ensures u !in w.awaiting
  {
    hide Inv;
    if u in w.awaiting { AwaitedHaveNoSource(w, u); }
  }

  lemma SpoiltElsewhere(r: Rules, w: World, s: Step, u: UploadId)
    requires Enabled(r, w, s) && !EnabledTransfer(w, s)
    requires EnabledBarrier(w, s) || (!EnabledJanitor(w, s) && (EnabledAttempt(r, w, s) || EnabledProcessing(w, s)))
    ensures SameSource(w, Apply(r, w, s), u)
  {
    hide Enabled, Apply, EnabledTransfer, EnabledBarrier, EnabledJanitor, EnabledAttempt, EnabledProcessing;
    SourcesElsewhere(r, w, s);
    FlushedElsewhere(r, w, s);
  }

  lemma FlushedElsewhere(r: Rules, w: World, s: Step)
    requires Enabled(r, w, s) && !EnabledTransfer(w, s)
    requires EnabledBarrier(w, s) || (!EnabledJanitor(w, s) && (EnabledAttempt(r, w, s) || EnabledProcessing(w, s)))
    ensures w.flushed <= Apply(r, w, s).flushed
  {
    hide EnabledTransfer, EnabledBarrier, EnabledJanitor, EnabledAttempt;
    hide EnabledProcessing, EnabledRemoval, EnabledOther;
    hide ApplyTransfer, ApplyBarrier, ApplyJanitor, ApplyAttempt, ApplyProcessing, ApplyRemoval, ApplyOther;
    if EnabledBarrier(w, s) { BarrierFlushesMore(w, s); }
    else if EnabledAttempt(r, w, s) { AttemptFlushesNothing(r, w, s); }
    else { ProcessingFlushesNothing(r, w, s); }
  }

  lemma AttemptFlushesNothing(r: Rules, w: World, s: Step)
    requires EnabledAttempt(r, w, s)
    ensures ApplyAttempt(r, w, s).flushed == w.flushed
  {
    hide ApplyAttempt, EnabledAttempt;
    AttemptFootprint(r, w, s);
  }

  lemma ProcessingFlushesNothing(r: Rules, w: World, s: Step)
    requires EnabledProcessing(w, s)
    ensures ApplyProcessing(r, w, s).flushed == w.flushed
  {
    hide ApplyProcessing, EnabledProcessing;
    ProcessingFootprint(r, w, s);
  }

  /** Neither a decision, nor a cancellation, nor a spoilt source is ever got over. */
  predicate Hopeless(w: World, u: UploadId, crashes: bool) {
    !Accepts(w, u) && (Decided(w, u) || Withdrawn(w, u) || Spoilt(w, u, crashes))
  }

  lemma HopelessStays(r: Rules, w: World, s: Step, u: UploadId, crashes: bool)
    requires Inv(w) && Enabled(r, w, s) && Inv(Apply(r, w, s))
    requires Hopeless(w, u, crashes) && !Excluded(s, u, crashes)
    ensures Hopeless(Apply(r, w, s), u, crashes)
  {
    hide Inv, Enabled, Apply, RemovesSource, Mendable;
    var x := Apply(r, w, s);
    if Decided(w, u) {
      DecidedStays(r, w, s, u);
    } else if Withdrawn(w, u) {
      WithdrawnStays(r, w, s, u);
    } else {
      if RemovesSource(w, s, u) { RemovalNeedsDecision(r, w, s, u); }
      SpoiltSourceStays(r, w, s, u);
      if Accepts(x, u) { AcceptedIsMendable(x, u); }
    }
  }

  lemma {:induction false} HopelessForGood(
      r: Rules, ws: seq<World>, ss: seq<Step>, w: World, x: World, u: UploadId, crashes: bool)
    requires IsPath(r, ws, ss, w, x, u, crashes) && Inv(w) && Hopeless(w, u, crashes)
    ensures Inv(x) && Hopeless(x, u, crashes)
    decreases |ss|
  {
    hide Inv, Enabled, Apply, Hopeless;
    if ss == [] {
      assert x == w;
    } else {
      var n := |ss| - 1;
      assert IsPath(r, ws[..n + 1], ss[..n], w, ws[n], u, crashes);
      HopelessForGood(r, ws[..n + 1], ss[..n], w, ws[n], u, crashes);
      StepKeeps(r, ws[n], ss[n]);
      HopelessStays(r, ws[n], ss[n], u, crashes);
    }
  }

  // ---- what can still be got over ----

  /** Files announced but not yet created are never announced as empty. */
  ghost predicate Announced(w: World) {
    forall u | u in w.awaiting :: w.awaiting[u] > 0
  }

  lemma TransferAnnounces(w: World, s: Step)
    requires EnabledTransfer(w, s) && Announced(w)
    ensures Announced(ApplyTransfer(w, s))
  {
    hide SourceOf, NewJob, SweepCancelled, CancelRow, UnobservableRow, IsStale, IsUploading;
  }

  lemma StepAnnounces(r: Rules, w: World, s: Step)
    requires Enabled(r, w, s) && Announced(w)
    ensures Announced(Apply(r, w, s))
  {
    hide Announced;
    hide EnabledTransfer, EnabledBarrier, EnabledJanitor, EnabledAttempt;
    hide EnabledProcessing, EnabledRemoval, EnabledOther;
    hide ApplyTransfer, ApplyBarrier, ApplyJanitor, ApplyAttempt, ApplyProcessing, ApplyRemoval, ApplyOther;
    if EnabledTransfer(w, s) {
      TransferAnnounces(w, s);
    } else {
      AnnouncedElsewhere(r, w, s);
      SameAnnounces(w, Apply(r, w, s));
    }
  }

  lemma AnnouncedElsewhere(r: Rules, w: World, s: Step)
    requires Enabled(r, w, s) && !EnabledTransfer(w, s)
    ensures Apply(r, w, s).awaiting == w.awaiting
  {
    hide EnabledTransfer, EnabledBarrier, EnabledJanitor, EnabledAttempt;
    hide EnabledProcessing, EnabledRemoval, EnabledOther;
    hide ApplyTransfer, ApplyBarrier, ApplyJanitor, ApplyAttempt, ApplyProcessing, ApplyRemoval, ApplyOther;
    if EnabledBarrier(w, s) { BarrierFootprint(w, s); }
    else if EnabledJanitor(w, s) { JanitorFootprint(w, s); }
    else if EnabledAttempt(r, w, s) { AttemptFootprint(r, w, s); }
    else if EnabledProcessing(w, s) { ProcessingFootprint(r, w, s); }
    else if EnabledRemoval(w, s) { RemovalFootprint(w, s); }
    else { OtherLeavesTransfers(w, s); }
  }

  lemma SameAnnounces(w: World, x: World)
    requires Announced(w) && x.awaiting == w.awaiting
    ensures Announced(x)
  {}

  lemma {:induction false} RunAnnounces(r: Rules, ws: seq<World>, ss: seq<Step>, i: nat)
    requires IsRun(r, ws, ss) && i < |ws|
    ensures Announced(ws[i])
  {
    hide Enabled, Apply, Announced;
    if i == 0 {
      EmptyIsAnnounced(ws[0]);
    } else {
      RunAnnounces(r, ws, ss, i - 1);
      StepAnnounces(r, ws[i - 1], ss[i - 1]);
    }
  }

  lemma EmptyIsAnnounced(w: World)
    requires Initial(w)
    ensures Announced(w)
  {}

  /** Where a way starts, which upload it is for, and whether crashes are reckoned with. */
  datatype Course = Course(r: Rules, w: World, u: UploadId, crashes: bool)

  /** `x` is on such a way, in good order. */
  ghost predicate On(c: Course, x: World) {
    Leads(c.r, c.w, x, c.u, c.crashes) && Inv(x) && Announced(x)
  }

  lemma StartsOn(c: Course)
    requires Inv(c.w) && Announced(c.w)
    ensures On(c, c.w)
  {
    hide Inv, Announced;
    var ws: seq<World>, ss: seq<Step> := [c.w], [];
    assert IsPath(c.r, ws, ss, c.w, c.w, c.u, c.crashes);
  }

  lemma GoesOn(c: Course, x: World, s: Step)
    requires On(c, x) && Enabled(c.r, x, s) && !Excluded(s, c.u, c.crashes)
    ensures On(c, Apply(c.r, x, s))
  {
    hide Inv, Announced, Enabled, Apply, Excluded;
    StepKeeps(c.r, x, s);
    StepAnnounces(c.r, x, s);
    var ws: seq<World>, ss: seq<Step> :| IsPath(c.r, ws, ss, c.w, x, c.u, c.crashes);
    ExtendsPath(c, ws, ss, x, s);
  }

  lemma ExtendsPath(c: Course, ws: seq<World>, ss: seq<Step>, x: World, s: Step)
    requires IsPath(c.r, ws, ss, c.w, x, c.u, c.crashes) && Enabled(c.r, x, s) && !Excluded(s, c.u, c.crashes)
    ensures IsPath(c.r, ws + [Apply(c.r, x, s)], ss + [s], c.w, Apply(c.r, x, s), c.u, c.crashes)
  {
    hide Enabled, Apply, Excluded;
    var ws', ss' := ws + [Apply(c.r, x, s)], ss + [s];
    forall k | 0 <= k < |ss'|
      ensures Enabled(c.r, ws'[k], ss'[k]) && ws'[k + 1] == Apply(c.r, ws'[k], ss'[k])
      ensures !Excluded(ss'[k], c.u, c.crashes)
    {
      if k < |ss| { assert ws'[k] == ws[k] && ws'[k + 1] == ws[k + 1] && ss'[k] == ss[k]; }
    }
  }

  lemma GoesOther(c: Course, x: World, s: Step)
    requires On(c, x) && EnabledOther(x, s) && !Excluded(s, c.u, c.crashes)
    ensures On(c, ApplyOther(x, s))
  {
    hide On, ApplyTransfer, ApplyBarrier, ApplyJanitor, ApplyAttempt, ApplyProcessing, ApplyRemoval, ApplyOther;
    GoesOn(c, x, s);
  }

  lemma GoesTransfer(c: Course, x: World, s: Step)
    requires On(c, x) && EnabledTransfer(x, s)
    ensures On(c, ApplyTransfer(x, s))
  {
    hide On, ApplyTransfer, ApplyBarrier, ApplyJanitor, ApplyAttempt, ApplyProcessing, ApplyRemoval, ApplyOther;
    GoesOn(c, x, s);
  }

  lemma GoesBarrier(c: Course, x: World, s: Step)
    requires On(c, x) && EnabledBarrier(x, s)
    ensures On(c, ApplyBarrier(x, s))
  {
    hide On, ApplyTransfer, ApplyBarrier, ApplyJanitor, ApplyAttempt, ApplyProcessing, ApplyRemoval, ApplyOther;
    GoesOn(c, x, s);
  }

  /** tusd creates the files it announced. */
  lemma Creates(c: Course, x: World) returns (y: World)
    requires On(c, x) && c.u in x.awaiting
    ensures On(c, y) && y == x.(sources := y.sources, awaiting := y.awaiting, flushed := y.flushed)
    ensures c.u !in y.awaiting
    ensures SourceOf(y.sources, c.u) == Source(Some([]), Some(x.awaiting[c.u])) && x.awaiting[c.u] > 0
  {
    hide Inv, Leads;
    assert Announced(x);
    y := Created(c, x);
  }

  lemma Created(c: Course, x: World) returns (y: World)
    requires On(c, x) && c.u in x.awaiting
    ensures On(c, y) && y == x.(sources := y.sources, awaiting := y.awaiting, flushed := y.flushed)
    ensures c.u !in y.awaiting && SourceOf(y.sources, c.u) == Source(Some([]), Some(x.awaiting[c.u]))
  {
    hide On;
    GoesTransfer(c, x, CreateFiles(c.u));
    y := ApplyTransfer(x, CreateFiles(c.u));
  }

  /** The row, if there is one, was closed only for want of bytes. */
  predicate Rowless(x: World, u: UploadId) {
    u in x.db.jobs ==> x.db.jobs[u].status == Discarded && x.db.jobs[u].reason == Unobservable
  }

  /**
    The reconciler closes an upload whose files it does not see. One that is
    cancelled it must have listed before; any other it lists once it is idle.
    */
  lemma Closes(c: Course, x: World) returns (y: World)
    requires On(c, x) && IsUploading(x.db, c.u) && !Withdrawn(x, c.u)
    ensures On(c, y) && Rowless(y, c.u)
    ensures y == x.(db := y.db, listed := y.listed, clock := y.clock)
  {
    hide Inv, Announced, Leads, SourceIntact;
    RowFacts(x, c.u);
    y := x;
    if c.u !in x.listed {
      y := Lists(c, x, c.r.reconcileInterval);
    }
    y := BecomesUnobservable(c, y);
  }

  /** After one reconcile interval without a change. */
  lemma Lists(c: Course, x: World, interval: nat) returns (y: World)
    requires On(c, x) && IsUploading(x.db, c.u)
    requires x.db.jobs[c.u].cancelledAt == None && x.db.jobs[c.u].completedAt == None
    ensures On(c, y) && y == x.(listed := {c.u}, clock := y.clock)
  {
    hide On;
    var wait := LongEnough(x.db.jobs[c.u].updatedAt, x.clock);
    y := Waits(c, x, wait + interval);
    y := ListsIdle(c, y, y.clock - interval);
  }

  function LongEnough(since: Time, now: Time): (n: nat)
    ensures since <= now + n
  {
    if since > now then since - now else 0
  }

  lemma Waits(c: Course, x: World, micros: nat) returns (y: World)
    requires On(c, x)
    ensures On(c, y) && y == x.(clock := x.clock + micros)
  {
    hide On;
    GoesOther(c, x, Tick(micros));
    y := ApplyOther(x, Tick(micros));
  }

  lemma ListsIdle(c: Course, x: World, idleBefore: Time) returns (y: World)
    requires On(c, x) && IsStale(x.db, c.u, idleBefore)
    ensures On(c, y) && y == x.(listed := {c.u})
  {
    hide On, IsStale;
    GoesTransfer(c, x, ListStale({c.u}, idleBefore));
    y := ApplyTransfer(x, ListStale({c.u}, idleBefore));
  }

  lemma BecomesUnobservable(c: Course, x: World) returns (y: World)
    requires On(c, x) && CanMarkUnobservable(x.db, c.u) && c.u in x.listed
    ensures On(c, y) && Rowless(y, c.u)
    ensures y == x.(db := y.db, listed := y.listed)
  {
    hide On;
    GoesTransfer(c, x, MarkUnobservable(c.u));
    y := ApplyTransfer(x, MarkUnobservable(c.u));
  }

  /** Nothing is under way that concerns the upload. */
  predicate Calmed(x: World) {
    x.barriers == map[] && x.reopening == None
  }

  predicate KeepsRow(x: World, y: World, u: UploadId) {
    (u in x.db.jobs <==> u in y.db.jobs) && (u in x.db.jobs ==> y.db.jobs[u] == x.db.jobs[u])
  }

  /** Barriers fail, and the reconciler writes what it decided about other rows. */
  lemma Calms(c: Course, x: World) returns (y: World)
    requires On(c, x) && !Accepts(x, c.u) && !Decided(x, c.u)
    ensures On(c, y) && Calmed(y) && KeepsRow(x, y, c.u)
    ensures y.sources == x.sources && y.awaiting == x.awaiting && y.flushed == x.flushed
  {
    hide Inv, Announced, Leads;
    y := DropsBarriers(c, x);
    if y.reopening.Some? {
      y := WritesDecision(c, y);
    }
  }

  lemma {:induction false} DropsBarriers(c: Course, x: World) returns (y: World)
    requires On(c, x)
    ensures On(c, y) && y == x.(barriers := map[])
    decreases |x.barriers|
  {
    hide On;
    if x.barriers == map[] {
      y := x;
    } else {
      var b :| b in x.barriers;
      GoesBarrier(c, x, BarrierDrop(b));
      assert (x.barriers - {b}).Keys == x.barriers.Keys - {b};
      y := DropsBarriers(c, x.(barriers := x.barriers - {b}));
    }
  }

  lemma WritesDecision(c: Course, x: World) returns (y: World)
    requires On(c, x) && x.reopening.Some? && !Accepts(x, c.u) && !Decided(x, c.u)
    ensures On(c, y) && y.reopening == None && y.barriers == x.barriers && KeepsRow(x, y, c.u)
    ensures y.sources == x.sources && y.awaiting == x.awaiting && y.flushed == x.flushed
  {
    hide QueueInv, SourceInv, MediaInv, Announced, Leads;
    TableFacts(x);
    y := Reopens(c, x);
  }

  lemma Reopens(c: Course, x: World) returns (y: World)
    requires On(c, x) && x.reopening.Some? && x.reopening.value.u != c.u
    ensures On(c, y) && y.reopening == None && y.barriers == x.barriers && KeepsRow(x, y, c.u)
    ensures y.sources == x.sources && y.awaiting == x.awaiting && y.flushed == x.flushed
  {
    hide On;
    GoesOther(c, x, Reopen);
    y := ApplyOther(x, Reopen);
  }

  /** A crash may lose a spoilt file that was not flushed. */
  lemma Loses(c: Course, x: World) returns (y: World)
    requires On(c, x) && Calmed(x) && !Spoilt(x, c.u, c.crashes)
    ensures On(c, y) && Calmed(y) && y.db == x.db && y.awaiting == x.awaiting
    ensures Mendable(SourceOf(y.sources, c.u))
  {
    hide On, SurvivingSources, SurvivingFiles;
    if Mendable(SourceOf(x.sources, c.u)) {
      y := x;
    } else {
      var sources := x.sources[c.u := NoSource];
      LosesOne(x, c.u);
      GoesOther(c, x, Crash(sources, x.live));
      y := ApplyOther(x, Crash(sources, x.live));
    }
  }

  lemma LosesOne(x: World, u: UploadId)
    requires u !in x.flushed
    ensures SurvivingSources(x, x.sources[u := NoSource]) && SurvivingFiles(x, x.live)
  {}

  function Zeros(n: nat): Content { seq(n, _ => 0) }

  /** A short source can be continued to the size its sidecar says. */
  lemma Written(c: Course, x: World, n: nat) returns (y: World)
    requires On(c, x) && Calmed(x)
    requires var f := SourceOf(x.sources, c.u); f.data.Some? && f.info == Some(n) && |f.data.value| < n
    ensures On(c, y) && Calmed(y) && y.db == x.db && y.awaiting == x.awaiting
    ensures SourceComplete(SourceOf(y.sources, c.u)) && |Bytes(y.sources, c.u)| == n
  {
    hide On;
    var chunk := Zeros(n - |Bytes(x.sources, c.u)|);
    GoesTransfer(c, x, Write(c.u, chunk));
    y := ApplyTransfer(x, Write(c.u, chunk));
  }

  lemma ComesBack(c: Course, x: World) returns (y: World)
    requires On(c, x) && Calmed(x) && c.u !in x.awaiting && SourceOf(x.sources, c.u).data == None
    requires Rowless(x, c.u) && (c.u in x.db.jobs ==> x.db.jobs[c.u].completedAt == None)
    ensures On(c, y) && Calmed(y) && y.db == x.db && Whole(SourceOf(y.sources, c.u))
  {
    hide On;
    GoesOther(c, x, Reappear(c.u, Source(Some([0]), None)));
    y := ApplyOther(x, Reappear(c.u, Source(Some([0]), None)));
  }

  /** The source comes back, is continued, or is whole already; a row in the way is one closed for want of bytes. */
  lemma Mends(c: Course, x: World) returns (y: World)
    requires On(c, x) && Calmed(x) && Rowless(x, c.u) && c.u !in x.awaiting && Mendable(SourceOf(x.sources, c.u))
    ensures On(c, y) && Calmed(y) && y.db == x.db && Whole(SourceOf(y.sources, c.u))
  {
    hide Inv, Announced, Leads, SourceIntact;
    var f := SourceOf(x.sources, c.u);
    if f.data == None {
      if c.u in x.db.jobs { RowFacts(x, c.u); }
      y := ComesBack(c, x);
    } else if Whole(f) {
      y := x;
    } else {
      y := Written(c, x, f.info.value);
      assert |Bytes(y.sources, c.u)| > 0;
    }
  }

  /** A row closed only for want of bytes is dropped once the bytes are seen. */
  lemma Vacates(c: Course, x: World) returns (y: World)
    requires On(c, x) && Calmed(x) && Rowless(x, c.u)
    ensures On(c, y) && Calmed(y) && c.u !in y.db.jobs && y.sources == x.sources
  {
    hide On;
    if c.u in x.db.jobs {
      GoesOther(c, x, DeleteUnobservable(c.u));
      y := ApplyOther(x, DeleteUnobservable(c.u));
    } else {
      y := x;
    }
  }

  lemma {:induction false} FreshId(used: set<MediaId>) returns (m: MediaId)
    ensures forall k | k in used :: k < m
    decreases |used|
  {
    if used == {} {
      m := 0;
    } else {
      var k :| k in used;
      var rest := used - {k};
      m := FreshId(rest);
      m := if m <= k then k + 1 else m;
      assert forall j | j in used :: j == k || j in rest;
    }
  }

  /** A whole file without a row is adopted. */
  lemma Adopts(c: Course, x: World) returns (y: World)
    requires On(c, x) && Calmed(x) && c.u !in x.db.jobs && Whole(SourceOf(x.sources, c.u))
    ensures On(c, y) && Calmed(y) && CanPromote(y.db, c.u)
    ensures SourceComplete(SourceOf(y.sources, c.u)) && |Bytes(y.sources, c.u)| == y.db.jobs[c.u].expectedSize
  {
    hide Inv, Leads, Announced;
    MediaIdsAreUsed(x);
    var m := FreshId(x.usedMedia);
    y := AdoptedAs(c, x, m);
  }

  lemma AdoptedAs(c: Course, x: World, m: MediaId) returns (y: World)
    requires On(c, x) && Calmed(x) && c.u !in x.db.jobs && Whole(SourceOf(x.sources, c.u))
    requires m !in x.usedMedia && forall v | v in x.db.jobs :: x.db.jobs[v].mediaId != m
    ensures On(c, y) && Calmed(y) && CanPromote(y.db, c.u)
    ensures SourceComplete(SourceOf(y.sources, c.u)) && |Bytes(y.sources, c.u)| == y.db.jobs[c.u].expectedSize
  {
    hide On;
    GoesOther(c, x, Adopt(c.u, m, None));
    y := ApplyOther(x, Adopt(c.u, m, None));
  }

  /** An uncancelled upload with its admitted source passes the barrier. */
  lemma Passes(c: Course, x: World) returns (y: World)
    requires On(c, x) && Calmed(x) && CanPromote(x.db, c.u)
    requires SourceComplete(SourceOf(x.sources, c.u)) && |Bytes(x.sources, c.u)| == x.db.jobs[c.u].expectedSize
    ensures On(c, y) && c.u in y.db.jobs && y.db.jobs[c.u].status == Pending
    ensures y.db.jobs[c.u].mediaId == x.db.jobs[c.u].mediaId && y.db.jobs[c.u].mediaId in y.acked
  {
    hide On, CanPromote;
    y := ReachesFlush(c, x);
    y := Commits(c, y);
  }

  lemma ReachesFlush(c: Course, x: World) returns (y: World)
    requires On(c, x) && Calmed(x) && CanPromote(x.db, c.u)
    requires SourceComplete(SourceOf(x.sources, c.u)) && |Bytes(x.sources, c.u)| == x.db.jobs[c.u].expectedSize
    ensures On(c, y) && y.db == x.db && 0 in y.barriers && y.barriers[0].u == c.u && y.barriers[0].pc == Flushed
  {
    hide On;
    GoesBarrier(c, x, BarrierRead(0, c.u));
    var x1 := ApplyBarrier(x, BarrierRead(0, c.u));
    GoesBarrier(c, x1, BarrierStat(0));
    var x2 := ApplyBarrier(x1, BarrierStat(0));
    GoesBarrier(c, x2, BarrierFlush(0));
    y := ApplyBarrier(x2, BarrierFlush(0));
  }

  lemma Commits(c: Course, x: World) returns (y: World)
    requires On(c, x) && CanPromote(x.db, c.u)
    requires 0 in x.barriers && x.barriers[0].u == c.u && x.barriers[0].pc == Flushed
    ensures On(c, y) && c.u in y.db.jobs && y.db.jobs[c.u].status == Pending
    ensures y.db.jobs[c.u].mediaId == x.db.jobs[c.u].mediaId && y.db.jobs[c.u].mediaId in y.acked
  {
    hide On;
    GoesBarrier(c, x, BarrierPromote(0));
    y := ApplyBarrier(x, BarrierPromote(0));
  }

  /** Announced files are created first, so that nothing after that rests on an open request. */
  lemma Settles(c: Course, x: World) returns (y: World)
    requires On(c, x) && !Spoilt(x, c.u, c.crashes)
    ensures On(c, y) && c.u !in y.awaiting && !Spoilt(y, c.u, c.crashes)
    ensures y.db == x.db && y.listed == x.listed
  {
    hide On;
    y := x;
    if c.u in x.awaiting {
      y := Creates(c, x);
    }
  }

  lemma CanBeGotOver(c: Course) returns (y: World)
    requires Inv(c.w) && Announced(c.w) && !Accepts(c.w, c.u)
    requires !Decided(c.w, c.u) && !Withdrawn(c.w, c.u) && !Spoilt(c.w, c.u, c.crashes)
    ensures Leads(c.r, c.w, y, c.u, c.crashes) && Accepts(y, c.u)
  {
    hide Inv, Announced, Leads, Mendable, Whole, SourceComplete, Bytes, SourceIntact;
    StartsOn(c);
    y := Settles(c, c.w);
    if IsUploading(y.db, c.u) {
      y := Closes(c, y);
    } else if c.u in y.db.jobs {
      RowFacts(y, c.u);
    }
    y := Calms(c, y);
    y := Loses(c, y);
    y := Mends(c, y);
    y := Vacates(c, y);
    y := Adopts(c, y);
    y := Passes(c, y);
  }

  /**
    A refusal is the last word on an upload id, for as long as its row is retained,
    exactly when the row is condemned for another reason than unobservable bytes, or
    is cancelled and not listed by a pass still under way, or a file that can never be
    right is stuck under that id. No row at all, an unobservable one and a source that
    did not fit can all be got over: the id is adopted afresh once a whole file is
    there. Where no crash is reckoned with, the last disjunct tests two sizes and
    nothing a caller could not look up; else it also asks what is on stable storage.
    */
  lemma RefusalIsFinalIff(r: Rules, ws: seq<World>, ss: seq<Step>, i: nat, u: UploadId, crashes: bool)
    requires IsRun(r, ws, ss) && i < |ws| && !Accepts(ws[i], u)
    ensures (forall x :: Leads(r, ws[i], x, u, crashes) ==> !Accepts(x, u)) <==>
              Decided(ws[i], u) || Withdrawn(ws[i], u) || Spoilt(ws[i], u, crashes)
  {
    hide Inv, Initial, Enabled, Apply, Announced, Accepts, Decided, Withdrawn, Spoilt, IsPath;
    RunKeepsInv(r, ws, ss, i);
    RunAnnounces(r, ws, ss, i);
    if Decided(ws[i], u) || Withdrawn(ws[i], u) || Spoilt(ws[i], u, crashes) {
      forall x | Leads(r, ws[i], x, u, crashes) ensures !Accepts(x, u) {
        var vs: seq<World>, ts: seq<Step> :| IsPath(r, vs, ts, ws[i], x, u, crashes);
        HopelessForGood(r, vs, ts, ws[i], x, u, crashes);
      }
    } else {
      var y := CanBeGotOver(Course(r, ws[i], u, crashes));
    }
  }

  /** The source is, or can still become, the one that was admitted. */
  predicate Completable(w: World, u: UploadId)
    requires u in w.db.jobs
  {
    var f := SourceOf(w.sources, u);
    || u in w.awaiting
    || (f.data.Some? && f.info.Some? && |f.data.value| < f.info.value)
    || (SourceComplete(f) && |f.data.value| == w.db.jobs[u].expectedSize)
  }

  lemma AdmittedSize(w: World, u: UploadId)
    requires Inv(w) && u in w.db.jobs && w.db.jobs[u].status == Uploading
    ensures u in w.awaiting ==> w.awaiting[u] == w.db.jobs[u].expectedSize
    ensures SourceOf(w.sources, u).info.Some? ==> SourceOf(w.sources, u).info.value == w.db.jobs[u].expectedSize
  {}

  /**
    A refusal that rests on a look at the source alone is not final: while the row is
    uncancelled and its source can still be the admitted one, some later operation
    commits this very row, without any crash.
    */
  lemma StatRefusalsCanBeLifted(r: Rules, ws: seq<World>, ss: seq<Step>, i: nat, u: UploadId) returns (x: World)
    requires IsRun(r, ws, ss) && i < |ws| && CanPromote(ws[i].db, u) && Completable(ws[i], u)
    ensures Leads(r, ws[i], x, u, false) && SameRow(ws[i], x, u)
    ensures x.db.jobs[u].status == Pending && x.db.jobs[u].mediaId in x.acked
  {
    hide Inv, Initial, Enabled, Apply, Announced, Leads;
    var w, c := ws[i], Course(r, ws[i], u, false);
    RunKeepsInv(r, ws, ss, i);
    RunAnnounces(r, ws, ss, i);
    AdmittedSize(w, u);
    StartsOn(c);
    x := w;
    if u in w.awaiting {
      x := Creates(c, w);
    }
    x := Calms(c, x);
    if |Bytes(x.sources, u)| < w.db.jobs[u].expectedSize {
      x := Written(c, x, w.db.jobs[u].expectedSize);
    }
    x := Passes(c, x);
  }

  /**
    A cancellation can come too late for the pass that listed the upload: there is a
    reachable state with the cancellation on record in which the row can still be
    closed as unobservable, and from which, without any crash, the upload is accepted.
    */
  lemma CancellationCanBeOvertaken(r: Rules, u: UploadId) returns (x: World, y: World)
    ensures Reached(r, x) && IsUploading(x.db, u) && x.db.jobs[u].cancelledAt.Some?
    ensures EnabledTransfer(x, MarkUnobservable(u))
    ensures Leads(r, x, y, u, false) && Accepts(y, u)
  {
    hide Inv, Initial, Enabled, Apply, Announced, Reached, Leads, Accepts, EnabledTransfer, ApplyTransfer;
    x := ListedThenCancelled(r, u);
    assert Inv(x) && Announced(x) by {
      ReachedIsSound(r, x);
    }
    NotAccepted(x, u);
    y := CanBeGotOver(Course(r, x, u, false));
  }

  lemma NotAccepted(x: World, u: UploadId)
    requires IsUploading(x.db, u)
    ensures !Accepts(x, u) && !Decided(x, u)
  {}

  lemma ReachedIsSound(r: Rules, x: World)
    requires Reached(r, x)
    ensures Inv(x) && Announced(x)
  {
    hide Inv, Initial, Enabled, Apply, Announced;
    var ws: seq<World>, ss: seq<Step> :| IsRun(r, ws, ss) && ws[|ws| - 1] == x;
    RunKeepsInv(r, ws, ss, |ws| - 1);
    RunAnnounces(r, ws, ss, |ws| - 1);
  }

  lemma ListedThenCancelled(r: Rules, u: UploadId) returns (x: World)
    ensures Reached(r, x) && IsUploading(x.db, u) && x.db.jobs[u].cancelledAt.Some? && u in x.listed
    ensures EnabledTransfer(x, MarkUnobservable(u)) && SourceOf(x.sources, u) == NoSource
  {
    hide Reached;
    StartsReached(r);
    GoTransfer(r, Empty(), PreCreate(u, 0, 1, None));
    var w1 := ApplyTransfer(Empty(), PreCreate(u, 0, 1, None));
    GoTransfer(r, w1, ListStale({u}, 0));
    var w2 := ApplyTransfer(w1, ListStale({u}, 0));
    GoTransfer(r, w2, RequestCancellation(u));
    x := ApplyTransfer(w2, RequestCancellation(u));
  }
}
