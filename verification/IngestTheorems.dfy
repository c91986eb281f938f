/** What holds in every run, from any first start over an existing gallery. */
module IngestTheorems {
  import opened Records
  import opened UploadJobs
  import opened World
  import opened Invariant
  import opened Frames
  import opened History
  import opened IngestSafety
  import opened Footprints
  import opened Judgement
  import TransferSteps
  import WorkerSteps

  /** An empty queue over any consistent gallery and any files left in the upload directory. */
  ghost predicate Initial(w: World) {
    && w.db.jobs == map[] && w.attempts == map[] && w.barriers == map[] && w.janitors == map[]
    && w.stages == map[] && w.awaiting == map[] && w.reopening == None && w.listed == {} && !w.started
    && w.acked == {} && w.latePurged == {} && w.reopened == {}
    && (forall u | u !in w.known :: SourceOf(w.sources, u) == NoSource)
    && (forall m | m in w.published :: m in w.usedMedia && m in w.flushedOriginals)
    && Gallery(w.db.media, w.db.bySha, w.published)
    && LiveOriginals(w.live, w.published)
    && (forall m | m in w.db.media :: Path(m, Original) in w.live)
  }

  ghost predicate IsRun(r: Rules, ws: seq<World>, ss: seq<Step>) {
    && |ws| == |ss| + 1
    && Initial(ws[0])
    && forall i | 0 <= i < |ss| :: Enabled(r, ws[i], ss[i]) && ws[i + 1] == Apply(r, ws[i], ss[i])
  }

  lemma InitialInv(w: World)
    requires Initial(w)
    ensures Inv(w)
  {}

  lemma {:induction false} RunKeepsInv(r: Rules, ws: seq<World>, ss: seq<Step>, i: nat)
    requires IsRun(r, ws, ss) && i < |ws|
    ensures Inv(ws[i])
  {
    hide Inv, Initial, Enabled, Apply;
    if i == 0 {
      InitialInv(ws[0]);
    } else {
      RunKeepsInv(r, ws, ss, i - 1);
      StepKeeps(r, ws[i - 1], ss[i - 1]);
    }
  }

  lemma MediaIdsAreUsed(w: World)
    requires Inv(w)
    ensures forall u | u in w.db.jobs :: w.db.jobs[u].mediaId in w.usedMedia
  {}

  lemma SucceedsItself(w: World)
    ensures Succeeds(w, w)
  {}

  lemma {:induction false} RunSucceeds(r: Rules, ws: seq<World>, ss: seq<Step>, i: nat, j: nat)
    requires IsRun(r, ws, ss) && i <= j < |ws|
    ensures Succeeds(ws[i], ws[j])
  {
    hide Inv, Initial, Enabled, Apply, Succeeds;
    if i == j {
      SucceedsItself(ws[i]);
    } else {
      RunSucceeds(r, ws, ss, i, j - 1);
      RunKeepsInv(r, ws, ss, i);
      RunKeepsInv(r, ws, ss, j - 1);
      StepSucceeds(r, ws[j - 1], ss[j - 1]);
      MediaIdsAreUsed(ws[i]);
      SucceedsTransitively(ws[i], ws[j - 1], ws[j]);
    }
  }

  /** Row `u` is the same incarnation in both worlds. */
  ghost predicate SameRow(v: World, w: World, u: UploadId) {
    u in v.db.jobs && u in w.db.jobs && v.db.jobs[u].mediaId == w.db.jobs[u].mediaId
  }

  lemma RowEvolves(r: Rules, ws: seq<World>, ss: seq<Step>, i: nat, j: nat, u: UploadId)
    requires IsRun(r, ws, ss) && i <= j < |ws| && SameRow(ws[i], ws[j], u)
    ensures Evolves(ws[i].db.jobs[u], ws[j].db.jobs[u])
  {
    hide Inv, Initial, Enabled, Apply;
    RunSucceeds(r, ws, ss, i, j);
    RunKeepsInv(r, ws, ss, i);
    MediaIdsAreUsed(ws[i]);
  }

  // ---- no bytes are lost ----

  ghost predicate OriginalKept(w: World, m: MediaId, c: Content) {
    || (Path(m, Original) in w.live && w.live[Path(m, Original)] == c)
    || exists s :: s in w.stages && w.stages[s].m == m && Original in w.stages[s].files
                   && w.stages[s].files[Original] == c
  }

  /** The promoted bytes are in the tus source, or in the original of the row they resolved to. */
  ghost predicate BytesKept(w: World, u: UploadId)
    requires u in w.db.jobs && u in w.durable
  {
    || SourceOf(w.sources, u).data == Some(w.durable[u])
    || (w.db.jobs[u].result.Some?
        && var m := w.db.jobs[u].result.value;
           m in w.db.media && w.db.media[m].sha == w.durable[u] && OriginalKept(w, m, w.durable[u]))
  }

  /** Before state `i`, some purge deleted the result of this incarnation while its job was complete. */
  ghost predicate PurgedAfterCompletion(ws: seq<World>, ss: seq<Step>, i: nat, m: MediaId) {
    exists k, u :: 0 <= k < i && k < |ss| && k < |ws| && ss[k].PurgeCommit? && u in ws[k].db.jobs
      && ws[k].db.jobs[u].mediaId == m && ws[k].db.jobs[u].status == Complete
      && ws[k].db.jobs[u].result.Some? && ws[k].db.jobs[u].result.value in ss[k].gone
  }

  lemma OnlyPurgesAreLate(r: Rules, w: World, s: Step)
    requires Enabled(r, w, s) && !s.PurgeCommit?
    ensures Apply(r, w, s).latePurged == w.latePurged
  {
    hide EnabledTransfer, EnabledBarrier, EnabledJanitor, EnabledAttempt;
    hide EnabledProcessing, EnabledRemoval, EnabledOther;
    hide ApplyTransfer, ApplyBarrier, ApplyJanitor, ApplyAttempt, ApplyProcessing, ApplyRemoval, ApplyOther;
    if EnabledTransfer(w, s) { TransferFootprint(w, s); }
    else if EnabledBarrier(w, s) { BarrierFootprint(w, s); }
    else if EnabledJanitor(w, s) { JanitorFootprint(w, s); }
    else if EnabledAttempt(r, w, s) { AttemptFootprint(r, w, s); }
    else if EnabledProcessing(w, s) { ProcessingFootprint(r, w, s); }
    else if EnabledRemoval(w, s) { RemovalFootprint(w, s); }
    else { OtherFootprint(w, s); }
  }

  lemma LateMeansCompleted(r: Rules, w: World, gone: set<MediaId>, m: MediaId)
    requires Enabled(r, w, PurgeCommit(gone)) && m in Apply(r, w, PurgeCommit(gone)).latePurged && m !in w.latePurged
    ensures exists u :: u in w.db.jobs && w.db.jobs[u].mediaId == m && w.db.jobs[u].status == Complete
              && w.db.jobs[u].result.Some? && w.db.jobs[u].result.value in gone
  {}

  lemma {:induction false} LatePurgesHappened(r: Rules, ws: seq<World>, ss: seq<Step>, i: nat, m: MediaId)
    requires IsRun(r, ws, ss) && i < |ws| && m in ws[i].latePurged
    ensures PurgedAfterCompletion(ws, ss, i, m)
  {
    hide Enabled, Apply;
    if i == 0 {
    } else {
      if m in ws[i - 1].latePurged {
        LatePurgesHappened(r, ws, ss, i - 1, m);
      } else {
        var w, s := ws[i - 1], ss[i - 1];
        if s.PurgeCommit? {
          LateMeansCompleted(r, w, s.gone, m);
          assert 0 <= i - 1 < |ss|;
        } else {
          OnlyPurgesAreLate(r, w, s);
        }
      }
    }
  }

  lemma ResultKept(w: World, m: MediaId)
    requires Inv(w) && m in w.db.media
    ensures OriginalKept(w, m, w.db.media[m].sha)
  {
    hide QueueInv, SourceInv, WorkInv;
    assert m in w.published && Kept(m, w.live, w.stages, w.home);
    if Path(m, Original) !in w.live {
      assert w.home[m] in w.stages;
    }
  }

  lemma ResolvedFacts(w: World, u: UploadId)
    requires Inv(w) && u in w.db.jobs && Published(w.db.jobs[u].status)
    ensures w.db.jobs[u].mediaId !in w.latePurged ==>
              && w.db.jobs[u].result.Some? && w.db.jobs[u].result.value in w.db.media
              && u in w.durable && w.db.media[w.db.jobs[u].result.value].sha == w.durable[u]
    ensures w.db.jobs[u].mediaId in w.latePurged ==>
              w.db.jobs[u].status == Complete || w.db.jobs[u].mediaId in w.reopened
  {}

  // ---- rejections are right ----

  lemma InitialIsJudged(r: Rules, w: World)
    requires Initial(w)
    ensures Judged(r, w)
  {}

  lemma {:induction false} RunStaysJudged(r: Rules, ws: seq<World>, ss: seq<Step>, i: nat)
    requires IsRun(r, ws, ss) && i < |ws|
    ensures Judged(r, ws[i])
  {
    hide Inv, Initial, Enabled, Apply, Judged;
    if i == 0 {
      InitialIsJudged(r, ws[0]);
    } else {
      RunStaysJudged(r, ws, ss, i - 1);
      RunKeepsInv(r, ws, ss, i - 1);
      RunKeepsInv(r, ws, ss, i);
      StepStaysJudged(r, ws[i - 1], ss[i - 1]);
    }
  }

  lemma JudgedFacts(r: Rules, w: World, u: UploadId)
    requires Judged(r, w) && u in w.db.jobs
    ensures RowJudged(r, w, u)
  {
    hide RowJudged, AttemptJudges;
  }

  /**
    A durable upload is only ever given up for what its bytes are: the promoted bytes
    are of no supported type, or not the declared ones, as the reason says. One whose
    bytes are in order is never condemned.
    */
  lemma OnlyContentIsRejected(r: Rules, ws: seq<World>, ss: seq<Step>, i: nat, u: UploadId)
    requires IsRun(r, ws, ss) && i < |ws|
    requires u in ws[i].db.jobs && ws[i].db.jobs[u].completedAt.Some?
    ensures u in ws[i].durable
    ensures Condemned(ws[i].db.jobs[u].status) ==>
              Rightly(r, ws[i].db.jobs[u].declared, ws[i].durable[u], ws[i].db.jobs[u].reason)
    ensures !Faulty(r, ws[i].db.jobs[u].declared, ws[i].durable[u]) ==> !Condemned(ws[i].db.jobs[u].status)
  {
    hide Inv, Initial, Enabled, Apply, Judged, SourceIntact;
    RunKeepsInv(r, ws, ss, i);
    RunStaysJudged(r, ws, ss, i);
    RowFacts(ws[i], u);
    JudgedFacts(r, ws[i], u);
  }

  /** A row that is not condemned has its bytes, unless its result was purged late. */
  lemma BytesOfUncondemned(r: Rules, ws: seq<World>, ss: seq<Step>, i: nat, u: UploadId)
    requires IsRun(r, ws, ss) && i < |ws|
    requires u in ws[i].db.jobs && ws[i].db.jobs[u].completedAt.Some? && !Condemned(ws[i].db.jobs[u].status)
    ensures u in ws[i].durable
    ensures BytesKept(ws[i], u) || PurgedAfterCompletion(ws, ss, i, ws[i].db.jobs[u].mediaId)
  {
    hide Inv, Initial, Enabled, Apply, PurgedAfterCompletion, OriginalKept;
    var w := ws[i];
    RunKeepsInv(r, ws, ss, i);
    RowFacts(w, u);
    if Published(w.db.jobs[u].status) {
      ResolvedFacts(w, u);
      if w.db.jobs[u].mediaId in w.latePurged {
        LatePurgesHappened(r, ws, ss, i, w.db.jobs[u].mediaId);
      } else {
        ResultKept(w, w.db.jobs[u].result.value);
      }
    }
  }

  /**
    An upload that became durable keeps its bytes, whatever ran, crashed or
    restarted, until a purge that committed after its job was complete, or until it
    is condemned for bytes that are unsupported or not the declared ones.
    */
  lemma NoBytesAreLost(r: Rules, ws: seq<World>, ss: seq<Step>, i: nat, u: UploadId)
    requires IsRun(r, ws, ss) && i < |ws|
    requires u in ws[i].db.jobs && ws[i].db.jobs[u].completedAt.Some?
    ensures u in ws[i].durable
    ensures || BytesKept(ws[i], u)
            || PurgedAfterCompletion(ws, ss, i, ws[i].db.jobs[u].mediaId)
            || (Condemned(ws[i].db.jobs[u].status) && Faulty(r, ws[i].db.jobs[u].declared, ws[i].durable[u]))
  {
    hide Inv, Initial, Enabled, Apply, PurgedAfterCompletion, OriginalKept, BytesKept;
    OnlyContentIsRejected(r, ws, ss, i, u);
    if !Condemned(ws[i].db.jobs[u].status) {
      BytesOfUncondemned(r, ws, ss, i, u);
    }
  }

  // ---- the durability commit ----

  /** Promotion commits a source that is complete, of the admitted size, and on stable storage. */
  lemma PromotionIsDurable(r: Rules, ws: seq<World>, ss: seq<Step>, i: nat)
    requires IsRun(r, ws, ss) && i < |ss| && ss[i].BarrierPromote?
    requires ss[i].b in ws[i].barriers && CanPromote(ws[i].db, ws[i].barriers[ss[i].b].u)
    ensures var u := ws[i].barriers[ss[i].b].u;
      && u in ws[i + 1].db.jobs && ws[i + 1].db.jobs[u].status == Pending
      && u in ws[i].flushed && u in ws[i + 1].durable
      && SourceOf(ws[i].sources, u).data == Some(ws[i + 1].durable[u])
      && |ws[i + 1].durable[u]| == ws[i].db.jobs[u].expectedSize
  {
    hide Inv, Initial;
    RunKeepsInv(r, ws, ss, i);
    RunKeepsInv(r, ws, ss, i + 1);
    PromotedFacts(ws[i], ss[i].b);
    RowFacts(ws[i + 1], ws[i].barriers[ss[i].b].u);
  }

  lemma PromotedFacts(w: World, b: nat)
    requires Inv(w) && EnabledBarrier(w, BarrierPromote(b)) && CanPromote(w.db, w.barriers[b].u)
    ensures var u := w.barriers[b].u;
      u in w.flushed && SourceOf(w.sources, u).data.Some? && |Bytes(w.sources, u)| == w.db.jobs[u].expectedSize
  {
    hide QueueInv, MediaInv, Transfers, DurableSources, Identifies;
  }

  /** The bytes an upload was promoted with never change while its row lives. */
  lemma DurableBytesStay(r: Rules, ws: seq<World>, ss: seq<Step>, i: nat, j: nat, u: UploadId)
    requires IsRun(r, ws, ss) && i <= j < |ws| && SameRow(ws[i], ws[j], u)
    requires ws[i].db.jobs[u].completedAt.Some?
    ensures u in ws[i].durable && u in ws[j].durable && ws[j].durable[u] == ws[i].durable[u]
  {
    hide Inv, Initial, Enabled, Apply;
    RunKeepsInv(r, ws, ss, i);
    RowFacts(ws[i], u);
    RunSucceeds(r, ws, ss, i, j);
  }

  /** A crash at any moment leaves every pending or processing row with its exact bytes. */
  lemma CrashesSparePromotedSources(r: Rules, ws: seq<World>, ss: seq<Step>, i: nat, u: UploadId)
    requires IsRun(r, ws, ss) && i < |ss| && ss[i].Crash?
    requires u in ws[i].db.jobs && Working(ws[i].db.jobs[u].status)
    ensures SourceOf(ws[i + 1].sources, u) == SourceOf(ws[i].sources, u)
    ensures SourceOf(ws[i + 1].sources, u).data.Some?
    ensures |Bytes(ws[i + 1].sources, u)| == ws[i].db.jobs[u].expectedSize
  {
    hide Inv, Initial, Enabled, Apply;
    RunKeepsInv(r, ws, ss, i);
    RowFacts(ws[i], u);
    CrashSparesFlushed(r, ws[i], ss[i], u);
  }

  lemma CrashSparesFlushed(r: Rules, w: World, s: Step, u: UploadId)
    requires Enabled(r, w, s) && s.Crash? && u in w.flushed
    ensures SourceOf(Apply(r, w, s).sources, u) == SourceOf(w.sources, u)
  {
    hide SourceOf;
  }

  // ---- fencing ----

  lemma FencedFacts(w: World, u: UploadId)
    requires Inv(w) && u in w.db.jobs && w.db.jobs[u].lease.Some?
    ensures w.db.jobs[u].lease.value.token in w.attempts
    ensures w.attempts[w.db.jobs[u].lease.value.token].u == u
    ensures w.attempts[w.db.jobs[u].lease.value.token].job.status == w.db.jobs[u].status
  {}

  /**
    A token on a row is in the stage it was issued for, so releases and finishes
    that test only the token cannot move a row out of its class: published stays
    published, condemned stays condemned, and neither is ever worked on again.
  */
  lemma TokensAndClassesAreFenced(r: Rules, ws: seq<World>, ss: seq<Step>, i: nat, j: nat, u: UploadId)
    requires IsRun(r, ws, ss) && i <= j < |ws| && SameRow(ws[i], ws[j], u)
    ensures ws[j].db.jobs[u].lease.Some? ==>
              var t := ws[j].db.jobs[u].lease.value.token;
              t in ws[j].attempts && ws[j].attempts[t].job.status == ws[j].db.jobs[u].status
    ensures Published(ws[i].db.jobs[u].status) ==>
              Published(ws[j].db.jobs[u].status) && ws[j].db.jobs[u].result == ws[i].db.jobs[u].result
    ensures Condemned(ws[i].db.jobs[u].status) ==>
              Condemned(ws[j].db.jobs[u].status) && ws[j].db.jobs[u].reason == ws[i].db.jobs[u].reason
    ensures ws[i].db.jobs[u].status != Uploading ==> ws[j].db.jobs[u].status != Uploading
  {
    hide Inv, Initial, Enabled, Apply;
    RunKeepsInv(r, ws, ss, j);
    if ws[j].db.jobs[u].lease.Some? { FencedFacts(ws[j], u); }
    RowEvolves(r, ws, ss, i, j, u);
  }

  // ---- duplicates ----

  /** A job in cleanup names an existing media row of its own authoritative content. */
  lemma DuplicatesNeverDangle(r: Rules, ws: seq<World>, ss: seq<Step>, i: nat, u: UploadId)
    requires IsRun(r, ws, ss) && i < |ws|
    requires u in ws[i].db.jobs && ws[i].db.jobs[u].status == Cleanup && ws[i].db.jobs[u].mediaId !in ws[i].reopened
    ensures var j := ws[i].db.jobs[u];
      && j.result.Some? && j.result.value in ws[i].db.media
      && j.authoritative == Some(ws[i].db.media[j.result.value].sha)
      && OriginalKept(ws[i], j.result.value, ws[i].db.media[j.result.value].sha)
  {
    hide Inv, Initial, Enabled, Apply, OriginalKept;
    RunKeepsInv(r, ws, ss, i);
    RowFacts(ws[i], u);
    ResolvedFacts(ws[i], u);
    ResultKept(ws[i], ws[i].db.jobs[u].result.value);
  }

  // ---- removals are authorised ----

  /** The steps that delete or unlink part of a source. */
  ghost predicate RemovesSource(w: World, s: Step, u: UploadId) {
    match s
    case JanitorDelete(k, _, _) => k in w.janitors && w.janitors[k].u == u
    case Delete(t, _, _) => t in w.attempts && w.attempts[t].u == u
    case UnlinkData(t) => t in w.attempts && w.attempts[t].u == u
    case UnlinkInfo(t) => t in w.attempts && w.attempts[t].u == u
    case _ => false
  }

  /** No terminate or unlink is issued for a row that is uploading, pending or processing. */
  lemma RemovalsAreAuthorised(r: Rules, ws: seq<World>, ss: seq<Step>, i: nat, u: UploadId)
    requires IsRun(r, ws, ss) && i < |ss| && RemovesSource(ws[i], ss[i], u)
    ensures u in ws[i].db.jobs && !StillOwned(ws[i].db, u)
    ensures Condemned(ws[i].db.jobs[u].status) && ws[i].db.jobs[u].completedAt.Some? ==>
              ContentRejection(ws[i].db.jobs[u].reason)
  {
    hide Inv, Initial;
    RunKeepsInv(r, ws, ss, i);
    var w, s := ws[i], ss[i];
    if s.JanitorDelete? {
      WorkerSteps.JanitorFacts(w);
    } else {
      AttemptFacts(w, s.t);
    }
    RowFacts(w, u);
  }

  lemma AwaitedHaveNoSource(w: World, u: UploadId)
    requires Inv(w) && u in w.awaiting
    ensures SourceOf(w.sources, u) == NoSource
  {}

  /** The data file of `u` is still there, and what it held is a prefix of what it holds. */
  predicate Grown(before: map<UploadId, Source>, after: map<UploadId, Source>, u: UploadId) {
    SourceOf(after, u).data.Some? && Bytes(before, u) <= Bytes(after, u)
  }

  /** Only an authorised removal or a crash ever takes a byte from a source. */
  lemma OwnedSourcesOnlyGrow(r: Rules, w: World, s: Step, u: UploadId)
    requires Inv(w) && Enabled(r, w, s) && !s.Crash? && !RemovesSource(w, s, u)
    requires SourceOf(w.sources, u).data.Some?
    ensures Grown(w.sources, Apply(r, w, s).sources, u)
  {
    hide Inv, RemovesSource, Grown, SourceOf;
    hide EnabledTransfer, EnabledBarrier, EnabledJanitor, EnabledAttempt;
    hide EnabledProcessing, EnabledRemoval, EnabledOther;
    hide ApplyTransfer, ApplyBarrier, ApplyJanitor, ApplyAttempt, ApplyProcessing, ApplyRemoval, ApplyOther;
    if EnabledTransfer(w, s) { SourcesInTransfer(w, s, u); }
    else if EnabledBarrier(w, s) { SourcesElsewhere(r, w, s); SameSourceGrown(w.sources, u); }
    else if EnabledJanitor(w, s) { SourcesInJanitor(w, s, u); }
    else if EnabledAttempt(r, w, s) || EnabledProcessing(w, s) { SourcesElsewhere(r, w, s); SameSourceGrown(w.sources, u); }
    else if EnabledRemoval(w, s) { SourcesInRemoval(w, s, u); }
    else { SourcesInOther(w, s, u); }
  }

  lemma SourcesElsewhere(r: Rules, w: World, s: Step)
    requires Enabled(r, w, s)
    requires !EnabledTransfer(w, s)
    requires EnabledBarrier(w, s) || (!EnabledJanitor(w, s) && (EnabledAttempt(r, w, s) || EnabledProcessing(w, s)))
    ensures Apply(r, w, s).sources == w.sources
  {
    hide EnabledTransfer, EnabledBarrier, EnabledJanitor, EnabledAttempt;
    hide EnabledProcessing, EnabledRemoval, EnabledOther;
    hide ApplyTransfer, ApplyBarrier, ApplyJanitor, ApplyAttempt, ApplyProcessing, ApplyRemoval, ApplyOther;
    if EnabledBarrier(w, s) { BarrierFootprint(w, s); }
    else if EnabledAttempt(r, w, s) { AttemptFootprint(r, w, s); }
    else { ProcessingFootprint(r, w, s); }
  }

  lemma SameSourceGrown(sources: map<UploadId, Source>, u: UploadId)
    requires SourceOf(sources, u).data.Some?
    ensures Grown(sources, sources, u)
  {}

  lemma SourcesInTransfer(w: World, s: Step, u: UploadId)
    requires Inv(w) && EnabledTransfer(w, s) && SourceOf(w.sources, u).data.Some?
    ensures Grown(w.sources, ApplyTransfer(w, s).sources, u)
  {
    hide Inv;
    if s.Write? {
      WriteGrows(w, s, u);
    } else {
      if s.CreateFiles? { AwaitedHaveNoSource(w, s.u); }
      SourcesUnwritten(w, s, u);
    }
  }

  lemma WriteGrows(w: World, s: Step, u: UploadId)
    requires EnabledTransfer(w, s) && s.Write? && SourceOf(w.sources, u).data.Some?
    ensures Grown(w.sources, ApplyTransfer(w, s).sources, u)
  {}

  lemma SourcesUnwritten(w: World, s: Step, u: UploadId)
    requires EnabledTransfer(w, s) && !s.Write? && (s.CreateFiles? ==> s.u != u)
    ensures SourceOf(ApplyTransfer(w, s).sources, u) == SourceOf(w.sources, u)
  {
    if s.CreateFiles? {
    } else {
      hide ApplyTransfer, EnabledTransfer;
      TransferLeavesSources(w, s);
    }
  }

  lemma SourcesInJanitor(w: World, s: Step, u: UploadId)
    requires EnabledJanitor(w, s) && !RemovesSource(w, s, u) && SourceOf(w.sources, u).data.Some?
    ensures Grown(w.sources, ApplyJanitor(w, s).sources, u)
  {}

  lemma SourcesInRemoval(w: World, s: Step, u: UploadId)
    requires EnabledRemoval(w, s) && !RemovesSource(w, s, u) && SourceOf(w.sources, u).data.Some?
    ensures Grown(w.sources, ApplyRemoval(w, s).sources, u)
  {
    if s.Delete? || s.UnlinkData? || s.UnlinkInfo? {
      RemovalElsewhere(w, s, u);
    } else {
      hide RemovesSource, ApplyRemoval, EnabledRemoval;
      RemovalLeavesSources(w, s);
    }
  }

  lemma RemovalElsewhere(w: World, s: Step, u: UploadId)
    requires EnabledRemoval(w, s) && !RemovesSource(w, s, u) && (s.Delete? || s.UnlinkData? || s.UnlinkInfo?)
    ensures SourceOf(ApplyRemoval(w, s).sources, u) == SourceOf(w.sources, u)
    ensures Bytes(ApplyRemoval(w, s).sources, u) == Bytes(w.sources, u)
  {
    hide Dropped;
  }

  lemma SourcesInOther(w: World, s: Step, u: UploadId)
    requires EnabledOther(w, s) && !s.Crash? && SourceOf(w.sources, u).data.Some?
    ensures Grown(w.sources, ApplyOther(w, s).sources, u)
  {
    if !s.Reappear? { OtherFootprint(w, s); }
  }

  /** No cleanup or discard, however stale, touches a file of a committed media row. */
  lemma ArtifactRemovalSparesMedia(r: Rules, ws: seq<World>, ss: seq<Step>, i: nat, p: Path)
    requires IsRun(r, ws, ss) && i < |ss| && ss[i].RemoveArtifact?
    requires p.m in ws[i].db.media && p in ws[i].live
    ensures p in ws[i + 1].live && ws[i + 1].live[p] == ws[i].live[p]
  {
    hide Inv, Initial, Enabled, Apply;
    RunKeepsInv(r, ws, ss, i);
    RemovalSparesMedia(r, ws[i], ss[i], p);
  }

  lemma RemovalSparesMedia(r: Rules, w: World, s: Step, p: Path)
    requires Inv(w) && Enabled(r, w, s) && s.RemoveArtifact? && p.m in w.db.media && p in w.live
    ensures p in Apply(r, w, s).live && Apply(r, w, s).live[p] == w.live[p]
  {
    hide Inv, EnabledRemoval, ApplyRemoval;
    hide ApplyTransfer, ApplyBarrier, ApplyJanitor, ApplyAttempt, ApplyProcessing, ApplyOther;
    ArtifactGoes(w, s.t, s.art);
    UnownedIsUnpublished(w, s.t);
  }

  lemma ArtifactGoes(w: World, t: Token, art: Artifact)
    requires EnabledRemoval(w, RemoveArtifact(t, art))
    ensures Removing(w, t, Unowned)
    ensures ApplyRemoval(w, RemoveArtifact(t, art)).live == w.live - {Path(w.attempts[t].job.mediaId, art)}
  {}

  lemma UnownedIsUnpublished(w: World, t: Token)
    requires Inv(w) && Removing(w, t, Unowned)
    ensures w.attempts[t].job.mediaId !in w.db.media
  {
    hide Inv, Relies, Believes, RowKnown;
    AttemptFacts(w, t);
  }

  // ---- live attempts exclude each other ----

  lemma TimelyFacts(w: World, t: Token)
    requires Inv(w) && t in w.attempts && Running(w.attempts[t]) && w.clock < w.attempts[t].deadline
    ensures Holds(w.db, w.attempts[t].u, t)
  {}

  lemma LiveAttemptsExclude(r: Rules, ws: seq<World>, ss: seq<Step>, i: nat, s: Token, t: Token)
    requires IsRun(r, ws, ss) && i < |ws|
    requires s in ws[i].attempts && Running(ws[i].attempts[s]) && ws[i].clock < ws[i].attempts[s].deadline
    requires t in ws[i].attempts && Running(ws[i].attempts[t]) && ws[i].clock < ws[i].attempts[t].deadline
    requires ws[i].attempts[s].u == ws[i].attempts[t].u
    ensures s == t
  {
    hide Inv, Initial, Enabled, Apply;
    RunKeepsInv(r, ws, ss, i);
    TimelyFacts(ws[i], s);
    TimelyFacts(ws[i], t);
  }

  /** A second claim can find the row due at some instant when the first attempt still has time left. */
  ghost predicate CanOverlap(r: Rules, j: Job, to: Status, t: Token, reading: Time, returned: Time) {
    var k := ClaimRow(j, to, t, reading, r.processingTimeout + r.reconcileInterval);
    exists now: Time :: IsDue(k, to, now) && now < returned + r.processingTimeout
  }

  /** The prompt return of a claim is exactly what exclusion needs. */
  lemma OverlapNeedsASlowClaim(r: Rules, j: Job, from: Status, to: Status, t: Token, reading: Time, returned: Time)
    requires StagePair(from, to) && IsDue(j, from, reading)
    ensures CanOverlap(r, j, to, t, reading, returned) <==> returned > reading + r.reconcileInterval
  {
    if returned > reading + r.reconcileInterval {
      var now := reading + r.processingTimeout + r.reconcileInterval;
      assert IsDue(ClaimRow(j, to, t, reading, r.processingTimeout + r.reconcileInterval), to, now);
    }
  }

  // ---- success and cancellation ----

  lemma AckFacts(w: World, u: UploadId)
    requires Inv(w) && u in w.db.jobs && w.db.jobs[u].mediaId in w.acked
    ensures w.db.jobs[u].completedAt.Some?
  {}

  /** The statements that could still end an upload that is only being sent. */
  predicate EndsUploading(s: Step, u: UploadId) {
    s == RequestCancellation(u) || s == MarkUnobservable(u) || (s.JanitorClaim? && s.u == u)
  }

  /** Once EnsureDurable has returned nil, no cancellation, sweep, janitor claim or closure succeeds. */
  lemma SuccessExcludesCancellation(r: Rules, ws: seq<World>, ss: seq<Step>, i: nat, j: nat, u: UploadId, s: Step, idle: Time)
    requires IsRun(r, ws, ss) && i <= j < |ws| && u in ws[j].db.jobs && ws[j].db.jobs[u].mediaId in ws[i].acked
    ensures ws[j].db.jobs[u].cancelledAt == None && ws[j].db.jobs[u].status != Uploading
    ensures EndsUploading(s, u) ==> !EnabledTransfer(ws[j], s) && !EnabledJanitor(ws[j], s)
    ensures !SweepDue(ws[j].db.jobs[u], idle)
  {
    hide Inv, Initial, Enabled, Apply, EnabledTransfer, EnabledJanitor, SourceIntact;
    RunKeepsInv(r, ws, ss, j);
    RunSucceeds(r, ws, ss, i, j);
    AckFacts(ws[j], u);
    RowFacts(ws[j], u);
    if EndsUploading(s, u) { EndsOnlyUploading(ws[j], s, u); }
  }

  lemma EndsOnlyUploading(w: World, s: Step, u: UploadId)
    requires EndsUploading(s, u) && u in w.db.jobs && w.db.jobs[u].status != Uploading
    ensures !EnabledTransfer(w, s) && !EnabledJanitor(w, s)
  {}

  /** Once a cancellation is recorded the row is never promoted and success is never reported for it. */
  lemma CancellationExcludesSuccess(r: Rules, ws: seq<World>, ss: seq<Step>, i: nat, j: nat, u: UploadId)
    requires IsRun(r, ws, ss) && i <= j < |ws| && SameRow(ws[i], ws[j], u) && ws[i].db.jobs[u].cancelledAt.Some?
    ensures ws[j].db.jobs[u].completedAt == None && !CanPromote(ws[j].db, u)
    ensures !Working(ws[j].db.jobs[u].status) && !Published(ws[j].db.jobs[u].status)
    ensures ws[j].db.jobs[u].mediaId !in ws[j].acked
  {
    hide Inv, Initial, Enabled, Apply;
    RunKeepsInv(r, ws, ss, j);
    RowEvolves(r, ws, ss, i, j, u);
    RowFacts(ws[j], u);
    if ws[j].db.jobs[u].mediaId in ws[j].acked { AckFacts(ws[j], u); }
  }
}
