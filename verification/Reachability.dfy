/** The promises are not empty: a supported upload can go all the way, in a run of the whole system. */
module Reachability {
  import opened Records
  import opened UploadJobs
  import opened World
  import opened Invariant
  import opened IngestTheorems

  /** The world as far as one upload with id 0 and media id 0 is concerned. */
  datatype Scene = Scene(
    jobs: map<UploadId, Job>, gallery: Option<Content>, source: Source, original: Option<Content>,
    attempts: map<Token, Attempt>, barriers: map<nat, Barrier>)

  ghost predicate Shows(w: World, z: Scene) {
    && w.db.jobs == z.jobs
    && w.db.media == (if z.gallery.Some? then map[0 := Media(z.gallery.value, Active)] else map[])
    && w.db.bySha == (if z.gallery.Some? then map[z.gallery.value := 0] else map[])
    && SourceOf(w.sources, 0) == z.source
    && (z.original.Some? ==> Path(0, Original) in w.live && w.live[Path(0, Original)] == z.original.value)
    && w.attempts == z.attempts && w.barriers == z.barriers
    && w.started && w.clock == 0 && w.reopening == None
  }

  function Empty(): World {
    World(Db(map[], map[], map[]), map[], map[], map[], map[], map[], map[], None, {}, 0, false,
          map[], {}, {}, {}, {}, map[], {}, map[], map[], {}, {})
  }

  /** Some run ends in `w`. */
  ghost predicate Reached(r: Rules, w: World) {
    exists ws: seq<World>, ss: seq<Step> :: IsRun(r, ws, ss) && ws[|ws| - 1] == w
  }

  lemma StartsReached(r: Rules)
    ensures Reached(r, Empty())
  {
    var ws: seq<World>, ss: seq<Step> := [Empty()], [];
    assert Initial(Empty());
    assert IsRun(r, ws, ss);
  }

  lemma Extends(r: Rules, w: World, s: Step)
    requires Reached(r, w) && Enabled(r, w, s)
    ensures Reached(r, Apply(r, w, s))
  {
    hide Initial, Enabled, Apply;
    var ws: seq<World>, ss: seq<Step> :| IsRun(r, ws, ss) && ws[|ws| - 1] == w;
    var ws', ss' := ws + [Apply(r, w, s)], ss + [s];
    forall i | 0 <= i < |ss'| ensures Enabled(r, ws'[i], ss'[i]) && ws'[i + 1] == Apply(r, ws'[i], ss'[i]) {
      if i < |ss| { assert ws'[i] == ws[i] && ws'[i + 1] == ws[i + 1] && ss'[i] == ss[i]; }
    }
    assert IsRun(r, ws', ss');
  }

  lemma GoTransfer(r: Rules, w: World, s: Step)
    requires Reached(r, w) && EnabledTransfer(w, s)
    ensures Reached(r, ApplyTransfer(w, s))
  {
    hide Reached, ApplyTransfer, ApplyBarrier, ApplyJanitor, ApplyAttempt, ApplyProcessing, ApplyRemoval, ApplyOther;
    Extends(r, w, s);
  }

  lemma GoBarrier(r: Rules, w: World, s: Step)
    requires Reached(r, w) && EnabledBarrier(w, s)
    ensures Reached(r, ApplyBarrier(w, s))
  {
    hide Reached, ApplyTransfer, ApplyBarrier, ApplyJanitor, ApplyAttempt, ApplyProcessing, ApplyRemoval, ApplyOther;
    Extends(r, w, s);
  }

  lemma GoAttempt(r: Rules, w: World, s: Step)
    requires Reached(r, w) && EnabledAttempt(r, w, s)
    ensures Reached(r, ApplyAttempt(r, w, s))
  {
    hide Reached, ApplyTransfer, ApplyBarrier, ApplyJanitor, ApplyAttempt, ApplyProcessing, ApplyRemoval, ApplyOther;
    Extends(r, w, s);
  }

  lemma GoProcessing(r: Rules, w: World, s: Step)
    requires Reached(r, w) && EnabledProcessing(w, s)
    ensures Reached(r, ApplyProcessing(r, w, s))
  {
    hide Reached, ApplyTransfer, ApplyBarrier, ApplyJanitor, ApplyAttempt, ApplyProcessing, ApplyRemoval, ApplyOther;
    Extends(r, w, s);
  }

  lemma GoRemoval(r: Rules, w: World, s: Step)
    requires Reached(r, w) && EnabledRemoval(w, s)
    ensures Reached(r, ApplyRemoval(w, s))
  {
    hide Reached, ApplyTransfer, ApplyBarrier, ApplyJanitor, ApplyAttempt, ApplyProcessing, ApplyRemoval, ApplyOther;
    Extends(r, w, s);
  }

  lemma GoOther(r: Rules, w: World, s: Step)
    requires Reached(r, w) && EnabledOther(w, s)
    ensures Reached(r, ApplyOther(w, s))
  {
    hide Reached, ApplyTransfer, ApplyBarrier, ApplyJanitor, ApplyAttempt, ApplyProcessing, ApplyRemoval, ApplyOther;
    Extends(r, w, s);
  }

  // ---- one scene after another ----

  /** Everything a claim needs fits: the deadline is the latest the claim may promise. */
  function Deadline(r: Rules): Time { r.reconcileInterval + r.processingTimeout }

  /** The row after each of the statements that touch it. */
  function Row(r: Rules, c: Content, step: nat): Job {
    var j0 := NewJob(0, |c|, None, 0);
    var j1 := PromoteRow(j0, 0);
    var j2 := ClaimRow(j1, Processing, 1, 0, r.processingTimeout + r.reconcileInterval);
    var j3 := RecordIdentityRow(j2, c, 0);
    var j4 := RecordPreparedRow(j3, 0);
    var j5 := PublishRow(j4, 0, 0);
    var j6 := ClaimRow(j5, Cleanup, 2, 0, r.processingTimeout + r.reconcileInterval);
    var j7 := FinishRow(j6, Complete, NoReason, 0);
    match step case 0 => j0 case 1 => j1 case 2 => j2 case 3 => j3 case 4 => j4 case 5 => j5 case 6 => j6 case _ => j7
  }

  function Attending(r: Rules, c: Content, pc: Pc, hashed: bool, copied: bool): Attempt {
    Attempt(0, Row(r, c, 2), pc, if hashed then c else [], if copied then c else [], Deadline(r))
  }

  function Cleaner(r: Rules, c: Content, pc: Pc): Attempt {
    Attempt(0, Row(r, c, 6), pc, [], [], Deadline(r))
  }

  function Whole(c: Content): Source { Source(Some(c), Some(|c|)) }

  function InTransit(r: Rules, c: Content, barriers: map<nat, Barrier>): Scene {
    Scene(map[0 := Row(r, c, 0)], None, Whole(c), None, map[], barriers)
  }

  function Durable(r: Rules, c: Content): Scene {
    Scene(map[0 := Row(r, c, 1)], None, Whole(c), None, map[], map[])
  }

  function AtWork(r: Rules, c: Content, row: nat, original: Option<Content>, a: Attempt): Scene {
    Scene(map[0 := Row(r, c, row)], None, Whole(c), original, map[1 := a], map[])
  }

  function InGallery(r: Rules, c: Content): Scene {
    Scene(map[0 := Row(r, c, 5)], Some(c), Whole(c), Some(c), map[1 := Attending(r, c, Finished, true, true)], map[])
  }

  function Tidying(r: Rules, c: Content, row: nat, f: Source, pc: Pc): Scene {
    Scene(map[0 := Row(r, c, row)], Some(c), f, Some(c),
          map[1 := Attending(r, c, Finished, true, true), 2 := Cleaner(r, c, pc)], map[])
  }

  /** Each row is the one before it after one statement; what the next steps look at. */
  lemma Rows(r: Rules, c: Content)
    ensures Row(r, c, 3) == RecordIdentityRow(Row(r, c, 2), c, 0) && Row(r, c, 4) == RecordPreparedRow(Row(r, c, 3), 0)
    ensures Row(r, c, 5) == PublishRow(Row(r, c, 4), 0, 0) && Row(r, c, 7) == FinishRow(Row(r, c, 6), Complete, NoReason, 0)
    ensures Row(r, c, 6) == ClaimRow(Row(r, c, 5), Cleanup, 2, 0, r.processingTimeout + r.reconcileInterval)
    ensures Row(r, c, 5).status == Cleanup && IsDue(Row(r, c, 5), Cleanup, 0)
    ensures Row(r, c, 2).mediaId == 0 && Row(r, c, 2).status == Processing && Row(r, c, 6).status == Cleanup
    ensures Row(r, c, 4).status == Processing && Row(r, c, 4).lease.Some? && Row(r, c, 4).lease.value.token == 1
    ensures Row(r, c, 6).lease.Some? && Row(r, c, 6).lease.value.token == 2
  {}

  lemma Sending(r: Rules, c: Content) returns (x: World)
    requires c != []
    ensures Reached(r, x) && Shows(x, InTransit(r, c, map[]))
  {
    hide Reached;
    StartsReached(r);
    var w1 := Empty().(started := true);
    GoOther(r, Empty(), RequeueAndStart);
    assert ApplyOther(Empty(), RequeueAndStart) == w1;
    x := Sent(r, c, w1);
  }

  lemma Sent(r: Rules, c: Content, w: World) returns (x: World)
    requires c != [] && Reached(r, w) && w == Empty().(started := true)
    ensures Reached(r, x) && Shows(x, InTransit(r, c, map[]))
  {
    hide Reached;
    GoTransfer(r, w, PreCreate(0, 0, |c|, None));
    var w1 := ApplyTransfer(w, PreCreate(0, 0, |c|, None));
    assert w1.db.jobs == map[0 := Row(r, c, 0)];
    GoTransfer(r, w1, CreateFiles(0));
    var w2 := ApplyTransfer(w1, CreateFiles(0));
    GoTransfer(r, w2, Write(0, c));
    x := ApplyTransfer(w2, Write(0, c));
    assert [] + c == c;
  }

  lemma Read(r: Rules, c: Content, w: World)
    requires c != [] && Shows(w, InTransit(r, c, map[]))
    ensures EnabledBarrier(w, BarrierRead(0, 0))
    ensures Shows(ApplyBarrier(w, BarrierRead(0, 0)), InTransit(r, c, map[0 := Barrier(0, |c|, Admitted)]))
  {}

  lemma StatSeen(r: Rules, c: Content, w: World)
    requires c != [] && Shows(w, InTransit(r, c, map[0 := Barrier(0, |c|, Admitted)]))
    ensures EnabledBarrier(w, BarrierStat(0))
    ensures Shows(ApplyBarrier(w, BarrierStat(0)), InTransit(r, c, map[0 := Barrier(0, |c|, Statted)]))
  {}

  lemma Flush(r: Rules, c: Content, w: World)
    requires c != [] && Shows(w, InTransit(r, c, map[0 := Barrier(0, |c|, Statted)]))
    ensures EnabledBarrier(w, BarrierFlush(0))
    ensures Shows(ApplyBarrier(w, BarrierFlush(0)), InTransit(r, c, map[0 := Barrier(0, |c|, Flushed)]))
  {}

  lemma Promotion(r: Rules, c: Content, w: World)
    requires c != [] && Shows(w, InTransit(r, c, map[0 := Barrier(0, |c|, Flushed)]))
    ensures EnabledBarrier(w, BarrierPromote(0))
    ensures Shows(ApplyBarrier(w, BarrierPromote(0)), Durable(r, c))
  {}

  lemma Claiming(r: Rules, c: Content, w: World)
    requires c != [] && Shows(w, Durable(r, c))
    ensures EnabledAttempt(r, w, Claim(1, 0, Pending, Processing, 0, Deadline(r)))
    ensures Shows(ApplyAttempt(r, w, Claim(1, 0, Pending, Processing, 0, Deadline(r))),
                  AtWork(r, c, 2, None, Attending(r, c, Claimed, false, false)))
  {}

  lemma Hashing(r: Rules, c: Content, w: World)
    requires c != [] && r.supported(c) && Shows(w, AtWork(r, c, 2, None, Attending(r, c, Claimed, false, false)))
    ensures EnabledProcessing(w, Hash(1))
    ensures Shows(ApplyProcessing(r, w, Hash(1)), AtWork(r, c, 2, None, Attending(r, c, Hashed, true, false)))
  {}

  lemma Identifying(r: Rules, c: Content, w: World)
    requires c != [] && Shows(w, AtWork(r, c, 2, None, Attending(r, c, Hashed, true, false)))
    ensures EnabledProcessing(w, RecordIdentity(1))
    ensures Shows(ApplyProcessing(r, w, RecordIdentity(1)), AtWork(r, c, 3, None, Attending(r, c, Identified, true, false)))
  {}

  lemma Copying(r: Rules, c: Content, w: World)
    requires c != [] && Shows(w, AtWork(r, c, 3, None, Attending(r, c, Identified, true, false)))
    ensures EnabledProcessing(w, Copy(1))
    ensures Shows(ApplyProcessing(r, w, Copy(1)), AtWork(r, c, 3, None, Attending(r, c, Copied, true, true)))
  {}

  lemma Renaming(r: Rules, c: Content, w: World)
    requires c != [] && Shows(w, AtWork(r, c, 3, None, Attending(r, c, Copied, true, true)))
    ensures EnabledProcessing(w, Rename(1))
    ensures Shows(ApplyProcessing(r, w, Rename(1)), AtWork(r, c, 3, Some(c), Attending(r, c, Renamed, true, true)))
  {}

  lemma Syncing(r: Rules, c: Content, w: World)
    requires c != [] && Shows(w, AtWork(r, c, 3, Some(c), Attending(r, c, Renamed, true, true)))
    ensures EnabledProcessing(w, SyncOriginal(1))
    ensures Shows(ApplyProcessing(r, w, SyncOriginal(1)), AtWork(r, c, 3, Some(c), Attending(r, c, Synced, true, true)))
  {}

  lemma Verifying(r: Rules, c: Content, w: World)
    requires c != [] && Shows(w, AtWork(r, c, 3, Some(c), Attending(r, c, Synced, true, true)))
    ensures EnabledProcessing(w, Verify(1))
    ensures Shows(ApplyProcessing(r, w, Verify(1)), AtWork(r, c, 3, Some(c), Attending(r, c, Verified, true, true)))
  {}

  lemma Marking(r: Rules, c: Content, w: World)
    requires c != [] && Shows(w, AtWork(r, c, 3, Some(c), Attending(r, c, Verified, true, true)))
    ensures EnabledProcessing(w, RecordPrepared(1))
    ensures Shows(ApplyProcessing(r, w, RecordPrepared(1)), AtWork(r, c, 4, Some(c), Attending(r, c, Marked, true, true)))
  {}

  lemma Checking(r: Rules, c: Content, w: World)
    requires c != [] && Shows(w, AtWork(r, c, 4, Some(c), Attending(r, c, Marked, true, true)))
    ensures EnabledProcessing(w, CheckDuplicate(1))
    ensures Shows(ApplyProcessing(r, w, CheckDuplicate(1)), AtWork(r, c, 4, Some(c), Attending(r, c, Checked, true, true)))
  {}

  lemma Deriving(r: Rules, c: Content, w: World)
    requires c != [] && Shows(w, AtWork(r, c, 4, Some(c), Attending(r, c, Checked, true, true)))
    ensures EnabledProcessing(w, Derive(1, None, None))
    ensures Shows(ApplyProcessing(r, w, Derive(1, None, None)),
                  AtWork(r, c, 4, Some(c), Attending(r, c, Derived, true, true)))
  {}

  lemma PublishedScene(r: Rules, c: Content, w: World)
    requires c != [] && Shows(w, AtWork(r, c, 4, Some(c), Attending(r, c, Derived, true, true)))
    ensures At(w, 1, Processing, Derived) && CanPublish(w.db, w.attempts[1].u, 1)
    ensures var p := PublishedWorld(w, 1);
      Shows(Moved(w, 1, Finished).(db := p.db, published := p.published), InGallery(r, c))
  {
    hide Row;
    Rows(r, c);
  }

  lemma Publishing(r: Rules, c: Content, w: World)
    requires c != [] && Shows(w, AtWork(r, c, 4, Some(c), Attending(r, c, Derived, true, true)))
    ensures EnabledProcessing(w, Publish(1))
    ensures Shows(ApplyProcessing(r, w, Publish(1)), InGallery(r, c))
  {
    hide Shows, Row, PublishedWorld, At;
    PublishedScene(r, c, w);
  }

  lemma ReclaimedScene(r: Rules, c: Content, w: World)
    requires Shows(w, InGallery(r, c))
    ensures Shows(WithJob(w, 0, Row(r, c, 6)).(attempts := w.attempts[2 := Cleaner(r, c, Claimed)]),
                  Tidying(r, c, 6, Whole(c), Claimed))
  {
    hide Row;
  }

  lemma ReclaimIsPossible(r: Rules, c: Content, w: World)
    requires Shows(w, InGallery(r, c))
    ensures EnabledAttempt(r, w, Claim(2, 0, Cleanup, Cleanup, 0, Deadline(r)))
    ensures 0 in w.db.jobs && w.db.jobs[0] == Row(r, c, 5)
  {
    hide Row;
    Rows(r, c);
  }

  lemma Reclaiming(r: Rules, c: Content, w: World)
    requires c != [] && Shows(w, InGallery(r, c))
    ensures EnabledAttempt(r, w, Claim(2, 0, Cleanup, Cleanup, 0, Deadline(r)))
    ensures Shows(ApplyAttempt(r, w, Claim(2, 0, Cleanup, Cleanup, 0, Deadline(r))),
                  Tidying(r, c, 6, Whole(c), Claimed))
  {
    hide Row, Shows, Tidying, InGallery, EnabledAttempt;
    Rows(r, c);
    ReclaimIsPossible(r, c, w);
    ReclaimedScene(r, c, w);
  }

  lemma Keeping(r: Rules, c: Content, w: World)
    requires c != [] && Shows(w, Tidying(r, c, 6, Whole(c), Claimed))
    ensures EnabledRemoval(w, KeepArtifacts(2))
    ensures Shows(ApplyRemoval(w, KeepArtifacts(2)), Tidying(r, c, 6, Whole(c), Swept))
  {}

  lemma Looking(r: Rules, c: Content, w: World)
    requires c != [] && Shows(w, Tidying(r, c, 6, Whole(c), Swept))
    ensures EnabledRemoval(w, LookForSource(2))
    ensures Shows(ApplyRemoval(w, LookForSource(2)), Tidying(r, c, 6, Whole(c), Terminating))
  {}

  lemma Asking(r: Rules, c: Content, w: World)
    requires c != [] && Shows(w, Tidying(r, c, 6, Whole(c), Terminating))
    ensures EnabledRemoval(w, ReadBeforeDelete(2))
    ensures Shows(ApplyRemoval(w, ReadBeforeDelete(2)), Tidying(r, c, 6, Whole(c), Authorised))
  {}

  lemma Deleting(r: Rules, c: Content, w: World)
    requires c != [] && Shows(w, Tidying(r, c, 6, Whole(c), Authorised))
    ensures EnabledRemoval(w, Delete(2, true, true))
    ensures Shows(ApplyRemoval(w, Delete(2, true, true)), Tidying(r, c, 6, NoSource, Removed))
  {}

  lemma Confirming(r: Rules, c: Content, w: World)
    requires c != [] && Shows(w, Tidying(r, c, 6, NoSource, Removed))
    ensures EnabledRemoval(w, ConfirmGone(2))
    ensures Shows(ApplyRemoval(w, ConfirmGone(2)), Tidying(r, c, 6, NoSource, Gone))
  {}

  lemma ClosedScene(r: Rules, c: Content, w: World)
    requires c != [] && Shows(w, Tidying(r, c, 6, NoSource, Gone))
    ensures Removing(w, 2, Gone) && Shows(Closed(w, 2), Tidying(r, c, 7, NoSource, Finished))
  {
    hide Row;
    Rows(r, c);
  }

  lemma Finishing(r: Rules, c: Content, w: World)
    requires c != [] && Shows(w, Tidying(r, c, 6, NoSource, Gone))
    ensures EnabledRemoval(w, Finish(2))
    ensures Shows(ApplyRemoval(w, Finish(2)), Tidying(r, c, 7, NoSource, Finished))
  {
    hide Shows, Row, Closed, Removing;
    ClosedScene(r, c, w);
  }

  lemma BecomesDurable(r: Rules, c: Content, w: World) returns (x: World)
    requires c != [] && Reached(r, w) && Shows(w, InTransit(r, c, map[]))
    ensures Reached(r, x) && Shows(x, Durable(r, c))
  {
    hide Reached, Shows, InTransit, Durable, AtWork, InGallery, Tidying, Deadline;
    hide EnabledBarrier, EnabledAttempt, EnabledProcessing, EnabledRemoval;
    hide ApplyBarrier, ApplyAttempt, ApplyProcessing, ApplyRemoval;
    x := w;
    Read(r, c, x);
    GoBarrier(r, x, BarrierRead(0, 0));
    x := ApplyBarrier(x, BarrierRead(0, 0));
    StatSeen(r, c, x);
    GoBarrier(r, x, BarrierStat(0));
    x := ApplyBarrier(x, BarrierStat(0));
    Flush(r, c, x);
    GoBarrier(r, x, BarrierFlush(0));
    x := ApplyBarrier(x, BarrierFlush(0));
    Promotion(r, c, x);
    GoBarrier(r, x, BarrierPromote(0));
    x := ApplyBarrier(x, BarrierPromote(0));
  }

  lemma GetsIdentified(r: Rules, c: Content, w: World) returns (x: World)
    requires c != [] && r.supported(c) && Reached(r, w) && Shows(w, Durable(r, c))
    ensures Reached(r, x) && Shows(x, AtWork(r, c, 3, Some(c), Attending(r, c, Renamed, true, true)))
  {
    hide Reached, Shows, InTransit, Durable, AtWork, InGallery, Tidying, Deadline;
    hide EnabledBarrier, EnabledAttempt, EnabledProcessing, EnabledRemoval;
    hide ApplyBarrier, ApplyAttempt, ApplyProcessing, ApplyRemoval;
    x := w;
    Claiming(r, c, x);
    GoAttempt(r, x, Claim(1, 0, Pending, Processing, 0, Deadline(r)));
    x := ApplyAttempt(r, x, Claim(1, 0, Pending, Processing, 0, Deadline(r)));
    Hashing(r, c, x);
    GoProcessing(r, x, Hash(1));
    x := ApplyProcessing(r, x, Hash(1));
    Identifying(r, c, x);
    GoProcessing(r, x, RecordIdentity(1));
    x := ApplyProcessing(r, x, RecordIdentity(1));
    Copying(r, c, x);
    GoProcessing(r, x, Copy(1));
    x := ApplyProcessing(r, x, Copy(1));
    Renaming(r, c, x);
    GoProcessing(r, x, Rename(1));
    x := ApplyProcessing(r, x, Rename(1));
  }

  lemma GetsPublished(r: Rules, c: Content, w: World) returns (x: World)
    requires c != [] && Reached(r, w) && Shows(w, AtWork(r, c, 3, Some(c), Attending(r, c, Renamed, true, true)))
    ensures Reached(r, x) && Shows(x, InGallery(r, c))
  {
    hide Reached, Shows, InTransit, Durable, AtWork, InGallery, Tidying, Deadline;
    hide EnabledBarrier, EnabledAttempt, EnabledProcessing, EnabledRemoval;
    hide ApplyBarrier, ApplyAttempt, ApplyProcessing, ApplyRemoval;
    x := w;
    Syncing(r, c, x);
    GoProcessing(r, x, SyncOriginal(1));
    x := ApplyProcessing(r, x, SyncOriginal(1));
    Verifying(r, c, x);
    GoProcessing(r, x, Verify(1));
    x := ApplyProcessing(r, x, Verify(1));
    Marking(r, c, x);
    GoProcessing(r, x, RecordPrepared(1));
    x := ApplyProcessing(r, x, RecordPrepared(1));
    Checking(r, c, x);
    GoProcessing(r, x, CheckDuplicate(1));
    x := ApplyProcessing(r, x, CheckDuplicate(1));
    Deriving(r, c, x);
    GoProcessing(r, x, Derive(1, None, None));
    x := ApplyProcessing(r, x, Derive(1, None, None));
    Publishing(r, c, x);
    GoProcessing(r, x, Publish(1));
    x := ApplyProcessing(r, x, Publish(1));
  }

  lemma GetsCompleted(r: Rules, c: Content, w: World) returns (x: World)
    requires c != [] && Reached(r, w) && Shows(w, InGallery(r, c))
    ensures Reached(r, x) && Shows(x, Tidying(r, c, 7, NoSource, Finished))
  {
    hide Reached, Shows, InTransit, Durable, AtWork, InGallery, Tidying, Deadline;
    hide EnabledBarrier, EnabledAttempt, EnabledProcessing, EnabledRemoval;
    hide ApplyBarrier, ApplyAttempt, ApplyProcessing, ApplyRemoval;
    x := w;
    Reclaiming(r, c, x);
    GoAttempt(r, x, Claim(2, 0, Cleanup, Cleanup, 0, Deadline(r)));
    x := ApplyAttempt(r, x, Claim(2, 0, Cleanup, Cleanup, 0, Deadline(r)));
    Keeping(r, c, x);
    GoRemoval(r, x, KeepArtifacts(2));
    x := ApplyRemoval(x, KeepArtifacts(2));
    Looking(r, c, x);
    GoRemoval(r, x, LookForSource(2));
    x := ApplyRemoval(x, LookForSource(2));
    Asking(r, c, x);
    GoRemoval(r, x, ReadBeforeDelete(2));
    x := ApplyRemoval(x, ReadBeforeDelete(2));
    Deleting(r, c, x);
    GoRemoval(r, x, Delete(2, true, true));
    x := ApplyRemoval(x, Delete(2, true, true));
    Confirming(r, c, x);
    GoRemoval(r, x, ConfirmGone(2));
    x := ApplyRemoval(x, ConfirmGone(2));
    Finishing(r, c, x);
    GoRemoval(r, x, Finish(2));
    x := ApplyRemoval(x, Finish(2));
  }

  lemma LastScene(r: Rules, c: Content, w: World)
    requires Shows(w, Tidying(r, c, 7, NoSource, Finished))
    ensures 0 in w.db.jobs && w.db.jobs[0].status == Complete && w.db.jobs[0].result == Some(0)
    ensures 0 in w.db.media && w.db.media[0].sha == c
    ensures Path(0, Original) in w.live && w.live[Path(0, Original)] == c && SourceOf(w.sources, 0) == NoSource
  {}

  /** A supported upload can be admitted, made durable, published and completed. */
  lemma UploadsCanComplete(r: Rules, c: Content) returns (x: World)
    requires c != [] && r.supported(c)
    ensures Reached(r, x)
    ensures 0 in x.db.jobs && x.db.jobs[0].status == Complete && x.db.jobs[0].result == Some(0)
    ensures 0 in x.db.media && x.db.media[0].sha == c
    ensures Path(0, Original) in x.live && x.live[Path(0, Original)] == c && SourceOf(x.sources, 0) == NoSource
  {
    hide Reached, Shows, InTransit, Durable, AtWork, InGallery, Tidying;
    x := Sending(r, c);
    x := BecomesDurable(r, c, x);
    x := GetsIdentified(r, c, x);
    x := GetsPublished(r, c, x);
    x := GetsCompleted(r, c, x);
    LastScene(r, c, x);
  }
}
