/** What clients are told about an upload, and that it is never taken back. */
module Verdicts {
  import opened Records
  import opened UploadJobs
  import opened World
  import opened Invariant
  import opened Frames
  import opened History
  import opened IngestTheorems

  /** The public vocabulary; every verdict but the first three is final. */
  datatype Verdict = Unknown | InTransfer | InProgress | Shown | Duplicate | GivenUp | Rejected

  function PublicState(row: Option<Job>): Verdict {
    if row == None then Unknown
    else
      var j := row.value;
      match j.status
      case Uploading => if j.cancelledAt.Some? then GivenUp else InTransfer
      case Pending => InProgress
      case Processing => InProgress
      case Cleanup => if j.result.Some? && j.result.value != j.mediaId then Duplicate else Shown
      case Complete => if j.result.Some? && j.result.value != j.mediaId then Duplicate else Shown
      case Discarding => if j.reason == Cancelled || j.reason == Unobservable then GivenUp else Rejected
      case Discarded => if j.reason == Cancelled || j.reason == Unobservable then GivenUp else Rejected
  }

  predicate IsFinal(v: Verdict) {
    v == Shown || v == Duplicate || v == GivenUp || v == Rejected
  }

  /** Once reported published, duplicate, cancelled or failed, a row keeps that verdict while it exists. */
  lemma VerdictsAreFinal(r: Rules, ws: seq<World>, ss: seq<Step>, i: nat, j: nat, u: UploadId)
    requires IsRun(r, ws, ss) && i <= j < |ws| && SameRow(ws[i], ws[j], u)
    requires IsFinal(PublicState(Some(ws[i].db.jobs[u])))
    ensures PublicState(Some(ws[j].db.jobs[u])) == PublicState(Some(ws[i].db.jobs[u]))
  {
    hide Inv, Initial, Enabled, Apply, SourceIntact;
    RowEvolves(r, ws, ss, i, j, u);
    RunKeepsInv(r, ws, ss, i);
    RunKeepsInv(r, ws, ss, j);
    RowFacts(ws[i], u);
    RowFacts(ws[j], u);
  }

  /** Failure is only ever reported for what the bytes are; a guest is told "cancelled" only for bytes never promised. */
  lemma FailureMeansRejection(r: Rules, ws: seq<World>, ss: seq<Step>, i: nat, u: UploadId)
    requires IsRun(r, ws, ss) && i < |ws| && u in ws[i].db.jobs
    ensures PublicState(Some(ws[i].db.jobs[u])) == Rejected <==>
              Condemned(ws[i].db.jobs[u].status) && ContentRejection(ws[i].db.jobs[u].reason)
    ensures PublicState(Some(ws[i].db.jobs[u])) == GivenUp ==>
              ws[i].db.jobs[u].completedAt == None && ws[i].db.jobs[u].mediaId !in ws[i].acked
  {
    hide Inv, Initial, Enabled, Apply, SourceIntact;
    RunKeepsInv(r, ws, ss, i);
    RowFacts(ws[i], u);
    if ws[i].db.jobs[u].mediaId in ws[i].acked { AckFacts(ws[i], u); }
  }

  /** What makes a refusal of EnsureDurable final, read off the row. */
  predicate RefusedRow(j: Job) {
    Condemned(j.status) || (j.status == Uploading && j.cancelledAt.Some?)
  }

  /** A refusal by the row holds for that row: it is refused from then on, and never promoted. */
  lemma RefusalsAreFinal(r: Rules, ws: seq<World>, ss: seq<Step>, i: nat, j: nat, u: UploadId)
    requires IsRun(r, ws, ss) && i <= j < |ws| && SameRow(ws[i], ws[j], u) && RefusedRow(ws[i].db.jobs[u])
    ensures RefusedRow(ws[j].db.jobs[u]) && !CanPromote(ws[j].db, u)
  {
    hide Inv, Initial, Enabled, Apply, SourceIntact;
    RowEvolves(r, ws, ss, i, j, u);
    RunKeepsInv(r, ws, ss, j);
    RowFacts(ws[j], u);
  }

  /** The publication transaction never meets a media row of its own id: its insert cannot violate the key. */
  lemma PublicationsNeverCollide(r: Rules, ws: seq<World>, ss: seq<Step>, i: nat, t: Token)
    requires IsRun(r, ws, ss) && i < |ws|
    requires At(ws[i], t, Processing, Derived) && CanPublish(ws[i].db, ws[i].attempts[t].u, t)
    ensures ws[i].attempts[t].job.mediaId !in ws[i].db.media
  {
    hide Inv, Initial, Enabled, Apply;
    RunKeepsInv(r, ws, ss, i);
    AttemptFacts(ws[i], t);
    GalleryIsPublished(ws[i]);
  }

  lemma GalleryIsPublished(w: World)
    requires Inv(w)
    ensures forall m | m in w.db.media :: m in w.published
  {}
}
