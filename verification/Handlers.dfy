/**
  The HTTP side of the queue: public cancellation, the one path that removes tus
  files, the incomplete-upload janitor, and the two places that may report success.
  Other actors run between any two database statements.
  */
module Handlers {
  import opened Records
  import opened UploadFiles
  import opened Barrier
  import U = UploadJobs
  import S = Store

  predicate Owned(row: Option<Job>) {
    row.Some? && (row.value.status == Uploading || Working(row.value.status))
  }

  // ---- public DELETE ----

  datatype Response = NoContent | Conflict | ServerError

  /**
    204 means there is no upload to keep, or its cancellation is on record while it
    was still being sent; 409 means it had left that stage, and nothing was written.
    */
  method HandleTusDelete(store: S.Store, files: UploadFiles, u: UploadId, now: Time)
    returns (r: Response, ghost before: U.Db)
    modifies store, files
    ensures r == NoContent ==>
              u !in store.jobs || (store.jobs[u].status == Uploading && store.jobs[u].cancelledAt.Some?)
    ensures r == Conflict ==> u !in store.jobs || store.jobs[u].status != Uploading
    ensures r != NoContent ==> store.State() == before
    ensures r == NoContent ==>
              store.State() == if u in before.jobs then before.(jobs := before.jobs[u := U.CancelRow(before.jobs[u], now)])
                               else before
  {
    before := store.State();
    var failed := files.DatabaseFails();
    if failed { return ServerError, before; }
    var row := GetUploadJob(store, files, u);
    before := store.State();
    if row == None { return NoContent, before; }
    if row.value.status != Uploading { return Conflict, before; }
    Others(store);
    before := store.State();
    failed := files.DatabaseFails();
    if failed { return ServerError, before; }
    var outcome := store.RequestCancellation(u, now);
    r := if outcome == S.Ok then NoContent else Conflict;
  }

  // ---- removal ----

  /** The read that authorises a removal, and the removal; the queue may move in between. */
  predicate TerminatesUnowned(trace: seq<Event>) {
    forall i | 0 <= i < |trace| && trace[i].Terminated? ::
      i >= 1 && trace[i - 1].ReadRow? && !Owned(trace[i - 1].row)
  }

  method Terminate(store: S.Store, files: UploadFiles, u: UploadId) returns (ok: bool)
    requires TerminatesUnowned(files.log)
    modifies store, files
    ensures old(files.log) <= files.log && TerminatesUnowned(files.log)
    ensures |files.log| <= |old(files.log)| + 2
    ensures forall i | |old(files.log)| <= i < |files.log| && files.log[i].Terminated? :: i == |old(files.log)| + 1
    ensures |files.log| == |old(files.log)| + 1 ==>
              var e := files.log[|old(files.log)|];
              !ok && (e == DatabaseFailed || (e.ReadRow? && Owned(e.row)))
    ensures |files.log| > |old(files.log)|
    ensures |files.log| == |old(files.log)| + 2 ==> files.log[|old(files.log)| + 1] == Terminated(ok)
  {
    var failed := files.DatabaseFails();
    if failed { return false; }
    var row := GetUploadJob(store, files, u);
    if Owned(row) { return false; }
    Others(store);
    ok := files.Terminate();
  }

  /** The janitor issues a removal only after claiming the row itself, or after finding that there is none. */
  predicate ClaimedFirst(trace: seq<Event>) {
    forall i | 0 <= i < |trace| && trace[i].Terminated? ::
      || (i == 2 && trace[0] == ClaimedForDiscard(true))
      || (i == 3 && trace[0] == ClaimedForDiscard(false) && trace[1] == ReadRow(None))
  }

  method ExpireIncomplete(store: S.Store, files: UploadFiles, u: UploadId, now: Time)
    requires files.log == []
    modifies store, files
    ensures TerminatesUnowned(files.log) && ClaimedFirst(files.log)
    ensures |files.log| == 1 ==> files.log[0] == DatabaseFailed
  {
    var failed := files.DatabaseFails();
    if failed { return; }
    var claimed := store.ClaimUploadingForDiscard(u, now);
    files.Note(ClaimedForDiscard(claimed == S.Ok));
    if claimed != S.Ok {
      failed := files.DatabaseFails();
      if failed { return; }
      var row := GetUploadJob(store, files, u);
      if row.Some? { return; }
    }
    Others(store);
    var _ := Terminate(store, files, u);
  }

  // ---- reporting success ----

  datatype Reply = Allow | Refuse | RetryLater

  function VerdictFor(r: Reply): Verdict {
    match r case Allow => Success case Refuse => Final case RetryLater => Transient
  }

  /** The final PATCH succeeds only on a row that is durable at that moment. */
  method PreFinish(store: S.Store, files: UploadFiles, u: UploadId, complete: bool, now: Time) returns (r: Reply)
    requires files.log == []
    modifies store, files
    ensures r == Allow ==> u in store.jobs && Durable(Some(store.jobs[u]))
    ensures !complete ==> r == Refuse && files.log == []
    ensures complete ==> Concludes(VerdictFor(r), files.log)
  {
    if !complete { return Refuse; }
    var v := MakeDurable(store, files, u, now);
    r := match v case Success => Allow case Final => Refuse case Transient => RetryLater;
  }

  datatype Fence = Forward | FenceGone | FenceRetry

  /**
    A request is forwarded only if no row was being sent, or its source was seen
    incomplete, or the barrier has just made it durable. An unreadable row is never
    a reason to forward.
    */
  method FenceCompletedUpload(store: S.Store, files: UploadFiles, barrier: UploadFiles, ready: bool, u: UploadId, now: Time)
    returns (r: Fence)
    requires files.log == [] && barrier.log == [] && files != barrier
    modifies store, files, barrier
    ensures r == Forward ==>
              && ready && |files.log| >= 1 && files.log[0].ReadRow?
              && var row := files.log[0].row;
                 || row == None || row.value.status != Uploading
                 || (|files.log| == 2 && files.log[1].Statted? && files.log[1].answer != Present(row.value.expectedSize))
                 || (u in store.jobs && Durable(Some(store.jobs[u])))
    ensures |files.log| == 1 && files.log[0].ReadRow? ==>
              r == Forward && (files.log[0].row == None || files.log[0].row.value.status != Uploading)
    ensures |barrier.log| > 0 ==>
              Concludes(if r == Forward then Success else if r == FenceGone then Final else Transient, barrier.log)
    ensures r == FenceGone ==>
              |files.log| == 2 && files.log[0].ReadRow? && files.log[0].row.Some?
              && files.log[1] == Statted(Data, Present(files.log[0].row.value.expectedSize))
  {
    if !ready { return FenceRetry; }
    var failed := files.DatabaseFails();
    if failed { return FenceRetry; }
    var row := GetUploadJob(store, files, u);
    if row == None || row.value.status != Uploading { return Forward; }
    var answer := files.Stat(Data);
    if answer != Present(row.value.expectedSize) { return Forward; }
    var v := MakeDurable(store, barrier, u, now);
    r := match v case Success => Forward case Final => FenceGone case Transient => FenceRetry;
  }
}
