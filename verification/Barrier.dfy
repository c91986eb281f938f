/** The durability barrier as one procedure, run while other actors keep changing the queue. */
module Barrier {
  import opened Records
  import opened UploadFiles
  import U = UploadJobs
  import S = Store

  /** nil, an error wrapping ErrDurabilityFinal, or any other error. */
  datatype Verdict = Success | Final | Transient

  type Trace = seq<Event>

  /** Any other actors, any number of statements. */
  method Others(store: S.Store)
    modifies store
  {
    store.jobs := *;
    store.media := *;
    store.bySha := *;
  }

  method GetUploadJob(store: S.Store, files: UploadFiles, u: UploadId) returns (row: Option<Job>)
    modifies store, files
    ensures row == if u in store.jobs then Some(store.jobs[u]) else None
    ensures files.log == old(files.log) + [ReadRow(row)]
  {
    Others(store);
    row := if u in store.jobs then Some(store.jobs[u]) else None;
    files.Note(ReadRow(row));
  }

  /** Everything the commit relies on, in the order that makes it safe. */
  predicate Barred(trace: Trace) {
    && |trace| == 5
    && trace[0].ReadRow? && trace[0].row.Some? && trace[0].row.value.status == Uploading
    && trace[1] == Statted(Data, Present(trace[0].row.value.expectedSize))
    && trace[2] == Flushed(Data, Stable)
    && (trace[3] == Flushed(Info, Stable) || trace[3] == Flushed(Info, Missing))
    && trace[4] == DirSynced(true)
  }

  predicate Durable(row: Option<Job>) {
    row.Some? && (Working(row.value.status) || Published(row.value.status))
  }

  /** What a row says when its upload can never be made durable. */
  predicate Refused(row: Option<Job>) {
    row == None || Condemned(row.value.status) || (row.value.status == Uploading && row.value.cancelledAt.Some?)
  }

  function Last(trace: Trace): Event
    requires |trace| > 0
  {
    trace[|trace| - 1]
  }

  /** The commit comes last, and only after the whole barrier. */
  predicate CommitsBehindBarrier(trace: Trace) {
    forall i | 0 <= i < |trace| && trace[i] == Committed :: |trace| == 6 && i == 5 && Barred(trace[..5])
  }

  /** The source is not the admitted one, by the size its row was admitted with. */
  predicate Misfit(trace: Trace) {
    && |trace| == 2 && trace[0].ReadRow? && trace[0].row.Some? && trace[1].Statted?
    && trace[1].answer != Present(trace[0].row.value.expectedSize)
  }

  predicate Sent(e: Event) {
    e.ReadRow? && e.row.Some? && e.row.value.status == Uploading
  }

  /** What was asked, in order: nothing follows an answer that ends the operation. */
  predicate Orderly(trace: Trace) {
    && 0 < |trace| <= 7
    && (trace[0].ReadRow? || trace[0] == DatabaseFailed)
    && (|trace| > 1 ==> Sent(trace[0]) && trace[1].Statted? && trace[1].part == Data)
    && (|trace| > 2 ==>
          trace[1] == Statted(Data, Present(trace[0].row.value.expectedSize)) && trace[2].Flushed? && trace[2].part == Data)
    && (|trace| > 3 ==> trace[2].outcome == Stable && trace[3].Flushed? && trace[3].part == Info)
    && (|trace| > 4 ==> trace[3].outcome != Failed && trace[4].DirSynced?)
    && (|trace| > 5 ==>
          trace[4] == DirSynced(true)
          && (trace[5] == Committed || trace[5] == PromotionLost || trace[5] == DatabaseFailed))
    && (|trace| > 6 ==> trace[5] == PromotionLost && (trace[6].ReadRow? || trace[6] == DatabaseFailed))
  }

  /** ... and the last answer does end it. */
  predicate Ended(trace: Trace) {
    && Orderly(trace)
    && (|trace| == 1 ==> !Sent(trace[0]))
    && (|trace| == 2 ==> trace[1].answer != Present(trace[0].row.value.expectedSize))
    && (|trace| == 3 ==> trace[2].outcome != Stable)
    && (|trace| == 4 ==> trace[3].outcome == Failed)
    && (|trace| == 5 ==> !trace[4].ok)
    && (|trace| == 6 ==> trace[5] != PromotionLost)
  }

  predicate Concludes(r: Verdict, trace: Trace) {
    && Ended(trace)
    && CommitsBehindBarrier(trace)
    && (r == Success <==> Last(trace) == Committed || (Last(trace).ReadRow? && Durable(Last(trace).row)))
    && (r == Final <==> (Last(trace).ReadRow? && Refused(Last(trace).row)) || Misfit(trace))
  }

  /** Stat, then file, sidecar and directory to stable storage; None when all of it succeeded. */
  method FlushSource(files: UploadFiles, j: Job) returns (refusal: Option<Verdict>)
    requires files.log == [ReadRow(Some(j))] && j.status == Uploading
    modifies files
    ensures refusal == None ==> Barred(files.log) && Orderly(files.log) && Committed !in files.log
    ensures refusal.Some? ==> refusal.value != Success && Concludes(refusal.value, files.log)
  {
    var answer := files.Stat(Data);
    if answer != Present(j.expectedSize) {
      return Some(Final);
    }
    var data := files.Flush(Data);
    if data != Stable {
      return Some(Transient);
    }
    var info := files.Flush(Info);
    if info == Failed {
      return Some(Transient);
    }
    var synced := files.SyncDir();
    if !synced {
      return Some(Transient);
    }
    return None;
  }

  /** The conditional commit, and what it means when it matched no row. */
  method Commit(store: S.Store, files: UploadFiles, u: UploadId, now: Time) returns (r: Verdict)
    requires Barred(files.log) && Orderly(files.log) && Committed !in files.log
    modifies store, files
    ensures Concludes(r, files.log)
    ensures r == Success ==> u in store.jobs && Durable(Some(store.jobs[u]))
  {
    Others(store);
    var failed := files.DatabaseFails();
    if failed {
      return Transient;
    }
    var promoted := store.PromoteToPending(u, now);
    if promoted == S.Ok {
      files.Note(Committed);
      assert files.log[..5] == old(files.log);
      return Success;
    }
    files.Note(PromotionLost);
    r := ClassifyLostPromotion(store, files, u);
  }

  method MakeDurable(store: S.Store, files: UploadFiles, u: UploadId, now: Time) returns (r: Verdict)
    requires files.log == []
    modifies store, files
    ensures Concludes(r, files.log)
    ensures r == Success ==> u in store.jobs && Durable(Some(store.jobs[u]))
  {
    var failed := files.DatabaseFails();
    if failed {
      return Transient;
    }
    var row := GetUploadJob(store, files, u);
    if row == None {
      return Final;
    }
    var j := row.value;
    match j.status {
      case Uploading =>
      case Discarding => return Final;
      case Discarded => return Final;
      case _ => return Success;
    }

    var refusal := FlushSource(files, j);
    if refusal.Some? {
      return refusal.value;
    }
    r := Commit(store, files, u, now);
  }

  /** A promotion that matched no row: only the row itself can say what that means. */
  method ClassifyLostPromotion(store: S.Store, files: UploadFiles, u: UploadId) returns (r: Verdict)
    requires |files.log| == 6 && Orderly(files.log) && files.log[5] == PromotionLost && Committed !in files.log
    modifies store, files
    ensures Concludes(r, files.log)
    ensures r == Success ==> u in store.jobs && Durable(Some(store.jobs[u]))
  {
    var failed := files.DatabaseFails();
    if failed {
      return Transient;
    }
    var row := GetUploadJob(store, files, u);
    if row == None {
      return Final;
    }
    match row.value.status {
      case Discarding => return Final;
      case Discarded => return Final;
      case Uploading => return if row.value.cancelledAt.Some? then Final else Transient;
      case _ => return Success;
    }
  }
}
