/**
  The statements a reconciler pass issues. Other actors run before each of them, and
  each is on record with the table it met and the table it left.
  */
module Reconciliation {
  import opened Records
  import F = UploadFiles
  import U = UploadJobs
  import S = Store
  import B = Barrier

  const MAX_STALE_UPLOADS_PER_PASS := 200

  datatype Statement =
    | SweepCancelled(idleBefore: Time)
    | MarkUnobservable(u: UploadId)
    | DeleteTerminal(u: UploadId)
    | ReopenTerminal(u: UploadId, target: Status)
    | CreateUploading(u: UploadId, m: MediaId, size: nat, declared: Option<Digest>)

  /** Done, or it matched no row, or the database failed. */
  datatype Result = Done | Unmatched | Faulted

  datatype Deed = Deed(s: Statement, at: Time, result: Result, before: U.Db, after: U.Db)

  predicate Matches(db: U.Db, s: Statement) {
    match s
    case SweepCancelled(_) => true
    case MarkUnobservable(u) => U.CanMarkUnobservable(db, u)
    case DeleteTerminal(u) => U.IsTerminal(db, u)
    case ReopenTerminal(u, _) => U.IsTerminal(db, u)
    case CreateUploading(u, m, size, _) => U.CanCreate(db, u, m, size)
  }

  function Effect(db: U.Db, s: Statement, at: Time): U.Db
    requires Matches(db, s)
  {
    match s
    case SweepCancelled(idleBefore) => U.SweepCancelled(db, idleBefore, at)
    case MarkUnobservable(u) => db.(jobs := db.jobs[u := U.UnobservableRow(db.jobs[u], at)])
    case DeleteTerminal(u) => db.(jobs := db.jobs - {u})
    case ReopenTerminal(u, target) => db.(jobs := db.jobs[u := U.ReopenRow(db.jobs[u], target, at)])
    case CreateUploading(u, m, size, declared) => db.(jobs := db.jobs[u := U.NewJob(m, size, declared, at)])
  }

  predicate Lawful(d: Deed) {
    && (d.result == Done ==> Matches(d.before, d.s) && d.after == Effect(d.before, d.s, d.at))
    && (d.result == Unmatched ==> !Matches(d.before, d.s))
    && (d.result != Done ==> d.after == d.before)
  }

  /** A row the workers own, whether to publish it or to remove it. */
  predicate InWork(j: Job) {
    Working(j.status) || j.status == Cleanup || j.status == Discarding
  }

  /** Rows of this upload only, or, for the sweep, cancelled rows only. */
  predicate Concerns(s: Statement, u: UploadId, j: Job) {
    if s.SweepCancelled? then j.status == Uploading && j.cancelledAt.Some? else s.u == u
  }

  /** A statement takes nothing from the workers, and touches no row it does not concern. */
  method IssueAt(store: S.Store, s: Statement, at: Time) returns (result: Result, ghost d: Deed)
    modifies store
    ensures d.s == s && d.at == at && d.result == result && Lawful(d) && store.State() == d.after
    ensures forall u | u in d.before.jobs && (InWork(d.before.jobs[u]) || !Concerns(s, u, d.before.jobs[u])) ::
              u in store.jobs && store.jobs[u] == d.before.jobs[u]
  {
    B.Others(store);
    ghost var before := store.State();
    var fault: bool := *;
    if fault {
      return Faulted, Deed(s, at, Faulted, before, before);
    }
    var outcome := S.Ok;
    match s {
      case SweepCancelled(idleBefore) => store.ClaimCancelledForDiscard(idleBefore, at);
      case MarkUnobservable(u) => outcome := store.MarkUnobservable(u, at);
      case DeleteTerminal(u) =>
        outcome := if u in store.jobs && Terminal(store.jobs[u].status) then S.Ok else S.NotClaimed;
        store.DeleteUploadJob(u);
      case ReopenTerminal(u, target) => outcome := store.ReopenTerminal(u, target, at);
      case CreateUploading(u, m, size, declared) =>
        var created := store.CreateUploadingJob(u, m, size, declared, at);
        outcome := if created then S.Ok else S.NotClaimed;
    }
    result := if outcome == S.Ok then Done else Unmatched;
    d := Deed(s, at, result, before, store.State());
  }

  /** ... at whatever time it is by then. */
  method Issue(store: S.Store, s: Statement) returns (result: Result, ghost d: Deed)
    modifies store
    ensures d.s == s && d.result == result && Lawful(d) && store.State() == d.after
    ensures forall u | u in d.before.jobs && (InWork(d.before.jobs[u]) || !Concerns(s, u, d.before.jobs[u])) ::
              u in store.jobs && store.jobs[u] == d.before.jobs[u]
  {
    var at: Time := *;
    result, d := IssueAt(store, s, at);
  }

  /** sweepCancelled: cancelled uploads that were left alone for one interval go to discard. */
  method Sweep(store: S.Store, interval: nat) returns (result: Result, ghost d: Deed)
    modifies store
    ensures d.s == SweepCancelled(d.at - interval) && d.result == result && Lawful(d) && store.State() == d.after
  {
    var now: Time := *;
    result, d := IssueAt(store, SweepCancelled(now - interval), now);
  }

  /** The barrier, started or joined; shutdown or a full registry turn the caller away. */
  method EnsureDurable(store: S.Store, u: UploadId) returns (v: B.Verdict)
    modifies store
    ensures v == B.Success ==> u in store.jobs && B.Durable(Some(store.jobs[u]))
  {
    var refused: bool := *;
    if refused {
      B.Others(store);
      return B.Transient;
    }
    var files := new F.UploadFiles();
    var at: Time := *;
    v := B.MakeDurable(store, files, u, at);
  }

  // ---- rows without files ----

  /** What was listed, and the table it was read from. */
  datatype Listing = Listing(ids: seq<UploadId>, idleBefore: Time, db: U.Db)

  /** One listed upload: whether a file of it was seen, and the statement if none was. */
  datatype Closure = Closure(u: UploadId, seen: bool, deeds: seq<Deed>)

  predicate IsClosure(l: Listing, u: UploadId, c: Closure) {
    && c.u == u && U.IsStale(l.db, u, l.idleBefore)
    && (c.seen ==> c.deeds == [])
    && (!c.seen ==> |c.deeds| == 1 && c.deeds[0].s == MarkUnobservable(u) && Lawful(c.deeds[0]))
  }

  /** Each listed upload once, and nothing that was not listed uncancelled, idle and undurable. */
  predicate Closes(l: Listing, cs: seq<Closure>) {
    && |cs| == |l.ids| <= MAX_STALE_UPLOADS_PER_PASS
    && (forall j, k | 0 <= j < k < |l.ids| :: l.ids[j] != l.ids[k])
    && (forall k | 0 <= k < |cs| :: IsClosure(l, l.ids[k], cs[k]))
  }

  /** A row that was cancelled when it was listed, or is durable when its turn comes, is left alone. */
  method ResolveRowsWithoutFiles(store: S.Store, interval: nat) returns (ghost listing: Listing, ghost closures: seq<Closure>)
    modifies store
    ensures Closes(listing, closures)
  {
    B.Others(store);
    var now: Time := *;
    listing, closures := Listing([], now - interval, store.State()), [];
    var fault: bool := *;
    if fault {
      return;
    }
    var ids := store.ListStaleUploading(now - interval, MAX_STALE_UPLOADS_PER_PASS);
    listing := listing.(ids := ids);
    for i := 0 to |ids|
      invariant |closures| == i
      invariant forall k | 0 <= k < i :: IsClosure(listing, ids[k], closures[k])
    {
      var seen: bool := *;
      if seen {
        closures := closures + [Closure(ids[i], true, [])];
      } else {
        var _, d := Issue(store, MarkUnobservable(ids[i]));
        closures := closures + [Closure(ids[i], false, [d])];
      }
    }
  }
}
