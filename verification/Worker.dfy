/** One worker iteration: the claim, and a processing attempt from health check to outcome. */
module Worker {
  import opened Records
  import opened UploadFiles
  import opened Barrier
  import U = UploadJobs
  import S = Store

  // ---- the claim ----

  datatype Stage = Stage(from: Status, to: Status)

  /** Removal first, because it returns disk; then new work, then work whose lease ran out. */
  const STAGES := [Stage(Cleanup, Cleanup), Stage(Discarding, Discarding), Stage(Pending, Processing), Stage(Processing, Processing)]

  predicate NothingDue(db: U.Db, from: Status, now: Time) {
    forall u | u in db.jobs :: !U.IsDue(db.jobs[u], from, now)
  }

  datatype Claimed = Claimed(u: UploadId, stage: nat)

  /**
    At most one row is claimed: one due in the first stage that has any, and of those
    one with the earliest next attempt. "No work" means that no stage had any.
    */
  method ClaimOnce(store: S.Store, cancelled: bool, token: Token, now: Time, leaseFor: nat) returns (c: Option<Claimed>)
    modifies store
    ensures c == None ==> store.State() == old(store.State())
    ensures c == None && !cancelled ==> forall k | 0 <= k < |STAGES| :: NothingDue(store.State(), STAGES[k].from, now)
    ensures c.Some? ==>
              var db, u, stage := old(store.State()), c.value.u, c.value.stage;
              && !cancelled && stage < |STAGES| && u in db.jobs && U.IsDue(db.jobs[u], STAGES[stage].from, now)
              && (forall k | 0 <= k < stage :: NothingDue(db, STAGES[k].from, now))
              && (forall v | v in db.jobs && U.IsDue(db.jobs[v], STAGES[stage].from, now) ::
                    db.jobs[u].nextAttemptAt <= db.jobs[v].nextAttemptAt)
              && store.State() == db.(jobs := db.jobs[u := U.ClaimRow(db.jobs[u], STAGES[stage].to, token, now, leaseFor)])
  {
    if cancelled { return None; }
    for i := 0 to |STAGES|
      invariant store.State() == old(store.State())
      invariant forall k | 0 <= k < i :: NothingDue(store.State(), STAGES[k].from, now)
    {
      var u := store.ClaimNextJob(STAGES[i].from, STAGES[i].to, token, now, leaseFor);
      if u.Some? {
        return Some(Claimed(u.value, i));
      }
    }
    return None;
  }

  // ---- one processing attempt ----

  type Trace = seq<Event>

  datatype Outcome = PublishedAs(id: MediaId, duplicate: bool) | Rejected(reason: Reason) | Retried

  /** Everything a publication rests on, in order; the existing copy is proved intact if there is one. */
  predicate Publishable(trace: Trace, sum: Digest) {
    && (|trace| == 10 || |trace| == 11)
    && trace[0] == Healthy(true) && trace[1] == Sniffed(Supported) && trace[2] == Hashed(Some(sum))
    && trace[3] == Sized(true) && trace[4] == IdentityRecorded(true)
    && trace[5] == OriginalPrepared(true) && trace[6] == OriginalVerified(true) && trace[7] == PreparedRecorded(true)
    && (|trace| == 10 ==> trace[8] == ContentLookedUp(false) && trace[9] == Derived)
    && (|trace| == 11 ==> trace[8] == ContentLookedUp(true) && trace[9] == ExistingVerified(true) && trace[10] == Derived)
  }

  /** The only two rejections, both before anything was recorded or written. */
  predicate Rejectable(trace: Trace, declared: Option<Digest>, reason: Reason) {
    || (reason == UnsupportedType && trace == [Healthy(true), Sniffed(Unsupported)])
    || (reason == ChecksumMismatch && |trace| == 3 && trace[..2] == [Healthy(true), Sniffed(Supported)]
        && trace[2].Hashed? && trace[2].sum.Some? && declared.Some? && declared.value != trace[2].sum.value)
  }

  /** An answer that makes the attempt transient. */
  predicate Setback(e: Event) {
    match e
    case Healthy(ok) => !ok
    case Sniffed(kind) => kind == Unreadable
    case Hashed(sum) => sum == None
    case Sized(ok) => !ok
    case IdentityRecorded(ok) => !ok
    case OriginalPrepared(ok) => !ok
    case OriginalVerified(ok) => !ok
    case PreparedRecorded(ok) => !ok
    case ExistingVerified(ok) => !ok
    case PublicationTried(ok) => !ok
    case DatabaseFailed => true
    case _ => false
  }

  /** The source is what was declared, if anything was. */
  predicate Declared(declared: Option<Digest>, sum: Digest) {
    declared.Some? ==> declared.value == sum
  }

  datatype Progress = Ready(sum: Digest) | Refused(reason: Reason) | SetBack

  ghost predicate Concluded(p: Progress, trace: Trace, declared: Option<Digest>) {
    match p
    case Ready(sum) => Publishable(trace, sum) && Declared(declared, sum)
    case Refused(reason) => Rejectable(trace, declared, reason)
    case SetBack => |trace| > 0 && Setback(trace[|trace| - 1])
  }

  /** Sniff, hash and compare: nothing is written yet. */
  method Identify(files: UploadFiles, declared: Option<Digest>) returns (p: Progress)
    requires files.log == [Healthy(true)]
    modifies files
    ensures p.Ready? ==>
              files.log == [Healthy(true), Sniffed(Supported), Hashed(Some(p.sum)), Sized(true)] && Declared(declared, p.sum)
    ensures !p.Ready? ==> Concluded(p, files.log, declared)
  {
    var kind := files.Sniff();
    if kind == Unsupported { return Refused(UnsupportedType); }
    if kind == Unreadable { return SetBack; }
    var sum := files.Hash();
    if sum == None { return SetBack; }
    if declared.Some? && declared.value != sum.value { return Refused(ChecksumMismatch); }
    var ok := files.StatSource();
    if !ok { return SetBack; }
    return Ready(sum.value);
  }

  /** Record the identity, prepare, verify, and only then record that a verified original exists. */
  method Prepare(store: S.Store, files: UploadFiles, u: UploadId, token: Token, sum: Digest, now: Time) returns (ok: bool)
    requires files.log == [Healthy(true), Sniffed(Supported), Hashed(Some(sum)), Sized(true)]
    modifies store, files
    ensures ok ==> files.log == old(files.log)
                     + [IdentityRecorded(true), OriginalPrepared(true), OriginalVerified(true), PreparedRecorded(true)]
    ensures !ok ==> |files.log| > 0 && Setback(files.log[|files.log| - 1])
  {
    Others(store);
    var recorded := store.RecordArtifactIdentity(u, token, sum, now);
    files.Note(IdentityRecorded(recorded == S.Ok));
    if recorded != S.Ok { return false; }
    ok := files.PrepareOriginal();
    if !ok { return; }
    ok := files.VerifyOriginal();
    if !ok { return; }
    Others(store);
    recorded := store.RecordPrepared(u, token, now);
    files.Note(PreparedRecorded(recorded == S.Ok));
    ok := recorded == S.Ok;
  }

  /** Before a duplicate may be resolved, the copy that would be kept is proved intact. */
  method CheckExisting(store: S.Store, files: UploadFiles, sum: Digest) returns (ok: bool)
    modifies store, files
    ensures ok ==> files.log == old(files.log) + [ContentLookedUp(false)]
                   || files.log == old(files.log) + [ContentLookedUp(true), ExistingVerified(true)]
    ensures !ok ==> |files.log| > 0 && Setback(files.log[|files.log| - 1])
  {
    Others(store);
    var failed := files.DatabaseFails();
    if failed { return false; }
    var found := sum in store.bySha;
    files.Note(ContentLookedUp(found));
    if !found { return true; }
    ok := files.VerifyExisting();
  }

  method PrepareAndPublish(store: S.Store, files: UploadFiles, j: Job, u: UploadId, token: Token, now: Time)
    returns (p: Progress)
    requires files.log == [Healthy(true)]
    modifies store, files
    ensures Concluded(p, files.log, j.declared)
  {
    hide Publishable, Rejectable;
    p := Identify(files, j.declared);
    if !p.Ready? { return; }
    var ok := Prepare(store, files, u, token, p.sum, now);
    if !ok { return SetBack; }
    ghost var prepared := files.log;
    ok := CheckExisting(store, files, p.sum);
    if !ok { return SetBack; }
    files.Note(Derived);
    ReadyIsPublishable(prepared, files.log, p.sum);
  }

  lemma ReadyIsPublishable(prepared: Trace, trace: Trace, sum: Digest)
    requires prepared == [Healthy(true), Sniffed(Supported), Hashed(Some(sum)), Sized(true)]
                         + [IdentityRecorded(true), OriginalPrepared(true), OriginalVerified(true), PreparedRecorded(true)]
    requires trace == prepared + [ContentLookedUp(false)] + [Derived]
             || trace == prepared + [ContentLookedUp(true), ExistingVerified(true)] + [Derived]
    ensures Publishable(trace, sum)
  {}

  /** What the attempt's last statement did to the database it found. */
  ghost predicate Ends(before: U.Db, after: U.Db, trace: Trace, j: Job, u: UploadId, token: Token, o: Outcome, next: Time, now: Time) {
    match o
    case PublishedAs(id, duplicate) =>
      && |trace| > 0 && trace[|trace| - 1] == PublicationTried(true)
      && U.CanPublish(before, u, token)
      && exists sum :: Publishable(trace[..|trace| - 1], sum) && Declared(j.declared, sum)
           && after == U.PublishMedia(before, u, j.mediaId, sum, now)
           && id == U.Winner(before, j.mediaId, sum) && duplicate == (id != j.mediaId)
    case Rejected(reason) =>
      && Rejectable(trace, j.declared, reason)
      && after == if U.Holds(before, u, token)
                  then before.(jobs := before.jobs[u := U.FinishRow(before.jobs[u], Discarding, reason, now)]) else before
    case Retried =>
      && |trace| > 0 && Setback(trace[|trace| - 1])
      && after == if U.Holds(before, u, token)
                  then before.(jobs := before.jobs[u := U.ReleaseRow(before.jobs[u], Pending, next, U.ProcessingFailures, now)])
                  else before
  }

  /**
    With other actors between any two statements: publication rests on the whole
    sequence of checks and on still holding the row, rejection only on what the bytes
    are, and everything else keeps the upload and counts a failure.
    */
  method RunProcessing(store: S.Store, files: UploadFiles, j: Job, u: UploadId, token: Token, next: Time, now: Time)
    returns (o: Outcome, ghost before: U.Db)
    requires files.log == []
    modifies store, files
    ensures Ends(before, store.State(), files.log, j, u, token, o, next, now)
  {
    hide Publishable, Rejectable;
    var healthy := files.CheckHealth();
    if !healthy {
      before := Retry(store, u, token, next, now);
      return Retried, before;
    }
    var p := PrepareAndPublish(store, files, j, u, token, now);
    match p {
      case Refused(reason) =>
        Others(store);
        before := store.State();
        var _ := store.FinishJob(u, token, Discarding, reason, now);
        o := Rejected(reason);
      case SetBack =>
        before := Retry(store, u, token, next, now);
        o := Retried;
      case Ready(sum) =>
        o, before := Publish(store, files, j, u, token, sum, next, now);
    }
  }

  method Retry(store: S.Store, u: UploadId, token: Token, next: Time, now: Time) returns (ghost before: U.Db)
    modifies store
    ensures store.State() == if U.Holds(before, u, token)
              then before.(jobs := before.jobs[u := U.ReleaseRow(before.jobs[u], Pending, next, U.ProcessingFailures, now)])
              else before
  {
    Others(store);
    before := store.State();
    var _ := store.ReleaseForRetry(u, token, Pending, next, U.ProcessingFailures, now);
  }

  method Publish(store: S.Store, files: UploadFiles, j: Job, u: UploadId, token: Token, sum: Digest, next: Time, now: Time)
    returns (o: Outcome, ghost before: U.Db)
    requires Publishable(files.log, sum) && Declared(j.declared, sum)
    modifies store, files
    ensures Ends(before, store.State(), files.log, j, u, token, o, next, now)
  {
    hide Publishable;
    Others(store);
    before := store.State();
    var r := store.PublishMedia(u, token, j.mediaId, sum, now);
    files.Note(PublicationTried(r.Authoritative?));
    assert files.log[..|files.log| - 1] == old(files.log);
    if r.Authoritative? {
      o := PublishedAs(r.id, r.duplicate);
    } else {
      before := Retry(store, u, token, next, now);
      o := Retried;
    }
  }
}
