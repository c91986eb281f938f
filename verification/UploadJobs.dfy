/**
  The SQL statements of the upload queue. Each one is a single conditional
  update, so each is one function from database to database.
  */
module UploadJobs {
  import opened Records

  /** `bySha` is the UNIQUE index on media_items.sha256. */
  datatype Db = Db(
    jobs: map<UploadId, Job>,
    media: map<MediaId, Media>,
    bySha: map<Digest, MediaId>)

  function NewJob(m: MediaId, size: nat, declared: Option<Digest>, now: Time): Job {
    Job(m, Uploading, size, declared, false, None, None, None, None, None, NoReason, None,
        now, 0, 0, now, None)
  }

  predicate CanCreate(db: Db, u: UploadId, m: MediaId, size: nat) {
    && u !in db.jobs
    && size > 0
    && forall v | v in db.jobs :: db.jobs[v].mediaId != m
  }

  predicate CanPromote(db: Db, u: UploadId) {
    u in db.jobs && db.jobs[u].status == Uploading && db.jobs[u].cancelledAt == None
  }

  function PromoteRow(j: Job, now: Time): Job {
    j.(status := Pending,
       completedAt := if j.completedAt == None then Some(now) else j.completedAt,
       nextAttemptAt := now,
       updatedAt := now)
  }

  predicate IsDue(j: Job, from: Status, now: Time) {
    && j.status == from
    && j.nextAttemptAt <= now
    && (j.lease == None || j.lease.value.until <= now)
  }

  function ClaimRow(j: Job, to: Status, token: Token, now: Time, leaseFor: nat): Job {
    j.(status := to, lease := Some(Lease(token, now + leaseFor)), updatedAt := now)
  }

  predicate Holds(db: Db, u: UploadId, token: Token) {
    u in db.jobs && db.jobs[u].lease.Some? && db.jobs[u].lease.value.token == token
  }

  datatype Counter = ProcessingFailures | CleanupFailures

  function ReleaseRow(j: Job, back: Status, next: Time, counter: Counter, now: Time): Job {
    j.(status := back, lease := None, nextAttemptAt := next, updatedAt := now,
       processingFailures := j.processingFailures + (if counter == ProcessingFailures then 1 else 0),
       cleanupFailures := j.cleanupFailures + (if counter == CleanupFailures then 1 else 0))
  }

  function ReasonOrCancelled(r: Reason): Reason {
    if r == NoReason then Cancelled else r
  }

  predicate IsUploading(db: Db, u: UploadId) {
    u in db.jobs && db.jobs[u].status == Uploading
  }

  function DiscardRow(j: Job, now: Time): Job {
    j.(status := Discarding, reason := ReasonOrCancelled(j.reason), nextAttemptAt := now, updatedAt := now)
  }

  function CancelRow(j: Job, now: Time): Job {
    j.(cancelledAt := if j.cancelledAt == None then Some(now) else j.cancelledAt, updatedAt := now)
  }

  predicate SweepDue(j: Job, idleBefore: Time) {
    j.status == Uploading && j.cancelledAt.Some? && j.updatedAt <= idleBefore
  }

  function SweepRow(j: Job, now: Time): Job {
    DiscardRow(j, now).(lease := None)
  }

  function SweepCancelled(db: Db, idleBefore: Time, now: Time): Db {
    db.(jobs := map u | u in db.jobs ::
      if SweepDue(db.jobs[u], idleBefore) then SweepRow(db.jobs[u], now) else db.jobs[u])
  }

  function FinishRow(j: Job, status: Status, reason: Reason, now: Time): Job {
    j.(status := status,
       reason := if reason == NoReason then j.reason else reason,
       terminalAt := if Terminal(status) then Some(now) else j.terminalAt,
       lease := None,
       updatedAt := now)
  }

  predicate Interrupted(j: Job) {
    j.status == Processing || j.status == Cleanup || j.status == Discarding
  }

  function RequeueRow(j: Job, now: Time): Job {
    j.(status := if j.status == Processing then Pending else j.status,
       lease := None, nextAttemptAt := now, updatedAt := now)
  }

  function RequeueStartup(db: Db, now: Time): Db {
    db.(jobs := map u | u in db.jobs ::
      if Interrupted(db.jobs[u]) then RequeueRow(db.jobs[u], now) else db.jobs[u])
  }

  predicate Expired(j: Job, cutoff: Time) {
    Terminal(j.status) && j.terminalAt.Some? && j.terminalAt.value < cutoff
  }

  function RecordIdentityRow(j: Job, sha: Digest, now: Time): Job {
    j.(identityRecorded := true, authoritative := Some(sha), updatedAt := now)
  }

  function RecordPreparedRow(j: Job, now: Time): Job {
    j.(preparedAt := Some(now), updatedAt := now)
  }

  predicate CanPublish(db: Db, u: UploadId, token: Token) {
    Holds(db, u, token) && db.jobs[u].status == Processing
  }

  /** The id that owns content `sha` once `m` has been offered for it. */
  function Winner(db: Db, m: MediaId, sha: Digest): MediaId {
    if sha in db.bySha then db.bySha[sha] else m
  }

  function PublishRow(j: Job, winner: MediaId, now: Time): Job {
    j.(status := Cleanup, result := Some(winner), lease := None, updatedAt := now)
  }

  /** INSERT ... ON CONFLICT(sha256) DO NOTHING, then the move to cleanup, in one transaction. */
  function PublishMedia(db: Db, u: UploadId, m: MediaId, sha: Digest, now: Time): Db
    requires u in db.jobs
  {
    var jobs := db.jobs[u := PublishRow(db.jobs[u], Winner(db, m, sha), now)];
    if sha in db.bySha then db.(jobs := jobs)
    else Db(jobs, db.media[m := Media(sha, Active)], db.bySha[sha := m])
  }

  /** A row the reconciler may list as never having produced any bytes. */
  predicate IsStale(db: Db, u: UploadId, idleBefore: Time) {
    && IsUploading(db, u)
    && db.jobs[u].completedAt == None && db.jobs[u].cancelledAt == None && db.jobs[u].updatedAt <= idleBefore
  }

  predicate CanMarkUnobservable(db: Db, u: UploadId) {
    IsUploading(db, u) && db.jobs[u].completedAt == None
  }

  function UnobservableRow(j: Job, now: Time): Job {
    j.(status := Discarded, reason := Unobservable, terminalAt := Some(now), lease := None, updatedAt := now)
  }

  predicate IsTerminal(db: Db, u: UploadId) {
    u in db.jobs && Terminal(db.jobs[u].status)
  }

  function ReopenRow(j: Job, status: Status, now: Time): Job {
    j.(status := status, terminalAt := None, nextAttemptAt := now, lease := None, updatedAt := now)
  }

  /** The in-flight guard of the permanent delete. */
  ghost predicate Referenced(db: Db, m: MediaId) {
    exists u :: u in db.jobs && db.jobs[u].result == Some(m) && !Terminal(db.jobs[u].status)
  }

  ghost predicate CanPurge(db: Db, m: MediaId) {
    m in db.media && db.media[m].status == Trashed && !Referenced(db, m)
  }

  function DropMedia(db: Db, gone: set<MediaId>): Db {
    Db(db.jobs,
       map m | m in db.media && m !in gone :: db.media[m],
       map d | d in db.bySha && db.bySha[d] !in gone :: db.bySha[d])
  }

  /** The unique index and the table agree. */
  ghost predicate Indexed(db: Db) {
    && (forall d | d in db.bySha :: db.bySha[d] in db.media && db.media[db.bySha[d]].sha == d)
    && (forall m | m in db.media :: db.media[m].sha in db.bySha && db.bySha[db.media[m].sha] == m)
  }
}
