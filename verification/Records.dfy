/** The values the ingest queue is made of: rows, digests, leases and files. */
module Records {

  datatype Option<+T> = None | Some(value: T)

  /** Identifiers are random or generated, so only their equality matters. */
  type UploadId = nat
  type MediaId = nat
  type Token = nat
  type StageId = nat

  /** Signed UTC Unix microseconds. */
  type Time = int

  type Content = seq<nat>

  /** SHA-256 is taken to be injective, so a digest is modelled by the content it identifies. */
  type Digest = Content

  datatype Status =
    | Uploading
    | Pending
    | Processing
    | Cleanup
    | Complete
    | Discarding
    | Discarded

  datatype Reason =
    | NoReason
    | Cancelled
    | Unobservable
    | UnsupportedType
    | ChecksumMismatch

  /** The schema pairs lease_token with lease_until, so the two columns are one value. */
  datatype Lease = Lease(token: Token, until: Time)

  datatype Job = Job(
    mediaId: MediaId,
    status: Status,
    expectedSize: nat,
    declared: Option<Digest>,
    identityRecorded: bool,
    authoritative: Option<Digest>,
    completedAt: Option<Time>,
    preparedAt: Option<Time>,
    cancelledAt: Option<Time>,
    result: Option<MediaId>,
    reason: Reason,
    lease: Option<Lease>,
    nextAttemptAt: Time,
    processingFailures: nat,
    cleanupFailures: nat,
    updatedAt: Time,
    terminalAt: Option<Time>)

  datatype MediaStatus = Active | Trashed

  datatype Media = Media(sha: Digest, status: MediaStatus)

  /** What one upload is stored as: its row is absent, being sent, being worked on, or decided. */
  predicate Working(s: Status) { s == Pending || s == Processing }

  predicate Published(s: Status) { s == Cleanup || s == Complete }

  predicate Condemned(s: Status) { s == Discarding || s == Discarded }

  predicate Terminal(s: Status) { s == Complete || s == Discarded }

  /** The only reasons that may discard an upload whose bytes were acknowledged. */
  predicate ContentRejection(r: Reason) { r == UnsupportedType || r == ChecksumMismatch }
}
