/**
  The outside as a procedure meets it: every look and every action may answer
  anything, and the ghost log records what was asked and what was answered.
  */
module UploadFiles {
  import opened Records

  datatype Part = Data | Info

  /** Only "no such file" proves absence; every other failed stat is ambiguous. */
  datatype Answer = Present(size: nat) | Absent | Ambiguous

  datatype Owner = NoRow | Owned | Unknown

  /** An unreadable source is not an unsupported one. */
  datatype Sniffing = Supported | Unsupported | Unreadable

  datatype Flushing = Stable | Missing | Failed

  datatype Event =
    | Healthy(ok: bool)
    | Looked(owner: Owner)
    | ArtifactsRemoved
    | TemporariesSwept
    | Statted(part: Part, answer: Answer)
    | Terminated(ok: bool)
    | Unlinked(part: Part, ok: bool)
    | Flushed(part: Part, outcome: Flushing)
    | DirSynced(ok: bool)
    | Sniffed(kind: Sniffing)
    | Hashed(sum: Option<Digest>)
    | Sized(ok: bool)
    | IdentityRecorded(ok: bool)
    | OriginalPrepared(ok: bool)
    | OriginalVerified(ok: bool)
    | PreparedRecorded(ok: bool)
    | ContentLookedUp(found: bool)
    | ExistingVerified(ok: bool)
    | Derived
    | PublicationTried(ok: bool)
    | ReadRow(row: Option<Job>)
    | ClaimedForDiscard(ok: bool)
    | Committed
    | PromotionLost
    | DatabaseFailed

  class UploadFiles {
    ghost var log: seq<Event>

    constructor ()
      ensures log == []
    {
      log := [];
    }

    method Note(ghost e: Event)
      modifies this
      ensures log == old(log) + [e]
    {
      log := log + [e];
    }

    method CheckHealth() returns (ok: bool)
      modifies this
      ensures log == old(log) + [Healthy(ok)]
    {
      ok := *;
      Note(Healthy(ok));
    }

    method LookUpOwner() returns (owner: Owner)
      modifies this
      ensures log == old(log) + [Looked(owner)]
    {
      owner := *;
      Note(Looked(owner));
    }

    method Stat(part: Part) returns (answer: Answer)
      modifies this
      ensures log == old(log) + [Statted(part, answer)]
    {
      answer := *;
      Note(Statted(part, answer));
    }

    /** The terminator may fail, and may claim a removal it did not make. */
    method Terminate() returns (ok: bool)
      modifies this
      ensures log == old(log) + [Terminated(ok)]
    {
      ok := *;
      Note(Terminated(ok));
    }

    /** Removing what is already gone counts as done. */
    method Unlink(part: Part) returns (ok: bool)
      modifies this
      ensures log == old(log) + [Unlinked(part, ok)]
    {
      ok := *;
      Note(Unlinked(part, ok));
    }

    method Flush(part: Part) returns (outcome: Flushing)
      modifies this
      ensures log == old(log) + [Flushed(part, outcome)]
    {
      outcome := *;
      Note(Flushed(part, outcome));
    }

    method DatabaseFails() returns (failed: bool)
      modifies this
      ensures log == if failed then old(log) + [DatabaseFailed] else old(log)
    {
      failed := *;
      if failed {
        Note(DatabaseFailed);
      }
    }

    method Sniff() returns (kind: Sniffing)
      modifies this
      ensures log == old(log) + [Sniffed(kind)]
    {
      kind := *;
      Note(Sniffed(kind));
    }

    method Hash() returns (sum: Option<Digest>)
      modifies this
      ensures log == old(log) + [Hashed(sum)]
    {
      sum := *;
      Note(Hashed(sum));
    }

    method StatSource() returns (ok: bool)
      modifies this
      ensures log == old(log) + [Sized(ok)]
    {
      ok := *;
      Note(Sized(ok));
    }

    method PrepareOriginal() returns (ok: bool)
      modifies this
      ensures log == old(log) + [OriginalPrepared(ok)]
    {
      ok := *;
      Note(OriginalPrepared(ok));
    }

    method VerifyOriginal() returns (ok: bool)
      modifies this
      ensures log == old(log) + [OriginalVerified(ok)]
    {
      ok := *;
      Note(OriginalVerified(ok));
    }

    method VerifyExisting() returns (ok: bool)
      modifies this
      ensures log == old(log) + [ExistingVerified(ok)]
    {
      ok := *;
      Note(ExistingVerified(ok));
    }

    method SyncDir() returns (ok: bool)
      modifies this
      ensures log == old(log) + [DirSynced(ok)]
    {
      ok := *;
      Note(DirSynced(ok));
    }
  }
}
