/**
  The store as the object the actors share. Each method is one SQL statement or
  one transaction, and is proved to be the database transition of the same name.
  */
module Store {
  import opened Records
  import U = UploadJobs

  datatype Outcome = Ok | NotClaimed

  datatype Publication = Authoritative(id: MediaId, duplicate: bool) | NotOwned | Collision

  class Store {
    var jobs: map<UploadId, Job>
    var media: map<MediaId, Media>
    var bySha: map<Digest, MediaId>

    ghost function State(): U.Db
      reads this
    {
      U.Db(jobs, media, bySha)
    }

    constructor ()
      ensures State() == U.Db(map[], map[], map[])
    {
      jobs, media, bySha := map[], map[], map[];
    }

    method CreateUploadingJob(u: UploadId, m: MediaId, size: nat, declared: Option<Digest>, now: Time)
      returns (ok: bool)
      modifies this
      ensures ok == U.CanCreate(old(State()), u, m, size)
      ensures State() == if ok then old(State()).(jobs := old(jobs)[u := U.NewJob(m, size, declared, now)])
                         else old(State())
    {
      // The schema: upload_id is the key, media_id is unique, expected_size is positive.
      ok := u !in jobs && size > 0 && forall v | v in jobs :: jobs[v].mediaId != m;
      if ok {
        jobs := jobs[u := U.NewJob(m, size, declared, now)];
      }
    }

    method PromoteToPending(u: UploadId, now: Time) returns (r: Outcome)
      modifies this
      ensures r == Ok <==> U.CanPromote(old(State()), u)
      ensures State() == if r == Ok then old(State()).(jobs := old(jobs)[u := U.PromoteRow(old(jobs)[u], now)])
                         else old(State())
      ensures r == Ok ==> jobs[u].completedAt.Some? && (old(jobs)[u].lease == None ==> U.IsDue(jobs[u], Pending, now))
    {
      if u in jobs && jobs[u].status == Uploading && jobs[u].cancelledAt == None {
        jobs := jobs[u := U.PromoteRow(jobs[u], now)];
        return Ok;
      }
      return NotClaimed;
    }

    /** SELECT ... ORDER BY next_attempt_at LIMIT 1: some due row no other due row precedes. */
    method FirstDue(from: Status, now: Time) returns (first: Option<UploadId>)
      ensures first.Some? ==>
                && first.value in jobs && U.IsDue(jobs[first.value], from, now)
                && forall v | v in jobs && U.IsDue(jobs[v], from, now) ::
                     jobs[first.value].nextAttemptAt <= jobs[v].nextAttemptAt
      ensures first == None ==> forall v | v in jobs :: !U.IsDue(jobs[v], from, now)
    {
      var left := jobs.Keys;
      first := None;
      while left != {}
        invariant left <= jobs.Keys
        invariant first.Some? ==>
                    && first.value in jobs && U.IsDue(jobs[first.value], from, now)
                    && forall v | v in jobs && v !in left && U.IsDue(jobs[v], from, now) ::
                         jobs[first.value].nextAttemptAt <= jobs[v].nextAttemptAt
        invariant first == None ==> forall v | v in jobs && v !in left :: !U.IsDue(jobs[v], from, now)
        decreases |left|
      {
        var v :| v in left;
        left := left - {v};
        if U.IsDue(jobs[v], from, now)
           && (first == None || jobs[v].nextAttemptAt < jobs[first.value].nextAttemptAt) {
          first := Some(v);
        }
      }
    }

    method ClaimNextJob(from: Status, to: Status, token: Token, now: Time, leaseFor: nat)
      returns (claimed: Option<UploadId>)
      modifies this
      ensures claimed == None ==>
                State() == old(State()) && forall v | v in jobs :: !U.IsDue(jobs[v], from, now)
      ensures claimed.Some? ==>
                var u := claimed.value;
                && u in old(jobs) && U.IsDue(old(jobs)[u], from, now)
                && (forall v | v in old(jobs) && U.IsDue(old(jobs)[v], from, now) ::
                      old(jobs)[u].nextAttemptAt <= old(jobs)[v].nextAttemptAt)
                && State() == old(State()).(jobs := old(jobs)[u := U.ClaimRow(old(jobs)[u], to, token, now, leaseFor)])
                && U.Holds(State(), u, token)
                && forall stage, later | later < now + leaseFor :: !U.IsDue(jobs[u], stage, later)
    {
      claimed := FirstDue(from, now);
      if claimed.Some? {
        jobs := jobs[claimed.value := U.ClaimRow(jobs[claimed.value], to, token, now, leaseFor)];
      }
    }

    method ReleaseForRetry(u: UploadId, token: Token, back: Status, next: Time, counter: U.Counter, now: Time)
      returns (r: Outcome)
      modifies this
      ensures r == Ok <==> U.Holds(old(State()), u, token)
      ensures State() == if r == Ok
                         then old(State()).(jobs := old(jobs)[u := U.ReleaseRow(old(jobs)[u], back, next, counter, now)])
                         else old(State())
      ensures r == Ok ==>
                var j, k := old(jobs)[u], jobs[u];
                && (forall later :: U.IsDue(k, back, later) <==> next <= later)
                && k.processingFailures + k.cleanupFailures == j.processingFailures + j.cleanupFailures + 1
                && (counter == U.ProcessingFailures <==> k.processingFailures > j.processingFailures)
                && k.result == j.result && k.reason == j.reason && k.completedAt == j.completedAt
    {
      if u in jobs && jobs[u].lease.Some? && jobs[u].lease.value.token == token {
        jobs := jobs[u := U.ReleaseRow(jobs[u], back, next, counter, now)];
        return Ok;
      }
      return NotClaimed;
    }

    method ClaimUploadingForDiscard(u: UploadId, now: Time) returns (r: Outcome)
      modifies this
      ensures r == Ok <==> U.IsUploading(old(State()), u)
      ensures State() == if r == Ok then old(State()).(jobs := old(jobs)[u := U.DiscardRow(old(jobs)[u], now)])
                         else old(State())
      ensures r == Ok ==> !U.CanPromote(State(), u) && !U.CanMarkUnobservable(State(), u)
    {
      if u in jobs && jobs[u].status == Uploading {
        jobs := jobs[u := U.DiscardRow(jobs[u], now)];
        return Ok;
      }
      return NotClaimed;
    }

    method RequestCancellation(u: UploadId, now: Time) returns (r: Outcome)
      modifies this
      ensures r == Ok <==> U.IsUploading(old(State()), u)
      ensures State() == if r == Ok then old(State()).(jobs := old(jobs)[u := U.CancelRow(old(jobs)[u], now)])
                         else old(State())
      ensures r == Ok ==>
                && jobs[u].cancelledAt == (if old(jobs)[u].cancelledAt.Some? then old(jobs)[u].cancelledAt else Some(now))
                && !U.CanPromote(State(), u)
    {
      if u in jobs && jobs[u].status == Uploading {
        jobs := jobs[u := U.CancelRow(jobs[u], now)];
        return Ok;
      }
      return NotClaimed;
    }

    method ClaimCancelledForDiscard(idleBefore: Time, now: Time)
      modifies this
      ensures State() == U.SweepCancelled(old(State()), idleBefore, now)
      ensures jobs.Keys == old(jobs).Keys && forall u | u in jobs ::
                var j, k := old(jobs)[u], jobs[u];
                var swept := j.status == Uploading && j.cancelledAt.Some? && j.updatedAt <= idleBefore;
                && (!swept ==> k == j)
                && (swept ==> U.IsDue(k, Discarding, now) && k.lease == None && k.reason != NoReason
                              && k.cancelledAt == j.cancelledAt && k.completedAt == j.completedAt)
    {
      jobs := map u | u in jobs ::
        if U.SweepDue(jobs[u], idleBefore) then U.SweepRow(jobs[u], now) else jobs[u];
    }

    /** SELECT ... LIMIT: stale rows, each once; when fewer than the limit come back, they are all there are. */
    method ListStaleUploading(idleBefore: Time, limit: nat) returns (ids: seq<UploadId>)
      ensures |ids| <= limit
      ensures forall j, k | 0 <= j < k < |ids| :: ids[j] != ids[k]
      ensures forall u | u in ids :: U.IsStale(State(), u, idleBefore)
      ensures |ids| < limit ==> forall u | U.IsStale(State(), u, idleBefore) :: u in ids
    {
      ids := [];
      var left := jobs.Keys;
      while left != {} && |ids| < limit
        invariant |ids| <= limit && left <= jobs.Keys
        invariant forall u | u in ids :: u !in left && U.IsStale(State(), u, idleBefore)
        invariant forall j, k | 0 <= j < k < |ids| :: ids[j] != ids[k]
        invariant forall u | u in jobs && u !in left && u !in ids :: !U.IsStale(State(), u, idleBefore)
        decreases |left|
      {
        var u :| u in left;
        left := left - {u};
        var j := jobs[u];
        if j.status == Uploading && j.completedAt == None && j.cancelledAt == None && j.updatedAt <= idleBefore {
          ids := ids + [u];
        }
      }
    }

    method FinishJob(u: UploadId, token: Token, status: Status, reason: Reason, now: Time) returns (r: Outcome)
      modifies this
      ensures r == Ok <==> U.Holds(old(State()), u, token)
      ensures State() == if r == Ok
                         then old(State()).(jobs := old(jobs)[u := U.FinishRow(old(jobs)[u], status, reason, now)])
                         else old(State())
      ensures r == Ok ==> !U.Holds(State(), u, token) && (Terminal(status) ==> jobs[u].terminalAt == Some(now))
      ensures r == Ok && reason == NoReason ==> jobs[u].reason == old(jobs)[u].reason
    {
      if u in jobs && jobs[u].lease.Some? && jobs[u].lease.value.token == token {
        jobs := jobs[u := U.FinishRow(jobs[u], status, reason, now)];
        return Ok;
      }
      return NotClaimed;
    }

    method RequeueStartup(now: Time)
      modifies this
      ensures State() == U.RequeueStartup(old(State()), now)
      ensures jobs.Keys == old(jobs).Keys && forall u | u in jobs ::
                var j, k := old(jobs)[u], jobs[u];
                && k.status != Processing && (!U.Interrupted(j) ==> k == j)
                && (U.Interrupted(j) ==> k.lease == None && U.IsDue(k, k.status, now))
                && (k.status != j.status ==> j.status == Processing && k.status == Pending)
                && k.result == j.result && k.reason == j.reason && k.completedAt == j.completedAt
                && k.authoritative == j.authoritative && k.processingFailures == j.processingFailures
    {
      jobs := map u | u in jobs :: if U.Interrupted(jobs[u]) then U.RequeueRow(jobs[u], now) else jobs[u];
    }

    /** At most `limit` rows go, each terminal since before the cutoff; when fewer go, none is left. */
    method DeleteTerminalJobsBefore(cutoff: Time, limit: nat) returns (gone: set<UploadId>)
      modifies this
      ensures |gone| <= limit
      ensures forall u | u in gone :: u in old(jobs) && U.Expired(old(jobs)[u], cutoff)
      ensures |gone| < limit ==> forall u | u in jobs :: !U.Expired(jobs[u], cutoff)
      ensures State() == old(State()).(jobs := old(jobs) - gone)
    {
      gone := {};
      var left := jobs.Keys;
      while left != {} && |gone| < limit
        invariant |gone| <= limit && gone !! left && left <= jobs.Keys
        invariant forall u | u in gone :: u in jobs && U.Expired(jobs[u], cutoff)
        invariant forall u | u in jobs && u !in left && u !in gone :: !U.Expired(jobs[u], cutoff)
        decreases |left|
      {
        var u :| u in left;
        left := left - {u};
        if U.Expired(jobs[u], cutoff) {
          gone := gone + {u};
        }
      }
      jobs := jobs - gone;
    }

    method RecordArtifactIdentity(u: UploadId, token: Token, sha: Digest, now: Time) returns (r: Outcome)
      modifies this
      ensures r == Ok <==> U.Holds(old(State()), u, token)
      ensures State() == if r == Ok
                         then old(State()).(jobs := old(jobs)[u := U.RecordIdentityRow(old(jobs)[u], sha, now)])
                         else old(State())
    {
      if u in jobs && jobs[u].lease.Some? && jobs[u].lease.value.token == token {
        jobs := jobs[u := U.RecordIdentityRow(jobs[u], sha, now)];
        return Ok;
      }
      return NotClaimed;
    }

    method RecordPrepared(u: UploadId, token: Token, now: Time) returns (r: Outcome)
      modifies this
      ensures r == Ok <==> U.Holds(old(State()), u, token)
      ensures State() == if r == Ok
                         then old(State()).(jobs := old(jobs)[u := U.RecordPreparedRow(old(jobs)[u], now)])
                         else old(State())
    {
      if u in jobs && jobs[u].lease.Some? && jobs[u].lease.value.token == token {
        jobs := jobs[u := U.RecordPreparedRow(jobs[u], now)];
        return Ok;
      }
      return NotClaimed;
    }

    /** Fence, insert, resolve, move: one transaction, rolled back when the insert violates the key. */
    method PublishMedia(u: UploadId, token: Token, m: MediaId, sha: Digest, now: Time) returns (r: Publication)
      modifies this
      ensures r == NotOwned <==> !U.CanPublish(old(State()), u, token)
      ensures r == Collision <==> U.CanPublish(old(State()), u, token) && sha !in old(bySha) && m in old(media)
      ensures r.Authoritative? ==>
                && State() == U.PublishMedia(old(State()), u, m, sha, now)
                && r.id == U.Winner(old(State()), m, sha) && r.duplicate == (r.id != m)
                && (U.Indexed(old(State())) ==> U.Indexed(State()) && r.id in media && media[r.id].sha == sha)
      ensures !r.Authoritative? ==> State() == old(State())
    {
      if !(u in jobs && jobs[u].lease.Some? && jobs[u].lease.value.token == token && jobs[u].status == Processing) {
        return NotOwned;
      }
      if sha !in bySha {
        if m in media {
          return Collision;
        }
        media := media[m := Media(sha, Active)];
        bySha := bySha[sha := m];
      }
      var winner := bySha[sha];
      jobs := jobs[u := U.PublishRow(jobs[u], winner, now)];
      return Authoritative(winner, winner != m);
    }

    method MarkUnobservable(u: UploadId, now: Time) returns (r: Outcome)
      modifies this
      ensures r == Ok <==> U.CanMarkUnobservable(old(State()), u)
      ensures State() == if r == Ok then old(State()).(jobs := old(jobs)[u := U.UnobservableRow(old(jobs)[u], now)])
                         else old(State())
      ensures r == Ok ==> U.IsTerminal(State(), u) && jobs[u].completedAt == None && !U.CanPromote(State(), u)
    {
      if u in jobs && jobs[u].status == Uploading && jobs[u].completedAt == None {
        jobs := jobs[u := U.UnobservableRow(jobs[u], now)];
        return Ok;
      }
      return NotClaimed;
    }

    method DeleteUploadJob(u: UploadId)
      modifies this
      ensures State() == if U.IsTerminal(old(State()), u) then old(State()).(jobs := old(jobs) - {u}) else old(State())
    {
      if u in jobs && Terminal(jobs[u].status) {
        jobs := jobs - {u};
      }
    }

    method ReopenTerminal(u: UploadId, status: Status, now: Time) returns (r: Outcome)
      modifies this
      ensures r == Ok <==> U.IsTerminal(old(State()), u)
      ensures State() == if r == Ok then old(State()).(jobs := old(jobs)[u := U.ReopenRow(old(jobs)[u], status, now)])
                         else old(State())
      ensures r == Ok ==>
                && U.IsDue(jobs[u], status, now) && jobs[u].terminalAt == None
                && jobs[u].result == old(jobs)[u].result && jobs[u].reason == old(jobs)[u].reason
    {
      if u in jobs && Terminal(jobs[u].status) {
        jobs := jobs[u := U.ReopenRow(jobs[u], status, now)];
        return Ok;
      }
      return NotClaimed;
    }

    /**
      One transaction over the requested ids: exactly the trashed rows no unfinished
      job resolves to are deleted, and reported in request order.
      */
    method PurgeTrashed(ids: seq<MediaId>) returns (changed: seq<MediaId>)
      modifies this
      ensures forall m :: m in changed <==> m in ids && U.CanPurge(old(State()), m)
      ensures State() == U.DropMedia(old(State()), set m | m in changed)
    {
      changed := [];
      ghost var before := State();
      DropsNothing(before);
      for i := 0 to |ids|
        invariant State() == U.DropMedia(before, set m | m in changed)
        invariant forall m :: m in changed <==> m in ids[..i] && U.CanPurge(before, m)
      {
        var m := ids[i];
        var referenced := exists u :: u in jobs && jobs[u].result == Some(m) && !Terminal(jobs[u].status);
        if m in media && media[m].status == Trashed && !referenced {
          DropsAnother(before, changed, m);
          media := media - {m};
          bySha := map d | d in bySha && bySha[d] != m :: bySha[d];
          changed := changed + [m];
        }
      }
      assert ids[..|ids|] == ids;
    }
  }

  lemma DropsNothing(db: U.Db)
    ensures U.DropMedia(db, set m | m in []) == db
  {}

  lemma DropsAnother(db: U.Db, gone: seq<MediaId>, m: MediaId)
    ensures var d := U.DropMedia(db, set k | k in gone);
      U.DropMedia(db, set k | k in gone + [m]) ==
      U.Db(d.jobs, d.media - {m}, map s | s in d.bySha && d.bySha[s] != m :: d.bySha[s])
  {}
}
