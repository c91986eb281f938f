/**
  The reconciler's passes over the upload directory: what it does about each upload
  it lists, in which order, and the evidence it needs before it adopts a file nobody
  vouches for. It only ever looks at files; removing them is the workers' business.
  */
module Adoption {
  import opened Records
  import opened Reconciliation
  import S = Store
  import B = Barrier

  /** One look at a data file. */
  datatype Observation = Observation(size: nat, modTime: Time)

  /** What the .info file proves, if it was read. */
  datatype Sidecar = Trusted(size: nat, declared: Option<Digest>) | Missing | Untrusted | Unread

  /** Everything one reconcileOne saw, and when. A row that could not be read is a failure, not an absence. */
  datatype Look = Look(row: Option<Job>, data: Option<Observation>, infoPresent: bool, sidecar: Sidecar, at: Time)

  datatype Action =
    | Leave
    | Commit
    | Reopen(target: Status)
    | AdoptListed(size: nat, declared: Option<Digest>)
    | AdoptBare(size: nat)

  /** What one reconcileOne did after its looks at the row and at both paths, in order. */
  datatype Event = Issued(d: Deed) | SidecarRead(evidence: Sidecar) | Barred(v: B.Verdict)

  /** A directory entry, as the name it leads to, or one the pass skips. */
  datatype Name = DataOf(u: UploadId) | InfoOf(u: UploadId) | Skipped

  /** What a pass did before its inventory: the sweep, and the closures of rows without files. */
  datatype Opening = Opening(sweep: Deed, listing: Listing, closures: seq<Closure>)

  datatype Pass = Pass(
    opening: Opening,
    listed: set<UploadId>,
    looks: map<UploadId, Look>,
    actions: map<UploadId, Action>,
    traces: map<UploadId, seq<Event>>,
    witnessed: map<UploadId, Observation>,
    complete: bool)

  /** A closure that deleted nothing is dropped, and the upload counts as having no row. */
  predicate Rowless(row: Option<Job>) {
    row == None || (row.value.status == Discarded && row.value.reason == Unobservable)
  }

  // ---- what each action rests on ----

  /** An earlier pass saw exactly this, and no completed pass since failed to list the upload. */
  ghost predicate Evidence(passes: seq<Pass>, u: UploadId, seen: Observation) {
    exists k :: 0 <= k < |passes| && Witnesses(passes[k], u, seen) && ListedSince(passes, k, u)
  }

  predicate Witnesses(p: Pass, u: UploadId, seen: Observation) {
    u in p.witnessed && p.witnessed[u] == seen
  }

  ghost predicate ListedSince(passes: seq<Pass>, k: nat, u: UploadId) {
    forall m | k < m < |passes| && passes[m].complete :: u in passes[m].listed
  }

  /** Still uploading by its row, yet complete by its size. */
  predicate NeedsBarrier(l: Look) {
    l.row.Some? && l.row.value.status == Uploading && l.data.Some? && l.data.value.size == l.row.value.expectedSize
  }

  /** Finished, and not for want of bytes, yet some file of it is there. */
  predicate CameBack(l: Look) {
    l.row.Some? && Terminal(l.row.value.status) && !Rowless(l.row) && (l.data.Some? || l.infoPresent)
  }

  /** No row, and a sidecar that vouches for exactly this file. */
  predicate Vouched(l: Look) {
    Rowless(l.row) && l.data.Some? && l.sidecar.Trusted? && l.sidecar.size == l.data.value.size
  }

  /** No row and no sidecar: only time can vouch for it. */
  predicate Bare(l: Look) {
    Rowless(l.row) && l.data.Some? && l.sidecar == Missing
  }

  /** Which look leads to which action, both ways. */
  predicate Decides(l: Look, a: Action, witnessed: bool) {
    && (a == Commit <==> NeedsBarrier(l))
    && (a.Reopen? <==> CameBack(l))
    && (a.Reopen? ==> a.target == if l.row.value.status == Discarded then Discarding else Cleanup)
    && (a.AdoptListed? <==> Vouched(l))
    && (a.AdoptBare? <==> Bare(l) && witnessed)
    && (a.AdoptListed? || a.AdoptBare? ==> l.data.Some? && a.size == l.data.value.size)
    && (a.AdoptListed? ==> a.declared == l.sidecar.declared)
  }

  /** A bare adoption needs age, and evidence from before this pass. */
  ghost predicate Justified(passes: seq<Pass>, quiet: nat, u: UploadId, l: Look, a: Action) {
    && Decides(l, a, a.AdoptBare?)
    && (a.AdoptBare? && l.data.Some? ==>
          l.at - l.data.value.modTime >= quiet && Evidence(passes, u, l.data.value))
  }

  // ---- what each look and action lead to ----

  predicate Issues(e: Event, s: Statement) {
    e.Issued? && e.d.s == s && Lawful(e.d)
  }

  /** The upload is created for the size that was seen, and only a created one goes on to the barrier. */
  predicate Creates(u: UploadId, size: nat, declared: Option<Digest>, t: seq<Event>) {
    && |t| >= 1 && t[0].Issued? && t[0].d.s.CreateUploading?
    && Issues(t[0], CreateUploading(u, t[0].d.s.m, size, declared))
    && if t[0].d.result == Done then |t| == 2 && t[1].Barred? else |t| == 1
  }

  predicate Acts(u: UploadId, a: Action, t: seq<Event>) {
    match a
    case Leave => t == []
    case Commit => |t| == 1 && t[0].Barred?
    case Reopen(target) => |t| == 1 && Issues(t[0], ReopenTerminal(u, target))
    case AdoptListed(size, declared) => Creates(u, size, declared, t)
    case AdoptBare(size) => Creates(u, size, None, t)
  }

  /** The sidecar is read exactly where it decides: a file, and no row. */
  predicate Concludes(u: UploadId, l: Look, a: Action, t: seq<Event>) {
    if Rowless(l.row) && l.data.Some? then
      l.sidecar != Unread && |t| >= 1 && t[0] == SidecarRead(l.sidecar) && Acts(u, a, t[1..])
    else
      l.sidecar == Unread && Acts(u, a, t)
  }

  /** An unobservable row is dropped first; if that fails nothing follows. */
  predicate Carries(u: UploadId, l: Look, a: Action, t: seq<Event>) {
    if l.row.Some? && Rowless(l.row) then
      && |t| >= 1 && Issues(t[0], DeleteTerminal(u))
      && if t[0].d.result == Faulted then |t| == 1 && a == Leave && l.sidecar == Unread
         else Concludes(u, l, a, t[1..])
    else
      Concludes(u, l, a, t)
  }

  /** Sweep and closures come before the inventory, each on its own terms. */
  predicate Opens(o: Opening, interval: nat) {
    && o.sweep.s == SweepCancelled(o.sweep.at - interval) && Lawful(o.sweep)
    && Closes(o.listing, o.closures)
  }

  class Reconciler {
    const quiet: nat
    const interval: nat
    var sightings: map<UploadId, Observation>
    var ready: bool
    ghost var passes: seq<Pass>

    constructor (retention: nat, fallback: nat, interval: nat)
      ensures Valid() && passes == [] && !ready && this.interval == interval
      ensures quiet == if retention == 0 then fallback else retention
    {
      quiet := if retention == 0 then fallback else retention;
      this.interval := interval;
      sightings, ready, passes := map[], false, [];
    }

    ghost predicate Valid()
      reads this
    {
      forall u | u in sightings :: Evidence(passes, u, sightings[u])
    }

    /** Between two passes and within one, each entry comes from the pass in progress or has evidence. */
    ghost predicate Tracks(current: map<UploadId, Observation>)
      reads this
    {
      forall u | u in sightings ::
        if u in current then sightings[u] == current[u] else Evidence(passes, u, sightings[u])
    }

    method AdoptionWitnessed(u: UploadId, seen: Observation, now: Time, ghost current: map<UploadId, Observation>)
      returns (ok: bool)
      requires Tracks(current) && u !in current
      modifies this`sightings
      ensures Tracks(current[u := seen])
      ensures ok ==> now - seen.modTime >= quiet && Evidence(passes, u, seen)
      ensures ok <==> now - seen.modTime >= quiet && u in old(sightings) && old(sightings)[u] == seen
    {
      hide Evidence;
      var before := if u in sightings then Some(sightings[u]) else None;
      sightings := sightings[u := seen];
      return now - seen.modTime >= quiet && before == Some(seen);
    }

    /** CreateUploadingJob, and the barrier if it went through. */
    method Adopt(store: S.Store, u: UploadId, size: nat, declared: Option<Digest>) returns (ghost t: seq<Event>)
      modifies store
      ensures Creates(u, size, declared, t)
    {
      var m: MediaId := *;
      var result, d := Issue(store, CreateUploading(u, m, size, declared));
      t := [Issued(d)];
      if result == Done {
        var v := Reconciliation.EnsureDurable(store, u);
        t := t + [Barred(v)];
      }
    }

    /** The row was not in the way, or is not any more. */
    method ReconcileRowless(store: S.Store, u: UploadId, seen: Look, ghost current: map<UploadId, Observation>)
      returns (l: Look, a: Action, ghost t: seq<Event>, ghost after: map<UploadId, Observation>)
      requires Tracks(current) && u !in current && Rowless(seen.row) && seen.sidecar == Unread
      modifies this`sightings, store
      ensures Tracks(after) && (after == current || (l.data.Some? && after == current[u := l.data.value]))
      ensures l == seen.(sidecar := l.sidecar) && Concludes(u, l, a, t) && Justified(passes, quiet, u, l, a)
      ensures l.data.Some? ==>
                Decides(l, a, l.at - l.data.value.modTime >= quiet
                              && u in old(sightings) && old(sightings)[u] == l.data.value)
    {
      hide Evidence, Acts, Creates;
      l, a, t, after := seen, Leave, [], current;
      ActsNot(u);
      if l.data == None { return; }
      var evidence: Sidecar :| evidence != Unread;
      l := l.(sidecar := evidence);
      ghost var rest: seq<Event> := [];
      match evidence {
        case Trusted(size, declared) =>
          if l.data.value.size == size {
            a := AdoptListed(size, declared);
            rest := Adopt(store, u, size, declared);
            ActsByAdopting(u, a, rest);
          }
        case Untrusted =>
        case Missing =>
          var ok := AdoptionWitnessed(u, l.data.value, l.at, current);
          after := current[u := l.data.value];
          if ok {
            a := AdoptBare(l.data.value.size);
            rest := Adopt(store, u, l.data.value.size, None);
            ActsByAdopting(u, a, rest);
          }
      }
      t := [SidecarRead(evidence)] + rest;
      assert t[1..] == rest;
    }

    /** The row, then both paths; what follows depends on the row. */
    method ReconcileOne(store: S.Store, u: UploadId, ghost current: map<UploadId, Observation>)
      returns (look: Option<Look>, a: Action, ghost t: seq<Event>, ghost after: map<UploadId, Observation>)
      requires Tracks(current) && u !in current
      modifies this`sightings, store
      ensures Tracks(after) && (after == current || (look.Some? && look.value.data.Some? && after == current[u := look.value.data.value]))
      ensures look == None ==> a == Leave && t == [] && sightings == old(sightings)
      ensures look.Some? ==> Justified(passes, quiet, u, look.value, a) && Carries(u, look.value, a, t)
      ensures look.Some? && look.value.data.Some? && look.value.sidecar != Unread ==>
                Decides(look.value, a, look.value.at - look.value.data.value.modTime >= quiet
                                       && u in old(sightings) && old(sightings)[u] == look.value.data.value)
    {
      hide Evidence, Acts, Concludes;
      B.Others(store);
      a, t, after := Leave, [], current;
      var readable: bool := *;
      if !readable { return None, a, t, after; }
      var row := if u in store.jobs then Some(store.jobs[u]) else None;
      var data: Option<Observation>, infoPresent: bool, at: Time := *, *, *;
      var l := Look(row, data, infoPresent, Unread, at);
      if row.Some? && !Rowless(row) {
        a, t := ReconcileRow(store, u, l);
        return Some(l), a, t, after;
      }
      ghost var first: seq<Event> := [];
      if row.Some? {
        var result, d := Issue(store, DeleteTerminal(u));
        first := [Issued(d)];
        if result == Faulted {
          return Some(l), a, first, after;
        }
      }
      ghost var rest;
      l, a, rest, after := ReconcileRowless(store, u, l, current);
      look, t := Some(l), first + rest;
      assert row.Some? ==> t[1..] == rest;
      assert row == None ==> t == rest;
    }

    /** A row that says what the upload is. */
    method ReconcileRow(store: S.Store, u: UploadId, l: Look) returns (a: Action, ghost t: seq<Event>)
      requires l.row.Some? && !Rowless(l.row) && l.sidecar == Unread
      modifies store
      ensures Decides(l, a, false) && Concludes(u, l, a, t)
    {
      a, t := Leave, [];
      match l.row.value.status {
        case Uploading =>
          if l.data.Some? && l.data.value.size == l.row.value.expectedSize {
            a := Commit;
            var v := Reconciliation.EnsureDurable(store, u);
            t := [Barred(v)];
          }
        case Complete =>
          if l.data.Some? || l.infoPresent {
            a := Reopen(Cleanup);
            var _, d := Issue(store, ReopenTerminal(u, Cleanup));
            t := [Issued(d)];
          }
        case Discarded =>
          if l.data.Some? || l.infoPresent {
            a := Reopen(Discarding);
            var _, d := Issue(store, ReopenTerminal(u, Discarding));
            t := [Issued(d)];
          }
        case _ =>
      }
    }

    method ForgetAdoptionCandidates(seen: set<UploadId>)
      modifies this`sightings
      ensures sightings == map u | u in old(sightings) && u in seen :: old(sightings)[u]
    {
      sightings := map u | u in sightings && u in seen :: sightings[u];
    }

    /** sweepCancelled and resolveRowsWithoutFiles. */
    method OpenPass(store: S.Store) returns (ghost o: Opening)
      modifies store
      ensures Opens(o, interval)
    {
      var _, sweep := Sweep(store, interval);
      var listing, closures := ResolveRowsWithoutFiles(store, interval);
      o := Opening(sweep, listing, closures);
    }

    /**
      One pass over one listing. Each upload is looked at once however many names it
      has; every action is justified, bare adoptions by strictly earlier passes, and
      carried out in order. Shutdown may cut the pass short. An unreadable directory
      is no pass at all: nothing is swept, closed or decided on the strength of it.
      */
    method ReconcileOnce(store: S.Store, entries: Option<seq<Name>>) returns (ok: bool)
      requires Valid()
      modifies this, store
      ensures Valid() && ready == old(ready)
      ensures entries == None ==> !ok && passes == old(passes) && store.State() == old(store.State())
      ensures entries.Some? ==>
                && |passes| == |old(passes)| + 1 && passes[..|old(passes)|] == old(passes)
                && var p := passes[|old(passes)|];
                   && Opens(p.opening, interval)
                   && p.complete == ok && p.actions.Keys == p.traces.Keys == p.looks.Keys <= p.listed
                   && (ok ==> p.listed == Listed(entries.value))
                   && forall u | u in p.looks ::
                        && Justified(old(passes), quiet, u, p.looks[u], p.actions[u])
                        && Carries(u, p.looks[u], p.actions[u], p.traces[u])
    {
      hide Evidence, Justified, Carries, Opens;
      if entries == None { return false; }
      var opening := OpenPass(store);
      var names := entries.value;
      var seen: set<UploadId> := {};
      ghost var p := Pass(opening, {}, map[], map[], map[], map[], false);
      var cut := false;
      var i := 0;
      while i < |names| && !cut
        invariant 0 <= i <= |names| && passes == old(passes) && ready == old(ready)
        invariant seen == Listed(names[..i]) && p.listed == seen && !p.complete && p.opening == opening
        invariant p.actions.Keys == p.traces.Keys == p.looks.Keys <= seen && p.witnessed.Keys <= seen
        invariant Tracks(p.witnessed)
        invariant forall u | u in p.looks :: Justified(passes, quiet, u, p.looks[u], p.actions[u])
        invariant forall u | u in p.looks :: Carries(u, p.looks[u], p.actions[u], p.traces[u])
        decreases |names| - i, !cut
      {
        cut := *;
        if !cut {
          ListedSnoc(names, i);
          if !names[i].Skipped? && names[i].u !in seen {
            var u := names[i].u;
            seen := seen + {u};
            var look, a;
            ghost var t, after;
            look, a, t, after := ReconcileOne(store, u, p.witnessed);
            p := p.(listed := seen, witnessed := after);
            if look.Some? {
              p := p.(looks := p.looks[u := look.value], actions := p.actions[u := a], traces := p.traces[u := t]);
            }
          }
          i := i + 1;
        }
      }
      if !cut {
        ForgetAdoptionCandidates(seen);
        assert names[..|names|] == names;
      }
      PassIsRecorded(passes, p.(complete := !cut), sightings);
      passes := passes + [p.(complete := !cut)];
      return !cut;
    }

    /** Readiness opens only on a completed pass that shutdown has not overtaken. */
    method RecoverInventory(store: S.Store, entries: Option<seq<Name>>) returns (stopped: bool)
      requires Valid()
      modifies this, store
      ensures Valid()
      ensures ready <==> old(ready) || (|passes| > |old(passes)| && passes[|passes| - 1].complete && !stopped)
    {
      var ok := ReconcileOnce(store, entries);
      stopped := *;
      if ok && !stopped { ready := true; }
    }
  }

  lemma ActsNot(u: UploadId)
    ensures Acts(u, Leave, [])
  {}

  lemma ActsByAdopting(u: UploadId, a: Action, t: seq<Event>)
    requires a.AdoptListed? || a.AdoptBare?
    requires Creates(u, a.size, if a.AdoptListed? then a.declared else None, t)
    ensures Acts(u, a, t)
  {}

  function Listed(names: seq<Name>): set<UploadId> {
    set n | n in names && !n.Skipped? :: n.u
  }

  lemma ListedSnoc(names: seq<Name>, i: nat)
    requires i < |names|
    ensures Listed(names[..i + 1]) == Listed(names[..i]) + (if names[i].Skipped? then {} else {names[i].u})
  {
    assert names[..i + 1] == names[..i] + [names[i]];
  }

  /** Evidence carries over a pass that listed the upload, or was cut short; a fresh look is evidence itself. */
  lemma PassIsRecorded(passes: seq<Pass>, p: Pass, sightings: map<UploadId, Observation>)
    requires forall u | u in sightings ::
               if u in p.witnessed then sightings[u] == p.witnessed[u] else Evidence(passes, u, sightings[u])
    requires p.complete ==> forall u | u in sightings :: u in p.listed
    ensures forall u | u in sightings :: Evidence(passes + [p], u, sightings[u])
  {
    var all := passes + [p];
    forall u | u in sightings ensures Evidence(all, u, sightings[u]) {
      if u in p.witnessed {
        assert Witnesses(all[|passes|], u, sightings[u]) && ListedSince(all, |passes|, u);
      } else {
        var k :| 0 <= k < |passes| && Witnesses(passes[k], u, sightings[u]) && ListedSince(passes, k, u);
        assert Witnesses(all[k], u, sightings[u]) && ListedSince(all, k, u);
      }
    }
  }
}
