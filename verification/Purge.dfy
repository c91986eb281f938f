/**
  Permanent deletion and its recovery, with the machine free to stop after any
  primitive operation: once `steps` is used up every operation fails and changes
  nothing, so whatever the procedures still try has no effect. Any operation may
  also fail on its own; `faults` counts both.
  */
module Purge {
  import opened Records
  import opened World
  import opened PurgeStages

  datatype Entry = Entry(s: StageId, m: MediaId)

  class Volume {
    var d: Disk
    var referenced: set<MediaId>
    var nextStage: StageId
    var steps: nat
    var faults: nat

    ghost predicate Valid(base: map<Path, Content>)
      reads this
    {
      Recoverable(d, base) && forall s | s in d.stages :: s < nextStage
    }

    constructor (d: Disk, steps: nat, next: StageId)
      requires forall s | s in d.stages :: s < next
      ensures this.d == d && this.steps == steps && nextStage == next
    {
      this.d, this.steps, this.nextStage, this.referenced, this.faults := d, steps, next, {}, 0;
    }

    /** Whether the next primitive operation happens. */
    method Proceed() returns (ok: bool)
      modifies this`steps, this`faults
      ensures ok ==> faults == old(faults)
      ensures !ok ==> faults > old(faults)
    {
      var fails: bool := *;
      if steps == 0 || fails {
        faults := faults + 1;
        return false;
      }
      steps := steps - 1;
      return true;
    }

    // ---- staging ----

    method MakeStage() returns (s: Option<StageId>)
      modifies this
      ensures nextStage >= old(nextStage) && referenced == old(referenced) && faults >= old(faults)
      ensures s == None ==> d == old(d) && faults > old(faults)
      ensures s.Some? ==> d == MakeDir(old(d), s.value) && s.value == old(nextStage) < nextStage
    {
      var ok := Proceed();
      if !ok { return None; }
      ok := Proceed();
      if !ok { return None; }
      s := Some(nextStage);
      d := MakeDir(d, nextStage);
      nextStage := nextStage + 1;
    }

    /** RemoveAll of a stage that holds no file: as much of it as happens. */
    method RemoveAll(s: StageId, ghost base: map<Path, Content>)
      requires Valid(base) && s in d.stages && d.stages[s].files == map[]
      modifies this
      ensures Valid(base) && SameButStage(old(d), d, s) && d.live == old(d.live) && faults >= old(faults)
      ensures referenced == old(referenced)
    {
      var ok := Proceed();
      if !ok { return; }
      EmptyDirKeeps(d, base, s, StageDir(false, None, map[]));
      d := d.(stages := d.stages[s := StageDir(false, None, map[])]);
      ok := Proceed();
      if !ok { return; }
      DropDirKeeps(d, base, s);
      d := DropDir(d, s);
    }

    method WriteManifest(s: StageId, m: MediaId, ghost base: map<Path, Content>) returns (ok: bool)
      requires Valid(base) && s in d.stages && d.stages[s].files == map[]
      modifies this
      ensures Valid(base) && SameButStage(old(d), d, s) && d.live == old(d.live) && faults >= old(faults)
      ensures s in d.stages && d.stages[s].files == map[] && (ok ==> d.stages[s].manifest == Some(m))
      ensures !ok ==> faults > old(faults)
      ensures referenced == old(referenced)
    {
      ok := Proceed();
      if !ok { return; }
      EmptyDirKeeps(d, base, s, d.stages[s].(tmp := true));
      d := WriteTmp(d, s);
      ok := Proceed();
      if !ok { return; }
      ok := Proceed();
      if !ok { return; }
      EmptyDirKeeps(d, base, s, d.stages[s].(tmp := false, manifest := Some(m)));
      d := NameManifest(d, s, m);
      ok := Proceed();
    }

    /** moveIfExists for one artifact, with the two directory syncs after the rename. */
    method MoveIfExists(s: StageId, p: Path, ghost base: map<Path, Content>) returns (ok: bool)
      requires Valid(base) && s in d.stages && d.stages[s].manifest == Some(p.m)
      requires p.m in d.rows
      modifies this
      ensures Valid(base) && SameButStage(old(d), d, s) && faults >= old(faults) && referenced == old(referenced)
      ensures s in d.stages && d.stages[s].manifest == Some(p.m)
      ensures d.live == old(d.live) || d.live == old(d.live) - {p}
      ensures ok ==> p !in d.live
      ensures !ok ==> faults > old(faults)
    {
      ok := Proceed();
      if !ok { return; }
      if p in d.live {
        MoveInKeeps(d, base, s, p);
        d := MoveIn(d, s, p);
      }
      ok := Proceed();
      if !ok { return; }
      ok := Proceed();
    }

    method StageForPurge(m: MediaId, ghost base: map<Path, Content>) returns (stage: Option<Entry>)
      requires Valid(base) && m in d.rows
      modifies this
      ensures Valid(base) && d.rows == old(d.rows) && faults >= old(faults) && referenced == old(referenced)
      ensures forall p | p in d.live :: p in old(d.live) || p.m == m
      ensures forall t | t in old(d.stages) :: t in d.stages && d.stages[t] == old(d.stages)[t]
      ensures stage.Some? ==>
                && stage.value.m == m && stage.value.s !in old(d.stages)
                && stage.value.s in d.stages && d.stages[stage.value.s].manifest == Some(m)
                && forall p: Path | p.m == m :: p !in d.live
      ensures stage == None ==> faults > old(faults)
      ensures d.stages.Keys <= old(d.stages).Keys + (if stage.Some? then {stage.value.s} else {}) || faults > old(faults)
    {
      hide Recoverable;
      var made := MakeStage();
      if made == None { return None; }
      var s := made.value;
      EmptyDirKeeps(old(d), base, s, StageDir(false, None, map[]));
      var ok := WriteManifest(s, m, base);
      if !ok {
        RemoveAll(s, base);
        return None;
      }
      ok := Proceed();
      if !ok {
        RemoveAll(s, base);
        return None;
      }
      ok := MoveFiles(s, m, base);
      if !ok {
        var _ := Restore(Entry(s, m), base);
        return None;
      }
      return Some(Entry(s, m));
    }

    method MoveFiles(s: StageId, m: MediaId, ghost base: map<Path, Content>) returns (ok: bool)
      requires Valid(base) && s in d.stages && d.stages[s].manifest == Some(m) && m in d.rows
      modifies this
      ensures Valid(base) && SameButStage(old(d), d, s) && faults >= old(faults) && referenced == old(referenced)
      ensures s in d.stages && d.stages[s].manifest == Some(m)
      ensures forall p | p in d.live :: p in old(d.live)
      ensures ok ==> forall p: Path | p.m == m :: p !in d.live
      ensures !ok ==> faults > old(faults)
    {
      hide Recoverable;
      ok := MoveIfExists(s, Path(m, Original), base);
      if !ok { return; }
      ok := MoveIfExists(s, Path(m, Thumbnail), base);
      if !ok { return; }
      ok := MoveIfExists(s, Path(m, Preview), base);
      if !ok { return; }
      NoneLive(d.live, m);
      ok := Proceed();
    }

    // ---- putting back ----

    /** restoreIfExists: never over a file that is already in place. */
    method RestoreIfExists(s: StageId, p: Path) returns (ok: bool)
      requires s in d.stages
      modifies this`d, this`steps, this`faults
      ensures faults >= old(faults)
      ensures d == old(d) || (p.art in old(d.stages)[s].files && p !in old(d.live) && d == MoveOut(old(d), s, p))
      ensures ok ==> s in d.stages && p.art !in d.stages[s].files
      ensures !ok ==> faults > old(faults) || (p in old(d.live) && p.art in old(d.stages)[s].files)
    {
      ok := Proceed();
      if !ok { return; }
      if p.art !in d.stages[s].files { return; }
      ok := Proceed();
      if !ok { return; }
      if p in d.live { return false; }
      ok := Proceed();
      if !ok { return; }
      d := MoveOut(d, s, p);
    }

    /** One artifact goes back where it belongs, and only a fault can prevent it. */
    method PutBack(e: Entry, art: Artifact, ghost base: map<Path, Content>) returns (ok: bool)
      requires Valid(base) && e.s in d.stages && d.stages[e.s].manifest == Some(e.m) && e.m in d.rows
      modifies this
      ensures Valid(base) && SameButStage(old(d), d, e.s) && faults >= old(faults) && referenced == old(referenced)
      ensures nextStage == old(nextStage)
      ensures e.s in d.stages && d.stages[e.s].manifest == Some(e.m)
      ensures d.stages[e.s].files.Keys <= old(d.stages)[e.s].files.Keys
      ensures forall p | p in d.live :: p in old(d.live) || p.m == e.m
      ensures ok ==> art !in d.stages[e.s].files
      ensures !ok ==> faults > old(faults)
    {
      hide Recoverable;
      var p := Path(e.m, art);
      if Holds(d, e.s, p) { MoveOutKeeps(d, base, e.s, p); }
      ok := RestoreIfExists(e.s, p);
    }

    method Restore(e: Entry, ghost base: map<Path, Content>) returns (ok: bool)
      requires Valid(base) && e.s in d.stages && d.stages[e.s].manifest == Some(e.m) && e.m in d.rows
      modifies this
      ensures Valid(base) && SameButStage(old(d), d, e.s) && faults >= old(faults) && referenced == old(referenced)
      ensures nextStage == old(nextStage)
      ensures forall p | p in d.live :: p in old(d.live) || p.m == e.m
      ensures faults == old(faults) ==> e.s !in d.stages
    {
      hide Recoverable, Holds;
      ok := PutBack(e, Original, base);
      if !ok { return; }
      ok := PutBack(e, Thumbnail, base);
      if !ok { return; }
      ok := PutBack(e, Preview, base);
      if !ok { return; }
      ok := Proceed();
      if !ok { return; }
      ok := Proceed();
      if !ok { return; }
      ok := Proceed();
      if !ok { return; }
      NoArtifacts(d.stages[e.s].files);
      ok := RemoveManifestAndDir(e.s, base);
    }

    // ---- removing for good ----

    method DropStaged(e: Entry, art: Artifact, ghost base: map<Path, Content>) returns (ok: bool)
      requires Valid(base) && e.s in d.stages && d.stages[e.s].manifest == Some(e.m) && e.m !in d.rows
      modifies this
      ensures Valid(base) && SameButStage(old(d), d, e.s) && faults >= old(faults) && referenced == old(referenced)
      ensures d.live == old(d.live) && nextStage == old(nextStage)
      ensures e.s in d.stages && d.stages[e.s].manifest == Some(e.m)
      ensures d.stages[e.s].files.Keys <= old(d.stages)[e.s].files.Keys
      ensures ok ==> art !in d.stages[e.s].files
      ensures !ok ==> faults > old(faults)
    {
      hide Recoverable;
      ok := Proceed();
      if !ok { return; }
      DropFileKeeps(d, base, e.s, art);
      d := DropFile(d, e.s, art);
    }

    method Finalize(e: Entry, ghost base: map<Path, Content>) returns (ok: bool)
      requires Valid(base) && e.s in d.stages && d.stages[e.s].manifest == Some(e.m) && e.m !in d.rows
      modifies this
      ensures Valid(base) && SameButStage(old(d), d, e.s) && faults >= old(faults) && referenced == old(referenced)
      ensures d.live == old(d.live) && nextStage == old(nextStage)
      ensures faults == old(faults) ==> e.s !in d.stages
    {
      hide Recoverable;
      ok := DropStaged(e, Original, base);
      if !ok { return; }
      ok := DropStaged(e, Thumbnail, base);
      if !ok { return; }
      ok := DropStaged(e, Preview, base);
      if !ok { return; }
      ok := Proceed();
      if !ok { return; }
      NoArtifacts(d.stages[e.s].files);
      ok := RemoveManifestAndDir(e.s, base);
    }

    method RemoveManifestAndDir(s: StageId, ghost base: map<Path, Content>) returns (ok: bool)
      requires Valid(base) && s in d.stages && d.stages[s].files == map[]
      modifies this
      ensures Valid(base) && SameButStage(old(d), d, s) && faults >= old(faults) && referenced == old(referenced)
      ensures d.live == old(d.live) && nextStage == old(nextStage)
      ensures faults == old(faults) ==> s !in d.stages
    {
      hide Recoverable;
      ok := Proceed();
      if !ok { return; }
      EmptyDirKeeps(d, base, s, d.stages[s].(manifest := None));
      d := DropManifest(d, s);
      ok := Proceed();
      if !ok { return; }
      ok := Proceed();
      if !ok { return; }
      DropDirKeeps(d, base, s);
      d := DropDir(d, s);
      ok := Proceed();
    }

    // ---- the permanent delete ----

    /** Moderation and the queue go on: any row may change status, any job may resolve or finish. */
    method Others(ghost base: map<Path, Content>)
      requires Valid(base)
      modifies this`d, this`referenced
      ensures Valid(base) && d == old(d).(rows := d.rows) && d.rows.Keys == old(d.rows).Keys
    {
      var statuses: map<MediaId, MediaStatus> := *;
      var rows := map m | m in d.rows :: if m in statuses then statuses[m] else d.rows[m];
      StatusesKeep(d, base, rows);
      d := d.(rows := rows);
      referenced := *;
    }

    /** Each requested row once, if it exists; None when one is not trashed or a look-up fails. */
    method SelectItems(ids: seq<MediaId>) returns (items: Option<seq<MediaId>>)
      modifies this`steps, this`faults
      ensures faults >= old(faults)
      ensures items.Some? ==> forall m :: m in items.value <==> m in ids && m in d.rows
      ensures items == None ==> faults > old(faults) || exists m :: m in ids && m in d.rows && d.rows[m] != Trashed
    {
      var seen: set<MediaId> := {};
      var found: seq<MediaId> := [];
      for i := 0 to |ids|
        invariant faults >= old(faults)
        invariant forall m :: m in found <==> m in ids[..i] && m in d.rows
        invariant forall m :: m in seen <==> m in ids[..i]
      {
        var id := ids[i];
        if id !in seen {
          seen := seen + {id};
          var ok := Proceed();
          if !ok { return None; }
          if id in d.rows {
            if d.rows[id] != Trashed { return None; }
            found := found + [id];
          }
        }
      }
      assert ids[..|ids|] == ids;
      return Some(found);
    }

    ghost predicate StagesOf(es: seq<Entry>)
      reads this
    {
      OneEach(es) && AreStaged(d, es, 0)
    }

    method StageAll(items: seq<MediaId>, ghost base: map<Path, Content>) returns (es: seq<Entry>, ok: bool)
      requires Valid(base) && forall m | m in items :: m in d.rows
      modifies this
      ensures Valid(base) && d.rows == old(d.rows) && faults >= old(faults) && referenced == old(referenced)
      ensures StagesOf(es) && (forall e | e in es :: e.m in items && e.s !in old(d.stages))
      ensures ok ==> forall p | p in d.live :: p.m !in items
      ensures !ok ==> faults > old(faults)
      ensures faults > old(faults) || d.stages.Keys <= old(d.stages).Keys + (set e | e in es :: e.s)
    {
      hide Recoverable;
      es := [];
      for i := 0 to |items|
        invariant Valid(base) && d.rows == old(d.rows) && faults >= old(faults) && referenced == old(referenced)
        invariant StagesOf(es) && forall e | e in es :: e.m in items && e.s !in old(d.stages)
        invariant old(d.stages).Keys <= d.stages.Keys
        invariant forall p | p in d.live :: p.m !in items[..i]
        invariant faults > old(faults) || d.stages.Keys <= old(d.stages).Keys + (set e | e in es :: e.s)
      {
        var stage := StageForPurge(items[i], base);
        if stage == None {
          return es, false;
        }
        es := es + [stage.value];
      }
      assert items[..|items|] == items;
      ok := true;
    }

    /** Finalize what the commit deleted, restore everything else. */
    method CloseAll(es: seq<Entry>, gone: set<MediaId>, ghost base: map<Path, Content>)
      requires Valid(base) && StagesOf(es)
      requires forall e | e in es :: e.m in gone <==> e.m !in d.rows
      modifies this
      ensures Valid(base) && d.rows == old(d.rows) && faults >= old(faults) && referenced == old(referenced)
      ensures faults > old(faults) || d.stages.Keys <= old(d.stages).Keys - (set e | e in es :: e.s)
    {
      hide Recoverable;
      for i := 0 to |es|
        invariant Valid(base) && d.rows == old(d.rows) && faults >= old(faults) && referenced == old(referenced)
        invariant AreStaged(d, es, i)
        invariant d.stages.Keys <= old(d.stages).Keys
        invariant faults > old(faults) || forall k | 0 <= k < i :: es[k].s !in d.stages
      {
        ghost var before := d;
        if es[i].m in gone {
          var _ := Finalize(es[i], base);
        } else {
          var _ := Restore(es[i], base);
        }
        RestAreStaged(before, d, es, i);
      }
    }

    /** Still there, because it was not trashed or an unfinished job needed it when the commit looked. */
    ghost predicate Spared(m: MediaId)
      reads this
    {
      m in d.rows && (d.rows[m] != Trashed || m in referenced)
    }

    /** The transaction: the guard is evaluated at commit, and a failed commit deletes nothing. */
    method PurgeTrashed(items: seq<MediaId>, ghost base: map<Path, Content>) returns (changed: Option<set<MediaId>>)
      requires Valid(base) && forall p | p in d.live :: p.m !in items
      modifies this
      ensures Valid(base) && faults >= old(faults) && d == old(d).(rows := d.rows)
      ensures changed == None ==> d.rows.Keys == old(d.rows).Keys && faults > old(faults)
      ensures changed.Some? ==>
                && d.rows.Keys == old(d.rows).Keys - changed.value
                && (forall m | m in changed.value :: m in items && m in old(d.rows) && m !in referenced)
                && (forall m | m in items && m in old(d.rows) && m !in changed.value :: Spared(m))
    {
      var ok := Proceed();
      if !ok { return None; }
      Others(base);
      var gone := set m | m in items && m in d.rows && d.rows[m] == Trashed && m !in referenced;
      ok := Proceed();
      if !ok { return None; }
      DeleteRowsKeeps(d, base, gone);
      d := DeleteRows(d, gone);
      return Some(gone);
    }

    /**
      Wherever the machine stops and whatever fails, what is left is recoverable, and
      the only rows deleted are requested ones, in the one commit: all of them but
      those the commit had to spare. Nothing is deleted only for a fault, or because a
      requested item is not trashed. Without a fault no stage is left behind either.
      */
    method PurgeMedia(ids: seq<MediaId>, ghost base: map<Path, Content>) returns (changed: Option<set<MediaId>>)
      requires Valid(base)
      modifies this
      ensures Valid(base) && faults >= old(faults)
      ensures d.rows.Keys == old(d.rows).Keys - (if changed.Some? then changed.value else {})
      ensures changed.Some? ==>
                && (forall m | m in changed.value :: m in ids && m in old(d.rows))
                && (forall m | m in ids && m in old(d.rows) && m !in changed.value :: Spared(m))
      ensures changed == None ==>
                faults > old(faults) || exists m :: m in ids && m in old(d.rows) && old(d.rows)[m] != Trashed
      ensures faults > old(faults) || d.stages.Keys <= old(d.stages).Keys
    {
      hide Recoverable;
      var items := SelectItems(ids);
      if items == None { return None; }
      var ok := Proceed();
      if !ok { return None; }

      var es;
      es, ok := StageAll(items.value, base);
      if !ok {
        CloseAll(es, {}, base);
        return None;
      }
      changed := PurgeTrashed(items.value, base);
      CloseAll(es, if changed.Some? then changed.value else {}, base);
    }

    // ---- recovery ----

    /** Stages with a readable manifest; an empty directory without one is removed, any other is left alone. */
    method LoadPurgeStages(ghost base: map<Path, Content>) returns (es: seq<Entry>)
      requires Valid(base)
      modifies this
      ensures Valid(base) && d.rows == old(d.rows) && faults >= old(faults) && StagesOf(es)
      ensures faults > old(faults) ||
                forall s | s in d.stages && d.stages[s].files != map[] :: exists i :: 0 <= i < |es| && es[i].s == s
    {
      es := [];
      var ok := Proceed();
      if !ok { return; }
      var left := d.stages.Keys;
      while left != {}
        invariant Valid(base) && d.rows == old(d.rows) && faults >= old(faults)
        invariant left <= d.stages.Keys
        invariant StagesOf(es) && forall e | e in es :: e.s !in left
        invariant faults > old(faults) ||
                    forall s | s in d.stages && d.stages[s].files != map[] && s !in left ::
                      exists i :: 0 <= i < |es| && es[i].s == s
        decreases |left|
      {
        var s :| s in left;
        left := left - {s};
        ok := Proceed();
        if ok {
          if d.stages[s].manifest.Some? {
            var before := es;
            es := es + [Entry(s, d.stages[s].manifest.value)];
            assert es[|before|].s == s;
            assert forall i | 0 <= i < |before| :: es[i] == before[i];
          } else if !d.stages[s].tmp && d.stages[s].files == map[] {
            ok := Proceed();
            if ok {
              DropDirKeeps(d, base, s);
              d := DropDir(d, s);
            }
          }
        }
      }
    }

    /** A pass that meets no fault settles everything; any other leaves it recoverable. */
    method ReconcilePurgeStages(ghost base: map<Path, Content>)
      requires Valid(base)
      modifies this
      ensures Valid(base) && d.rows == old(d.rows) && faults >= old(faults)
      ensures faults == old(faults) ==> Settled(d, base)
    {
      var es := LoadPurgeStages(base);
      label Loaded:
      for i := 0 to |es|
        invariant Valid(base) && d.rows == old(d.rows) && faults >= old@Loaded(faults)
        invariant AreStaged(d, es, i)
        invariant faults > old(faults) ||
                    forall s | s in d.stages && d.stages[s].files != map[] :: exists k :: i <= k < |es| && es[k].s == s
      {
        ghost var before := d;
        ReconcileOne(es[i], base);
        RestAreStaged(before, d, es, i);
      }
      if faults == old(faults) {
        EmptyStagesAreSettled(d, base);
      }
    }

    method ReconcileOne(e: Entry, ghost base: map<Path, Content>)
      requires Valid(base) && e.s in d.stages && d.stages[e.s].manifest == Some(e.m)
      modifies this
      ensures Valid(base) && SameButStage(old(d), d, e.s) && faults >= old(faults)
      ensures faults == old(faults) ==> e.s !in d.stages
    {
      hide Recoverable;
      var ok := Proceed();
      if !ok { return; }
      if e.m in d.rows {
        var _ := Restore(e, base);
      } else {
        var _ := Finalize(e, base);
      }
    }

    /** A restart, or the next tick: the machine may again stop at any later point. */
    method Resume()
      modifies this`steps
    {
      steps := *;
    }

    /**
      The crash-atomicity of permanent deletion: a delete stopped anywhere, any number
      of partial recoveries, then one recovery that meets no fault.
      */
    method DeleteAndRecover(ids: seq<MediaId>, passes: nat, ghost base: map<Path, Content>) returns (complete: bool)
      requires Valid(base)
      modifies this
      ensures Valid(base)
      ensures d.rows.Keys <= old(d.rows).Keys && forall m | m in old(d.rows) && m !in d.rows :: m in ids
      ensures complete ==> Settled(d, base)
    {
      hide Recoverable, Settled;
      var changed := PurgeMedia(ids, base);
      ghost var rows := d.rows;
      for i := 0 to passes
        invariant Valid(base) && d.rows == rows
      {
        Resume();
        ReconcilePurgeStages(base);
      }
      Resume();
      var before := faults;
      ReconcilePurgeStages(base);
      complete := faults == before;
    }
  }

  /** Rows are untouched, and so is every stage but one. */
  ghost predicate SameButStage(d: Disk, e: Disk, s: StageId) {
    && e.rows == d.rows
    && e.stages.Keys <= d.stages.Keys + {s}
    && forall t | t in d.stages && t != s :: t in e.stages && e.stages[t] == d.stages[t]
  }

  /** No stage is listed twice. */
  predicate OneEach(es: seq<Entry>) {
    forall i, k | 0 <= i < k < |es| :: es[i].s != es[k].s
  }

  /** From index `i` on, each entry is a stage whose manifest names its item. */
  predicate AreStaged(d: Disk, es: seq<Entry>, i: nat) {
    forall k | i <= k < |es| :: es[k].s in d.stages && d.stages[es[k].s].manifest == Some(es[k].m)
  }

  lemma RestAreStaged(d: Disk, e: Disk, es: seq<Entry>, i: nat)
    requires OneEach(es) && AreStaged(d, es, i) && i < |es| && SameButStage(d, e, es[i].s)
    ensures AreStaged(e, es, i + 1)
  {}

  lemma NoArtifacts(files: map<Artifact, Content>)
    requires Original !in files && Thumbnail !in files && Preview !in files
    ensures files == map[]
  {
    forall a: Artifact ensures a !in files {
      match a case Original => case Thumbnail => case Preview =>
    }
  }

  lemma NoneLive(live: map<Path, Content>, m: MediaId)
    requires Path(m, Original) !in live && Path(m, Thumbnail) !in live && Path(m, Preview) !in live
    ensures forall p: Path | p.m == m :: p !in live
  {
    forall p: Path | p.m == m ensures p !in live {
      match p.art case Original => case Thumbnail => case Preview =>
    }
  }
}
