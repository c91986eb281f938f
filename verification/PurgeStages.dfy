/** The state a permanent delete works on: live files, staging directories and media rows. */
module PurgeStages {
  import opened Records
  import opened World

  /** One directory under .purging. `tmp` is the manifest before its rename. */
  datatype StageDir = StageDir(tmp: bool, manifest: Option<MediaId>, files: map<Artifact, Content>)

  datatype Disk = Disk(
    live: map<Path, Content>,
    stages: map<StageId, StageDir>,
    rows: map<MediaId, MediaStatus>)

  // ---- one primitive each ----

  function MakeDir(d: Disk, s: StageId): Disk {
    d.(stages := d.stages[s := StageDir(false, None, map[])])
  }

  function WriteTmp(d: Disk, s: StageId): Disk
    requires s in d.stages
  {
    d.(stages := d.stages[s := d.stages[s].(tmp := true)])
  }

  function NameManifest(d: Disk, s: StageId, m: MediaId): Disk
    requires s in d.stages
  {
    d.(stages := d.stages[s := d.stages[s].(tmp := false, manifest := Some(m))])
  }

  function DropManifest(d: Disk, s: StageId): Disk
    requires s in d.stages
  {
    d.(stages := d.stages[s := d.stages[s].(manifest := None)])
  }

  function DropDir(d: Disk, s: StageId): Disk {
    d.(stages := d.stages - {s})
  }

  function MoveIn(d: Disk, s: StageId, p: Path): Disk
    requires s in d.stages && p in d.live
  {
    d.(live := d.live - {p},
       stages := d.stages[s := d.stages[s].(files := d.stages[s].files[p.art := d.live[p]])])
  }

  function MoveOut(d: Disk, s: StageId, p: Path): Disk
    requires s in d.stages && p.art in d.stages[s].files
  {
    d.(live := d.live[p := d.stages[s].files[p.art]],
       stages := d.stages[s := d.stages[s].(files := d.stages[s].files - {p.art})])
  }

  function DropFile(d: Disk, s: StageId, art: Artifact): Disk
    requires s in d.stages
  {
    d.(stages := d.stages[s := d.stages[s].(files := d.stages[s].files - {art})])
  }

  function DeleteRows(d: Disk, gone: set<MediaId>): Disk {
    d.(rows := d.rows - gone)
  }

  // ---- what every interruption leaves behind ----

  /** Stage `s` holds the file of path `p`. */
  predicate Holds(d: Disk, s: StageId, p: Path) {
    s in d.stages && d.stages[s].manifest == Some(p.m) && p.art in d.stages[s].files
  }

  ghost predicate Staged(d: Disk, p: Path) {
    exists s :: Holds(d, s, p)
  }

  /** A staged file has a manifest saying whose it is, and the content it was moved with. */
  ghost predicate Labelled(d: Disk, base: map<Path, Content>) {
    && (forall s | s in d.stages && d.stages[s].files != map[] :: d.stages[s].manifest.Some?)
    && (forall s, p: Path | Holds(d, s, p) ::
          p in base && d.stages[s].files[p.art] == base[p] && p !in d.live)
  }

  ghost predicate Single(d: Disk) {
    forall s, t, p: Path | Holds(d, s, p) && Holds(d, t, p) :: s == t
  }

  /** Every file of a present row is in place or staged; no file of a deleted row is in place. */
  ghost predicate Placed(d: Disk, base: map<Path, Content>) {
    && (forall p | p in d.live && p.m in d.rows :: p in base)
    && (forall p | p in base && p in d.live :: p.m in d.rows && d.live[p] == base[p])
    && (forall p | p in base && p.m in d.rows && p !in d.live :: Staged(d, p))
  }

  /** `base` is every file of every row there was before the purge began. */
  ghost predicate Recoverable(d: Disk, base: map<Path, Content>) {
    Labelled(d, base) && Single(d) && Placed(d, base)
  }

  /** Present rows have all their files in place, deleted rows have none in place and none staged. */
  ghost predicate Settled(d: Disk, base: map<Path, Content>) {
    && (forall p | p in base && p.m in d.rows :: p in d.live && d.live[p] == base[p])
    && (forall p | p in base && p.m !in d.rows :: p !in d.live)
    && (forall s | s in d.stages :: d.stages[s].files == map[])
  }

  lemma EmptyStagesAreSettled(d: Disk, base: map<Path, Content>)
    requires Recoverable(d, base)
    requires forall s | s in d.stages :: d.stages[s].files == map[]
    ensures Settled(d, base)
  {
    assert forall p | Staged(d, p) :: false;
  }

  /** A change that stages nothing new, and gives up a staged file only by putting it back or for a deleted row. */
  lemma ShrinksSafely(d: Disk, e: Disk, base: map<Path, Content>)
    requires Recoverable(d, base)
    requires forall t | t in e.stages && e.stages[t].files != map[] :: e.stages[t].manifest.Some?
    requires forall t, q: Path | Holds(e, t, q) ::
               Holds(d, t, q) && e.stages[t].files[q.art] == d.stages[t].files[q.art] && q !in e.live
    requires forall q | q in e.live && q.m in e.rows :: q in base
    requires forall q | q in base && q in e.live :: q.m in e.rows && e.live[q] == base[q]
    requires forall q | q in base && q.m in e.rows && q !in e.live :: q.m in d.rows && q !in d.live
    requires forall t, q: Path | Holds(d, t, q) && q.m in e.rows && q !in e.live :: Holds(e, t, q)
    ensures Recoverable(e, base)
  {
    hide Holds, Staged;
    forall q | q in base && q.m in e.rows && q !in e.live ensures Staged(e, q) {
      StagedBy(d, q);
      var t :| Holds(d, t, q);
      StagedIn(e, t, q);
    }
  }

  lemma StagedBy(d: Disk, q: Path)
    requires Staged(d, q)
    ensures exists t :: Holds(d, t, q)
  {}

  lemma StagedIn(d: Disk, t: StageId, q: Path)
    requires Holds(d, t, q)
    ensures Staged(d, q)
  {}

  lemma HeldFacts(d: Disk, base: map<Path, Content>, s: StageId, p: Path)
    requires Recoverable(d, base) && Holds(d, s, p)
    ensures p in base && d.stages[s].files[p.art] == base[p] && p !in d.live
    ensures forall t | Holds(d, t, p) :: t == s
  {}

  lemma PlacedFacts(d: Disk, base: map<Path, Content>)
    requires Recoverable(d, base)
    ensures forall s, p: Path | Holds(d, s, p) :: p in base && d.stages[s].files[p.art] == base[p] && p !in d.live
    ensures forall s | s in d.stages && d.stages[s].files != map[] :: d.stages[s].manifest.Some?
    ensures forall p | p in base && p in d.live :: p.m in d.rows && d.live[p] == base[p]
    ensures forall p | p in d.live && p.m in d.rows :: p in base
  {
    hide Holds;
  }

  /** Directories and manifests may change freely where no file is. */
  lemma EmptyDirKeeps(d: Disk, base: map<Path, Content>, s: StageId, dir: StageDir)
    requires Recoverable(d, base) && dir.files == map[]
    requires s in d.stages ==> d.stages[s].files == map[]
    ensures Recoverable(d.(stages := d.stages[s := dir]), base)
  {
    hide Recoverable;
    PlacedFacts(d, base);
    ShrinksSafely(d, d.(stages := d.stages[s := dir]), base);
  }

  lemma DropDirKeeps(d: Disk, base: map<Path, Content>, s: StageId)
    requires Recoverable(d, base)
    requires s in d.stages ==> d.stages[s].files == map[]
    ensures Recoverable(DropDir(d, s), base)
  {
    hide Recoverable;
    PlacedFacts(d, base);
    ShrinksSafely(d, DropDir(d, s), base);
  }

  lemma LeavesOthers(d: Disk, s: StageId, p: Path)
    requires Holds(d, s, p)
    ensures forall t, q: Path | Holds(MoveOut(d, s, p), t, q) ::
              Holds(d, t, q) && (t != s || q != p) && MoveOut(d, s, p).stages[t].files[q.art] == d.stages[t].files[q.art]
    ensures forall t, q: Path | Holds(d, t, q) && (t != s || q != p) :: Holds(MoveOut(d, s, p), t, q)
    ensures forall t | t in MoveOut(d, s, p).stages :: t in d.stages && MoveOut(d, s, p).stages[t].manifest == d.stages[t].manifest
    ensures forall t | t in MoveOut(d, s, p).stages && MoveOut(d, s, p).stages[t].files != map[] :: d.stages[t].files != map[]
  {}

  lemma MoveOutKeeps(d: Disk, base: map<Path, Content>, s: StageId, p: Path)
    requires Recoverable(d, base) && Holds(d, s, p) && p.m in d.rows
    ensures p !in d.live && Recoverable(MoveOut(d, s, p), base)
  {
    hide Recoverable;
    PlacedFacts(d, base);
    HeldFacts(d, base, s, p);
    LeavesOthers(d, s, p);
    ShrinksSafely(d, MoveOut(d, s, p), base);
  }

  lemma DropFileKeeps(d: Disk, base: map<Path, Content>, s: StageId, art: Artifact)
    requires Recoverable(d, base) && s in d.stages && d.stages[s].manifest.Some?
    requires d.stages[s].manifest.value !in d.rows
    ensures Recoverable(DropFile(d, s, art), base)
  {
    hide Recoverable;
    PlacedFacts(d, base);
    ShrinksSafely(d, DropFile(d, s, art), base);
  }

  /** The commit is safe once no file of a deleted row is in place. */
  lemma DeleteRowsKeeps(d: Disk, base: map<Path, Content>, gone: set<MediaId>)
    requires Recoverable(d, base)
    requires forall p | p in base && p.m in gone :: p !in d.live
    ensures Recoverable(DeleteRows(d, gone), base)
  {
    hide Recoverable;
    PlacedFacts(d, base);
    ShrinksSafely(d, DeleteRows(d, gone), base);
  }

  lemma StatusesKeep(d: Disk, base: map<Path, Content>, rows: map<MediaId, MediaStatus>)
    requires Recoverable(d, base) && rows.Keys == d.rows.Keys
    ensures Recoverable(d.(rows := rows), base)
  {
    hide Recoverable;
    PlacedFacts(d, base);
    ShrinksSafely(d, d.(rows := rows), base);
  }

  lemma MoveInKeeps(d: Disk, base: map<Path, Content>, s: StageId, p: Path)
    requires Recoverable(d, base) && s in d.stages && d.stages[s].manifest == Some(p.m)
    requires p in d.live && p.m in d.rows
    ensures Recoverable(MoveIn(d, s, p), base)
  {
    hide Staged;
    var e := MoveIn(d, s, p);
    forall t, q: Path | Holds(e, t, q) ensures (t == s && q == p) || Holds(d, t, q) {}
    forall q | q in base && q.m in e.rows && q !in e.live ensures Staged(e, q) {
      if q == p {
        StagedIn(e, s, q);
      } else {
        StagedBy(d, q);
        var t :| Holds(d, t, q);
        StagedIn(e, t, q);
      }
    }
  }
}
