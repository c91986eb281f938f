/** Every operation of a processing attempt keeps the invariant. */
module ProcessingSteps {
  import opened Records
  import opened UploadJobs
  import opened World
  import opened Invariant
  import opened Frames

  lemma HashKeeps(r: Rules, w: World, t: Token)
    requires Inv(w) && EnabledProcessing(w, Hash(t))
    ensures Inv(ApplyProcessing(r, w, Hash(t)))
  {
    hide Inv;
    AttemptFacts(w, t);
    AdvanceKeeps(w, t, ApplyProcessing(r, w, Hash(t)).attempts[t]);
  }

  lemma ReuseOriginalKeeps(r: Rules, w: World, t: Token)
    requires Inv(w) && EnabledProcessing(w, ReuseOriginal(t))
    ensures Inv(ApplyProcessing(r, w, ReuseOriginal(t)))
  {
    hide Inv;
    AttemptFacts(w, t);
    AdvanceKeeps(w, t, w.attempts[t].(pc := Renamed));
  }

  lemma CopyKeeps(r: Rules, w: World, t: Token)
    requires Inv(w) && EnabledProcessing(w, Copy(t))
    ensures Inv(ApplyProcessing(r, w, Copy(t)))
  {
    hide Inv;
    AttemptFacts(w, t);
    AdvanceKeeps(w, t, ApplyProcessing(r, w, Copy(t)).attempts[t]);
  }

  lemma VerifyKeeps(r: Rules, w: World, t: Token)
    requires Inv(w) && EnabledProcessing(w, Verify(t))
    ensures Inv(ApplyProcessing(r, w, Verify(t)))
  {
    hide Inv;
    AttemptFacts(w, t);
    AdvanceKeeps(w, t, w.attempts[t].(pc := Verified));
  }

  lemma CheckDuplicateKeeps(r: Rules, w: World, t: Token)
    requires Inv(w) && EnabledProcessing(w, CheckDuplicate(t))
    ensures Inv(ApplyProcessing(r, w, CheckDuplicate(t)))
  {
    hide Inv;
    AttemptFacts(w, t);
    AdvanceKeeps(w, t, w.attempts[t].(pc := Checked));
  }

  lemma RecordIdentityKeeps(r: Rules, w: World, t: Token)
    requires Inv(w) && EnabledProcessing(w, RecordIdentity(t))
    ensures Inv(ApplyProcessing(r, w, RecordIdentity(t)))
  {
    hide Inv;
    AttemptFacts(w, t);
    var a := w.attempts[t];
    var k := RecordIdentityRow(w.db.jobs[a.u], a.content, w.clock);
    CalmRowKeeps(w, a.u, k, None);
    AdvanceKeeps(WithJob(w, a.u, k), t, a.(pc := Identified));
  }

  lemma RecordPreparedKeeps(r: Rules, w: World, t: Token)
    requires Inv(w) && EnabledProcessing(w, RecordPrepared(t))
    ensures Inv(ApplyProcessing(r, w, RecordPrepared(t)))
  {
    hide Inv;
    AttemptFacts(w, t);
    var a := w.attempts[t];
    var k := RecordPreparedRow(w.db.jobs[a.u], w.clock);
    CalmRowKeeps(w, a.u, k, None);
    AdvanceKeeps(WithJob(w, a.u, k), t, a.(pc := Marked));
  }

  lemma RejectKeeps(r: Rules, w: World, t: Token)
    requires Inv(w) && EnabledProcessing(w, Reject(t))
    ensures Inv(ApplyProcessing(r, w, Reject(t)))
  {
    hide Inv;
    AttemptFacts(w, t);
    var a := w.attempts[t];
    if Holds(w.db, a.u, t) {
      CalmRowKeeps(w, a.u, FinishRow(w.db.jobs[a.u], Discarding, a.pc.reason, w.clock), Some(t));
    } else {
      AdvanceKeeps(w, t, a.(pc := Finished));
    }
  }

  // ---- operations on files ----

  /** Attempts of one incarnation agree about its content. */
  lemma SameContent(w: World, t: Token, m: MediaId, c: Content)
    requires Inv(w)
    requires t in w.attempts && Running(w.attempts[t]) && w.attempts[t].job.status == Processing
    requires w.attempts[t].job.mediaId == m && KnowsContent(w.attempts[t].pc) && c == w.attempts[t].content
    ensures m in w.published ==> c == w.published[m]
    ensures forall v | v in w.attempts && Running(w.attempts[v]) && w.attempts[v].job.status == Processing
                       && w.attempts[v].job.mediaId == m && HasVerified(w.attempts[v].pc) ::
              w.attempts[v].content == c
  {
    hide Inv;
    AttemptFacts(w, t);
    forall v | v in w.attempts && Running(w.attempts[v]) && w.attempts[v].job.status == Processing
               && w.attempts[v].job.mediaId == m && HasVerified(w.attempts[v].pc)
      ensures w.attempts[v].content == c
    {
      AttemptFacts(w, v);
      SameIncarnation(w, w.attempts[t].u, w.attempts[v].u);
    }
  }

  lemma RenameKeeps(r: Rules, w: World, t: Token)
    requires Inv(w) && EnabledProcessing(w, Rename(t))
    ensures Inv(ApplyProcessing(r, w, Rename(t)))
  {
    hide Inv;
    RenamedKeeps(w, t);
  }

  lemma RenamedKeeps(w: World, t: Token)
    requires Inv(w) && At(w, t, Processing, Copied)
    ensures var a := w.attempts[t];
      Inv(Moved(w, t, Renamed).(live := w.live[Path(a.job.mediaId, Original) := a.copy]))
  {
    hide QueueInv, SourceInv, MediaInv, RowKnown, InStage, Holds;
    AttemptFacts(w, t);
    var a := w.attempts[t];
    var w1 := w.(live := w.live[Path(a.job.mediaId, Original) := a.copy]);
    SameContent(w, t, a.job.mediaId, a.copy);
    SameQueue(w, w1);
    SameSources(w, w1);
    WriteOriginalKeeps(w, a.job.mediaId, a.copy);
    AdvanceKeeps(w1, t, a.(pc := Renamed));
  }

  lemma SyncOriginalKeepsInv(r: Rules, w: World, t: Token)
    requires Inv(w) && EnabledProcessing(w, SyncOriginal(t))
    ensures Inv(ApplyProcessing(r, w, SyncOriginal(t)))
  {
    hide QueueInv, SourceInv, MediaInv, RowKnown, InStage, Holds;
    AttemptFacts(w, t);
    var a := w.attempts[t];
    var w1 := w.(flushedOriginals := w.flushedOriginals + {a.job.mediaId});
    SameQueue(w, w1);
    SameSources(w, w1);
    SyncOriginalKeeps(w, a.job.mediaId);
    AdvanceKeeps(w1, t, a.(pc := Synced));
  }

  lemma DerivedFilesKeep(w: World, m: MediaId, thumbnail: Option<Content>, preview: Option<Content>)
    requires MediaInv(w)
    ensures MediaInv(w.(live := WithDerived(w.live, m, thumbnail, preview)))
  {
    hide MediaInv;
    OtherFilesKeep(w, WithDerived(w.live, m, thumbnail, preview));
  }

  lemma DeriveKeeps(r: Rules, w: World, t: Token, thumbnail: Option<Content>, preview: Option<Content>)
    requires Inv(w) && EnabledProcessing(w, Derive(t, thumbnail, preview))
    ensures Inv(ApplyProcessing(r, w, Derive(t, thumbnail, preview)))
  {
    hide Inv, WithDerived;
    DerivedKeeps(w, t, thumbnail, preview);
  }

  lemma DerivedSparesOriginals(live: map<Path, Content>, m: MediaId, thumbnail: Option<Content>, preview: Option<Content>)
    ensures var l := WithDerived(live, m, thumbnail, preview);
      Path(m, Original) in live ==> Path(m, Original) in l && l[Path(m, Original)] == live[Path(m, Original)]
  {}

  lemma DerivedKeeps(w: World, t: Token, thumbnail: Option<Content>, preview: Option<Content>)
    requires Inv(w) && At(w, t, Processing, Checked)
    ensures Inv(Moved(w, t, Derived).(live := WithDerived(w.live, w.attempts[t].job.mediaId, thumbnail, preview)))
  {
    hide QueueInv, SourceInv, MediaInv, WithDerived, RowKnown, InStage, Holds;
    AttemptFacts(w, t);
    var a := w.attempts[t];
    var live' := WithDerived(w.live, a.job.mediaId, thumbnail, preview);
    var w1 := w.(live := live');
    SameQueue(w, w1);
    SameSources(w, w1);
    DerivedFilesKeep(w, a.job.mediaId, thumbnail, preview);
    DerivedSparesOriginals(w.live, a.job.mediaId, thumbnail, preview);
    AdvanceKeeps(w1, t, a.(pc := Derived));
  }

  // ---- publication ----

  /** What a verified attempt knows when its publication finds the row still its own. */
  ghost predicate MayPublish(w: World, t: Token) {
    && t in w.attempts
    && var a := w.attempts[t];
       && CanPublish(w.db, a.u, t)
       && a.job.status == Processing && a.pc == Derived
       && var j := w.db.jobs[a.u];
          && RowShape(j)
          && j.mediaId == a.job.mediaId && j.mediaId in w.usedMedia
          && j.authoritative.Some?
          && a.u in w.durable && a.content == w.durable[a.u]
          && j.mediaId !in w.published && j.mediaId in w.flushedOriginals
          && Path(j.mediaId, Original) in w.live && w.live[Path(j.mediaId, Original)] == a.content
  }

  /** No other procedure acts on the media id about to be published. */
  ghost predicate Sole(w: World, t: Token)
    requires t in w.attempts
  {
    var a := w.attempts[t];
    && (forall v | v in w.db.jobs && w.db.jobs[v].mediaId == a.job.mediaId :: v == a.u)
    && (forall v | v in w.attempts && w.attempts[v].pc == Unowned && w.attempts[v].job.status != Processing ::
          w.attempts[v].job.mediaId != a.job.mediaId)
  }

  lemma PublisherIsSole(w: World, t: Token)
    requires Inv(w) && MayPublish(w, t)
    ensures Sole(w, t)
  {
    hide Inv;
    var a := w.attempts[t];
    forall v | v in w.db.jobs && w.db.jobs[v].mediaId == a.job.mediaId ensures v == a.u {
      SameIncarnation(w, v, a.u);
    }
    forall v | v in w.attempts && w.attempts[v].pc == Unowned && w.attempts[v].job.status != Processing
      ensures w.attempts[v].job.mediaId != a.job.mediaId
    {
      AttemptFacts(w, v);
    }
  }

  /** The world after a publication that found its row. */
  function Committed(w: World, t: Token): World
    requires t in w.attempts && w.attempts[t].u in w.db.jobs
  {
    Moved(PublishedWorld(w, t), t, Finished)
  }

  lemma PublishQueue(w: World, t: Token)
    requires QueueInv(w) && MayPublish(w, t)
    ensures QueueInv(Committed(w, t))
  {
    hide QueueInv;
    var w', a := Committed(w, t), w.attempts[t];
    var w1 := CalmWorld(w, a.u, w'.db.jobs[a.u], Some(t));
    CalmRowQueue(w, a.u, w'.db.jobs[a.u], Some(t));
    if a.content in w.db.bySha {
      SameQueue(w1, w');
    } else {
      PublicationQueue(w1, a.job.mediaId, a.content);
      SameQueue(w1.(published := w'.published), w');
    }
  }

  lemma PublishSources(w: World, t: Token)
    requires SourceInv(w) && MayPublish(w, t)
    ensures SourceInv(Committed(w, t))
  {
    hide SourceInv;
    var w', u := Committed(w, t), w.attempts[t].u;
    CalmRowSources(w, u, w'.db.jobs[u], Some(t));
    SameSources(CalmWorld(w, u, w'.db.jobs[u], Some(t)), w');
  }

  lemma PublishNewResolved(w: World, t: Token)
    requires WorkInv(w) && MayPublish(w, t) && w.attempts[t].content !in w.db.bySha
    requires w.attempts[t].job.mediaId !in w.db.media
    ensures var w' := Committed(w, t);
      Resolved(w'.db.jobs, w'.db.media, w'.durable, w'.latePurged, w'.reopened)
      && LatePurges(w'.latePurged, w'.usedMedia, w'.db.jobs)
  {
    hide Prepared, Publications, Disowned;
  }

  lemma PublishNewPrepared(w: World, t: Token)
    requires WorkInv(w) && MayPublish(w, t) && Sole(w, t) && w.attempts[t].content !in w.db.bySha
    ensures var w' := Committed(w, t);
      Prepared(w'.db.jobs, w'.attempts, w'.live, w'.flushedOriginals) && Disowned(w'.attempts, w'.db.media)
  {
    hide Resolved, LatePurges, Publications;
  }

  lemma PublishNewPublications(w: World, t: Token)
    requires WorkInv(w) && MayPublish(w, t) && Sole(w, t) && w.attempts[t].content !in w.db.bySha
    ensures var w' := Committed(w, t);
      Publications(w'.db.jobs, w'.published, w'.durable, w'.flushedOriginals)
  {
    hide Resolved, LatePurges, Prepared, Disowned;
  }

  lemma PublishNewWork(w: World, t: Token)
    requires WorkInv(w) && MayPublish(w, t) && Sole(w, t) && w.attempts[t].content !in w.db.bySha
    requires w.attempts[t].job.mediaId !in w.db.media
    ensures WorkInv(Committed(w, t))
  {
    hide Resolved, LatePurges, Prepared, Disowned, Publications, MayPublish, Sole;
    PublishNewResolved(w, t);
    PublishNewPrepared(w, t);
    PublishNewPublications(w, t);
  }

  lemma UnpublishedIsAbsent(w: World, t: Token)
    requires GalleryInv(w) && MayPublish(w, t)
    ensures w.attempts[t].job.mediaId !in w.db.media
  {}

  lemma PublishNewGallery(w: World, t: Token)
    requires GalleryInv(w) && MayPublish(w, t) && w.attempts[t].content !in w.db.bySha
    ensures GalleryInv(Committed(w, t))
  {
    hide Gallery, LiveOriginals, Stages, Originals;
    PublishNewIndex(w, t);
    PublishNewFiles(w, t);
    PublishNewOriginals(w, t);
  }

  lemma PublishNewIndex(w: World, t: Token)
    requires GalleryInv(w) && MayPublish(w, t) && w.attempts[t].content !in w.db.bySha
    ensures var x := Committed(w, t);
      Gallery(x.db.media, x.db.bySha, x.published)
  {
    hide LiveOriginals, Stages, Originals;
  }

  lemma PublishNewFiles(w: World, t: Token)
    requires GalleryInv(w) && MayPublish(w, t) && w.attempts[t].content !in w.db.bySha
    ensures var x := Committed(w, t);
      LiveOriginals(x.live, x.published) && Stages(x.stages, x.db.media, x.published)
  {
    hide Originals;
  }

  lemma PublishNewOriginals(w: World, t: Token)
    requires GalleryInv(w) && MayPublish(w, t) && w.attempts[t].content !in w.db.bySha
    ensures var x := Committed(w, t);
      Originals(x.db.media, x.live, x.stages, x.home)
  {
    hide LiveOriginals, Stages;
  }

  lemma PublishDuplicateWork(w: World, t: Token)
    requires WorkInv(w) && GalleryInv(w) && MayPublish(w, t) && w.attempts[t].content in w.db.bySha
    ensures WorkInv(Committed(w, t))
  {
    hide Prepared, Publications, Resolved, LatePurges, Disowned;
    PublishDuplicateResolved(w, t);
    PublishDuplicateAttempts(w, t);
    PublishDuplicateRows(w, t);
  }

  lemma PublishDuplicateResolved(w: World, t: Token)
    requires WorkInv(w) && GalleryInv(w) && MayPublish(w, t) && w.attempts[t].content in w.db.bySha
    ensures var x := Committed(w, t);
      Resolved(x.db.jobs, x.db.media, x.durable, x.latePurged, x.reopened)
  {
    hide Prepared, Publications, Disowned, LiveOriginals, Stages, Originals;
  }

  lemma PublishDuplicateAttempts(w: World, t: Token)
    requires WorkInv(w) && MayPublish(w, t) && w.attempts[t].content in w.db.bySha
    ensures var x := Committed(w, t);
      && Prepared(x.db.jobs, x.attempts, x.live, x.flushedOriginals)
      && Disowned(x.attempts, x.db.media)
  {
    hide Resolved, Publications, LatePurges;
  }

  lemma PublishDuplicateRows(w: World, t: Token)
    requires WorkInv(w) && MayPublish(w, t) && w.attempts[t].content in w.db.bySha
    ensures var x := Committed(w, t);
      && Publications(x.db.jobs, x.published, x.durable, x.flushedOriginals)
      && LatePurges(x.latePurged, x.usedMedia, x.db.jobs)
  {
    hide Resolved, Prepared, Disowned;
  }

  lemma PublishDuplicateGallery(w: World, t: Token)
    requires GalleryInv(w) && MayPublish(w, t) && w.attempts[t].content in w.db.bySha
    ensures GalleryInv(Committed(w, t))
  {}

  lemma PublishMediaKeeps(w: World, t: Token)
    requires MediaInv(w) && t in w.attempts && MayPublish(w, t) && Sole(w, t)
    ensures MediaInv(Committed(w, t))
  {
    hide WorkInv, GalleryInv, MayPublish, Sole, Committed;
    if w.attempts[t].content in w.db.bySha {
      PublishDuplicateWork(w, t);
      PublishDuplicateGallery(w, t);
    } else {
      UnpublishedIsAbsent(w, t);
      PublishNewWork(w, t);
      PublishNewGallery(w, t);
    }
  }

  lemma PublishedKeeps(w: World, t: Token)
    requires Inv(w) && t in w.attempts && MayPublish(w, t)
    ensures Inv(Committed(w, t))
  {
    hide QueueInv, SourceInv, MediaInv, MayPublish, Sole, Committed;
    PublisherIsSole(w, t);
    PublishQueue(w, t);
    PublishSources(w, t);
    PublishMediaKeeps(w, t);
  }

  lemma PublishKeeps(r: Rules, w: World, t: Token)
    requires Inv(w) && EnabledProcessing(w, Publish(t))
    ensures Inv(ApplyProcessing(r, w, Publish(t)))
  {
    hide Inv;
    AttemptFacts(w, t);
    var a := w.attempts[t];
    if CanPublish(w.db, a.u, t) {
      PublishedKeeps(w, t);
    } else {
      AdvanceKeeps(w, t, a.(pc := Finished));
    }
  }
}
