/**
  The crash-safe copy into permanent storage, with any number of attempts
  interleaved. A file's bytes survive a crash once flushed, its name once the
  directory was synced; everything younger may come back as it was, or not at all.
  */
module DurableCopy {
  import opened Records

  type Inode = nat

  /** The deterministic original, or one attempt's lease-scoped temporary. */
  datatype Name = Final | Tmp(t: Token)

  datatype File = File(data: Content, flushed: bool)

  datatype Pc =
    | Begun | Opened(copied: nat) | Copied | FileSynced | DirSynced | Renamed
    | Reusing | Done | Failed

  datatype Attempt = Attempt(pc: Pc, inode: Inode)

  datatype Binding = Binding(name: Name, to: Option<Inode>)

  datatype State = State(
    source: Content,
    inodes: map<Inode, File>,
    dir: map<Name, Inode>,
    past: set<Binding>,                  // bindings replaced since the last directory sync
    attempts: map<Token, Attempt>,
    origin: Option<Content>,             // what was at the final path to begin with
    finished: bool)                      // some attempt has returned nil

  datatype Step =
    | Begin(t: Token)
    | Open(t: Token, i: Inode)
    | Write(t: Token, n: nat)
    | EndCopy(t: Token)
    | SyncFile(t: Token)
    | SyncDir(t: Token)
    | Rename(t: Token)
    | Fail(t: Token, removes: bool)
    | Sweep(t: Token)
    | Crash(dir: map<Name, Inode>, inodes: map<Inode, File>)

  function Bound(dir: map<Name, Inode>, n: Name): Option<Inode> {
    if n in dir then Some(dir[n]) else None
  }

  predicate At(s: State, t: Token, pc: Pc) {
    t in s.attempts && s.attempts[t].pc == pc
  }

  function Moved(s: State, t: Token, pc: Pc): State
    requires t in s.attempts
  {
    s.(attempts := s.attempts[t := s.attempts[t].(pc := pc)])
  }

  function Unbound(s: State, n: Name): State {
    s.(dir := s.dir - {n}, past := s.past + {Binding(n, Bound(s.dir, n))})
  }

  /** Each name comes back as one of the things it was since the last sync; flushed bytes come back exactly. */
  ghost predicate Survives(s: State, dir: map<Name, Inode>, inodes: map<Inode, File>) {
    && (forall n: Name :: Bound(dir, n) == Bound(s.dir, n) || Binding(n, Bound(dir, n)) in s.past)
    && inodes.Keys == s.inodes.Keys
    && (forall i | i in s.inodes && s.inodes[i].flushed :: inodes[i] == s.inodes[i])
  }

  ghost predicate Enabled(s: State, e: Step) {
    if e.Crash? then Survives(s, e.dir, e.inodes) else Possible(s, e)
  }

  /** What a running system can do next. */
  predicate Possible(s: State, e: Step) {
    match e
    case Begin(t) => t !in s.attempts
    case Open(t, i) => At(s, t, Begun) && i !in s.inodes && Tmp(t) !in s.dir
    case Write(t, n) =>
      && t in s.attempts && s.attempts[t].pc.Opened? && s.attempts[t].inode in s.inodes
      && 0 < n && s.attempts[t].pc.copied + n <= |s.source|
    case EndCopy(t) => t in s.attempts && s.attempts[t].pc == Opened(|s.source|)
    case SyncFile(t) => At(s, t, Copied) && s.attempts[t].inode in s.inodes
    case SyncDir(t) => At(s, t, FileSynced) || At(s, t, Renamed) || At(s, t, Reusing)
    case Rename(t) => At(s, t, DirSynced) && Tmp(t) in s.dir
    case Fail(t, _) => t in s.attempts && s.attempts[t].pc != Done
    case Sweep(t) => true
    case Crash(_, _) => false
  }

  function Apply(s: State, e: Step): State
    requires Enabled(s, e)
  {
    match e
    case Begin(t) =>
      // Stat and, when something is there, a full comparison with this upload.
      var pc := if Final !in s.dir then Begun
                else if s.dir[Final] in s.inodes && s.inodes[s.dir[Final]].data == s.source then Reusing
                else Failed;
      s.(attempts := s.attempts[t := Attempt(pc, 0)])
    case Open(t, i) =>
      s.(inodes := s.inodes[i := File([], false)],
         dir := s.dir[Tmp(t) := i],
         past := s.past + {Binding(Tmp(t), Bound(s.dir, Tmp(t)))},
         attempts := s.attempts[t := Attempt(Opened(0), i)])
    case Write(t, n) =>
      var a := s.attempts[t];
      var k := a.pc.copied;
      s.(inodes := s.inodes[a.inode := File(s.inodes[a.inode].data + s.source[k..k + n], false)],
         attempts := s.attempts[t := a.(pc := Opened(k + n))])
    case EndCopy(t) => Moved(s, t, Copied)
    case SyncFile(t) =>
      var i := s.attempts[t].inode;
      Moved(s, t, FileSynced).(inodes := s.inodes[i := s.inodes[i].(flushed := true)])
    case SyncDir(t) =>
      if At(s, t, FileSynced) then Moved(s, t, DirSynced).(past := {})
      else Moved(s, t, Done).(past := {}, finished := true)
    case Rename(t) =>
      Moved(s, t, Renamed).(
        dir := (s.dir - {Tmp(t)})[Final := s.dir[Tmp(t)]],
        past := s.past + {Binding(Tmp(t), Bound(s.dir, Tmp(t))), Binding(Final, Bound(s.dir, Final))})
    case Fail(t, removes) => if removes then Unbound(Moved(s, t, Failed), Tmp(t)) else Moved(s, t, Failed)
    case Sweep(t) => Unbound(s, Tmp(t))
    case Crash(dir, inodes) =>
      s.(dir := dir, inodes := inodes, past := {},
         attempts := map t | t in s.attempts :: if s.attempts[t].pc == Done then s.attempts[t]
                                                else s.attempts[t].(pc := Failed))
  }

  // ---- the invariant ----

  function Wanted(s: State): Content {
    if s.origin.Some? then s.origin.value else s.source
  }

  predicate Exact(s: State, b: Option<Inode>) {
    b.Some? ==> b.value in s.inodes && s.inodes[b.value] == File(Wanted(s), true)
  }

  /** Still writing to, or about to publish, its own temporary. */
  predicate Active(pc: Pc) {
    pc.Opened? || pc == Copied || pc == FileSynced || pc == DirSynced
  }

  predicate Progressed(s: State, a: Attempt) {
    && a.inode in s.inodes
    && (a.pc.Opened? ==> a.pc.copied <= |s.source| && s.inodes[a.inode].data == s.source[..a.pc.copied])
    && (!a.pc.Opened? ==> s.inodes[a.inode].data == s.source)
    && (a.pc == FileSynced || a.pc == DirSynced ==> s.inodes[a.inode].flushed)
  }

  ghost predicate FinalExact(s: State) {
    && Exact(s, Bound(s.dir, Final))
    && (forall b | b in s.past && b.name == Final :: Exact(s, b.to))
    && (s.finished || s.origin.Some? ==> Final in s.dir && Binding(Final, None) !in s.past)
  }

  ghost predicate AttemptsSound(s: State) {
    && (forall t | t in s.attempts && (s.attempts[t].pc == Begun || Active(s.attempts[t].pc)) :: s.origin == None)
    && (forall t | t in s.attempts && Active(s.attempts[t].pc) ::
          && Progressed(s, s.attempts[t])
          && (Tmp(t) in s.dir ==> s.dir[Tmp(t)] == s.attempts[t].inode))
    && (forall t | t in s.attempts && (s.attempts[t].pc == Renamed || s.attempts[t].pc == Reusing) :: Final in s.dir)
    && (forall t | t in s.attempts && s.attempts[t].pc == Done :: s.finished)
  }

  /** No attempt still writes to a file that another attempt or the final path has. */
  ghost predicate Separate(s: State) {
    forall t | t in s.attempts && Active(s.attempts[t].pc) ::
      && Bound(s.dir, Final) != Some(s.attempts[t].inode)
      && Binding(Final, Some(s.attempts[t].inode)) !in s.past
      && forall u | u in s.attempts && Active(s.attempts[u].pc) && s.attempts[u].inode == s.attempts[t].inode :: u == t
  }

  ghost predicate Inv(s: State) {
    FinalExact(s) && AttemptsSound(s) && Separate(s)
  }

  ghost predicate Initial(s: State) {
    && s.attempts == map[] && s.past == {} && !s.finished
    && (s.origin == None <==> Final !in s.dir)
    && (Final in s.dir ==> s.dir[Final] in s.inodes && s.inodes[s.dir[Final]] == File(s.origin.value, true))
  }

  lemma InitialInv(s: State)
    requires Initial(s)
    ensures Inv(s)
  {}

  lemma BeginKeeps(s: State, t: Token)
    requires Inv(s) && Enabled(s, Begin(t))
    ensures Inv(Apply(s, Begin(t)))
  {}

  lemma OpenKeeps(s: State, t: Token, i: Inode)
    requires Inv(s) && Enabled(s, Open(t, i))
    ensures Inv(Apply(s, Open(t, i)))
  {
    hide FinalExact, AttemptsSound, Separate;
    OpenKeepsFinal(s, t, i);
    OpenKeepsAttempts(s, t, i);
    OpenKeepsSeparate(s, t, i);
  }

  lemma OpenKeepsFinal(s: State, t: Token, i: Inode)
    requires Inv(s) && Enabled(s, Open(t, i))
    ensures var x := Apply(s, Open(t, i));
      FinalExact(x)
  {
    hide Separate;
  }

  lemma OpenKeepsAttempts(s: State, t: Token, i: Inode)
    requires Inv(s) && Enabled(s, Open(t, i))
    ensures var x := Apply(s, Open(t, i));
      AttemptsSound(x)
  {
    hide Separate;
  }

  lemma OpenKeepsSeparate(s: State, t: Token, i: Inode)
    requires Inv(s) && Enabled(s, Open(t, i))
    ensures var x := Apply(s, Open(t, i));
      Separate(x)
  {}

  lemma WriteKeeps(s: State, t: Token, n: nat)
    requires Inv(s) && Enabled(s, Write(t, n))
    ensures Inv(Apply(s, Write(t, n)))
  {}

  lemma EndCopyKeeps(s: State, t: Token)
    requires Inv(s) && Enabled(s, EndCopy(t))
    ensures Inv(Apply(s, EndCopy(t)))
  {}

  lemma SyncFileKeeps(s: State, t: Token)
    requires Inv(s) && Enabled(s, SyncFile(t))
    ensures Inv(Apply(s, SyncFile(t)))
  {}

  lemma SyncDirKeeps(s: State, t: Token)
    requires Inv(s) && Enabled(s, SyncDir(t))
    ensures Inv(Apply(s, SyncDir(t)))
  {
    hide FinalExact, AttemptsSound, Separate;
    SyncDirKeepsFinal(s, t);
    SyncDirKeepsAttempts(s, t);
    SyncDirKeepsSeparate(s, t);
  }

  lemma SyncDirKeepsFinal(s: State, t: Token)
    requires Inv(s) && Enabled(s, SyncDir(t))
    ensures var x := Apply(s, SyncDir(t));
      FinalExact(x)
  {
    hide Separate;
  }

  lemma SyncDirKeepsAttempts(s: State, t: Token)
    requires Inv(s) && Enabled(s, SyncDir(t))
    ensures var x := Apply(s, SyncDir(t));
      AttemptsSound(x)
  {
    hide Separate;
  }

  lemma SyncDirKeepsSeparate(s: State, t: Token)
    requires Inv(s) && Enabled(s, SyncDir(t))
    ensures var x := Apply(s, SyncDir(t));
      Separate(x)
  {}

  lemma RenameKeeps(s: State, t: Token)
    requires Inv(s) && Enabled(s, Rename(t))
    ensures Inv(Apply(s, Rename(t)))
  {}

  lemma FailKeeps(s: State, t: Token, removes: bool)
    requires Inv(s) && Enabled(s, Fail(t, removes))
    ensures Inv(Apply(s, Fail(t, removes)))
  {
    if removes { FailRemovingKeeps(s, t); }
  }

  lemma FailRemovingKeeps(s: State, t: Token)
    requires Inv(s) && Enabled(s, Fail(t, true))
    ensures Inv(Apply(s, Fail(t, true)))
  {
    hide FinalExact, AttemptsSound, Separate;
    FailRemovingKeepsFinal(s, t);
    FailRemovingKeepsAttempts(s, t);
    FailRemovingKeepsSeparate(s, t);
  }

  lemma FailRemovingKeepsFinal(s: State, t: Token)
    requires Inv(s) && Enabled(s, Fail(t, true))
    ensures var x := Apply(s, Fail(t, true));
      FinalExact(x)
  {
    hide Separate;
  }

  lemma FailRemovingKeepsAttempts(s: State, t: Token)
    requires Inv(s) && Enabled(s, Fail(t, true))
    ensures var x := Apply(s, Fail(t, true));
      AttemptsSound(x)
  {
    hide Separate;
  }

  lemma FailRemovingKeepsSeparate(s: State, t: Token)
    requires Inv(s) && Enabled(s, Fail(t, true))
    ensures var x := Apply(s, Fail(t, true));
      Separate(x)
  {}

  lemma SweepKeeps(s: State, t: Token)
    requires Inv(s) && Enabled(s, Sweep(t))
    ensures Inv(Apply(s, Sweep(t)))
  {}

  lemma CrashKeeps(s: State, dir: map<Name, Inode>, inodes: map<Inode, File>)
    requires Inv(s) && Enabled(s, Crash(dir, inodes))
    ensures Inv(Apply(s, Crash(dir, inodes)))
  {
    hide FinalExact, AttemptsSound, Separate;
    CrashKeepsFinal(s, dir, inodes);
    CrashKeepsAttempts(s, dir, inodes);
    CrashKeepsSeparate(s, dir, inodes);
  }

  lemma CrashKeepsAttempts(s: State, dir: map<Name, Inode>, inodes: map<Inode, File>)
    requires Inv(s) && Enabled(s, Crash(dir, inodes))
    ensures AttemptsSound(Apply(s, Crash(dir, inodes)))
  {
    hide FinalExact, Separate;
  }

  lemma CrashKeepsSeparate(s: State, dir: map<Name, Inode>, inodes: map<Inode, File>)
    requires Inv(s) && Enabled(s, Crash(dir, inodes))
    ensures Separate(Apply(s, Crash(dir, inodes)))
  {
    hide FinalExact, AttemptsSound;
  }

  lemma CrashKeepsFinal(s: State, dir: map<Name, Inode>, inodes: map<Inode, File>)
    requires Inv(s) && Enabled(s, Crash(dir, inodes))
    ensures FinalExact(Apply(s, Crash(dir, inodes)))
  {
    hide AttemptsSound, Separate;
  }

  lemma StepKeeps(s: State, e: Step)
    requires Inv(s) && Enabled(s, e)
    ensures Inv(Apply(s, e))
  {
    hide Inv, Apply, Enabled;
    match e {
      case Begin(t) => BeginKeeps(s, t);
      case Open(t, i) => OpenKeeps(s, t, i);
      case Write(t, n) => WriteKeeps(s, t, n);
      case EndCopy(t) => EndCopyKeeps(s, t);
      case SyncFile(t) => SyncFileKeeps(s, t);
      case SyncDir(t) => SyncDirKeeps(s, t);
      case Rename(t) => RenameKeeps(s, t);
      case Fail(t, removes) => FailKeeps(s, t, removes);
      case Sweep(t) => SweepKeeps(s, t);
      case Crash(dir, inodes) => CrashKeeps(s, dir, inodes);
    }
  }

  // ---- every interleaving, every crash ----

  ghost predicate IsRun(ss: seq<State>, es: seq<Step>) {
    && |ss| == |es| + 1
    && Initial(ss[0])
    && forall k | 0 <= k < |es| :: Enabled(ss[k], es[k]) && ss[k + 1] == Apply(ss[k], es[k])
  }

  lemma StepRemembers(s: State, e: Step)
    requires Enabled(s, e)
    ensures Apply(s, e).source == s.source && Apply(s, e).origin == s.origin
    ensures s.finished ==> Apply(s, e).finished
  {}

  lemma {:induction false} RunKeeps(ss: seq<State>, es: seq<Step>, k: nat)
    requires IsRun(ss, es) && k < |ss|
    ensures Inv(ss[k]) && ss[k].source == ss[0].source && ss[k].origin == ss[0].origin
  {
    hide Inv, Initial, Enabled, Apply;
    if k == 0 {
      InitialInv(ss[0]);
    } else {
      RunKeeps(ss, es, k - 1);
      StepKeeps(ss[k - 1], es[k - 1]);
      StepRemembers(ss[k - 1], es[k - 1]);
    }
  }

  lemma {:induction false} FinishedForGood(ss: seq<State>, es: seq<Step>, i: nat, k: nat)
    requires IsRun(ss, es) && i <= k < |ss| && ss[i].finished
    ensures ss[k].finished
  {
    hide Inv, Initial, Enabled, Apply;
    if i == k {
    } else {
      FinishedForGood(ss, es, i, k - 1);
      StepRemembers(ss[k - 1], es[k - 1]);
    }
  }

  lemma FinalFacts(s: State)
    requires Inv(s)
    ensures Final in s.dir ==> s.dir[Final] in s.inodes && s.inodes[s.dir[Final]].data == Wanted(s)
    ensures s.finished || s.origin.Some? ==> Final in s.dir
  {}

  /**
    However attempts interleave and wherever a crash falls, the final path is absent
    or holds exactly the source; what was there before is never replaced; and once
    any attempt has returned nil it is there for good, crashes included.
    */
  lemma FinalIsAbsentOrExact(ss: seq<State>, es: seq<Step>, i: nat, k: nat)
    requires IsRun(ss, es) && i <= k < |ss|
    ensures ss[k].source == ss[0].source
    ensures Final in ss[k].dir ==>
              && ss[k].dir[Final] in ss[k].inodes
              && ss[k].inodes[ss[k].dir[Final]].data ==
                   (if ss[0].origin.Some? then ss[0].origin.value else ss[0].source)
    ensures ss[0].origin.Some? || ss[i].finished ==> Final in ss[k].dir
  {
    hide Inv, Initial, Enabled, Apply;
    RunKeeps(ss, es, k);
    FinalFacts(ss[k]);
    if ss[i].finished { FinishedForGood(ss, es, i, k); }
  }

  // ---- one attempt among the others ----

  predicate Concerns(e: Step, t: Token) {
    match e
    case Sweep(_) => false
    case Crash(_, _) => false
    case _ => e.t == t
  }

  lemma OthersSpareAttempt(s: State, e: Step, t: Token)
    requires Enabled(s, e) && !Concerns(e, t) && !e.Crash? && t in s.attempts
    ensures t in Apply(s, e).attempts && Apply(s, e).attempts[t] == s.attempts[t]
  {}

  method FreshInode(inodes: map<Inode, File>) returns (i: Inode)
    ensures i !in inodes
  {
    i := 0;
    var left := inodes.Keys;
    while left != {}
      invariant left <= inodes.Keys
      invariant forall k | k in inodes && k !in left :: k < i
      decreases |left|
    {
      var k :| k in left;
      left := left - {k};
      i := if k < i then i else k + 1;
    }
  }

  class Originals {
    var s: State
    var faults: nat
    const alone: bool

    constructor (s: State, alone: bool)
      ensures this.s == s && this.alone == alone && faults == 0
    {
      this.s, this.alone, this.faults := s, alone, 0;
    }

    /** The other attempts, between two operations of this one. */
    method Others(t: Token)
      requires Inv(s) && t in s.attempts
      modifies this`s
      ensures Inv(s) && t in s.attempts && s.attempts[t] == old(s).attempts[t]
      ensures s.source == old(s).source && s.origin == old(s).origin && (old(s).finished ==> s.finished)
      ensures alone ==> s == old(s)
    {
      hide Inv, Apply, Possible;
      if alone { return; }
      var n: int := *;
      for k := 0 to if n < 0 then 0 else n
        invariant Inv(s) && t in s.attempts && s.attempts[t] == old(s).attempts[t]
        invariant s.source == old(s).source && s.origin == old(s).origin && (old(s).finished ==> s.finished)
      {
        var e: Step := *;
        if !e.Crash? && !Concerns(e, t) && Possible(s, e) {
          StepKeeps(s, e);
          OthersSpareAttempt(s, e, t);
          StepRemembers(s, e);
          s := Apply(s, e);
        }
      }
    }

    /** The next operation of attempt `t`; when it fails the attempt gives up, with or without its temporary. */
    method Act(t: Token, e: Step) returns (ok: bool)
      requires Inv(s) && t in s.attempts && s.attempts[t].pc != Done
      requires Concerns(e, t) && !e.Begin? && !e.Fail?
      modifies this
      ensures Inv(s) && t in s.attempts && s.source == old(s).source && s.origin == old(s).origin
      ensures ok ==> Possible(old(s), e) && s == Apply(old(s), e) && faults == old(faults)
      ensures !ok ==> faults > old(faults) || (faults == old(faults) && !Possible(old(s), e))
    {
      hide Inv, Apply, Possible;
      var fails: bool, removes: bool := *, *;
      if fails || !Possible(s, e) {
        if fails { faults := faults + 1; }
        GivesUp(s, t, removes);
        s := Apply(s, Fail(t, removes));
        return false;
      }
      StepKeeps(s, e);
      StepRemembers(s, e);
      KeepsToken(s, e, t);
      s := Apply(s, e);
      return true;
    }

    /** copyWithContext: any reads, until the source is exhausted. */
    method CopyBytes(t: Token) returns (ok: bool)
      requires Inv(s) && t in s.attempts && s.attempts[t].pc.Opened?
      requires alone ==> Tmp(t) in s.dir
      modifies this
      ensures Inv(s) && t in s.attempts && s.source == old(s).source && s.origin == old(s).origin
      ensures faults >= old(faults)
      ensures ok ==> s.attempts[t].pc == Copied && (alone ==> Tmp(t) in s.dir)
      ensures !ok ==> faults > old(faults)
    {
      hide Inv, Apply, Possible;
      OpenedFacts(s, t);
      while true
        invariant Inv(s) && t in s.attempts && s.attempts[t].pc.Opened? && s.attempts[t].pc.copied <= |s.source|
        invariant s.source == old(s).source && s.origin == old(s).origin && faults == old(faults)
        invariant alone ==> Tmp(t) in s.dir
        decreases |s.source| - s.attempts[t].pc.copied
      {
        Others(t);
        OpenedFacts(s, t);
        var rest := |s.source| - s.attempts[t].pc.copied;
        if rest == 0 {
          ok := Act(t, EndCopy(t));
          return;
        }
        var n: int := *;
        n := if 0 < n <= rest then n else rest;
        ok := Act(t, Write(t, n));
        if !ok { return; }
      }
    }

    /**
      With other attempts at work between any two of its operations, nil means the
      original is in place, exact and crash-proof. Alone and without a fault it
      succeeds, unless a different original was there first.
      */
    method PrepareOriginal(t: Token) returns (ok: bool)
      requires Inv(s) && t !in s.attempts && Tmp(t) !in s.dir
      modifies this
      ensures Inv(s) && s.source == old(s).source && s.origin == old(s).origin
      ensures ok ==> s.finished && Final in s.dir && s.dir[Final] in s.inodes && s.inodes[s.dir[Final]].data == s.source
      ensures alone && faults == old(faults) ==> (ok <==> old(s).origin == None || old(s).origin == Some(old(s).source))
    {
      hide Inv, Apply, Possible;
      BeginFacts(s, t);
      s := Apply(s, Begin(t));
      if s.attempts[t].pc == Failed { return false; }
      if s.attempts[t].pc == Begun {
        ok := CopyIntoPlace(t);
        if !ok { return; }
      }
      Others(t);
      PlacedFacts(s, t);
      ok := Act(t, SyncDir(t));
      if ok {
        DoneFacts(s, t);
      }
    }

    method CopyIntoPlace(t: Token) returns (ok: bool)
      requires Inv(s) && t in s.attempts && s.attempts[t].pc == Begun && (alone ==> Tmp(t) !in s.dir)
      modifies this
      ensures Inv(s) && t in s.attempts && s.source == old(s).source && s.origin == old(s).origin
      ensures faults >= old(faults)
      ensures ok ==> s.attempts[t].pc == Renamed
      ensures alone && !ok ==> faults > old(faults)
    {
      hide Inv, Apply, Possible;
      Others(t);
      var i := FreshInode(s.inodes);
      OpenFacts(s, t, i);
      ok := Act(t, Open(t, i));
      if !ok { return; }
      ok := CopyBytes(t);
      if !ok { return; }
      Others(t);
      SyncFacts(s, t);
      ok := Act(t, SyncFile(t));
      if !ok { return; }
      Others(t);
      SyncFacts(s, t);
      ok := Act(t, SyncDir(t));
      if !ok { return; }
      Others(t);
      SyncFacts(s, t);
      ok := Act(t, Rename(t));
    }
  }

  lemma BeginFacts(s: State, t: Token)
    requires Inv(s) && t !in s.attempts
    ensures Possible(s, Begin(t))
    ensures var x := Apply(s, Begin(t));
      && Inv(x) && x.source == s.source && x.origin == s.origin && x.dir == s.dir && t in x.attempts
      && (x.attempts[t].pc == Begun || x.attempts[t].pc == Reusing || x.attempts[t].pc == Failed)
      && (x.attempts[t].pc == Begun ==> s.origin == None)
      && (x.attempts[t].pc == Reusing ==> Wanted(s) == s.source)
      && (x.attempts[t].pc == Failed ==> s.origin.Some? && s.origin.value != s.source)
  {
    BeginKeeps(s, t);
  }

  lemma OpenedFacts(s: State, t: Token)
    requires Inv(s) && t in s.attempts && s.attempts[t].pc.Opened?
    ensures s.attempts[t].pc.copied <= |s.source|
    ensures forall n: nat | 0 < n <= |s.source| - s.attempts[t].pc.copied ::
              && Possible(s, Write(t, n))
              && var x := Apply(s, Write(t, n));
                 x.dir == s.dir && t in x.attempts && x.attempts[t].pc == Opened(s.attempts[t].pc.copied + n)
    ensures s.attempts[t].pc.copied == |s.source| ==>
              && Possible(s, EndCopy(t))
              && Apply(s, EndCopy(t)).dir == s.dir && Apply(s, EndCopy(t)).attempts[t].pc == Copied
  {}

  lemma OpenFacts(s: State, t: Token, i: Inode)
    requires Inv(s) && At(s, t, Begun) && i !in s.inodes
    ensures Tmp(t) !in s.dir ==> Possible(s, Open(t, i))
    ensures Possible(s, Open(t, i)) ==>
              var x := Apply(s, Open(t, i));
              t in x.attempts && x.attempts[t].pc == Opened(0) && Tmp(t) in x.dir
  {}

  lemma SyncFacts(s: State, t: Token)
    requires Inv(s) && t in s.attempts
    ensures s.attempts[t].pc == Copied ==>
              && Possible(s, SyncFile(t))
              && Apply(s, SyncFile(t)).dir == s.dir && At(Apply(s, SyncFile(t)), t, FileSynced)
    ensures s.attempts[t].pc == FileSynced ==>
              && Possible(s, SyncDir(t))
              && Apply(s, SyncDir(t)).dir == s.dir && At(Apply(s, SyncDir(t)), t, DirSynced)
    ensures s.attempts[t].pc == DirSynced ==>
              && (Tmp(t) in s.dir ==> Possible(s, Rename(t)))
              && (Possible(s, Rename(t)) ==> At(Apply(s, Rename(t)), t, Renamed))
  {}

  lemma PlacedFacts(s: State, t: Token)
    requires Inv(s) && t in s.attempts && (s.attempts[t].pc == Renamed || s.attempts[t].pc == Reusing)
    ensures Possible(s, SyncDir(t)) && At(Apply(s, SyncDir(t)), t, Done)
  {}

  lemma DoneFacts(s: State, t: Token)
    requires Inv(s) && At(s, t, Done)
    ensures s.finished && Final in s.dir && s.dir[Final] in s.inodes && s.inodes[s.dir[Final]].data == Wanted(s)
  {}

  lemma GivesUp(s: State, t: Token, removes: bool)
    requires Inv(s) && t in s.attempts && s.attempts[t].pc != Done
    ensures Possible(s, Fail(t, removes))
    ensures var x := Apply(s, Fail(t, removes));
      Inv(x) && t in x.attempts && x.source == s.source && x.origin == s.origin
  {
    hide Inv;
    StepKeeps(s, Fail(t, removes));
  }

  lemma KeepsToken(s: State, e: Step, t: Token)
    requires Enabled(s, e) && t in s.attempts
    ensures t in Apply(s, e).attempts
  {}
}
