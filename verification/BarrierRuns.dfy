/**
  The durability barrier as a procedure performs the barrier's steps of the whole
  system: what its contract calls success is what the system calls acknowledged.
  */
module BarrierRuns {
  import opened Records
  import opened UploadJobs
  import opened World
  import opened Reachability
  import opened Footprints
  import F = UploadFiles
  import P = Barrier

  /** The answer is what the world says at that moment. */
  predicate TrueIn(w: World, u: UploadId, e: F.Event) {
    match e
    case ReadRow(row) => row == (if u in w.db.jobs then Some(w.db.jobs[u]) else None)
    case Statted(_, answer) =>
      answer.Present? ==> SourceOf(w.sources, u).data.Some? && |Bytes(w.sources, u)| == answer.size
    case Committed => CanPromote(w.db, u)
    case PromotionLost => !CanPromote(w.db, u)
    case _ => true
  }

  /** The step of the system that event `i` of the operation is, if it is one; `b` names the operation. */
  function StepOf(trace: P.Trace, i: nat, b: nat, u: UploadId): Option<Step>
    requires P.Orderly(trace) && i < |trace|
  {
    var e := trace[i];
    if i == 0 then
      if P.Sent(e) then Some(BarrierRead(b, u))
      else if e.ReadRow? && P.Durable(e.row) then Some(BarrierJoinDone(u))
      else None
    else if i == 1 && e.answer == F.Present(trace[0].row.value.expectedSize) then Some(BarrierStat(b))
    else if (i == 2 && e.outcome == F.Stable) || (i == 3 && e.outcome != F.Failed) then None
    else if i == 4 && e.ok then Some(BarrierFlush(b))
    else if i == 5 && e != F.DatabaseFailed then Some(BarrierPromote(b))
    else if i == 6 && e.ReadRow? then Some(BarrierClassify(b))
    else Some(BarrierDrop(b))
  }

  ghost function After(r: Rules, w: World, s: Option<Step>): World {
    if s.Some? && Enabled(r, w, s.value) then Apply(r, w, s.value) else w
  }

  /** A step of another actor, while the process lives. */
  predicate Foreign(s: Step, b: nat) {
    && !s.Crash?
    && !(s.BarrierRead? && s.b == b) && !(s.BarrierStat? && s.b == b) && !(s.BarrierFlush? && s.b == b)
    && !(s.BarrierPromote? && s.b == b) && !(s.BarrierClassify? && s.b == b) && !(s.BarrierDrop? && s.b == b)
  }

  ghost predicate IsMeanwhile(r: Rules, b: nat, ws: seq<World>, ss: seq<Step>) {
    && |ws| == |ss| + 1
    && forall k | 0 <= k < |ss| :: Enabled(r, ws[k], ss[k]) && ws[k + 1] == Apply(r, ws[k], ss[k]) && Foreign(ss[k], b)
  }

  /** Any number of steps of any other actors. */
  ghost predicate Meanwhile(r: Rules, b: nat, w: World, x: World) {
    exists ws: seq<World>, ss: seq<Step> :: IsMeanwhile(r, b, ws, ss) && ws[0] == w && ws[|ss|] == x
  }

  /** An operation that no crash cut short: each event met a world, and told the truth about it. */
  ghost predicate Executes(r: Rules, trace: P.Trace, b: nat, u: UploadId, vs: seq<World>) {
    && P.Orderly(trace) && |vs| == |trace| && b !in vs[0].barriers
    && (forall i | 0 <= i < |trace| :: TrueIn(vs[i], u, trace[i]))
    && (forall i | 0 <= i < |trace| - 1 :: Meanwhile(r, b, After(r, vs[i], StepOf(trace, i, b, u)), vs[i + 1]))
  }

  // ---- others leave the operation alone ----

  lemma ForeignBarrier(w: World, s: Step, b: nat)
    requires EnabledBarrier(w, s) && Foreign(s, b) && b in w.barriers
    ensures b in ApplyBarrier(w, s).barriers && ApplyBarrier(w, s).barriers[b] == w.barriers[b]
  {
    hide SourceOf, Bytes, PromotedWorld;
    if s.BarrierPromote? && CanPromote(w.db, w.barriers[s.b].u) { PromotionForm(w, s.b); }
  }

  lemma PromotionForm(w: World, b: nat)
    requires b in w.barriers && w.barriers[b].u in w.db.jobs
    ensures var u, x := w.barriers[b].u, PromotedWorld(w, b);
      && x.barriers == w.barriers - {b}
      && u in x.db.jobs && x.db.jobs[u].mediaId == w.db.jobs[u].mediaId && w.db.jobs[u].mediaId in x.acked
  {
    hide Bytes;
  }

  lemma OtherLeavesBarriers(w: World, s: Step)
    requires EnabledOther(w, s) && !s.Crash?
    ensures ApplyOther(w, s).barriers == w.barriers
  {
    hide SourceOf, SourceComplete, CanCreate, NewJob, ReopenRow, DropMedia;
    hide RequeueStartup, Unattended, Expired, CanPurge, StillOwned;
  }

  lemma BarriersElsewhere(r: Rules, w: World, s: Step)
    requires Enabled(r, w, s) && !EnabledTransfer(w, s) && !EnabledBarrier(w, s) && !s.Crash?
    ensures Apply(r, w, s).barriers == w.barriers
  {
    hide EnabledTransfer, EnabledBarrier, EnabledJanitor, EnabledAttempt;
    hide EnabledProcessing, EnabledRemoval, EnabledOther;
    hide ApplyTransfer, ApplyBarrier, ApplyJanitor, ApplyAttempt, ApplyProcessing, ApplyRemoval, ApplyOther;
    if EnabledJanitor(w, s) { JanitorFootprint(w, s); }
    else if EnabledAttempt(r, w, s) { AttemptFootprint(r, w, s); }
    else if EnabledProcessing(w, s) { ProcessingFootprint(r, w, s); }
    else if EnabledRemoval(w, s) { RemovalFootprint(w, s); }
    else { OtherLeavesBarriers(w, s); }
  }

  lemma TransferLeavesBarriers(w: World, s: Step)
    requires EnabledTransfer(w, s)
    ensures ApplyTransfer(w, s).barriers == w.barriers
  {
    hide EnabledTransfer, ApplyTransfer;
    TransferFootprint(w, s);
  }

  lemma ForeignStep(r: Rules, w: World, s: Step, b: nat)
    requires Enabled(r, w, s) && Foreign(s, b) && b in w.barriers
    ensures b in Apply(r, w, s).barriers && Apply(r, w, s).barriers[b] == w.barriers[b]
  {
    hide EnabledTransfer, EnabledBarrier;
    hide ApplyTransfer, ApplyBarrier, ApplyJanitor, ApplyAttempt, ApplyProcessing, ApplyRemoval, ApplyOther;
    if EnabledTransfer(w, s) {
      TransferLeavesBarriers(w, s);
    } else if EnabledBarrier(w, s) {
      ForeignBarrier(w, s, b);
    } else {
      hide Enabled, Apply;
      BarriersElsewhere(r, w, s);
    }
  }

  lemma {:induction false} MeanwhileStands(r: Rules, b: nat, ws: seq<World>, ss: seq<Step>)
    requires IsMeanwhile(r, b, ws, ss) && b in ws[0].barriers
    ensures b in ws[|ss|].barriers && ws[|ss|].barriers[b] == ws[0].barriers[b]
    decreases |ss|
  {
    hide Enabled, Apply, Foreign;
    if ss == [] {
    } else {
      var n := |ss| - 1;
      assert IsMeanwhile(r, b, ws[..n + 1], ss[..n]);
      MeanwhileStands(r, b, ws[..n + 1], ss[..n]);
      ForeignStep(r, ws[n], ss[n], b);
    }
  }

  lemma {:induction false} MeanwhileReaches(r: Rules, b: nat, ws: seq<World>, ss: seq<Step>)
    requires IsMeanwhile(r, b, ws, ss) && Reached(r, ws[0])
    ensures Reached(r, ws[|ss|])
    decreases |ss|
  {
    hide Enabled, Apply, Foreign, Reached;
    if ss == [] {
    } else {
      var n := |ss| - 1;
      assert IsMeanwhile(r, b, ws[..n + 1], ss[..n]);
      MeanwhileReaches(r, b, ws[..n + 1], ss[..n]);
      Extends(r, ws[n], ss[n]);
    }
  }

  // ---- one event of the operation ----

  /** A step of the barrier is what the system does when asked for it. */
  lemma Performs(r: Rules, w: World, s: Step)
    requires EnabledBarrier(w, s)
    ensures Enabled(r, w, s) && Apply(r, w, s) == ApplyBarrier(w, s) && After(r, w, Some(s)) == ApplyBarrier(w, s)
  {
    hide ApplyTransfer, ApplyBarrier, ApplyJanitor, ApplyAttempt, ApplyProcessing, ApplyRemoval, ApplyOther;
  }

  /** How far the operation is when event `i` comes. */
  function Stage(i: nat): BarrierPc {
    if i <= 1 then Admitted else if i <= 4 then Statted else if i == 5 then Flushed else Lost
  }

  predicate Stands(w: World, trace: P.Trace, i: nat, b: nat, u: UploadId)
    requires P.Orderly(trace) && 0 < i < |trace|
  {
    b in w.barriers && w.barriers[b] == Barrier(u, trace[0].row.value.expectedSize, Stage(i))
  }

  lemma ReadStands(r: Rules, w: World, trace: P.Trace, b: nat, u: UploadId)
    requires P.Orderly(trace) && TrueIn(w, u, trace[0]) && b !in w.barriers && |trace| > 1
    ensures StepOf(trace, 0, b, u) == Some(BarrierRead(b, u)) && EnabledBarrier(w, BarrierRead(b, u))
    ensures Stands(After(r, w, StepOf(trace, 0, b, u)), trace, 1, b, u)
  {
    hide After;
    Performs(r, w, BarrierRead(b, u));
  }

  /** Every question but the first is asked while the operation stands, and its step is then possible. */
  lemma StepIsPossible(w: World, trace: P.Trace, i: nat, b: nat, u: UploadId)
    requires P.Orderly(trace) && 0 < i < |trace| && TrueIn(w, u, trace[i]) && Stands(w, trace, i, b, u)
    ensures StepOf(trace, i, b, u).Some? ==> EnabledBarrier(w, StepOf(trace, i, b, u).value)
    ensures StepOf(trace, i, b, u) == None ==> i == 2 || i == 3
  {
    hide Bytes, SourceOf;
  }

  lemma StatForm(w: World, b: nat)
    requires EnabledBarrier(w, BarrierStat(b))
    ensures b in w.barriers
    ensures ApplyBarrier(w, BarrierStat(b)).barriers == w.barriers[b := w.barriers[b].(pc := Statted)]
  {
    hide Bytes, SourceOf, PromotedWorld;
  }

  lemma FlushForm(w: World, b: nat)
    requires EnabledBarrier(w, BarrierFlush(b))
    ensures b in w.barriers
    ensures ApplyBarrier(w, BarrierFlush(b)).barriers == w.barriers[b := w.barriers[b].(pc := Flushed)]
  {
    hide Bytes, SourceOf, PromotedWorld;
  }

  lemma LossForm(w: World, b: nat)
    requires EnabledBarrier(w, BarrierPromote(b))
    ensures b in w.barriers
    ensures !CanPromote(w.db, w.barriers[b].u) ==>
              ApplyBarrier(w, BarrierPromote(b)).barriers == w.barriers[b := w.barriers[b].(pc := Lost)]
  {
    hide Bytes, SourceOf, PromotedWorld, CanPromote;
  }

  /** An answer that does not end the operation takes it one stage further. */
  lemma NextStands(r: Rules, w: World, trace: P.Trace, i: nat, b: nat, u: UploadId)
    requires P.Orderly(trace) && 0 < i < |trace| - 1 && TrueIn(w, u, trace[i]) && Stands(w, trace, i, b, u)
    ensures Stands(After(r, w, StepOf(trace, i, b, u)), trace, i + 1, b, u)
  {
    hide Enabled, Apply, EnabledBarrier, ApplyBarrier, Bytes, SourceOf;
    StepIsPossible(w, trace, i, b, u);
    var s := StepOf(trace, i, b, u);
    if s.Some? {
      hide After;
      Performs(r, w, s.value);
      if i == 1 { StatForm(w, b); } else if i == 4 { FlushForm(w, b); } else { LossForm(w, b); }
    }
  }

  lemma {:induction false} StandsAt(r: Rules, trace: P.Trace, b: nat, u: UploadId, vs: seq<World>, i: nat)
    requires Executes(r, trace, b, u, vs) && 0 < i < |trace|
    ensures Stands(vs[i], trace, i, b, u)
  {
    hide Enabled, Apply, After, TrueIn, StepOf, P.Orderly;
    var k := i - 1;
    if k == 0 {
      ReadStands(r, vs[0], trace, b, u);
    } else {
      StandsAt(r, trace, b, u, vs, k);
      NextStands(r, vs[k], trace, k, b, u);
    }
    var x := After(r, vs[k], StepOf(trace, k, b, u));
    assert Meanwhile(r, b, x, vs[k + 1]);
    var ws: seq<World>, ss: seq<Step> :| IsMeanwhile(r, b, ws, ss) && ws[0] == x && ws[|ss|] == vs[k + 1];
    MeanwhileStands(r, b, ws, ss);
  }

  lemma FirstStepIsPossible(w: World, trace: P.Trace, b: nat, u: UploadId)
    requires P.Orderly(trace) && TrueIn(w, u, trace[0]) && b !in w.barriers
    ensures StepOf(trace, 0, b, u).Some? ==> EnabledBarrier(w, StepOf(trace, 0, b, u).value)
  {}

  /** No step the operation stands for is ever impossible when its turn comes. */
  lemma EveryStepIsPossible(r: Rules, trace: P.Trace, b: nat, u: UploadId, vs: seq<World>, i: nat)
    requires Executes(r, trace, b, u, vs) && i < |trace|
    ensures StepOf(trace, i, b, u).Some? ==> EnabledBarrier(vs[i], StepOf(trace, i, b, u).value)
  {
    hide Enabled, Apply, After, Meanwhile, EnabledBarrier;
    if i == 0 {
      FirstStepIsPossible(vs[0], trace, b, u);
    } else {
      StandsAt(r, trace, b, u, vs, i);
      StepIsPossible(vs[i], trace, i, b, u);
    }
  }

  lemma {:induction false} ReachedAt(r: Rules, trace: P.Trace, b: nat, u: UploadId, vs: seq<World>, i: nat)
    requires Executes(r, trace, b, u, vs) && i < |trace| && Reached(r, vs[0])
    ensures Reached(r, vs[i]) && Reached(r, After(r, vs[i], StepOf(trace, i, b, u)))
  {
    hide Enabled, Apply, Reached, TrueIn, StepOf, P.Orderly;
    if i > 0 {
      ReachedAt(r, trace, b, u, vs, i - 1);
      var x := After(r, vs[i - 1], StepOf(trace, i - 1, b, u));
      assert Meanwhile(r, b, x, vs[i - 1 + 1]);
      var ws: seq<World>, ss: seq<Step> :| IsMeanwhile(r, b, ws, ss) && ws[0] == x && ws[|ss|] == vs[i];
      MeanwhileReaches(r, b, ws, ss);
    }
    if StepOf(trace, i, b, u).Some? && Enabled(r, vs[i], StepOf(trace, i, b, u).value) {
      Extends(r, vs[i], StepOf(trace, i, b, u).value);
    }
  }

  /** The step that ends the operation acknowledges the upload exactly if the operation succeeds. */
  lemma LastStep(w: World, trace: P.Trace, b: nat, u: UploadId, v: P.Verdict)
    requires P.Concludes(v, trace) && TrueIn(w, u, trace[|trace| - 1])
    requires |trace| > 1 ==> Stands(w, trace, |trace| - 1, b, u)
    requires |trace| == 1 ==> b !in w.barriers
    requires var s := StepOf(trace, |trace| - 1, b, u); s.Some? ==> EnabledBarrier(w, s.value)
    ensures var s := StepOf(trace, |trace| - 1, b, u);
      var x := if s.Some? then ApplyBarrier(w, s.value) else w;
      && (v == P.Success ==> u in x.db.jobs && x.db.jobs[u].mediaId in x.acked)
      && (v != P.Success ==> x.acked == w.acked)
      && b !in x.barriers
  {
    hide EnabledBarrier, ApplyBarrier, Bytes, SourceOf;
    LastKind(trace, b, u, v);
    hide StepOf, P.Concludes;
    var s := StepOf(trace, |trace| - 1, b, u);
    if s == Some(BarrierPromote(b)) { LastCommit(w, b); }
    else if s == Some(BarrierDrop(b)) { LastDrop(w, b); }
    else if s == Some(BarrierClassify(b)) { LastClassify(w, b); }
    else if s == Some(BarrierJoinDone(u)) { LastJoin(w, u); }
  }

  /** How an operation ends, by its verdict. */
  lemma LastKind(trace: P.Trace, b: nat, u: UploadId, v: P.Verdict)
    requires P.Concludes(v, trace)
    ensures var n := |trace| - 1;
      var s := StepOf(trace, n, b, u);
      if v == P.Success then
        || (n == 0 && s == Some(BarrierJoinDone(u)))
        || (n == 5 && trace[n] == F.Committed && s == Some(BarrierPromote(b)))
        || (n == 6 && trace[n].ReadRow? && P.Durable(trace[n].row) && s == Some(BarrierClassify(b)))
      else
        || (n == 0 && s == None)
        || (n > 0 && s == Some(BarrierDrop(b)))
        || (n == 6 && trace[n].ReadRow? && !P.Durable(trace[n].row) && s == Some(BarrierClassify(b)))
  {}

  lemma LastCommit(w: World, b: nat)
    requires EnabledBarrier(w, BarrierPromote(b)) && CanPromote(w.db, w.barriers[b].u)
    ensures b in w.barriers
    ensures var u, x := w.barriers[b].u, ApplyBarrier(w, BarrierPromote(b));
      u in x.db.jobs && x.db.jobs[u].mediaId in x.acked && b !in x.barriers
  {
    hide PromotedWorld, Bytes, SourceOf;
    PromotionForm(w, b);
  }

  lemma LastDrop(w: World, b: nat)
    requires EnabledBarrier(w, BarrierDrop(b))
    ensures ApplyBarrier(w, BarrierDrop(b)) == w.(barriers := w.barriers - {b})
  {
    hide PromotedWorld, Bytes, SourceOf;
  }

  lemma LastJoin(w: World, u: UploadId)
    requires EnabledBarrier(w, BarrierJoinDone(u))
    ensures u in w.db.jobs && ApplyBarrier(w, BarrierJoinDone(u)) == w.(acked := w.acked + {w.db.jobs[u].mediaId})
  {
    hide PromotedWorld, Bytes, SourceOf;
  }

  lemma LastClassify(w: World, b: nat)
    requires EnabledBarrier(w, BarrierClassify(b))
    ensures b in w.barriers
    ensures var x, v := ApplyBarrier(w, BarrierClassify(b)), w.barriers[b].u;
      && x.db == w.db && x.barriers == w.barriers - {b}
      && x.acked == if v in w.db.jobs && (Working(w.db.jobs[v].status) || Published(w.db.jobs[v].status))
                    then w.acked + {w.db.jobs[v].mediaId} else w.acked
  {
    hide PromotedWorld, Bytes, SourceOf;
  }

  /**
    An execution of makeDurable between any steps of any other actors is part of a
    run of the system: whenever it stands for a step, that step is possible, and from
    a reachable state it only passes through reachable states. It returns nil exactly
    if its last step acknowledges the upload, and leaves nothing behind.
    */
  lemma MakeDurableIsPartOfARun(r: Rules, trace: P.Trace, b: nat, u: UploadId, vs: seq<World>, v: P.Verdict)
    requires Executes(r, trace, b, u, vs) && P.Concludes(v, trace) && Reached(r, vs[0])
    ensures forall i | 0 <= i < |trace| ::
              && (StepOf(trace, i, b, u).Some? ==> Enabled(r, vs[i], StepOf(trace, i, b, u).value))
              && Reached(r, vs[i]) && Reached(r, After(r, vs[i], StepOf(trace, i, b, u)))
    ensures var n := |trace| - 1;
      var x := After(r, vs[n], StepOf(trace, n, b, u));
      && (v == P.Success ==> u in x.db.jobs && x.db.jobs[u].mediaId in x.acked)
      && (v != P.Success ==> x.acked == vs[n].acked)
      && b !in x.barriers
  {
    hide Enabled, Apply, Reached, After, Meanwhile, TrueIn, StepOf, EnabledBarrier, ApplyBarrier, Stands;
    var n := |trace| - 1;
    forall i | 0 <= i < |trace|
      ensures StepOf(trace, i, b, u).Some? ==> Enabled(r, vs[i], StepOf(trace, i, b, u).value)
      ensures Reached(r, vs[i]) && Reached(r, After(r, vs[i], StepOf(trace, i, b, u)))
    {
      ReachedAt(r, trace, b, u, vs, i);
      EveryStepIsPossible(r, trace, b, u, vs, i);
      if StepOf(trace, i, b, u).Some? { Performs(r, vs[i], StepOf(trace, i, b, u).value); }
    }
    if n > 0 { StandsAt(r, trace, b, u, vs, n); }
    EveryStepIsPossible(r, trace, b, u, vs, n);
    LastStep(vs[n], trace, b, u, v);
    LastAfter(r, vs[n], StepOf(trace, n, b, u));
  }

  lemma LastAfter(r: Rules, w: World, s: Option<Step>)
    requires s.Some? ==> EnabledBarrier(w, s.value)
    ensures After(r, w, s) == if s.Some? then ApplyBarrier(w, s.value) else w
  {
    hide Enabled, Apply, ApplyBarrier, EnabledBarrier;
    if s.Some? { Performs(r, w, s.value); }
  }
}
