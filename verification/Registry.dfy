/**
  The durability registry: one operation in flight per upload, a fixed number of
  slots, and a shutdown that waits. Each method is one critical section or one
  step of an operation's own goroutine, so any interleaving is a sequence of calls.
  */
module Registry {
  import opened Records

  type OpId = nat

  /** nil, or some error. */
  type Result = Option<nat>

  /** Where an operation's goroutine is: in makeDurable, past its write of err, out of the map, closed, done. */
  datatype Phase = Running | Written | Released | Closed | Done

  datatype Op = Op(upload: UploadId, phase: Phase, err: Option<Result>)

  datatype Entry = Joined(op: OpId) | Started(op: OpId) | Closing | Busy

  /** Operations whose goroutine has not yet called wg.Done. */
  ghost function Live(ops: seq<Op>): set<OpId> {
    set o | 0 <= o < |ops| && ops[o].phase != Done
  }

  /** The map holds exactly the operations that still hold a slot, each under its upload. */
  ghost predicate Table(inFlight: map<UploadId, OpId>, ops: seq<Op>) {
    && (forall u | u in inFlight ::
          inFlight[u] < |ops| && ops[inFlight[u]].upload == u && Holding(ops[inFlight[u]].phase))
    && (forall o | 0 <= o < |ops| && Holding(ops[o].phase) ::
          ops[o].upload in inFlight && inFlight[ops[o].upload] == o)
  }

  ghost predicate Reported(ops: seq<Op>) {
    forall o | 0 <= o < |ops| :: ops[o].err == None <==> ops[o].phase == Running
  }

  lemma StartsLive(ops: seq<Op>, u: UploadId)
    ensures |Live(ops + [Op(u, Running, None)])| == |Live(ops)| + 1
  {
    var all := ops + [Op(u, Running, None)];
    forall o ensures o in Live(all) <==> o in Live(ops) + {|ops|} {
      if 0 <= o < |ops| { assert all[o] == ops[o]; }
    }
    assert Live(all) == Live(ops) + {|ops|};
  }

  lemma StaysLive(ops: seq<Op>, o: OpId, op: Op)
    requires o < |ops| && ops[o].phase != Done && op.phase != Done
    ensures Live(ops[o := op]) == Live(ops)
  {}

  lemma EndsLive(ops: seq<Op>, o: OpId, op: Op)
    requires o < |ops| && ops[o].phase != Done && op.phase == Done
    ensures |Live(ops)| > 0 && |Live(ops[o := op])| == |Live(ops)| - 1
  {
    assert o in Live(ops);
    assert Live(ops[o := op]) == Live(ops) - {o};
  }

  lemma AddsKey(m: map<UploadId, OpId>, u: UploadId, o: OpId)
    requires u !in m
    ensures |m[u := o].Keys| == |m.Keys| + 1
  {
    assert m[u := o].Keys == m.Keys + {u};
  }

  lemma DropsKey(m: map<UploadId, OpId>, u: UploadId)
    requires u in m
    ensures |m.Keys| > 0 && |(m - {u}).Keys| == |m.Keys| - 1
  {
    assert (m - {u}).Keys == m.Keys - {u};
  }

  lemma ListedIsHeld(inFlight: map<UploadId, OpId>, ops: seq<Op>, u: UploadId)
    requires Table(inFlight, ops) && u in inFlight
    ensures inFlight[u] < |ops| && ops[inFlight[u]].upload == u
  {}

  lemma HeldIsListed(inFlight: map<UploadId, OpId>, ops: seq<Op>, o: OpId)
    requires Table(inFlight, ops) && o < |ops| && Holding(ops[o].phase)
    ensures ops[o].upload in inFlight
  {}

  lemma EnterKeepsTable(inFlight: map<UploadId, OpId>, ops: seq<Op>, u: UploadId)
    requires Table(inFlight, ops) && u !in inFlight
    ensures Table(inFlight[u := |ops|], ops + [Op(u, Running, None)])
  {}

  lemma ReleaseKeepsTable(inFlight: map<UploadId, OpId>, ops: seq<Op>, o: OpId)
    requires Table(inFlight, ops) && o < |ops| && ops[o].phase == Written
    ensures Table(inFlight - {ops[o].upload}, ops[o := ops[o].(phase := Released)])
  {}

  /** At most one operation of an upload is between admission and release. */
  ghost predicate SingleFlight(ops: seq<Op>) {
    forall o, p | 0 <= o < |ops| && 0 <= p < |ops| && Holding(ops[o].phase) && Holding(ops[p].phase) ::
      ops[o].upload == ops[p].upload ==> o == p
  }

  lemma TableIsSingleFlight(inFlight: map<UploadId, OpId>, ops: seq<Op>)
    requires Table(inFlight, ops)
    ensures SingleFlight(ops)
  {}

  lemma {:induction false} ImagesCount(m: map<UploadId, OpId>, keys: set<UploadId>)
    requires keys <= m.Keys
    requires forall u, v | u in keys && v in keys && m[u] == m[v] :: u == v
    ensures |set u | u in keys :: m[u]| == |keys|
  {
    if keys == {} {
    } else {
      var u :| u in keys;
      ImagesCount(m, keys - {u});
      assert (set v | v in keys :: m[v]) == (set v | v in keys - {u} :: m[v]) + {m[u]};
    }
  }

  /** Slots in use are exactly the operations between admission and release. */
  lemma SlotsCountOperations(inFlight: map<UploadId, OpId>, ops: seq<Op>)
    requires Table(inFlight, ops)
    ensures |set o | 0 <= o < |ops| && Holding(ops[o].phase)| == |inFlight.Keys|
  {
    ImagesCount(inFlight, inFlight.Keys);
    assert (set u | u in inFlight.Keys :: inFlight[u]) == set o | 0 <= o < |ops| && Holding(ops[o].phase);
  }

  class Registry {
    const workers: nat
    var inFlight: map<UploadId, OpId>
    var slots: nat
    var wg: nat
    var closing: bool
    var ops: seq<Op>

    ghost predicate Valid()
      reads this
    {
      && slots == |inFlight.Keys| <= workers
      && wg == |Live(ops)|
      && Table(inFlight, ops)
      && Reported(ops)
    }

    /** What no call takes back: operations only advance, results are written once, closing is final. */
    twostate predicate Progress()
      reads this
    {
      && |old(ops)| <= |ops|
      && (old(closing) ==> closing && |ops| == |old(ops)|)
      && forall o | 0 <= o < |old(ops)| ::
           && ops[o].upload == old(ops)[o].upload
           && Rank(old(ops)[o].phase) <= Rank(ops[o].phase)
           && (old(ops)[o].err.Some? ==> ops[o].err == old(ops)[o].err)
    }

    constructor (configured: nat)
      ensures Valid() && ops == [] && !closing
      ensures workers == if configured == 0 then 2 else configured
    {
      workers := if configured == 0 then 2 else configured;
      inFlight, slots, wg, closing, ops := map[], 0, 0, false, [];
    }

    /** ensure, up to releasing the mutex. */
    method Enter(u: UploadId) returns (e: Entry)
      requires Valid()
      modifies this
      ensures Valid() && Progress() && closing == old(closing)
      ensures e.Joined? <==> u in old(inFlight)
      ensures e.Joined? ==> e.op == old(inFlight)[u] && ops == old(ops) && inFlight == old(inFlight)
      ensures e == Closing <==> u !in old(inFlight) && old(closing)
      ensures e == Busy <==> u !in old(inFlight) && !old(closing) && old(|inFlight.Keys|) == workers
      ensures e.Started? ==>
                && e.op == |old(ops)| && ops == old(ops) + [Op(u, Running, None)]
                && inFlight == old(inFlight)[u := e.op]
      ensures e == Closing || e == Busy ==> ops == old(ops) && inFlight == old(inFlight)
    {
      hide Live, Table;
      if u in inFlight {
        ListedIsHeld(inFlight, ops, u);
        return Joined(inFlight[u]);
      }
      if closing {
        return Closing;
      }
      if slots == workers {
        return Busy;
      }
      AddsKey(inFlight, u, |ops|);
      EnterKeepsTable(inFlight, ops, u);
      StartsLive(ops, u);
      slots := slots + 1;
      inFlight := inFlight[u := |ops|];
      wg := wg + 1;
      ops := ops + [Op(u, Running, None)];
      return Started(|ops| - 1);
    }

    /** The operation's own write of its result. */
    method Write(o: OpId, err: Result)
      requires Valid() && o < |ops| && ops[o].phase == Running
      modifies this`ops
      ensures Valid() && Progress()
      ensures ops == old(ops)[o := old(ops)[o].(phase := Written, err := Some(err))]
    {
      StaysLive(ops, o, ops[o].(phase := Written, err := Some(err)));
      ops := ops[o := ops[o].(phase := Written, err := Some(err))];
    }

    /** The map entry and the slot go together, under one lock. */
    method Release(o: OpId)
      requires Valid() && o < |ops| && ops[o].phase == Written
      modifies this
      ensures Valid() && Progress() && closing == old(closing)
      ensures inFlight == old(inFlight) - {old(ops)[o].upload}
      ensures ops == old(ops)[o := old(ops)[o].(phase := Released)]
    {
      hide Live, Table;
      HeldIsListed(inFlight, ops, o);
      DropsKey(inFlight, ops[o].upload);
      ReleaseKeepsTable(inFlight, ops, o);
      inFlight := inFlight - {ops[o].upload};
      slots := slots - 1;
      StaysLive(ops, o, ops[o].(phase := Released));
      ops := ops[o := ops[o].(phase := Released)];
    }

    method CloseDone(o: OpId)
      requires Valid() && o < |ops| && ops[o].phase == Released
      modifies this`ops
      ensures Valid() && Progress()
      ensures ops == old(ops)[o := old(ops)[o].(phase := Closed)]
    {
      StaysLive(ops, o, ops[o].(phase := Closed));
      ops := ops[o := ops[o].(phase := Closed)];
    }

    method WgDone(o: OpId)
      requires Valid() && o < |ops| && ops[o].phase == Closed
      modifies this
      ensures Valid() && Progress() && closing == old(closing) && inFlight == old(inFlight)
      ensures ops == old(ops)[o := old(ops)[o].(phase := Done)]
    {
      EndsLive(ops, o, ops[o].(phase := Done));
      ops := ops[o := ops[o].(phase := Done)];
      wg := wg - 1;
    }

    /** wait, before it blocks. */
    method Shut()
      requires Valid()
      modifies this`closing
      ensures Valid() && Progress() && closing
    {
      closing := true;
    }

    /** A joiner's receive from op.done: possible only once the channel is closed. */
    method Receive(o: OpId) returns (err: Result)
      requires Valid() && o < |ops| && (ops[o].phase == Closed || ops[o].phase == Done)
      ensures ops[o].err == Some(err)
    {
      return ops[o].err.value;
    }

    /** wait's return: the counter has reached zero after closing. */
    method WaitReturned() returns (ok: bool)
      requires Valid()
      ensures ok ==> closing && inFlight == map[] && forall o | 0 <= o < |ops| :: ops[o].phase == Done
    {
      ok := closing && wg == 0;
      if ok {
        assert Live(ops) == {};
        forall o | 0 <= o < |ops| ensures ops[o].phase == Done {
          assert o !in Live(ops);
        }
      }
    }
  }

  predicate Holding(p: Phase) { p == Running || p == Written }

  function Rank(p: Phase): nat {
    match p
    case Running => 0
    case Written => 1
    case Released => 2
    case Closed => 3
    case Done => 4
  }

  // ---- whole runs ----

  /** What any caller, operation or shutdown may do next. */
  datatype Event =
    | Arrive(u: UploadId)
    | Finish(o: OpId, err: Result)
    | Advance(o: OpId)
    | Collect(o: OpId)
    | BeginWait

  datatype Effect = Nothing | Entered(entry: Entry) | Collected(o: OpId, err: Result)

  predicate Obtained(x: Effect) {
    x.Entered? && (x.entry.Joined? || x.entry.Started?)
  }

  /** One event, if it is possible now. */
  method Perform(r: Registry, e: Event) returns (x: Effect)
    requires r.Valid()
    modifies r
    ensures r.Valid() && r.Progress() && SingleFlight(r.ops)
    ensures Obtained(x) ==> x.entry.op < |r.ops| && e.Arrive? && r.ops[x.entry.op].upload == e.u
    ensures x.Collected? ==> x.o < |r.ops| && r.ops[x.o].err == Some(x.err)
    ensures e.Arrive? <==> x.Entered?
    ensures e.Finish? && e.o < |old(r.ops)| && old(r.ops)[e.o].phase == Running ==> r.ops[e.o].err == Some(e.err)
    ensures e.Advance? && e.o < |old(r.ops)| && old(r.ops)[e.o].phase != Running && old(r.ops)[e.o].phase != Done ==>
              Rank(r.ops[e.o].phase) == Rank(old(r.ops)[e.o].phase) + 1
    ensures e.Collect? && e.o < |r.ops| && (r.ops[e.o].phase == Closed || r.ops[e.o].phase == Done) ==> x.Collected? && x.o == e.o
    ensures e.BeginWait? ==> r.closing
  {
    hide SingleFlight;
    x := Nothing;
    match e {
      case Arrive(u) =>
        var entry := r.Enter(u);
        x := Entered(entry);
      case Finish(o, err) =>
        if o < |r.ops| && r.ops[o].phase == Running { r.Write(o, err); }
      case Advance(o) =>
        if o < |r.ops| {
          match r.ops[o].phase {
            case Written => r.Release(o);
            case Released => r.CloseDone(o);
            case Closed => r.WgDone(o);
            case _ =>
          }
        }
      case Collect(o) =>
        if o < |r.ops| && (r.ops[o].phase == Closed || r.ops[o].phase == Done) {
          var err := r.Receive(o);
          x := Collected(o, err);
        }
      case BeginWait => r.Shut();
    }
    TableIsSingleFlight(r.inFlight, r.ops);
  }

  ghost predicate Quiet(ops: seq<Op>) {
    forall o | 0 <= o < |ops| :: ops[o].phase == Done
  }

  /** Everything handed out so far is what the operations say. */
  ghost predicate Honoured(ops: seq<Op>, events: seq<Event>, effects: seq<Effect>) {
    && |effects| <= |events|
    && forall i | 0 <= i < |effects| ::
         && (Obtained(effects[i]) ==>
               effects[i].entry.op < |ops| && events[i] == Arrive(ops[effects[i].entry.op].upload))
         && (effects[i].Collected? ==> effects[i].o < |ops| && ops[effects[i].o].err == Some(effects[i].err))
  }

  /**
    Any schedule. No upload ever has two operations under way; every result collected
    from an operation is the one result it wrote, whoever collects it and whenever;
    from the first wait on no operation is added; and once wait may return, nothing
    runs, then or ever after.
    */
  method Schedule(r: Registry, events: seq<Event>)
    returns (effects: seq<Effect>, opsAtWait: Option<nat>, waitReturned: bool, ghost states: seq<seq<Op>>)
    requires r.Valid() && r.ops == [] && !r.closing
    modifies r
    ensures r.Valid() && |effects| == |events| && Honoured(r.ops, events, effects)
    ensures |states| == |events| + 1 && states[|events|] == r.ops && forall ops | ops in states :: SingleFlight(ops)
    ensures opsAtWait.Some? <==> BeginWait in events
    ensures opsAtWait.Some? ==> r.closing && |r.ops| == opsAtWait.value
    ensures waitReturned ==> r.closing && r.inFlight == map[] && Quiet(r.ops)
  {
    hide Table, Reported, Live, Honoured, SingleFlight;
    StartsHonoured(events);
    TableIsSingleFlight(r.inFlight, r.ops);
    effects, opsAtWait, waitReturned, states := [], None, false, [r.ops];
    for i := 0 to |events|
      invariant r.Valid() && |effects| == i && Honoured(r.ops, events, effects)
      invariant |states| == i + 1 && states[i] == r.ops && forall ops | ops in states :: SingleFlight(ops)
      invariant opsAtWait.Some? <==> BeginWait in events[..i]
      invariant opsAtWait.Some? ==> r.closing && |r.ops| == opsAtWait.value
      invariant waitReturned ==> r.closing && Quiet(r.ops)
    {
      ghost var before := r.ops;
      var x := Perform(r, events[i]);
      StaysHonoured(before, r.ops, events, effects, x);
      effects, states := effects + [x], states + [r.ops];
      assert events[..i + 1] == events[..i] + [events[i]];
      if events[i].BeginWait? && opsAtWait == None {
        opsAtWait := Some(|r.ops|);
      }
      var quiet := r.WaitReturned();
      waitReturned := waitReturned || quiet;
    }
    assert events[..|events|] == events;
    if waitReturned { QuietHoldsNothing(r.inFlight, r.ops); }
  }

  lemma QuietHoldsNothing(inFlight: map<UploadId, OpId>, ops: seq<Op>)
    requires Table(inFlight, ops) && Quiet(ops)
    ensures inFlight == map[]
  {}

  lemma StartsHonoured(events: seq<Event>)
    ensures Honoured([], events, [])
  {}

  lemma StaysHonoured(before: seq<Op>, after: seq<Op>, events: seq<Event>, effects: seq<Effect>, x: Effect)
    requires Honoured(before, events, effects) && |effects| < |events|
    requires |before| <= |after|
    requires forall o | 0 <= o < |before| ::
               after[o].upload == before[o].upload && (before[o].err.Some? ==> after[o].err == before[o].err)
    requires Obtained(x) ==> x.entry.op < |after| && events[|effects|] == Arrive(after[x.entry.op].upload)
    requires x.Collected? ==> x.o < |after| && after[x.o].err == Some(x.err)
    ensures Honoured(after, events, effects + [x])
  {}
}
