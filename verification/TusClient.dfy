/** The wedding harness: a stream re-chunked to exact blocks, sent one PATCH each. */
module TusClient {
  import opened Records
  import opened TusServer

  const TRANSPORT_ERROR := 0

  /** A reply that never came is retried like the transient refusals. */
  const RETRYABLE := {TRANSPORT_ERROR, 408, 409, 423, 425, 429, 500, 502, 503, 504}

  function Concat(pieces: seq<Content>): Content {
    if pieces == [] then [] else pieces[0] + Concat(pieces[1..])
  }

  lemma {:induction false} ConcatSnoc(pieces: seq<Content>, piece: Content)
    ensures Concat(pieces + [piece]) == Concat(pieces) + piece
  {
    if pieces == [] {
      assert (pieces + [piece])[1..] == [];
    } else {
      assert (pieces + [piece])[1..] == pieces[1..] + [piece];
      ConcatSnoc(pieces[1..], piece);
    }
  }

  lemma ConcatNothing()
    ensures Concat([]) == []
  {}

  lemma Arrives(blocks: seq<Content>, buf: Content, pieces: seq<Content>, piece: Content)
    requires Concat(blocks) + buf == Concat(pieces)
    ensures Concat(blocks) + (buf + piece) == Concat(pieces + [piece])
  {
    ConcatSnoc(pieces, piece);
    assert Concat(blocks) + (buf + piece) == (Concat(blocks) + buf) + piece;
  }

  lemma Departs(blocks: seq<Content>, buf: Content, n: nat)
    requires n <= |buf|
    ensures Concat(blocks + [buf[..n]]) + buf[n..] == Concat(blocks) + buf
  {
    ConcatSnoc(blocks, buf[..n]);
    assert buf == buf[..n] + buf[n..];
  }

  /** _blocks: nothing is lost, added or reordered, and every block but the last is full. */
  method Blocks(pieces: seq<Content>, chunkBytes: nat) returns (blocks: seq<Content>)
    requires chunkBytes > 0
    ensures Concat(blocks) == Concat(pieces)
    ensures forall i | 0 <= i < |blocks| :: 0 < |blocks[i]| <= chunkBytes && (i < |blocks| - 1 ==> |blocks[i]| == chunkBytes)
  {
    hide Concat;
    ConcatNothing();
    blocks := [];
    var buf: Content := [];
    assert pieces[..0] == [];
    for i := 0 to |pieces|
      invariant Concat(blocks) + buf == Concat(pieces[..i])
      invariant |buf| < chunkBytes && forall b | b in blocks :: |b| == chunkBytes
    {
      assert pieces[..i + 1] == pieces[..i] + [pieces[i]];
      Arrives(blocks, buf, pieces[..i], pieces[i]);
      buf := buf + pieces[i];
      while |buf| >= chunkBytes
        invariant Concat(blocks) + buf == Concat(pieces[..i + 1])
        invariant forall b | b in blocks :: |b| == chunkBytes
        decreases |buf|
      {
        Departs(blocks, buf, chunkBytes);
        blocks := blocks + [buf[..chunkBytes]];
        buf := buf[chunkBytes..];
      }
    }
    assert pieces[..|pieces|] == pieces;
    if buf == [] {
      assert Concat(blocks) + buf == Concat(blocks);
    } else {
      ConcatSnoc(blocks, buf);
      blocks := blocks + [buf];
    }
  }

  // ---- one block ----

  /** The offset a 204 is taken to acknowledge. */
  function Acknowledged(header: Option<nat>, expected: nat): nat {
    if header.Some? then header.value else expected
  }

  /** The durable offset a HEAD reply says, if it says one. */
  function HeadOffset(r: Reply): Option<nat> {
    if r.Lost? || (r.status != 200 && r.status != 204) then None else r.offset
  }

  datatype Sent = Sent(moved: nat, wire: Wire, failed: bool)

  function SendBlock(w: Wire, offset: nat, body: Content, tries: nat): Sent
    decreases tries
  {
    if tries == 0 then Sent(offset, w, true)
    else
      var expected := offset + |body|;
      var r, w1 := PatchReply(w, offset, body), AfterPatch(w, offset, body);
      var status := if r.Lost? then TRANSPORT_ERROR else r.status;
      if status == 204 then
        if Acknowledged(r.offset, expected) == expected then Sent(expected, w1, false) else Sent(offset, w1, true)
      else if status !in RETRYABLE then Sent(offset, w1, true)
      else
        var durable := HeadOffset(HeadReply(w1));
        if durable == Some(expected) then Sent(expected, Played(w1), false)
        else if durable.Some? && durable.value != offset then Sent(offset, Played(w1), true)
        else SendBlock(Played(w1), offset, body, tries - 1)
  }

  class Attempt {
    var created: bool
    var failed: bool
    var retries: nat

    constructor ()
      ensures !created && !failed && retries == 0
    {
      created, failed, retries := false, false, 0;
    }

    predicate TransportOk()
      reads this
    {
      !failed && created
    }
  }

  /** _patch, one request and one reconciling HEAD at a time. */
  method Patch(server: TusServer, attempt: Attempt, offset: nat, body: Content, maxRetries: nat) returns (moved: nat)
    modifies server, attempt
    ensures var s := SendBlock(old(server.wire), offset, body, maxRetries);
      moved == s.moved && server.wire == s.wire && attempt.failed == (old(attempt.failed) || s.failed)
    ensures attempt.created == old(attempt.created)
  {
    hide PatchReply, AfterPatch, HeadReply, Played;
    var expected := offset + |body|;
    for i := 0 to maxRetries
      invariant attempt.created == old(attempt.created) && attempt.failed == old(attempt.failed)
      invariant SendBlock(old(server.wire), offset, body, maxRetries) ==
                SendBlock(server.wire, offset, body, maxRetries - i)
    {
      var r := server.Patch(offset, body);
      var status := if r.Lost? then TRANSPORT_ERROR else r.status;
      if status == 204 {
        if Acknowledged(r.offset, expected) != expected {
          attempt.failed := true;
          return offset;
        }
        return expected;
      }
      if status !in RETRYABLE {
        attempt.failed := true;
        return offset;
      }
      attempt.retries := attempt.retries + 1;
      r := server.Head();
      var durable := HeadOffset(r);
      if durable == Some(expected) {
        return expected;
      }
      if durable.Some? && durable.value != offset {
        attempt.failed := true;
        return offset;
      }
    }
    attempt.failed := true;
    return offset;
  }

  /** What a block that was acknowledged, one way or the other, says about the server. */
  lemma {:induction false} SentIsHeld(w: Wire, base: Content, offset: nat, body: Content, tries: nat)
    requires offset == |base| <= |w.held| <= |base| + |body| && w.held == base + body[..|w.held| - |base|]
    requires CarriesOffsets(w.script) && body != []
    ensures var s := SendBlock(w, offset, body, tries);
      && CarriesOffsets(s.wire.script) && s.wire.length == w.length
      && (s.moved != offset ==> !s.failed && s.moved == offset + |body| && s.wire.held == base + body)
      && (s.moved == offset ==> s.failed)
    decreases tries
  {
    if tries == 0 {
    } else {
      var w1 := AfterPatch(w, offset, body);
      PatchExtends(w, base, offset, body);
      assert body[..|body|] == body;
      SentIsHeld(Played(w1), base, offset, body, tries - 1);
    }
  }

  lemma PatchExtends(w: Wire, base: Content, offset: nat, body: Content)
    requires offset == |base| <= |w.held| <= |base| + |body| && w.held == base + body[..|w.held| - |base|]
    requires CarriesOffsets(w.script)
    ensures var x := AfterPatch(w, offset, body);
      && |base| <= |x.held| <= |base| + |body| && x.held == base + body[..|x.held| - |base|]
      && x.length == w.length && CarriesOffsets(x.script) && CarriesOffsets(Played(x).script)
    ensures var r := PatchReply(w, offset, body);
      r.Reply? && r.status == 204 ==> r.offset == Some(|AfterPatch(w, offset, body).held|)
  {
    if |w.held| == |base| {
      assert w.held == base;
    }
  }

  // ---- the whole upload ----

  /** Blocks one after the other, `readable` of which can be read from disk. */
  function SendBlocks(w: Wire, offset: nat, blocks: seq<Content>, readable: nat, tries: nat): Sent
    decreases |blocks|
  {
    if blocks == [] then Sent(offset, w, false)
    else if readable == 0 then Sent(offset, w, true)
    else
      var s := SendBlock(w, offset, blocks[0], tries);
      if s.moved == offset then s else SendBlocks(s.wire, s.moved, blocks[1..], readable - 1, tries)
  }

  /** transport_ok, and what the server then holds, for an upload of `size` bytes against a script. */
  predicate Succeeds(script: seq<Turn>, blocks: seq<Content>, size: nat, readable: nat, tries: nat) {
    var s := SendBlocks(Wire(size, [], script), 0, blocks, readable, tries);
    !s.failed && s.moved == size
  }

  function HeldAfter(script: seq<Turn>, blocks: seq<Content>, size: nat, readable: nat, tries: nat): Content {
    SendBlocks(Wire(size, [], script), 0, blocks, readable, tries).wire.held
  }

  predicate NoneEmpty(blocks: seq<Content>) {
    forall i | 0 <= i < |blocks| :: blocks[i] != []
  }

  lemma {:induction false} AllSentIsHeld(w: Wire, blocks: seq<Content>, readable: nat, tries: nat)
    requires NoneEmpty(blocks) && CarriesOffsets(w.script)
    ensures var s := SendBlocks(w, |w.held|, blocks, readable, tries);
      !s.failed ==> s.wire.held == w.held + Concat(blocks) && s.moved == |s.wire.held|
    decreases |blocks|
  {
    hide SendBlock;
    if blocks == [] {
      assert w.held + Concat(blocks) == w.held;
    } else if readable == 0 {
    } else {
      assert w.held == w.held + blocks[0][..0];
      SentIsHeld(w, w.held, |w.held|, blocks[0], tries);
      var s := SendBlock(w, |w.held|, blocks[0], tries);
      if s.moved != |w.held| {
        AllSentIsHeld(s.wire, blocks[1..], readable - 1, tries);
        assert (w.held + blocks[0]) + Concat(blocks[1..]) == w.held + Concat(blocks);
      }
    }
  }

  /** With nothing left to go wrong every block arrives. */
  lemma {:induction false} NothingGoesWrong(w: Wire, blocks: seq<Content>, readable: nat, tries: nat)
    requires NoneEmpty(blocks) && w.script == [] && readable >= |blocks| && tries > 0
    requires |w.held| + |Concat(blocks)| <= w.length
    ensures var s := SendBlocks(w, |w.held|, blocks, readable, tries);
      !s.failed && s.moved == |w.held| + |Concat(blocks)|
    decreases |blocks|
  {
    if blocks == [] {
    } else {
      var s := SendBlock(w, |w.held|, blocks[0], tries);
      assert blocks[0][..|blocks[0]|] == blocks[0];
      NothingGoesWrong(s.wire, blocks[1..], readable - 1, tries);
    }
  }

  /** Every block but the last arrives; the last is acknowledged by a 204 without an offset, and not kept. */
  function Misleading(blocks: seq<Content>): seq<Turn>
    requires blocks != []
  {
    if |blocks| == 1 then [Turn(0, false, 204, false)]
    else [Turn(|blocks[0]|, false, 204, true)] + Misleading(blocks[1..])
  }

  lemma {:induction false} IsMisled(w: Wire, blocks: seq<Content>, readable: nat, tries: nat)
    requires blocks != [] && NoneEmpty(blocks) && w.script == Misleading(blocks)
    requires readable >= |blocks| && tries > 0 && |w.held| + |Concat(blocks)| <= w.length
    ensures var s := SendBlocks(w, |w.held|, blocks, readable, tries);
      !s.failed && s.moved == |w.held| + |Concat(blocks)| && |s.wire.held| < s.moved
    decreases |blocks|
  {
    var s := SendBlock(w, |w.held|, blocks[0], tries);
    if |blocks| == 1 {
      assert blocks[1..] == [];
    } else {
      assert blocks[0][..|blocks[0]|] == blocks[0];
      assert s.wire.script == Misleading(blocks[1..]);
      IsMisled(s.wire, blocks[1..], readable - 1, tries);
    }
  }

  /**
    transport_ok means exact content if and only if a 204 always carries its offset,
    as tus 1.0.0 demands: then it does for every upload and everything that may go
    wrong, and otherwise every upload that sends anything can be reported as done
    with bytes missing.
    */
  lemma TransportOkIsExactIff(mayOmit: bool, blocks: seq<Content>, readable: nat, tries: nat)
    requires blocks != [] && NoneEmpty(blocks) && readable >= |blocks| && tries > 0
    ensures (forall script: seq<Turn> | (mayOmit || CarriesOffsets(script))
                                        && Succeeds(script, blocks, |Concat(blocks)|, readable, tries) ::
               HeldAfter(script, blocks, |Concat(blocks)|, readable, tries) == Concat(blocks)) <==> !mayOmit
  {
    var size := |Concat(blocks)|;
    if mayOmit {
      var script := Misleading(blocks);
      IsMisled(Wire(size, [], script), blocks, readable, tries);
      assert Succeeds(script, blocks, size, readable, tries);
    } else {
      forall script: seq<Turn> | CarriesOffsets(script) && Succeeds(script, blocks, size, readable, tries)
        ensures HeldAfter(script, blocks, size, readable, tries) == Concat(blocks)
      {
        AllSentIsHeld(Wire(size, [], script), blocks, readable, tries);
        assert [] + Concat(blocks) == Concat(blocks);
      }
    }
  }

  /** The loop over the blocks: it ends at the first that does not move the offset, or cannot be read. */
  method SendAll(server: TusServer, attempt: Attempt, blocks: seq<Content>, readable: nat, maxRetries: nat)
    returns (offset: nat)
    requires !attempt.failed && NoneEmpty(blocks)
    modifies server, attempt
    ensures SendBlocks(old(server.wire), 0, blocks, readable, maxRetries) == Sent(offset, server.wire, attempt.failed)
    ensures attempt.created == old(attempt.created)
  {
    offset := 0;
    for i := 0 to |blocks|
      invariant attempt.created == old(attempt.created) && !attempt.failed && i <= readable
      invariant SendBlocks(old(server.wire), 0, blocks, readable, maxRetries) ==
                SendBlocks(server.wire, offset, blocks[i..], readable - i, maxRetries)
    {
      assert blocks[i..][0] == blocks[i] && blocks[i..][1..] == blocks[i + 1..];
      if i == readable {
        attempt.failed := true;
        return;
      }
      MovedIsSent(server.wire, offset, blocks[i], maxRetries);
      var moved := Patch(server, attempt, offset, blocks[i], maxRetries);
      if moved == offset {
        return;
      }
      offset := moved;
    }
  }

  /** The offset moves exactly when the block was taken as sent. */
  lemma {:induction false} MovedIsSent(w: Wire, offset: nat, body: Content, tries: nat)
    requires body != []
    ensures SendBlock(w, offset, body, tries).failed <==> SendBlock(w, offset, body, tries).moved == offset
    decreases tries
  {
    if tries == 0 {
    } else {
      MovedIsSent(Played(AfterPatch(w, offset, body)), offset, body, tries - 1);
    }
  }

  lemma {:induction false} BlocksAreFew(blocks: seq<Content>)
    requires NoneEmpty(blocks)
    ensures |blocks| <= |Concat(blocks)|
  {
    if blocks == [] {
    } else {
      BlocksAreFew(blocks[1..]);
    }
  }

  /**
    upload: against a server that keeps to the protocol, transport_ok means it holds
    exactly the payload; and when nothing goes wrong, transport_ok is what comes out.
    */
  method Upload(server: TusServer, attempt: Attempt, pieces: seq<Content>, size: nat, chunkBytes: nat, maxRetries: nat,
                created: bool, readable: nat)
    requires chunkBytes > 0 && server.wire.held == [] && server.wire.length == size
    requires !attempt.failed && !attempt.created
    modifies server, attempt
    ensures attempt.TransportOk() && CarriesOffsets(old(server.wire.script)) ==>
              server.wire.held == Concat(pieces) && |Concat(pieces)| == size
    ensures var calm := old(server.wire.script) == [] && |Concat(pieces)| == size <= readable;
      created && calm && maxRetries > 0 ==> attempt.TransportOk()
  {
    hide SendBlocks, Concat;
    attempt.created := created;
    if !created {
      attempt.failed := true;
      return;
    }
    var blocks := Blocks(pieces, chunkBytes);
    var offset := SendAll(server, attempt, blocks, readable, maxRetries);
    BlocksAreFew(blocks);
    assert old(server.wire) == Wire(size, [], old(server.wire.script));
    if CarriesOffsets(old(server.wire.script)) {
      AllSentIsHeld(old(server.wire), blocks, readable, maxRetries);
      assert [] + Concat(blocks) == Concat(blocks);
    }
    if old(server.wire.script) == [] && |Concat(pieces)| == size <= readable && maxRetries > 0 {
      NothingGoesWrong(old(server.wire), blocks, readable, maxRetries);
    }
    if offset != size && !attempt.failed {
      attempt.failed := true;
    }
  }
}
