/** The battle harness: synthetic payloads generated per slice, and a resuming uploader. */
module TusBattle {
  import opened Records
  import opened TusServer

  const ZERO_BLOCK := 64 * 1024

  const RETRYABLE := {408, 409, 423, 425, 429, 500, 502, 503, 504}

  const ATTEMPTS := 9

  /** What a load-test file is made of: zeros, with an image at the front and a marker over its end. */
  datatype Spec = Spec(total: nat, png: Content, marker: Content)

  function ByteAt(f: Spec, p: int): nat {
    if f.total - |f.marker| <= p < f.total then f.marker[p - (f.total - |f.marker|)]
    else if 0 <= p < |f.png| then f.png[p]
    else 0
  }

  /** The bytes of the one fixed file between two offsets. */
  function Slice(f: Spec, from: int, to: int): (r: Content)
    requires from <= to
    ensures |r| == to - from && forall i | 0 <= i < |r| :: r[i] == ByteAt(f, from + i)
  {
    seq<nat>(to - from, i requires 0 <= i < to - from => ByteAt(f, from + i))
  }

  /** However the file is cut, its slices concatenate to it. */
  lemma SlicesPartition(f: Spec, a: int, b: int, c: int)
    requires a <= b <= c
    ensures Slice(f, a, b) + Slice(f, b, c) == Slice(f, a, c)
  {
    var l, r := Slice(f, a, b) + Slice(f, b, c), Slice(f, a, c);
    forall i | 0 <= i < |r| ensures l[i] == r[i] {
      if i >= b - a { assert l[i] == Slice(f, b, c)[i - (b - a)]; }
    }
  }

  function Concat(blocks: seq<Content>): Content {
    if blocks == [] then [] else Concat(blocks[..|blocks| - 1]) + blocks[|blocks| - 1]
  }

  function Max(a: int, b: int): int { if a < b then b else a }

  /** Slice assignment into a byte array. */
  method Overlay(block: array<nat>, at: nat, bytes: Content)
    requires at + |bytes| <= block.Length
    modifies block
    ensures forall i | 0 <= i < block.Length ::
              block[i] == if at <= i < at + |bytes| then bytes[i - at] else old(block[i])
  {
    for k := 0 to |bytes|
      invariant forall i | 0 <= i < block.Length ::
                  block[i] == if at <= i < at + k then bytes[i - at] else old(block[i])
    {
      block[at + k] := bytes[k];
    }
  }

  /** One block of the payload, with the image and the marker patched into it where they overlap. */
  method Block(f: Spec, position: int, blockEnd: int) returns (bytes: Content)
    requires position < blockEnd
    ensures bytes == Slice(f, position, blockEnd)
  {
    var markerStart := f.total - |f.marker|;
    var block := new nat[blockEnd - position](_ => 0);
    if (position < |f.png| && blockEnd > 0) || (position < f.total && blockEnd > markerStart) {
      var pngFrom, pngTo := Max(position, 0), Min(blockEnd, |f.png|);
      if pngTo > pngFrom {
        Overlay(block, pngFrom - position, f.png[pngFrom..pngTo]);
      }
      assert forall i | 0 <= i < block.Length ::
          block[i] == if 0 <= position + i < |f.png| then f.png[position + i] else 0;
      var markFrom, markTo := Max(position, markerStart), Min(blockEnd, f.total);
      if markTo > markFrom {
        var sourceStart := markFrom - markerStart;
        Overlay(block, markFrom - position, f.marker[sourceStart..sourceStart + markTo - markFrom]);
      }
    }
    bytes := block[..];
  }

  /** payload_factory: whatever the block boundaries, the stream is the file's slice. */
  method Payload(f: Spec, offset: int, length: nat) returns (blocks: seq<Content>)
    ensures Concat(blocks) == Slice(f, offset, offset + length)
    ensures forall b | b in blocks :: 0 < |b| <= ZERO_BLOCK
  {
    var end, position := offset + length, offset;
    blocks := [];
    while position < end
      invariant offset <= position <= end
      invariant Concat(blocks) == Slice(f, offset, position)
      invariant forall b | b in blocks :: 0 < |b| <= ZERO_BLOCK
    {
      var blockEnd := Min(position + ZERO_BLOCK, end);
      var block := Block(f, position, blockEnd);
      SlicesPartition(f, offset, position, blockEnd);
      assert (blocks + [block])[..|blocks|] == blocks;
      blocks := blocks + [block];
      position := blockEnd;
    }
  }

  /** The offsets at which a file is cut, from its start to its end. */
  predicate IsPartition(cuts: seq<nat>, total: nat) {
    |cuts| > 0 && cuts[0] == 0 && cuts[|cuts| - 1] == total && Ascending(cuts)
  }

  predicate Ascending(cuts: seq<nat>) {
    forall i, k | 0 <= i < k < |cuts| :: cuts[i] <= cuts[k]
  }

  function Between(f: Spec, cuts: seq<nat>): seq<Content>
    requires Ascending(cuts)
  {
    if |cuts| <= 1 then [] else Between(f, cuts[..|cuts| - 1]) + [Slice(f, cuts[|cuts| - 2], cuts[|cuts| - 1])]
  }

  lemma {:induction false} CutsConcatenate(f: Spec, cuts: seq<nat>)
    requires |cuts| > 0 && cuts[0] == 0 && Ascending(cuts)
    ensures cuts[|cuts| - 1] >= 0 && Concat(Between(f, cuts)) == Slice(f, 0, cuts[|cuts| - 1])
  {
    if |cuts| == 1 {
    } else {
      var p := cuts[..|cuts| - 1];
      CutsConcatenate(f, p);
      SlicesPartition(f, 0, cuts[|cuts| - 2], cuts[|cuts| - 1]);
      var all := Between(f, cuts);
      assert all[..|all| - 1] == Between(f, p);
    }
  }

  /** However two uploads cut the same file, what they send is the same. */
  lemma PartitionsAgree(f: Spec, cuts: seq<nat>, others: seq<nat>)
    requires IsPartition(cuts, f.total) && IsPartition(others, f.total)
    ensures Concat(Between(f, cuts)) == Slice(f, 0, f.total) == Concat(Between(f, others))
  {
    CutsConcatenate(f, cuts);
    CutsConcatenate(f, others);
  }

  /** The server holds a prefix of the one file. */
  ghost predicate Faithful(w: Wire, f: Spec) {
    w.length == f.total && |w.held| <= f.total && w.held == Slice(f, 0, |w.held|)
  }

  /** No successful HEAD comes without its offset. */
  predicate NoBareHeads(script: seq<Turn>) {
    forall i | 0 <= i < |script| && script[i].status == 200 :: script[i].withOffset
  }

  /** What is left of the script: a shorter one, and no worse. */
  predicate Later(before: seq<Turn>, after: seq<Turn>) {
    |after| <= |before| && (before != [] ==> |after| < |before|) && (NoBareHeads(before) ==> NoBareHeads(after))
  }

  method Head(server: TusServer) returns (offset: Option<int>)
    modifies server
    ensures server.wire == Played(old(server.wire)) && Later(old(server.wire.script), server.wire.script)
    ensures offset.Some? ==> offset.value == -1 || offset.value == |server.wire.held|
    ensures offset == Some(-1) ==> !NoBareHeads(old(server.wire.script))
    ensures old(server.wire.script) == [] ==> offset == Some(|server.wire.held|)
  {
    var r := server.Head();
    if r.Lost? || r.status != 200 {
      return None;
    }
    return Some(if r.offset.Some? then r.offset.value else -1);
  }

  /** One PATCH request, body included. */
  method SendSlice(server: TusServer, f: Spec, offset: int, length: nat) returns (r: Reply)
    requires Faithful(server.wire, f) && offset + length <= f.total
    modifies server
    ensures Faithful(server.wire, f) && Later(old(server.wire.script), server.wire.script)
    ensures r.Reply? && r.status == 204 && r.offset.Some? ==> r.offset.value == |server.wire.held|
    ensures r.Reply? && r.status == 204 ==> offset == |old(server.wire.held)|
    ensures |old(server.wire.held)| <= |server.wire.held|
    ensures old(server.wire.script) == [] && offset == |old(server.wire.held)| ==> r == Reply(204, Some(offset + length))
    ensures old(server.wire.script) == [] && offset != |old(server.wire.held)| ==> r.Reply? && r.status == 409
  {
    var blocks := Payload(f, offset, length);
    r := server.Patch(offset, Concat(blocks));
    var k := Kept(old(server.wire), offset, Slice(f, offset, offset + length));
    if offset == |old(server.wire.held)| {
      SlicesPartition(f, 0, offset, offset + k);
      assert Slice(f, offset, offset + length)[..k] == Slice(f, offset, offset + k);
    } else {
      assert server.wire.held == old(server.wire.held);
    }
  }

  /**
    patch: None is an exception, otherwise the server's own offset, or -1 when a
    successful HEAD carried none. With nothing left to go wrong the offset grows.
    */
  method Patch(server: TusServer, f: Spec, offset: int, length: nat) returns (next: Option<int>)
    requires Faithful(server.wire, f) && offset + length <= f.total
    requires offset == -1 || offset == |server.wire.held|
    modifies server
    ensures Faithful(server.wire, f) && Later(old(server.wire.script), server.wire.script)
    ensures next.Some? ==> next.value == -1 || next.value == |server.wire.held|
    ensures next == Some(-1) ==> !NoBareHeads(old(server.wire.script))
    ensures |old(server.wire.held)| <= |server.wire.held|
    ensures old(server.wire.script) == [] ==> next.Some? && (next.value > offset || length == 0)
    ensures old(server.wire.script) == [] && offset >= 0 ==> next == Some(offset + length)
  {
    for attempt := 0 to ATTEMPTS
      invariant Faithful(server.wire, f) && |old(server.wire.held)| <= |server.wire.held|
      invariant attempt == 0 ==> server.wire == old(server.wire)
      invariant attempt > 0 ==> Later(old(server.wire.script), server.wire.script) && old(server.wire.script) != []
    {
      var r := SendSlice(server, f, offset, length);
      if r.Reply? {
        if r.status == 204 {
          var moved := if r.offset.Some? then r.offset.value else -1;
          if moved < offset || moved > f.total {
            return None;
          }
          return Some(moved);
        }
        if r.status !in RETRYABLE {
          return None;
        }
      }
      var reconciled := Head(server);
      if reconciled.Some? && reconciled.value != offset {
        return reconciled;
      }
    }
    return None;
  }

  /**
    Success means the server holds exactly the file, whatever prefixes it kept and
    whatever replies were lost; when nothing goes wrong there is success. The loop
    ends because only finitely much goes wrong; and where no successful HEAD lacks
    its offset, it ends within as many rounds as the file has bytes.
    */
  method UploadOne(server: TusServer, f: Spec, chunkSize: nat, forceResume: bool) returns (success: bool, rounds: nat)
    requires chunkSize > 0 && server.wire.held == [] && server.wire.length == f.total
    modifies server
    ensures Faithful(server.wire, f)
    ensures success ==> server.wire.held == Slice(f, 0, f.total)
    ensures old(server.wire.script) == [] ==> success
    ensures NoBareHeads(old(server.wire.script)) ==> rounds <= f.total
  {
    var offset := 0;
    rounds := 0;
    while offset < f.total
      invariant Faithful(server.wire, f) && (offset == -1 || offset == |server.wire.held|)
      invariant old(server.wire.script) == [] ==> server.wire.script == []
      invariant NoBareHeads(old(server.wire.script)) ==> NoBareHeads(server.wire.script) && rounds <= offset
      decreases |server.wire.script|, f.total - offset
    {
      var length := Min(chunkSize, f.total - offset);
      var next := Patch(server, f, offset, length);
      if next == None || next.value == offset {
        return false, rounds;
      }
      offset := next.value;
      rounds := rounds + 1;
      if forceResume && rounds == 1 && offset < f.total {
        var resumed := Head(server);
        if resumed != Some(offset) {
          return false, rounds;
        }
      }
    }
    success := offset == f.total;
  }
}
