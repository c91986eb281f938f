/**
  One upload on a tus 1.0.0 server, as its clients may assume it: a PATCH is taken
  only at the current offset, any prefix of its body may be kept, any reply may be
  lost, and an Upload-Offset that does arrive is the truth. What goes wrong is a
  script with one turn for each request; once it is used up nothing goes wrong.
  */
module TusServer {
  import opened Records

  /** A lost reply, or a status with the Upload-Offset header if there was one. */
  datatype Reply = Lost | Reply(status: int, offset: Option<nat>)

  /** What becomes of one request: bytes kept of a PATCH, and what the client gets to see. */
  datatype Turn = Turn(keep: nat, lost: bool, status: int, withOffset: bool)

  datatype Wire = Wire(length: nat, held: Content, script: seq<Turn>)

  function Min(a: int, b: int): int { if a < b then a else b }

  function Played(w: Wire): Wire {
    w.(script := if w.script == [] then [] else w.script[1..])
  }

  function Kept(w: Wire, offset: int, body: Content): (k: nat)
    ensures k <= |body|
  {
    if offset != |w.held| || w.length < |w.held| then 0
    else
      var most := Min(|body|, w.length - |w.held|);
      if w.script == [] then most else Min(most, w.script[0].keep)
  }

  function AfterPatch(w: Wire, offset: int, body: Content): Wire {
    Played(w).(held := w.held + body[..Kept(w, offset, body)])
  }

  /** A PATCH at another offset is never acknowledged. */
  function PatchReply(w: Wire, offset: int, body: Content): Reply {
    var now := |AfterPatch(w, offset, body).held|;
    if w.script == [] then Reply(if offset == |w.held| then 204 else 409, Some(now))
    else if w.script[0].lost then Lost
    else if w.script[0].status == 204 && offset != |w.held| then Reply(409, None)
    else Reply(w.script[0].status, if w.script[0].withOffset then Some(now) else None)
  }

  function HeadReply(w: Wire): Reply {
    if w.script == [] then Reply(200, Some(|w.held|))
    else if w.script[0].lost then Lost
    else Reply(w.script[0].status, if w.script[0].withOffset then Some(|w.held|) else None)
  }

  /** tus 1.0.0: a 204 carries the new offset. */
  predicate CarriesOffsets(script: seq<Turn>) {
    forall i | 0 <= i < |script| && script[i].status == 204 :: script[i].withOffset
  }

  class TusServer {
    var wire: Wire

    constructor (length: nat, script: seq<Turn>)
      ensures wire == Wire(length, [], script)
    {
      wire := Wire(length, [], script);
    }

    method Patch(offset: int, body: Content) returns (r: Reply)
      modifies this
      ensures wire == AfterPatch(old(wire), offset, body) && r == PatchReply(old(wire), offset, body)
    {
      r := PatchReply(wire, offset, body);
      wire := AfterPatch(wire, offset, body);
    }

    method Head() returns (r: Reply)
      modifies this
      ensures wire == Played(old(wire)) && r == HeadReply(old(wire))
    {
      r := HeadReply(wire);
      wire := Played(wire);
    }
  }
}
