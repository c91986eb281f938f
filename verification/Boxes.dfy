/** Boxes of ISO/IEC 14496-12 section 4.2: splitting them, finding one, and finding one in a file. */
module Boxes {
  import opened Records
  import opened Bytes

  datatype Box = Box(kind: Bytes, payload: Bytes, rest: Bytes)

  /** Header length and declared size of the box at the front of `b`, when the header is complete. */
  function Header(b: Bytes): Option<(int, int)>
  {
    if |b| < 8 then None
    else
      var size := Value(b[..4]);
      if size == 1 then
        if |b| < 16 then None
        else ValueIsBounded(b[8..16]); Powers(); Some((16, ToInt64(Value(b[8..16]))))
      else if size == 0 then Some((8, |b|))
      else Some((8, size))
  }

  function NextBox(b: Bytes): (box: Option<Box>)
    ensures box.Some? ==> |box.value.rest| < |b|
    ensures box.Some? ==>
              (exists h, k :: 8 <= h <= k <= |b| && box.value.payload == b[h..k] && box.value.rest == b[k..])
  {
    var h := Header(b);
    if h == None || h.value.1 < h.value.0 || h.value.1 > |b| then None
    else
      var box := Box(b[4..8], b[h.value.0..h.value.1], b[h.value.1..]);
      assert box.payload == b[h.value.0..h.value.1] && box.rest == b[h.value.1..];
      Some(box)
  }

  /** The payload of the first box of the wanted kind, all boxes before it being well formed. */
  function FirstBox(b: Bytes, want: Bytes): Option<Bytes>
    decreases |b|
  {
    var box := NextBox(b);
    if box == None then None
    else if box.value.kind == want then Some(box.value.payload)
    else FirstBox(box.value.rest, want)
  }

  method FindBox(bytes: Bytes, want: Bytes) returns (payload: Option<Bytes>)
    ensures payload == FirstBox(bytes, want)
  {
    var b := bytes;
    while |b| > 0
      invariant FirstBox(b, want) == FirstBox(bytes, want)
      decreases |b|
    {
      var box := NextBox(b);
      if box == None {
        return None;
      }
      if box.value.kind == want {
        return Some(box.value.payload);
      }
      b := box.value.rest;
    }
    return None;
  }

  /** ReadAt: all of the range, or nothing. */
  function ReadAt(file: Bytes, offset: int, length: nat): Option<Bytes> {
    if offset < 0 || offset + length > |file| then None else Some(file[offset..offset + length])
  }

  predicate Fits(payload: Option<Bytes>, maxBytes: nat) {
    payload.Some? ==> |payload.value| <= maxBytes
  }

  lemma Window(file: Bytes, pos: nat, from: nat, to: nat)
    requires from <= to && pos + to <= |file|
    ensures file[pos..][from..to] == file[pos + from..pos + to] && file[pos..][to..] == file[pos + to..]
  {}

  /** The header at `pos`, read without reading the payload. */
  method ReadHeader(file: Bytes, pos: nat) returns (h: Option<(int, int)>)
    requires pos + 8 <= |file|
    ensures h == Header(file[pos..])
  {
    Window(file, pos, 0, 4);
    var size := Value(ReadAt(file, pos, 4).value);
    if size == 1 {
      var large := ReadAt(file, pos + 8, 8);
      if large == None {
        return None;
      }
      Window(file, pos, 8, 16);
      ValueIsBounded(large.value);
      Powers();
      return Some((16, ToInt64(Value(large.value))));
    }
    return Some((8, if size == 0 then |file| - pos else size));
  }

  /**
    The walk that reads headers only: it finds what FindBox would find in the whole
    file, and gives up only when that is longer than allowed. Positions stay within
    the file, so no 64-bit sum wraps.
    */
  method ReadTopLevelBox(file: Bytes, want: Bytes, maxBytes: nat) returns (payload: Option<Bytes>)
    requires |file| < TWO_63 - 8
    ensures payload == if Fits(FirstBox(file, want), maxBytes) then FirstBox(file, want) else None
  {
    hide Header;
    var pos := 0;
    assert file[0..] == file;
    while pos + 8 <= |file|
      invariant 0 <= pos <= |file|
      invariant FirstBox(file[pos..], want) == FirstBox(file, want)
      decreases |file| - pos
    {
      var h := ReadHeader(file, pos);
      if h == None {
        return None;
      }
      var header, size := h.value.0, h.value.1;
      if size < header || pos > |file| - size {
        return None;
      }
      HeadersFit(file[pos..]);
      Window(file, pos, 4, 8);
      Window(file, pos, header, size);
      if file[pos + 4..pos + 8] == want {
        var length := size - header;
        if length > maxBytes {
          return None;
        }
        return ReadAt(file, pos + header, length);
      }
      pos := pos + size;
    }
    ShortHasNoHeader(file[pos..]);
    return None;
  }

  lemma HeadersFit(b: Bytes)
    requires Header(b).Some?
    ensures |b| >= 8 && Header(b).value.0 >= 8
  {}

  lemma ShortHasNoHeader(b: Bytes)
    requires |b| < 8
    ensures Header(b) == None
  {}

  // ---- well-formed boxes ----

  datatype Form = Compact | Large | ToEnd

  predicate Encodable(form: Form, kind: Bytes, payload: Bytes) {
    && |kind| == 4
    && (form == Compact ==> 8 + |payload| < Power(4))
    && (form == Large ==> 16 + |payload| < TWO_63)
  }

  function EncodeBox(form: Form, kind: Bytes, payload: Bytes): Bytes
    requires Encodable(form, kind, payload)
  {
    Powers();
    match form
    case Compact => Encode(8 + |payload|, 4) + kind + payload
    case Large => Encode(1, 4) + kind + Encode(16 + |payload|, 8) + payload
    case ToEnd => Encode(0, 4) + kind + payload
  }

  lemma SplitsCompact(kind: Bytes, payload: Bytes, rest: Bytes)
    requires Encodable(Compact, kind, payload)
    ensures NextBox(EncodeBox(Compact, kind, payload) + rest) == Some(Box(kind, payload, rest))
  {
    ValueOfEncoding(8 + |payload|, 4);
    var b := EncodeBox(Compact, kind, payload) + rest;
    assert b[..4] == Encode(8 + |payload|, 4) && b[4..8] == kind;
    assert b[8..8 + |payload|] == payload && b[8 + |payload|..] == rest;
  }

  lemma SplitsLarge(kind: Bytes, payload: Bytes, rest: Bytes)
    requires Encodable(Large, kind, payload)
    ensures NextBox(EncodeBox(Large, kind, payload) + rest) == Some(Box(kind, payload, rest))
  {
    Powers();
    ValueOfEncoding(1, 4);
    ValueOfEncoding(16 + |payload|, 8);
    var b := EncodeBox(Large, kind, payload) + rest;
    assert b[..4] == Encode(1, 4) && b[4..8] == kind && b[8..16] == Encode(16 + |payload|, 8);
    assert b[16..16 + |payload|] == payload && b[16 + |payload|..] == rest;
  }

  lemma SplitsToEnd(kind: Bytes, payload: Bytes, rest: Bytes)
    requires Encodable(ToEnd, kind, payload) && rest == []
    ensures NextBox(EncodeBox(ToEnd, kind, payload) + rest) == Some(Box(kind, payload, rest))
  {
    hide Power, Encode, Value;
    assert 0 < Power(4) by { Powers(); }
    ValueOfEncoding(0, 4);
    var b := EncodeBox(ToEnd, kind, payload) + rest;
    assert b[..4] == Encode(0, 4) && b[4..8] == kind && b[8..] == payload && |b| == 8 + |payload|;
  }

  /** Splitting undoes encoding, in all three size forms. */
  lemma SplitsEncodedBox(form: Form, kind: Bytes, payload: Bytes, rest: Bytes)
    requires Encodable(form, kind, payload) && (form == ToEnd ==> rest == [])
    ensures NextBox(EncodeBox(form, kind, payload) + rest) == Some(Box(kind, payload, rest))
  {
    hide NextBox, EncodeBox;
    if form == Compact {
      SplitsCompact(kind, payload, rest);
    } else if form == Large {
      SplitsLarge(kind, payload, rest);
    } else {
      SplitsToEnd(kind, payload, rest);
    }
  }

  datatype Child = Child(form: Form, kind: Bytes, payload: Bytes)

  /** Only the last box may run to the end of its container. */
  predicate WellFormed(children: seq<Child>) {
    && (forall c | c in children :: Encodable(c.form, c.kind, c.payload))
    && (forall i | 0 <= i < |children| - 1 :: children[i].form != ToEnd)
  }

  function EncodeAll(children: seq<Child>): Bytes
    requires WellFormed(children)
  {
    if children == [] then [] else EncodeBox(children[0].form, children[0].kind, children[0].payload) + EncodeAll(children[1..])
  }

  function FirstChild(children: seq<Child>, want: Bytes): Option<Bytes> {
    if children == [] then None
    else if children[0].kind == want then Some(children[0].payload)
    else FirstChild(children[1..], want)
  }

  /** In a well-formed container the walk finds the first child of the wanted kind, or that there is none. */
  lemma {:induction false} FindsFirstChild(children: seq<Child>, want: Bytes)
    requires WellFormed(children)
    ensures FirstBox(EncodeAll(children), want) == FirstChild(children, want)
  {
    if children == [] {
    } else {
      var c := children[0];
      SplitsEncodedBox(c.form, c.kind, c.payload, EncodeAll(children[1..]));
      FindsFirstChild(children[1..], want);
    }
  }
}
