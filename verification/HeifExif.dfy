/** The Exif item of a HEIF still (ISO/IEC 23008-12 Annex A), from the file to the TIFF payload. */
module HeifExif {
  import opened Records
  import opened Bytes
  import opened Boxes
  import L = ItemLocation

  const MAX_META := 4 * 1024 * 1024
  const MAX_EXIF := 1024 * 1024

  const META: Bytes := [0x6d, 0x65, 0x74, 0x61]
  const IINF: Bytes := [0x69, 0x69, 0x6e, 0x66]
  const INFE: Bytes := [0x69, 0x6e, 0x66, 0x65]
  const ILOC: Bytes := [0x69, 0x6c, 0x6f, 0x63]
  const EXIF: Bytes := [0x45, 0x78, 0x69, 0x66]

  // ---- iinf, ISO/IEC 14496-12 section 8.11.6 ----

  /** The item id of one entry box, if it declares the Exif type. */
  function ExifEntry(box: Box): Option<nat> {
    if box.kind != INFE || |box.payload| < 4 then None
    else
      var version, entry := box.payload[0], box.payload[4..];
      if version == 2 && |entry| >= 8 && entry[4..8] == EXIF then Some(Value(entry[..2]))
      else if version >= 3 && |entry| >= 10 && entry[6..10] == EXIF then Some(Value(entry[..4]))
      else None
  }

  function FirstExif(b: Bytes, n: nat): Option<nat> {
    if n == 0 then None
    else
      var box := NextBox(b);
      if box == None then None
      else if ExifEntry(box.value).Some? then ExifEntry(box.value)
      else FirstExif(box.value.rest, n - 1)
  }

  function ExifItem(iinf: Bytes): Option<nat> {
    if |iinf| < 4 then None
    else
      var count := ReadUint(iinf[4..], if iinf[0] == 0 then 2 else 4);
      if count == None then None else FirstExif(count.value.rest, count.value.value)
  }

  method ExifItemId(iinf: Bytes) returns (id: Option<nat>)
    ensures id == ExifItem(iinf)
  {
    hide ReadUint, NextBox;
    if |iinf| < 4 { return None; }
    var count := ReadUint(iinf[4..], if iinf[0] == 0 then 2 else 4);
    if count == None { return None; }
    var b := count.value.rest;
    for i := 0 to count.value.value
      invariant ExifItem(iinf) == FirstExif(b, count.value.value - i)
    {
      var box := NextBox(b);
      if box == None { return None; }
      b := box.value.rest;
      var found := ExifEntry(box.value);
      if found.Some? { return found; }
    }
    return None;
  }

  /** The body of an infe box: two that can declare a type, and whatever declares none. */
  datatype Info =
    | Info2(flags: Bytes, id: nat, protection: nat, kind: Bytes, tail: Bytes)
    | Info3(version: Byte, flags: Bytes, id: nat, protection: nat, kind: Bytes, tail: Bytes)
    | Untyped(version: Byte, flags: Bytes, body: Bytes)

  predicate InfoFits(i: Info) {
    match i
    case Info2(flags, id, protection, kind, _) =>
      |flags| == 3 && id < Power(2) && protection < Power(2) && |kind| == 4
    case Info3(version, flags, id, protection, kind, _) =>
      version >= 3 && |flags| == 3 && id < Power(4) && protection < Power(2) && |kind| == 4
    case Untyped(version, flags, body) =>
      |flags| == 3 && (version < 2 || (version == 2 && |body| < 8) || (version >= 3 && |body| < 10))
  }

  function EncodeInfo(i: Info): Bytes
    requires InfoFits(i)
  {
    match i
    case Info2(flags, id, protection, kind, tail) =>
      [2] + flags + (Encode(id, 2) + Encode(protection, 2) + kind + tail)
    case Info3(version, flags, id, protection, kind, tail) =>
      [version] + flags + (Encode(id, 4) + Encode(protection, 2) + kind + tail)
    case Untyped(version, flags, body) => [version] + flags + body
  }

  function IsExif(i: Info): bool {
    !i.Untyped? && i.kind == EXIF
  }

  /** One box of the list, in any of the size forms: an entry, or something else that is passed over. */
  datatype Listed =
    | Entry(form: Form, info: Info)
    | Stray(form: Form, kind: Bytes, payload: Bytes)

  predicate ListedFits(l: Listed) {
    match l
    case Entry(form, info) => InfoFits(info) && Encodable(form, INFE, EncodeInfo(info))
    case Stray(form, kind, payload) => Encodable(form, kind, payload) && (kind != INFE || |payload| < 4)
  }

  function AsChild(l: Listed): Child
    requires ListedFits(l)
  {
    match l
    case Entry(form, info) => Child(form, INFE, EncodeInfo(info))
    case Stray(form, kind, payload) => Child(form, kind, payload)
  }

  function IdOf(l: Listed): Option<nat> {
    if l.Entry? && IsExif(l.info) then Some(l.info.id) else None
  }

  lemma RecognisesInfo(i: Info, rest: Bytes)
    requires InfoFits(i)
    ensures ExifEntry(Box(INFE, EncodeInfo(i), rest)) == if IsExif(i) then Some(i.id) else None
  {
    hide Power, Encode, Value;
    var p := EncodeInfo(i);
    match i {
      case Info2(flags, id, protection, kind, tail) =>
        var entry := Encode(id, 2) + Encode(protection, 2) + kind + tail;
        assert p[0] == 2 && p[4..] == entry && entry[..2] == Encode(id, 2) && entry[4..8] == kind;
        ValueOfEncoding(id, 2);
      case Info3(version, flags, id, protection, kind, tail) =>
        var entry := Encode(id, 4) + Encode(protection, 2) + kind + tail;
        assert p[0] == version && p[4..] == entry && entry[..4] == Encode(id, 4) && entry[6..10] == kind;
        ValueOfEncoding(id, 4);
      case Untyped(version, flags, body) =>
        assert p[0] == version && p[4..] == body;
    }
  }

  lemma RecognisesListed(l: Listed, rest: Bytes)
    requires ListedFits(l)
    ensures ExifEntry(Box(AsChild(l).kind, AsChild(l).payload, rest)) == IdOf(l)
  {
    hide ExifEntry, EncodeInfo, InfoFits, IsExif;
    if l.Entry? {
      RecognisesInfo(l.info, rest);
    } else {
      StrayIsNoEntry(l.kind, l.payload, rest);
    }
  }

  lemma StrayIsNoEntry(kind: Bytes, payload: Bytes, rest: Bytes)
    requires kind != INFE || |payload| < 4
    ensures ExifEntry(Box(kind, payload, rest)) == None
  {}

  /** Only the last box may run to the end of the list. */
  predicate ListFits(entries: seq<Listed>) {
    && (forall i | 0 <= i < |entries| :: ListedFits(entries[i]))
    && (forall i | 0 <= i < |entries| - 1 :: entries[i].form != ToEnd)
  }

  function EncodeList(entries: seq<Listed>): Bytes
    requires ListFits(entries)
  {
    if entries == [] then []
    else
      var c := AsChild(entries[0]);
      EncodeBox(c.form, c.kind, c.payload) + EncodeList(entries[1..])
  }

  function FirstExifListed(entries: seq<Listed>): Option<nat> {
    if entries == [] then None
    else if IdOf(entries[0]).Some? then IdOf(entries[0])
    else FirstExifListed(entries[1..])
  }

  /** The item found is the first entry of version 2 or later that declares the Exif type. */
  lemma {:induction false} FindsFirstExif(entries: seq<Listed>)
    requires ListFits(entries)
    ensures FirstExif(EncodeList(entries), |entries|) == FirstExifListed(entries)
  {
    hide NextBox, ExifEntry, EncodeInfo, EncodeBox, InfoFits, IsExif, IdOf;
    if entries == [] {
    } else {
      var c := AsChild(entries[0]);
      LastMayRunOn(entries);
      SplitsEncodedBox(c.form, c.kind, c.payload, EncodeList(entries[1..]));
      RecognisesListed(entries[0], EncodeList(entries[1..]));
      FindsFirstExif(entries[1..]);
    }
  }

  lemma LastMayRunOn(entries: seq<Listed>)
    requires ListFits(entries) && entries != []
    ensures ListFits(entries[1..])
    ensures AsChild(entries[0]).form == ToEnd ==> EncodeList(entries[1..]) == []
  {
    hide ListedFits;
    if AsChild(entries[0]).form == ToEnd {
      assert |entries| == 1;
    }
  }

  // ---- the whole reader ----

  /** Where the payload lies, when every part of the file that says so is in order. */
  function ExifRange(file: Bytes): Option<(int, int)> {
    var meta := FirstBox(file, META);
    if meta == None || |meta.value| > MAX_META || |meta.value| < 4 then None
    else
      var children := meta.value[4..];
      var iinf := FirstBox(children, IINF);
      var item := if iinf == None then None else ExifItem(iinf.value);
      var iloc := FirstBox(children, ILOC);
      if item == None || iloc == None then None
      else
        var w := L.Extent(iloc.value, item.value);
        if w.Found? then Some((w.offset, w.length)) else None
  }

  /** Signed 64-bit addition. */
  function Add64(a: int, b: int): int
    requires -TWO_63 <= a < TWO_63 && 0 <= b < TWO_63
  {
    if a + b < TWO_63 then a + b else a + b - TWO_64
  }

  /**
    Whatever the file holds, the result is a contiguous range of it. Where the sum of
    offset and length wraps the size check passes, and the read past the end is what
    refuses it.
    */
  method ReadExif(file: Bytes) returns (payload: Option<Bytes>)
    requires |file| < TWO_63 - 8
    ensures payload.Some? ==>
              exists from, to :: 0 <= from < to <= |file| && to - from <= MAX_EXIF && payload.value == file[from..to]
    ensures payload.Some? <==> ExifRange(file).Some? && Readable(file, ExifRange(file).value.0, ExifRange(file).value.1)
    ensures payload.Some? ==>
              var (offset, length) := ExifRange(file).value;
              payload == Some(file[offset + Skip(file, offset)..offset + length])
  {
    hide FirstBox, L.Extent, ExifItem;
    var meta := ReadTopLevelBox(file, META, MAX_META);
    if meta == None || |meta.value| < 4 { return None; }
    var children := meta.value[4..];
    var iinf := FindBox(children, IINF);
    if iinf == None { return None; }
    var item := ExifItemId(iinf.value);
    if item == None { return None; }
    var iloc := FindBox(children, ILOC);
    if iloc == None { return None; }
    var extent := L.ItemExtent(iloc.value, item.value);
    if !extent.Found? { return None; }
    var offset, length := extent.offset, extent.length;
    ExtentIsInRange(iloc.value, item.value);
    payload := ReadPayload(file, offset, length);
  }

  /** The first four bytes of the item say how much of it precedes the TIFF header. */
  function Skip(file: Bytes, offset: int): int
    requires 0 <= offset && offset + 4 <= |file|
  {
    Value(file[offset..offset + 4]) + 4
  }

  predicate Readable(file: Bytes, offset: int, length: int) {
    && 4 < length <= MAX_EXIF && 0 <= offset && offset + length <= |file|
    && Skip(file, offset) < length
  }

  lemma ExtentIsInRange(iloc: Bytes, want: nat)
    requires L.Extent(iloc, want).Found?
    ensures -TWO_63 <= L.Extent(iloc, want).offset < TWO_63 && 0 <= L.Extent(iloc, want).length <= TWO_62
  {
    if |iloc| >= 6 {
      var z := L.WidthsOf(iloc[0], iloc[4], iloc[5]);
      var count := ReadUint(iloc[6..], if iloc[0] < 2 then 2 else 4);
      if count.Some? { EntriesInRange(count.value.rest, count.value.value, iloc[0], want, z); }
    }
  }

  ghost predicate InRange(w: L.Walk) {
    w.Found? ==> -TWO_63 <= w.offset < TWO_63 && 0 <= w.length <= TWO_62
  }

  lemma {:induction false} ExtentsInRange(b: Bytes, n: nat, hit: bool, base: nat, z: L.Widths)
    ensures InRange(L.Extents(b, n, hit, base, z))
    decreases n
  {
    hide ReadUint;
    if n == 0 || |b| < z.index {
    } else {
      var o := ReadUint(b[z.index..], z.offset);
      if o.Some? {
        var l := ReadUint(o.value.rest, z.length);
        if l.Some? && !hit { ExtentsInRange(l.value.rest, n - 1, false, base, z); }
      }
    }
  }

  lemma {:induction false} EntriesInRange(b: Bytes, n: nat, version: nat, want: nat, z: L.Widths)
    ensures InRange(L.Entries(b, n, version, want, z))
    decreases n
  {
    hide ReadUint, L.ReadHead, L.Extents;
    if n == 0 {
    } else {
      var h := L.ReadHead(b, version, z);
      if h.Some? {
        var hit := h.value.id == want && h.value.construction == 0;
        ExtentsInRange(h.value.rest, h.value.extentCount, hit, h.value.base, z);
        var w := L.Extents(h.value.rest, h.value.extentCount, hit, h.value.base, z);
        if w.Rest? { EntriesInRange(w.b, n - 1, version, want, z); }
      }
    }
  }

  method ReadPayload(file: Bytes, offset: int, length: int) returns (payload: Option<Bytes>)
    requires |file| < TWO_63 - 8 && -TWO_63 <= offset < TWO_63 && 0 <= length < TWO_63
    ensures payload.Some? <==> Readable(file, offset, length)
    ensures payload.Some? ==> payload == Some(file[offset + Skip(file, offset)..offset + length])
  {
    if length <= 4 || length > MAX_EXIF || offset < 0 || Add64(offset, length) > |file| {
      return None;
    }
    var item := ReadAt(file, offset, length);
    if item == None { return None; }
    assert item.value[..4] == file[offset..offset + 4];
    ValueIsBounded(item.value[..4]);
    Powers();
    var skip := Value(item.value[..4]) + 4;
    if skip < 4 || skip >= length { return None; }
    assert item.value[skip..] == file[offset + skip..offset + length];
    return Some(item.value[skip..]);
  }

  /** The payload of an iinf box: any version, its flags, a count as wide as the version has it, the list. */
  function EncodeIinf(version: Byte, flags: Bytes, entries: seq<Listed>): Bytes
    requires |flags| == 3 && ListFits(entries) && |entries| < Power(if version == 0 then 2 else 4)
  {
    [version] + flags + (Encode(|entries|, if version == 0 then 2 else 4) + EncodeList(entries))
  }

  lemma ItemIsFound(version: Byte, flags: Bytes, entries: seq<Listed>)
    requires |flags| == 3 && ListFits(entries) && |entries| < Power(if version == 0 then 2 else 4)
    ensures ExifItem(EncodeIinf(version, flags, entries)) == FirstExifListed(entries)
  {
    hide EncodeList, FirstExif, ReadUint, Encode, Power, ListFits;
    var width := if version == 0 then 2 else 4;
    var iinf := EncodeIinf(version, flags, entries);
    assert iinf[0] == version && iinf[4..] == Encode(|entries|, width) + EncodeList(entries);
    ReadsBack(|entries|, width, EncodeList(entries));
    FindsFirstExif(entries);
  }

  /** The reader undoes the writer: a well-formed file gives back exactly the payload its boxes describe. */
  lemma ReadsWhatWasWritten(file: Bytes, before: seq<Child>, flags: Bytes, children: seq<Child>, after: seq<Child>,
                            meta: Form, version: Byte, iinfFlags: Bytes, entries: seq<Listed>, x: L.Iloc)
    requires |flags| == 4 && WellFormed(children) && |flags + EncodeAll(children)| <= MAX_META
    requires var top := before + [Child(meta, META, flags + EncodeAll(children))] + after;
      WellFormed(top) && file == EncodeAll(top)
    requires forall c | c in before :: c.kind != META
    requires |iinfFlags| == 3 && ListFits(entries) && |entries| < Power(if version == 0 then 2 else 4)
    requires FirstChild(children, IINF) == Some(EncodeIinf(version, iinfFlags, entries))
    requires L.Fits(x) && FirstChild(children, ILOC) == Some(L.EncodeIloc(x))
    ensures ExifRange(file) ==
            var item := FirstExifListed(entries);
            var f := if item.Some? then L.FirstExtent(x.entries, item.value) else None;
            if f.Some? && !L.TooLarge(f.value.0, f.value.1.offset, f.value.1.length)
            then Some((ToInt64((f.value.0 + f.value.1.offset) % TWO_64), f.value.1.length))
            else None
  {
    hide FirstBox, FirstChild, EncodeAll, L.Extent, L.EncodeIloc, EncodeIinf;
    hide FirstExif, ReadUint, Encode, Power, L.Fits;
    hide WellFormed, ExifItem, FirstExifListed, L.FirstExtent, ListFits;
    var body := flags + EncodeAll(children);
    var top := before + [Child(meta, META, body)] + after;
    FindsFirstChild(top, META);
    FirstOfKind(before, Child(meta, META, body), after);
    assert body[4..] == EncodeAll(children);
    FindsFirstChild(children, IINF);
    FindsFirstChild(children, ILOC);
    ItemIsFound(version, iinfFlags, entries);
    if FirstExifListed(entries).Some? {
      L.ExtentIsExact(x, FirstExifListed(entries).value);
    }
  }

  lemma {:induction false} FirstOfKind(before: seq<Child>, c: Child, after: seq<Child>)
    requires forall b | b in before :: b.kind != c.kind
    ensures FirstChild(before + [c] + after, c.kind) == Some(c.payload)
  {
    var all := before + [c] + after;
    if before == [] {
    } else {
      assert all[1..] == before[1..] + [c] + after;
      FirstOfKind(before[1..], c, after);
    }
  }
}
