/** The `iloc` box of ISO/IEC 14496-12 section 8.11.3, read and written. */
module ItemLocation {
  import opened Records
  import opened Bytes

  /** Field widths, as read: the index width is zero for versions that have none. */
  datatype Widths = Widths(offset: nat, length: nat, base: nat, index: nat)

  /** A walk is cut short, finds its extent, or leaves the rest of its input. */
  datatype Walk = Bad | Found(offset: int, length: int) | Rest(b: Bytes)

  predicate TooLarge(base: nat, offset: nat, length: nat) {
    base > TWO_62 || offset > TWO_62 || length > TWO_62
  }

  /** The sum is taken unsigned and then read as signed. */
  function Locate(base: nat, offset: nat, length: nat): (w: Walk) {
    if TooLarge(base, offset, length) then Bad
    else Found(ToInt64((base + offset) % TWO_64), length)
  }

  /** `n` extents of one entry; `hit` while the first extent of a wanted entry is still to come. */
  function Extents(b: Bytes, n: nat, hit: bool, base: nat, z: Widths): Walk
    decreases n
  {
    if n == 0 then Rest(b)
    else if |b| < z.index then Bad
    else
      var o := ReadUint(b[z.index..], z.offset);
      if o == None then Bad
      else
        var l := ReadUint(o.value.rest, z.length);
        if l == None then Bad
        else if hit then Locate(base, o.value.value, l.value.value)
        else Extents(l.value.rest, n - 1, false, base, z)
  }

  datatype EntryHead = EntryHead(id: nat, construction: nat, base: nat, extentCount: nat, rest: Bytes)

  /** Everything of an entry up to its extents. */
  function ReadHead(b: Bytes, version: nat, z: Widths): Option<EntryHead> {
    var id := ReadUint(b, if version < 2 then 2 else 4);
    if id == None then None
    else
      var c := if version == 1 || version == 2 then ReadUint(id.value.rest, 2) else Some(Read(0, id.value.rest));
      if c == None || |c.value.rest| < 2 then None
      else
        var base := ReadUint(c.value.rest[2..], z.base);
        if base == None then None
        else
          var n := ReadUint(base.value.rest, 2);
          if n == None then None
          else Some(EntryHead(id.value.value, c.value.value % 16, base.value.value, n.value.value, n.value.rest))
  }

  function Entries(b: Bytes, n: nat, version: nat, want: nat, z: Widths): Walk
    decreases n
  {
    if n == 0 then Rest(b)
    else
      var h := ReadHead(b, version, z);
      if h == None then Bad
      else
        var w := Extents(h.value.rest, h.value.extentCount, h.value.id == want && h.value.construction == 0, h.value.base, z);
        if w.Rest? then Entries(w.b, n - 1, version, want, z) else w
  }

  function WidthsOf(version: nat, sizes: Byte, more: Byte): Widths {
    Widths(sizes / 16, sizes % 16, more / 16, if version == 1 || version == 2 then more % 16 else 0)
  }

  function Extent(iloc: Bytes, want: nat): Walk {
    if |iloc| < 6 then Bad
    else
      var version := iloc[0];
      var z := WidthsOf(version, iloc[4], iloc[5]);
      var count := ReadUint(iloc[6..], if version < 2 then 2 else 4);
      if count == None then Bad else Entries(count.value.rest, count.value.value, version, want, z)
  }

  /** The inner loop of itemExtent. */
  method WalkExtents(bytes: Bytes, n: nat, hit: bool, base: nat, z: Widths) returns (w: Walk)
    ensures w == Extents(bytes, n, hit, base, z)
  {
    var b := bytes;
    for e := 0 to n
      invariant Extents(bytes, n, hit, base, z) == Extents(b, n - e, hit && e == 0, base, z)
    {
      if |b| < z.index { return Bad; }
      var o := ReadUint(b[z.index..], z.offset);
      if o == None { return Bad; }
      var l := ReadUint(o.value.rest, z.length);
      if l == None { return Bad; }
      if hit && e == 0 {
        return Locate(base, o.value.value, l.value.value);
      }
      b := l.value.rest;
    }
    return Rest(b);
  }

  /** itemExtent: one pass over the entries, ending at the first extent wanted. */
  method ItemExtent(iloc: Bytes, want: nat) returns (r: Walk)
    ensures r == if Extent(iloc, want).Found? then Extent(iloc, want) else Bad
  {
    hide ReadHead, Extents, ReadUint, Locate, WidthsOf;
    if |iloc| < 6 { return Bad; }
    var version := iloc[0];
    var z := WidthsOf(version, iloc[4], iloc[5]);
    var count := ReadUint(iloc[6..], if version < 2 then 2 else 4);
    if count == None { return Bad; }
    var b := count.value.rest;
    for i := 0 to count.value.value
      invariant Extent(iloc, want) == Entries(b, count.value.value - i, version, want, z)
    {
      var head := ReadHead(b, version, z);
      if head == None { return Bad; }
      var h := head.value;
      var w := WalkExtents(h.rest, h.extentCount, h.id == want && h.construction == 0, h.base, z);
      if !w.Rest? { return w; }
      b := w.b;
    }
    return Bad;
  }

  // ---- well-formed boxes ----

  datatype Span = Span(index: nat, offset: nat, length: nat)

  datatype Entry = Entry(id: nat, reserved: nat, construction: nat, dataReference: nat, base: nat, extents: seq<Span>)

  datatype Iloc = Iloc(version: nat, flags: nat, z: Widths, reserved: nat, entries: seq<Entry>)

  predicate SpanFits(s: Span, z: Widths) {
    s.index < Power(z.index) && s.offset < Power(z.offset) && s.length < Power(z.length)
  }

  predicate EntryFits(e: Entry, version: nat, z: Widths) {
    && e.id < Power(if version < 2 then 2 else 4)
    && e.construction < 16 && e.reserved * 16 + e.construction < Power(2)
    && (version == 0 ==> e.construction == 0)
    && e.dataReference < Power(2) && e.base < Power(z.base)
    && |e.extents| < Power(2)
    && forall i | 0 <= i < |e.extents| :: SpanFits(e.extents[i], z)
  }

  predicate Fits(x: Iloc) {
    && x.version <= 2 && x.flags < Power(3)
    && x.z.offset <= 8 && x.z.length <= 8 && x.z.base <= 8 && x.z.index <= 8
    && (x.version == 0 ==> x.z.index == 0) && x.reserved < 16
    && |x.entries| < Power(if x.version < 2 then 2 else 4)
    && forall i | 0 <= i < |x.entries| :: EntryFits(x.entries[i], x.version, x.z)
  }

  function EncodeSpans(spans: seq<Span>, z: Widths): Bytes
    requires forall i | 0 <= i < |spans| :: SpanFits(spans[i], z)
  {
    if spans == [] then []
    else
      assert SpanFits(spans[0], z);
      Encode(spans[0].index, z.index) + (Encode(spans[0].offset, z.offset)
      + (Encode(spans[0].length, z.length) + EncodeSpans(spans[1..], z)))
  }

  function EncodeEntry(e: Entry, version: nat, z: Widths, rest: Bytes): Bytes
    requires EntryFits(e, version, z)
  {
    Encode(e.id, if version < 2 then 2 else 4)
    + ((if version == 0 then [] else Encode(e.reserved * 16 + e.construction, 2))
       + (Encode(e.dataReference, 2)
          + (Encode(e.base, z.base)
             + (Encode(|e.extents|, 2) + (EncodeSpans(e.extents, z) + rest)))))
  }

  function EncodeEntries(entries: seq<Entry>, version: nat, z: Widths): Bytes
    requires forall i | 0 <= i < |entries| :: EntryFits(entries[i], version, z)
  {
    if entries == [] then []
    else EncodeEntry(entries[0], version, z, EncodeEntries(entries[1..], version, z))
  }

  /** The payload of the box: version, flags, widths, count, entries. A version without indexes reserves their nibble. */
  function EncodeIloc(x: Iloc): Bytes
    requires Fits(x)
  {
    [x.version as Byte] + Encode(x.flags, 3)
    + [x.z.offset * 16 + x.z.length as Byte]
    + [x.z.base * 16 + (if x.version == 0 then x.reserved else x.z.index) as Byte]
    + (Encode(|x.entries|, if x.version < 2 then 2 else 4) + EncodeEntries(x.entries, x.version, x.z))
  }

  /** The first extent of the first matching entry that is stored in the file itself and has one. */
  function FirstExtent(entries: seq<Entry>, want: nat): Option<(nat, Span)> {
    if entries == [] then None
    else if entries[0].id == want && entries[0].construction == 0 && entries[0].extents != []
    then Some((entries[0].base, entries[0].extents[0]))
    else FirstExtent(entries[1..], want)
  }

  lemma SkipsIndex(index: Bytes, rest: Bytes)
    ensures (index + rest)[|index|..] == rest
  {}

  lemma {:induction false} WalksSpans(spans: seq<Span>, hit: bool, base: nat, z: Widths, rest: Bytes)
    requires z.offset <= 8 && z.length <= 8 && z.index <= 8
    requires forall i | 0 <= i < |spans| :: SpanFits(spans[i], z)
    ensures Extents(EncodeSpans(spans, z) + rest, |spans|, hit, base, z) ==
            if spans != [] && hit then Locate(base, spans[0].offset, spans[0].length) else Rest(rest)
  {
    hide ReadUint, Encode, Power, Value, Locate;
    if spans == [] {
      assert EncodeSpans(spans, z) + rest == rest;
    } else {
      var s := spans[0];
      var tail := EncodeSpans(spans[1..], z) + rest;
      var lengths := Encode(s.length, z.length) + tail;
      var offsets := Encode(s.offset, z.offset) + lengths;
      assert EncodeSpans(spans, z) + rest == Encode(s.index, z.index) + offsets;
      SkipsIndex(Encode(s.index, z.index), offsets);
      ReadsBack(s.offset, z.offset, lengths);
      ReadsBack(s.length, z.length, tail);
      WalksSpans(spans[1..], false, base, z, rest);
    }
  }

  lemma ReadsHead(e: Entry, version: nat, z: Widths, rest: Bytes)
    requires EntryFits(e, version, z) && version <= 2 && z.base <= 8
    ensures ReadHead(EncodeEntry(e, version, z, rest), version, z) ==
            Some(EntryHead(e.id, e.construction, e.base, |e.extents|, EncodeSpans(e.extents, z) + rest))
  {
    hide ReadUint, Encode, EncodeSpans, Power, Value;
    assert Power(2) == 0x1_0000 && Power(4) == 0x1_0000_0000 by { Powers(); }
    var spans := EncodeSpans(e.extents, z) + rest;
    var counted := Encode(|e.extents|, 2) + spans;
    var based := Encode(e.base, z.base) + counted;
    var referenced := Encode(e.dataReference, 2) + based;
    var constructed := (if version == 0 then [] else Encode(e.reserved * 16 + e.construction, 2)) + referenced;
    ReadsBack(e.id, if version < 2 then 2 else 4, constructed);
    if version == 0 {
      assert constructed == referenced;
    } else {
      ReadsBack(e.reserved * 16 + e.construction, 2, referenced);
    }
    SkipsIndex(Encode(e.dataReference, 2), based);
    ReadsBack(e.base, z.base, counted);
    ReadsBack(|e.extents|, 2, spans);
  }

  lemma {:induction false} WalksEntries(entries: seq<Entry>, version: nat, want: nat, z: Widths)
    requires version <= 2 && z.offset <= 8 && z.length <= 8 && z.base <= 8 && z.index <= 8
    requires forall i | 0 <= i < |entries| :: EntryFits(entries[i], version, z)
    ensures Entries(EncodeEntries(entries, version, z), |entries|, version, want, z) ==
            var f := FirstExtent(entries, want);
            if f.Some? then Locate(f.value.0, f.value.1.offset, f.value.1.length) else Rest([])
  {
    if entries == [] {
    } else {
      var e, rest := entries[0], EncodeEntries(entries[1..], version, z);
      ReadsHead(e, version, z, rest);
      WalksSpans(e.extents, e.id == want && e.construction == 0, e.base, z, rest);
      WalksEntries(entries[1..], version, want, z);
    }
  }

  /**
    For every well-formed box of versions 0 to 2 the walk returns the first extent of
    the first matching entry that addresses the file directly, and nothing else.
    */
  lemma ExtentIsExact(x: Iloc, want: nat)
    requires Fits(x)
    ensures Extent(EncodeIloc(x), want) ==
            var f := FirstExtent(x.entries, want);
            if f.Some? then Locate(f.value.0, f.value.1.offset, f.value.1.length) else Rest([])
  {
    hide ReadUint, Encode, Power, Value, Entries, EncodeEntries, FirstExtent, Locate;
    var width := if x.version < 2 then 2 else 4;
    var body := Encode(|x.entries|, width) + EncodeEntries(x.entries, x.version, x.z);
    var b := EncodeIloc(x);
    assert b[6..] == body;
    assert b[0] == x.version && b[4] == x.z.offset * 16 + x.z.length;
    assert b[5] == x.z.base * 16 + (if x.version == 0 then x.reserved else x.z.index);
    assert WidthsOf(x.version, b[4], b[5]) == x.z;
    ReadsBack(|x.entries|, width, EncodeEntries(x.entries, x.version, x.z));
    WalksEntries(x.entries, x.version, want, x.z);
  }

  lemma LocatesTheSum(base: nat, offset: nat, length: nat)
    requires !TooLarge(base, offset, length)
    ensures Locate(base, offset, length).Found?
    ensures Locate(base, offset, length).offset == base + offset <==> !(base == TWO_62 && offset == TWO_62)
    ensures Locate(base, offset, length).offset < 0 <==> base == TWO_62 && offset == TWO_62
  {}

  /**
    In a well-formed box whose first extent keeps to the bounds, the reported offset
    is base plus offset except exactly when both are 2^62; then the sum wraps to a
    negative one, and nothing else makes the reader report a negative offset.
    */
  lemma OffsetIsExactUnlessItWraps(x: Iloc, want: nat, base: nat, s: Span)
    requires Fits(x) && FirstExtent(x.entries, want) == Some((base, s)) && !TooLarge(base, s.offset, s.length)
    ensures var w := Extent(EncodeIloc(x), want);
      && w.Found? && w.length == s.length
      && (w.offset == base + s.offset <==> !(base == TWO_62 && s.offset == TWO_62))
      && (w.offset < 0 <==> base == TWO_62 && s.offset == TWO_62)
  {
    hide Extent, EncodeIloc, FirstExtent, Fits;
    ExtentIsExact(x, want);
    LocatesTheSum(base, s.offset, s.length);
  }
}
