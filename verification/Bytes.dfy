/** Big-endian integers of a given width. */
module Bytes {
  import opened Records

  type Byte = x: int | 0 <= x < 256

  type Bytes = seq<Byte>

  const TWO_62: int := 0x4000_0000_0000_0000
  const TWO_63: int := 0x8000_0000_0000_0000
  const TWO_64: int := 0x1_0000_0000_0000_0000

  /** Conversion of an unsigned 64-bit value to a signed one. */
  function ToInt64(u: nat): int
    requires u < TWO_64
  {
    if u < TWO_63 then u else u - TWO_64
  }

  function Power(width: nat): nat {
    if width == 0 then 1 else 256 * Power(width - 1)
  }

  lemma Powers()
    ensures Power(1) == 0x100 && Power(2) == 0x1_0000 && Power(4) == 0x1_0000_0000
    ensures Power(8) == TWO_64
  {
    assert Power(3) == 0x100_0000;
    assert Power(5) == 0x100_0000_0000;
    assert Power(7) == 0x100_0000_0000_0000;
  }

  function Value(b: Bytes): nat {
    if b == [] then 0 else Value(b[..|b| - 1]) * 256 + b[|b| - 1]
  }

  function Encode(v: nat, width: nat): (b: Bytes)
    requires v < Power(width)
    ensures |b| == width
  {
    if width == 0 then [] else Encode(v / 256, width - 1) + [v % 256]
  }

  lemma {:induction false} ValueOfEncoding(v: nat, width: nat)
    requires v < Power(width)
    ensures Value(Encode(v, width)) == v
  {
    if width == 0 {
    } else {
      ValueOfEncoding(v / 256, width - 1);
      assert Encode(v, width)[..width - 1] == Encode(v / 256, width - 1);
    }
  }

  lemma {:induction false} ValueIsBounded(b: Bytes)
    ensures Value(b) < Power(|b|)
  {
    if b == [] {
    } else {
      ValueIsBounded(b[..|b| - 1]);
    }
  }

  lemma {:induction false} PowerGrows(a: nat, b: nat)
    requires a <= b
    ensures Power(a) <= Power(b)
  {
    if a == b {
    } else {
      PowerGrows(a, b - 1);
    }
  }

  datatype Read = Read(value: nat, rest: Bytes)

  /** The integer of the given width at the front of `b`; a width of zero is an absent field. */
  function ReadUint(b: Bytes, width: nat): (r: Option<Read>) {
    if width == 0 then Some(Read(0, b))
    else if width > 8 || |b| < width then None
    else Some(Read(Value(b[..width]), b[width..]))
  }

  /** The accumulating loop, in 64-bit arithmetic, which cannot wrap. */
  method ReadUintLoop(b: Bytes, width: nat) returns (r: Option<Read>)
    ensures r == ReadUint(b, width)
    ensures r.Some? ==> r.value.value < TWO_64
  {
    if width == 0 { return Some(Read(0, b)); }
    if width > 8 || |b| < width { return None; }
    var v := 0;
    for i := 0 to width
      invariant v == Value(b[..i]) && v < Power(i)
    {
      assert b[..i + 1][..i] == b[..i];
      PowerGrows(i + 1, 8);
      Powers();
      v := (v * 256) % TWO_64 + b[i];
    }
    PowerGrows(width, 8);
    Powers();
    r := Some(Read(v, b[width..]));
  }

  lemma ReadsBack(v: nat, width: nat, rest: Bytes)
    requires v < Power(width) && width <= 8
    ensures ReadUint(Encode(v, width) + rest, width) == Some(Read(v, rest))
  {
    ValueOfEncoding(v, width);
    var b := Encode(v, width) + rest;
    assert b[..width] == Encode(v, width) && b[width..] == rest;
  }
}
