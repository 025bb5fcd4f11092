/** Bytes, machine words, little-endian integers, and the byte writer and byte reader
    that the ledger snapshot and the extension archive are built on. */
module Bytes {

  type byte = x: int | 0 <= x < 0x100
  type u16 = x: int | 0 <= x < 0x1_0000
  type u32 = x: int | 0 <= x < 0x1_0000_0000
  type u64 = x: int | 0 <= x < 0x1_0000_0000_0000_0000

  /** Text as the source keeps it: bytes, in no particular encoding. */
  type Text = seq<byte>

  const U64_LIMIT := 0x1_0000_0000_0000_0000

  /** The bytes of an ASCII literal. */
  function Ascii(s: string): (b: seq<byte>)
    requires forall i | 0 <= i < |s| :: s[i] as int < 0x100
    ensures |b| == |s|
  {
    seq(|s|, i requires 0 <= i < |s| => s[i] as int)
  }

  function Min(a: int, b: int): int {
    if a < b then a else b
  }

  function Zeros(n: nat): (z: seq<byte>)
    ensures |z| == n
  {
    seq(n, i => 0)
  }

  /** All the pieces one after the other. */
  function Flatten(pieces: seq<seq<byte>>): seq<byte> {
    if pieces == [] then [] else Flatten(pieces[..|pieces| - 1]) + pieces[|pieces| - 1]
  }

  function Pow256(k: nat): (p: nat)
    ensures p > 0
  {
    if k == 0 then 1 else 256 * Pow256(k - 1)
  }

  lemma Pow256Values()
    ensures Pow256(1) == 0x100 && Pow256(2) == 0x1_0000
    ensures Pow256(4) == 0x1_0000_0000 && Pow256(8) == U64_LIMIT
  {
    assert Pow256(3) == 256 * Pow256(2);
    assert Pow256(5) == 256 * Pow256(4);
    assert Pow256(7) == 256 * 256 * Pow256(5);
  }

  /** The k low bytes of n, least significant first. */
  function LE(n: nat, k: nat): (s: seq<byte>)
    ensures |s| == k
  {
    if k == 0 then [] else [n % 256] + LE(n / 256, k - 1)
  }

  function FromLE(s: seq<byte>): nat {
    if s == [] then 0 else s[0] + 256 * FromLE(s[1..])
  }

  lemma {:induction false} FromLEOfLE(n: nat, k: nat)
    requires n < Pow256(k)
    ensures FromLE(LE(n, k)) == n
  {
    if k > 0 {
      FromLEOfLE(n / 256, k - 1);
      assert LE(n, k)[1..] == LE(n / 256, k - 1);
    }
  }

  lemma {:induction false} LEOfFromLE(s: seq<byte>)
    ensures FromLE(s) < Pow256(|s|)
    ensures LE(FromLE(s), |s|) == s
  {
    if s != [] {
      LEOfFromLE(s[1..]);
      var n := FromLE(s);
      assert n % 256 == s[0] && n / 256 == FromLE(s[1..]);
      assert s == [s[0]] + s[1..];
    }
  }

  /** Little-endian words of k bytes decode uniquely. */
  lemma LEInjective(m: nat, n: nat, k: nat)
    requires m < Pow256(k) && n < Pow256(k)
    requires LE(m, k) == LE(n, k)
    ensures m == n
  {
    FromLEOfLE(m, k);
    FromLEOfLE(n, k);
  }

  /** n shifted right by j whole bytes. */
  function ShiftRightBytes(n: nat, j: nat): nat {
    if j == 0 then n else ShiftRightBytes(n / 256, j - 1)
  }

  lemma {:induction false} LEByte(n: nat, k: nat, j: nat)
    requires j < k
    ensures LE(n, k)[j] == ShiftRightBytes(n, j) % 256
  {
    if j > 0 {
      LEByte(n / 256, k - 1, j - 1);
    }
  }

  /** Appends to a growing byte vector. */
  class ByteWriter {
    var bytes: seq<byte>

    constructor ()
      ensures bytes == []
    {
      bytes := [];
    }

    method WriteU8(value: byte)
      modifies this
      ensures bytes == old(bytes) + [value]
    {
      bytes := bytes + [value];
    }

    method WriteU16(value: u16)
      modifies this
      ensures bytes == old(bytes) + LE(value, 2)
    {
      bytes := bytes + [value % 256] + [value / 256 % 256];
      assert LE(value, 2) == [value % 256] + LE(value / 256, 1);
      assert LE(value / 256, 1) == [value / 256 % 256] + LE(value / 256 / 256, 0);
    }

    method WriteU32(value: u32)
      modifies this
      ensures bytes == old(bytes) + LE(value, 4)
    {
      WriteShifted(value, 4);
    }

    method WriteU64(value: u64)
      modifies this
      ensures bytes == old(bytes) + LE(value, 8)
    {
      WriteShifted(value, 8);
    }

    /** The shift loop of the 32-bit and the 64-bit write: byte j is the value shifted by 8 * j. */
    method WriteShifted(value: nat, width: nat)
      modifies this
      ensures bytes == old(bytes) + LE(value, width)
    {
      var j := 0;
      while j < width
        invariant 0 <= j <= width
        invariant bytes == old(bytes) + LE(value, width)[..j]
      {
        LEByte(value, width, j);
        bytes := bytes + [ShiftRightBytes(value, j) % 256];
        j := j + 1;
      }
      assert LE(value, width)[..width] == LE(value, width);
    }

    method WriteBytes(value: seq<byte>)
      modifies this
      ensures bytes == old(bytes) + value
    {
      bytes := bytes + value;
    }

    method WriteStringU16(value: seq<byte>, maximum: nat) returns (ok: bool)
      modifies this
      ensures ok == (|value| <= maximum && |value| < 0x1_0000)
      ensures bytes == old(bytes) + if ok then StringU16(value) else []
    {
      if |value| > maximum || |value| >= 0x1_0000 {
        return false;
      }
      WriteU16(|value|);
      bytes := bytes + value;
      return true;
    }
  }

  /** A string behind its 16-bit length. */
  function StringU16(value: seq<byte>): seq<byte> {
    LE(|value|, 2) + value
  }

  /** Reads a byte span from the front; `Rest` is what has not been read. */
  class ByteReader {
    const bytes: seq<byte>
    var offset: nat

    ghost predicate Valid()
      reads this
    {
      offset <= |bytes|
    }

    ghost function Rest(): seq<byte>
      requires Valid()
      reads this
    {
      bytes[offset..]
    }

    constructor (bytes: seq<byte>)
      ensures Valid() && this.bytes == bytes && Rest() == bytes
    {
      this.bytes := bytes;
      this.offset := 0;
    }

    function Remaining(): (n: nat)
      requires Valid()
      reads this
      ensures n == |Rest()|
    {
      |bytes| - offset
    }

    method ReadU8() returns (ok: bool, value: byte)
      requires Valid()
      modifies this`offset
      ensures Valid() && ok == (|old(Rest())| >= 1)
      ensures ok ==> value == old(Rest())[0] && Rest() == old(Rest())[1..]
      ensures !ok ==> Rest() == old(Rest())
    {
      if Remaining() < 1 {
        return false, 0;
      }
      value := bytes[offset];
      offset := offset + 1;
      ok := true;
    }

    method ReadU16() returns (ok: bool, value: u16)
      requires Valid()
      modifies this`offset
      ensures Valid() && ok == (|old(Rest())| >= 2)
      ensures ok ==> value == FromLE(old(Rest())[..2]) && Rest() == old(Rest())[2..]
      ensures !ok ==> Rest() == old(Rest())
    {
      if Remaining() < 2 {
        return false, 0;
      }
      value := bytes[offset] as int + 0x100 * bytes[offset + 1] as int;
      FromLE2(Rest()[..2]);
      offset := offset + 2;
      ok := true;
    }

    method ReadU32() returns (ok: bool, value: u32)
      requires Valid()
      modifies this`offset
      ensures Valid() && ok == (|old(Rest())| >= 4)
      ensures ok ==> value == FromLE(old(Rest())[..4]) && Rest() == old(Rest())[4..]
      ensures !ok ==> Rest() == old(Rest())
    {
      if Remaining() < 4 {
        return false, 0;
      }
      value := bytes[offset] as int + 0x100 * bytes[offset + 1] as int
             + 0x1_0000 * bytes[offset + 2] as int + 0x100_0000 * bytes[offset + 3] as int;
      FromLE4(Rest()[..4]);
      offset := offset + 4;
      ok := true;
    }

    method ReadU64() returns (ok: bool, value: u64)
      requires Valid()
      modifies this`offset
      ensures Valid() && ok == (|old(Rest())| >= 8)
      ensures ok ==> value == FromLE(old(Rest())[..8]) && Rest() == old(Rest())[8..]
      ensures !ok ==> Rest() == old(Rest())
    {
      if Remaining() < 8 {
        return false, 0;
      }
      var v: nat := 0;
      var index := 0;
      while index < 8
        invariant 0 <= index <= 8 <= |bytes| - offset
        invariant offset == old(offset)
        invariant v == FromLE(bytes[offset..offset + index])
      {
        FromLESnoc(bytes[offset..offset + index], bytes[offset + index]);
        assert bytes[offset..offset + index] + [bytes[offset + index]] == bytes[offset..offset + index + 1];
        v := v + bytes[offset + index] * Pow256(index);
        index := index + 1;
      }
      assert bytes[offset..offset + 8] == Rest()[..8];
      LEOfFromLE(Rest()[..8]);
      Pow256Values();
      value := v;
      offset := offset + 8;
      ok := true;
    }

    method ReadBytes(length: nat) returns (ok: bool, value: seq<byte>)
      requires Valid()
      modifies this`offset
      ensures Valid() && ok == (length <= |old(Rest())|)
      ensures ok ==> value == old(Rest())[..length] && Rest() == old(Rest())[length..]
      ensures !ok ==> Rest() == old(Rest())
    {
      if length > Remaining() {
        return false, [];
      }
      value := bytes[offset..offset + length];
      offset := offset + length;
      ok := true;
    }

    method ReadStringU16(maximum: nat) returns (ok: bool, value: seq<byte>)
      requires Valid()
      modifies this`offset
      ensures Valid()
      ensures TakeString(old(Rest()), maximum) == if ok then Taken(value, Rest()) else Short
    {
      var got, length := ReadU16();
      if !got || length > maximum || length > Remaining() {
        return false, [];
      }
      value := bytes[offset..offset + length];
      assert value == old(Rest())[2..][..length];
      offset := offset + length;
      assert Rest() == old(Rest())[2..][length..];
      ok := true;
    }
  }

  datatype Take<+T> = Taken(value: T, rest: seq<byte>) | Short

  /** What a bounded, length-prefixed string read yields on the unread bytes. */
  function TakeString(s: seq<byte>, maximum: nat): Take<seq<byte>> {
    if |s| < 2 then Short
    else
      var length := FromLE(s[..2]);
      if length > maximum || length > |s| - 2 then Short
      else Taken(s[2..][..length], s[2..][length..])
  }

  lemma TakeStringOfStringU16(value: seq<byte>, rest: seq<byte>, maximum: nat)
    requires |value| <= maximum && |value| < 0x1_0000
    ensures TakeString(StringU16(value) + rest, maximum) == Taken(value, rest)
  {
    Pow256Values();
    FromLEOfLE(|value|, 2);
    var s := StringU16(value) + rest;
    assert s[..2] == LE(|value|, 2);
    assert s[2..] == value + rest;
  }

  lemma StringU16OfTakeString(s: seq<byte>, maximum: nat)
    requires TakeString(s, maximum).Taken?
    ensures var t := TakeString(s, maximum);
            |t.value| <= maximum && |t.value| < 0x1_0000 && s == StringU16(t.value) + t.rest
  {
    LEOfFromLE(s[..2]);
    Pow256Values();
    var length := FromLE(s[..2]);
    assert s == s[..2] + (s[2..][..length] + s[2..][length..]);
  }

  // Numbers written out.

  lemma FirstByte(b: byte, rest: nat, k: nat)
    ensures LE(b + 256 * rest, k + 1) == [b] + LE(rest, k)
  {
    var n := b + 256 * rest;
    assert n % 256 == b && n / 256 == rest;
  }

  /** A number of which all but four bytes are zero, least byte first. */
  lemma FourBytes(b0: byte, b1: byte, b2: byte, b3: byte, high: nat, k: nat)
    ensures LE(b0 + 256 * (b1 + 256 * (b2 + 256 * (b3 + 256 * high))), k + 4) == [b0, b1, b2, b3] + LE(high, k)
  {
    hide LE;
    FirstByte(b0, b1 + 256 * (b2 + 256 * (b3 + 256 * high)), k + 3);
    FirstByte(b1, b2 + 256 * (b3 + 256 * high), k + 2);
    FirstByte(b2, b3 + 256 * high, k + 1);
    FirstByte(b3, high, k);
  }

  lemma EightBytes(b0: byte, b1: byte, b2: byte, b3: byte, b4: byte, b5: byte, b6: byte, b7: byte)
    ensures LE(b0 + 256 * (b1 + 256 * (b2 + 256 * (b3 + 256 * (b4 + 256 * (b5 + 256 * (b6 + 256 * b7)))))), 8) == [b0, b1, b2, b3, b4, b5, b6, b7]
  {
    NoBytes();
    hide LE;
    FourBytes(b0, b1, b2, b3, b4 + 256 * (b5 + 256 * (b6 + 256 * b7)), 4);
    FourBytes(b4, b5, b6, b7, 0, 0);
  }

  lemma SmallBytes(n: byte)
    ensures LE(n, 2) == [n, 0] && LE(n, 4) == [n, 0, 0, 0]
  {
    NoBytes();
    hide LE;
    FourBytes(n, 0, 0, 0, 0, 0);
    FirstByte(n, 0, 1);
    FirstByte(0, 0, 0);
  }

  lemma NoBytes()
    ensures LE(0, 0) == []
  {
  }

  lemma FromLE2(s: seq<byte>)
    requires |s| == 2
    ensures FromLE(s) == s[0] as int + 0x100 * s[1] as int
  {
    assert FromLE(s[1..]) == s[1] + 256 * FromLE(s[1..][1..]);
  }

  lemma FromLE4(s: seq<byte>)
    requires |s| == 4
    ensures FromLE(s) == s[0] as int + 0x100 * s[1] as int + 0x1_0000 * s[2] as int + 0x100_0000 * s[3] as int
  {
    assert FromLE(s[1..]) == s[1] + 256 * FromLE(s[2..]) by { assert s[1..][1..] == s[2..]; }
    FromLE2(s[2..]);
  }

  lemma {:induction false} FromLESnoc(s: seq<byte>, b: byte)
    ensures FromLE(s + [b]) == FromLE(s) + b * Pow256(|s|)
  {
    if s == [] {
      assert s + [b] == [b];
      assert FromLE([b]) == b + 256 * FromLE([]);
    } else {
      FromLESnoc(s[1..], b);
      assert (s + [b])[1..] == s[1..] + [b];
      var p := Pow256(|s| - 1);
      assert 256 * (b * p) == b * (256 * p);
    }
  }
}
