/** UTF-8, as sections 3 and 4 of RFC 3629 define it, and the check that extension packages apply to paths and manifests. */
module Utf8 {
  import opened Bytes
  import opened Wrappers

  /** A Unicode scalar value. */
  predicate Scalar(c: nat) {
    c <= 0x10ffff && !(0xd800 <= c <= 0xdfff)
  }

  /** The octets of one character: the table of section 3. */
  function Encode(c: nat): (s: seq<byte>)
    requires c <= 0x10ffff
    ensures s != []
  {
    if c < 0x80 then [c]
    else if c < 0x800 then [0xc0 + c / 0x40, 0x80 + c % 0x40]
    else if c < 0x1_0000 then [0xe0 + c / 0x1000, 0x80 + c / 0x40 % 0x40, 0x80 + c % 0x40]
    else [0xf0 + c / 0x4_0000, 0x80 + c / 0x1000 % 0x40, 0x80 + c / 0x40 % 0x40, 0x80 + c % 0x40]
  }

  predicate Scalars(cs: seq<nat>) {
    forall i | 0 <= i < |cs| :: Scalar(cs[i])
  }

  function EncodeAll(cs: seq<nat>): seq<byte>
    requires Scalars(cs)
  {
    if cs == [] then [] else Encode(cs[0]) + EncodeAll(cs[1..])
  }

  /** The six bits a continuation octet carries. */
  function Low(b: byte): nat {
    b % 0x40
  }

  predicate Continues(b: byte) {
    0x80 <= b <= 0xbf
  }

  /** How many octets the first one announces: none if it cannot start a character. */
  function Announced(first: byte): nat {
    if first <= 0x7f then 1
    else if 0xc2 <= first <= 0xdf then 2
    else if 0xe0 <= first <= 0xef then 3
    else if 0xf0 <= first <= 0xf4 then 4
    else 0
  }

  function LeadBits(first: byte): nat {
    if first <= 0x7f then first
    else if first <= 0xdf then first % 0x20
    else if first <= 0xef then first % 0x10
    else first % 8
  }

  /** The bits gathered from the first k octets. */
  function Gathered(s: seq<byte>, k: nat): nat
    requires 1 <= k <= |s|
  {
    if k == 1 then LeadBits(s[0]) else Gathered(s, k - 1) * 0x40 + Low(s[k - 1])
  }

  predicate AllContinue(s: seq<byte>, k: nat)
    requires k <= |s|
  {
    forall i | 1 <= i < k :: Continues(s[i])
  }

  /** The limits the check puts on what was gathered: no overlong form, no surrogate, nothing past the last plane. */
  predicate Canonical(count: nat, c: nat) {
    && !(count == 3 && c < 0x800) && !(count == 4 && c < 0x1_0000)
    && !(0xd800 <= c <= 0xdfff) && c <= 0x10ffff
  }

  /** One turn of the check: the length of the first character, or none when it is malformed. */
  function FirstLength(s: seq<byte>): (n: nat)
    requires s != []
    ensures n <= |s|
  {
    var count := Announced(s[0]);
    if count == 0 || count > |s| then 0
    else if count == 1 then 1
    else if AllContinue(s, count) && Canonical(count, Gathered(s, count)) then count
    else 0
  }

  function Valid(s: seq<byte>): bool {
    s == [] || (FirstLength(s) > 0 && Valid(s[FirstLength(s)..]))
  }

  method ValidUtf8(value: seq<byte>) returns (ok: bool)
    ensures ok <==> exists cs: seq<nat> :: Scalars(cs) && EncodeAll(cs) == value
  {
    hide FirstLength, Scalars, EncodeAll;
    ValidExactly(value);
    var i := 0;
    while i < |value|
      invariant 0 <= i <= |value|
      invariant Valid(value) == Valid(value[i..])
    {
      var count := CharacterAt(value, i);
      if count == 0 {
        return false;
      }
      assert value[i..][count..] == value[i + count..];
      i := i + count;
    }
    return true;
  }

  /** The body of the check's loop: the length of the character at i, or none. */
  method CharacterAt(value: seq<byte>, i: nat) returns (count: nat)
    requires i < |value|
    ensures count == FirstLength(value[i..])
  {
    hide Gathered, Canonical, AllContinue, LeadBits, Low;
    ghost var s := value[i..];
    var first := value[i];
    count := Announced(first);
    if count == 0 || i + count > |value| {
      return 0;
    }
    if count > 1 {
      var codePoint: nat := LeadBits(first);
      var offset := 1;
      GatheredStart(s);
      while offset < count
        invariant 1 <= offset <= count <= |s|
        invariant codePoint == Gathered(s, offset)
        invariant AllContinue(s, offset)
      {
        var continuation := value[i + offset];
        GatheredStep(s, offset);
        if !Continues(continuation) {
          NotAllContinue(s, offset, count);
          return 0;
        }
        codePoint := codePoint * 0x40 + Low(continuation);
        offset := offset + 1;
      }
      if !Canonical(count, codePoint) {
        return 0;
      }
    }
  }

  lemma GatheredStart(s: seq<byte>)
    requires s != []
    ensures Gathered(s, 1) == LeadBits(s[0]) && AllContinue(s, 1)
  {
  }

  lemma GatheredStep(s: seq<byte>, k: nat)
    requires 1 <= k < |s|
    ensures Gathered(s, k + 1) == Gathered(s, k) * 0x40 + Low(s[k])
    ensures AllContinue(s, k + 1) == (AllContinue(s, k) && Continues(s[k]))
  {
  }

  lemma NotAllContinue(s: seq<byte>, k: nat, count: nat)
    requires 1 <= k < count <= |s| && !Continues(s[k])
    ensures !AllContinue(s, count)
  {
  }

  lemma GatheredIs(s: seq<byte>)
    requires s != []
    ensures |s| >= 2 ==> Gathered(s, 2) == LeadBits(s[0]) * 0x40 + Low(s[1])
    ensures |s| >= 3 ==> Gathered(s, 3) == LeadBits(s[0]) * 0x1000 + Low(s[1]) * 0x40 + Low(s[2])
    ensures |s| >= 4 ==> Gathered(s, 4) == LeadBits(s[0]) * 0x4_0000 + Low(s[1]) * 0x1000 + Low(s[2]) * 0x40 + Low(s[3])
  {
    assert Gathered(s, 1) == LeadBits(s[0]);
    hide LeadBits;
    assert |s| >= 2 ==> Gathered(s, 2) == Gathered(s, 1) * 0x40 + Low(s[1]);
    assert |s| >= 3 ==> Gathered(s, 3) == Gathered(s, 2) * 0x40 + Low(s[2]);
    assert |s| >= 4 ==> Gathered(s, 4) == Gathered(s, 3) * 0x40 + Low(s[3]);
  }

  /** The groups of bits of a character number, taken apart and put together. */
  lemma Groups(c: nat, a: nat, b: nat, d: nat, e: nat)
    requires b < 0x40 && d < 0x40 && e < 0x40
    ensures c == a * 0x40 + e ==> c / 0x40 == a && c % 0x40 == e
    ensures c == a * 0x1000 + d * 0x40 + e ==> c / 0x1000 == a && c / 0x40 % 0x40 == d && c % 0x40 == e
    ensures c == a * 0x4_0000 + b * 0x1000 + d * 0x40 + e ==>
              c / 0x4_0000 == a && c / 0x1000 % 0x40 == b && c / 0x40 % 0x40 == d && c % 0x40 == e
  {
    if c == a * 0x4_0000 + b * 0x1000 + d * 0x40 + e {
      assert c / 0x40 == a * 0x1000 + b * 0x40 + d;
      assert c / 0x1000 == a * 0x40 + b;
    }
  }

  lemma TwoAccepted(s: seq<byte>)
    requires s != [] && FirstLength(s) == 2
    ensures Scalar(Gathered(s, 2)) && Encode(Gathered(s, 2)) == s[..2]
  {
    GatheredIs(s);
    hide Gathered;
    var a := LeadBits(s[0]);
    Groups(Gathered(s, 2), a, 0, 0, Low(s[1]));
    assert s[..2] == [0xc0 + a, 0x80 + Low(s[1])];
  }

  lemma ThreeAccepted(s: seq<byte>)
    requires s != [] && FirstLength(s) == 3
    ensures Scalar(Gathered(s, 3)) && Encode(Gathered(s, 3)) == s[..3]
  {
    GatheredIs(s);
    hide Gathered;
    var a := LeadBits(s[0]);
    Groups(Gathered(s, 3), a, 0, Low(s[1]), Low(s[2]));
    assert s[..3] == [0xe0 + a, 0x80 + Low(s[1]), 0x80 + Low(s[2])];
  }

  lemma FourAccepted(s: seq<byte>)
    requires s != [] && FirstLength(s) == 4
    ensures Scalar(Gathered(s, 4)) && Encode(Gathered(s, 4)) == s[..4]
  {
    GatheredIs(s);
    hide Gathered;
    var a := LeadBits(s[0]);
    Groups(Gathered(s, 4), a, Low(s[1]), Low(s[2]), Low(s[3]));
    assert s[..4] == [0xf0 + a, 0x80 + Low(s[1]), 0x80 + Low(s[2]), 0x80 + Low(s[3])];
  }

  lemma OneAccepted(s: seq<byte>)
    requires s != [] && FirstLength(s) == 1
    ensures Scalar(s[0]) && Encode(s[0]) == s[..1]
  {
  }

  /** What one turn of the check accepts is the encoding of a scalar value. */
  lemma FirstIsEncoding(s: seq<byte>) returns (c: nat)
    requires s != [] && FirstLength(s) > 0
    ensures Scalar(c) && Encode(c) == s[..FirstLength(s)]
  {
    FirstLengths(s);
    hide FirstLength, Gathered, Scalar, Encode;
    if FirstLength(s) == 1 {
      OneAccepted(s);
      c := s[0];
    } else if FirstLength(s) == 2 {
      TwoAccepted(s);
      c := Gathered(s, 2);
    } else if FirstLength(s) == 3 {
      ThreeAccepted(s);
      c := Gathered(s, 3);
    } else {
      FourAccepted(s);
      c := Gathered(s, 4);
    }
  }

  lemma FirstLengths(s: seq<byte>)
    requires s != []
    ensures FirstLength(s) <= 4
  {
  }

  lemma TwoEncoded(c: nat, rest: seq<byte>)
    requires 0x80 <= c < 0x800
    ensures FirstLength(Encode(c) + rest) == 2
  {
    var s := Encode(c) + rest;
    GatheredIs(s);
    hide Gathered;
    assert s[0] == 0xc0 + c / 0x40 && s[1] == 0x80 + c % 0x40;
  }

  lemma ThreeGroups(c: nat)
    requires c < 0x1_0000
    ensures c == c / 0x1000 * 0x1000 + c / 0x40 % 0x40 * 0x40 + c % 0x40
    ensures c / 0x1000 < 16
  {
  }

  lemma ThreeEncoded(c: nat, rest: seq<byte>)
    requires 0x800 <= c < 0x1_0000 && Scalar(c)
    ensures FirstLength(Encode(c) + rest) == 3
  {
    hide FirstLength, Scalar, LeadBits, Low;
    var s := Encode(c) + rest;
    var p, q, t := c / 0x1000, c / 0x40 % 0x40, c % 0x40;
    ThreeGroups(c);
    assert s[0] == 0xe0 + p && s[1] == 0x80 + q && s[2] == 0x80 + t;
    ThreeAccepts(s, p, q, t, c);
  }

  lemma ThreeAccepts(s: seq<byte>, p: nat, q: nat, t: nat, c: nat)
    requires |s| >= 3 && p < 16 && q < 0x40 && t < 0x40
    requires s[0] == 0xe0 + p && s[1] == 0x80 + q && s[2] == 0x80 + t
    requires c == p * 0x1000 + q * 0x40 + t && 0x800 <= c && Scalar(c)
    ensures FirstLength(s) == 3
  {
    GatheredIs(s);
    hide Gathered, Encode;
    assert LeadBits(s[0]) == p && Low(s[1]) == q && Low(s[2]) == t;
  }

  lemma FourGroups(c: nat)
    requires c <= 0x10ffff
    ensures c == c / 0x4_0000 * 0x4_0000 + c / 0x1000 % 0x40 * 0x1000 + c / 0x40 % 0x40 * 0x40 + c % 0x40
    ensures c / 0x4_0000 <= 4
  {
    var high, middle := c / 0x1000, c / 0x40;
    assert middle / 0x40 == high;
    assert high / 0x40 == c / 0x4_0000;
    assert c == middle * 0x40 + c % 0x40;
    assert middle == high * 0x40 + middle % 0x40;
    assert high == high / 0x40 * 0x40 + high % 0x40;
  }

  lemma FourEncoded(c: nat, rest: seq<byte>)
    requires 0x1_0000 <= c && Scalar(c)
    ensures FirstLength(Encode(c) + rest) == 4
  {
    hide FirstLength, LeadBits, Low;
    var s := Encode(c) + rest;
    var p, q, r, t := c / 0x4_0000, c / 0x1000 % 0x40, c / 0x40 % 0x40, c % 0x40;
    FourGroups(c);
    assert s[0] == 0xf0 + p && s[1] == 0x80 + q && s[2] == 0x80 + r && s[3] == 0x80 + t;
    FourAccepts(s, p, q, r, t, c);
  }

  lemma FourAccepts(s: seq<byte>, p: nat, q: nat, r: nat, t: nat, c: nat)
    requires |s| >= 4 && p <= 4 && q < 0x40 && r < 0x40 && t < 0x40
    requires s[0] == 0xf0 + p && s[1] == 0x80 + q && s[2] == 0x80 + r && s[3] == 0x80 + t
    requires c == p * 0x4_0000 + q * 0x1000 + r * 0x40 + t && 0x1_0000 <= c <= 0x10ffff
    ensures FirstLength(s) == 4
  {
    GatheredIs(s);
    hide Gathered, Encode;
    assert LeadBits(s[0]) == p && Low(s[1]) == q && Low(s[2]) == r && Low(s[3]) == t;
  }

  /** And the encoding of a scalar value is accepted, whatever follows. */
  lemma EncodingIsFirst(c: nat, rest: seq<byte>)
    requires Scalar(c)
    ensures FirstLength(Encode(c) + rest) == |Encode(c)|
  {
    if 0x80 <= c < 0x800 {
      TwoEncoded(c, rest);
    } else if 0x800 <= c < 0x1_0000 {
      ThreeEncoded(c, rest);
    } else if c >= 0x1_0000 {
      FourEncoded(c, rest);
    }
  }

  lemma {:induction false} EncodedIsValid(cs: seq<nat>)
    requires Scalars(cs)
    ensures Valid(EncodeAll(cs))
  {
    if cs != [] {
      EncodedIsValid(cs[1..]);
      EncodingIsFirst(cs[0], EncodeAll(cs[1..]));
      assert EncodeAll(cs)[|Encode(cs[0])|..] == EncodeAll(cs[1..]);
    }
  }

  lemma {:induction false} ValidIsEncoded(s: seq<byte>) returns (cs: seq<nat>)
    requires Valid(s)
    ensures Scalars(cs) && EncodeAll(cs) == s
  {
    if s == [] {
      cs := [];
    } else {
      var c := FirstIsEncoding(s);
      var n := FirstLength(s);
      var tail := ValidIsEncoded(s[n..]);
      cs := [c] + tail;
      assert cs[1..] == tail;
      assert s == s[..n] + s[n..];
    }
  }

  /** The check accepts a byte string if and only if it encodes some sequence of Unicode scalar values. */
  lemma ValidExactly(s: seq<byte>)
    ensures Valid(s) <==> exists cs: seq<nat> :: Scalars(cs) && EncodeAll(cs) == s
  {
    if Valid(s) {
      var cs := ValidIsEncoded(s);
    } else {
      forall cs: seq<nat> | Scalars(cs) && EncodeAll(cs) == s
        ensures false
      {
        EncodedIsValid(cs);
      }
    }
  }
}
