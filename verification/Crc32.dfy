/** The reflected CRC-32 of RFC 1952, section 8, that seals a ledger snapshot, and the
    errors it is certain to detect. A 32-bit register is the sequence of its bits, least
    significant first. */
module Crc32 {
  import opened Bytes

  type Register = r: seq<bool> | |r| == 32 witness seq(32, i => false)

  /** 0xedb88320: bit i is the coefficient of x^(31 - i) in the generator
      x^32 + x^26 + x^23 + x^22 + x^16 + x^12 + x^11 + x^10 + x^8 + x^7 + x^5 + x^4 + x^2 + x + 1. */
  function Polynomial(): Register {
    seq(32, i => GeneratorTerm(31 - i))
  }

  predicate GeneratorTerm(e: int) {
    e == 0 || e == 1 || e == 2 || e == 4 || e == 5 || e == 7 || e == 8 || e == 10 || e == 11
    || e == 12 || e == 16 || e == 22 || e == 23 || e == 26
  }

  /** The k low bits of n, and the number that bits spell. */
  function Bits(n: nat, k: nat): (s: seq<bool>)
    ensures |s| == k
  {
    if k == 0 then [] else [n % 2 == 1] + Bits(n / 2, k - 1)
  }

  function Number(s: seq<bool>): nat {
    if s == [] then 0 else (if s[0] then 1 else 0) + 2 * Number(s[1..])
  }

  function PowerOfTwo(k: nat): nat {
    if k == 0 then 1 else 2 * PowerOfTwo(k - 1)
  }

  lemma {:induction false} NumberOfBits(n: nat, k: nat)
    requires n < PowerOfTwo(k)
    ensures Number(Bits(n, k)) == n
  {
    if k > 0 {
      NumberOfBits(n / 2, k - 1);
      assert Bits(n, k)[1..] == Bits(n / 2, k - 1);
    }
  }

  lemma {:induction false} BitsOfNumber(s: seq<bool>)
    ensures Number(s) < PowerOfTwo(|s|) && Bits(Number(s), |s|) == s
  {
    if s != [] {
      BitsOfNumber(s[1..]);
      assert Number(s) / 2 == Number(s[1..]);
      assert s == [s[0]] + s[1..];
    }
  }

  /** A byte above others is eight bits above the others. */
  lemma {:induction false} BitsOfSum(n: nat, high: nat, a: nat, b: nat)
    requires n < PowerOfTwo(a)
    ensures Bits(n + PowerOfTwo(a) * high, a + b) == Bits(n, a) + Bits(high, b)
  {
    if a > 0 {
      var p := PowerOfTwo(a - 1) * high;
      assert PowerOfTwo(a) * high == 2 * p;
      assert (n + 2 * p) / 2 == n / 2 + p && (n + 2 * p) % 2 == n % 2;
      BitsOfSum(n / 2, high, a - 1, b);
    }
  }

  function {:induction false} BitsOfBytes(s: seq<byte>): (r: seq<bool>)
    ensures |r| == 8 * |s|
  {
    if s == [] then [] else Bits(s[0], 8) + BitsOfBytes(s[1..])
  }

  lemma PowerOfTwoEight()
    ensures PowerOfTwo(8) == 256
  {
    assert PowerOfTwo(4) == 16;
  }

  /** A little-endian integer has the bits of its bytes, in order. */
  lemma {:induction false} BitsOfLE(s: seq<byte>)
    ensures Bits(FromLE(s), 8 * |s|) == BitsOfBytes(s)
  {
    if s != [] {
      PowerOfTwoEight();
      BitsOfLE(s[1..]);
      BitsOfSum(s[0], FromLE(s[1..]), 8, 8 * |s| - 8);
    }
  }

  lemma SixteenTimes(k: nat)
    ensures PowerOfTwo(k + 4) == 16 * PowerOfTwo(k)
  {
    assert PowerOfTwo(k + 2) == 4 * PowerOfTwo(k) by { assert PowerOfTwo(k + 1) == 2 * PowerOfTwo(k); }
    assert PowerOfTwo(k + 3) == 2 * PowerOfTwo(k + 2);
  }

  lemma {:induction false} PowersAgree(k: nat)
    ensures PowerOfTwo(8 * k) == Pow256(k)
  {
    if k > 0 {
      PowersAgree(k - 1);
      SixteenTimes(8 * k - 8);
      SixteenTimes(8 * k - 4);
    }
  }

  // The register and its steps.

  function Xor(x: Register, y: Register): Register {
    seq(32, i requires 0 <= i < 32 => x[i] != y[i])
  }

  function And(x: Register, y: Register): Register {
    seq(32, i requires 0 <= i < 32 => x[i] && y[i])
  }

  function Complement(x: Register): Register {
    seq(32, i requires 0 <= i < 32 => !x[i])
  }

  function ShiftRight(x: Register): Register {
    x[1..] + [false]
  }

  /** The low bit, negated as an unsigned integer: all ones or all zeros. */
  function Mask(x: Register): Register {
    seq(32, i => x[0])
  }

  function BitStep(x: Register): Register {
    Xor(ShiftRight(x), And(Polynomial(), Mask(x)))
  }

  function Steps(x: Register, n: nat): Register {
    if n == 0 then x else BitStep(Steps(x, n - 1))
  }

  /** Clear bits, and a byte at byte position `at` of an otherwise clear register. */
  function Clear(k: nat): (s: seq<bool>)
    ensures |s| == k && forall i | 0 <= i < k :: !s[i]
  {
    seq(k, i => false)
  }

  function At(b: byte, at: nat): Register
    requires at < 4
  {
    Clear(8 * at) + Bits(b, 8) + Clear(24 - 8 * at)
  }

  function Wide(b: byte): Register {
    At(b, 0)
  }

  function AllOnes(): Register {
    seq(32, i => true)
  }

  function Feed(x: Register, s: seq<byte>): Register {
    if s == [] then x else Steps(Xor(Feed(x, s[..|s| - 1]), Wide(s[|s| - 1])), 8)
  }

  function Checksum(s: seq<byte>): Register {
    Complement(Feed(AllOnes(), s))
  }

  function Value(x: Register): u32 {
    BitsOfNumber(x);
    PowersAgree(4);
    Pow256Values();
    Number(x)
  }

  /** The checksum as the source computes it, bit by bit. */
  method ComputeCrc32(bytes: seq<byte>) returns (r: u32)
    ensures r == Value(Checksum(bytes))
  {
    var crc: Register := AllOnes();
    var i := 0;
    while i < |bytes|
      invariant 0 <= i <= |bytes|
      invariant crc == Feed(AllOnes(), bytes[..i])
    {
      crc := Xor(crc, Wide(bytes[i]));
      ghost var mixed: Register := crc;
      var bit := 0;
      while bit < 8
        invariant 0 <= bit <= 8
        invariant crc == Steps(mixed, bit)
      {
        var mask := Mask(crc);
        crc := Xor(ShiftRight(crc), And(Polynomial(), mask));
        bit := bit + 1;
      }
      assert bytes[..i + 1][..i] == bytes[..i];
      i := i + 1;
    }
    assert bytes[..i] == bytes;
    r := Value(Complement(crc));
  }

  // A step is a linear bijection of the register.

  lemma XorCancel(w: Register, x: Register, y: Register)
    requires Xor(w, x) == Xor(w, y)
    ensures x == y
  {
    forall i | 0 <= i < 32
      ensures x[i] == y[i]
    {
      assert Xor(w, x)[i] == Xor(w, y)[i];
    }
  }

  lemma XorCommutes(x: Register, y: Register)
    ensures Xor(x, y) == Xor(y, x)
  {
  }

  lemma BitStepInjective(x: Register, y: Register)
    requires BitStep(x) == BitStep(y)
    ensures x == y
  {
    assert BitStep(x)[31] == x[0] && BitStep(y)[31] == y[0];
    XorCommutes(ShiftRight(x), And(Polynomial(), Mask(x)));
    XorCommutes(ShiftRight(y), And(Polynomial(), Mask(y)));
    XorCancel(And(Polynomial(), Mask(x)), ShiftRight(x), ShiftRight(y));
    forall i | 1 <= i < 32
      ensures x[i] == y[i]
    {
      assert ShiftRight(x)[i - 1] == x[i];
    }
  }

  lemma BitStepLinear(x: Register, y: Register)
    ensures BitStep(Xor(x, y)) == Xor(BitStep(x), BitStep(y))
  {
    forall i | 0 <= i < 32
      ensures BitStep(Xor(x, y))[i] == Xor(BitStep(x), BitStep(y))[i]
    {
    }
  }

  lemma {:induction false} StepsInjective(x: Register, y: Register, n: nat)
    requires Steps(x, n) == Steps(y, n)
    ensures x == y
  {
    if n > 0 {
      BitStepInjective(Steps(x, n - 1), Steps(y, n - 1));
      StepsInjective(x, y, n - 1);
    }
  }

  lemma {:induction false} StepsLinear(x: Register, y: Register, n: nat)
    ensures Steps(Xor(x, y), n) == Xor(Steps(x, n), Steps(y, n))
  {
    if n > 0 {
      StepsLinear(x, y, n - 1);
      BitStepLinear(Steps(x, n - 1), Steps(y, n - 1));
    }
  }

  lemma {:induction false} StepsAdd(x: Register, m: nat, n: nat)
    ensures Steps(Steps(x, m), n) == Steps(x, m + n)
  {
    if n > 0 {
      StepsAdd(x, m, n - 1);
    }
  }

  /** While the low bits are clear, a step only shifts. */
  lemma {:induction false} StepsOfClear(x: Register, n: nat)
    requires n <= 32 && x[..n] == Clear(n)
    ensures Steps(x, n) == x[n..] + Clear(n)
  {
    if n > 0 {
      assert x[..n - 1] == x[..n][..n - 1];
      StepsOfClear(x, n - 1);
      var y := Steps(x, n - 1);
      assert y[0] == x[n - 1] == x[..n][n - 1];
      assert BitStep(y) == ShiftRight(y);
      assert ShiftRight(y) == x[n..] + Clear(n);
    }
  }

  lemma StepsOfAt(b: byte, at: nat)
    requires 1 <= at < 4
    ensures Steps(At(b, at), 8) == At(b, at - 1)
  {
    var x := At(b, at);
    assert x[..8] == Clear(8);
    StepsOfClear(x, 8);
    assert x[8..] + Clear(8) == At(b, at - 1);
  }

  // Four bytes fed one by one enter the register as one word.

  function MixWord(x: Register, s: seq<byte>): Register
    requires |s| == 4
  {
    Xor(Xor(Xor(Xor(x, At(s[0], 0)), At(s[1], 1)), At(s[2], 2)), At(s[3], 3))
  }

  lemma MixWordBits(x: Register, s: seq<byte>)
    requires |s| == 4
    ensures MixWord(x, s) == Xor(x, BitsOfBytes(s))
  {
    assert BitsOfBytes(s) == Bits(s[0], 8) + BitsOfBytes(s[1..]);
    assert BitsOfBytes(s[1..]) == Bits(s[1], 8) + BitsOfBytes(s[2..]) by { assert s[1..][1..] == s[2..]; }
    assert BitsOfBytes(s[2..]) == Bits(s[2], 8) + BitsOfBytes(s[3..]) by { assert s[2..][1..] == s[3..]; }
    assert BitsOfBytes(s[3..]) == Bits(s[3], 8) + BitsOfBytes(s[4..]) by { assert s[3..][1..] == s[4..]; }
    forall i | 0 <= i < 32
      ensures MixWord(x, s)[i] == Xor(x, BitsOfBytes(s))[i]
    {
    }
  }

  lemma AbsorbLater(x: Register, b: byte, at: nat)
    requires 1 <= at < 4
    ensures Xor(Steps(x, 8), At(b, at - 1)) == Steps(Xor(x, At(b, at)), 8)
  {
    StepsLinear(x, At(b, at), 8);
    StepsOfAt(b, at);
  }

  lemma FeedSnoc(x: Register, s: seq<byte>, k: nat)
    requires k < |s|
    ensures Feed(x, s[..k + 1]) == Steps(Xor(if k == 0 then x else Feed(x, s[..k]), At(s[k], 0)), 8)
  {
    hide Steps, Xor, At;
    assert s[..k + 1][..k] == s[..k];
  }

  lemma FeedFour(x: Register, s: seq<byte>)
    requires |s| == 4
    ensures Feed(x, s) == Steps(MixWord(x, s), 32)
  {
    hide Steps, Xor, At, Feed;
    assert s[..4] == s;
    FeedSnoc(x, s, 0);
    FeedSnoc(x, s, 1);
    FeedSnoc(x, s, 2);
    FeedSnoc(x, s, 3);
    var x0 := Xor(x, At(s[0], 0));
    assert Feed(x, s[..1]) == Steps(x0, 8);
    var x1 := Xor(x0, At(s[1], 1));
    AbsorbLater(x0, s[1], 1);
    assert Feed(x, s[..2]) == Steps(Steps(x1, 8), 8);
    var x2 := Xor(x1, At(s[2], 2));
    AbsorbLater(x1, s[2], 2);
    AbsorbLater(Steps(x1, 8), s[2], 1);
    assert Feed(x, s[..3]) == Steps(Steps(Steps(x2, 8), 8), 8);
    var x3 := Xor(x2, At(s[3], 3));
    AbsorbLater(x2, s[3], 3);
    AbsorbLater(Steps(x2, 8), s[3], 2);
    AbsorbLater(Steps(Steps(x2, 8), 8), s[3], 1);
    assert Feed(x, s) == Steps(Steps(Steps(Steps(x3, 8), 8), 8), 8);
    StepsAdd(x3, 8, 8);
    StepsAdd(x3, 16, 8);
    StepsAdd(x3, 24, 8);
  }

  lemma {:induction false} BitsOfBytesInjective(s: seq<byte>, t: seq<byte>)
    requires |s| == |t| && BitsOfBytes(s) == BitsOfBytes(t)
    ensures s == t
  {
    if s != [] {
      var x, y := BitsOfBytes(s), BitsOfBytes(t);
      assert x[..8] == Bits(s[0], 8) && y[..8] == Bits(t[0], 8);
      assert x[8..] == BitsOfBytes(s[1..]) && y[8..] == BitsOfBytes(t[1..]);
      PowerOfTwoEight();
      NumberOfBits(s[0], 8);
      NumberOfBits(t[0], 8);
      BitsOfBytesInjective(s[1..], t[1..]);
      assert s == [s[0]] + s[1..] && t == [t[0]] + t[1..];
    }
  }

  lemma MixWordInjective(x: Register, s: seq<byte>, t: seq<byte>)
    requires |s| == |t| == 4 && MixWord(x, s) == MixWord(x, t)
    ensures s == t
  {
    MixWordBits(x, s);
    MixWordBits(x, t);
    XorCancel(x, BitsOfBytes(s), BitsOfBytes(t));
    BitsOfBytesInjective(s, t);
  }

  lemma {:induction false} FeedConcat(x: Register, s: seq<byte>, t: seq<byte>)
    ensures Feed(x, s + t) == Feed(Feed(x, s), t)
  {
    if t == [] {
      assert s + t == s;
    } else {
      assert (s + t)[..|s + t| - 1] == s + t[..|t| - 1];
      FeedConcat(x, s, t[..|t| - 1]);
    }
  }

  lemma {:induction false} FeedStateInjective(x: Register, y: Register, s: seq<byte>)
    requires Feed(x, s) == Feed(y, s)
    ensures x == y
  {
    if s != [] {
      var x', y' := Feed(x, s[..|s| - 1]), Feed(y, s[..|s| - 1]);
      var w := Wide(s[|s| - 1]);
      StepsInjective(Xor(x', w), Xor(y', w), 8);
      XorCommutes(x', w);
      XorCommutes(y', w);
      XorCancel(w, x', y');
      FeedStateInjective(x, y, s[..|s| - 1]);
    }
  }

  /** Up to four bytes fed from the same state are told apart by the register. */
  lemma FeedBurstInjective(x: Register, u: seq<byte>, v: seq<byte>)
    requires |u| == |v| <= 4
    requires Feed(x, u) == Feed(x, v)
    ensures u == v
  {
    var pad: seq<byte> := seq(4 - |u|, i => 0);
    FeedConcat(x, u, pad);
    FeedConcat(x, v, pad);
    FeedFour(x, u + pad);
    FeedFour(x, v + pad);
    StepsInjective(MixWord(x, u + pad), MixWord(x, v + pad), 32);
    MixWordInjective(x, u + pad, v + pad);
    assert u == (u + pad)[..|u|] && v == (v + pad)[..|u|];
  }

  // A sealed message carries the checksum of its payload as a little-endian trailer.

  ghost predicate Sealed(message: seq<byte>) {
    && |message| >= 4
    && FromLE(message[|message| - 4..]) == Value(Checksum(message[..|message| - 4]))
  }

  /** Sealed messages are exactly those that drive the register to one fixed residue. */
  lemma SealedIffResidue(message: seq<byte>)
    requires |message| >= 4
    ensures Sealed(message) <==> Feed(AllOnes(), message) == Steps(AllOnes(), 32)
  {
    hide Steps, MixWord, BitsOfBytes, Bits, Number, FromLE, Feed, Pow256, PowerOfTwo;
    var payload, trailer := message[..|message| - 4], message[|message| - 4..];
    assert message == payload + trailer;
    var state := Feed(AllOnes(), payload);
    FeedConcat(AllOnes(), payload, trailer);
    FeedFour(state, trailer);
    MixWordBits(state, trailer);
    TrailerBits(trailer, Complement(state));
    XorComplement(state);
    if Steps(MixWord(state, trailer), 32) == Steps(AllOnes(), 32) {
      StepsInjective(MixWord(state, trailer), AllOnes(), 32);
      XorCancel(state, BitsOfBytes(trailer), Complement(state));
    }
  }

  lemma XorComplement(x: Register)
    ensures Xor(x, Complement(x)) == AllOnes()
  {
  }

  /** A trailer spells a register's value exactly when it has the register's bits. */
  lemma TrailerBits(trailer: seq<byte>, x: Register)
    requires |trailer| == 4
    ensures FromLE(trailer) == Value(x) <==> BitsOfBytes(trailer) == x
  {
    hide BitsOfBytes, Bits, Number, FromLE;
    BitsOfLE(trailer);
    BitsOfNumber(x);
    LEOfFromLE(trailer);
    PowersAgree(4);
    NumberOfBits(FromLE(trailer), 32);
  }

  /** Changing any window of at most four consecutive bytes of a sealed message, the
      checksum itself included, leaves a message that is not sealed. */
  lemma BurstBreaksSeal(front: seq<byte>, u: seq<byte>, v: seq<byte>, back: seq<byte>)
    requires |u| == |v| <= 4 && u != v
    requires Sealed(front + u + back)
    ensures !Sealed(front + v + back)
  {
    if Sealed(front + v + back) {
      SealedIffResidue(front + u + back);
      SealedIffResidue(front + v + back);
      var start := AllOnes();
      var state := Feed(start, front);
      FeedConcat(start, front + u, back);
      FeedConcat(start, front + v, back);
      FeedConcat(start, front, u);
      FeedConcat(start, front, v);
      FeedStateInjective(Feed(state, u), Feed(state, v), back);
      FeedBurstInjective(state, u, v);
    }
  }
}
