/** SHA-256: the hash of FIPS 180-4 as a function of the whole message, and the streaming object
    that computes it through a 64-byte buffer. */
module Sha256 {
  import opened Bytes

  // Section 4.1.2 and 3.2 of FIPS 180-4: the functions on 32-bit words.

  function RotateRight(x: bv32, n: bv32): bv32
    requires 0 < n < 32
  {
    (x >> n) | (x << (32 - n))
  }

  function ShiftRight(x: bv32, n: bv32): bv32
    requires n < 32
  {
    x >> n
  }

  /** Addition modulo 2^32. */
  function Add(x: bv32, y: bv32): bv32 {
    x + y
  }

  function Sum(p: bv32, q: bv32, r: bv32, s: bv32): bv32 {
    p + q + r + s
  }

  function Choice(x: bv32, y: bv32, z: bv32): bv32 {
    (x & y) ^ (!x & z)
  }

  function Majority(x: bv32, y: bv32, z: bv32): bv32 {
    (x & y) ^ (x & z) ^ (y & z)
  }

  function Mixed(p: bv32, q: bv32, r: bv32): bv32 {
    p ^ q ^ r
  }

  function BigSigma0(x: bv32): bv32 {
    Mixed(RotateRight(x, 2), RotateRight(x, 13), RotateRight(x, 22))
  }

  function BigSigma1(x: bv32): bv32 {
    Mixed(RotateRight(x, 6), RotateRight(x, 11), RotateRight(x, 25))
  }

  function SmallSigma0(x: bv32): bv32 {
    Mixed(RotateRight(x, 7), RotateRight(x, 18), ShiftRight(x, 3))
  }

  function SmallSigma1(x: bv32): bv32 {
    Mixed(RotateRight(x, 17), RotateRight(x, 19), ShiftRight(x, 10))
  }

  // What these functions do to each bit, the lowest being bit 0.

  predicate Bit(x: bv32, i: bv32)
    requires i < 32
  {
    (x >> i) & 1 == 1
  }

  /** The bit n places up from bit i, around the word. */
  function Around(i: bv32, n: bv32): (j: bv32)
    requires i < 32 && n < 32
    ensures j < 32
  {
    (i + n) % 32
  }

  predicate Odd(p: bool, q: bool, r: bool) {
    (p != q) != r
  }

  lemma RotatedBit(x: bv32, n: bv32, i: bv32)
    requires 0 < n < 32 && i < 32
    ensures Bit(x, Around(i, n)) ==> Bit(RotateRight(x, n), i)
    ensures !Bit(x, Around(i, n)) ==> !Bit(RotateRight(x, n), i)
  {
  }

  lemma ShiftedBit(x: bv32, n: bv32, i: bv32)
    requires n < 32 && i < 32
    ensures i + n < 32 && Bit(x, i + n) ==> Bit(ShiftRight(x, n), i)
    ensures i + n < 32 && !Bit(x, i + n) ==> !Bit(ShiftRight(x, n), i)
    ensures i + n >= 32 ==> !Bit(ShiftRight(x, n), i)
  {
  }

  /** Where the first word has a one the choice is the second word's bit, elsewhere the third's. */
  lemma ChoiceBit(x: bv32, y: bv32, z: bv32, i: bv32)
    requires i < 32
    ensures Bit(x, i) && Bit(y, i) ==> Bit(Choice(x, y, z), i)
    ensures Bit(x, i) && !Bit(y, i) ==> !Bit(Choice(x, y, z), i)
    ensures !Bit(x, i) && Bit(z, i) ==> Bit(Choice(x, y, z), i)
    ensures !Bit(x, i) && !Bit(z, i) ==> !Bit(Choice(x, y, z), i)
  {
  }

  /** The majority has the bit that two of the three words agree on. */
  lemma MajorityBit(x: bv32, y: bv32, z: bv32, i: bv32)
    requires i < 32
    ensures (Bit(x, i) && Bit(y, i)) || (Bit(x, i) && Bit(z, i)) || (Bit(y, i) && Bit(z, i)) ==> Bit(Majority(x, y, z), i)
    ensures (!Bit(x, i) && !Bit(y, i)) || (!Bit(x, i) && !Bit(z, i)) || (!Bit(y, i) && !Bit(z, i)) ==> !Bit(Majority(x, y, z), i)
  {
  }

  lemma MixedBit(p: bv32, q: bv32, r: bv32, i: bv32)
    requires i < 32
    ensures Odd(Bit(p, i), Bit(q, i), Bit(r, i)) ==> Bit(Mixed(p, q, r), i)
    ensures !Odd(Bit(p, i), Bit(q, i), Bit(r, i)) ==> !Bit(Mixed(p, q, r), i)
  {
  }

  lemma BigSigma0Bit(x: bv32, i: bv32)
    requires i < 32
    ensures Bit(BigSigma0(x), i) <==> Odd(Bit(x, Around(i, 2)), Bit(x, Around(i, 13)), Bit(x, Around(i, 22)))
  {
    hide Bit, RotateRight, ShiftRight, Around, Odd, Mixed;
    MixedBit(RotateRight(x, 2), RotateRight(x, 13), RotateRight(x, 22), i);
    RotatedBit(x, 2, i);
    RotatedBit(x, 13, i);
    RotatedBit(x, 22, i);
  }

  lemma BigSigma1Bit(x: bv32, i: bv32)
    requires i < 32
    ensures Bit(BigSigma1(x), i) <==> Odd(Bit(x, Around(i, 6)), Bit(x, Around(i, 11)), Bit(x, Around(i, 25)))
  {
    hide Bit, RotateRight, ShiftRight, Around, Odd, Mixed;
    MixedBit(RotateRight(x, 6), RotateRight(x, 11), RotateRight(x, 25), i);
    RotatedBit(x, 6, i);
    RotatedBit(x, 11, i);
    RotatedBit(x, 25, i);
  }

  lemma SmallSigma0Bit(x: bv32, i: bv32)
    requires i < 32
    ensures Bit(SmallSigma0(x), i) <==> Odd(Bit(x, Around(i, 7)), Bit(x, Around(i, 18)), i < 29 && Bit(x, i + 3))
  {
    hide Bit, RotateRight, ShiftRight, Around, Odd, Mixed;
    MixedBit(RotateRight(x, 7), RotateRight(x, 18), ShiftRight(x, 3), i);
    RotatedBit(x, 7, i);
    RotatedBit(x, 18, i);
    ShiftedBit(x, 3, i);
  }

  lemma SmallSigma1Bit(x: bv32, i: bv32)
    requires i < 32
    ensures Bit(SmallSigma1(x), i) <==> Odd(Bit(x, Around(i, 17)), Bit(x, Around(i, 19)), i < 22 && Bit(x, i + 10))
  {
    hide Bit, RotateRight, ShiftRight, Around, Odd, Mixed;
    MixedBit(RotateRight(x, 17), RotateRight(x, 19), ShiftRight(x, 10), i);
    RotatedBit(x, 17, i);
    RotatedBit(x, 19, i);
    ShiftedBit(x, 10, i);
  }

  // Sections 4.2.2 and 5.3.3: the constants.

  type Hash = h: seq<bv32> | |h| == 8 witness [0, 0, 0, 0, 0, 0, 0, 0]

  function Constant(t: nat): bv32
    requires t < 64
  {
    if t < 16 then
      match t {
        case 0 => 0x428a2f98
        case 1 => 0x71374491
        case 2 => 0xb5c0fbcf
        case 3 => 0xe9b5dba5
        case 4 => 0x3956c25b
        case 5 => 0x59f111f1
        case 6 => 0x923f82a4
        case 7 => 0xab1c5ed5
        case 8 => 0xd807aa98
        case 9 => 0x12835b01
        case 10 => 0x243185be
        case 11 => 0x550c7dc3
        case 12 => 0x72be5d74
        case 13 => 0x80deb1fe
        case 14 => 0x9bdc06a7
        case _ => 0xc19bf174
      }
    else if t < 32 then
      match t {
        case 16 => 0xe49b69c1
        case 17 => 0xefbe4786
        case 18 => 0x0fc19dc6
        case 19 => 0x240ca1cc
        case 20 => 0x2de92c6f
        case 21 => 0x4a7484aa
        case 22 => 0x5cb0a9dc
        case 23 => 0x76f988da
        case 24 => 0x983e5152
        case 25 => 0xa831c66d
        case 26 => 0xb00327c8
        case 27 => 0xbf597fc7
        case 28 => 0xc6e00bf3
        case 29 => 0xd5a79147
        case 30 => 0x06ca6351
        case _ => 0x14292967
      }
    else if t < 48 then
      match t {
        case 32 => 0x27b70a85
        case 33 => 0x2e1b2138
        case 34 => 0x4d2c6dfc
        case 35 => 0x53380d13
        case 36 => 0x650a7354
        case 37 => 0x766a0abb
        case 38 => 0x81c2c92e
        case 39 => 0x92722c85
        case 40 => 0xa2bfe8a1
        case 41 => 0xa81a664b
        case 42 => 0xc24b8b70
        case 43 => 0xc76c51a3
        case 44 => 0xd192e819
        case 45 => 0xd6990624
        case 46 => 0xf40e3585
        case _ => 0x106aa070
      }
    else
      match t {
        case 48 => 0x19a4c116
        case 49 => 0x1e376c08
        case 50 => 0x2748774c
        case 51 => 0x34b0bcb5
        case 52 => 0x391c0cb3
        case 53 => 0x4ed8aa4a
        case 54 => 0x5b9cca4f
        case 55 => 0x682e6ff3
        case 56 => 0x748f82ee
        case 57 => 0x78a5636f
        case 58 => 0x84c87814
        case 59 => 0x8cc70208
        case 60 => 0x90befffa
        case 61 => 0xa4506ceb
        case 62 => 0xbef9a3f7
        case _ => 0xc67178f2
      }
  }

  function StartHash(): Hash {
    [0x6a09e667, 0xbb67ae85, 0x3c6ef372, 0xa54ff53a, 0x510e527f, 0x9b05688c, 0x1f83d9ab, 0x5be0cd19]
  }

  /** The first sixty-four primes. */
  function Prime(t: nat): nat
    requires t < 64
  {
    if t < 16 then
      match t {
        case 0 => 2
        case 1 => 3
        case 2 => 5
        case 3 => 7
        case 4 => 11
        case 5 => 13
        case 6 => 17
        case 7 => 19
        case 8 => 23
        case 9 => 29
        case 10 => 31
        case 11 => 37
        case 12 => 41
        case 13 => 43
        case 14 => 47
        case _ => 53
      }
    else if t < 32 then
      match t {
        case 16 => 59
        case 17 => 61
        case 18 => 67
        case 19 => 71
        case 20 => 73
        case 21 => 79
        case 22 => 83
        case 23 => 89
        case 24 => 97
        case 25 => 101
        case 26 => 103
        case 27 => 107
        case 28 => 109
        case 29 => 113
        case 30 => 127
        case _ => 131
      }
    else if t < 48 then
      match t {
        case 32 => 137
        case 33 => 139
        case 34 => 149
        case 35 => 151
        case 36 => 157
        case 37 => 163
        case 38 => 167
        case 39 => 173
        case 40 => 179
        case 41 => 181
        case 42 => 191
        case 43 => 193
        case 44 => 197
        case 45 => 199
        case 46 => 211
        case _ => 223
      }
    else
      match t {
        case 48 => 227
        case 49 => 229
        case 50 => 233
        case 51 => 239
        case 52 => 241
        case 53 => 251
        case 54 => 257
        case 55 => 263
        case 56 => 269
        case 57 => 271
        case 58 => 277
        case 59 => 281
        case 60 => 283
        case 61 => 293
        case 62 => 307
        case _ => 311
      }
  }

  ghost predicate IsPrime(p: nat) {
    p >= 2 && forall d | 2 <= d < p :: p % d != 0
  }

  /** A proper multiple of one of the seven primes below eighteen: below 324 there are no other composite numbers. */
  predicate Multiple(m: nat) {
    || (m > 2 && m % 2 == 0) || (m > 3 && m % 3 == 0) || (m > 5 && m % 5 == 0) || (m > 7 && m % 7 == 0)
    || (m > 11 && m % 11 == 0) || (m > 13 && m % 13 == 0) || (m > 17 && m % 17 == 0)
  }

  lemma SmallFactor(d: nat) returns (f: nat, j: nat)
    requires 2 <= d <= 17
    ensures d == f * j && f in {2, 3, 5, 7, 11, 13, 17}
  {
    if d % 2 == 0 {
      f, j := 2, d / 2;
    } else if d % 3 == 0 {
      f, j := 3, d / 3;
    } else if d % 5 == 0 {
      f, j := 5, d / 5;
    } else {
      f, j := d, 1;
    }
  }

  lemma Composite(m: nat, d: nat)
    requires 2 <= d < m && m % d == 0
    ensures !IsPrime(m)
  {
  }

  lemma MultipleIsComposite(m: nat)
    requires Multiple(m)
    ensures !IsPrime(m)
  {
    hide IsPrime;
    Composite(m, if m > 2 && m % 2 == 0 then 2 else if m > 3 && m % 3 == 0 then 3 else if m > 5 && m % 5 == 0 then 5
                 else if m > 7 && m % 7 == 0 then 7 else if m > 11 && m % 11 == 0 then 11 else if m > 13 && m % 13 == 0 then 13 else 17);
  }

  /** A number with a divisor that is small, and not itself, is a proper multiple of one of the seven primes. */
  lemma SmallDivisor(m: nat, d: nat, e: nat)
    requires m == d * e && 2 <= d <= 17 && e >= 2
    ensures Multiple(m)
  {
    hide Multiple;
    var f, j := SmallFactor(d);
    assert m == f * (j * e) by {
      assert m == (f * j) * e;
    }
    assert j * e >= 2 by {
      assert j >= 1;
    }
    FactorMultiple(m, f, j * e);
  }

  predicate Times(m: nat, f: nat, q: nat) {
    || (f == 2 && m == 2 * q) || (f == 3 && m == 3 * q) || (f == 5 && m == 5 * q) || (f == 7 && m == 7 * q)
    || (f == 11 && m == 11 * q) || (f == 13 && m == 13 * q) || (f == 17 && m == 17 * q)
  }

  lemma NothingLeft(q: nat)
    ensures (2 * q) % 2 == 0 && (3 * q) % 3 == 0 && (5 * q) % 5 == 0 && (7 * q) % 7 == 0
    ensures (11 * q) % 11 == 0 && (13 * q) % 13 == 0 && (17 * q) % 17 == 0
  {
  }

  lemma FactorMultiple(m: nat, f: nat, q: nat)
    requires Times(m, f, q) && q >= 2
    ensures Multiple(m)
  {
    NothingLeft(q);
  }

  lemma NoMultipleIsPrime(m: nat)
    requires 2 <= m < 324 && !Multiple(m)
    ensures IsPrime(m)
  {
    hide Multiple;
    forall d | 2 <= d < m
      ensures m % d != 0
    {
      if m % d == 0 {
        var e := m / d;
        Quotient(m, d, e);
        if d <= 17 {
          SmallDivisor(m, d, e);
        } else {
          SmallDivisor(m, e, d);
        }
      }
    }
  }

  lemma Quotient(m: nat, d: nat, e: nat)
    requires 2 <= d < m < 324 && m % d == 0 && e == m / d
    ensures m == d * e && m == e * d && e >= 2 && (d <= 17 || e <= 17)
  {
    assert m == d * e;
    assert d >= 18 && e >= 18 ==> d * e >= 18 * 18;
  }

  lemma TableIsIncreasing(t: nat)
    requires t < 64
    ensures !Multiple(Prime(t)) && 2 <= Prime(t) < 324
    ensures t < 63 ==> Prime(t) < Prime(t + 1) <= Prime(t) + 14
  {
  }

  lemma OddGaps(t: nat, j: nat)
    requires 1 <= t < 63 && 1 <= j <= 6
    ensures Prime(t) + 2 * j < Prime(t + 1) ==> Multiple(Prime(t) + 2 * j)
  {
    hide Prime, Multiple;
    if t < 32 {
      FirstOddGaps(t, j);
    } else {
      LastOddGaps(t, j);
    }
  }

  lemma FirstOddGaps(t: nat, j: nat)
    requires 1 <= t < 32 && 1 <= j <= 6
    ensures Prime(t) + 2 * j < Prime(t + 1) ==> Multiple(Prime(t) + 2 * j)
  {
  }

  lemma LastOddGaps(t: nat, j: nat)
    requires 32 <= t < 63 && 1 <= j <= 6
    ensures Prime(t) + 2 * j < Prime(t + 1) ==> Multiple(Prime(t) + 2 * j)
  {
  }

  /** The table of primes is what it says: it begins with 2, and each entry is the next prime after the one before. */
  lemma TableIsPrimes(t: nat)
    requires t < 64
    ensures IsPrime(Prime(t)) && Prime(0) == 2
    ensures t < 63 ==> forall m | Prime(t) < m < Prime(t + 1) :: !IsPrime(m)
  {
    hide IsPrime, Prime, Multiple;
    TableIsIncreasing(t);
    NoMultipleIsPrime(Prime(t));
    FirstPrimes();
    if t < 63 {
      TableIsIncreasing(t + 1);
      forall m | Prime(t) < m < Prime(t + 1)
        ensures !IsPrime(m)
      {
        if m % 2 != 0 {
          OddGaps(t, (m - Prime(t)) / 2);
        } else {
          EvenMultiple(m);
        }
        MultipleIsComposite(m);
      }
    }
  }

  lemma EvenMultiple(m: nat)
    requires m > 2 && m % 2 == 0
    ensures Multiple(m)
  {
  }

  lemma FirstPrimes()
    ensures Prime(0) == 2 && Prime(1) == 3 && forall t | 1 <= t < 64 :: Prime(t) % 2 == 1
  {
  }

  function Cube(x: nat): nat {
    x * x * x
  }

  function WholeRoot(p: nat): nat {
    if p < 8 then 1 else if p < 27 then 2 else if p < 64 then 3 else if p < 125 then 4 else if p < 216 then 5 else 6
  }

  /** The word holds the first 32 bits of the fractional part of the cube root of p, whose whole part is n. */
  predicate CubeRootBits(p: nat, n: nat, w: bv32) {
    var x := n * 0x1_0000_0000 + w as nat;
    && Cube(x) <= p * 0x1_0000_0000_0000_0000_0000_0000 < Cube(x + 1)
  }

  predicate SquareRootBits(p: nat, n: nat, w: bv32) {
    var x := n * 0x1_0000_0000 + w as nat;
    && x * x <= p * 0x1_0000_0000_0000_0000 < (x + 1) * (x + 1)
  }

  /** The initial state in the code holds the bits of the square roots of the first eight primes. */
  lemma InitialHashIsSquareRoots(t: nat)
    requires t < 8
    ensures exists n: nat :: SquareRootBits(Prime(t), n, StartHash()[t])
  {
    var n := if t < 2 then 1 else if t < 4 then 2 else if t < 6 then 3 else 4;
    assert SquareRootBits(Prime(t), n, StartHash()[t]);
  }

  /** And the table of constants those of the cube roots of the first sixty-four. */
  lemma RoundConstantsAreCubeRoots(t: nat)
    requires t < 64
    ensures exists n: nat :: CubeRootBits(Prime(t), n, Constant(t))
  {
    hide CubeRootBits;
    ConstantAt(t);
  }

  lemma ConstantAt(t: nat)
    requires t < 64
    ensures CubeRootBits(Prime(t), WholeRoot(Prime(t)), Constant(t))
  {
    hide *;
    if t < 8 {
      Constants0(t);
    } else if t < 16 {
      Constants8(t);
    } else if t < 24 {
      Constants16(t);
    } else if t < 32 {
      Constants24(t);
    } else if t < 40 {
      Constants32(t);
    } else if t < 48 {
      Constants40(t);
    } else if t < 56 {
      Constants48(t);
    } else {
      Constants56(t);
    }
  }

  lemma Constants0(t: nat)
    requires 0 <= t < 8
    ensures CubeRootBits(Prime(t), WholeRoot(Prime(t)), Constant(t))
  {
  }

  lemma Constants8(t: nat)
    requires 8 <= t < 16
    ensures CubeRootBits(Prime(t), WholeRoot(Prime(t)), Constant(t))
  {
  }

  lemma Constants16(t: nat)
    requires 16 <= t < 24
    ensures CubeRootBits(Prime(t), WholeRoot(Prime(t)), Constant(t))
  {
  }

  lemma Constants24(t: nat)
    requires 24 <= t < 32
    ensures CubeRootBits(Prime(t), WholeRoot(Prime(t)), Constant(t))
  {
  }

  lemma Constants32(t: nat)
    requires 32 <= t < 40
    ensures CubeRootBits(Prime(t), WholeRoot(Prime(t)), Constant(t))
  {
  }

  lemma Constants40(t: nat)
    requires 40 <= t < 48
    ensures CubeRootBits(Prime(t), WholeRoot(Prime(t)), Constant(t))
  {
  }

  lemma Constants48(t: nat)
    requires 48 <= t < 56
    ensures CubeRootBits(Prime(t), WholeRoot(Prime(t)), Constant(t))
  {
  }

  lemma Constants56(t: nat)
    requires 56 <= t < 64
    ensures CubeRootBits(Prime(t), WholeRoot(Prime(t)), Constant(t))
  {
  }

  // Section 6.2.2: one block.

  /** Four bytes as a word, high byte first. */
  function BigEndian(p: byte, q: byte, r: byte, s: byte): bv32 {
    ((p as bv32) << 24) | ((q as bv32) << 16) | ((r as bv32) << 8) | (s as bv32)
  }

  /** The message schedule. */
  function Schedule(block: seq<byte>, t: nat): bv32
    requires |block| == 64 && t < 64
  {
    if t < 16 then BigEndian(block[4 * t], block[4 * t + 1], block[4 * t + 2], block[4 * t + 3])
    else
      Sum(SmallSigma1(Schedule(block, t - 2)), Schedule(block, t - 7), SmallSigma0(Schedule(block, t - 15)), Schedule(block, t - 16))
  }

  datatype Working = Working(a: bv32, b: bv32, c: bv32, d: bv32, e: bv32, f: bv32, g: bv32, h: bv32)

  function Round(v: Working, k: bv32, w: bv32): Working {
    var t1 := Add(Add(Add(Add(v.h, BigSigma1(v.e)), Choice(v.e, v.f, v.g)), k), w);
    var t2 := Add(BigSigma0(v.a), Majority(v.a, v.b, v.c));
    Working(Add(t1, t2), v.a, v.b, v.c, Add(v.d, t1), v.e, v.f, v.g)
  }

  function Rounds(v: Working, block: seq<byte>, t: nat): Working
    requires |block| == 64 && t <= 64
  {
    if t == 0 then v else Round(Rounds(v, block, t - 1), Constant(t - 1), Schedule(block, t - 1))
  }

  function Added(h: Hash, v: Working): Hash {
    [Add(h[0], v.a), Add(h[1], v.b), Add(h[2], v.c), Add(h[3], v.d),
     Add(h[4], v.e), Add(h[5], v.f), Add(h[6], v.g), Add(h[7], v.h)]
  }

  function Start(h: Hash): Working {
    Working(h[0], h[1], h[2], h[3], h[4], h[5], h[6], h[7])
  }

  function Compress(h: Hash, block: seq<byte>): Hash
    requires |block| == 64
  {
    Added(h, Rounds(Start(h), block, 64))
  }

  function InitialWord(i: nat): bv32
    requires i < 8
  {
    StartHash()[i]
  }

  lemma InitialWords()
    ensures forall i | 0 <= i < 8 :: StartHash()[i] == InitialWord(i)
  {
  }

  /** The hash after all the blocks of a message made of whole blocks. */
  function Blocks(m: seq<byte>): Hash
    requires |m| % 64 == 0
  {
    if m == [] then StartHash() else Compress(Blocks(m[..|m| - 64]), m[|m| - 64..])
  }

  // Section 5.1.1: padding.

  /** The number of zero bytes between the marker and the length. */
  function PaddingZeros(n: nat): (k: nat)
    ensures k < 64 && (n + 1 + k + 8) % 64 == 0
  {
    if n % 64 < 56 then 55 - n % 64 else 119 - n % 64
  }

  /** It is the least solution, as the section asks. */
  lemma PaddingIsLeast(n: nat, j: nat)
    requires (n + 1 + j + 8) % 64 == 0
    ensures PaddingZeros(n) <= j
  {
  }

  function Power2(k: nat): (p: nat)
    ensures p > 0
  {
    if k == 0 then 1 else 2 * Power2(k - 1)
  }

  /** The length in bits as a 64-bit block, high byte first. */
  function LengthBytes(bits: nat): (b: seq<byte>)
    ensures |b| == 8
  {
    seq(8, i requires 0 <= i < 8 => (bits / Power2(56 - 8 * i)) % 256)
  }

  lemma DividedTwice(n: nat, p: nat)
    requires p > 0
    ensures n / 256 / p == n / (256 * p)
  {
    var q, r := n / 256 / p, n - 256 * p * (n / 256 / p);
    assert n / 256 == p * q + n / 256 % p && n == 256 * (n / 256) + n % 256;
    assert n == (256 * p) * q + r && 0 <= r < 256 * p by {
      assert 256 * (p * q) == (256 * p) * q;
      assert r == 256 * (n / 256 % p) + n % 256;
    }
    QuotientIs(n, 256 * p, q, r);
  }

  lemma QuotientIs(n: nat, d: nat, q: nat, r: nat)
    requires d > 0 && n == d * q + r && r < d
    ensures n / d == q
  {
    var x, y := n / d, n % d;
    assert d * x + y == d * q + r;
    Closest(d, x, y, q, r);
  }

  lemma Closest(d: nat, x: nat, y: nat, q: nat, r: nat)
    requires y < d && r < d && d * x + y == d * q + r
    ensures x <= q && q <= x
  {
    NotBelow(d, x, y, q, r);
    NotBelow(d, q, r, x, y);
  }

  lemma NotBelow(d: nat, x: nat, y: nat, q: nat, r: nat)
    requires y < d && r < d && d * x + y == d * q + r
    ensures q <= x
  {
    var k: int := q - x;
    assert d * k == y - r;
    assert k >= 1 ==> d * k == d * (k - 1) + d;
    assert k >= 1 ==> d * (k - 1) >= 0;
  }

  lemma {:induction false} ShiftedBytes(n: nat, j: nat)
    ensures ShiftRightBytes(n, j) == n / Power2(8 * j)
  {
    if j > 0 {
      ShiftedBytes(n / 256, j - 1);
      EightTimes(8 * j - 8);
      DividedTwice(n, Power2(8 * j - 8));
    }
  }

  lemma EightTimes(k: nat)
    ensures Power2(k + 8) == 256 * Power2(k)
  {
    assert Power2(k + 4) == 2 * Power2(k + 3) == 4 * Power2(k + 2) == 8 * Power2(k + 1);
    assert Power2(k + 8) == 2 * Power2(k + 7) == 4 * Power2(k + 6) == 8 * Power2(k + 5);
  }

  /** They are the bytes of the number, the most significant first. */
  lemma LengthBytesAre(bits: nat, i: nat)
    requires i < 8
    ensures LengthBytes(bits)[i] == LE(bits, 8)[7 - i]
  {
    hide Power2;
    LEByte(bits, 8, 7 - i);
    ShiftedBytes(bits, 7 - i);
    assert 8 * (7 - i) == 56 - 8 * i;
  }

  function Padded(m: seq<byte>): (p: seq<byte>)
    ensures |p| % 64 == 0
  {
    m + [0x80] + Zeros(PaddingZeros(|m|)) + LengthBytes(8 * |m|)
  }

  /** The hash of a message: section 6.2. */
  function Digest(m: seq<byte>): Hash {
    Blocks(Padded(m))
  }

  function HexDigit(n: bv32): byte {
    if n == 0 then 0x30 else if n == 1 then 0x31 else if n == 2 then 0x32 else if n == 3 then 0x33
    else if n == 4 then 0x34 else if n == 5 then 0x35 else if n == 6 then 0x36 else if n == 7 then 0x37
    else if n == 8 then 0x38 else if n == 9 then 0x39 else if n == 10 then 0x61 else if n == 11 then 0x62
    else if n == 12 then 0x63 else if n == 13 then 0x64 else if n == 14 then 0x65 else 0x66
  }

  function HexWord(w: bv32): (s: seq<byte>)
    ensures |s| == 8
  {
    [HexDigit((w >> 28) & 15), HexDigit((w >> 24) & 15), HexDigit((w >> 20) & 15), HexDigit((w >> 16) & 15),
     HexDigit((w >> 12) & 15), HexDigit((w >> 8) & 15), HexDigit((w >> 4) & 15), HexDigit(w & 15)]
  }

  function Hex(h: seq<bv32>): (s: seq<byte>)
    ensures |s| == 8 * |h|
  {
    if h == [] then [] else Hex(h[..|h| - 1]) + HexWord(h[|h| - 1])
  }
}
