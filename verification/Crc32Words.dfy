/** The checksum in 32-bit words, as the source writes it, and that the registers of bits compute it. */
module Crc32Words {
  import opened Bytes
  import opened Crc32

  predicate Low(w: bv32) {
    w & 1 == 1
  }

  function Half(w: bv32): bv32 {
    w >> 1
  }

  function Both(v: bv32, w: bv32): bv32 {
    v ^ w
  }

  /** The polynomial where the low bit is set, or nothing. */
  function Masked(w: bv32): bv32 {
    0xedb88320 & (0 - (w & 1))
  }

  /** Bit i of a word. */
  function BitAt(w: bv32, i: nat): bool {
    if i == 0 then Low(w) else BitAt(Half(w), i - 1)
  }

  /** The register that a word is. */
  function Shown(w: bv32): Register {
    seq(32, i requires 0 <= i < 32 => BitAt(w, i))
  }

  lemma BothHalves(v: bv32, w: bv32)
    ensures Half(Both(v, w)) == Both(Half(v), Half(w)) && Low(Both(v, w)) == (Low(v) != Low(w))
  {
  }

  lemma MaskIs(w: bv32)
    ensures Masked(w) == if Low(w) then 0xedb88320 else 0
    ensures Half(0) == 0 && !Low(0)
  {
  }

  lemma {:induction false} XorBits(v: bv32, w: bv32, i: nat)
    ensures BitAt(Both(v, w), i) == (BitAt(v, i) != BitAt(w, i))
    decreases i
  {
    hide Low, Half, Both;
    BothHalves(v, w);
    if i > 0 {
      XorBits(Half(v), Half(w), i - 1);
    }
  }

  lemma XorShows(v: bv32, w: bv32)
    ensures Xor(Shown(v), Shown(w)) == Shown(Both(v, w))
  {
    hide BitAt, Both;
    forall i | 0 <= i < 32
      ensures BitAt(Both(v, w), i) == (BitAt(v, i) != BitAt(w, i))
    {
      XorBits(v, w, i);
    }
  }

  function Halves(w: bv32, k: nat): bv32 {
    if k == 0 then w else Halves(Half(w), k - 1)
  }

  lemma {:induction false} Skipped(w: bv32, k: nat)
    ensures BitAt(w, k) == Low(Halves(w, k))
    decreases k
  {
    hide Low, Half;
    if k > 0 {
      Skipped(Half(w), k - 1);
    }
  }

  lemma EightHalves(w: bv32, k: nat)
    ensures Halves(w, k + 8) == Halves(Half(Half(Half(Half(Half(Half(Half(Half(w)))))))), k)
  {
    hide Half;
    assert Halves(w, k + 8) == Halves(Half(Half(w)), k + 6) == Halves(Half(Half(Half(Half(w)))), k + 4);
    assert Halves(Half(Half(Half(Half(w)))), k + 4) == Halves(Half(Half(Half(Half(Half(Half(w)))))), k + 2);
  }

  lemma EightDown(w: bv32)
    ensures Half(Half(Half(Half(Half(Half(Half(Half(w)))))))) == Down(w)
    ensures !Low(Down(Down(Down(Down(w)))))
  {
  }

  function Down(w: bv32): bv32 {
    w >> 8
  }

  lemma NothingBeyond(w: bv32)
    ensures !BitAt(w, 32)
  {
    hide BitAt, Half, Low, Down;
    Skipped(w, 32);
    EightHalves(w, 24);
    EightDown(w);
    EightHalves(Down(w), 16);
    EightDown(Down(w));
    EightHalves(Down(Down(w)), 8);
    EightDown(Down(Down(w)));
    EightHalves(Down(Down(Down(w))), 0);
    EightDown(Down(Down(Down(w))));
  }

  lemma HalfShows(w: bv32)
    ensures ShiftRight(Shown(w)) == Shown(Half(w))
  {
    hide Low, Half;
    NothingBeyond(w);
  }

  lemma EightOn(w: bv32, rest: bv32)
    requires w >> 8 == rest
    ensures forall k: nat :: BitAt(w, k + 8) == BitAt(rest, k)
  {
    hide BitAt, Low, Half;
    forall k: nat
      ensures BitAt(w, k + 8) == BitAt(rest, k)
    {
      Skipped(w, k + 8);
      Skipped(rest, k);
      EightHalves(w, k);
      EightDown(w);
    }
  }

  lemma PolynomialShows()
    ensures Polynomial() == Shown(0xedb88320)
  {
    EightOn(0xedb88320, 0xedb883);
    EightOn(0xedb883, 0xedb8);
    EightOn(0xedb8, 0xed);
    assert !BitAt(0xedb88320, 0) && !BitAt(0xedb88320, 1) && !BitAt(0xedb88320, 2) && !BitAt(0xedb88320, 3);
    assert !BitAt(0xedb88320, 4) && BitAt(0xedb88320, 5) && !BitAt(0xedb88320, 6) && !BitAt(0xedb88320, 7);
    assert BitAt(0xedb883, 0) && BitAt(0xedb883, 1) && !BitAt(0xedb883, 2) && !BitAt(0xedb883, 3);
    assert !BitAt(0xedb883, 4) && !BitAt(0xedb883, 5) && !BitAt(0xedb883, 6) && BitAt(0xedb883, 7);
    assert !BitAt(0xedb8, 0) && !BitAt(0xedb8, 1) && !BitAt(0xedb8, 2) && BitAt(0xedb8, 3);
    assert BitAt(0xedb8, 4) && BitAt(0xedb8, 5) && !BitAt(0xedb8, 6) && BitAt(0xedb8, 7);
    assert BitAt(0xed, 0) && !BitAt(0xed, 1) && BitAt(0xed, 2) && BitAt(0xed, 3);
    assert !BitAt(0xed, 4) && BitAt(0xed, 5) && BitAt(0xed, 6) && BitAt(0xed, 7);
  }

  lemma {:induction false} NoBits(i: nat)
    ensures !BitAt(0, i)
  {
    hide Low, Half;
    MaskIs(0);
    if i > 0 {
      NoBits(i - 1);
    }
  }

  lemma MaskShows(w: bv32)
    ensures And(Polynomial(), Mask(Shown(w))) == Shown(Masked(w))
  {
    hide Low, Half, Masked, Polynomial;
    PolynomialShows();
    MaskIs(w);
    assert Shown(w)[0] == Low(w);
    forall i | 0 <= i < 32
      ensures !BitAt(0, i)
    {
      NoBits(i);
    }
  }

  /** The source's step: a shift, and the polynomial where the low bit was set. */
  function WordStep(w: bv32): bv32 {
    Both(Half(w), Masked(w))
  }

  lemma StepShows(w: bv32)
    ensures BitStep(Shown(w)) == Shown(WordStep(w))
  {
    hide Shown, Polynomial, Mask, And, ShiftRight, Xor, Half, Masked, Both;
    HalfShows(w);
    MaskShows(w);
    XorShows(Half(w), Masked(w));
  }

  /** A byte as a word. */
  function WordOf(b: byte): bv32 {
    (b as bv8) as bv32
  }

  lemma ByteHalves(v: bv8)
    ensures (v >> 1) as int == v as int / 2 && (v & 1 == 1) == (v as int % 2 == 1)
    ensures Half(v as bv32) == (v >> 1) as bv32 && Low(v as bv32) == (v & 1 == 1) && (v as bv32) >> 8 == 0
  {
  }

  lemma {:induction false} ByteBits(v: bv8, n: nat, k: nat)
    requires k < n
    ensures Bits(v as int, n)[k] == BitAt(v as bv32, k)
    decreases k
  {
    hide Low, Half;
    ByteHalves(v);
    if k > 0 {
      ByteBits(v >> 1, n - 1, k - 1);
    }
  }

  lemma ByteShows(b: byte)
    ensures Wide(b) == Shown(WordOf(b))
  {
    hide BitAt, Bits, WordOf;
    forall i | 0 <= i < 32
      ensures Wide(b)[i] == BitAt(WordOf(b), i)
    {
      if i < 8 {
        LowBits(b, i);
      } else {
        HighBits(b, i);
      }
    }
  }

  lemma LowBits(b: byte, i: nat)
    requires i < 8
    ensures Bits(b, 8)[i] == BitAt(WordOf(b), i)
  {
    hide BitAt, Bits;
    ByteBits(b as bv8, 8, i);
  }

  lemma HighBits(b: byte, i: nat)
    requires i >= 8
    ensures !BitAt(WordOf(b), i)
  {
    hide BitAt, Low, Half;
    ByteHalves(b as bv8);
    EightOn(WordOf(b), 0);
    NoBits(i - 8);
    assert BitAt(WordOf(b), i - 8 + 8) == BitAt(0, i - 8);
  }

  lemma OnesShow()
    ensures AllOnes() == Shown(0xffffffff)
  {
    EightOn(0xffffffff, 0xffffff);
    EightOn(0xffffff, 0xffff);
    EightOn(0xffff, 0xff);
    assert BitAt(0xffffffff, 0) && BitAt(0xffffffff, 1) && BitAt(0xffffffff, 2) && BitAt(0xffffffff, 3);
    assert BitAt(0xffffffff, 4) && BitAt(0xffffffff, 5) && BitAt(0xffffffff, 6) && BitAt(0xffffffff, 7);
    assert BitAt(0xffffff, 0) && BitAt(0xffffff, 1) && BitAt(0xffffff, 2) && BitAt(0xffffff, 3);
    assert BitAt(0xffffff, 4) && BitAt(0xffffff, 5) && BitAt(0xffffff, 6) && BitAt(0xffffff, 7);
    assert BitAt(0xffff, 0) && BitAt(0xffff, 1) && BitAt(0xffff, 2) && BitAt(0xffff, 3);
    assert BitAt(0xffff, 4) && BitAt(0xffff, 5) && BitAt(0xffff, 6) && BitAt(0xffff, 7);
    assert BitAt(0xff, 0) && BitAt(0xff, 1) && BitAt(0xff, 2) && BitAt(0xff, 3);
    assert BitAt(0xff, 4) && BitAt(0xff, 5) && BitAt(0xff, 6) && BitAt(0xff, 7);
  }

  function WordSteps(w: bv32, n: nat): bv32 {
    if n == 0 then w else WordStep(WordSteps(w, n - 1))
  }

  lemma {:induction false} StepsShow(w: bv32, n: nat)
    ensures Steps(Shown(w), n) == Shown(WordSteps(w, n))
    decreases n
  {
    hide Shown, WordStep, BitStep;
    if n > 0 {
      StepsShow(w, n - 1);
      StepShows(WordSteps(w, n - 1));
    }
  }

  /** The loop of the source over its word: a byte mixed in, and eight steps. */
  function WordFeed(s: seq<byte>): bv32 {
    if s == [] then 0xffffffff else WordSteps(Both(WordFeed(s[..|s| - 1]), WordOf(s[|s| - 1])), 8)
  }

  lemma {:induction false} FeedShows(s: seq<byte>)
    ensures Feed(AllOnes(), s) == Shown(WordFeed(s))
  {
    hide Shown, Wide, WordOf, AllOnes, Xor, Steps, WordSteps, Both;
    if s == [] {
      OnesShow();
    } else {
      FeedShows(s[..|s| - 1]);
      ByteShows(s[|s| - 1]);
      XorShows(WordFeed(s[..|s| - 1]), WordOf(s[|s| - 1]));
      StepsShow(Both(WordFeed(s[..|s| - 1]), WordOf(s[|s| - 1])), 8);
    }
  }

  lemma ComplementShows(w: bv32)
    ensures Complement(Shown(w)) == Shown(Both(w, 0xffffffff))
  {
    hide Shown, Both;
    OnesShow();
    XorShows(w, 0xffffffff);
    assert Complement(Shown(w)) == Xor(Shown(w), AllOnes());
  }

  /** The checksum over registers is the source's, over words: from all ones, each byte mixed in and stepped eight times, with
      the reflected polynomial 0xedb88320, and the outcome inverted. */
  lemma ChecksumShows(s: seq<byte>)
    ensures Checksum(s) == Shown(Both(WordFeed(s), 0xffffffff))
  {
    hide Shown, Feed, WordFeed, Complement, Both;
    FeedShows(s);
    ComplementShows(WordFeed(s));
  }
}
