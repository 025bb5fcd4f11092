/** The streaming SHA-256 object: bytes gathered in a 64-byte buffer and compressed a block at a time. */
module Sha256Stream {
  import opened Bytes
  import opened Sha256

  /** The code adds the four words of the schedule in the opposite order. */
  lemma SumReverses(p: bv32, q: bv32, r: bv32, s: bv32)
    ensures Sum(p, q, r, s) == Sum(s, r, q, p)
  {
  }

  lemma BlocksStep(m: seq<byte>, block: seq<byte>)
    requires |m| % 64 == 0 && |block| == 64
    ensures Blocks(m + block) == Compress(Blocks(m), block)
  {
    hide Compress;
    assert (m + block)[..|m|] == m;
    assert (m + block)[|m|..] == block;
  }

  /** How the padding falls into blocks, given n bytes in the buffer after the whole blocks. */
  lemma PaddedBlocks(m: seq<byte>, n: nat)
    requires n < 64 && n <= |m| && (|m| - n) % 64 == 0
    ensures var whole, rest, unfinished := m[..|m| - n], m[|m| - n..], m + [0x80] + Zeros(PaddingZeros(|m|));
      && (n < 56 ==> unfinished == whole + (rest + [0x80] + Zeros(55 - n)))
      && (n >= 56 ==> unfinished == whole + (rest + [0x80] + Zeros(63 - n)) + Zeros(56))
  {
    assert m == m[..|m| - n] + m[|m| - n..];
    assert |m| % 64 == n;
    if n >= 56 {
      assert Zeros(PaddingZeros(|m|)) == Zeros(63 - n) + Zeros(56);
    }
  }

  /** The bits of n bytes as the 64-bit counter holds them. */
  function BitsOf(n: nat): u64 {
    (8 * n) % U64_LIMIT
  }

  lemma BitCount(n: nat)
    ensures (BitsOf(n) as int + 512) % U64_LIMIT == BitsOf(n + 64)
  {
  }

  lemma AllBits(total: nat, n: nat)
    requires n <= total < 0x2000_0000_0000_0000
    ensures (BitsOf(total - n) as int + 8 * n) % U64_LIMIT == 8 * total
  {
  }

  /** What the fields hold when m has been fed: the whole blocks of m compressed, the rest of it buffered. */
  ghost predicate Holding(data: seq<byte>, state: seq<bv32>, n: nat, bits: u64, m: seq<byte>)
    requires |data| == 64
  {
    && n < 64 && n <= |m| && (|m| - n) % 64 == 0
    && data[..n] == m[|m| - n..]
    && state == Blocks(m[..|m| - n])
    && bits == BitsOf(|m| - n)
  }

  lemma HoldingNothing(data: seq<byte>)
    requires |data| == 64
    ensures Holding(data, StartHash(), 0, 0, [])
  {
    hide Compress, StartHash;
  }

  lemma HoldingBlocks(data: seq<byte>, m: seq<byte>)
    requires |data| == 64 && |m| % 64 == 0
    ensures Holding(data, Blocks(m), 0, BitsOf(|m|), m)
  {
    hide BitsOf, Compress, Blocks;
    assert m[..|m| - 0] == m && m[|m| - 0..] == [];
  }

  /** A full buffer compressed, its bits counted, and started over. */
  lemma HoldingFull(whole: seq<byte>, block: seq<byte>, bits: u64)
    requires |whole| % 64 == 0 && |block| == 64 && bits == BitsOf(|whole|)
    ensures Holding(block, Compress(Blocks(whole), block), 0, (bits as int + 512) % U64_LIMIT, whole + block)
  {
    hide Holding, BitsOf, Compress, Blocks;
    BlocksStep(whole, block);
    BitCount(|whole|);
    assert |whole + block| == |whole| + 64;
    HoldingBlocks(block, whole + block);
  }

  class Hasher {
    const data: array<byte>
    const state: array<bv32>
    var dataLength: nat
    var bitLength: u64
    /** All that was fed so far. */
    ghost var fed: seq<byte>

    ghost predicate Valid()
      reads this, data, state
    {
      && data.Length == 64 && state.Length == 8
      && Holding(data[..], state[..], dataLength, bitLength, fed)
    }

    constructor ()
      ensures Valid() && fed == [] && fresh(data) && fresh(state)
    {
      hide Holding, Compress, Blocks, StartHash, InitialWord;
      data := new byte[64];
      var h := new bv32[8];
      state := h;
      dataLength, bitLength, fed := 0, 0, [];
      new;
      LoadInitial();
      HoldingNothing(data[..]);
    }

    method LoadInitial()
      requires state.Length == 8
      modifies state
      ensures state[..] == StartHash()
    {
      hide Compress, InitialWord;
      var i := 0;
      while i < 8
        invariant 0 <= i <= 8
        invariant forall j | 0 <= j < i :: state[j] == InitialWord(j)
      {
        state[i] := InitialWord(i);
        i := i + 1;
      }
      InitialWords();
    }

    /** Compress the buffered block into the state. */
    method Transform()
      requires data.Length == 64 && state.Length == 8
      modifies state
      ensures state[..] == Compress(old(state[..]), data[..])
    {
      hide Schedule, BigSigma0, BigSigma1, Choice, Majority, Constant, Add, Added;
      ghost var block := data[..];
      var schedule := ExpandSchedule();
      ghost var initial := state[..];
      var v := Working(state[0], state[1], state[2], state[3], state[4], state[5], state[6], state[7]);
      var i := 0;
      while i < 64
        invariant 0 <= i <= 64
        invariant v == Rounds(Start(initial), block, i)
        invariant state[..] == initial
      {
        var t1 := Add(Add(Add(Add(v.h, BigSigma1(v.e)), Choice(v.e, v.f, v.g)), Constant(i)), schedule[i]);
        var t2 := Add(BigSigma0(v.a), Majority(v.a, v.b, v.c));
        v := Working(Add(t1, t2), v.a, v.b, v.c, Add(v.d, t1), v.e, v.f, v.g);
        i := i + 1;
      }
      AddState(v);
    }

    method AddState(v: Working)
      requires state.Length == 8
      modifies state
      ensures state[..] == Added(old(state[..]), v)
    {
      hide Add;
      state[0], state[1], state[2], state[3] := Add(state[0], v.a), Add(state[1], v.b), Add(state[2], v.c), Add(state[3], v.d);
      state[4], state[5], state[6], state[7] := Add(state[4], v.e), Add(state[5], v.f), Add(state[6], v.g), Add(state[7], v.h);
    }

    method ExpandSchedule() returns (schedule: array<bv32>)
      requires data.Length == 64
      ensures fresh(schedule) && schedule.Length == 64
      ensures forall j | 0 <= j < 64 :: schedule[j] == Schedule(data[..], j)
    {
      hide SmallSigma0, SmallSigma1, BigEndian, Sum;
      schedule := new bv32[64];
      var i := 0;
      while i < 16
        invariant 0 <= i <= 16
        invariant forall j | 0 <= j < i :: schedule[j] == Schedule(data[..], j)
      {
        var j := i * 4;
        schedule[i] := BigEndian(data[j], data[j + 1], data[j + 2], data[j + 3]);
        i := i + 1;
      }
      while i < 64
        invariant 16 <= i <= 64
        invariant forall j | 0 <= j < i :: schedule[j] == Schedule(data[..], j)
      {
        SumReverses(schedule[i - 16], SmallSigma0(schedule[i - 15]), schedule[i - 7], SmallSigma1(schedule[i - 2]));
        schedule[i] := Sum(schedule[i - 16], SmallSigma0(schedule[i - 15]), schedule[i - 7], SmallSigma1(schedule[i - 2]));
        i := i + 1;
      }
    }

    method Update(bytes: seq<byte>)
      requires Valid()
      modifies this, data, state
      ensures Valid() && fed == old(fed) + bytes
    {
      hide Valid, Compress, Blocks;
      var i := 0;
      assert bytes[..0] == [];
      while i < |bytes|
        invariant 0 <= i <= |bytes|
        invariant Valid() && fed == old(fed) + bytes[..i]
      {
        assert bytes[..i + 1] == bytes[..i] + [bytes[i]];
        UpdateByte(bytes[i]);
        i := i + 1;
      }
      assert bytes[..i] == bytes;
    }

    method UpdateByte(b: byte)
      requires Valid()
      modifies this, data, state
      ensures Valid() && fed == old(fed) + [b]
    {
      hide BitsOf, Compress, Blocks;
      ghost var whole := fed[..|fed| - dataLength];
      ghost var block := fed[|fed| - dataLength..] + [b];
      data[dataLength] := b;
      dataLength := dataLength + 1;
      fed := fed + [b];
      assert data[..dataLength] == block;
      assert fed == whole + block;
      if dataLength == 64 {
        assert data[..] == block;
        CompressFull(whole);
      } else {
        assert fed[..|fed| - dataLength] == whole;
        assert fed[|fed| - dataLength..] == block;
      }
    }

    /** The buffer is full: compress it, count its bits and start it over. */
    method CompressFull(ghost whole: seq<byte>)
      requires data.Length == 64 && state.Length == 8
      requires |whole| % 64 == 0 && fed == whole + data[..]
      requires state[..] == Blocks(whole) && bitLength == BitsOf(|whole|)
      modifies this`bitLength, this`dataLength, state
      ensures Valid() && dataLength == 0
    {
      hide Holding, BitsOf, Compress, Blocks;
      HoldingFull(whole, data[..], bitLength);
      Transform();
      bitLength := (bitLength as int + 512) % U64_LIMIT;
      dataLength := 0;
    }

    /** Pad, add the length, compress what is left, and print the state. The object is spent afterwards. */
    method FinalHex() returns (hex: seq<byte>)
      requires Valid()
      modifies this, data, state
      ensures |old(fed)| < 0x2000_0000_0000_0000 ==> hex == Hex(Digest(old(fed)))
    {
      hide BitsOf, Compress, Blocks, LengthBytes, Hex, PaddingZeros, Zeros;
      ghost var m := fed;
      if |m| < 0x2000_0000_0000_0000 {
        AllBits(|m|, dataLength);
      }
      ghost var before := PadMarker();
      bitLength := (bitLength as int + dataLength * 8) % U64_LIMIT;
      PutLength();
      ghost var last := data[..];
      assert last == data[..56] + data[56..];
      Transform();
      BlocksStep(before, last);
      if |m| < 0x2000_0000_0000_0000 {
        assert Padded(m) == before + last;
      }
      hex := PrintState();
    }

    /** The marker byte and the zeros up to the length, compressing a block of their own when they need it.
        The result is what has been compressed by then. */
    method PadMarker() returns (ghost before: seq<byte>)
      requires Valid()
      modifies data, state
      ensures |before| % 64 == 0 && state[..] == Blocks(before)
      ensures before + data[..56] == fed + [0x80] + Zeros(PaddingZeros(|fed|))
    {
      hide Compress, Blocks, PaddingZeros;
      ghost var n := dataLength;
      ghost var rest := fed[|fed| - n..];
      PaddedBlocks(fed, n);
      before := fed[..|fed| - n];
      var index := dataLength;
      data[index] := 0x80;
      index := index + 1;
      if index > 56 {
        index := ZeroFill(index, 64);
        assert data[..] == rest + [0x80] + Zeros(63 - n);
        Transform();
        BlocksStep(before, rest + [0x80] + Zeros(63 - n));
        before := before + (rest + [0x80] + Zeros(63 - n));
        index := ZeroFill(0, 56);
        assert data[..56] == Zeros(56);
      } else {
        index := ZeroFill(index, 56);
        assert data[..56] == rest + [0x80] + Zeros(55 - n);
      }
    }

    method ZeroFill(from: nat, to: nat) returns (index: nat)
      requires data.Length == 64 && from <= to <= 64
      modifies data
      ensures index == to
      ensures forall j | 0 <= j < 64 :: data[j] == if from <= j < to then 0 else old(data[j])
    {
      index := from;
      while index < to
        invariant from <= index <= to
        invariant forall j | 0 <= j < 64 :: data[j] == if from <= j < index then 0 else old(data[j])
      {
        data[index] := 0;
        index := index + 1;
      }
    }

    method PutLength()
      requires data.Length == 64
      modifies data
      ensures data[..56] == old(data[..56]) && data[56..] == LengthBytes(bitLength)
    {
      hide Power2;
      var index := 56;
      while index < 64
        invariant 56 <= index <= 64
        invariant forall j | 0 <= j < 56 :: data[j] == old(data[j])
        invariant forall j | 56 <= j < index :: data[j] == LengthBytes(bitLength)[j - 56]
      {
        var i := index - 56;
        data[index] := (bitLength / Power2(56 - 8 * i)) % 256;
        index := index + 1;
      }
    }

    method PrintState() returns (hex: seq<byte>)
      requires state.Length == 8
      ensures hex == Hex(state[..])
    {
      hide HexWord;
      hex := [];
      var i := 0;
      while i < state.Length
        invariant 0 <= i <= 8
        invariant hex == Hex(state[..i])
      {
        assert state[..i + 1][..i] == state[..i];
        hex := hex + HexWord(state[i]);
        i := i + 1;
      }
      assert state[..i] == state[..];
    }
  }

  /** Hashing a file: read in buffers of 8192 bytes, which do not matter. */
  method HashFile(content: seq<byte>) returns (hex: seq<byte>)
    ensures |content| < 0x2000_0000_0000_0000 ==> hex == Hex(Digest(content))
  {
    hide *;
    var digest := new Hasher();
    var i := 0;
    while i < |content|
      invariant 0 <= i <= |content|
      invariant digest.Valid() && digest.fed == content[..i]
      invariant fresh(digest) && fresh(digest.data) && fresh(digest.state)
    {
      var count := if |content| - i < 8192 then |content| - i else 8192;
      digest.Update(content[i..i + count]);
      assert content[..i] + content[i..i + count] == content[..i + count];
      i := i + count;
    }
    assert content[..i] == content;
    hex := digest.FinalHex();
  }

  /** The result for any split of a message into pieces. */
  method HashPieces(pieces: seq<seq<byte>>) returns (hex: seq<byte>)
    ensures |Flatten(pieces)| < 0x2000_0000_0000_0000 ==> hex == Hex(Digest(Flatten(pieces)))
  {
    hide Hex, Digest, Hasher.Valid;
    var digest := new Hasher();
    var i := 0;
    while i < |pieces|
      invariant 0 <= i <= |pieces|
      invariant digest.Valid() && digest.fed == Flatten(pieces[..i])
      invariant fresh(digest) && fresh(digest.data) && fresh(digest.state)
    {
      assert pieces[..i + 1][..i] == pieces[..i];
      digest.Update(pieces[i]);
      i := i + 1;
    }
    assert pieces[..i] == pieces;
    hex := digest.FinalHex();
  }
}
