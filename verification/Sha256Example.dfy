/** The example of one block that is published with FIPS 180-4: the three letters "abc", with the message schedule and the
    working variables after each round. */
module Sha256Example {
  import opened Bytes
  import opened Sha256

  /** The words of the message schedule. */
  function ScheduleWord(t: nat): bv32
    requires t < 64
  {
    if t < 16 then
      match t {
        case 0 => 0x61626380
        case 1 => 0x00000000
        case 2 => 0x00000000
        case 3 => 0x00000000
        case 4 => 0x00000000
        case 5 => 0x00000000
        case 6 => 0x00000000
        case 7 => 0x00000000
        case 8 => 0x00000000
        case 9 => 0x00000000
        case 10 => 0x00000000
        case 11 => 0x00000000
        case 12 => 0x00000000
        case 13 => 0x00000000
        case 14 => 0x00000000
        case _ => 0x00000018
      }
    else if t < 32 then
      match t {
        case 16 => 0x61626380
        case 17 => 0x000f0000
        case 18 => 0x7da86405
        case 19 => 0x600003c6
        case 20 => 0x3e9d7b78
        case 21 => 0x0183fc00
        case 22 => 0x12dcbfdb
        case 23 => 0xe2e2c38e
        case 24 => 0xc8215c1a
        case 25 => 0xb73679a2
        case 26 => 0xe5bc3909
        case 27 => 0x32663c5b
        case 28 => 0x9d209d67
        case 29 => 0xec8726cb
        case 30 => 0x702138a4
        case _ => 0xd3b7973b
      }
    else if t < 48 then
      match t {
        case 32 => 0x93f5997f
        case 33 => 0x3b68ba73
        case 34 => 0xaff4ffc1
        case 35 => 0xf10a5c62
        case 36 => 0x0a8b3996
        case 37 => 0x72af830a
        case 38 => 0x9409e33e
        case 39 => 0x24641522
        case 40 => 0x9f47bf94
        case 41 => 0xf0a64f5a
        case 42 => 0x3e246a79
        case 43 => 0x27333ba3
        case 44 => 0x0c4763f2
        case 45 => 0x840abf27
        case 46 => 0x7a290d5d
        case _ => 0x065c43da
      }
    else
      match t {
        case 48 => 0xfb3e89cb
        case 49 => 0xcc7617db
        case 50 => 0xb9e66c34
        case 51 => 0xa9993667
        case 52 => 0x84badedd
        case 53 => 0xc21462bc
        case 54 => 0x1487472c
        case 55 => 0xb20f7a99
        case 56 => 0xef57b9cd
        case 57 => 0xebe6b238
        case 58 => 0x9fe3095e
        case 59 => 0x78bc8d4b
        case 60 => 0xa43fcf15
        case 61 => 0x668b2ff8
        case 62 => 0xeeaba2cc
        case _ => 0x12b1edeb
      }
  }

  /** The working variable a, from three rounds before the first on. */
  function VariableA(t: nat): bv32
    requires t < 68
  {
    if t < 16 then
      match t {
        case 0 => 0xa54ff53a
        case 1 => 0x3c6ef372
        case 2 => 0xbb67ae85
        case 3 => 0x6a09e667
        case 4 => 0x5d6aebcd
        case 5 => 0x5a6ad9ad
        case 6 => 0xc8c347a7
        case 7 => 0xd550f666
        case 8 => 0x04409a6a
        case 9 => 0x2b4209f5
        case 10 => 0xe5030380
        case 11 => 0x85a07b5f
        case 12 => 0x8e04ecb9
        case 13 => 0x8c87346b
        case 14 => 0x4798a3f4
        case _ => 0xf71fc5a9
      }
    else if t < 32 then
      match t {
        case 16 => 0x87912990
        case 17 => 0xd932eb16
        case 18 => 0xc0645fde
        case 19 => 0xb0fa238e
        case 20 => 0x21da9a9b
        case 21 => 0xc2fbd9d1
        case 22 => 0xfe777bbf
        case 23 => 0xe1f20c33
        case 24 => 0x9dc68b63
        case 25 => 0xc2606d6d
        case 26 => 0xa7a3623f
        case 27 => 0xc5d53d8d
        case 28 => 0x1c2c2838
        case 29 => 0xcde8037d
        case 30 => 0xb62ec4bc
        case _ => 0x77d37528
      }
    else if t < 48 then
      match t {
        case 32 => 0x363482c9
        case 33 => 0xa0060b30
        case 34 => 0xea992a22
        case 35 => 0x73b33bf5
        case 36 => 0x98e12507
        case 37 => 0xfe604df5
        case 38 => 0xa9a7738c
        case 39 => 0x65a0cfe4
        case 40 => 0x41a65cb1
        case 41 => 0x34df1604
        case 42 => 0x6dc57a8a
        case 43 => 0x79ea687a
        case 44 => 0xd6670766
        case 45 => 0xdf46652f
        case 46 => 0x17aa0dfe
        case _ => 0x9d4baf93
      }
    else
      match t {
        case 48 => 0x26628815
        case 49 => 0x72ab4b91
        case 50 => 0xa14c14b0
        case 51 => 0x4172328d
        case 52 => 0x05757ceb
        case 53 => 0xf11bfaa8
        case 54 => 0x7a0508a1
        case 55 => 0x886e7a22
        case 56 => 0x101fd28f
        case 57 => 0xf5702fdb
        case 58 => 0x3ec45cdb
        case 59 => 0x38cc9913
        case 60 => 0xfcd1887b
        case 61 => 0xc062d46f
        case 62 => 0xffb70472
        case 63 => 0xb6ae8fff
        case 64 => 0xb85e2ce9
        case 65 => 0x04d24d6c
        case 66 => 0xd39a2165
        case _ => 0x506e3058
      }
  }

  /** And the working variable e. */
  function VariableE(t: nat): bv32
    requires t < 68
  {
    if t < 16 then
      match t {
        case 0 => 0x5be0cd19
        case 1 => 0x1f83d9ab
        case 2 => 0x9b05688c
        case 3 => 0x510e527f
        case 4 => 0xfa2a4622
        case 5 => 0x78ce7989
        case 6 => 0xf92939eb
        case 7 => 0x24e00850
        case 8 => 0x43ada245
        case 9 => 0x714260ad
        case 10 => 0x9b27a401
        case 11 => 0x0c657a79
        case 12 => 0x32ca2d8c
        case 13 => 0x1cc92596
        case 14 => 0x436b23e8
        case _ => 0x816fd6e9
      }
    else if t < 32 then
      match t {
        case 16 => 0x1e578218
        case 17 => 0x745a48de
        case 18 => 0x0b92f20c
        case 19 => 0x07590dcd
        case 20 => 0x8034229c
        case 21 => 0x846ee454
        case 22 => 0xcc899961
        case 23 => 0xb0638179
        case 24 => 0x8ada8930
        case 25 => 0xe1257970
        case 26 => 0x49f5114a
        case 27 => 0xaa47c347
        case 28 => 0x2823ef91
        case 29 => 0x14383d8e
        case 30 => 0xc74c6516
        case _ => 0xedffbff8
      }
    else if t < 48 then
      match t {
        case 32 => 0x6112a3b7
        case 33 => 0xade79437
        case 34 => 0x0109ab3a
        case 35 => 0xba591112
        case 36 => 0x9cd9f5f6
        case 37 => 0x59249dd3
        case 38 => 0x085f3833
        case 39 => 0xf4b002d6
        case 40 => 0x0772a26b
        case 41 => 0xa507a53d
        case 42 => 0xf0781bc8
        case 43 => 0x1efbc0a0
        case 44 => 0x26352d63
        case 45 => 0x838b2711
        case 46 => 0xdecd4715
        case _ => 0xfda24c2e
      }
    else
      match t {
        case 48 => 0xa80f11f0
        case 49 => 0xb7755da1
        case 50 => 0xd57b94a9
        case 51 => 0xfecf0bc6
        case 52 => 0xbd714038
        case 53 => 0x6e5c390c
        case 54 => 0x52f1ccf7
        case 55 => 0x49231c1e
        case 56 => 0x529e7d00
        case 57 => 0x9f4787c3
        case 58 => 0xe50e1b4f
        case 59 => 0x54cb266b
        case 60 => 0x9b5e906c
        case 61 => 0x7e44008e
        case 62 => 0x6d83bfc6
        case 63 => 0xb21bad3d
        case 64 => 0x961f4894
        case 65 => 0x948d25b6
        case 66 => 0xfb121210
        case _ => 0x5ef50f24
      }
  }

  /** The other variables are those of earlier rounds. */
  function After(t: nat): Working
    requires t <= 64
  {
    Working(VariableA(t + 3), VariableA(t + 2), VariableA(t + 1), VariableA(t),
            VariableE(t + 3), VariableE(t + 2), VariableE(t + 1), VariableE(t))
  }

  function Message(): seq<byte> {
    Ascii("abc")
  }

  function Block(): (b: seq<byte>)
    ensures |b| == 64
  {
    [0x61, 0x62, 0x63, 0x80] + Zeros(59) + [24]
  }

  lemma MessagePadded()
    ensures Padded(Message()) == Block()
  {
    LengthIs();
    assert Message() == [0x61, 0x62, 0x63];
    assert Zeros(59) == Zeros(52) + Zeros(7);
  }

  lemma LengthIs()
    ensures LengthBytes(24) == Zeros(7) + [24]
  {
    forall i | 0 <= i < 8
      ensures LengthBytes(24)[i] == if i < 7 then 0 else 24
    {
      LengthAt(i);
    }
  }

  lemma LengthAt(i: nat)
    requires i < 8
    ensures (24 / Power2(56 - 8 * i)) % 256 == if i < 7 then 0 else 24
  {
    if i < 7 {
      Power2Grows(5, 56 - 8 * i);
      NoQuotient(Power2(56 - 8 * i));
    }
  }

  lemma NoQuotient(p: nat)
    requires p > 24
    ensures 24 / p == 0
  {
  }

  lemma {:induction false} Power2Grows(a: nat, b: nat)
    requires a <= b
    ensures Power2(a) <= Power2(b)
  {
    if a < b {
      Power2Grows(a, b - 1);
    }
  }

  lemma FirstWords(t: nat)
    requires t < 16
    ensures Schedule(Block(), t) == ScheduleWord(t)
  {
    hide BigEndian;
    EndianWords();
    BlockAt(4 * t);
    BlockAt(4 * t + 1);
    BlockAt(4 * t + 2);
    BlockAt(4 * t + 3);
    hide Block;
  }

  lemma BlockAt(j: nat)
    requires j < 64
    ensures Block()[j] == if j == 0 then 0x61 else if j == 1 then 0x62 else if j == 2 then 0x63 else if j == 3 then 0x80 else if j == 63 then 24 else 0
  {
  }

  lemma EndianWords()
    ensures BigEndian(0x61, 0x62, 0x63, 0x80) == 0x61626380 && BigEndian(0, 0, 0, 0) == 0 && BigEndian(0, 0, 0, 24) == 24
  {
  }

  lemma Words16(t: nat)
    requires 16 <= t < 24
    ensures Sum(SmallSigma1(ScheduleWord(t - 2)), ScheduleWord(t - 7), SmallSigma0(ScheduleWord(t - 15)), ScheduleWord(t - 16)) == ScheduleWord(t)
  {
  }

  lemma Words24(t: nat)
    requires 24 <= t < 32
    ensures Sum(SmallSigma1(ScheduleWord(t - 2)), ScheduleWord(t - 7), SmallSigma0(ScheduleWord(t - 15)), ScheduleWord(t - 16)) == ScheduleWord(t)
  {
  }

  lemma Words32(t: nat)
    requires 32 <= t < 40
    ensures Sum(SmallSigma1(ScheduleWord(t - 2)), ScheduleWord(t - 7), SmallSigma0(ScheduleWord(t - 15)), ScheduleWord(t - 16)) == ScheduleWord(t)
  {
  }

  lemma Words40(t: nat)
    requires 40 <= t < 48
    ensures Sum(SmallSigma1(ScheduleWord(t - 2)), ScheduleWord(t - 7), SmallSigma0(ScheduleWord(t - 15)), ScheduleWord(t - 16)) == ScheduleWord(t)
  {
  }

  lemma Words48(t: nat)
    requires 48 <= t < 56
    ensures Sum(SmallSigma1(ScheduleWord(t - 2)), ScheduleWord(t - 7), SmallSigma0(ScheduleWord(t - 15)), ScheduleWord(t - 16)) == ScheduleWord(t)
  {
  }

  lemma Words56(t: nat)
    requires 56 <= t < 60
    ensures Sum(SmallSigma1(ScheduleWord(t - 2)), ScheduleWord(t - 7), SmallSigma0(ScheduleWord(t - 15)), ScheduleWord(t - 16)) == ScheduleWord(t)
  {
  }

  lemma Words60(t: nat)
    requires 60 <= t < 64
    ensures Sum(SmallSigma1(ScheduleWord(t - 2)), ScheduleWord(t - 7), SmallSigma0(ScheduleWord(t - 15)), ScheduleWord(t - 16)) == ScheduleWord(t)
  {
  }

  lemma {:induction false} WordsAre(t: nat)
    requires t < 64
    ensures Schedule(Block(), t) == ScheduleWord(t)
  {
    hide Block, ScheduleWord, SmallSigma0, SmallSigma1, Sum, BigEndian;
    if t < 16 {
      FirstWords(t);
    } else {
      WordsAre(t - 2);
      WordsAre(t - 7);
      WordsAre(t - 15);
      WordsAre(t - 16);
      LaterWords(t);
    }
  }

  lemma LaterWords(t: nat)
    requires 16 <= t < 64
    ensures Sum(SmallSigma1(ScheduleWord(t - 2)), ScheduleWord(t - 7), SmallSigma0(ScheduleWord(t - 15)), ScheduleWord(t - 16)) == ScheduleWord(t)
  {
    hide *;
    if t < 24 {
      Words16(t);
    } else if t < 32 {
      Words24(t);
    } else if t < 40 {
      Words32(t);
    } else if t < 48 {
      Words40(t);
    } else if t < 56 {
      Words48(t);
    } else if t < 60 {
      Words56(t);
    } else {
      Words60(t);
    }
  }

  lemma Rounds0()
    ensures Round(After(0), Constant(0), ScheduleWord(0)) == After(1)
    ensures Round(After(1), Constant(1), ScheduleWord(1)) == After(2)
    ensures Round(After(2), Constant(2), ScheduleWord(2)) == After(3)
    ensures Round(After(3), Constant(3), ScheduleWord(3)) == After(4)
  {
    hide Round;
    Results0();
  }

  lemma Results0()
    ensures Round(Working(0x6a09e667, 0xbb67ae85, 0x3c6ef372, 0xa54ff53a, 0x510e527f, 0x9b05688c, 0x1f83d9ab, 0x5be0cd19), 0x428a2f98, 0x61626380) ==
              Working(0x5d6aebcd, 0x6a09e667, 0xbb67ae85, 0x3c6ef372, 0xfa2a4622, 0x510e527f, 0x9b05688c, 0x1f83d9ab)
    ensures Round(Working(0x5d6aebcd, 0x6a09e667, 0xbb67ae85, 0x3c6ef372, 0xfa2a4622, 0x510e527f, 0x9b05688c, 0x1f83d9ab), 0x71374491, 0x00000000) ==
              Working(0x5a6ad9ad, 0x5d6aebcd, 0x6a09e667, 0xbb67ae85, 0x78ce7989, 0xfa2a4622, 0x510e527f, 0x9b05688c)
    ensures Round(Working(0x5a6ad9ad, 0x5d6aebcd, 0x6a09e667, 0xbb67ae85, 0x78ce7989, 0xfa2a4622, 0x510e527f, 0x9b05688c), 0xb5c0fbcf, 0x00000000) ==
              Working(0xc8c347a7, 0x5a6ad9ad, 0x5d6aebcd, 0x6a09e667, 0xf92939eb, 0x78ce7989, 0xfa2a4622, 0x510e527f)
    ensures Round(Working(0xc8c347a7, 0x5a6ad9ad, 0x5d6aebcd, 0x6a09e667, 0xf92939eb, 0x78ce7989, 0xfa2a4622, 0x510e527f), 0xe9b5dba5, 0x00000000) ==
              Working(0xd550f666, 0xc8c347a7, 0x5a6ad9ad, 0x5d6aebcd, 0x24e00850, 0xf92939eb, 0x78ce7989, 0xfa2a4622)
  {
  }

  lemma Rounds4()
    ensures Round(After(4), Constant(4), ScheduleWord(4)) == After(5)
    ensures Round(After(5), Constant(5), ScheduleWord(5)) == After(6)
    ensures Round(After(6), Constant(6), ScheduleWord(6)) == After(7)
    ensures Round(After(7), Constant(7), ScheduleWord(7)) == After(8)
  {
    hide Round;
    Results4();
  }

  lemma Results4()
    ensures Round(Working(0xd550f666, 0xc8c347a7, 0x5a6ad9ad, 0x5d6aebcd, 0x24e00850, 0xf92939eb, 0x78ce7989, 0xfa2a4622), 0x3956c25b, 0x00000000) ==
              Working(0x04409a6a, 0xd550f666, 0xc8c347a7, 0x5a6ad9ad, 0x43ada245, 0x24e00850, 0xf92939eb, 0x78ce7989)
    ensures Round(Working(0x04409a6a, 0xd550f666, 0xc8c347a7, 0x5a6ad9ad, 0x43ada245, 0x24e00850, 0xf92939eb, 0x78ce7989), 0x59f111f1, 0x00000000) ==
              Working(0x2b4209f5, 0x04409a6a, 0xd550f666, 0xc8c347a7, 0x714260ad, 0x43ada245, 0x24e00850, 0xf92939eb)
    ensures Round(Working(0x2b4209f5, 0x04409a6a, 0xd550f666, 0xc8c347a7, 0x714260ad, 0x43ada245, 0x24e00850, 0xf92939eb), 0x923f82a4, 0x00000000) ==
              Working(0xe5030380, 0x2b4209f5, 0x04409a6a, 0xd550f666, 0x9b27a401, 0x714260ad, 0x43ada245, 0x24e00850)
    ensures Round(Working(0xe5030380, 0x2b4209f5, 0x04409a6a, 0xd550f666, 0x9b27a401, 0x714260ad, 0x43ada245, 0x24e00850), 0xab1c5ed5, 0x00000000) ==
              Working(0x85a07b5f, 0xe5030380, 0x2b4209f5, 0x04409a6a, 0x0c657a79, 0x9b27a401, 0x714260ad, 0x43ada245)
  {
  }

  lemma Rounds8()
    ensures Round(After(8), Constant(8), ScheduleWord(8)) == After(9)
    ensures Round(After(9), Constant(9), ScheduleWord(9)) == After(10)
    ensures Round(After(10), Constant(10), ScheduleWord(10)) == After(11)
    ensures Round(After(11), Constant(11), ScheduleWord(11)) == After(12)
  {
    hide Round;
    Results8();
  }

  lemma Results8()
    ensures Round(Working(0x85a07b5f, 0xe5030380, 0x2b4209f5, 0x04409a6a, 0x0c657a79, 0x9b27a401, 0x714260ad, 0x43ada245), 0xd807aa98, 0x00000000) ==
              Working(0x8e04ecb9, 0x85a07b5f, 0xe5030380, 0x2b4209f5, 0x32ca2d8c, 0x0c657a79, 0x9b27a401, 0x714260ad)
    ensures Round(Working(0x8e04ecb9, 0x85a07b5f, 0xe5030380, 0x2b4209f5, 0x32ca2d8c, 0x0c657a79, 0x9b27a401, 0x714260ad), 0x12835b01, 0x00000000) ==
              Working(0x8c87346b, 0x8e04ecb9, 0x85a07b5f, 0xe5030380, 0x1cc92596, 0x32ca2d8c, 0x0c657a79, 0x9b27a401)
    ensures Round(Working(0x8c87346b, 0x8e04ecb9, 0x85a07b5f, 0xe5030380, 0x1cc92596, 0x32ca2d8c, 0x0c657a79, 0x9b27a401), 0x243185be, 0x00000000) ==
              Working(0x4798a3f4, 0x8c87346b, 0x8e04ecb9, 0x85a07b5f, 0x436b23e8, 0x1cc92596, 0x32ca2d8c, 0x0c657a79)
    ensures Round(Working(0x4798a3f4, 0x8c87346b, 0x8e04ecb9, 0x85a07b5f, 0x436b23e8, 0x1cc92596, 0x32ca2d8c, 0x0c657a79), 0x550c7dc3, 0x00000000) ==
              Working(0xf71fc5a9, 0x4798a3f4, 0x8c87346b, 0x8e04ecb9, 0x816fd6e9, 0x436b23e8, 0x1cc92596, 0x32ca2d8c)
  {
  }

  lemma Rounds12()
    ensures Round(After(12), Constant(12), ScheduleWord(12)) == After(13)
    ensures Round(After(13), Constant(13), ScheduleWord(13)) == After(14)
    ensures Round(After(14), Constant(14), ScheduleWord(14)) == After(15)
    ensures Round(After(15), Constant(15), ScheduleWord(15)) == After(16)
  {
    hide Round;
    Results12();
  }

  lemma Results12()
    ensures Round(Working(0xf71fc5a9, 0x4798a3f4, 0x8c87346b, 0x8e04ecb9, 0x816fd6e9, 0x436b23e8, 0x1cc92596, 0x32ca2d8c), 0x72be5d74, 0x00000000) ==
              Working(0x87912990, 0xf71fc5a9, 0x4798a3f4, 0x8c87346b, 0x1e578218, 0x816fd6e9, 0x436b23e8, 0x1cc92596)
    ensures Round(Working(0x87912990, 0xf71fc5a9, 0x4798a3f4, 0x8c87346b, 0x1e578218, 0x816fd6e9, 0x436b23e8, 0x1cc92596), 0x80deb1fe, 0x00000000) ==
              Working(0xd932eb16, 0x87912990, 0xf71fc5a9, 0x4798a3f4, 0x745a48de, 0x1e578218, 0x816fd6e9, 0x436b23e8)
    ensures Round(Working(0xd932eb16, 0x87912990, 0xf71fc5a9, 0x4798a3f4, 0x745a48de, 0x1e578218, 0x816fd6e9, 0x436b23e8), 0x9bdc06a7, 0x00000000) ==
              Working(0xc0645fde, 0xd932eb16, 0x87912990, 0xf71fc5a9, 0x0b92f20c, 0x745a48de, 0x1e578218, 0x816fd6e9)
    ensures Round(Working(0xc0645fde, 0xd932eb16, 0x87912990, 0xf71fc5a9, 0x0b92f20c, 0x745a48de, 0x1e578218, 0x816fd6e9), 0xc19bf174, 0x00000018) ==
              Working(0xb0fa238e, 0xc0645fde, 0xd932eb16, 0x87912990, 0x07590dcd, 0x0b92f20c, 0x745a48de, 0x1e578218)
  {
  }

  lemma Rounds16()
    ensures Round(After(16), Constant(16), ScheduleWord(16)) == After(17)
    ensures Round(After(17), Constant(17), ScheduleWord(17)) == After(18)
    ensures Round(After(18), Constant(18), ScheduleWord(18)) == After(19)
    ensures Round(After(19), Constant(19), ScheduleWord(19)) == After(20)
  {
    hide Round;
    Results16();
  }

  lemma Results16()
    ensures Round(Working(0xb0fa238e, 0xc0645fde, 0xd932eb16, 0x87912990, 0x07590dcd, 0x0b92f20c, 0x745a48de, 0x1e578218), 0xe49b69c1, 0x61626380) ==
              Working(0x21da9a9b, 0xb0fa238e, 0xc0645fde, 0xd932eb16, 0x8034229c, 0x07590dcd, 0x0b92f20c, 0x745a48de)
    ensures Round(Working(0x21da9a9b, 0xb0fa238e, 0xc0645fde, 0xd932eb16, 0x8034229c, 0x07590dcd, 0x0b92f20c, 0x745a48de), 0xefbe4786, 0x000f0000) ==
              Working(0xc2fbd9d1, 0x21da9a9b, 0xb0fa238e, 0xc0645fde, 0x846ee454, 0x8034229c, 0x07590dcd, 0x0b92f20c)
    ensures Round(Working(0xc2fbd9d1, 0x21da9a9b, 0xb0fa238e, 0xc0645fde, 0x846ee454, 0x8034229c, 0x07590dcd, 0x0b92f20c), 0x0fc19dc6, 0x7da86405) ==
              Working(0xfe777bbf, 0xc2fbd9d1, 0x21da9a9b, 0xb0fa238e, 0xcc899961, 0x846ee454, 0x8034229c, 0x07590dcd)
    ensures Round(Working(0xfe777bbf, 0xc2fbd9d1, 0x21da9a9b, 0xb0fa238e, 0xcc899961, 0x846ee454, 0x8034229c, 0x07590dcd), 0x240ca1cc, 0x600003c6) ==
              Working(0xe1f20c33, 0xfe777bbf, 0xc2fbd9d1, 0x21da9a9b, 0xb0638179, 0xcc899961, 0x846ee454, 0x8034229c)
  {
  }

  lemma Rounds20()
    ensures Round(After(20), Constant(20), ScheduleWord(20)) == After(21)
    ensures Round(After(21), Constant(21), ScheduleWord(21)) == After(22)
    ensures Round(After(22), Constant(22), ScheduleWord(22)) == After(23)
    ensures Round(After(23), Constant(23), ScheduleWord(23)) == After(24)
  {
    hide Round;
    Results20();
  }

  lemma Results20()
    ensures Round(Working(0xe1f20c33, 0xfe777bbf, 0xc2fbd9d1, 0x21da9a9b, 0xb0638179, 0xcc899961, 0x846ee454, 0x8034229c), 0x2de92c6f, 0x3e9d7b78) ==
              Working(0x9dc68b63, 0xe1f20c33, 0xfe777bbf, 0xc2fbd9d1, 0x8ada8930, 0xb0638179, 0xcc899961, 0x846ee454)
    ensures Round(Working(0x9dc68b63, 0xe1f20c33, 0xfe777bbf, 0xc2fbd9d1, 0x8ada8930, 0xb0638179, 0xcc899961, 0x846ee454), 0x4a7484aa, 0x0183fc00) ==
              Working(0xc2606d6d, 0x9dc68b63, 0xe1f20c33, 0xfe777bbf, 0xe1257970, 0x8ada8930, 0xb0638179, 0xcc899961)
    ensures Round(Working(0xc2606d6d, 0x9dc68b63, 0xe1f20c33, 0xfe777bbf, 0xe1257970, 0x8ada8930, 0xb0638179, 0xcc899961), 0x5cb0a9dc, 0x12dcbfdb) ==
              Working(0xa7a3623f, 0xc2606d6d, 0x9dc68b63, 0xe1f20c33, 0x49f5114a, 0xe1257970, 0x8ada8930, 0xb0638179)
    ensures Round(Working(0xa7a3623f, 0xc2606d6d, 0x9dc68b63, 0xe1f20c33, 0x49f5114a, 0xe1257970, 0x8ada8930, 0xb0638179), 0x76f988da, 0xe2e2c38e) ==
              Working(0xc5d53d8d, 0xa7a3623f, 0xc2606d6d, 0x9dc68b63, 0xaa47c347, 0x49f5114a, 0xe1257970, 0x8ada8930)
  {
  }

  lemma Rounds24()
    ensures Round(After(24), Constant(24), ScheduleWord(24)) == After(25)
    ensures Round(After(25), Constant(25), ScheduleWord(25)) == After(26)
    ensures Round(After(26), Constant(26), ScheduleWord(26)) == After(27)
    ensures Round(After(27), Constant(27), ScheduleWord(27)) == After(28)
  {
    hide Round;
    Results24();
  }

  lemma Results24()
    ensures Round(Working(0xc5d53d8d, 0xa7a3623f, 0xc2606d6d, 0x9dc68b63, 0xaa47c347, 0x49f5114a, 0xe1257970, 0x8ada8930), 0x983e5152, 0xc8215c1a) ==
              Working(0x1c2c2838, 0xc5d53d8d, 0xa7a3623f, 0xc2606d6d, 0x2823ef91, 0xaa47c347, 0x49f5114a, 0xe1257970)
    ensures Round(Working(0x1c2c2838, 0xc5d53d8d, 0xa7a3623f, 0xc2606d6d, 0x2823ef91, 0xaa47c347, 0x49f5114a, 0xe1257970), 0xa831c66d, 0xb73679a2) ==
              Working(0xcde8037d, 0x1c2c2838, 0xc5d53d8d, 0xa7a3623f, 0x14383d8e, 0x2823ef91, 0xaa47c347, 0x49f5114a)
    ensures Round(Working(0xcde8037d, 0x1c2c2838, 0xc5d53d8d, 0xa7a3623f, 0x14383d8e, 0x2823ef91, 0xaa47c347, 0x49f5114a), 0xb00327c8, 0xe5bc3909) ==
              Working(0xb62ec4bc, 0xcde8037d, 0x1c2c2838, 0xc5d53d8d, 0xc74c6516, 0x14383d8e, 0x2823ef91, 0xaa47c347)
    ensures Round(Working(0xb62ec4bc, 0xcde8037d, 0x1c2c2838, 0xc5d53d8d, 0xc74c6516, 0x14383d8e, 0x2823ef91, 0xaa47c347), 0xbf597fc7, 0x32663c5b) ==
              Working(0x77d37528, 0xb62ec4bc, 0xcde8037d, 0x1c2c2838, 0xedffbff8, 0xc74c6516, 0x14383d8e, 0x2823ef91)
  {
  }

  lemma Rounds28()
    ensures Round(After(28), Constant(28), ScheduleWord(28)) == After(29)
    ensures Round(After(29), Constant(29), ScheduleWord(29)) == After(30)
    ensures Round(After(30), Constant(30), ScheduleWord(30)) == After(31)
    ensures Round(After(31), Constant(31), ScheduleWord(31)) == After(32)
  {
    hide Round;
    Results28();
  }

  lemma Results28()
    ensures Round(Working(0x77d37528, 0xb62ec4bc, 0xcde8037d, 0x1c2c2838, 0xedffbff8, 0xc74c6516, 0x14383d8e, 0x2823ef91), 0xc6e00bf3, 0x9d209d67) ==
              Working(0x363482c9, 0x77d37528, 0xb62ec4bc, 0xcde8037d, 0x6112a3b7, 0xedffbff8, 0xc74c6516, 0x14383d8e)
    ensures Round(Working(0x363482c9, 0x77d37528, 0xb62ec4bc, 0xcde8037d, 0x6112a3b7, 0xedffbff8, 0xc74c6516, 0x14383d8e), 0xd5a79147, 0xec8726cb) ==
              Working(0xa0060b30, 0x363482c9, 0x77d37528, 0xb62ec4bc, 0xade79437, 0x6112a3b7, 0xedffbff8, 0xc74c6516)
    ensures Round(Working(0xa0060b30, 0x363482c9, 0x77d37528, 0xb62ec4bc, 0xade79437, 0x6112a3b7, 0xedffbff8, 0xc74c6516), 0x06ca6351, 0x702138a4) ==
              Working(0xea992a22, 0xa0060b30, 0x363482c9, 0x77d37528, 0x0109ab3a, 0xade79437, 0x6112a3b7, 0xedffbff8)
    ensures Round(Working(0xea992a22, 0xa0060b30, 0x363482c9, 0x77d37528, 0x0109ab3a, 0xade79437, 0x6112a3b7, 0xedffbff8), 0x14292967, 0xd3b7973b) ==
              Working(0x73b33bf5, 0xea992a22, 0xa0060b30, 0x363482c9, 0xba591112, 0x0109ab3a, 0xade79437, 0x6112a3b7)
  {
  }

  lemma Rounds32()
    ensures Round(After(32), Constant(32), ScheduleWord(32)) == After(33)
    ensures Round(After(33), Constant(33), ScheduleWord(33)) == After(34)
    ensures Round(After(34), Constant(34), ScheduleWord(34)) == After(35)
    ensures Round(After(35), Constant(35), ScheduleWord(35)) == After(36)
  {
    hide Round;
    Results32();
  }

  lemma Results32()
    ensures Round(Working(0x73b33bf5, 0xea992a22, 0xa0060b30, 0x363482c9, 0xba591112, 0x0109ab3a, 0xade79437, 0x6112a3b7), 0x27b70a85, 0x93f5997f) ==
              Working(0x98e12507, 0x73b33bf5, 0xea992a22, 0xa0060b30, 0x9cd9f5f6, 0xba591112, 0x0109ab3a, 0xade79437)
    ensures Round(Working(0x98e12507, 0x73b33bf5, 0xea992a22, 0xa0060b30, 0x9cd9f5f6, 0xba591112, 0x0109ab3a, 0xade79437), 0x2e1b2138, 0x3b68ba73) ==
              Working(0xfe604df5, 0x98e12507, 0x73b33bf5, 0xea992a22, 0x59249dd3, 0x9cd9f5f6, 0xba591112, 0x0109ab3a)
    ensures Round(Working(0xfe604df5, 0x98e12507, 0x73b33bf5, 0xea992a22, 0x59249dd3, 0x9cd9f5f6, 0xba591112, 0x0109ab3a), 0x4d2c6dfc, 0xaff4ffc1) ==
              Working(0xa9a7738c, 0xfe604df5, 0x98e12507, 0x73b33bf5, 0x085f3833, 0x59249dd3, 0x9cd9f5f6, 0xba591112)
    ensures Round(Working(0xa9a7738c, 0xfe604df5, 0x98e12507, 0x73b33bf5, 0x085f3833, 0x59249dd3, 0x9cd9f5f6, 0xba591112), 0x53380d13, 0xf10a5c62) ==
              Working(0x65a0cfe4, 0xa9a7738c, 0xfe604df5, 0x98e12507, 0xf4b002d6, 0x085f3833, 0x59249dd3, 0x9cd9f5f6)
  {
  }

  lemma Rounds36()
    ensures Round(After(36), Constant(36), ScheduleWord(36)) == After(37)
    ensures Round(After(37), Constant(37), ScheduleWord(37)) == After(38)
    ensures Round(After(38), Constant(38), ScheduleWord(38)) == After(39)
    ensures Round(After(39), Constant(39), ScheduleWord(39)) == After(40)
  {
    hide Round;
    Results36();
  }

  lemma Results36()
    ensures Round(Working(0x65a0cfe4, 0xa9a7738c, 0xfe604df5, 0x98e12507, 0xf4b002d6, 0x085f3833, 0x59249dd3, 0x9cd9f5f6), 0x650a7354, 0x0a8b3996) ==
              Working(0x41a65cb1, 0x65a0cfe4, 0xa9a7738c, 0xfe604df5, 0x0772a26b, 0xf4b002d6, 0x085f3833, 0x59249dd3)
    ensures Round(Working(0x41a65cb1, 0x65a0cfe4, 0xa9a7738c, 0xfe604df5, 0x0772a26b, 0xf4b002d6, 0x085f3833, 0x59249dd3), 0x766a0abb, 0x72af830a) ==
              Working(0x34df1604, 0x41a65cb1, 0x65a0cfe4, 0xa9a7738c, 0xa507a53d, 0x0772a26b, 0xf4b002d6, 0x085f3833)
    ensures Round(Working(0x34df1604, 0x41a65cb1, 0x65a0cfe4, 0xa9a7738c, 0xa507a53d, 0x0772a26b, 0xf4b002d6, 0x085f3833), 0x81c2c92e, 0x9409e33e) ==
              Working(0x6dc57a8a, 0x34df1604, 0x41a65cb1, 0x65a0cfe4, 0xf0781bc8, 0xa507a53d, 0x0772a26b, 0xf4b002d6)
    ensures Round(Working(0x6dc57a8a, 0x34df1604, 0x41a65cb1, 0x65a0cfe4, 0xf0781bc8, 0xa507a53d, 0x0772a26b, 0xf4b002d6), 0x92722c85, 0x24641522) ==
              Working(0x79ea687a, 0x6dc57a8a, 0x34df1604, 0x41a65cb1, 0x1efbc0a0, 0xf0781bc8, 0xa507a53d, 0x0772a26b)
  {
  }

  lemma Rounds40()
    ensures Round(After(40), Constant(40), ScheduleWord(40)) == After(41)
    ensures Round(After(41), Constant(41), ScheduleWord(41)) == After(42)
    ensures Round(After(42), Constant(42), ScheduleWord(42)) == After(43)
    ensures Round(After(43), Constant(43), ScheduleWord(43)) == After(44)
  {
    hide Round;
    Results40();
  }

  lemma Results40()
    ensures Round(Working(0x79ea687a, 0x6dc57a8a, 0x34df1604, 0x41a65cb1, 0x1efbc0a0, 0xf0781bc8, 0xa507a53d, 0x0772a26b), 0xa2bfe8a1, 0x9f47bf94) ==
              Working(0xd6670766, 0x79ea687a, 0x6dc57a8a, 0x34df1604, 0x26352d63, 0x1efbc0a0, 0xf0781bc8, 0xa507a53d)
    ensures Round(Working(0xd6670766, 0x79ea687a, 0x6dc57a8a, 0x34df1604, 0x26352d63, 0x1efbc0a0, 0xf0781bc8, 0xa507a53d), 0xa81a664b, 0xf0a64f5a) ==
              Working(0xdf46652f, 0xd6670766, 0x79ea687a, 0x6dc57a8a, 0x838b2711, 0x26352d63, 0x1efbc0a0, 0xf0781bc8)
    ensures Round(Working(0xdf46652f, 0xd6670766, 0x79ea687a, 0x6dc57a8a, 0x838b2711, 0x26352d63, 0x1efbc0a0, 0xf0781bc8), 0xc24b8b70, 0x3e246a79) ==
              Working(0x17aa0dfe, 0xdf46652f, 0xd6670766, 0x79ea687a, 0xdecd4715, 0x838b2711, 0x26352d63, 0x1efbc0a0)
    ensures Round(Working(0x17aa0dfe, 0xdf46652f, 0xd6670766, 0x79ea687a, 0xdecd4715, 0x838b2711, 0x26352d63, 0x1efbc0a0), 0xc76c51a3, 0x27333ba3) ==
              Working(0x9d4baf93, 0x17aa0dfe, 0xdf46652f, 0xd6670766, 0xfda24c2e, 0xdecd4715, 0x838b2711, 0x26352d63)
  {
  }

  lemma Rounds44()
    ensures Round(After(44), Constant(44), ScheduleWord(44)) == After(45)
    ensures Round(After(45), Constant(45), ScheduleWord(45)) == After(46)
    ensures Round(After(46), Constant(46), ScheduleWord(46)) == After(47)
    ensures Round(After(47), Constant(47), ScheduleWord(47)) == After(48)
  {
    hide Round;
    Results44();
  }

  lemma Results44()
    ensures Round(Working(0x9d4baf93, 0x17aa0dfe, 0xdf46652f, 0xd6670766, 0xfda24c2e, 0xdecd4715, 0x838b2711, 0x26352d63), 0xd192e819, 0x0c4763f2) ==
              Working(0x26628815, 0x9d4baf93, 0x17aa0dfe, 0xdf46652f, 0xa80f11f0, 0xfda24c2e, 0xdecd4715, 0x838b2711)
    ensures Round(Working(0x26628815, 0x9d4baf93, 0x17aa0dfe, 0xdf46652f, 0xa80f11f0, 0xfda24c2e, 0xdecd4715, 0x838b2711), 0xd6990624, 0x840abf27) ==
              Working(0x72ab4b91, 0x26628815, 0x9d4baf93, 0x17aa0dfe, 0xb7755da1, 0xa80f11f0, 0xfda24c2e, 0xdecd4715)
    ensures Round(Working(0x72ab4b91, 0x26628815, 0x9d4baf93, 0x17aa0dfe, 0xb7755da1, 0xa80f11f0, 0xfda24c2e, 0xdecd4715), 0xf40e3585, 0x7a290d5d) ==
              Working(0xa14c14b0, 0x72ab4b91, 0x26628815, 0x9d4baf93, 0xd57b94a9, 0xb7755da1, 0xa80f11f0, 0xfda24c2e)
    ensures Round(Working(0xa14c14b0, 0x72ab4b91, 0x26628815, 0x9d4baf93, 0xd57b94a9, 0xb7755da1, 0xa80f11f0, 0xfda24c2e), 0x106aa070, 0x065c43da) ==
              Working(0x4172328d, 0xa14c14b0, 0x72ab4b91, 0x26628815, 0xfecf0bc6, 0xd57b94a9, 0xb7755da1, 0xa80f11f0)
  {
  }

  lemma Rounds48()
    ensures Round(After(48), Constant(48), ScheduleWord(48)) == After(49)
    ensures Round(After(49), Constant(49), ScheduleWord(49)) == After(50)
    ensures Round(After(50), Constant(50), ScheduleWord(50)) == After(51)
    ensures Round(After(51), Constant(51), ScheduleWord(51)) == After(52)
  {
    hide Round;
    Results48();
  }

  lemma Results48()
    ensures Round(Working(0x4172328d, 0xa14c14b0, 0x72ab4b91, 0x26628815, 0xfecf0bc6, 0xd57b94a9, 0xb7755da1, 0xa80f11f0), 0x19a4c116, 0xfb3e89cb) ==
              Working(0x05757ceb, 0x4172328d, 0xa14c14b0, 0x72ab4b91, 0xbd714038, 0xfecf0bc6, 0xd57b94a9, 0xb7755da1)
    ensures Round(Working(0x05757ceb, 0x4172328d, 0xa14c14b0, 0x72ab4b91, 0xbd714038, 0xfecf0bc6, 0xd57b94a9, 0xb7755da1), 0x1e376c08, 0xcc7617db) ==
              Working(0xf11bfaa8, 0x05757ceb, 0x4172328d, 0xa14c14b0, 0x6e5c390c, 0xbd714038, 0xfecf0bc6, 0xd57b94a9)
    ensures Round(Working(0xf11bfaa8, 0x05757ceb, 0x4172328d, 0xa14c14b0, 0x6e5c390c, 0xbd714038, 0xfecf0bc6, 0xd57b94a9), 0x2748774c, 0xb9e66c34) ==
              Working(0x7a0508a1, 0xf11bfaa8, 0x05757ceb, 0x4172328d, 0x52f1ccf7, 0x6e5c390c, 0xbd714038, 0xfecf0bc6)
    ensures Round(Working(0x7a0508a1, 0xf11bfaa8, 0x05757ceb, 0x4172328d, 0x52f1ccf7, 0x6e5c390c, 0xbd714038, 0xfecf0bc6), 0x34b0bcb5, 0xa9993667) ==
              Working(0x886e7a22, 0x7a0508a1, 0xf11bfaa8, 0x05757ceb, 0x49231c1e, 0x52f1ccf7, 0x6e5c390c, 0xbd714038)
  {
  }

  lemma Rounds52()
    ensures Round(After(52), Constant(52), ScheduleWord(52)) == After(53)
    ensures Round(After(53), Constant(53), ScheduleWord(53)) == After(54)
    ensures Round(After(54), Constant(54), ScheduleWord(54)) == After(55)
    ensures Round(After(55), Constant(55), ScheduleWord(55)) == After(56)
  {
    hide Round;
    Results52();
  }

  lemma Results52()
    ensures Round(Working(0x886e7a22, 0x7a0508a1, 0xf11bfaa8, 0x05757ceb, 0x49231c1e, 0x52f1ccf7, 0x6e5c390c, 0xbd714038), 0x391c0cb3, 0x84badedd) ==
              Working(0x101fd28f, 0x886e7a22, 0x7a0508a1, 0xf11bfaa8, 0x529e7d00, 0x49231c1e, 0x52f1ccf7, 0x6e5c390c)
    ensures Round(Working(0x101fd28f, 0x886e7a22, 0x7a0508a1, 0xf11bfaa8, 0x529e7d00, 0x49231c1e, 0x52f1ccf7, 0x6e5c390c), 0x4ed8aa4a, 0xc21462bc) ==
              Working(0xf5702fdb, 0x101fd28f, 0x886e7a22, 0x7a0508a1, 0x9f4787c3, 0x529e7d00, 0x49231c1e, 0x52f1ccf7)
    ensures Round(Working(0xf5702fdb, 0x101fd28f, 0x886e7a22, 0x7a0508a1, 0x9f4787c3, 0x529e7d00, 0x49231c1e, 0x52f1ccf7), 0x5b9cca4f, 0x1487472c) ==
              Working(0x3ec45cdb, 0xf5702fdb, 0x101fd28f, 0x886e7a22, 0xe50e1b4f, 0x9f4787c3, 0x529e7d00, 0x49231c1e)
    ensures Round(Working(0x3ec45cdb, 0xf5702fdb, 0x101fd28f, 0x886e7a22, 0xe50e1b4f, 0x9f4787c3, 0x529e7d00, 0x49231c1e), 0x682e6ff3, 0xb20f7a99) ==
              Working(0x38cc9913, 0x3ec45cdb, 0xf5702fdb, 0x101fd28f, 0x54cb266b, 0xe50e1b4f, 0x9f4787c3, 0x529e7d00)
  {
  }

  lemma Rounds56()
    ensures Round(After(56), Constant(56), ScheduleWord(56)) == After(57)
    ensures Round(After(57), Constant(57), ScheduleWord(57)) == After(58)
    ensures Round(After(58), Constant(58), ScheduleWord(58)) == After(59)
    ensures Round(After(59), Constant(59), ScheduleWord(59)) == After(60)
  {
    hide Round;
    Results56();
  }

  lemma Results56()
    ensures Round(Working(0x38cc9913, 0x3ec45cdb, 0xf5702fdb, 0x101fd28f, 0x54cb266b, 0xe50e1b4f, 0x9f4787c3, 0x529e7d00), 0x748f82ee, 0xef57b9cd) ==
              Working(0xfcd1887b, 0x38cc9913, 0x3ec45cdb, 0xf5702fdb, 0x9b5e906c, 0x54cb266b, 0xe50e1b4f, 0x9f4787c3)
    ensures Round(Working(0xfcd1887b, 0x38cc9913, 0x3ec45cdb, 0xf5702fdb, 0x9b5e906c, 0x54cb266b, 0xe50e1b4f, 0x9f4787c3), 0x78a5636f, 0xebe6b238) ==
              Working(0xc062d46f, 0xfcd1887b, 0x38cc9913, 0x3ec45cdb, 0x7e44008e, 0x9b5e906c, 0x54cb266b, 0xe50e1b4f)
    ensures Round(Working(0xc062d46f, 0xfcd1887b, 0x38cc9913, 0x3ec45cdb, 0x7e44008e, 0x9b5e906c, 0x54cb266b, 0xe50e1b4f), 0x84c87814, 0x9fe3095e) ==
              Working(0xffb70472, 0xc062d46f, 0xfcd1887b, 0x38cc9913, 0x6d83bfc6, 0x7e44008e, 0x9b5e906c, 0x54cb266b)
    ensures Round(Working(0xffb70472, 0xc062d46f, 0xfcd1887b, 0x38cc9913, 0x6d83bfc6, 0x7e44008e, 0x9b5e906c, 0x54cb266b), 0x8cc70208, 0x78bc8d4b) ==
              Working(0xb6ae8fff, 0xffb70472, 0xc062d46f, 0xfcd1887b, 0xb21bad3d, 0x6d83bfc6, 0x7e44008e, 0x9b5e906c)
  {
  }

  lemma Rounds60()
    ensures Round(After(60), Constant(60), ScheduleWord(60)) == After(61)
    ensures Round(After(61), Constant(61), ScheduleWord(61)) == After(62)
    ensures Round(After(62), Constant(62), ScheduleWord(62)) == After(63)
    ensures Round(After(63), Constant(63), ScheduleWord(63)) == After(64)
  {
    hide Round;
    Results60();
  }

  lemma Results60()
    ensures Round(Working(0xb6ae8fff, 0xffb70472, 0xc062d46f, 0xfcd1887b, 0xb21bad3d, 0x6d83bfc6, 0x7e44008e, 0x9b5e906c), 0x90befffa, 0xa43fcf15) ==
              Working(0xb85e2ce9, 0xb6ae8fff, 0xffb70472, 0xc062d46f, 0x961f4894, 0xb21bad3d, 0x6d83bfc6, 0x7e44008e)
    ensures Round(Working(0xb85e2ce9, 0xb6ae8fff, 0xffb70472, 0xc062d46f, 0x961f4894, 0xb21bad3d, 0x6d83bfc6, 0x7e44008e), 0xa4506ceb, 0x668b2ff8) ==
              Working(0x04d24d6c, 0xb85e2ce9, 0xb6ae8fff, 0xffb70472, 0x948d25b6, 0x961f4894, 0xb21bad3d, 0x6d83bfc6)
    ensures Round(Working(0x04d24d6c, 0xb85e2ce9, 0xb6ae8fff, 0xffb70472, 0x948d25b6, 0x961f4894, 0xb21bad3d, 0x6d83bfc6), 0xbef9a3f7, 0xeeaba2cc) ==
              Working(0xd39a2165, 0x04d24d6c, 0xb85e2ce9, 0xb6ae8fff, 0xfb121210, 0x948d25b6, 0x961f4894, 0xb21bad3d)
    ensures Round(Working(0xd39a2165, 0x04d24d6c, 0xb85e2ce9, 0xb6ae8fff, 0xfb121210, 0x948d25b6, 0x961f4894, 0xb21bad3d), 0xc67178f2, 0x12b1edeb) ==
              Working(0x506e3058, 0xd39a2165, 0x04d24d6c, 0xb85e2ce9, 0x5ef50f24, 0xfb121210, 0x948d25b6, 0x961f4894)
  {
  }

  lemma EachRound(t: nat)
    requires t < 64
    ensures Round(After(t), Constant(t), ScheduleWord(t)) == After(t + 1)
  {
    hide *;
    if t < 16 {
      Quarter0(t);
    } else if t < 32 {
      Quarter16(t);
    } else if t < 48 {
      Quarter32(t);
    } else {
      Quarter48(t);
    }
  }

  lemma Quarter0(t: nat)
    requires 0 <= t < 16
    ensures Round(After(t), Constant(t), ScheduleWord(t)) == After(t + 1)
  {
    hide *;
    if t < 4 {
      Rounds0();
      assert t == 0 || t == 1 || t == 2 || t == 3;
    } else if t < 8 {
      Rounds4();
      assert t == 4 || t == 5 || t == 6 || t == 7;
    } else if t < 12 {
      Rounds8();
      assert t == 8 || t == 9 || t == 10 || t == 11;
    } else {
      Rounds12();
      assert t == 12 || t == 13 || t == 14 || t == 15;
    }
  }

  lemma Quarter16(t: nat)
    requires 16 <= t < 32
    ensures Round(After(t), Constant(t), ScheduleWord(t)) == After(t + 1)
  {
    hide *;
    if t < 20 {
      Rounds16();
      assert t == 16 || t == 17 || t == 18 || t == 19;
    } else if t < 24 {
      Rounds20();
      assert t == 20 || t == 21 || t == 22 || t == 23;
    } else if t < 28 {
      Rounds24();
      assert t == 24 || t == 25 || t == 26 || t == 27;
    } else {
      Rounds28();
      assert t == 28 || t == 29 || t == 30 || t == 31;
    }
  }

  lemma Quarter32(t: nat)
    requires 32 <= t < 48
    ensures Round(After(t), Constant(t), ScheduleWord(t)) == After(t + 1)
  {
    hide *;
    if t < 36 {
      Rounds32();
      assert t == 32 || t == 33 || t == 34 || t == 35;
    } else if t < 40 {
      Rounds36();
      assert t == 36 || t == 37 || t == 38 || t == 39;
    } else if t < 44 {
      Rounds40();
      assert t == 40 || t == 41 || t == 42 || t == 43;
    } else {
      Rounds44();
      assert t == 44 || t == 45 || t == 46 || t == 47;
    }
  }

  lemma Quarter48(t: nat)
    requires 48 <= t < 64
    ensures Round(After(t), Constant(t), ScheduleWord(t)) == After(t + 1)
  {
    hide *;
    if t < 52 {
      Rounds48();
      assert t == 48 || t == 49 || t == 50 || t == 51;
    } else if t < 56 {
      Rounds52();
      assert t == 52 || t == 53 || t == 54 || t == 55;
    } else if t < 60 {
      Rounds56();
      assert t == 56 || t == 57 || t == 58 || t == 59;
    } else {
      Rounds60();
      assert t == 60 || t == 61 || t == 62 || t == 63;
    }
  }

  lemma {:induction false} RoundsAre(t: nat)
    requires t <= 64
    ensures Rounds(After(0), Block(), t) == After(t)
  {
    hide After, Block, Constant, ScheduleWord, Round, Schedule;
    if t > 0 {
      RoundsAre(t - 1);
      WordsAre(t - 1);
      EachRound(t - 1);
    }
  }

  lemma StartIs()
    ensures Start(StartHash()) == After(0)
  {
  }

  function Result(): Hash {
    [0xba7816bf, 0x8f01cfea, 0x414140de, 0x5dae2223,
     0xb00361a3, 0x96177a9c, 0xb410ff61, 0xf20015ad]
  }

  lemma SumIs()
    ensures Added(StartHash(), After(64)) == Result()
  {
  }

  lemma DigestIs()
    ensures Digest(Message()) == Result()
  {
    hide Padded, Block, Rounds, After, Message, Added, StartHash, Result;
    MessagePadded();
    StartIs();
    RoundsAre(64);
    SumIs();
    assert Block()[..|Block()| - 64] == [] && Block()[|Block()| - 64..] == Block();
  }

  lemma HexWord0()
    ensures HexWord(0xba7816bf) == Ascii("ba7816bf") && HexWord(0x8f01cfea) == Ascii("8f01cfea")
  {
  }

  lemma HexWord1()
    ensures HexWord(0x414140de) == Ascii("414140de") && HexWord(0x5dae2223) == Ascii("5dae2223")
  {
  }

  lemma HexWord2()
    ensures HexWord(0xb00361a3) == Ascii("b00361a3") && HexWord(0x96177a9c) == Ascii("96177a9c")
  {
  }

  lemma HexWord3()
    ensures HexWord(0xb410ff61) == Ascii("b410ff61") && HexWord(0xf20015ad) == Ascii("f20015ad")
  {
  }

  /** The text of a digest is that of its words. */
  lemma HexOfEight(h: Hash)
    ensures Hex(h) == HexWord(h[0]) + HexWord(h[1]) + HexWord(h[2]) + HexWord(h[3])
                      + HexWord(h[4]) + HexWord(h[5]) + HexWord(h[6]) + HexWord(h[7])
  {
    hide HexWord;
    HexSnoc(h, 8);
    HexSnoc(h, 7);
    HexSnoc(h, 6);
    HexSnoc(h, 5);
    HexSnoc(h, 4);
    HexSnoc(h, 3);
    HexSnoc(h, 2);
    HexSnoc(h, 1);
    assert h[..8] == h && h[..0] == [];
    assert Hex(h[..0]) + HexWord(h[0]) == HexWord(h[0]);
  }

  lemma HexSnoc(h: Hash, k: nat)
    requires 1 <= k <= 8
    ensures Hex(h[..k]) == Hex(h[..k - 1]) + HexWord(h[k - 1])
  {
    hide HexWord;
    assert h[..k][..k - 1] == h[..k - 1];
  }

  /** The published digest, in two halves. */
  function FirstHalf(): Text {
    Ascii("ba7816bf") + Ascii("8f01cfea") + Ascii("414140de") + Ascii("5dae2223")
  }

  function SecondHalf(): Text {
    Ascii("b00361a3") + Ascii("96177a9c") + Ascii("b410ff61") + Ascii("f20015ad")
  }

  /** The digest of "abc" is the published one. */
  lemma DigestOfAbc(m: Text)
    requires m == Ascii("abc")
    ensures Hex(Digest(m)) == FirstHalf() + SecondHalf()
  {
    hide Digest, HexWord, Hex, Result, Ascii;
    DigestIs();
    HexOfEight(Result());
    ResultWords();
    HexWord0();
    HexWord1();
    HexWord2();
    HexWord3();
  }

  lemma ResultWords()
    ensures var h := Result();
      && h[0] == 0xba7816bf && h[1] == 0x8f01cfea && h[2] == 0x414140de && h[3] == 0x5dae2223
      && h[4] == 0xb00361a3 && h[5] == 0x96177a9c && h[6] == 0xb410ff61 && h[7] == 0xf20015ad
  {
  }
}
