/**
  SHA-256 of "abc", computed from the definitions: the first example published with
  FIPS 180-4, which the repository's own tests use too (tests/unit/test_digest.cpp:62).
 */
module Sha256Vector {
  import opened Types
  import opened Sha256

  const ABC: Bytes := [0x61, 0x62, 0x63]

  const BLOCK_OF_ABC: Block := ABC + [0x80] + Zeros(59) + [0x18]

  lemma Padded()
    ensures ABC + Padding(3) == BLOCK_OF_ABC
  {
    assert ZeroCount(3) == 52;
    LengthField();
    assert Zeros(52) + Zeros(7) == Zeros(59);
  }

  lemma LengthField()
    ensures BigEndian(24, 8) == Zeros(7) + [0x18]
  {
    assert BigEndian(0, 7) == Zeros(7);
  }

  // ---- the message schedule ------------------------------------------------------

  lemma LoadsAs(b: Bytes, i: nat)
    requires i + 4 <= |b|
    ensures b[i..i + 4] == [0, 0, 0, 0] ==> LoadWord(b, i) == 0
    ensures b[i..i + 4] == [0, 0, 0, 0x18] ==> LoadWord(b, i) == 0x18
    ensures b[i..i + 4] == [0x61, 0x62, 0x63, 0x80] ==> LoadWord(b, i) == 0x61626380
  {
    var w := b[i..i + 4];
    assert b[i] == w[0] && b[i + 1] == w[1] && b[i + 2] == w[2] && b[i + 3] == w[3];
  }

  lemma Loaded(t: nat)
    requires t < 16
    ensures Schedule(BLOCK_OF_ABC, t) == if t == 0 then 0x61626380 else if t == 15 then 0x18 else 0
  {
    hide LoadWord, Schedule;
    FirstWords(BLOCK_OF_ABC, t);
    LoadsAs(BLOCK_OF_ABC, 4 * t);
    var w := BLOCK_OF_ABC[4 * t..4 * t + 4];
    if t == 0 {
      assert w == [0x61, 0x62, 0x63, 0x80];
    } else if t == 15 {
      assert w == [0, 0, 0, 0x18];
    } else {
      assert w == [0, 0, 0, 0];
    }
  }

  lemma Schedule0()
    ensures Schedule(BLOCK_OF_ABC, 0) == 0x61626380
    ensures Schedule(BLOCK_OF_ABC, 1) == 0x00000000
    ensures Schedule(BLOCK_OF_ABC, 2) == 0x00000000
    ensures Schedule(BLOCK_OF_ABC, 3) == 0x00000000
    ensures Schedule(BLOCK_OF_ABC, 4) == 0x00000000
    ensures Schedule(BLOCK_OF_ABC, 5) == 0x00000000
    ensures Schedule(BLOCK_OF_ABC, 6) == 0x00000000
    ensures Schedule(BLOCK_OF_ABC, 7) == 0x00000000
  {
    hide Schedule;
    Loaded(0);
    Loaded(1);
    Loaded(2);
    Loaded(3);
    Loaded(4);
    Loaded(5);
    Loaded(6);
    Loaded(7);
  }

  lemma Schedule8()
    ensures Schedule(BLOCK_OF_ABC, 8) == 0x00000000
    ensures Schedule(BLOCK_OF_ABC, 9) == 0x00000000
    ensures Schedule(BLOCK_OF_ABC, 10) == 0x00000000
    ensures Schedule(BLOCK_OF_ABC, 11) == 0x00000000
    ensures Schedule(BLOCK_OF_ABC, 12) == 0x00000000
    ensures Schedule(BLOCK_OF_ABC, 13) == 0x00000000
    ensures Schedule(BLOCK_OF_ABC, 14) == 0x00000000
    ensures Schedule(BLOCK_OF_ABC, 15) == 0x00000018
  {
    hide Schedule;
    Loaded(8);
    Loaded(9);
    Loaded(10);
    Loaded(11);
    Loaded(12);
    Loaded(13);
    Loaded(14);
    Loaded(15);
  }

  lemma Schedule16()
    ensures Schedule(BLOCK_OF_ABC, 16) == 0x61626380
    ensures Schedule(BLOCK_OF_ABC, 17) == 0x000f0000
    ensures Schedule(BLOCK_OF_ABC, 18) == 0x7da86405
    ensures Schedule(BLOCK_OF_ABC, 19) == 0x600003c6
    ensures Schedule(BLOCK_OF_ABC, 20) == 0x3e9d7b78
    ensures Schedule(BLOCK_OF_ABC, 21) == 0x0183fc00
    ensures Schedule(BLOCK_OF_ABC, 22) == 0x12dcbfdb
    ensures Schedule(BLOCK_OF_ABC, 23) == 0xe2e2c38e
  {
    hide Schedule;
    Schedule0();
    Schedule8();
    NextWord(BLOCK_OF_ABC, 16);
    NextWord(BLOCK_OF_ABC, 17);
    NextWord(BLOCK_OF_ABC, 18);
    NextWord(BLOCK_OF_ABC, 19);
    NextWord(BLOCK_OF_ABC, 20);
    NextWord(BLOCK_OF_ABC, 21);
    NextWord(BLOCK_OF_ABC, 22);
    NextWord(BLOCK_OF_ABC, 23);
  }

  lemma Schedule24()
    ensures Schedule(BLOCK_OF_ABC, 24) == 0xc8215c1a
    ensures Schedule(BLOCK_OF_ABC, 25) == 0xb73679a2
    ensures Schedule(BLOCK_OF_ABC, 26) == 0xe5bc3909
    ensures Schedule(BLOCK_OF_ABC, 27) == 0x32663c5b
    ensures Schedule(BLOCK_OF_ABC, 28) == 0x9d209d67
    ensures Schedule(BLOCK_OF_ABC, 29) == 0xec8726cb
    ensures Schedule(BLOCK_OF_ABC, 30) == 0x702138a4
    ensures Schedule(BLOCK_OF_ABC, 31) == 0xd3b7973b
  {
    hide Schedule;
    Schedule8();
    Schedule16();
    NextWord(BLOCK_OF_ABC, 24);
    NextWord(BLOCK_OF_ABC, 25);
    NextWord(BLOCK_OF_ABC, 26);
    NextWord(BLOCK_OF_ABC, 27);
    NextWord(BLOCK_OF_ABC, 28);
    NextWord(BLOCK_OF_ABC, 29);
    NextWord(BLOCK_OF_ABC, 30);
    NextWord(BLOCK_OF_ABC, 31);
  }

  lemma Schedule32()
    ensures Schedule(BLOCK_OF_ABC, 32) == 0x93f5997f
    ensures Schedule(BLOCK_OF_ABC, 33) == 0x3b68ba73
    ensures Schedule(BLOCK_OF_ABC, 34) == 0xaff4ffc1
    ensures Schedule(BLOCK_OF_ABC, 35) == 0xf10a5c62
    ensures Schedule(BLOCK_OF_ABC, 36) == 0x0a8b3996
    ensures Schedule(BLOCK_OF_ABC, 37) == 0x72af830a
    ensures Schedule(BLOCK_OF_ABC, 38) == 0x9409e33e
    ensures Schedule(BLOCK_OF_ABC, 39) == 0x24641522
  {
    hide Schedule;
    Schedule16();
    Schedule24();
    NextWord(BLOCK_OF_ABC, 32);
    NextWord(BLOCK_OF_ABC, 33);
    NextWord(BLOCK_OF_ABC, 34);
    NextWord(BLOCK_OF_ABC, 35);
    NextWord(BLOCK_OF_ABC, 36);
    NextWord(BLOCK_OF_ABC, 37);
    NextWord(BLOCK_OF_ABC, 38);
    NextWord(BLOCK_OF_ABC, 39);
  }

  lemma Schedule40()
    ensures Schedule(BLOCK_OF_ABC, 40) == 0x9f47bf94
    ensures Schedule(BLOCK_OF_ABC, 41) == 0xf0a64f5a
    ensures Schedule(BLOCK_OF_ABC, 42) == 0x3e246a79
    ensures Schedule(BLOCK_OF_ABC, 43) == 0x27333ba3
    ensures Schedule(BLOCK_OF_ABC, 44) == 0x0c4763f2
    ensures Schedule(BLOCK_OF_ABC, 45) == 0x840abf27
    ensures Schedule(BLOCK_OF_ABC, 46) == 0x7a290d5d
    ensures Schedule(BLOCK_OF_ABC, 47) == 0x065c43da
  {
    hide Schedule;
    Schedule24();
    Schedule32();
    NextWord(BLOCK_OF_ABC, 40);
    NextWord(BLOCK_OF_ABC, 41);
    NextWord(BLOCK_OF_ABC, 42);
    NextWord(BLOCK_OF_ABC, 43);
    NextWord(BLOCK_OF_ABC, 44);
    NextWord(BLOCK_OF_ABC, 45);
    NextWord(BLOCK_OF_ABC, 46);
    NextWord(BLOCK_OF_ABC, 47);
  }

  lemma Schedule48()
    ensures Schedule(BLOCK_OF_ABC, 48) == 0xfb3e89cb
    ensures Schedule(BLOCK_OF_ABC, 49) == 0xcc7617db
    ensures Schedule(BLOCK_OF_ABC, 50) == 0xb9e66c34
    ensures Schedule(BLOCK_OF_ABC, 51) == 0xa9993667
    ensures Schedule(BLOCK_OF_ABC, 52) == 0x84badedd
    ensures Schedule(BLOCK_OF_ABC, 53) == 0xc21462bc
    ensures Schedule(BLOCK_OF_ABC, 54) == 0x1487472c
    ensures Schedule(BLOCK_OF_ABC, 55) == 0xb20f7a99
  {
    hide Schedule;
    Schedule32();
    Schedule40();
    NextWord(BLOCK_OF_ABC, 48);
    NextWord(BLOCK_OF_ABC, 49);
    NextWord(BLOCK_OF_ABC, 50);
    NextWord(BLOCK_OF_ABC, 51);
    NextWord(BLOCK_OF_ABC, 52);
    NextWord(BLOCK_OF_ABC, 53);
    NextWord(BLOCK_OF_ABC, 54);
    NextWord(BLOCK_OF_ABC, 55);
  }

  lemma Schedule56()
    ensures Schedule(BLOCK_OF_ABC, 56) == 0xef57b9cd
    ensures Schedule(BLOCK_OF_ABC, 57) == 0xebe6b238
    ensures Schedule(BLOCK_OF_ABC, 58) == 0x9fe3095e
    ensures Schedule(BLOCK_OF_ABC, 59) == 0x78bc8d4b
    ensures Schedule(BLOCK_OF_ABC, 60) == 0xa43fcf15
    ensures Schedule(BLOCK_OF_ABC, 61) == 0x668b2ff8
    ensures Schedule(BLOCK_OF_ABC, 62) == 0xeeaba2cc
    ensures Schedule(BLOCK_OF_ABC, 63) == 0x12b1edeb
  {
    hide Schedule;
    Schedule40();
    Schedule48();
    NextWord(BLOCK_OF_ABC, 56);
    NextWord(BLOCK_OF_ABC, 57);
    NextWord(BLOCK_OF_ABC, 58);
    NextWord(BLOCK_OF_ABC, 59);
    NextWord(BLOCK_OF_ABC, 60);
    NextWord(BLOCK_OF_ABC, 61);
    NextWord(BLOCK_OF_ABC, 62);
    NextWord(BLOCK_OF_ABC, 63);
  }

  // ---- the rounds ---------------------------------------------------------------

  lemma Rounds0()
    ensures Rounds(BLOCK_OF_ABC, INITIAL, 4) ==
      Words(0xd550f666, 0xc8c347a7, 0x5a6ad9ad, 0x5d6aebcd, 0x24e00850, 0xf92939eb, 0x78ce7989, 0xfa2a4622)
  {
    hide Schedule, Rounds;
    Schedule0();
    NoRounds(BLOCK_OF_ABC, INITIAL);
    var v0 := INITIAL;
    var v1 := Words(0x5d6aebcd, 0x6a09e667, 0xbb67ae85, 0x3c6ef372, 0xfa2a4622, 0x510e527f, 0x9b05688c, 0x1f83d9ab);
    assert Round(v0, 0x428a2f98, 0x61626380) == v1;
    RoundsStep(BLOCK_OF_ABC, INITIAL, 0);
    var v2 := Words(0x5a6ad9ad, 0x5d6aebcd, 0x6a09e667, 0xbb67ae85, 0x78ce7989, 0xfa2a4622, 0x510e527f, 0x9b05688c);
    assert Round(v1, 0x71374491, 0x00000000) == v2;
    RoundsStep(BLOCK_OF_ABC, INITIAL, 1);
    var v3 := Words(0xc8c347a7, 0x5a6ad9ad, 0x5d6aebcd, 0x6a09e667, 0xf92939eb, 0x78ce7989, 0xfa2a4622, 0x510e527f);
    assert Round(v2, 0xb5c0fbcf, 0x00000000) == v3;
    RoundsStep(BLOCK_OF_ABC, INITIAL, 2);
    var v4 := Words(0xd550f666, 0xc8c347a7, 0x5a6ad9ad, 0x5d6aebcd, 0x24e00850, 0xf92939eb, 0x78ce7989, 0xfa2a4622);
    assert Round(v3, 0xe9b5dba5, 0x00000000) == v4;
    RoundsStep(BLOCK_OF_ABC, INITIAL, 3);
  }

  lemma Rounds4()
    ensures Rounds(BLOCK_OF_ABC, INITIAL, 8) ==
      Words(0x85a07b5f, 0xe5030380, 0x2b4209f5, 0x04409a6a, 0x0c657a79, 0x9b27a401, 0x714260ad, 0x43ada245)
  {
    hide Schedule, Rounds;
    Schedule0();
    Rounds0();
    var v4 := Words(0xd550f666, 0xc8c347a7, 0x5a6ad9ad, 0x5d6aebcd, 0x24e00850, 0xf92939eb, 0x78ce7989, 0xfa2a4622);
    var v5 := Words(0x04409a6a, 0xd550f666, 0xc8c347a7, 0x5a6ad9ad, 0x43ada245, 0x24e00850, 0xf92939eb, 0x78ce7989);
    assert Round(v4, 0x3956c25b, 0x00000000) == v5;
    RoundsStep(BLOCK_OF_ABC, INITIAL, 4);
    var v6 := Words(0x2b4209f5, 0x04409a6a, 0xd550f666, 0xc8c347a7, 0x714260ad, 0x43ada245, 0x24e00850, 0xf92939eb);
    assert Round(v5, 0x59f111f1, 0x00000000) == v6;
    RoundsStep(BLOCK_OF_ABC, INITIAL, 5);
    var v7 := Words(0xe5030380, 0x2b4209f5, 0x04409a6a, 0xd550f666, 0x9b27a401, 0x714260ad, 0x43ada245, 0x24e00850);
    assert Round(v6, 0x923f82a4, 0x00000000) == v7;
    RoundsStep(BLOCK_OF_ABC, INITIAL, 6);
    var v8 := Words(0x85a07b5f, 0xe5030380, 0x2b4209f5, 0x04409a6a, 0x0c657a79, 0x9b27a401, 0x714260ad, 0x43ada245);
    assert Round(v7, 0xab1c5ed5, 0x00000000) == v8;
    RoundsStep(BLOCK_OF_ABC, INITIAL, 7);
  }

  lemma Rounds8()
    ensures Rounds(BLOCK_OF_ABC, INITIAL, 12) ==
      Words(0xf71fc5a9, 0x4798a3f4, 0x8c87346b, 0x8e04ecb9, 0x816fd6e9, 0x436b23e8, 0x1cc92596, 0x32ca2d8c)
  {
    hide Schedule, Rounds;
    Schedule8();
    Rounds4();
    var v8 := Words(0x85a07b5f, 0xe5030380, 0x2b4209f5, 0x04409a6a, 0x0c657a79, 0x9b27a401, 0x714260ad, 0x43ada245);
    var v9 := Words(0x8e04ecb9, 0x85a07b5f, 0xe5030380, 0x2b4209f5, 0x32ca2d8c, 0x0c657a79, 0x9b27a401, 0x714260ad);
    assert Round(v8, 0xd807aa98, 0x00000000) == v9;
    RoundsStep(BLOCK_OF_ABC, INITIAL, 8);
    var v10 := Words(0x8c87346b, 0x8e04ecb9, 0x85a07b5f, 0xe5030380, 0x1cc92596, 0x32ca2d8c, 0x0c657a79, 0x9b27a401);
    assert Round(v9, 0x12835b01, 0x00000000) == v10;
    RoundsStep(BLOCK_OF_ABC, INITIAL, 9);
    var v11 := Words(0x4798a3f4, 0x8c87346b, 0x8e04ecb9, 0x85a07b5f, 0x436b23e8, 0x1cc92596, 0x32ca2d8c, 0x0c657a79);
    assert Round(v10, 0x243185be, 0x00000000) == v11;
    RoundsStep(BLOCK_OF_ABC, INITIAL, 10);
    var v12 := Words(0xf71fc5a9, 0x4798a3f4, 0x8c87346b, 0x8e04ecb9, 0x816fd6e9, 0x436b23e8, 0x1cc92596, 0x32ca2d8c);
    assert Round(v11, 0x550c7dc3, 0x00000000) == v12;
    RoundsStep(BLOCK_OF_ABC, INITIAL, 11);
  }

  lemma Rounds12()
    ensures Rounds(BLOCK_OF_ABC, INITIAL, 16) ==
      Words(0xb0fa238e, 0xc0645fde, 0xd932eb16, 0x87912990, 0x07590dcd, 0x0b92f20c, 0x745a48de, 0x1e578218)
  {
    hide Schedule, Rounds;
    Schedule8();
    Rounds8();
    var v12 := Words(0xf71fc5a9, 0x4798a3f4, 0x8c87346b, 0x8e04ecb9, 0x816fd6e9, 0x436b23e8, 0x1cc92596, 0x32ca2d8c);
    var v13 := Words(0x87912990, 0xf71fc5a9, 0x4798a3f4, 0x8c87346b, 0x1e578218, 0x816fd6e9, 0x436b23e8, 0x1cc92596);
    assert Round(v12, 0x72be5d74, 0x00000000) == v13;
    RoundsStep(BLOCK_OF_ABC, INITIAL, 12);
    var v14 := Words(0xd932eb16, 0x87912990, 0xf71fc5a9, 0x4798a3f4, 0x745a48de, 0x1e578218, 0x816fd6e9, 0x436b23e8);
    assert Round(v13, 0x80deb1fe, 0x00000000) == v14;
    RoundsStep(BLOCK_OF_ABC, INITIAL, 13);
    var v15 := Words(0xc0645fde, 0xd932eb16, 0x87912990, 0xf71fc5a9, 0x0b92f20c, 0x745a48de, 0x1e578218, 0x816fd6e9);
    assert Round(v14, 0x9bdc06a7, 0x00000000) == v15;
    RoundsStep(BLOCK_OF_ABC, INITIAL, 14);
    var v16 := Words(0xb0fa238e, 0xc0645fde, 0xd932eb16, 0x87912990, 0x07590dcd, 0x0b92f20c, 0x745a48de, 0x1e578218);
    assert Round(v15, 0xc19bf174, 0x00000018) == v16;
    RoundsStep(BLOCK_OF_ABC, INITIAL, 15);
  }

  lemma Rounds16()
    ensures Rounds(BLOCK_OF_ABC, INITIAL, 20) ==
      Words(0xe1f20c33, 0xfe777bbf, 0xc2fbd9d1, 0x21da9a9b, 0xb0638179, 0xcc899961, 0x846ee454, 0x8034229c)
  {
    hide Schedule, Rounds;
    Schedule16();
    Rounds12();
    var v16 := Words(0xb0fa238e, 0xc0645fde, 0xd932eb16, 0x87912990, 0x07590dcd, 0x0b92f20c, 0x745a48de, 0x1e578218);
    var v17 := Words(0x21da9a9b, 0xb0fa238e, 0xc0645fde, 0xd932eb16, 0x8034229c, 0x07590dcd, 0x0b92f20c, 0x745a48de);
    assert Round(v16, 0xe49b69c1, 0x61626380) == v17;
    RoundsStep(BLOCK_OF_ABC, INITIAL, 16);
    var v18 := Words(0xc2fbd9d1, 0x21da9a9b, 0xb0fa238e, 0xc0645fde, 0x846ee454, 0x8034229c, 0x07590dcd, 0x0b92f20c);
    assert Round(v17, 0xefbe4786, 0x000f0000) == v18;
    RoundsStep(BLOCK_OF_ABC, INITIAL, 17);
    var v19 := Words(0xfe777bbf, 0xc2fbd9d1, 0x21da9a9b, 0xb0fa238e, 0xcc899961, 0x846ee454, 0x8034229c, 0x07590dcd);
    assert Round(v18, 0x0fc19dc6, 0x7da86405) == v19;
    RoundsStep(BLOCK_OF_ABC, INITIAL, 18);
    var v20 := Words(0xe1f20c33, 0xfe777bbf, 0xc2fbd9d1, 0x21da9a9b, 0xb0638179, 0xcc899961, 0x846ee454, 0x8034229c);
    assert Round(v19, 0x240ca1cc, 0x600003c6) == v20;
    RoundsStep(BLOCK_OF_ABC, INITIAL, 19);
  }

  lemma Rounds20()
    ensures Rounds(BLOCK_OF_ABC, INITIAL, 24) ==
      Words(0xc5d53d8d, 0xa7a3623f, 0xc2606d6d, 0x9dc68b63, 0xaa47c347, 0x49f5114a, 0xe1257970, 0x8ada8930)
  {
    hide Schedule, Rounds;
    Schedule16();
    Rounds16();
    var v20 := Words(0xe1f20c33, 0xfe777bbf, 0xc2fbd9d1, 0x21da9a9b, 0xb0638179, 0xcc899961, 0x846ee454, 0x8034229c);
    var v21 := Words(0x9dc68b63, 0xe1f20c33, 0xfe777bbf, 0xc2fbd9d1, 0x8ada8930, 0xb0638179, 0xcc899961, 0x846ee454);
    assert Round(v20, 0x2de92c6f, 0x3e9d7b78) == v21;
    RoundsStep(BLOCK_OF_ABC, INITIAL, 20);
    var v22 := Words(0xc2606d6d, 0x9dc68b63, 0xe1f20c33, 0xfe777bbf, 0xe1257970, 0x8ada8930, 0xb0638179, 0xcc899961);
    assert Round(v21, 0x4a7484aa, 0x0183fc00) == v22;
    RoundsStep(BLOCK_OF_ABC, INITIAL, 21);
    var v23 := Words(0xa7a3623f, 0xc2606d6d, 0x9dc68b63, 0xe1f20c33, 0x49f5114a, 0xe1257970, 0x8ada8930, 0xb0638179);
    assert Round(v22, 0x5cb0a9dc, 0x12dcbfdb) == v23;
    RoundsStep(BLOCK_OF_ABC, INITIAL, 22);
    var v24 := Words(0xc5d53d8d, 0xa7a3623f, 0xc2606d6d, 0x9dc68b63, 0xaa47c347, 0x49f5114a, 0xe1257970, 0x8ada8930);
    assert Round(v23, 0x76f988da, 0xe2e2c38e) == v24;
    RoundsStep(BLOCK_OF_ABC, INITIAL, 23);
  }

  lemma Rounds24()
    ensures Rounds(BLOCK_OF_ABC, INITIAL, 28) ==
      Words(0x77d37528, 0xb62ec4bc, 0xcde8037d, 0x1c2c2838, 0xedffbff8, 0xc74c6516, 0x14383d8e, 0x2823ef91)
  {
    hide Schedule, Rounds;
    Schedule24();
    Rounds20();
    var v24 := Words(0xc5d53d8d, 0xa7a3623f, 0xc2606d6d, 0x9dc68b63, 0xaa47c347, 0x49f5114a, 0xe1257970, 0x8ada8930);
    var v25 := Words(0x1c2c2838, 0xc5d53d8d, 0xa7a3623f, 0xc2606d6d, 0x2823ef91, 0xaa47c347, 0x49f5114a, 0xe1257970);
    assert Round(v24, 0x983e5152, 0xc8215c1a) == v25;
    RoundsStep(BLOCK_OF_ABC, INITIAL, 24);
    var v26 := Words(0xcde8037d, 0x1c2c2838, 0xc5d53d8d, 0xa7a3623f, 0x14383d8e, 0x2823ef91, 0xaa47c347, 0x49f5114a);
    assert Round(v25, 0xa831c66d, 0xb73679a2) == v26;
    RoundsStep(BLOCK_OF_ABC, INITIAL, 25);
    var v27 := Words(0xb62ec4bc, 0xcde8037d, 0x1c2c2838, 0xc5d53d8d, 0xc74c6516, 0x14383d8e, 0x2823ef91, 0xaa47c347);
    assert Round(v26, 0xb00327c8, 0xe5bc3909) == v27;
    RoundsStep(BLOCK_OF_ABC, INITIAL, 26);
    var v28 := Words(0x77d37528, 0xb62ec4bc, 0xcde8037d, 0x1c2c2838, 0xedffbff8, 0xc74c6516, 0x14383d8e, 0x2823ef91);
    assert Round(v27, 0xbf597fc7, 0x32663c5b) == v28;
    RoundsStep(BLOCK_OF_ABC, INITIAL, 27);
  }

  lemma Rounds28()
    ensures Rounds(BLOCK_OF_ABC, INITIAL, 32) ==
      Words(0x73b33bf5, 0xea992a22, 0xa0060b30, 0x363482c9, 0xba591112, 0x0109ab3a, 0xade79437, 0x6112a3b7)
  {
    hide Schedule, Rounds;
    Schedule24();
    Rounds24();
    var v28 := Words(0x77d37528, 0xb62ec4bc, 0xcde8037d, 0x1c2c2838, 0xedffbff8, 0xc74c6516, 0x14383d8e, 0x2823ef91);
    var v29 := Words(0x363482c9, 0x77d37528, 0xb62ec4bc, 0xcde8037d, 0x6112a3b7, 0xedffbff8, 0xc74c6516, 0x14383d8e);
    assert Round(v28, 0xc6e00bf3, 0x9d209d67) == v29;
    RoundsStep(BLOCK_OF_ABC, INITIAL, 28);
    var v30 := Words(0xa0060b30, 0x363482c9, 0x77d37528, 0xb62ec4bc, 0xade79437, 0x6112a3b7, 0xedffbff8, 0xc74c6516);
    assert Round(v29, 0xd5a79147, 0xec8726cb) == v30;
    RoundsStep(BLOCK_OF_ABC, INITIAL, 29);
    var v31 := Words(0xea992a22, 0xa0060b30, 0x363482c9, 0x77d37528, 0x0109ab3a, 0xade79437, 0x6112a3b7, 0xedffbff8);
    assert Round(v30, 0x06ca6351, 0x702138a4) == v31;
    RoundsStep(BLOCK_OF_ABC, INITIAL, 30);
    var v32 := Words(0x73b33bf5, 0xea992a22, 0xa0060b30, 0x363482c9, 0xba591112, 0x0109ab3a, 0xade79437, 0x6112a3b7);
    assert Round(v31, 0x14292967, 0xd3b7973b) == v32;
    RoundsStep(BLOCK_OF_ABC, INITIAL, 31);
  }

  lemma Rounds32()
    ensures Rounds(BLOCK_OF_ABC, INITIAL, 36) ==
      Words(0x65a0cfe4, 0xa9a7738c, 0xfe604df5, 0x98e12507, 0xf4b002d6, 0x085f3833, 0x59249dd3, 0x9cd9f5f6)
  {
    hide Schedule, Rounds;
    Schedule32();
    Rounds28();
    var v32 := Words(0x73b33bf5, 0xea992a22, 0xa0060b30, 0x363482c9, 0xba591112, 0x0109ab3a, 0xade79437, 0x6112a3b7);
    var v33 := Words(0x98e12507, 0x73b33bf5, 0xea992a22, 0xa0060b30, 0x9cd9f5f6, 0xba591112, 0x0109ab3a, 0xade79437);
    assert Round(v32, 0x27b70a85, 0x93f5997f) == v33;
    RoundsStep(BLOCK_OF_ABC, INITIAL, 32);
    var v34 := Words(0xfe604df5, 0x98e12507, 0x73b33bf5, 0xea992a22, 0x59249dd3, 0x9cd9f5f6, 0xba591112, 0x0109ab3a);
    assert Round(v33, 0x2e1b2138, 0x3b68ba73) == v34;
    RoundsStep(BLOCK_OF_ABC, INITIAL, 33);
    var v35 := Words(0xa9a7738c, 0xfe604df5, 0x98e12507, 0x73b33bf5, 0x085f3833, 0x59249dd3, 0x9cd9f5f6, 0xba591112);
    assert Round(v34, 0x4d2c6dfc, 0xaff4ffc1) == v35;
    RoundsStep(BLOCK_OF_ABC, INITIAL, 34);
    var v36 := Words(0x65a0cfe4, 0xa9a7738c, 0xfe604df5, 0x98e12507, 0xf4b002d6, 0x085f3833, 0x59249dd3, 0x9cd9f5f6);
    assert Round(v35, 0x53380d13, 0xf10a5c62) == v36;
    RoundsStep(BLOCK_OF_ABC, INITIAL, 35);
  }

  lemma Rounds36()
    ensures Rounds(BLOCK_OF_ABC, INITIAL, 40) ==
      Words(0x79ea687a, 0x6dc57a8a, 0x34df1604, 0x41a65cb1, 0x1efbc0a0, 0xf0781bc8, 0xa507a53d, 0x0772a26b)
  {
    hide Schedule, Rounds;
    Schedule32();
    Rounds32();
    var v36 := Words(0x65a0cfe4, 0xa9a7738c, 0xfe604df5, 0x98e12507, 0xf4b002d6, 0x085f3833, 0x59249dd3, 0x9cd9f5f6);
    var v37 := Words(0x41a65cb1, 0x65a0cfe4, 0xa9a7738c, 0xfe604df5, 0x0772a26b, 0xf4b002d6, 0x085f3833, 0x59249dd3);
    assert Round(v36, 0x650a7354, 0x0a8b3996) == v37;
    RoundsStep(BLOCK_OF_ABC, INITIAL, 36);
    var v38 := Words(0x34df1604, 0x41a65cb1, 0x65a0cfe4, 0xa9a7738c, 0xa507a53d, 0x0772a26b, 0xf4b002d6, 0x085f3833);
    assert Round(v37, 0x766a0abb, 0x72af830a) == v38;
    RoundsStep(BLOCK_OF_ABC, INITIAL, 37);
    var v39 := Words(0x6dc57a8a, 0x34df1604, 0x41a65cb1, 0x65a0cfe4, 0xf0781bc8, 0xa507a53d, 0x0772a26b, 0xf4b002d6);
    assert Round(v38, 0x81c2c92e, 0x9409e33e) == v39;
    RoundsStep(BLOCK_OF_ABC, INITIAL, 38);
    var v40 := Words(0x79ea687a, 0x6dc57a8a, 0x34df1604, 0x41a65cb1, 0x1efbc0a0, 0xf0781bc8, 0xa507a53d, 0x0772a26b);
    assert Round(v39, 0x92722c85, 0x24641522) == v40;
    RoundsStep(BLOCK_OF_ABC, INITIAL, 39);
  }

  lemma Rounds40()
    ensures Rounds(BLOCK_OF_ABC, INITIAL, 44) ==
      Words(0x9d4baf93, 0x17aa0dfe, 0xdf46652f, 0xd6670766, 0xfda24c2e, 0xdecd4715, 0x838b2711, 0x26352d63)
  {
    hide Schedule, Rounds;
    Schedule40();
    Rounds36();
    var v40 := Words(0x79ea687a, 0x6dc57a8a, 0x34df1604, 0x41a65cb1, 0x1efbc0a0, 0xf0781bc8, 0xa507a53d, 0x0772a26b);
    var v41 := Words(0xd6670766, 0x79ea687a, 0x6dc57a8a, 0x34df1604, 0x26352d63, 0x1efbc0a0, 0xf0781bc8, 0xa507a53d);
    assert Round(v40, 0xa2bfe8a1, 0x9f47bf94) == v41;
    RoundsStep(BLOCK_OF_ABC, INITIAL, 40);
    var v42 := Words(0xdf46652f, 0xd6670766, 0x79ea687a, 0x6dc57a8a, 0x838b2711, 0x26352d63, 0x1efbc0a0, 0xf0781bc8);
    assert Round(v41, 0xa81a664b, 0xf0a64f5a) == v42;
    RoundsStep(BLOCK_OF_ABC, INITIAL, 41);
    var v43 := Words(0x17aa0dfe, 0xdf46652f, 0xd6670766, 0x79ea687a, 0xdecd4715, 0x838b2711, 0x26352d63, 0x1efbc0a0);
    assert Round(v42, 0xc24b8b70, 0x3e246a79) == v43;
    RoundsStep(BLOCK_OF_ABC, INITIAL, 42);
    var v44 := Words(0x9d4baf93, 0x17aa0dfe, 0xdf46652f, 0xd6670766, 0xfda24c2e, 0xdecd4715, 0x838b2711, 0x26352d63);
    assert Round(v43, 0xc76c51a3, 0x27333ba3) == v44;
    RoundsStep(BLOCK_OF_ABC, INITIAL, 43);
  }

  lemma Rounds44()
    ensures Rounds(BLOCK_OF_ABC, INITIAL, 48) ==
      Words(0x4172328d, 0xa14c14b0, 0x72ab4b91, 0x26628815, 0xfecf0bc6, 0xd57b94a9, 0xb7755da1, 0xa80f11f0)
  {
    hide Schedule, Rounds;
    Schedule40();
    Rounds40();
    var v44 := Words(0x9d4baf93, 0x17aa0dfe, 0xdf46652f, 0xd6670766, 0xfda24c2e, 0xdecd4715, 0x838b2711, 0x26352d63);
    var v45 := Words(0x26628815, 0x9d4baf93, 0x17aa0dfe, 0xdf46652f, 0xa80f11f0, 0xfda24c2e, 0xdecd4715, 0x838b2711);
    assert Round(v44, 0xd192e819, 0x0c4763f2) == v45;
    RoundsStep(BLOCK_OF_ABC, INITIAL, 44);
    var v46 := Words(0x72ab4b91, 0x26628815, 0x9d4baf93, 0x17aa0dfe, 0xb7755da1, 0xa80f11f0, 0xfda24c2e, 0xdecd4715);
    assert Round(v45, 0xd6990624, 0x840abf27) == v46;
    RoundsStep(BLOCK_OF_ABC, INITIAL, 45);
    var v47 := Words(0xa14c14b0, 0x72ab4b91, 0x26628815, 0x9d4baf93, 0xd57b94a9, 0xb7755da1, 0xa80f11f0, 0xfda24c2e);
    assert Round(v46, 0xf40e3585, 0x7a290d5d) == v47;
    RoundsStep(BLOCK_OF_ABC, INITIAL, 46);
    var v48 := Words(0x4172328d, 0xa14c14b0, 0x72ab4b91, 0x26628815, 0xfecf0bc6, 0xd57b94a9, 0xb7755da1, 0xa80f11f0);
    assert Round(v47, 0x106aa070, 0x065c43da) == v48;
    RoundsStep(BLOCK_OF_ABC, INITIAL, 47);
  }

  lemma Rounds48()
    ensures Rounds(BLOCK_OF_ABC, INITIAL, 52) ==
      Words(0x886e7a22, 0x7a0508a1, 0xf11bfaa8, 0x05757ceb, 0x49231c1e, 0x52f1ccf7, 0x6e5c390c, 0xbd714038)
  {
    hide Schedule, Rounds;
    Schedule48();
    Rounds44();
    var v48 := Words(0x4172328d, 0xa14c14b0, 0x72ab4b91, 0x26628815, 0xfecf0bc6, 0xd57b94a9, 0xb7755da1, 0xa80f11f0);
    var v49 := Words(0x05757ceb, 0x4172328d, 0xa14c14b0, 0x72ab4b91, 0xbd714038, 0xfecf0bc6, 0xd57b94a9, 0xb7755da1);
    assert Round(v48, 0x19a4c116, 0xfb3e89cb) == v49;
    RoundsStep(BLOCK_OF_ABC, INITIAL, 48);
    var v50 := Words(0xf11bfaa8, 0x05757ceb, 0x4172328d, 0xa14c14b0, 0x6e5c390c, 0xbd714038, 0xfecf0bc6, 0xd57b94a9);
    assert Round(v49, 0x1e376c08, 0xcc7617db) == v50;
    RoundsStep(BLOCK_OF_ABC, INITIAL, 49);
    var v51 := Words(0x7a0508a1, 0xf11bfaa8, 0x05757ceb, 0x4172328d, 0x52f1ccf7, 0x6e5c390c, 0xbd714038, 0xfecf0bc6);
    assert Round(v50, 0x2748774c, 0xb9e66c34) == v51;
    RoundsStep(BLOCK_OF_ABC, INITIAL, 50);
    var v52 := Words(0x886e7a22, 0x7a0508a1, 0xf11bfaa8, 0x05757ceb, 0x49231c1e, 0x52f1ccf7, 0x6e5c390c, 0xbd714038);
    assert Round(v51, 0x34b0bcb5, 0xa9993667) == v52;
    RoundsStep(BLOCK_OF_ABC, INITIAL, 51);
  }

  lemma Rounds52()
    ensures Rounds(BLOCK_OF_ABC, INITIAL, 56) ==
      Words(0x38cc9913, 0x3ec45cdb, 0xf5702fdb, 0x101fd28f, 0x54cb266b, 0xe50e1b4f, 0x9f4787c3, 0x529e7d00)
  {
    hide Schedule, Rounds;
    Schedule48();
    Rounds48();
    var v52 := Words(0x886e7a22, 0x7a0508a1, 0xf11bfaa8, 0x05757ceb, 0x49231c1e, 0x52f1ccf7, 0x6e5c390c, 0xbd714038);
    var v53 := Words(0x101fd28f, 0x886e7a22, 0x7a0508a1, 0xf11bfaa8, 0x529e7d00, 0x49231c1e, 0x52f1ccf7, 0x6e5c390c);
    assert Round(v52, 0x391c0cb3, 0x84badedd) == v53;
    RoundsStep(BLOCK_OF_ABC, INITIAL, 52);
    var v54 := Words(0xf5702fdb, 0x101fd28f, 0x886e7a22, 0x7a0508a1, 0x9f4787c3, 0x529e7d00, 0x49231c1e, 0x52f1ccf7);
    assert Round(v53, 0x4ed8aa4a, 0xc21462bc) == v54;
    RoundsStep(BLOCK_OF_ABC, INITIAL, 53);
    var v55 := Words(0x3ec45cdb, 0xf5702fdb, 0x101fd28f, 0x886e7a22, 0xe50e1b4f, 0x9f4787c3, 0x529e7d00, 0x49231c1e);
    assert Round(v54, 0x5b9cca4f, 0x1487472c) == v55;
    RoundsStep(BLOCK_OF_ABC, INITIAL, 54);
    var v56 := Words(0x38cc9913, 0x3ec45cdb, 0xf5702fdb, 0x101fd28f, 0x54cb266b, 0xe50e1b4f, 0x9f4787c3, 0x529e7d00);
    assert Round(v55, 0x682e6ff3, 0xb20f7a99) == v56;
    RoundsStep(BLOCK_OF_ABC, INITIAL, 55);
  }

  lemma Rounds56()
    ensures Rounds(BLOCK_OF_ABC, INITIAL, 60) ==
      Words(0xb6ae8fff, 0xffb70472, 0xc062d46f, 0xfcd1887b, 0xb21bad3d, 0x6d83bfc6, 0x7e44008e, 0x9b5e906c)
  {
    hide Schedule, Rounds;
    Schedule56();
    Rounds52();
    var v56 := Words(0x38cc9913, 0x3ec45cdb, 0xf5702fdb, 0x101fd28f, 0x54cb266b, 0xe50e1b4f, 0x9f4787c3, 0x529e7d00);
    var v57 := Words(0xfcd1887b, 0x38cc9913, 0x3ec45cdb, 0xf5702fdb, 0x9b5e906c, 0x54cb266b, 0xe50e1b4f, 0x9f4787c3);
    assert Round(v56, 0x748f82ee, 0xef57b9cd) == v57;
    RoundsStep(BLOCK_OF_ABC, INITIAL, 56);
    var v58 := Words(0xc062d46f, 0xfcd1887b, 0x38cc9913, 0x3ec45cdb, 0x7e44008e, 0x9b5e906c, 0x54cb266b, 0xe50e1b4f);
    assert Round(v57, 0x78a5636f, 0xebe6b238) == v58;
    RoundsStep(BLOCK_OF_ABC, INITIAL, 57);
    var v59 := Words(0xffb70472, 0xc062d46f, 0xfcd1887b, 0x38cc9913, 0x6d83bfc6, 0x7e44008e, 0x9b5e906c, 0x54cb266b);
    assert Round(v58, 0x84c87814, 0x9fe3095e) == v59;
    RoundsStep(BLOCK_OF_ABC, INITIAL, 58);
    var v60 := Words(0xb6ae8fff, 0xffb70472, 0xc062d46f, 0xfcd1887b, 0xb21bad3d, 0x6d83bfc6, 0x7e44008e, 0x9b5e906c);
    assert Round(v59, 0x8cc70208, 0x78bc8d4b) == v60;
    RoundsStep(BLOCK_OF_ABC, INITIAL, 59);
  }

  lemma Rounds60()
    ensures Rounds(BLOCK_OF_ABC, INITIAL, 64) ==
      Words(0x506e3058, 0xd39a2165, 0x04d24d6c, 0xb85e2ce9, 0x5ef50f24, 0xfb121210, 0x948d25b6, 0x961f4894)
  {
    hide Schedule, Rounds;
    Schedule56();
    Rounds56();
    var v60 := Words(0xb6ae8fff, 0xffb70472, 0xc062d46f, 0xfcd1887b, 0xb21bad3d, 0x6d83bfc6, 0x7e44008e, 0x9b5e906c);
    var v61 := Words(0xb85e2ce9, 0xb6ae8fff, 0xffb70472, 0xc062d46f, 0x961f4894, 0xb21bad3d, 0x6d83bfc6, 0x7e44008e);
    assert Round(v60, 0x90befffa, 0xa43fcf15) == v61;
    RoundsStep(BLOCK_OF_ABC, INITIAL, 60);
    var v62 := Words(0x04d24d6c, 0xb85e2ce9, 0xb6ae8fff, 0xffb70472, 0x948d25b6, 0x961f4894, 0xb21bad3d, 0x6d83bfc6);
    assert Round(v61, 0xa4506ceb, 0x668b2ff8) == v62;
    RoundsStep(BLOCK_OF_ABC, INITIAL, 61);
    var v63 := Words(0xd39a2165, 0x04d24d6c, 0xb85e2ce9, 0xb6ae8fff, 0xfb121210, 0x948d25b6, 0x961f4894, 0xb21bad3d);
    assert Round(v62, 0xbef9a3f7, 0xeeaba2cc) == v63;
    RoundsStep(BLOCK_OF_ABC, INITIAL, 62);
    var v64 := Words(0x506e3058, 0xd39a2165, 0x04d24d6c, 0xb85e2ce9, 0x5ef50f24, 0xfb121210, 0x948d25b6, 0x961f4894);
    assert Round(v63, 0xc67178f2, 0x12b1edeb) == v64;
    RoundsStep(BLOCK_OF_ABC, INITIAL, 63);
  }

  /** The published digest of "abc". */
  lemma HashOfAbc()
    ensures Hash(ABC) == [
      0xba, 0x78, 0x16, 0xbf, 0x8f, 0x01, 0xcf, 0xea, 0x41, 0x41, 0x40, 0xde, 0x5d, 0xae, 0x22, 0x23,
      0xb0, 0x03, 0x61, 0xa3, 0x96, 0x17, 0x7a, 0x9c, 0xb4, 0x10, 0xff, 0x61, 0xf2, 0x00, 0x15, 0xad]
  {
    hide Rounds, Schedule, Padding;
    Padded();
    OneBlock(INITIAL, BLOCK_OF_ABC);
    Rounds60();
    assert Compress(INITIAL, BLOCK_OF_ABC) ==
      Words(0xba7816bf, 0x8f01cfea, 0x414140de, 0x5dae2223, 0xb00361a3, 0x96177a9c, 0xb410ff61, 0xf20015ad);
  }
}
