/**
  What the constants and functions of SHA-256 are, said as FIPS 180-4 says it: the words
  are fractional parts of roots of primes (sections 4.2.2 and 5.3.3), and the logical
  functions act on bits (section 4.1.2).
 */
module Sha256Standard {
  import opened Types
  import Codec
  import opened Sha256

  // ---- primes -----------------------------------------------------------------

  const PRIMES: seq<seq<nat>> := [
    [2, 3, 5, 7, 11, 13, 17, 19],
    [23, 29, 31, 37, 41, 43, 47, 53],
    [59, 61, 67, 71, 73, 79, 83, 89],
    [97, 101, 103, 107, 109, 113, 127, 131],
    [137, 139, 149, 151, 157, 163, 167, 173],
    [179, 181, 191, 193, 197, 199, 211, 223],
    [227, 229, 233, 239, 241, 251, 257, 263],
    [269, 271, 277, 281, 283, 293, 307, 311]]

  /** The primes in order, from two. */
  function Prime(i: nat): nat
    requires i < 64
  {
    PRIMES[i / 8][i % 8]
  }

  predicate IsPrime(n: nat) {
    n >= 2 && forall d | 2 <= d < n :: n % d != 0
  }

  /** Has none of the primes up to seventeen as a proper divisor. */
  predicate Sifted(n: nat) {
    && n >= 2
    && (n == 2 || n % 2 != 0) && (n == 3 || n % 3 != 0) && (n == 5 || n % 5 != 0) && (n == 7 || n % 7 != 0)
    && (n == 11 || n % 11 != 0) && (n == 13 || n % 13 != 0) && (n == 17 || n % 17 != 0)
  }

  lemma SmallFactor(n: nat, d: nat)
    requires 2 <= d <= 17 && d < n && n % d == 0
    ensures !Sifted(n)
  {
    if d % 2 == 0 {
      Divides(n, d, 2);
    } else if d % 3 == 0 {
      Divides(n, d, 3);
    }
  }

  lemma Divides(n: nat, d: nat, e: nat)
    requires d > 0 && e > 0 && n % d == 0 && d % e == 0
    ensures n % e == 0
  {
    var a, b := d / e, n / d;
    assert n == d * b && d == e * a;
    Regroup(e, a, b);
    MultipleOf(e, a * b);
  }

  lemma Regroup(e: nat, a: nat, b: nat)
    ensures e * a * b == e * (a * b)
  {
  }

  lemma MultipleOf(e: nat, k: nat)
    requires e > 0
    ensures e * k % e == 0
  {
    var r, q := e * k % e, e * k / e;
    assert e * k == e * q + r;
    Distributes(e, k, q);
    if k > q { Grows(e, 1, k - q); }
    if k < q { Grows(e, 1, q - k); }
  }

  lemma Distributes(e: int, k: int, q: int)
    ensures e * (k - q) == e * k - e * q && e * (q - k) == e * q - e * k
  {
  }

  lemma Grows(e: nat, a: nat, b: nat)
    requires a <= b
    ensures e * a <= e * b
  {
  }

  lemma SiftedIff(n: nat)
    requires n < 18 * 18
    ensures Sifted(n) <==> IsPrime(n)
  {
    if Sifted(n) {
      forall d | 2 <= d < n ensures n % d != 0 {
        if n % d == 0 { CofactorSmall(n, d); }
      }
    }
  }

  lemma CofactorSmall(n: nat, d: nat)
    requires n < 18 * 18 && 2 <= d < n && n % d == 0
    ensures !Sifted(n)
  {
    hide Sifted;
    var e := n / d;
    assert n == d * e;
    if d <= 17 {
      SmallFactor(n, d);
    } else {
      Bounded(d, e, n);
      MultipleOf(e, d);
      SmallFactor(n, e);
    }
  }

  lemma Bounded(d: nat, e: nat, n: nat)
    requires n == d * e && 18 <= d < n < 18 * 18
    ensures 2 <= e <= 17 && e < n && n == e * d
  {
    Grows(e, 18, d);
    assert e * d == d * e;
  }

  /** Every entry is a prime. */
  lemma PrimeIs(i: nat)
    requires i < 64
    ensures IsPrime(Prime(i))
  {
    hide IsPrime, Sifted;
    SiftedIff(Prime(i));
    match i / 8
    case 0 => SiftedRow0();
    case 1 => SiftedRow1();
    case 2 => SiftedRow2();
    case 3 => SiftedRow3();
    case 4 => SiftedRow4();
    case 5 => SiftedRow5();
    case 6 => SiftedRow6();
    case 7 => SiftedRow7();
  }

  lemma SiftedRow0()
    ensures Sifted(2) && Sifted(3) && Sifted(5) && Sifted(7)
    ensures Sifted(11) && Sifted(13) && Sifted(17) && Sifted(19)
  {
  }

  lemma SiftedRow1()
    ensures Sifted(23) && Sifted(29) && Sifted(31) && Sifted(37)
    ensures Sifted(41) && Sifted(43) && Sifted(47) && Sifted(53)
  {
  }

  lemma SiftedRow2()
    ensures Sifted(59) && Sifted(61) && Sifted(67) && Sifted(71)
    ensures Sifted(73) && Sifted(79) && Sifted(83) && Sifted(89)
  {
  }

  lemma SiftedRow3()
    ensures Sifted(97) && Sifted(101) && Sifted(103) && Sifted(107)
    ensures Sifted(109) && Sifted(113) && Sifted(127) && Sifted(131)
  {
  }

  lemma SiftedRow4()
    ensures Sifted(137) && Sifted(139) && Sifted(149) && Sifted(151)
    ensures Sifted(157) && Sifted(163) && Sifted(167) && Sifted(173)
  {
  }

  lemma SiftedRow5()
    ensures Sifted(179) && Sifted(181) && Sifted(191) && Sifted(193)
    ensures Sifted(197) && Sifted(199) && Sifted(211) && Sifted(223)
  {
  }

  lemma SiftedRow6()
    ensures Sifted(227) && Sifted(229) && Sifted(233) && Sifted(239)
    ensures Sifted(241) && Sifted(251) && Sifted(257) && Sifted(263)
  {
  }

  lemma SiftedRow7()
    ensures Sifted(269) && Sifted(271) && Sifted(277) && Sifted(281)
    ensures Sifted(283) && Sifted(293) && Sifted(307) && Sifted(311)
  {
  }

  /** And no prime is left out between one entry and the next. */
  lemma NoneBetween(i: nat, n: nat)
    requires i < 63 && Prime(i) < n < Prime(i + 1)
    ensures !IsPrime(n)
  {
    hide IsPrime, Sifted;
    SiftedIff(n);
    match i / 8
    case 0 => Between0(i, n);
    case 1 => Between8(i, n);
    case 2 => Between16(i, n);
    case 3 => Between24(i, n);
    case 4 => Between32(i, n);
    case 5 => Between40(i, n);
    case 6 => Between48(i, n);
    case 7 => Between56(i, n);
  }

  lemma Between0(i: nat, n: nat)
    requires 0 <= i < 8 && Prime(i) < n < Prime(i + 1)
    ensures !Sifted(n)
  {
    hide Sifted;
    Gaps0(n);
  }

  lemma Gaps0(n: nat)
    requires 2 < n < 23 && n != 3 && n != 5 && n != 7 && n != 11 && n != 13 && n != 17 && n != 19
    ensures !Sifted(n)
  {
  }

  lemma Between8(i: nat, n: nat)
    requires 8 <= i < 16 && Prime(i) < n < Prime(i + 1)
    ensures !Sifted(n)
  {
    hide Sifted;
    Gaps8(n);
  }

  lemma Gaps8(n: nat)
    requires 23 < n < 59 && n != 29 && n != 31 && n != 37 && n != 41 && n != 43 && n != 47 && n != 53
    ensures !Sifted(n)
  {
    assert n % 2 != 0 && n % 3 != 0 ==> n in {25, 35, 49, 55};
  }

  lemma Between16(i: nat, n: nat)
    requires 16 <= i < 24 && Prime(i) < n < Prime(i + 1)
    ensures !Sifted(n)
  {
    hide Sifted;
    Gaps16(n);
  }

  lemma Gaps16(n: nat)
    requires 59 < n < 97 && n != 61 && n != 67 && n != 71 && n != 73 && n != 79 && n != 83 && n != 89
    ensures !Sifted(n)
  {
    assert n % 2 != 0 && n % 3 != 0 ==> n in {65, 77, 85, 91, 95};
  }

  lemma Between24(i: nat, n: nat)
    requires 24 <= i < 32 && Prime(i) < n < Prime(i + 1)
    ensures !Sifted(n)
  {
    hide Sifted;
    Gaps24(n);
  }

  lemma Gaps24(n: nat)
    requires 97 < n < 137 && n != 101 && n != 103 && n != 107 && n != 109 && n != 113 && n != 127 && n != 131
    ensures !Sifted(n)
  {
    assert n % 2 != 0 && n % 3 != 0 ==> n in {115, 119, 121, 125, 133};
  }

  lemma Between32(i: nat, n: nat)
    requires 32 <= i < 40 && Prime(i) < n < Prime(i + 1)
    ensures !Sifted(n)
  {
    hide Sifted;
    Gaps32(n);
  }

  lemma Gaps32(n: nat)
    requires 137 < n < 179 && n != 139 && n != 149 && n != 151 && n != 157 && n != 163 && n != 167 && n != 173
    ensures !Sifted(n)
  {
    assert n % 2 != 0 && n % 3 != 0 ==> n in {143, 145, 155, 161, 169, 175};
  }

  lemma Between40(i: nat, n: nat)
    requires 40 <= i < 48 && Prime(i) < n < Prime(i + 1)
    ensures !Sifted(n)
  {
    hide Sifted;
    Gaps40(n);
  }

  lemma Gaps40(n: nat)
    requires 179 < n < 227 && n != 181 && n != 191 && n != 193 && n != 197 && n != 199 && n != 211 && n != 223
    ensures !Sifted(n)
  {
    assert n % 2 != 0 && n % 3 != 0 ==> n in {185, 187, 203, 205, 209, 215, 217, 221};
  }

  lemma Between48(i: nat, n: nat)
    requires 48 <= i < 56 && Prime(i) < n < Prime(i + 1)
    ensures !Sifted(n)
  {
    hide Sifted;
    Gaps48(n);
  }

  lemma Gaps48(n: nat)
    requires 227 < n < 269 && n != 229 && n != 233 && n != 239 && n != 241 && n != 251 && n != 257 && n != 263
    ensures !Sifted(n)
  {
    assert n % 2 != 0 && n % 3 != 0 ==> n in {235, 245, 247, 253, 259, 265};
  }

  lemma Between56(i: nat, n: nat)
    requires 56 <= i < 63 && Prime(i) < n < Prime(i + 1)
    ensures !Sifted(n)
  {
    hide Sifted;
    Gaps56(n);
  }

  lemma Gaps56(n: nat)
    requires 269 < n < 311 && n != 271 && n != 277 && n != 281 && n != 283 && n != 293 && n != 307
    ensures !Sifted(n)
  {
    assert n % 2 != 0 && n % 3 != 0 ==> n in {275, 287, 289, 295, 299, 301, 305};
  }

  // ---- roots ------------------------------------------------------------------

  const WORD_LIMIT := 0x1_0000_0000
  const SCALE_2 := 0x1_0000_0000_0000_0000
  const SCALE_3 := 0x1_0000_0000_0000_0000_0000_0000

  /** `n` is the square root of `x`, rounded down. */
  predicate IsSquareRoot(n: nat, x: nat) {
    n * n <= x < (n + 1) * (n + 1)
  }

  predicate IsCubeRoot(n: nat, x: nat) {
    n * n * n <= x < (n + 1) * (n + 1) * (n + 1)
  }

  lemma SquareUnique(n: nat, m: nat, x: nat)
    requires IsSquareRoot(n, x) && IsSquareRoot(m, x)
    ensures n == m
  {
    if n < m { SquareGrows(n + 1, m); }
    if m < n { SquareGrows(m + 1, n); }
  }

  lemma SquareGrows(a: nat, b: nat)
    requires a <= b
    ensures a * a <= b * b
  {
  }

  lemma CubeUnique(n: nat, m: nat, x: nat)
    requires IsCubeRoot(n, x) && IsCubeRoot(m, x)
    ensures n == m
  {
    if n < m { CubeGrows(n + 1, m); }
    if m < n { CubeGrows(m + 1, n); }
  }

  lemma CubeGrows(a: nat, b: nat)
    requires a <= b
    ensures a * a * a <= b * b * b
  {
    SquareGrows(a, b);
    assert a * a * a <= b * b * a;
    assert b * b * a <= b * b * b;
  }

  lemma SquareWord(w: bv32, n: nat, m: nat, x: nat)
    requires IsSquareRoot(n, x) && IsSquareRoot(m, x) && w as nat == m % WORD_LIMIT
    ensures w as nat == n % WORD_LIMIT
  {
    hide IsSquareRoot;
    SquareUnique(n, m, x);
  }

  lemma CubeWord(w: bv32, n: nat, m: nat, x: nat)
    requires IsCubeRoot(n, x) && IsCubeRoot(m, x) && w as nat == m % WORD_LIMIT
    ensures w as nat == n % WORD_LIMIT
  {
    hide IsCubeRoot;
    CubeUnique(n, m, x);
  }

  /** Section 5.3.3: the first 32 bits of the fractional part of the square root of the i-th prime. */
  lemma InitialWords(i: nat, n: nat)
    requires i < 8 && IsSquareRoot(n, Prime(i) * SCALE_2)
    ensures WordAt(INITIAL, i) as nat == n % WORD_LIMIT
  {
    hide IsSquareRoot;
    SquareRoots();
    match i
    case 0 => SquareWord(0x6a09e667, n, 0x1_6a09e667, 2 * SCALE_2);
    case 1 => SquareWord(0xbb67ae85, n, 0x1_bb67ae85, 3 * SCALE_2);
    case 2 => SquareWord(0x3c6ef372, n, 0x2_3c6ef372, 5 * SCALE_2);
    case 3 => SquareWord(0xa54ff53a, n, 0x2_a54ff53a, 7 * SCALE_2);
    case 4 => SquareWord(0x510e527f, n, 0x3_510e527f, 11 * SCALE_2);
    case 5 => SquareWord(0x9b05688c, n, 0x3_9b05688c, 13 * SCALE_2);
    case 6 => SquareWord(0x1f83d9ab, n, 0x4_1f83d9ab, 17 * SCALE_2);
    case 7 => SquareWord(0x5be0cd19, n, 0x4_5be0cd19, 19 * SCALE_2);
  }

  lemma SquareRoots()
    ensures IsSquareRoot(0x1_6a09e667, 2 * SCALE_2)
    ensures IsSquareRoot(0x1_bb67ae85, 3 * SCALE_2)
    ensures IsSquareRoot(0x2_3c6ef372, 5 * SCALE_2)
    ensures IsSquareRoot(0x2_a54ff53a, 7 * SCALE_2)
    ensures IsSquareRoot(0x3_510e527f, 11 * SCALE_2)
    ensures IsSquareRoot(0x3_9b05688c, 13 * SCALE_2)
    ensures IsSquareRoot(0x4_1f83d9ab, 17 * SCALE_2)
    ensures IsSquareRoot(0x4_5be0cd19, 19 * SCALE_2)
  {
  }

  /** Section 4.2.2: the first 32 bits of the fractional part of the cube root of the i-th prime. */
  lemma RoundConstants(i: nat, n: nat)
    requires i < 64 && IsCubeRoot(n, Prime(i) * SCALE_3)
    ensures RoundConstant(i) as nat == n % WORD_LIMIT
  {
    if i < 16 {
      RoundConstants0(i, n);
    } else if i < 32 {
      RoundConstants16(i, n);
    } else if i < 48 {
      RoundConstants32(i, n);
    } else {
      RoundConstants48(i, n);
    }
  }

  lemma RoundConstants0(i: nat, n: nat)
    requires 0 <= i < 16 && IsCubeRoot(n, Prime(i) * SCALE_3)
    ensures RoundConstant(i) as nat == n % WORD_LIMIT
  {
    hide IsCubeRoot;
    CubeRoots0();
    match i
    case 0 => CubeWord(0x428a2f98, n, 0x1_428a2f98, 2 * SCALE_3);
    case 1 => CubeWord(0x71374491, n, 0x1_71374491, 3 * SCALE_3);
    case 2 => CubeWord(0xb5c0fbcf, n, 0x1_b5c0fbcf, 5 * SCALE_3);
    case 3 => CubeWord(0xe9b5dba5, n, 0x1_e9b5dba5, 7 * SCALE_3);
    case 4 => CubeWord(0x3956c25b, n, 0x2_3956c25b, 11 * SCALE_3);
    case 5 => CubeWord(0x59f111f1, n, 0x2_59f111f1, 13 * SCALE_3);
    case 6 => CubeWord(0x923f82a4, n, 0x2_923f82a4, 17 * SCALE_3);
    case 7 => CubeWord(0xab1c5ed5, n, 0x2_ab1c5ed5, 19 * SCALE_3);
    case 8 => CubeWord(0xd807aa98, n, 0x2_d807aa98, 23 * SCALE_3);
    case 9 => CubeWord(0x12835b01, n, 0x3_12835b01, 29 * SCALE_3);
    case 10 => CubeWord(0x243185be, n, 0x3_243185be, 31 * SCALE_3);
    case 11 => CubeWord(0x550c7dc3, n, 0x3_550c7dc3, 37 * SCALE_3);
    case 12 => CubeWord(0x72be5d74, n, 0x3_72be5d74, 41 * SCALE_3);
    case 13 => CubeWord(0x80deb1fe, n, 0x3_80deb1fe, 43 * SCALE_3);
    case 14 => CubeWord(0x9bdc06a7, n, 0x3_9bdc06a7, 47 * SCALE_3);
    case 15 => CubeWord(0xc19bf174, n, 0x3_c19bf174, 53 * SCALE_3);
  }

  lemma CubeRoots0()
    ensures IsCubeRoot(0x1_428a2f98, 2 * SCALE_3)
    ensures IsCubeRoot(0x1_71374491, 3 * SCALE_3)
    ensures IsCubeRoot(0x1_b5c0fbcf, 5 * SCALE_3)
    ensures IsCubeRoot(0x1_e9b5dba5, 7 * SCALE_3)
    ensures IsCubeRoot(0x2_3956c25b, 11 * SCALE_3)
    ensures IsCubeRoot(0x2_59f111f1, 13 * SCALE_3)
    ensures IsCubeRoot(0x2_923f82a4, 17 * SCALE_3)
    ensures IsCubeRoot(0x2_ab1c5ed5, 19 * SCALE_3)
    ensures IsCubeRoot(0x2_d807aa98, 23 * SCALE_3)
    ensures IsCubeRoot(0x3_12835b01, 29 * SCALE_3)
    ensures IsCubeRoot(0x3_243185be, 31 * SCALE_3)
    ensures IsCubeRoot(0x3_550c7dc3, 37 * SCALE_3)
    ensures IsCubeRoot(0x3_72be5d74, 41 * SCALE_3)
    ensures IsCubeRoot(0x3_80deb1fe, 43 * SCALE_3)
    ensures IsCubeRoot(0x3_9bdc06a7, 47 * SCALE_3)
    ensures IsCubeRoot(0x3_c19bf174, 53 * SCALE_3)
  {
  }

  lemma RoundConstants16(i: nat, n: nat)
    requires 16 <= i < 32 && IsCubeRoot(n, Prime(i) * SCALE_3)
    ensures RoundConstant(i) as nat == n % WORD_LIMIT
  {
    hide IsCubeRoot;
    CubeRoots16();
    match i
    case 16 => CubeWord(0xe49b69c1, n, 0x3_e49b69c1, 59 * SCALE_3);
    case 17 => CubeWord(0xefbe4786, n, 0x3_efbe4786, 61 * SCALE_3);
    case 18 => CubeWord(0x0fc19dc6, n, 0x4_0fc19dc6, 67 * SCALE_3);
    case 19 => CubeWord(0x240ca1cc, n, 0x4_240ca1cc, 71 * SCALE_3);
    case 20 => CubeWord(0x2de92c6f, n, 0x4_2de92c6f, 73 * SCALE_3);
    case 21 => CubeWord(0x4a7484aa, n, 0x4_4a7484aa, 79 * SCALE_3);
    case 22 => CubeWord(0x5cb0a9dc, n, 0x4_5cb0a9dc, 83 * SCALE_3);
    case 23 => CubeWord(0x76f988da, n, 0x4_76f988da, 89 * SCALE_3);
    case 24 => CubeWord(0x983e5152, n, 0x4_983e5152, 97 * SCALE_3);
    case 25 => CubeWord(0xa831c66d, n, 0x4_a831c66d, 101 * SCALE_3);
    case 26 => CubeWord(0xb00327c8, n, 0x4_b00327c8, 103 * SCALE_3);
    case 27 => CubeWord(0xbf597fc7, n, 0x4_bf597fc7, 107 * SCALE_3);
    case 28 => CubeWord(0xc6e00bf3, n, 0x4_c6e00bf3, 109 * SCALE_3);
    case 29 => CubeWord(0xd5a79147, n, 0x4_d5a79147, 113 * SCALE_3);
    case 30 => CubeWord(0x06ca6351, n, 0x5_06ca6351, 127 * SCALE_3);
    case 31 => CubeWord(0x14292967, n, 0x5_14292967, 131 * SCALE_3);
  }

  lemma CubeRoots16()
    ensures IsCubeRoot(0x3_e49b69c1, 59 * SCALE_3)
    ensures IsCubeRoot(0x3_efbe4786, 61 * SCALE_3)
    ensures IsCubeRoot(0x4_0fc19dc6, 67 * SCALE_3)
    ensures IsCubeRoot(0x4_240ca1cc, 71 * SCALE_3)
    ensures IsCubeRoot(0x4_2de92c6f, 73 * SCALE_3)
    ensures IsCubeRoot(0x4_4a7484aa, 79 * SCALE_3)
    ensures IsCubeRoot(0x4_5cb0a9dc, 83 * SCALE_3)
    ensures IsCubeRoot(0x4_76f988da, 89 * SCALE_3)
    ensures IsCubeRoot(0x4_983e5152, 97 * SCALE_3)
    ensures IsCubeRoot(0x4_a831c66d, 101 * SCALE_3)
    ensures IsCubeRoot(0x4_b00327c8, 103 * SCALE_3)
    ensures IsCubeRoot(0x4_bf597fc7, 107 * SCALE_3)
    ensures IsCubeRoot(0x4_c6e00bf3, 109 * SCALE_3)
    ensures IsCubeRoot(0x4_d5a79147, 113 * SCALE_3)
    ensures IsCubeRoot(0x5_06ca6351, 127 * SCALE_3)
    ensures IsCubeRoot(0x5_14292967, 131 * SCALE_3)
  {
  }

  lemma RoundConstants32(i: nat, n: nat)
    requires 32 <= i < 48 && IsCubeRoot(n, Prime(i) * SCALE_3)
    ensures RoundConstant(i) as nat == n % WORD_LIMIT
  {
    hide IsCubeRoot;
    CubeRoots32();
    match i
    case 32 => CubeWord(0x27b70a85, n, 0x5_27b70a85, 137 * SCALE_3);
    case 33 => CubeWord(0x2e1b2138, n, 0x5_2e1b2138, 139 * SCALE_3);
    case 34 => CubeWord(0x4d2c6dfc, n, 0x5_4d2c6dfc, 149 * SCALE_3);
    case 35 => CubeWord(0x53380d13, n, 0x5_53380d13, 151 * SCALE_3);
    case 36 => CubeWord(0x650a7354, n, 0x5_650a7354, 157 * SCALE_3);
    case 37 => CubeWord(0x766a0abb, n, 0x5_766a0abb, 163 * SCALE_3);
    case 38 => CubeWord(0x81c2c92e, n, 0x5_81c2c92e, 167 * SCALE_3);
    case 39 => CubeWord(0x92722c85, n, 0x5_92722c85, 173 * SCALE_3);
    case 40 => CubeWord(0xa2bfe8a1, n, 0x5_a2bfe8a1, 179 * SCALE_3);
    case 41 => CubeWord(0xa81a664b, n, 0x5_a81a664b, 181 * SCALE_3);
    case 42 => CubeWord(0xc24b8b70, n, 0x5_c24b8b70, 191 * SCALE_3);
    case 43 => CubeWord(0xc76c51a3, n, 0x5_c76c51a3, 193 * SCALE_3);
    case 44 => CubeWord(0xd192e819, n, 0x5_d192e819, 197 * SCALE_3);
    case 45 => CubeWord(0xd6990624, n, 0x5_d6990624, 199 * SCALE_3);
    case 46 => CubeWord(0xf40e3585, n, 0x5_f40e3585, 211 * SCALE_3);
    case 47 => CubeWord(0x106aa070, n, 0x6_106aa070, 223 * SCALE_3);
  }

  lemma CubeRoots32()
    ensures IsCubeRoot(0x5_27b70a85, 137 * SCALE_3)
    ensures IsCubeRoot(0x5_2e1b2138, 139 * SCALE_3)
    ensures IsCubeRoot(0x5_4d2c6dfc, 149 * SCALE_3)
    ensures IsCubeRoot(0x5_53380d13, 151 * SCALE_3)
    ensures IsCubeRoot(0x5_650a7354, 157 * SCALE_3)
    ensures IsCubeRoot(0x5_766a0abb, 163 * SCALE_3)
    ensures IsCubeRoot(0x5_81c2c92e, 167 * SCALE_3)
    ensures IsCubeRoot(0x5_92722c85, 173 * SCALE_3)
    ensures IsCubeRoot(0x5_a2bfe8a1, 179 * SCALE_3)
    ensures IsCubeRoot(0x5_a81a664b, 181 * SCALE_3)
    ensures IsCubeRoot(0x5_c24b8b70, 191 * SCALE_3)
    ensures IsCubeRoot(0x5_c76c51a3, 193 * SCALE_3)
    ensures IsCubeRoot(0x5_d192e819, 197 * SCALE_3)
    ensures IsCubeRoot(0x5_d6990624, 199 * SCALE_3)
    ensures IsCubeRoot(0x5_f40e3585, 211 * SCALE_3)
    ensures IsCubeRoot(0x6_106aa070, 223 * SCALE_3)
  {
  }

  lemma RoundConstants48(i: nat, n: nat)
    requires 48 <= i < 64 && IsCubeRoot(n, Prime(i) * SCALE_3)
    ensures RoundConstant(i) as nat == n % WORD_LIMIT
  {
    hide IsCubeRoot;
    CubeRoots48();
    match i
    case 48 => CubeWord(0x19a4c116, n, 0x6_19a4c116, 227 * SCALE_3);
    case 49 => CubeWord(0x1e376c08, n, 0x6_1e376c08, 229 * SCALE_3);
    case 50 => CubeWord(0x2748774c, n, 0x6_2748774c, 233 * SCALE_3);
    case 51 => CubeWord(0x34b0bcb5, n, 0x6_34b0bcb5, 239 * SCALE_3);
    case 52 => CubeWord(0x391c0cb3, n, 0x6_391c0cb3, 241 * SCALE_3);
    case 53 => CubeWord(0x4ed8aa4a, n, 0x6_4ed8aa4a, 251 * SCALE_3);
    case 54 => CubeWord(0x5b9cca4f, n, 0x6_5b9cca4f, 257 * SCALE_3);
    case 55 => CubeWord(0x682e6ff3, n, 0x6_682e6ff3, 263 * SCALE_3);
    case 56 => CubeWord(0x748f82ee, n, 0x6_748f82ee, 269 * SCALE_3);
    case 57 => CubeWord(0x78a5636f, n, 0x6_78a5636f, 271 * SCALE_3);
    case 58 => CubeWord(0x84c87814, n, 0x6_84c87814, 277 * SCALE_3);
    case 59 => CubeWord(0x8cc70208, n, 0x6_8cc70208, 281 * SCALE_3);
    case 60 => CubeWord(0x90befffa, n, 0x6_90befffa, 283 * SCALE_3);
    case 61 => CubeWord(0xa4506ceb, n, 0x6_a4506ceb, 293 * SCALE_3);
    case 62 => CubeWord(0xbef9a3f7, n, 0x6_bef9a3f7, 307 * SCALE_3);
    case 63 => CubeWord(0xc67178f2, n, 0x6_c67178f2, 311 * SCALE_3);
  }

  lemma CubeRoots48()
    ensures IsCubeRoot(0x6_19a4c116, 227 * SCALE_3)
    ensures IsCubeRoot(0x6_1e376c08, 229 * SCALE_3)
    ensures IsCubeRoot(0x6_2748774c, 233 * SCALE_3)
    ensures IsCubeRoot(0x6_34b0bcb5, 239 * SCALE_3)
    ensures IsCubeRoot(0x6_391c0cb3, 241 * SCALE_3)
    ensures IsCubeRoot(0x6_4ed8aa4a, 251 * SCALE_3)
    ensures IsCubeRoot(0x6_5b9cca4f, 257 * SCALE_3)
    ensures IsCubeRoot(0x6_682e6ff3, 263 * SCALE_3)
    ensures IsCubeRoot(0x6_748f82ee, 269 * SCALE_3)
    ensures IsCubeRoot(0x6_78a5636f, 271 * SCALE_3)
    ensures IsCubeRoot(0x6_84c87814, 277 * SCALE_3)
    ensures IsCubeRoot(0x6_8cc70208, 281 * SCALE_3)
    ensures IsCubeRoot(0x6_90befffa, 283 * SCALE_3)
    ensures IsCubeRoot(0x6_a4506ceb, 293 * SCALE_3)
    ensures IsCubeRoot(0x6_bef9a3f7, 307 * SCALE_3)
    ensures IsCubeRoot(0x6_c67178f2, 311 * SCALE_3)
  {
  }

  // ---- logical functions --------------------------------------------------------

  /** Where the first word has ones the result is the second, elsewhere the third. */
  lemma Chooses(x: bv32, y: bv32, z: bv32)
    ensures Ch(x, y, z) & x == y & x && Ch(x, y, z) & !x == z & !x
  {
  }

  /** Where the first two words agree the result is theirs, elsewhere the third decides. */
  lemma Majority(x: bv32, y: bv32, z: bv32)
    ensures Maj(x, y, z) & !(x ^ y) == x & !(x ^ y) && Maj(x, y, z) & (x ^ y) == z & (x ^ y)
  {
  }

  // ---- words and bytes ----------------------------------------------------------

  lemma ByteWord(b: byte)
    ensures b as bv32 == (b as bv8) as bv32 && (b as bv8) as nat == b
  {
  }

  lemma Joined4(x: bv8, y: bv8, z: bv8, w: bv8)
    ensures (((x as bv32) << 24) | ((y as bv32) << 16) | ((z as bv32) << 8) | (w as bv32)) as nat ==
      (x as nat) * 0x100_0000 + (y as nat) * 0x1_0000 + (z as nat) * 0x100 + w as nat
  {
  }

  /** Section 3.1: a word is its four bytes, the first the most significant. */
  lemma LoadedValue(b: Bytes, i: nat)
    requires i + 4 <= |b|
    ensures LoadWord(b, i) as nat ==
      0x100_0000 * b[i] as nat + 0x1_0000 * b[i + 1] as nat + 0x100 * b[i + 2] as nat + b[i + 3] as nat
  {
    ByteWord(b[i]);
    ByteWord(b[i + 1]);
    ByteWord(b[i + 2]);
    ByteWord(b[i + 3]);
    Joined4(b[i] as bv8, b[i + 1] as bv8, b[i + 2] as bv8, b[i + 3] as bv8);
  }

  lemma WordByte(y: bv32)
    requires y < 0x100
    ensures (y as byte) as bv32 == y
  {
  }

  lemma SplitWord(x: bv32)
    ensures (((x >> 24) & 0xFF) << 24) | (((x >> 16) & 0xFF) << 16) | (((x >> 8) & 0xFF) << 8) | (x & 0xFF) == x
    ensures (x >> 24) & 0xFF < 0x100 && (x >> 16) & 0xFF < 0x100 && (x >> 8) & 0xFF < 0x100 && x & 0xFF < 0x100
  {
  }

  /** Storing a word is the inverse of loading it. */
  lemma StoredLoads(x: bv32)
    ensures LoadWord(StoreWord(x), 0) == x
  {
    SplitWord(x);
    WordByte((x >> 24) & 0xFF);
    WordByte((x >> 16) & 0xFF);
    WordByte((x >> 8) & 0xFF);
    WordByte(x & 0xFF);
  }

  function WordAt(v: Words, i: nat): bv32
    requires i < 8
  {
    match i
    case 0 => v.a case 1 => v.b case 2 => v.c case 3 => v.d
    case 4 => v.e case 5 => v.f case 6 => v.g case _ => v.h
  }

  /** The digest is the eight words in order: word `i` stands at byte `4 * i`. */
  lemma DigestWords(v: Words, i: nat)
    requires i < 8
    ensures LoadWord(DigestOf(v), 4 * i) == WordAt(v, i)
  {
    hide LoadWord, StoreWord, DigestOf;
    StoredLoads(WordAt(v, i));
    SliceLoads(DigestOf(v), 4 * i);
    if i < 4 { HighSlices(v); } else { LowSlices(v); }
  }

  lemma Quarters(a: Bytes, b: Bytes, c: Bytes, d: Bytes)
    requires |a| == 4 && |b| == 4 && |c| == 4 && |d| == 4
    ensures var s := a + b + c + d; s[0..4] == a && s[4..8] == b && s[8..12] == c && s[12..16] == d
  {
  }

  lemma Halves(v: Words)
    ensures DigestOf(v) ==
      (StoreWord(v.a) + StoreWord(v.b) + StoreWord(v.c) + StoreWord(v.d)) +
      (StoreWord(v.e) + StoreWord(v.f) + StoreWord(v.g) + StoreWord(v.h))
  {
    hide StoreWord;
  }

  lemma SliceOf(x: Bytes, y: Bytes, i: nat, j: nat)
    requires i <= j
    ensures j <= |x| ==> (x + y)[i..j] == x[i..j]
    ensures |x| <= i && j <= |x| + |y| ==> (x + y)[i..j] == y[i - |x|..j - |x|]
  {
  }

  lemma HighSlices(v: Words)
    ensures var d := DigestOf(v);
      && d[0..4] == StoreWord(v.a) && d[4..8] == StoreWord(v.b)
      && d[8..12] == StoreWord(v.c) && d[12..16] == StoreWord(v.d)
  {
    Halves(v);
    hide StoreWord, DigestOf;
    var high := StoreWord(v.a) + StoreWord(v.b) + StoreWord(v.c) + StoreWord(v.d);
    var low := StoreWord(v.e) + StoreWord(v.f) + StoreWord(v.g) + StoreWord(v.h);
    Quarters(StoreWord(v.a), StoreWord(v.b), StoreWord(v.c), StoreWord(v.d));
    SliceOf(high, low, 0, 4);
    SliceOf(high, low, 4, 8);
    SliceOf(high, low, 8, 12);
    SliceOf(high, low, 12, 16);
  }

  lemma LowSlices(v: Words)
    ensures var d := DigestOf(v);
      && d[16..20] == StoreWord(v.e) && d[20..24] == StoreWord(v.f)
      && d[24..28] == StoreWord(v.g) && d[28..32] == StoreWord(v.h)
  {
    Halves(v);
    hide StoreWord, DigestOf;
    var high := StoreWord(v.a) + StoreWord(v.b) + StoreWord(v.c) + StoreWord(v.d);
    var low := StoreWord(v.e) + StoreWord(v.f) + StoreWord(v.g) + StoreWord(v.h);
    Quarters(StoreWord(v.e), StoreWord(v.f), StoreWord(v.g), StoreWord(v.h));
    SliceOf(high, low, 16, 20);
    SliceOf(high, low, 20, 24);
    SliceOf(high, low, 24, 28);
    SliceOf(high, low, 28, 32);
  }

  lemma SliceLoads(b: Bytes, i: nat)
    requires i + 4 <= |b|
    ensures LoadWord(b, i) == LoadWord(b[i..i + 4], 0)
  {
  }

  // ---- RFC 2104 -------------------------------------------------------------------

  /** Byte `j` of the key as HMAC uses it: a long key is hashed first, and zeros fill up the block. */
  function KeyByte(key: Bytes, j: nat): byte {
    var k := if |key| > BLOCK then Hash(key) else key;
    if j < |k| then k[j] else 0
  }

  lemma ByteTrip(y: bv8)
    ensures (y as byte) as bv8 == y
  {
  }

  lemma XorTwice(x: bv8, pad: bv8)
    ensures (x ^ pad) ^ pad == x
  {
  }

  lemma XorBack(b: byte, pad: bv8)
    ensures (XorByte(b, pad) as bv8) ^ pad == b as bv8
  {
    ByteTrip((b as bv8) ^ pad);
    XorTwice(b as bv8, pad);
  }

  lemma KeyBytes(key: Bytes, j: nat)
    requires j < BLOCK
    ensures KeyBlock(key)[j] == KeyByte(key, j)
  {
    hide Hash;
  }

  lemma PadBytes(key: Bytes, pad: bv8)
    ensures forall j | 0 <= j < BLOCK :: (XorAll(KeyBlock(key), pad)[j] as bv8) ^ pad == KeyByte(key, j) as bv8
  {
    hide Hash, XorByte, KeyBlock, KeyByte;
    forall j | 0 <= j < BLOCK ensures (XorAll(KeyBlock(key), pad)[j] as bv8) ^ pad == KeyByte(key, j) as bv8 {
      KeyBytes(key, j);
      XorBack(KeyByte(key, j), pad);
    }
  }

  /**
    Section 2: the outer hash is over the key xor 0x5C and the inner hash, which is over the
    key xor 0x36 and the text.
   */
  lemma HmacPads(key: Bytes, text: Bytes) returns (inner: Block, outer: Block)
    ensures Hmac(key, text) == Hash(outer + Hash(inner + text))
    ensures forall j | 0 <= j < BLOCK :: (inner[j] as bv8) ^ 0x36 == KeyByte(key, j) as bv8
    ensures forall j | 0 <= j < BLOCK :: (outer[j] as bv8) ^ 0x5C == KeyByte(key, j) as bv8
  {
    hide Hash, XorAll, KeyBlock, KeyByte;
    inner, outer := XorAll(KeyBlock(key), 0x36), XorAll(KeyBlock(key), 0x5C);
    PadBytes(key, 0x36);
    PadBytes(key, 0x5C);
  }
}
