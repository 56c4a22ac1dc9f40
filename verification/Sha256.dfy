/**
  Streaming SHA-256 and HMAC (src/digest.cpp), proved equal to the one-shot
  definitions of FIPS 180-4 and RFC 2104.
 */
module Sha256 {
  import opened Types
  import Codec

  const BLOCK := 64

  // ---- FIPS 180-4, section 4: functions and constants ------------------------

  /** Addition modulo 2^32. */
  function Plus(x: bv32, y: bv32): bv32 {
    x + y
  }

  function Ch(x: bv32, y: bv32, z: bv32): bv32 {
    (x & y) ^ (!x & z)
  }

  function Maj(x: bv32, y: bv32, z: bv32): bv32 {
    (x & y) ^ (x & z) ^ (y & z)
  }

  function Xor3(a: bv32, b: bv32, c: bv32): bv32 {
    a ^ b ^ c
  }

  function BigSigma0(x: bv32): bv32 {
    Xor3(x.RotateRight(2), x.RotateRight(13), x.RotateRight(22))
  }

  function BigSigma1(x: bv32): bv32 {
    Xor3(x.RotateRight(6), x.RotateRight(11), x.RotateRight(25))
  }

  function SmallSigma0(x: bv32): bv32 {
    Xor3(x.RotateRight(7), x.RotateRight(18), x >> 3)
  }

  function SmallSigma1(x: bv32): bv32 {
    Xor3(x.RotateRight(17), x.RotateRight(19), x >> 10)
  }

  const ROUND_CONSTANTS: seq<seq<bv32>> := [
    [0x428a2f98, 0x71374491, 0xb5c0fbcf, 0xe9b5dba5, 0x3956c25b, 0x59f111f1, 0x923f82a4, 0xab1c5ed5],
    [0xd807aa98, 0x12835b01, 0x243185be, 0x550c7dc3, 0x72be5d74, 0x80deb1fe, 0x9bdc06a7, 0xc19bf174],
    [0xe49b69c1, 0xefbe4786, 0x0fc19dc6, 0x240ca1cc, 0x2de92c6f, 0x4a7484aa, 0x5cb0a9dc, 0x76f988da],
    [0x983e5152, 0xa831c66d, 0xb00327c8, 0xbf597fc7, 0xc6e00bf3, 0xd5a79147, 0x06ca6351, 0x14292967],
    [0x27b70a85, 0x2e1b2138, 0x4d2c6dfc, 0x53380d13, 0x650a7354, 0x766a0abb, 0x81c2c92e, 0x92722c85],
    [0xa2bfe8a1, 0xa81a664b, 0xc24b8b70, 0xc76c51a3, 0xd192e819, 0xd6990624, 0xf40e3585, 0x106aa070],
    [0x19a4c116, 0x1e376c08, 0x2748774c, 0x34b0bcb5, 0x391c0cb3, 0x4ed8aa4a, 0x5b9cca4f, 0x682e6ff3],
    [0x748f82ee, 0x78a5636f, 0x84c87814, 0x8cc70208, 0x90befffa, 0xa4506ceb, 0xbef9a3f7, 0xc67178f2]]

  function RoundConstant(t: nat): bv32 {
    if t < 64 then ROUND_CONSTANTS[t / 8][t % 8] else 0
  }

  /** Eight working variables or eight words of hash value. */
  datatype Words = Words(a: bv32, b: bv32, c: bv32, d: bv32, e: bv32, f: bv32, g: bv32, h: bv32)

  const INITIAL := Words(0x6a09e667, 0xbb67ae85, 0x3c6ef372, 0xa54ff53a, 0x510e527f, 0x9b05688c, 0x1f83d9ab, 0x5be0cd19)

  // ---- section 6.2.2: one block ----------------------------------------------

  type Block = b: Bytes | |b| == BLOCK witness Zeros(BLOCK)

  function LoadWord(b: Bytes, i: nat): bv32
    requires i + 4 <= |b|
  {
    ((b[i] as bv32) << 24) | ((b[i + 1] as bv32) << 16) | ((b[i + 2] as bv32) << 8) | (b[i + 3] as bv32)
  }

  function Sum4(a: bv32, b: bv32, c: bv32, d: bv32): bv32 {
    a + b + c + d
  }

  /** The message schedule, as the standard defines it. */
  function Schedule(b: Block, t: nat): bv32 {
    if t < 16 then LoadWord(b, 4 * t)
    else Sum4(
      SmallSigma1(Schedule(b, t - 2)), Schedule(b, t - 7), SmallSigma0(Schedule(b, t - 15)), Schedule(b, t - 16))
  }

  function Round(v: Words, k: bv32, w: bv32): Words {
    var t1 := Plus(Sum4(v.h, BigSigma1(v.e), Ch(v.e, v.f, v.g), k), w);
    var t2 := Plus(BigSigma0(v.a), Maj(v.a, v.b, v.c));
    Words(Plus(t1, t2), v.a, v.b, v.c, Plus(v.d, t1), v.e, v.f, v.g)
  }

  function Rounds(b: Block, v: Words, t: nat): Words {
    if t == 0 then v else Round(Rounds(b, v, t - 1), RoundConstant(t - 1), Schedule(b, t - 1))
  }

  function Add(x: Words, y: Words): Words {
    Words(Plus(x.a, y.a), Plus(x.b, y.b), Plus(x.c, y.c), Plus(x.d, y.d),
          Plus(x.e, y.e), Plus(x.f, y.f), Plus(x.g, y.g), Plus(x.h, y.h))
  }

  function Compress(v: Words, b: Block): Words {
    Add(v, Rounds(b, v, 64))
  }

  // ---- sections 5.1.1, 5.2.1 and 6.2: a whole message -------------------------

  /** Fold the compression over a whole number of blocks. */
  function Fold(v: Words, bytes: Bytes): Words
    requires |bytes| % BLOCK == 0
    decreases |bytes|
  {
    if bytes == [] then v else WholeBlocks(|bytes|); Fold(Compress(v, bytes[..BLOCK]), bytes[BLOCK..])
  }

  function BigEndian(n: nat, width: nat): (b: Bytes)
    ensures |b| == width
    decreases width, n
  {
    if width == 0 then [] else BigEndian(n / 0x100, width - 1) + [n % 0x100]
  }

  /** The smallest number of zero bytes that leaves room for the length in the last block. */
  function ZeroCount(n: nat): (k: nat)
    ensures k < BLOCK && (n + 1 + k) % BLOCK == 56
  {
    (119 - n % BLOCK) % BLOCK
  }

  /** The length field holds the bit length modulo 2^64, which is the bit length below 2^61 bytes. */
  function Padding(n: nat): (p: Bytes)
    ensures |p| == 9 + ZeroCount(n) && (n + |p|) % BLOCK == 0
  {
    RoomForLength(n + 1 + ZeroCount(n));
    [0x80] + Zeros(ZeroCount(n)) + BigEndian(n * 8 % U64_LIMIT, 8)
  }

  lemma RoomForLength(n: nat)
    requires n % BLOCK == 56
    ensures (n + 8) % BLOCK == 0
  {
  }

  /** No fewer zero bytes would do. */
  lemma ZeroCountLeast(n: nat, k: nat)
    requires (n + 1 + k) % BLOCK == 56
    ensures ZeroCount(n) <= k
  {
    if k < BLOCK {
      var x, y := n + 1 + k, n + 1 + ZeroCount(n);
      assert x - y == BLOCK * (x / BLOCK - y / BLOCK);
    }
  }

  function StoreWord(x: bv32): (b: Bytes)
    ensures |b| == 4
  {
    [((x >> 24) & 0xFF) as byte, ((x >> 16) & 0xFF) as byte, ((x >> 8) & 0xFF) as byte, (x & 0xFF) as byte]
  }

  function DigestOf(v: Words): Digest {
    StoreWord(v.a) + StoreWord(v.b) + StoreWord(v.c) + StoreWord(v.d) +
    StoreWord(v.e) + StoreWord(v.f) + StoreWord(v.g) + StoreWord(v.h)
  }

  /** SHA-256 of a message, all at once. */
  function Hash(m: Bytes): Digest {
    DigestOf(Fold(INITIAL, m + Padding(|m|)))
  }

  // ---- the code's arithmetic is the standard's --------------------------------

  /** `rotr` by shifts. */
  function ShiftRotr(x: bv32, n: bv32): bv32
    requires 0 < n < 32
  {
    (x >> n) | (x << (32 - n))
  }

  lemma SmallRotations(x: bv32)
    ensures ShiftRotr(x, 7) == x.RotateRight(7) && ShiftRotr(x, 18) == x.RotateRight(18)
    ensures ShiftRotr(x, 17) == x.RotateRight(17) && ShiftRotr(x, 19) == x.RotateRight(19)
  {
  }

  lemma BigRotations(x: bv32)
    ensures ShiftRotr(x, 2) == x.RotateRight(2) && ShiftRotr(x, 13) == x.RotateRight(13)
    ensures ShiftRotr(x, 22) == x.RotateRight(22) && ShiftRotr(x, 6) == x.RotateRight(6)
    ensures ShiftRotr(x, 11) == x.RotateRight(11) && ShiftRotr(x, 25) == x.RotateRight(25)
  {
  }

  function CodeSmall0(x: bv32): bv32 {
    Xor3(ShiftRotr(x, 7), ShiftRotr(x, 18), x >> 3)
  }

  function CodeSmall1(x: bv32): bv32 {
    Xor3(ShiftRotr(x, 17), ShiftRotr(x, 19), x >> 10)
  }

  function CodeBig0(x: bv32): bv32 {
    Xor3(ShiftRotr(x, 2), ShiftRotr(x, 13), ShiftRotr(x, 22))
  }

  function CodeBig1(x: bv32): bv32 {
    Xor3(ShiftRotr(x, 6), ShiftRotr(x, 11), ShiftRotr(x, 25))
  }

  /** The code's sigma functions are the standard's. */
  lemma SmallSigmas(x: bv32)
    ensures CodeSmall0(x) == SmallSigma0(x) && CodeSmall1(x) == SmallSigma1(x)
  {
    hide Xor3, ShiftRotr;
    SmallRotations(x);
  }

  lemma BigSigmas(x: bv32)
    ensures CodeBig0(x) == BigSigma0(x) && CodeBig1(x) == BigSigma1(x)
  {
    hide Xor3, ShiftRotr;
    BigRotations(x);
  }

  lemma Commutes(a: bv32, b: bv32, c: bv32, d: bv32)
    ensures a + b + c + d == d + c + b + a
  {
  }

  /** The order in which a schedule word is added up does not matter. */
  lemma Reordered(a: bv32, b: bv32, c: bv32, d: bv32)
    ensures Sum4(a, b, c, d) == Sum4(d, c, b, a)
  {
    Commutes(a, b, c, d);
  }

  method LoadSchedule(b: Block) returns (w: array<bv32>)
    ensures fresh(w) && w.Length == 64
    ensures forall t | 0 <= t < 64 :: w[t] == Schedule(b, t)
  {
    hide LoadWord, CodeSmall0, CodeSmall1, SmallSigma0, SmallSigma1, Schedule, Sum4;
    w := new bv32[64];
    for i := 0 to 16
      invariant forall t | 0 <= t < i :: w[t] == Schedule(b, t)
    {
      FirstWords(b, i);
      w[i] := LoadWord(b, i * 4);
    }
    for i := 16 to 64
      invariant forall t | 0 <= t < i :: w[t] == Schedule(b, t)
    {
      NextWord(b, i);
      SmallSigmas(w[i - 15]);
      SmallSigmas(w[i - 2]);
      var s0, s1 := CodeSmall0(w[i - 15]), CodeSmall1(w[i - 2]);
      Reordered(w[i - 16], s0, w[i - 7], s1);
      w[i] := Sum4(w[i - 16], s0, w[i - 7], s1);
    }
  }

  lemma FirstWords(b: Block, t: nat)
    requires t < 16
    ensures Schedule(b, t) == LoadWord(b, t * 4)
  {
    hide LoadWord;
  }

  lemma NextWord(b: Block, t: nat)
    requires t >= 16
    ensures Schedule(b, t) ==
      Sum4(SmallSigma1(Schedule(b, t - 2)), Schedule(b, t - 7), SmallSigma0(Schedule(b, t - 15)), Schedule(b, t - 16))
  {
    hide LoadWord, SmallSigma0, SmallSigma1, Sum4;
  }

  lemma NoRounds(b: Block, v: Words)
    ensures Rounds(b, v, 0) == v
  {
  }

  lemma RoundsStep(b: Block, v: Words, t: nat)
    ensures Rounds(b, v, t + 1) == Round(Rounds(b, v, t), RoundConstant(t), Schedule(b, t))
  {
    hide Schedule, RoundConstant, Round;
  }

  method CompressBlock(state: Words, block: Block) returns (next: Words)
    ensures next == Compress(state, block)
  {
    hide Schedule, Rounds, RoundConstant, Plus, Sum4, Ch, Maj, BigSigma0, BigSigma1, CodeBig0, CodeBig1;
    var w := LoadSchedule(block);
    var a, b, c, d := state.a, state.b, state.c, state.d;
    var e, f, g, h := state.e, state.f, state.g, state.h;
    assert Rounds(block, state, 0) == state by { NoRounds(block, state); }
    for i := 0 to 64
      invariant Words(a, b, c, d, e, f, g, h) == Rounds(block, state, i)
      invariant forall t | 0 <= t < 64 :: w[t] == Schedule(block, t)
    {
      RoundsStep(block, state, i);
      BigSigmas(e);
      BigSigmas(a);
      var temp1 := Plus(Sum4(h, CodeBig1(e), Ch(e, f, g), RoundConstant(i)), w[i]);
      var temp2 := Plus(CodeBig0(a), Maj(a, b, c));
      h, g, f, e, d, c, b, a := g, f, e, Plus(d, temp1), c, b, a, Plus(temp1, temp2);
    }
    next := Words(Plus(state.a, a), Plus(state.b, b), Plus(state.c, c), Plus(state.d, d),
                  Plus(state.e, e), Plus(state.f, f), Plus(state.g, g), Plus(state.h, h));
  }

  // ---- folding in pieces ------------------------------------------------------

  lemma {:induction false} FoldAppend(v: Words, x: Bytes, y: Bytes)
    requires |x| % BLOCK == 0 && |y| % BLOCK == 0
    ensures |x + y| % BLOCK == 0 && Fold(v, x + y) == Fold(Fold(v, x), y)
    decreases |x|
  {
    hide Compress;
    if x == [] {
      assert x + y == y;
    } else {
      WholeBlocks(|x|);
      var z := x + y;
      assert z[..BLOCK] == x[..BLOCK] && z[BLOCK..] == x[BLOCK..] + y;
      FoldAppend(Compress(v, x[..BLOCK]), x[BLOCK..], y);
    }
  }

  lemma WholeBlocks(n: nat)
    requires n % BLOCK == 0 && n > 0
    ensures n >= BLOCK && (n - BLOCK) % BLOCK == 0
  {
  }

  lemma FoldBlock(v: Words, x: Bytes, b: Block)
    requires |x| % BLOCK == 0
    ensures |x + b| % BLOCK == 0 && Fold(v, x + b) == Compress(Fold(v, x), b)
  {
    hide Compress;
    FoldAppend(v, x, b);
    assert b[..BLOCK] == b && b[BLOCK..] == [];
    OneBlock(Fold(v, x), b);
  }

  lemma OneBlock(v: Words, b: Block)
    ensures Fold(v, b) == Compress(v, b)
  {
    hide Compress;
    assert b[..BLOCK] == b && b[BLOCK..] == [];
  }

  // ---- the streaming hasher ---------------------------------------------------

  class Hasher {
    var state: Words
    var buffer: array<byte>
    var buffered: nat
    var total: u64
    ghost var message: Bytes

    /** The state holds the whole blocks of the message so far, the buffer the rest. */
    ghost predicate Held()
      reads this, buffer
    {
      && buffer.Length == BLOCK && buffered < BLOCK && buffered <= |message|
      && (|message| - buffered) % BLOCK == 0
      && state == Fold(INITIAL, message[..|message| - buffered])
      && buffer[..buffered] == message[|message| - buffered..]
    }

    ghost predicate Valid()
      reads this, buffer
    {
      Held() && total == |message| % U64_LIMIT
    }

    lemma HeldSizes()
      requires Held()
      ensures buffered < BLOCK && buffered <= |message| && (|message| - buffered) % BLOCK == 0
    {
    }

    constructor ()
      ensures Valid() && message == [] && fresh(buffer)
    {
      state, buffer, buffered, total, message := INITIAL, new byte[BLOCK], 0, 0, [];
    }

    method Reset()
      requires buffer.Length == BLOCK
      modifies this
      ensures Valid() && message == [] && buffer == old(buffer)
    {
      state, buffered, total, message := INITIAL, 0, 0, [];
    }

    /** `memcpy` behind what is already buffered. */
    method Copy(data: Bytes)
      requires buffer.Length == BLOCK && buffered + |data| <= BLOCK
      modifies buffer
      ensures buffer[..buffered] == old(buffer[..buffered])
      ensures buffer[buffered..buffered + |data|] == data
    {
      forall i | 0 <= i < |data| { buffer[buffered + i] := data[i]; }
    }

    /** One whole block straight from the input. */
    method TakeBlock(block: Block)
      requires Held() && buffered == 0
      modifies this
      ensures Held() && buffered == 0 && message == old(message) + block && buffer == old(buffer) && total == old(total)
    {
      hide Fold, Compress;
      FoldBlock(INITIAL, message, block);
      assert message[..|message| - 0] == message;
      state := CompressBlock(state, block);
      message := message + block;
      assert message[..|message| - 0] == message;
    }

    /** What does not fill the buffer is kept in it. */
    method Extend(rest: Bytes)
      requires Held() && buffered + |rest| < BLOCK
      modifies this, buffer
      ensures Held() && message == old(message) + rest && buffer == old(buffer) && total == old(total)
    {
      hide Fold;
      ghost var kept := |message| - buffered;
      Copy(rest);
      buffered := buffered + |rest|;
      message := message + rest;
      assert message[..kept] == old(message)[..kept] && message[kept..] == old(message)[kept..] + rest;
      assert buffer[..buffered] == old(buffer[..buffered]) + rest;
    }

    /** What fills the buffer completes a block. */
    method Fill(rest: Bytes)
      requires Held() && buffered + |rest| == BLOCK
      modifies this, buffer
      ensures Held() && buffered == 0 && message == old(message) + rest && buffer == old(buffer) && total == old(total)
    {
      hide Fold, Compress;
      ghost var kept := |message| - buffered;
      Copy(rest);
      var block := buffer[..];
      assert block == old(buffer[..buffered]) + rest;
      FoldBlock(INITIAL, message[..kept], block);
      assert message + rest == message[..kept] + block;
      state := CompressBlock(state, block);
      buffered, message := 0, message + rest;
      assert message[..|message| - 0] == message;
    }

    method SetTotal(t: u64)
      requires Held()
      modifies `total
      ensures Held() && total == t
    {
      total := t;
    }

    /** `update`: however a message is split into calls, the object holds the message so far. */
    method Update(data: Bytes)
      requires Valid()
      modifies this, buffer
      ensures Valid() && buffer == old(buffer) && message == old(message) + data
      ensures buffered == (old(buffered) + |data|) % BLOCK
    {
      hide Held;
      HeldSizes();
      var offset: nat := 0;
      if buffered != 0 {
        var need := BLOCK - buffered;
        offset := if |data| < need then |data| else need;
        if offset < need { Extend(data[..offset]); } else { Fill(data[..offset]); }
      }
      while |data| - offset >= BLOCK
        invariant offset <= |data| && buffer == old(buffer) && total == old(total)
        invariant Held() && message == old(message) + data[..offset]
        invariant offset < |data| ==> buffered == 0
      {
        TakeBlock(data[offset..offset + BLOCK]);
        Joined(old(message), data, offset, offset + BLOCK);
        offset := offset + BLOCK;
      }
      if offset < |data| { Extend(data[offset..]); }
      Joined(old(message), data, offset, |data|);
      SetTotal((total + |data|) % U64_LIMIT);
      TotalModulo(|old(message)|, |data|);
      HeldSizes();
      BufferedModulo(|message|, buffered, |old(message)|, old(buffered), |data|);
    }

    /** The padding loop stops exactly after the standard's number of zero bytes. */
    method PadZeros(ghost m: Bytes)
      requires Valid() && message == m + [0x80]
      modifies this, buffer
      ensures Valid() && buffer == old(buffer) && message == m + ([0x80] + Zeros(ZeroCount(|m|)))
    {
      hide Held;
      ghost var z := 0;
      BufferedIs();
      assert [0x80] + Zeros(0) == [0x80];
      while buffered != 56
        invariant Valid() && buffer == old(buffer) && z <= ZeroCount(|m|)
        invariant message == m + ([0x80] + Zeros(z)) && buffered == |message| % BLOCK
        decreases ZeroCount(|m|) - z
      {
        ZerosToCome(|m|, z, buffered);
        Update([0]);
        BufferedIs();
        ZerosSnoc(z);
        assert (m + ([0x80] + Zeros(z))) + [0] == m + ([0x80] + (Zeros(z) + [0]));
        z := z + 1;
      }
      ZerosToCome(|m|, z, buffered);
    }

    lemma BufferedIs()
      requires Held()
      ensures buffered == |message| % BLOCK
    {
      HeldSizes();
      BufferedModulo(|message|, buffered, 0, 0, |message|);
    }

    lemma WholeState()
      requires Held() && |message| % BLOCK == 0
      ensures state == Fold(INITIAL, message) && buffer.Length == BLOCK
    {
      hide Fold;
      BufferedIs();
      assert message[..|message| - 0] == message;
    }

    /** `finalize`: the hash of the whole message, and the object as new. */
    method Finalize() returns (digest: Digest)
      requires Valid()
      modifies this, buffer
      ensures digest == Hash(old(message)) && Valid() && message == [] && buffer == old(buffer)
    {
      hide Held, Fold, DigestOf, Padding, BigEndian, ZeroCount;
      ghost var m := message;
      var bitLength := total * 8 % U64_LIMIT;
      BitLength(|m|);
      Update([0x80]);
      PadZeros(m);
      var lengthBytes := LengthBytes(bitLength);
      Update(lengthBytes);
      PaddedMessage(m);
      WholeState();
      digest := DigestOf(state);
      Reset();
    }
  }

  lemma Joined(m: Bytes, data: Bytes, i: nat, j: nat)
    requires i <= j <= |data|
    ensures (m + data[..i]) + data[i..j] == m + data[..j]
    ensures data[..|data|] == data && data[i..|data|] == data[i..]
  {
  }

  lemma TotalModulo(a: nat, b: nat)
    ensures (a % U64_LIMIT + b) % U64_LIMIT == (a + b) % U64_LIMIT
  {
  }

  lemma BufferedModulo(n: nat, r: nat, n0: nat, r0: nat, k: nat)
    requires n == n0 + k && r < BLOCK && r0 < BLOCK && r <= n && r0 <= n0
    requires (n - r) % BLOCK == 0 && (n0 - r0) % BLOCK == 0
    ensures r == (r0 + k) % BLOCK
  {
  }

  // ---- finishing --------------------------------------------------------------

  lemma {:induction false} BigEndianDigit(n: nat, width: nat, i: nat)
    requires i < width
    ensures BigEndian(n, width)[i] == n / Codec.Pow256(width - 1 - i) % 0x100
    decreases width
  {
    if i < width - 1 {
      BigEndianDigit(n / 0x100, width - 1, i);
      QuotientTwice(n, Codec.Pow256(width - 2 - i));
    }
  }

  lemma QuotientTwice(n: nat, p: nat)
    requires p > 0
    ensures n / 0x100 / p == n / (0x100 * p)
  {
    var q := n / (0x100 * p);
    var r := n % (0x100 * p);
    assert n == 0x100 * p * q + r;
    assert n / 0x100 == p * q + r / 0x100 by { assert 0x100 * (p * q) == 0x100 * p * q; }
    assert r / 0x100 < p;
    QuotientIs(n / 0x100, p, q, r / 0x100);
  }

  lemma QuotientIs(n: nat, p: nat, q: nat, r: nat)
    requires p > 0 && n == p * q + r && r < p
    ensures n / p == q
  {
    var d := n / p - q;
    assert p * d == r - n % p by { assert n == p * (n / p) + n % p; }
    assert -1 < d < 1;
  }

  lemma ZerosSnoc(k: nat)
    ensures Zeros(k) + [0] == Zeros(k + 1)
  {
  }

  /** The number of zero bytes still to come. */
  lemma ZerosToCome(n: nat, z: nat, buffered: nat)
    requires buffered == (n + 1 + z) % BLOCK && z <= ZeroCount(n)
    ensures buffered == 56 <==> z == ZeroCount(n)
  {
  }

  method LengthBytes(n: u64) returns (bytes: Bytes)
    ensures bytes == BigEndian(n, 8)
  {
    bytes := [];
    for i := 0 to 8
      invariant |bytes| == i && bytes == BigEndian(n, 8)[..i]
    {
      BigEndianDigit(n, 8, i);
      bytes := bytes + [n / Codec.Pow256(7 - i) % 0x100];
    }
  }

  lemma BitLength(n: nat)
    ensures n % U64_LIMIT * 8 % U64_LIMIT == n * 8 % U64_LIMIT
  {
  }

  lemma PaddedMessage(m: Bytes)
    ensures (m + ([0x80] + Zeros(ZeroCount(|m|)))) + BigEndian(|m| * 8 % U64_LIMIT, 8) == m + Padding(|m|)
  {
    hide BigEndian, Zeros, ZeroCount;
  }

  /** Below 2^61 bytes the length field is the length in bits, as the standard has it. */
  lemma LengthFieldExact(m: Bytes)
    requires |m| < 0x2000_0000_0000_0000
    ensures Padding(|m|) == [0x80] + Zeros(ZeroCount(|m|)) + BigEndian(|m| * 8, 8)
  {
    hide BigEndian, Zeros, ZeroCount;
    SmallModulo(|m| * 8);
  }

  lemma SmallModulo(n: nat)
    requires n < U64_LIMIT
    ensures n % U64_LIMIT == n
  {
  }

  function Flatten(pieces: seq<Bytes>): Bytes {
    if pieces == [] then [] else pieces[0] + Flatten(pieces[1..])
  }

  /** Any split of a message into updates gives the hash of the message. */
  method HashPieces(pieces: seq<Bytes>) returns (digest: Digest)
    ensures digest == Hash(Flatten(pieces))
  {
    hide Hash;
    var hasher := new Hasher();
    var i := 0;
    while i < |pieces|
      invariant i <= |pieces| && fresh(hasher) && fresh(hasher.buffer) && hasher.Valid()
      invariant hasher.message + Flatten(pieces[i..]) == Flatten(pieces)
    {
      ghost var rest := pieces[i..];
      assert rest[1..] == pieces[i + 1..];
      assert (hasher.message + pieces[i]) + Flatten(rest[1..]) == hasher.message + (pieces[i] + Flatten(rest[1..]));
      hasher.Update(pieces[i]);
      i := i + 1;
    }
    assert hasher.message + [] == hasher.message;
    digest := hasher.Finalize();
  }

  // ---- RFC 2104, section 2 ----------------------------------------------------

  function XorByte(x: byte, y: bv8): byte {
    ((x as bv8) ^ y) as byte
  }

  function XorAll(b: Bytes, y: bv8): (r: Bytes)
    ensures |r| == |b|
  {
    seq(|b|, i requires 0 <= i < |b| => XorByte(b[i], y))
  }

  /** The key, hashed when longer than a block, filled up with zeros to a block. */
  function KeyBlock(key: Bytes): Block {
    var k := if |key| > BLOCK then Hash(key) else key;
    k + Zeros(BLOCK - |k|)
  }

  function Hmac(key: Bytes, text: Bytes): Digest {
    Hash(XorAll(KeyBlock(key), 0x5C) + Hash(XorAll(KeyBlock(key), 0x36) + text))
  }

  class HmacSha256 {
    const inner: Hasher
    var opad: Bytes
    ghost var key: Bytes
    ghost var text: Bytes

    ghost predicate Valid()
      reads this, inner, inner.buffer
    {
      && inner.Valid()
      && inner.message == XorAll(KeyBlock(key), 0x36) + text
      && opad == XorAll(KeyBlock(key), 0x5C)
    }

    constructor (key: Bytes)
      ensures Valid() && this.key == key && text == [] && fresh(inner) && fresh(inner.buffer)
    {
      hide Hash, XorByte, Hasher.Held;
      var hasher := new Hasher();
      var block := key;
      if |key| > BLOCK {
        var reducer := new Hasher();
        reducer.Update(key);
        assert [] + key == key;
        block := reducer.Finalize();
      }
      block := block + Zeros(BLOCK - |block|);
      assert block == KeyBlock(key);
      var ipad, outer := [], [];
      for i := 0 to BLOCK
        invariant |ipad| == |outer| == i
        invariant fresh(hasher) && fresh(hasher.buffer) && hasher.Valid() && hasher.message == []
        invariant forall j | 0 <= j < i :: ipad[j] == XorByte(block[j], 0x36) && outer[j] == XorByte(block[j], 0x5C)
      {
        ipad, outer := ipad + [XorByte(block[i], 0x36)], outer + [XorByte(block[i], 0x5C)];
      }
      assert ipad == XorAll(block, 0x36) && outer == XorAll(block, 0x5C);
      hasher.Update(ipad);
      assert [] + ipad == ipad && ipad + [] == ipad;
      inner := hasher;
      opad := outer;
      this.key, text := key, [];
    }

    method Update(data: Bytes)
      requires Valid()
      modifies this, inner, inner.buffer
      ensures Valid() && key == old(key) && text == old(text) + data && inner.buffer == old(inner.buffer)
    {
      hide Hash, XorAll, Hasher.Held;
      inner.Update(data);
      assert (XorAll(KeyBlock(key), 0x36) + text) + data == XorAll(KeyBlock(key), 0x36) + (text + data);
      text := text + data;
    }

    method Finalize() returns (digest: Digest)
      requires Valid()
      modifies inner, inner.buffer
      ensures digest == Hmac(key, text)
    {
      hide Hash, XorAll, Hasher.Held;
      var innerDigest := inner.Finalize();
      var outer := new Hasher();
      outer.Update(opad);
      outer.Update(innerDigest);
      assert ([] + opad) + innerDigest == opad + innerDigest;
      digest := outer.Finalize();
    }
  }

  /** `hmac_sha256` */
  method HmacOf(key: Bytes, data: Bytes) returns (digest: Digest)
    ensures digest == Hmac(key, data)
  {
    hide Hmac;
    var mac := new HmacSha256(key);
    mac.Update(data);
    assert [] + data == data;
    digest := mac.Finalize();
  }
}
