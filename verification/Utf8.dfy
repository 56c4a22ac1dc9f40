/** Strict UTF-8 validation (src/bytes.cpp) against sections 3 and 4 of RFC 3629. */
module Utf8 {
  import opened Types

  // ---- the standard ---------------------------------------------------------

  /** A Unicode scalar value: a code point that is not a surrogate. */
  type Scalar = c: int | 0 <= c <= 0x10FFFF && !(0xD800 <= c <= 0xDFFF)

  /** The shortest-form encoding table of section 3 of RFC 3629. */
  function EncodeScalar(c: Scalar): Bytes {
    if c < 0x80 then [c]
    else if c < 0x800 then [0xC0 + c / 0x40, 0x80 + c % 0x40]
    else
      var hi := c / 0x40;
      if c < 0x10000 then [0xE0 + hi / 0x40, 0x80 + hi % 0x40, 0x80 + c % 0x40]
      else [0xF0 + hi / 0x40 / 0x40, 0x80 + hi / 0x40 % 0x40, 0x80 + hi % 0x40, 0x80 + c % 0x40]
  }

  function EncodeAll(cs: seq<Scalar>): Bytes {
    if cs == [] then [] else EncodeScalar(cs[0]) + EncodeAll(cs[1..])
  }

  ghost predicate IsUtf8(value: Bytes) {
    exists cs: seq<Scalar> :: EncodeAll(cs) == value
  }

  // ---- one iteration of the validation loop ---------------------------------

  /** How many continuation bytes the lead byte announces; the masks select the top bits. */
  function Continuations(lead: byte): Option<nat> {
    if lead < 0x80 then Some(0)
    else if lead / 0x20 == 0x6 then Some(1)
    else if lead / 0x10 == 0xE then Some(2)
    else if lead / 0x8 == 0x1E then Some(3)
    else None
  }

  function LeadBits(lead: byte): nat {
    if lead < 0x80 then lead
    else if lead / 0x20 == 0x6 then lead % 0x20
    else if lead / 0x10 == 0xE then lead % 0x10
    else lead % 0x8
  }

  predicate IsContinuation(b: byte) {
    b / 0x40 == 2
  }

  /** The code point accumulated after reading `k` continuation bytes. */
  function CodePoint(value: Bytes, k: nat): nat
    requires k < |value|
  {
    if k == 0 then LeadBits(value[0]) else CodePoint(value, k - 1) * 0x40 + value[k] % 0x40
  }

  /** The checks made once every continuation byte is read. */
  predicate AcceptableCodePoint(n: nat, code: nat) {
    && !(n == 1 && code < 0x80)
    && !(n == 2 && code < 0x800)
    && !(n == 3 && code < 0x10000)
    && code <= 0x10FFFF
    && !(0xD800 <= code <= 0xDFFF)
  }

  /** The number of bytes one iteration consumes, or `None` when it refuses. */
  function Step(value: Bytes): (r: Option<nat>)
    requires value != []
    ensures r.Some? ==> 0 < r.value <= |value|
  {
    match Continuations(value[0])
    case None => None
    case Some(n) =>
      if n < |value| && (forall k | 1 <= k <= n :: IsContinuation(value[k])) &&
         AcceptableCodePoint(n, CodePoint(value, n))
      then Some(n + 1) else None
  }

  predicate Accepts(value: Bytes) {
    value == [] || (Step(value).Some? && Accepts(value[Step(value).value..]))
  }

  // ---- the two agree --------------------------------------------------------

  lemma SixBits(q: nat, r: nat)
    requires r < 0x40
    ensures (q * 0x40 + r) / 0x40 == q && (q * 0x40 + r) % 0x40 == r
  {
  }

  /** The bytes that spell `code` in `n + 1` bytes, most significant bits first. */
  predicate Spells(value: Bytes, n: nat, code: nat)
    requires n <= 3
  {
    && |value| > n
    && (n == 0 ==> value[0] == code)
    && (n == 1 ==> value[0] == 0xC0 + code / 0x40)
    && (n == 2 ==> value[0] == 0xE0 + code / 0x40 / 0x40 && value[1] == 0x80 + code / 0x40 % 0x40)
    && (n == 3 ==> value[0] == 0xF0 + code / 0x40 / 0x40 / 0x40 &&
                   value[1] == 0x80 + code / 0x40 / 0x40 % 0x40 && value[2] == 0x80 + code / 0x40 % 0x40)
    && (n > 0 ==> value[n] == 0x80 + code % 0x40)
  }

  lemma CodePointSpells(value: Bytes, n: nat)
    requires value != [] && Continuations(value[0]) == Some(n) && n < |value|
    requires forall k | 1 <= k <= n :: IsContinuation(value[k])
    ensures Spells(value, n, CodePoint(value, n))
  {
    assert CodePoint(value, 0) == LeadBits(value[0]);
    if n >= 1 {
      assert IsContinuation(value[1]);
      assert CodePoint(value, 1) == CodePoint(value, 0) * 0x40 + value[1] % 0x40;
      SixBits(LeadBits(value[0]), value[1] % 0x40);
    }
    if n >= 2 {
      assert IsContinuation(value[2]);
      assert CodePoint(value, 2) == CodePoint(value, 1) * 0x40 + value[2] % 0x40;
      SixBits(CodePoint(value, 1), value[2] % 0x40);
    }
    if n >= 3 {
      assert IsContinuation(value[3]);
      SixBits(CodePoint(value, 2), value[3] % 0x40);
    }
  }

  lemma LeadByte(n: nat, hi: nat)
    requires 1 <= n <= 3
    requires hi < (if n == 1 then 0x20 else if n == 2 then 0x10 else 0x5)
    ensures var lead: byte := (if n == 1 then 0xC0 else if n == 2 then 0xE0 else 0xF0) + hi;
      Continuations(lead) == Some(n) && LeadBits(lead) == hi
  {
  }

  lemma ContinuationByte(x: nat)
    ensures var b: byte := 0x80 + x % 0x40; IsContinuation(b) && b % 0x40 == x % 0x40
    ensures x == x / 0x40 * 0x40 + x % 0x40
  {
  }

  /** Appending the low six bits of `code` to a prefix that spells the rest of it. */
  lemma CodePointSnoc(value: Bytes, k: nat, code: nat)
    requires 0 < k < |value| && value[k] == 0x80 + code % 0x40
    requires CodePoint(value, k - 1) == code / 0x40
    ensures CodePoint(value, k) == code && IsContinuation(value[k])
  {
    ContinuationByte(code);
  }

  lemma SpellsCodePoint(value: Bytes, n: nat, c: Scalar)
    requires n <= 3 && Spells(value, n, c)
    requires n == |EncodeScalar(c)| - 1
    ensures Continuations(value[0]) == Some(n)
    ensures forall k | 1 <= k <= n :: IsContinuation(value[k])
    ensures CodePoint(value, n) == c
  {
    var hi := c / 0x40;
    var top := hi / 0x40;
    if n == 1 {
      LeadByte(1, hi);
    } else if n == 2 {
      LeadByte(2, top);
      CodePointSnoc(value, 1, hi);
    } else if n == 3 {
      LeadByte(3, top / 0x40);
      CodePointSnoc(value, 1, top);
      CodePointSnoc(value, 2, hi);
    }
    if n > 0 { CodePointSnoc(value, n, c); }
  }

  /** What one iteration consumes is exactly the encoding of one scalar value. */
  lemma StepIsEncoding(value: Bytes) returns (c: Scalar)
    requires value != [] && Step(value).Some?
    ensures EncodeScalar(c) == value[..Step(value).value]
  {
    var n := Step(value).value - 1;
    CodePointSpells(value, n);
    c := CodePoint(value, n);
  }

  /** The encoding of a scalar value is consumed whole, whatever follows. */
  lemma EncodingIsStep(c: Scalar, rest: Bytes)
    ensures Step(EncodeScalar(c) + rest) == Some(|EncodeScalar(c)|)
    ensures CodePoint(EncodeScalar(c) + rest, |EncodeScalar(c)| - 1) == c
  {
    SpellsCodePoint(EncodeScalar(c) + rest, |EncodeScalar(c)| - 1, c);
  }

  lemma EncodeCons(c: Scalar, cs: seq<Scalar>)
    ensures EncodeAll([c] + cs) == EncodeScalar(c) + EncodeAll(cs)
  {
    assert ([c] + cs)[1..] == cs;
  }

  lemma {:induction false} AcceptsEncoding(cs: seq<Scalar>)
    ensures Accepts(EncodeAll(cs))
  {
    if cs != [] {
      var rest := EncodeAll(cs[1..]);
      AcceptsEncoding(cs[1..]);
      EncodingIsStep(cs[0], rest);
      assert EncodeAll(cs)[|EncodeScalar(cs[0])|..] == rest;
    }
  }

  lemma Peel(value: Bytes) returns (c: Scalar, rest: Bytes)
    requires value != [] && Accepts(value)
    ensures value == EncodeScalar(c) + rest && Accepts(rest) && |rest| < |value|
  {
    var n := Step(value).value;
    c := StepIsEncoding(value);
    rest := value[n..];
  }

  lemma {:induction false} AcceptedIsEncoding(value: Bytes) returns (cs: seq<Scalar>)
    requires Accepts(value)
    ensures EncodeAll(cs) == value
    decreases |value|
  {
    if value == [] { return []; }
    var c, rest := Peel(value);
    var tail := AcceptedIsEncoding(rest);
    EncodeCons(c, tail);
    return [c] + tail;
  }

  lemma AcceptsIffUtf8(value: Bytes)
    ensures Accepts(value) <==> IsUtf8(value)
  {
    if Accepts(value) { var cs := AcceptedIsEncoding(value); }
    if IsUtf8(value) {
      var cs: seq<Scalar> :| EncodeAll(cs) == value;
      AcceptsEncoding(cs);
    }
  }

  /** No byte string spells two different texts. */
  lemma {:induction false} EncodingInjective(cs: seq<Scalar>, ds: seq<Scalar>)
    requires EncodeAll(cs) == EncodeAll(ds)
    ensures cs == ds
  {
    if cs != [] && ds != [] {
      EncodingIsStep(cs[0], EncodeAll(cs[1..]));
      EncodingIsStep(ds[0], EncodeAll(ds[1..]));
      var n := |EncodeScalar(cs[0])|;
      assert EncodeAll(cs)[..n] == EncodeScalar(cs[0]);
      assert EncodeAll(ds)[..n] == EncodeScalar(ds[0]);
      assert EncodeAll(cs)[n..] == EncodeAll(cs[1..]);
      assert EncodeAll(ds)[n..] == EncodeAll(ds[1..]);
      EncodingInjective(cs[1..], ds[1..]);
      assert cs == [cs[0]] + cs[1..];
      assert ds == [ds[0]] + ds[1..];
    }
  }

  // ---- is_valid_utf8 --------------------------------------------------------

  /** The loop body at offset `i`: the number of bytes to advance, zero on refusal. */
  method Iteration(value: Bytes, i: nat) returns (advance: nat)
    requires i < |value|
    ensures advance == 0 ==> !Accepts(value[i..])
    ensures advance > 0 ==> i + advance <= |value| && Accepts(value[i..]) == Accepts(value[i + advance..])
  {
    advance := Measure(value, i);
    assert advance > 0 ==> value[i..][advance..] == value[i + advance..];
  }

  method Measure(value: Bytes, i: nat) returns (advance: nat)
    requires i < |value|
    ensures advance == (match Step(value[i..]) case None => 0 case Some(n) => n)
  {
    ghost var tail := value[i..];
    var lead := value[i];
    if lead < 0x80 { return 1; }
    var continuation: nat, codePoint: nat;
    if lead / 0x20 == 0x6 {
      continuation, codePoint := 1, lead % 0x20;
    } else if lead / 0x10 == 0xE {
      continuation, codePoint := 2, lead % 0x10;
    } else if lead / 0x8 == 0x1E {
      continuation, codePoint := 3, lead % 0x8;
    } else {
      return 0;
    }
    if i + continuation >= |value| { return 0; }
    for k := 1 to continuation + 1
      invariant codePoint == CodePoint(tail, k - 1)
      invariant forall j | 1 <= j < k :: IsContinuation(tail[j])
    {
      var next := value[i + k];
      if next / 0x40 != 2 {
        assert !IsContinuation(tail[k]);
        return 0;
      }
      codePoint := codePoint * 0x40 + next % 0x40;
    }
    if continuation == 1 && codePoint < 0x80 { return 0; }
    if continuation == 2 && codePoint < 0x800 { return 0; }
    if continuation == 3 && codePoint < 0x10000 { return 0; }
    if codePoint > 0x10FFFF { return 0; }
    if codePoint >= 0xD800 && codePoint <= 0xDFFF { return 0; }
    return continuation + 1;
  }

  method IsValidUtf8(value: Bytes) returns (ok: bool)
    ensures ok <==> IsUtf8(value)
    ensures ok == Accepts(value)
  {
    AcceptsIffUtf8(value);
    var i := 0;
    while i < |value|
      invariant 0 <= i <= |value|
      invariant Accepts(value) == Accepts(value[i..])
    {
      var advance := Iteration(value, i);
      if advance == 0 { return false; }
      i := i + advance;
    }
    return true;
  }

  /** The examples of section 7 of RFC 3629: one, two, three and four bytes. */
  lemma Examples()
    ensures EncodeScalar(0x41) == [0x41] && EncodeScalar(0x391) == [0xCE, 0x91]
    ensures EncodeScalar(0x2262) == [0xE2, 0x89, 0xA2] && EncodeScalar(0x233B4) == [0xF0, 0xA3, 0x8E, 0xB4]
  {
  }
}
