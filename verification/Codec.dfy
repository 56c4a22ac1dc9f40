/**
  The canonical binary encoding (src/codec.cpp): fixed-width little-endian
  integers, length-prefixed blobs and text, bounded decoding.

  A message is a list of values laid out by a list of fields. The functions
  `WriteAll` and `ReadAll` give the byte-level meaning; the classes
  `CanonicalEncoder` and `CanonicalDecoder` are the stateful forms that push onto
  a buffer and advance an offset.
 */
module Codec {
  import opened Types
  import Utf8

  datatype Refusal =
    | Truncated | BoundsExceeded | CanonicalViolation | InvalidUtf8 | TrailingGarbage | NotRecognized

  datatype Result<+T> = Ok(value: T) | Err(why: Refusal) {
    predicate IsFailure() { Err? }
    function PropagateFailure<U>(): Result<U> requires Err? { Err(why) }
    function Extract(): T requires Ok? { value }
  }

  datatype Limits = Limits(maxBlob: nat, maxText: nat, maxInput: nat)

  const WORD: nat := 8

  // ---- little-endian integers -----------------------------------------------

  function Pow256(n: nat): (p: nat)
    ensures p > 0
  {
    if n == 0 then 1 else 0x100 * Pow256(n - 1)
  }

  function LE(v: nat, width: nat): (s: Bytes)
    ensures |s| == width
    decreases width, v
  {
    if width == 0 then [] else [v % 0x100] + LE(v / 0x100, width - 1)
  }

  function FromLE(s: Bytes): nat {
    if s == [] then 0 else s[0] + 0x100 * FromLE(s[1..])
  }

  lemma {:induction false} FromLEBound(s: Bytes)
    ensures FromLE(s) < Pow256(|s|)
  {
    if s != [] { FromLEBound(s[1..]); }
  }

  lemma {:induction false} LERoundTrip(v: nat, width: nat)
    requires v < Pow256(width)
    ensures FromLE(LE(v, width)) == v
    decreases width
  {
    if width > 0 {
      LERoundTrip(v / 0x100, width - 1);
      assert LE(v, width)[1..] == LE(v / 0x100, width - 1);
    }
  }

  lemma {:induction false} LECanonical(s: Bytes)
    ensures LE(FromLE(s), |s|) == s
  {
    if s != [] {
      LECanonical(s[1..]);
      assert FromLE(s) % 0x100 == s[0] && FromLE(s) / 0x100 == FromLE(s[1..]);
      assert s == [s[0]] + s[1..];
    }
  }

  lemma {:induction false} FromLESnoc(s: Bytes, b: byte)
    ensures FromLE(s + [b]) == FromLE(s) + Pow256(|s|) * b
  {
    if s != [] {
      FromLESnoc(s[1..], b);
      assert (s + [b])[1..] == s[1..] + [b];
      var p := Pow256(|s| - 1);
      assert Pow256(|s|) * b == 0x100 * (p * b);
    }
  }

  lemma Widths()
    ensures Pow256(1) == 0x100
    ensures Pow256(2) == U16_LIMIT
    ensures Pow256(4) == U32_LIMIT
    ensures Pow256(8) == U64_LIMIT
  {
    assert Pow256(3) == 0x100 * Pow256(2);
    assert Pow256(4) == 0x100 * Pow256(3);
    assert Pow256(5) == 0x100 * Pow256(4);
    assert Pow256(6) == 0x100 * Pow256(5);
    assert Pow256(7) == 0x100 * Pow256(6);
  }

  /** Byte `i` of a word is its digit of weight 256^i: the least significant comes first. */
  lemma {:induction false} LEDigit(v: nat, width: nat, i: nat)
    requires i < width
    ensures LE(v, width)[i] == v / Pow256(i) % 0x100
    decreases width
  {
    if i > 0 {
      LEDigit(v / 0x100, width - 1, i - 1);
      DivideTwice(v, Pow256(i - 1));
    }
  }

  lemma DivideTwice(v: nat, p: nat)
    requires p > 0
    ensures v / 0x100 / p == v / (0x100 * p)
  {
    var q, r := v / 0x100 / p, v / 0x100 % p;
    assert v == 0x100 * (p * q + r) + v % 0x100;
    assert 0x100 * (p * q + r) == 0x100 * p * q + 0x100 * r;
    QuotientOf(v, 0x100 * p, q, 0x100 * r + v % 0x100);
  }

  lemma QuotientOf(n: nat, p: nat, q: nat, r: nat)
    requires p > 0 && n == p * q + r && r < p
    ensures n / p == q
  {
    var d := n / p - q;
    assert p * d == r - n % p by { assert n == p * (n / p) + n % p; }
    assert -1 < d < 1;
  }

  lemma WordRoundTrip(n: nat)
    requires n < U64_LIMIT
    ensures FromLE(LE(n, WORD)) == n
  {
    Widths();
    LERoundTrip(n, WORD);
  }

  // ---- fields ---------------------------------------------------------------

  /** How one value is laid out. A boolean is an enumeration whose last member is 1. */
  datatype Field =
    | Enumeration(last: byte)   // one byte, refused above `last`
    | Unsigned(width: nat)      // little endian, 2, 4 or 8 bytes
    | Signed64                  // two's complement in 8 bytes
    | Fixed(width: nat)         // raw bytes, no prefix (a digest)
    | Blob(size: nat)           // 64-bit length, then exactly `size` bytes (an identifier)
    | Text(max: nat)            // 64-bit length, then at most `max` bytes of UTF-8

  datatype Value = Num(n: int) | Raw(bytes: Bytes)

  /** The values the encoder writes: right kind, right width. It checks no text. */
  predicate Shaped(f: Field, v: Value) {
    match f
    case Enumeration(_) => v.Num? && 0 <= v.n < 0x100
    case Unsigned(width) => v.Num? && 0 <= v.n < Pow256(width)
    case Signed64 => v.Num? && -(U64_LIMIT / 2) <= v.n < U64_LIMIT / 2
    case Fixed(width) => v.Raw? && |v.bytes| == width
    case Blob(size) => v.Raw? && |v.bytes| == size
    case Text(_) => v.Raw?
  }

  /** The values the decoder accepts. */
  predicate Fits(f: Field, v: Value) {
    match f
    case Enumeration(last) => v.Num? && 0 <= v.n <= last
    case Unsigned(width) => v.Num? && 0 <= v.n < Pow256(width)
    case Signed64 => v.Num? && -(U64_LIMIT / 2) <= v.n < U64_LIMIT / 2
    case Fixed(width) => v.Raw? && |v.bytes| == width
    case Blob(size) => v.Raw? && |v.bytes| == size
    case Text(max) => v.Raw? && |v.bytes| <= max && Utf8.Accepts(v.bytes)
  }

  /** The decoder's own ceilings leave room for this value. */
  predicate Admits(limits: Limits, f: Field, v: Value) {
    match f
    case Blob(_) => v.Raw? && |v.bytes| <= limits.maxBlob < U64_LIMIT
    case Text(_) => v.Raw? && |v.bytes| <= limits.maxText && |v.bytes| <= limits.maxBlob < U64_LIMIT
    case _ => true
  }

  function Write(f: Field, v: Value): Bytes
    requires Shaped(f, v)
  {
    match f
    case Enumeration(_) => [v.n]
    case Unsigned(width) => LE(v.n, width)
    case Signed64 => LE(if v.n < 0 then v.n + U64_LIMIT else v.n, WORD)
    case Fixed(_) => v.bytes
    case Blob(_) => LE(|v.bytes|, WORD) + v.bytes
    case Text(_) => LE(|v.bytes|, WORD) + v.bytes
  }

  function Min(a: nat, b: nat): nat { if a < b then a else b }

  function Take(s: Bytes, n: nat): Result<(Bytes, Bytes)> {
    if |s| < n then Err(Truncated) else Ok((s[..n], s[n..]))
  }

  function ReadBlob(limits: Limits, max: nat, s: Bytes): Result<(Bytes, Bytes)> {
    var (prefix, body) :- Take(s, WORD);
    var length := FromLE(prefix);
    if length > Min(max, limits.maxBlob) then Err(BoundsExceeded) else Take(body, length)
  }

  function Read(limits: Limits, f: Field, s: Bytes): Result<(Value, Bytes)> {
    match f
    case Enumeration(last) =>
      var (raw, rest) :- Take(s, 1);
      if raw[0] > last then Err(if last == 1 then CanonicalViolation else NotRecognized)
      else Ok((Num(raw[0]), rest))
    case Unsigned(width) =>
      var (raw, rest) :- Take(s, width);
      Ok((Num(FromLE(raw)), rest))
    case Signed64 =>
      var (raw, rest) :- Take(s, WORD);
      var u := FromLE(raw);
      Ok((Num(if u < U64_LIMIT / 2 then u else u - U64_LIMIT), rest))
    case Fixed(width) =>
      var (raw, rest) :- Take(s, width);
      Ok((Raw(raw), rest))
    case Blob(size) =>
      var (raw, rest) :- ReadBlob(limits, size, s);
      if |raw| != size then Err(CanonicalViolation) else Ok((Raw(raw), rest))
    case Text(max) =>
      var (raw, rest) :- ReadBlob(limits, Min(max, limits.maxText), s);
      if !Utf8.Accepts(raw) then Err(InvalidUtf8) else Ok((Raw(raw), rest))
  }

  lemma TakeAppend(a: Bytes, tail: Bytes)
    ensures Take(a + tail, |a|) == Ok((a, tail))
  {
    assert (a + tail)[..|a|] == a && (a + tail)[|a|..] == tail;
  }

  /** Behind a truthful length prefix the reader sees those bytes, if it sees anything. */
  lemma ReadPrefixed(limits: Limits, max: nat, prefix: Bytes, bytes: Bytes, tail: Bytes)
    requires |prefix| == WORD && FromLE(prefix) == |bytes|
    ensures ReadBlob(limits, max, prefix + bytes + tail) ==
      if |bytes| > Min(max, limits.maxBlob) then Err(BoundsExceeded) else Ok((bytes, tail))
  {
    assert prefix + bytes + tail == prefix + (bytes + tail);
    TakeAppend(prefix, bytes + tail);
    TakeAppend(bytes, tail);
  }

  lemma ReadBlobWrite(limits: Limits, max: nat, bytes: Bytes, tail: Bytes)
    requires |bytes| <= max && |bytes| <= limits.maxBlob && |bytes| < U64_LIMIT
    ensures ReadBlob(limits, max, LE(|bytes|, WORD) + bytes + tail) == Ok((bytes, tail))
  {
    WordRoundTrip(|bytes|);
    ReadPrefixed(limits, max, LE(|bytes|, WORD), bytes, tail);
  }

  lemma WriteReadBlob(limits: Limits, max: nat, s: Bytes)
    ensures ReadBlob(limits, max, s).Ok? ==>
      var (bytes, rest) := ReadBlob(limits, max, s).value;
      |bytes| <= max && |bytes| <= limits.maxBlob && s == LE(|bytes|, WORD) + bytes + rest
  {
    if ReadBlob(limits, max, s).Ok? {
      LECanonical(s[..WORD]);
      var (bytes, rest) := ReadBlob(limits, max, s).value;
      assert s == s[..WORD] + s[WORD..] && s[WORD..] == bytes + rest;
    }
  }

  /** Reading what was written gives the value back and stops exactly at its end. */
  lemma ReadWrite(limits: Limits, f: Field, v: Value, tail: Bytes)
    requires Fits(f, v) && Admits(limits, f, v)
    ensures Read(limits, f, Write(f, v) + tail) == Ok((v, tail))
  {
    Widths();
    TakeAppend(Write(f, v), tail);
    match f
    case Unsigned(width) => LERoundTrip(v.n, width);
    case Signed64 => WordRoundTrip(if v.n < 0 then v.n + U64_LIMIT else v.n);
    case Blob(size) => ReadBlobWrite(limits, size, v.bytes, tail);
    case Text(max) => ReadBlobWrite(limits, Min(max, limits.maxText), v.bytes, tail);
    case _ =>
  }

  /** What is read re-encodes to exactly the bytes consumed. */
  lemma WriteRead(limits: Limits, f: Field, s: Bytes)
    ensures Read(limits, f, s).Ok? ==>
      var (v, rest) := Read(limits, f, s).value;
      Fits(f, v) && s == Write(f, v) + rest
  {
    if Read(limits, f, s).Ok? {
      match f
      case Unsigned(width) =>
        LECanonical(s[..width]);
        FromLEBound(s[..width]);
      case Signed64 =>
        Widths();
        LECanonical(s[..WORD]);
        FromLEBound(s[..WORD]);
      case Blob(size) => WriteReadBlob(limits, size, s);
      case Text(max) => WriteReadBlob(limits, Min(max, limits.maxText), s);
      case _ =>
    }
  }

  // ---- messages: lists of fields --------------------------------------------

  predicate ShapedAll(fs: seq<Field>, vs: seq<Value>) {
    |fs| == |vs| && forall i | 0 <= i < |fs| :: Shaped(fs[i], vs[i])
  }

  predicate FitsAll(fs: seq<Field>, vs: seq<Value>) {
    |fs| == |vs| && forall i | 0 <= i < |fs| :: Fits(fs[i], vs[i])
  }

  function WriteAll(fs: seq<Field>, vs: seq<Value>): Bytes
    requires ShapedAll(fs, vs)
  {
    if fs == [] then [] else Write(fs[0], vs[0]) + WriteAll(fs[1..], vs[1..])
  }

  function ReadAll(limits: Limits, fs: seq<Field>, s: Bytes): Result<(seq<Value>, Bytes)> {
    if fs == [] then Ok(([], s))
    else
      var (v, rest) :- Read(limits, fs[0], s);
      var (vs, end) :- ReadAll(limits, fs[1..], rest);
      Ok(([v] + vs, end))
  }

  predicate AdmitsAll(limits: Limits, fs: seq<Field>, vs: seq<Value>) {
    |fs| == |vs| && forall i | 0 <= i < |fs| :: Admits(limits, fs[i], vs[i])
  }

  /** Text fields never ask for more than the decoder allows any text. */
  predicate TextBounded(limits: Limits, fs: seq<Field>) {
    forall i | 0 <= i < |fs| && fs[i].Text? :: fs[i].max <= limits.maxText
  }

  /** A message that fits in the blob ceiling as a whole has no part the decoder refuses. */
  lemma {:induction false} SmallMessageAdmitted(limits: Limits, fs: seq<Field>, vs: seq<Value>)
    requires ShapedAll(fs, vs) && FitsAll(fs, vs) && TextBounded(limits, fs)
    requires |WriteAll(fs, vs)| <= limits.maxBlob < U64_LIMIT
    ensures AdmitsAll(limits, fs, vs)
  {
    if fs != [] {
      SmallMessageAdmitted(limits, fs[1..], vs[1..]);
      forall i | 0 <= i < |fs| ensures Admits(limits, fs[i], vs[i]) {
        if i > 0 { assert fs[i] == fs[1..][i - 1] && vs[i] == vs[1..][i - 1]; }
      }
    }
  }

  lemma Associate(a: Bytes, b: Bytes, c: Bytes)
    ensures a + b + c == a + (b + c)
  {
  }

  lemma WriteAllCons(fs: seq<Field>, vs: seq<Value>, tail: Bytes)
    requires ShapedAll(fs, vs) && fs != []
    ensures WriteAll(fs, vs) + tail == Write(fs[0], vs[0]) + (WriteAll(fs[1..], vs[1..]) + tail)
  {
  }

  lemma {:induction false} ReadWriteAll(limits: Limits, fs: seq<Field>, vs: seq<Value>, tail: Bytes)
    requires FitsAll(fs, vs) && AdmitsAll(limits, fs, vs)
    ensures ReadAll(limits, fs, WriteAll(fs, vs) + tail) == Ok((vs, tail))
  {
    if fs != [] {
      var rest := WriteAll(fs[1..], vs[1..]) + tail;
      ReadWriteAll(limits, fs[1..], vs[1..], tail);
      ReadWrite(limits, fs[0], vs[0], rest);
      WriteAllCons(fs, vs, tail);
      assert [vs[0]] + vs[1..] == vs;
    } else {
      assert WriteAll(fs, vs) + tail == tail;
    }
  }

  lemma {:induction false} WriteReadAll(limits: Limits, fs: seq<Field>, s: Bytes)
    ensures ReadAll(limits, fs, s).Ok? ==>
      var (vs, end) := ReadAll(limits, fs, s).value;
      FitsAll(fs, vs) && s == WriteAll(fs, vs) + end
  {
    if fs != [] && ReadAll(limits, fs, s).Ok? {
      WriteRead(limits, fs[0], s);
      var (v, rest) := Read(limits, fs[0], s).value;
      WriteReadAll(limits, fs[1..], rest);
      var (vs, end) := ReadAll(limits, fs[1..], rest).value;
      assert FitsAll(fs, [v] + vs) by {
        forall i | 0 <= i < |fs| ensures Fits(fs[i], ([v] + vs)[i]) {
          if i > 0 { assert fs[i] == fs[1..][i - 1]; }
        }
      }
      assert ([v] + vs)[1..] == vs;
      assert s == Write(fs[0], v) + (WriteAll(fs[1..], vs) + end);
    }
  }

  /** The reader takes a text only within its bound and the decoder's, and only as UTF-8. */
  predicate ReadableText(limits: Limits, max: nat, bytes: Bytes) {
    |bytes| <= max && |bytes| <= limits.maxText && Utf8.Accepts(bytes)
  }

  /** Any other text is written, and then refused by the reader. */
  lemma ReadRefusesText(limits: Limits, max: nat, bytes: Bytes, tail: Bytes)
    requires !ReadableText(limits, max, bytes) && |bytes| < U64_LIMIT
    ensures Read(limits, Text(max), Write(Text(max), Raw(bytes)) + tail).Err?
  {
    WordRoundTrip(|bytes|);
    ReadPrefixed(limits, Min(max, limits.maxText), LE(|bytes|, WORD), bytes, tail);
  }

  /** One unreadable text, with everything before it readable, refuses the message. */
  lemma {:induction false} ReadAllRefusesText(
    limits: Limits, fs: seq<Field>, vs: seq<Value>, k: nat, tail: Bytes)
    requires ShapedAll(fs, vs) && k < |fs|
    requires FitsAll(fs[..k], vs[..k]) && AdmitsAll(limits, fs[..k], vs[..k])
    requires fs[k].Text? && !ReadableText(limits, fs[k].max, vs[k].bytes) && |vs[k].bytes| < U64_LIMIT
    ensures ReadAll(limits, fs, WriteAll(fs, vs) + tail).Err?
  {
    var rest := WriteAll(fs[1..], vs[1..]) + tail;
    WriteAllCons(fs, vs, tail);
    if k == 0 {
      ReadRefusesText(limits, fs[0].max, vs[0].bytes, rest);
    } else {
      assert fs[..k][0] == fs[0] && vs[..k][0] == vs[0];
      assert fs[..k][1..] == fs[1..][..k - 1] && vs[..k][1..] == vs[1..][..k - 1];
      ReadWrite(limits, fs[0], vs[0], rest);
      ReadAllRefusesText(limits, fs[1..], vs[1..], k - 1, tail);
    }
  }

  // ---- the stateful encoder and decoder -------------------------------------

  class CanonicalEncoder {
    var buffer: Bytes

    constructor ()
      ensures buffer == []
    {
      buffer := [];
    }

    method StoreLE(value: nat, width: nat)
      modifies this
      ensures buffer == old(buffer) + LE(value, width)
    {
      var v, i := value, 0;
      while i < width
        invariant 0 <= i <= width
        invariant buffer + LE(v, width - i) == old(buffer) + LE(value, width)
      {
        buffer := buffer + [v % 0x100];
        v, i := v / 0x100, i + 1;
      }
    }

    method PutWord(value: nat)
      modifies this
      ensures buffer == old(buffer) + LE(value, WORD)
    {
      StoreLE(value, WORD);
    }

    method PutPrefixed(bytes: Bytes)
      modifies this
      ensures buffer == old(buffer) + (LE(|bytes|, WORD) + bytes)
    {
      StoreLE(|bytes|, WORD);
      buffer := buffer + bytes;
    }

    method Put(f: Field, v: Value)
      requires Shaped(f, v)
      modifies this
      ensures buffer == old(buffer) + Write(f, v)
    {
      match f {
        case Enumeration(_) => buffer := buffer + [v.n];
        case Unsigned(width) => StoreLE(v.n, width);
        case Signed64 => PutWord(if v.n < 0 then v.n + U64_LIMIT else v.n);
        case Fixed(_) => buffer := buffer + v.bytes;
        case Blob(_) => PutPrefixed(v.bytes);
        case Text(_) => PutPrefixed(v.bytes);
      }
    }

    method PutAll(fs: seq<Field>, vs: seq<Value>)
      requires ShapedAll(fs, vs)
      modifies this
      ensures buffer == old(buffer) + WriteAll(fs, vs)
      decreases |fs|
    {
      if fs != [] {
        ghost var was := buffer;
        Put(fs[0], vs[0]);
        PutAll(fs[1..], vs[1..]);
        Associate(was, Write(fs[0], vs[0]), WriteAll(fs[1..], vs[1..]));
      }
    }
  }

  /** A refused read leaves the decoder unusable: every caller returns on the spot. */
  class CanonicalDecoder {
    const input: Bytes
    const limits: Limits
    var offset: nat

    ghost predicate Valid() reads this { offset <= |input| }

    constructor (input: Bytes, limits: Limits)
      ensures Valid() && this.input == input && this.limits == limits && Rest() == input
    {
      this.input, this.limits, offset := input, limits, 0;
    }

    function Rest(): Bytes reads this requires Valid() { input[offset..] }

    predicate OverLimit() { |input| > limits.maxInput }

    method LoadLE(width: nat) returns (r: Result<nat>)
      requires Valid()
      modifies this
      ensures Valid()
      ensures OverLimit() ==> r == Err(BoundsExceeded)
      ensures !OverLimit() ==>
        match Take(old(Rest()), width)
        case Err(why) => r == Err(why)
        case Ok((raw, rest)) => r == Ok(FromLE(raw)) && Rest() == rest
    {
      if OverLimit() { return Err(BoundsExceeded); }
      if |input| - offset < width { return Err(Truncated); }
      ghost var raw := Rest()[..width];
      var value: nat, scale: nat := 0, 1;
      for i := 0 to width
        invariant offset == old(offset)
        invariant value == FromLE(raw[..i]) && scale == Pow256(i)
      {
        FromLESnoc(raw[..i], raw[i]);
        assert raw[..i + 1] == raw[..i] + [raw[i]];
        value := value + scale * input[offset + i];
        scale := 0x100 * scale;
      }
      assert raw[..width] == raw;
      offset := offset + width;
      assert Rest() == old(Rest())[width..];
      return Ok(value);
    }

    method GetBlob(max: nat) returns (r: Result<Bytes>)
      requires Valid()
      modifies this
      ensures Valid()
      ensures OverLimit() ==> r == Err(BoundsExceeded)
      ensures !OverLimit() ==>
        match ReadBlob(limits, max, old(Rest()))
        case Err(why) => r == Err(why)
        case Ok((raw, rest)) => r == Ok(raw) && Rest() == rest
    {
      var declared := LoadLE(WORD);
      if declared.Err? { return Err(declared.why); }
      var length := declared.value;
      var allowed := if max < limits.maxBlob then max else limits.maxBlob;
      if length > allowed { return Err(BoundsExceeded); }
      if length > |input| - offset { return Err(Truncated); }
      ghost var body := Rest();
      r := Ok(input[offset..offset + length]);
      offset := offset + length;
      assert r.value == body[..length] && Rest() == body[length..];
    }

    method Get(f: Field) returns (r: Result<Value>)
      requires Valid()
      modifies this
      ensures Valid()
      ensures OverLimit() ==> r == Err(BoundsExceeded)
      ensures !OverLimit() ==>
        match Read(limits, f, old(Rest()))
        case Err(why) => r == Err(why)
        case Ok((v, rest)) => r == Ok(v) && Rest() == rest
    {
      match f {
        case Enumeration(last) =>
          if OverLimit() { return Err(BoundsExceeded); }
          if |input| - offset < 1 { return Err(Truncated); }
          var b := input[offset];
          offset := offset + 1;
          assert Rest() == old(Rest())[1..];
          if b > last { return Err(if last == 1 then CanonicalViolation else NotRecognized); }
          return Ok(Num(b));
        case Unsigned(width) =>
          var n := LoadLE(width);
          if n.Err? { return Err(n.why); }
          return Ok(Num(n.value));
        case Signed64 =>
          var n := LoadLE(WORD);
          if n.Err? { return Err(n.why); }
          return Ok(Num(if n.value < U64_LIMIT / 2 then n.value else n.value - U64_LIMIT));
        case Fixed(width) =>
          if OverLimit() { return Err(BoundsExceeded); }
          if |input| - offset < width { return Err(Truncated); }
          r := Ok(Raw(input[offset..offset + width]));
          assert r.value.bytes == Rest()[..width];
          offset := offset + width;
          assert Rest() == old(Rest())[width..];
        case Blob(size) =>
          var raw := GetBlob(size);
          if raw.Err? { return Err(raw.why); }
          if |raw.value| != size { return Err(CanonicalViolation); }
          return Ok(Raw(raw.value));
        case Text(max) =>
          var raw := GetBlob(if max < limits.maxText then max else limits.maxText);
          if raw.Err? { return Err(raw.why); }
          var valid := Utf8.IsValidUtf8(raw.value);
          if !valid { return Err(InvalidUtf8); }
          return Ok(Raw(raw.value));
      }
    }

    method GetAll(fs: seq<Field>) returns (r: Result<seq<Value>>)
      requires Valid()
      modifies this
      ensures Valid()
      ensures OverLimit() && fs != [] ==> r == Err(BoundsExceeded)
      ensures !OverLimit() ==>
        match ReadAll(limits, fs, old(Rest()))
        case Err(why) => r == Err(why)
        case Ok((vs, rest)) => r == Ok(vs) && Rest() == rest
      decreases |fs|
    {
      if fs == [] { return Ok([]); }
      var v := Get(fs[0]);
      if v.Err? { return Err(v.why); }
      var vs := GetAll(fs[1..]);
      if vs.Err? { return Err(vs.why); }
      return Ok([v.value] + vs.value);
    }

    method RequireEnd() returns (r: Result<bool>)
      requires Valid()
      ensures OverLimit() ==> r == Err(BoundsExceeded)
      ensures !OverLimit() ==> r == if Rest() == [] then Ok(true) else Err(TrailingGarbage)
    {
      if OverLimit() { return Err(BoundsExceeded); }
      if offset != |input| { return Err(TrailingGarbage); }
      return Ok(true);
    }
  }
}
