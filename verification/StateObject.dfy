/**
  State object versions and their segmentation into chunks
  (src/state_object.cpp, and the prefix accounting of src/chunk_plan.cpp).
 */
module StateObject {
  import opened Types
  import Utf8
  import Codec

  const MAX_NAME := 4096
  const MAX_TEXT := 4096
  const MAX_OBJECT_BYTES := 0x100_0000_0000
  const MIN_CHUNK_BYTES := 1024
  const MAX_CHUNK_BYTES := 0x400_0000
  const MAX_CHUNKS := 0x100_0000
  const LAST_KIND: byte := 8

  type Kind = k: byte | k <= LAST_KIND

  datatype Descriptor = Descriptor(
    objectId: Digest,
    kind: Kind,
    name: Bytes,
    generation: u64,
    contentDigest: Digest,
    totalBytes: u64,
    chunkBytes: u64,
    chunkCount: u32,
    created: i64,
    producer: Bytes,
    repeatable: bool)

  /** "SMF-STATE-OBJECT-ID-v1" */
  const ID_DOMAIN: Bytes :=
    [83, 77, 70, 45, 83, 84, 65, 84, 69, 45, 79, 66, 74, 69, 67, 84, 45, 73, 68, 45, 118, 49]

  function PrefixedText(t: Bytes): Bytes {
    Codec.LE(|t|, 8) + t
  }

  function IdImage(kind: Kind, name: Bytes): Bytes {
    PrefixedText(ID_DOMAIN) + [kind] + PrefixedText(name)
  }

  /** The canonical identity: a hash of the domain, the kind and the name. */
  function DeriveId(sha: HashFn, kind: Kind, name: Bytes): Digest {
    sha(IdImage(kind, name))
  }

  function CeilDiv(n: nat, d: nat): nat
    requires d > 0
  {
    (n + d - 1) / d
  }

  predicate ValidSegmentation(d: Descriptor) {
    && d.totalBytes <= MAX_OBJECT_BYTES
    && MIN_CHUNK_BYTES <= d.chunkBytes <= MAX_CHUNK_BYTES
    && var expected := if d.totalBytes == 0 then 0 else CeilDiv(d.totalBytes, d.chunkBytes);
       expected <= MAX_CHUNKS && expected == d.chunkCount
  }

  predicate Valid(sha: HashFn, d: Descriptor) {
    && !IsZero(d.objectId)
    && 0 < |d.name| <= MAX_NAME && Utf8.Accepts(d.name)
    && DeriveId(sha, d.kind, d.name) == d.objectId
    && d.generation != 0
    && !IsZero(d.contentDigest)
    && ValidSegmentation(d)
    && |d.producer| <= MAX_TEXT && Utf8.Accepts(d.producer)
  }

  // ---- checked arithmetic ---------------------------------------------------

  function CheckedAdd(a: u64, b: u64): (r: Option<u64>)
    ensures r.Some? <==> a + b < U64_LIMIT
    ensures r.Some? ==> r.value == a + b
  {
    if a > U64_LIMIT - 1 - b then None else Some(a + b)
  }

  /** The source divides to find out whether the product would overflow. */
  function CheckedMul(a: u64, b: u64): (r: Option<u64>)
    ensures r.Some? <==> a * b < U64_LIMIT
    ensures r.Some? ==> r.value == a * b
  {
    if a != 0 && b > (U64_LIMIT - 1) / a then
      DivisionGuard(a, b); None
    else
      if a != 0 then DivisionGuardHolds(a, b); Some(a * b) else Some(0)
  }

  lemma MulMono(a: nat, b: nat, c: nat)
    requires a <= b
    ensures a * c <= b * c
  {
  }

  lemma DivisionGuard(a: u64, b: u64)
    requires a != 0 && b > (U64_LIMIT - 1) / a
    ensures a * b >= U64_LIMIT
  {
    var top := U64_LIMIT - 1;
    var q, r := top / a, top % a;
    assert top == a * q + r && r < a;
    assert (q + 1) * a == a * q + a;
    MulMono(q + 1, b, a);
  }

  lemma DivisionGuardHolds(a: u64, b: u64)
    requires a != 0 && b <= (U64_LIMIT - 1) / a
    ensures 0 <= a * b < U64_LIMIT
  {
    var top := U64_LIMIT - 1;
    var q, r := top / a, top % a;
    assert top == a * q + r && r >= 0;
    MulMono(b, q, a);
  }

  // ---- chunks ---------------------------------------------------------------

  function ChunkOffset(d: Descriptor, index: u32): Option<u64> {
    if index >= d.chunkCount then None
    else match CheckedMul(index, d.chunkBytes)
      case None => None
      case Some(offset) => if offset >= d.totalBytes then None else Some(offset)
  }

  function ChunkLength(d: Descriptor, index: u32): Option<u64> {
    match ChunkOffset(d, index)
    case None => None
    case Some(offset) =>
      var remaining := d.totalBytes - offset;
      Some(if remaining < d.chunkBytes then remaining else d.chunkBytes)
  }

  /** Where the first `k` chunks end. */
  function PrefixEnd(d: Descriptor, k: nat): nat {
    if k * d.chunkBytes < d.totalBytes then k * d.chunkBytes else d.totalBytes
  }

  lemma CeilDivBounds(n: nat, c: nat)
    requires n > 0 && c > 0
    ensures (CeilDiv(n, c) - 1) * c < n <= CeilDiv(n, c) * c
  {
    var q := CeilDiv(n, c);
    assert n + c - 1 == q * c + (n + c - 1) % c;
    assert (q - 1) * c == q * c - c;
  }

  /** Every chunk below the count exists, begins where the previous ones end, and is never empty. */
  lemma ChunkIsPrefixStep(d: Descriptor, k: u32)
    requires ValidSegmentation(d) && k < d.chunkCount
    ensures ChunkOffset(d, k) == Some(PrefixEnd(d, k))
    ensures ChunkLength(d, k).Some?
    ensures 1 <= ChunkLength(d, k).value <= d.chunkBytes
    ensures PrefixEnd(d, k) + ChunkLength(d, k).value == PrefixEnd(d, k + 1)
  {
    CeilDivBounds(d.totalBytes, d.chunkBytes);
    MulMono(k, d.chunkCount - 1, d.chunkBytes);
    assert k * d.chunkBytes < d.totalBytes < U64_LIMIT;
    assert (k + 1) * d.chunkBytes == k * d.chunkBytes + d.chunkBytes;
  }

  lemma PrefixEndsAtTotal(d: Descriptor)
    requires ValidSegmentation(d)
    ensures PrefixEnd(d, 0) == 0
    ensures PrefixEnd(d, d.chunkCount) == d.totalBytes
  {
    if d.totalBytes > 0 { CeilDivBounds(d.totalBytes, d.chunkBytes); }
  }

  lemma PrefixEndMonotone(d: Descriptor, j: nat, k: nat)
    requires j <= k
    ensures PrefixEnd(d, j) <= PrefixEnd(d, k) <= d.totalBytes
  {
    MulMono(j, k, d.chunkBytes);
  }

  /** Cut `content` into the planned chunks, the first `k` of them. */
  function Chunks(d: Descriptor, content: Bytes, k: nat): (cs: seq<Bytes>)
    requires ValidSegmentation(d) && |content| == d.totalBytes && k <= d.chunkCount
    ensures |cs| == k
  {
    if k == 0 then []
    else
      ChunkIsPrefixStep(d, k - 1);
      Chunks(d, content, k - 1) + [content[PrefixEnd(d, k - 1)..PrefixEnd(d, k)]]
  }

  function Concat(cs: seq<Bytes>): Bytes {
    if cs == [] then [] else Concat(cs[..|cs| - 1]) + cs[|cs| - 1]
  }

  lemma SliceJoin(content: Bytes, a: nat, b: nat)
    requires a <= b <= |content|
    ensures content[..a] + content[a..b] == content[..b]
  {
  }

  lemma {:induction false} ChunksConcat(d: Descriptor, content: Bytes, k: nat)
    requires ValidSegmentation(d) && |content| == d.totalBytes && k <= d.chunkCount
    ensures Concat(Chunks(d, content, k)) == content[..PrefixEnd(d, k)]
  {
    if k > 0 {
      var before := Chunks(d, content, k - 1);
      ChunksConcat(d, content, k - 1);
      PrefixEndMonotone(d, k - 1, k);
      SliceJoin(content, PrefixEnd(d, k - 1), PrefixEnd(d, k));
      assert Chunks(d, content, k)[..k - 1] == before;
    }
  }

  lemma {:induction false} ChunkAt(d: Descriptor, content: Bytes, k: nat, i: nat)
    requires ValidSegmentation(d) && |content| == d.totalBytes && i < k <= d.chunkCount
    ensures PrefixEnd(d, i) <= PrefixEnd(d, i + 1) <= |content|
    ensures Chunks(d, content, k)[i] == content[PrefixEnd(d, i)..PrefixEnd(d, i + 1)]
  {
    PrefixEndMonotone(d, i, i + 1);
    if i < k - 1 { ChunkAt(d, content, k - 1, i); }
  }

  /** Chunk `i` occupies its planned, non-empty place in the content. */
  ghost predicate Placed(d: Descriptor, content: Bytes, i: u32)
    requires ValidSegmentation(d) && |content| == d.totalBytes && i < d.chunkCount
  {
    var offset, length := ChunkOffset(d, i), ChunkLength(d, i);
    && offset == Some(PrefixEnd(d, i))
    && length == Some(PrefixEnd(d, i + 1) - PrefixEnd(d, i))
    && 1 <= length.value <= d.chunkBytes
    && PrefixEnd(d, i + 1) <= |content|
    && Chunks(d, content, d.chunkCount)[i] == content[PrefixEnd(d, i)..PrefixEnd(d, i + 1)]
  }

  /** The chunks tile the object: laid end to end, they are the content, each in its planned place. */
  lemma ChunksTile(d: Descriptor, content: Bytes)
    requires ValidSegmentation(d) && |content| == d.totalBytes
    ensures Concat(Chunks(d, content, d.chunkCount)) == content
    ensures forall i: u32 | i < d.chunkCount :: Placed(d, content, i)
  {
    PrefixEndsAtTotal(d);
    ChunksConcat(d, content, d.chunkCount);
    forall i: u32 | i < d.chunkCount ensures Placed(d, content, i) {
      ChunkIsPrefixStep(d, i);
      ChunkAt(d, content, d.chunkCount, i);
    }
  }

  /**
    The accounting check shared by the staging journal and the resume state: add up
    the planned lengths of the claimed prefix with overflow checks and compare. It
    never overflows and never meets a missing chunk, so it decides exactly whether
    the byte count is where that many chunks end.
   */
  method CheckPrefix(d: Descriptor, verified: u32, claimed: u64) returns (ok: bool)
    requires ValidSegmentation(d)
    ensures ok <==> verified <= d.chunkCount && claimed == Codec.Min(verified * d.chunkBytes, d.totalBytes)
  {
    if verified > d.chunkCount { return false; }
    var expected: u64 := 0;
    PrefixEndsAtTotal(d);
    for index := 0 to verified
      invariant expected == PrefixEnd(d, index)
    {
      ChunkIsPrefixStep(d, index);
      PrefixEndMonotone(d, index + 1, index + 1);
      var length := ChunkLength(d, index);
      if length.None? { return false; }
      var next := CheckedAdd(expected, length.value);
      if next.None? { return false; }
      expected := next.value;
    }
    return expected == claimed;
  }

  // ---- versions -------------------------------------------------------------

  /** `check_resume_compatible`: staged bytes may be continued under `planned`. */
  predicate ResumeCompatible(planned: Descriptor, staged: Descriptor) {
    && planned.objectId == staged.objectId
    && planned.generation == staged.generation
    && planned.contentDigest == staged.contentDigest
    && planned.chunkBytes == staged.chunkBytes
    && planned.chunkCount == staged.chunkCount
    && planned.totalBytes == staged.totalBytes
  }

  /** "SMF-CHUNK-v1" */
  const CHUNK_DOMAIN: Bytes := [83, 77, 70, 45, 67, 72, 85, 78, 75, 45, 118, 49]

  /** What is hashed for a chunk. */
  function ChunkImage(d: Descriptor, index: u32, offset: u64, payload: Bytes): Bytes {
    PrefixedText(CHUNK_DOMAIN) +
    (d.objectId + (Codec.LE(d.generation, 8) + (Codec.LE(index, 4) +
     (Codec.LE(offset, 8) + (Codec.LE(|payload|, 8) + PrefixedText(payload))))))
  }

  /** The digest that binds a payload to one slot of one object version. */
  function ChunkDigest(sha: HashFn, d: Descriptor, index: u32, offset: u64, payload: Bytes): Digest {
    sha(ChunkImage(d, index, offset, payload))
  }

  lemma Peel(a: Bytes, x: Bytes, b: Bytes, y: Bytes)
    requires |a| == |b| && a + x == b + y
    ensures a == b && x == y
  {
    assert a == (a + x)[..|a|] && x == (a + x)[|a|..];
    assert b == (b + y)[..|b|] && y == (b + y)[|b|..];
  }

  lemma WordPeel(v: nat, w: nat, width: nat)
    requires v < Codec.Pow256(width) && w < Codec.Pow256(width) && Codec.LE(v, width) == Codec.LE(w, width)
    ensures v == w
  {
    Codec.LERoundTrip(v, width);
    Codec.LERoundTrip(w, width);
  }

  /** Chunks that differ in object, generation, index, offset or payload are hashed from different bytes. */
  lemma ChunkImageInjective(
    d: Descriptor, index: u32, offset: u64, payload: Bytes, e: Descriptor, index': u32, offset': u64, payload': Bytes)
    requires ChunkImage(d, index, offset, payload) == ChunkImage(e, index', offset', payload')
    ensures d.objectId == e.objectId && d.generation == e.generation
    ensures |payload| < U64_LIMIT && |payload'| < U64_LIMIT ==>
      index == index' && offset == offset' && payload == payload'
  {
    hide Codec.LE, PrefixedText;
    var p, p' := PrefixedText(payload), PrefixedText(payload');
    var l, l' := Codec.LE(|payload|, 8) + p, Codec.LE(|payload'|, 8) + p';
    var o, o' := Codec.LE(offset, 8) + l, Codec.LE(offset', 8) + l';
    var i, i' := Codec.LE(index, 4) + o, Codec.LE(index', 4) + o';
    var g, g' := Codec.LE(d.generation, 8) + i, Codec.LE(e.generation, 8) + i';
    var prefix := PrefixedText(CHUNK_DOMAIN);
    Peel(prefix, d.objectId + g, prefix, e.objectId + g');
    Peel(d.objectId, g, e.objectId, g');
    Peel(Codec.LE(d.generation, 8), i, Codec.LE(e.generation, 8), i');
    Peel(Codec.LE(index, 4), o, Codec.LE(index', 4), o');
    Peel(Codec.LE(offset, 8), l, Codec.LE(offset', 8), l');
    Peel(Codec.LE(|payload|, 8), p, Codec.LE(|payload'|, 8), p');
    Codec.Widths();
    WordPeel(d.generation, e.generation, 8);
    WordPeel(index, index', 4);
    WordPeel(offset, offset', 8);
    if |payload| < U64_LIMIT && |payload'| < U64_LIMIT {
      WordPeel(|payload|, |payload'|, 8);
      PrefixedPeel(payload, payload');
    }
  }

  lemma PrefixedPeel(a: Bytes, b: Bytes)
    requires |a| == |b| && PrefixedText(a) == PrefixedText(b)
    ensures a == b
  {
    hide Codec.LE;
    Peel(Codec.LE(|a|, 8), a, Codec.LE(|b|, 8), b);
  }

  /** Objects of different kind or name take their identities from different bytes. */
  lemma IdImageInjective(kind: Kind, name: Bytes, kind': Kind, name': Bytes)
    requires IdImage(kind, name) == IdImage(kind', name')
    ensures kind == kind' && name == name'
  {
    hide Codec.LE;
    var prefix, p, p' := PrefixedText(ID_DOMAIN), PrefixedText(name), PrefixedText(name');
    Peel(prefix + [kind], p, prefix + [kind'], p');
    Peel(prefix, [kind], prefix, [kind']);
    assert |p| == 8 + |name| && |p'| == 8 + |name'|;
    PrefixedPeel(name, name');
  }
}
