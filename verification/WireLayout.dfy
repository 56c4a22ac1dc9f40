/**
  Where the parts of an encoded message stand: the order of the fields of every stored
  message, and the place of each field in the bytes.
 */
module WireLayout {
  import opened Types
  import opened Codec
  import opened Movement
  import StateObject
  import opened RecordCodec

  /** Where field `k` begins. */
  function At(fs: seq<Field>, vs: seq<Value>, k: nat): nat
    requires ShapedAll(fs, vs) && k <= |fs|
  {
    if k == 0 then 0 else At(fs, vs, k - 1) + |Write(fs[k - 1], vs[k - 1])|
  }

  lemma {:induction false} AtTail(fs: seq<Field>, vs: seq<Value>, k: nat)
    requires ShapedAll(fs, vs) && 0 < k <= |fs|
    ensures At(fs, vs, k) == |Write(fs[0], vs[0])| + At(fs[1..], vs[1..], k - 1)
  {
    hide Write;
    if k > 1 { AtTail(fs, vs, k - 1); }
  }

  /** Every field stands behind those before it, and its bytes are its own encoding. */
  lemma {:induction false} FieldAt(fs: seq<Field>, vs: seq<Value>, k: nat)
    requires ShapedAll(fs, vs) && k < |fs|
    ensures At(fs, vs, k) + |Write(fs[k], vs[k])| <= |WriteAll(fs, vs)|
    ensures WriteAll(fs, vs)[At(fs, vs, k)..At(fs, vs, k) + |Write(fs[k], vs[k])|] == Write(fs[k], vs[k])
    decreases |fs|
  {
    hide Write;
    var head, rest := Write(fs[0], vs[0]), WriteAll(fs[1..], vs[1..]);
    if k > 0 {
      FieldAt(fs[1..], vs[1..], k - 1);
      AtTail(fs, vs, k);
      var a, n := At(fs[1..], vs[1..], k - 1), |Write(fs[k], vs[k])|;
      assert (head + rest)[|head| + a..|head| + a + n] == rest[a..a + n];
    }
  }

  /** What the bytes of each kind of field are: a number is its own width, a text or identifier follows its length. */
  lemma FieldIs(f: Field, v: Value)
    requires Shaped(f, v)
    ensures var b := Write(f, v);
      match f
      case Enumeration(_) => |b| == 1 && b[0] == v.n
      case Unsigned(width) => |b| == width && FromLE(b) == v.n
      case Signed64 => |b| == WORD && (FromLE(b) - v.n) % U64_LIMIT == 0
      case Fixed(_) => b == v.bytes
      case _ =>
        |b| == WORD + |v.bytes| && b[WORD..] == v.bytes && (|v.bytes| < U64_LIMIT ==> FromLE(b[..WORD]) == |v.bytes|)
  {
    hide LE, FromLE;
    Widths();
    match f
    case Enumeration(_) =>
    case Unsigned(width) => LERoundTrip(v.n, width);
    case Signed64 => LERoundTrip(if v.n < 0 then v.n + U64_LIMIT else v.n, WORD);
    case Fixed(_) =>
    case Blob(_) => PrefixIs(v.bytes);
    case Text(_) => PrefixIs(v.bytes);
  }

  lemma PrefixIs(bytes: Bytes)
    ensures var b := LE(|bytes|, WORD) + bytes;
      b[WORD..] == bytes && (|bytes| < U64_LIMIT ==> FromLE(b[..WORD]) == |bytes|)
  {
    hide LE, FromLE;
    assert (LE(|bytes|, WORD) + bytes)[..WORD] == LE(|bytes|, WORD);
    if |bytes| < U64_LIMIT { WordRoundTrip(|bytes|); }
  }

  /** `StateObjectDescriptor::encode` (src/state_object.cpp:132-144) */
  lemma DescriptorOrder(d: StateObject.Descriptor)
    ensures DescriptorValues(d) == [
      Raw(d.objectId), Num(d.kind), Raw(d.name), Num(d.generation), Raw(d.contentDigest), Num(d.totalBytes),
      Num(d.chunkBytes), Num(d.chunkCount), Num(d.created), Raw(d.producer), Num(if d.repeatable then 1 else 0)]
  {
  }

  /** `ProvenanceEvent::encode` (src/provenance.cpp:83-98) */
  lemma EventOrder(e: Event)
    ensures EventValues(e) == [
      Num(e.sequence), Num(e.millis), Num(e.kind), Num(StateCode(e.state)), Num(e.generation), Num(e.reason),
      Raw(e.actor), Raw(e.actorBoot), Num(e.actorEpoch), Raw(e.attempt), Raw(e.evidence), Raw(e.detail)]
  {
  }

  /** `MovementRecord::encode` (src/movement.cpp:209-240) */
  lemma RecordOrder(r: Record)
    requires |r.provenance.events| <= MAX_EVENTS
    ensures EncodeRecord(r) ==
      EncodeIdentity(r) +
      (EncodeDescriptor(r.descriptor) + (EncodeParties(r) + (EncodeProgress(r) + EncodeChain(r.provenance))))
    ensures IdentityValues(r) == [Raw(r.id), Num(r.generation)]
    ensures PartyValues(r) == [
      Raw(r.source), Raw(r.destination),
      Raw(r.sourceIncarnation.endpoint), Raw(r.sourceIncarnation.boot), Num(r.sourceIncarnation.epoch),
      Raw(r.destinationIncarnation.endpoint), Raw(r.destinationIncarnation.boot), Num(r.destinationIncarnation.epoch),
      Num(r.compatibilityGeneration), Raw(r.compatibilityEvidence), Num(r.topologyGeneration),
      Num(r.policyGeneration)]
    ensures ProgressValues(r) == [
      Num(StateCode(r.state)), Num(r.lastReason), Raw(r.lastDetail), Raw(r.attempt), Num(r.attemptCount),
      Num(r.bytesTransferred), Num(r.chunksVerified), Raw(r.sourceVerifiedDigest), Raw(r.destinationVerifiedDigest),
      Raw(r.commitMarkerDigest), Num(r.created), Num(r.updated),
      Num(if r.repeatable then 1 else 0), Num(if r.cancelRequested then 1 else 0)]
  {
  }

  /** `CoordinatorPersistentState::encode` (src/movement_store.cpp:66-73) */
  lemma CoordinatorOrder(c: CoordinatorState)
    ensures CoordinatorValues(c) == [
      Num(c.epoch), Num(c.policyGeneration), Num(c.compatibilityGeneration), Num(c.topologyGeneration),
      Raw(c.policyDigest), Num(c.saved)]
  {
  }
}
