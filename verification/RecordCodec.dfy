/**
  The stored form of a movement record, of the coordinator state and of a retired
  identifier: encoders, decoders, and the proof that the encoding is canonical in
  both directions (src/movement.cpp, src/provenance.cpp, src/state_object.cpp,
  src/movement_store.cpp).
 */
module RecordCodec {
  import opened Types
  import opened Codec
  import Utf8
  import opened StateObject
  import opened Movement

  // ---- small conversions ----------------------------------------------------

  const LAST_STATE: byte := 9

  function StateCode(s: State): (c: byte)
    ensures c <= LAST_STATE
  {
    match s
    case Planned => 0 case Authorized => 1 case Transferring => 2 case BytesArrived => 3 case Verified => 4
    case Committed => 5 case Cancelled => 6 case Failed => 7 case OutcomeUnknown => 8 case Superseded => 9
  }

  function StateOf(c: int): (s: State)
    requires 0 <= c <= LAST_STATE
    ensures StateCode(s) == c
  {
    match c
    case 0 => Planned case 1 => Authorized case 2 => Transferring case 3 => BytesArrived case 4 => Verified
    case 5 => Committed case 6 => Cancelled case 7 => Failed case 8 => OutcomeUnknown case _ => Superseded
  }

  function Bit(b: bool): byte { if b then 1 else 0 }

  /** Names are ASCII, so they are UTF-8. */
  lemma {:induction false} AsciiAccepted(t: Bytes)
    requires forall i | 0 <= i < |t| :: t[i] < 0x80
    ensures Utf8.Accepts(t)
  {
    if t != [] {
      AsciiAccepted(t[1..]);
      assert Utf8.CodePoint(t, 0) == t[0];
      assert Utf8.Step(t) == Some(1);
    }
  }

  lemma NameAccepted(t: EndpointId)
    ensures |t| <= MAX_ENDPOINT && Utf8.Accepts(t)
  {
    forall i | 0 <= i < |t| ensures t[i] < 0x80 { assert NameByte(t[i]); }
    AsciiAccepted(t);
  }

  // ---- the object descriptor ------------------------------------------------

  const DESCRIPTOR_FIELDS: seq<Field> := [
    Fixed(DIGEST_BYTES), Enumeration(LAST_KIND), Text(MAX_NAME), Unsigned(8), Fixed(DIGEST_BYTES),
    Unsigned(8), Unsigned(8), Unsigned(4), Signed64, Text(MAX_TEXT), Enumeration(1)]

  function DescriptorValues(d: Descriptor): seq<Value> {
    [Raw(d.objectId), Num(d.kind), Raw(d.name), Num(d.generation), Raw(d.contentDigest),
     Num(d.totalBytes), Num(d.chunkBytes), Num(d.chunkCount), Num(d.created), Raw(d.producer),
     Num(Bit(d.repeatable))]
  }

  function DescriptorOf(vs: seq<Value>): Descriptor
    requires FitsAll(DESCRIPTOR_FIELDS, vs)
  {
    FitsNumbers(DESCRIPTOR_FIELDS, vs);
    Descriptor(vs[0].bytes, vs[1].n, vs[2].bytes, vs[3].n, vs[4].bytes, vs[5].n, vs[6].n, vs[7].n,
               vs[8].n, vs[9].bytes, vs[10].n == 1)
  }

  /** What fitting means for the fields in use here, spelled out by width. */
  lemma FitsNumbers(fs: seq<Field>, vs: seq<Value>)
    requires FitsAll(fs, vs)
    ensures forall i | 0 <= i < |fs| && fs[i] == Unsigned(2) :: vs[i].Num? && 0 <= vs[i].n < U16_LIMIT
    ensures forall i | 0 <= i < |fs| && fs[i] == Unsigned(4) :: vs[i].Num? && 0 <= vs[i].n < U32_LIMIT
    ensures forall i | 0 <= i < |fs| && fs[i] == Unsigned(8) :: vs[i].Num? && 0 <= vs[i].n < U64_LIMIT
  {
    Widths();
  }

  lemma DescriptorShaped(d: Descriptor)
    ensures ShapedAll(DESCRIPTOR_FIELDS, DescriptorValues(d))
    ensures Utf8.Accepts(d.name) && |d.name| <= MAX_NAME && Utf8.Accepts(d.producer) && |d.producer| <= MAX_TEXT ==>
      FitsAll(DESCRIPTOR_FIELDS, DescriptorValues(d)) && DescriptorOf(DescriptorValues(d)) == d
  {
    Widths();
  }

  lemma DescriptorBack(vs: seq<Value>)
    requires FitsAll(DESCRIPTOR_FIELDS, vs)
    ensures DescriptorValues(DescriptorOf(vs)) == vs
  {
    FitsNumbers(DESCRIPTOR_FIELDS, vs);
  }

  function EncodeDescriptor(d: Descriptor): Bytes {
    DescriptorShaped(d);
    WriteAll(DESCRIPTOR_FIELDS, DescriptorValues(d))
  }

  function DecodeDescriptor(sha: HashFn, limits: Limits, s: Bytes): Result<(Descriptor, Bytes)> {
    WriteReadAll(limits, DESCRIPTOR_FIELDS, s);
    var (vs, rest) :- ReadAll(limits, DESCRIPTOR_FIELDS, s);
    var d := DescriptorOf(vs);
    if Valid(sha, d) then Ok((d, rest)) else Err(NotRecognized)
  }

  /** The ceilings the store decodes under (and the defaults elsewhere) allow every text. */
  predicate Generous(limits: Limits) {
    limits.maxText >= MAX_TEXT && limits.maxBlob < U64_LIMIT
  }

  lemma DescriptorRoundTrip(sha: HashFn, limits: Limits, d: Descriptor, tail: Bytes)
    requires Valid(sha, d) && Generous(limits) && |EncodeDescriptor(d)| <= limits.maxBlob
    ensures DecodeDescriptor(sha, limits, EncodeDescriptor(d) + tail) == Ok((d, tail))
  {
    DescriptorShaped(d);
    SmallMessageAdmitted(limits, DESCRIPTOR_FIELDS, DescriptorValues(d));
    ReadWriteAll(limits, DESCRIPTOR_FIELDS, DescriptorValues(d), tail);
  }

  lemma DescriptorCanonical(sha: HashFn, limits: Limits, s: Bytes)
    ensures DecodeDescriptor(sha, limits, s).Ok? ==>
      var (d, rest) := DecodeDescriptor(sha, limits, s).value;
      Valid(sha, d) && s == EncodeDescriptor(d) + rest
  {
    WriteReadAll(limits, DESCRIPTOR_FIELDS, s);
    if DecodeDescriptor(sha, limits, s).Ok? {
      var (vs, rest) := ReadAll(limits, DESCRIPTOR_FIELDS, s).value;
      DescriptorBack(vs);
    }
  }

  // ---- provenance -----------------------------------------------------------

  const EVENT_FIELDS: seq<Field> := [
    Unsigned(8), Signed64, Enumeration(LAST_EVENT_KIND), Enumeration(LAST_STATE), Unsigned(8), Unsigned(2),
    Text(MAX_ENDPOINT), Blob(ID_BYTES), Unsigned(8), Blob(ID_BYTES), Fixed(DIGEST_BYTES), Text(MAX_DETAIL)]

  function EventValues(e: Event): seq<Value> {
    [Num(e.sequence), Num(e.millis), Num(e.kind), Num(StateCode(e.state)), Num(e.generation), Num(e.reason),
     Raw(e.actor), Raw(e.actorBoot), Num(e.actorEpoch), Raw(e.attempt), Raw(e.evidence), Raw(e.detail)]
  }

  lemma EventParts(vs: seq<Value>)
    requires FitsAll(EVENT_FIELDS, vs)
    ensures |vs| == 12 && vs[6].Raw? && vs[11].Raw?
    ensures vs[0].Num? && 0 <= vs[0].n < U64_LIMIT && vs[1].Num? && -(U64_LIMIT / 2) <= vs[1].n < U64_LIMIT / 2
    ensures vs[2].Num? && 0 <= vs[2].n <= LAST_EVENT_KIND && vs[3].Num? && 0 <= vs[3].n <= LAST_STATE
    ensures vs[4].Num? && 0 <= vs[4].n < U64_LIMIT && vs[5].Num? && 0 <= vs[5].n < U16_LIMIT
    ensures vs[7].Raw? && |vs[7].bytes| == ID_BYTES && vs[8].Num? && 0 <= vs[8].n < U64_LIMIT
    ensures vs[9].Raw? && |vs[9].bytes| == ID_BYTES && vs[10].Raw? && |vs[10].bytes| == DIGEST_BYTES
  {
    Widths();
    assert EVENT_FIELDS[0] == EVENT_FIELDS[4] == EVENT_FIELDS[8] == Unsigned(8);
  }

  function EventOf(vs: seq<Value>): Event
    requires FitsAll(EVENT_FIELDS, vs) && (vs[6].bytes == [] || IsName(vs[6].bytes))
  {
    EventParts(vs);
    Event(vs[0].n, vs[1].n, vs[2].n, StateOf(vs[3].n), vs[4].n, vs[5].n, vs[6].bytes, vs[7].bytes, vs[8].n,
          vs[9].bytes, vs[10].bytes, vs[11].bytes)
  }

  lemma EventShaped(e: Event)
    ensures ShapedAll(EVENT_FIELDS, EventValues(e))
    ensures ValidEvent(e) ==> FitsAll(EVENT_FIELDS, EventValues(e)) && EventOf(EventValues(e)) == e
  {
    Widths();
    NameAccepted(e.actor);
  }

  lemma EventBack(vs: seq<Value>)
    requires FitsAll(EVENT_FIELDS, vs) && (vs[6].bytes == [] || IsName(vs[6].bytes))
    ensures EventValues(EventOf(vs)) == vs
  {
    EventParts(vs);
  }

  function EncodeEvent(e: Event): Bytes {
    EventShaped(e);
    WriteAll(EVENT_FIELDS, EventValues(e))
  }

  function DecodeEvent(limits: Limits, s: Bytes): Result<(Event, Bytes)> {
    WriteReadAll(limits, EVENT_FIELDS, s);
    var (vs, rest) :- ReadAll(limits, EVENT_FIELDS, s);
    if vs[6].bytes != [] && !IsName(vs[6].bytes) then Err(NotRecognized)
    else
      var e := EventOf(vs);
      if ValidEvent(e) then Ok((e, rest)) else Err(NotRecognized)
  }

  lemma EventRoundTrip(limits: Limits, e: Event, tail: Bytes)
    requires ValidEvent(e) && Generous(limits) && |EncodeEvent(e)| <= limits.maxBlob
    ensures DecodeEvent(limits, EncodeEvent(e) + tail) == Ok((e, tail))
  {
    EventShaped(e);
    SmallMessageAdmitted(limits, EVENT_FIELDS, EventValues(e));
    ReadWriteAll(limits, EVENT_FIELDS, EventValues(e), tail);
  }

  lemma EventCanonical(limits: Limits, s: Bytes)
    ensures DecodeEvent(limits, s).Ok? ==>
      var (e, rest) := DecodeEvent(limits, s).value;
      ValidEvent(e) && s == EncodeEvent(e) + rest
  {
    WriteReadAll(limits, EVENT_FIELDS, s);
    if DecodeEvent(limits, s).Ok? {
      var (vs, rest) := ReadAll(limits, EVENT_FIELDS, s).value;
      EventBack(vs);
    }
  }

  function EncodeEvents(es: seq<Event>): Bytes {
    if es == [] then [] else EncodeEvent(es[0]) + EncodeEvents(es[1..])
  }

  /** Read `n` events numbered from `first`; a gap or a repeat refuses the chain. */
  function DecodeEvents(limits: Limits, n: nat, first: nat, s: Bytes): Result<(seq<Event>, Bytes)> {
    if n == 0 then Ok(([], s))
    else
      var (e, rest) :- DecodeEvent(limits, s);
      if e.sequence != first then Err(NotRecognized)
      else
        var (es, end) :- DecodeEvents(limits, n - 1, first + 1, rest);
        Ok(([e] + es, end))
  }

  ghost predicate NumberedFrom(es: seq<Event>, first: nat) {
    forall i | 0 <= i < |es| :: es[i].sequence == first + i && ValidEvent(es[i])
  }

  lemma {:induction false} EventsRoundTrip(limits: Limits, es: seq<Event>, first: nat, tail: Bytes)
    requires NumberedFrom(es, first) && Generous(limits) && |EncodeEvents(es)| <= limits.maxBlob
    ensures DecodeEvents(limits, |es|, first, EncodeEvents(es) + tail) == Ok((es, tail))
  {
    if es != [] {
      var rest := EncodeEvents(es[1..]);
      EventRoundTrip(limits, es[0], rest + tail);
      EventsRoundTrip(limits, es[1..], first + 1, tail);
      Associate(EncodeEvent(es[0]), rest, tail);
      assert [es[0]] + es[1..] == es;
    } else {
      assert EncodeEvents(es) + tail == tail;
    }
  }

  lemma {:induction false} EventsCanonical(limits: Limits, n: nat, first: nat, s: Bytes)
    ensures DecodeEvents(limits, n, first, s).Ok? ==>
      var (es, end) := DecodeEvents(limits, n, first, s).value;
      |es| == n && NumberedFrom(es, first) && s == EncodeEvents(es) + end
    decreases n
  {
    if n > 0 && DecodeEvents(limits, n, first, s).Ok? {
      EventCanonical(limits, s);
      var (e, rest) := DecodeEvent(limits, s).value;
      EventsCanonical(limits, n - 1, first + 1, rest);
      var (es, end) := DecodeEvents(limits, n - 1, first + 1, rest).value;
      assert ([e] + es)[1..] == es;
      Associate(EncodeEvent(e), EncodeEvents(es), end);
    }
  }

  const COUNT_FIELDS: seq<Field> := [Unsigned(4)]

  function EncodeChain(c: Chain): Bytes
    requires |c.events| < U32_LIMIT
  {
    Widths();
    WriteAll(COUNT_FIELDS, [Num(|c.events|)]) + EncodeEvents(c.events)
  }

  /** The bound is not stored: a decoded chain gets the hard ceiling. */
  function DecodeChain(limits: Limits, s: Bytes): Result<(Chain, Bytes)> {
    WriteReadAll(limits, COUNT_FIELDS, s);
    var (vs, rest) :- ReadAll(limits, COUNT_FIELDS, s);
    if vs[0].n > MAX_EVENTS then Err(BoundsExceeded)
    else
      var (es, end) :- DecodeEvents(limits, vs[0].n, 1, rest);
      Ok((Chain(es, MAX_EVENTS), end))
  }

  lemma ChainRoundTrip(limits: Limits, c: Chain, tail: Bytes)
    requires Contiguous(c) && |c.events| <= MAX_EVENTS && Generous(limits)
    requires |EncodeChain(c)| <= limits.maxBlob
    ensures DecodeChain(limits, EncodeChain(c) + tail) == Ok((Chain(c.events, MAX_EVENTS), tail))
  {
    Widths();
    var count, events := WriteAll(COUNT_FIELDS, [Num(|c.events|)]), EncodeEvents(c.events);
    ReadWriteAll(limits, COUNT_FIELDS, [Num(|c.events|)], events + tail);
    EventsRoundTrip(limits, c.events, 1, tail);
    Associate(count, events, tail);
  }

  lemma ChainCanonical(limits: Limits, s: Bytes)
    ensures DecodeChain(limits, s).Ok? ==>
      var (c, end) := DecodeChain(limits, s).value;
      Contiguous(c) && |c.events| <= MAX_EVENTS && s == EncodeChain(c) + end
  {
    WriteReadAll(limits, COUNT_FIELDS, s);
    if DecodeChain(limits, s).Ok? {
      var (vs, rest) := ReadAll(limits, COUNT_FIELDS, s).value;
      EventsCanonical(limits, vs[0].n, 1, rest);
      var (c, end) := DecodeChain(limits, s).value;
      assert vs == [Num(|c.events|)];
      Associate(WriteAll(COUNT_FIELDS, vs), EncodeEvents(c.events), end);
    }
  }

  // ---- the record: three runs of fields around the descriptor, then the chain ----

  const IDENTITY_FIELDS: seq<Field> := [Blob(ID_BYTES), Unsigned(8)]

  const PARTY_FIELDS: seq<Field> := [
    Text(MAX_ENDPOINT), Text(MAX_ENDPOINT),
    Text(MAX_ENDPOINT), Blob(ID_BYTES), Unsigned(8),
    Text(MAX_ENDPOINT), Blob(ID_BYTES), Unsigned(8),
    Unsigned(8), Fixed(DIGEST_BYTES), Unsigned(8), Unsigned(8)]

  const PROGRESS_FIELDS: seq<Field> := [
    Enumeration(LAST_STATE), Unsigned(2), Text(MAX_DETAIL), Blob(ID_BYTES), Unsigned(4), Unsigned(8), Unsigned(4),
    Fixed(DIGEST_BYTES), Fixed(DIGEST_BYTES), Fixed(DIGEST_BYTES), Signed64, Signed64,
    Enumeration(1), Enumeration(1)]
  const DETAIL := 2

  function IdentityValues(r: Record): seq<Value> {
    [Raw(r.id), Num(r.generation)]
  }

  function PartyValues(r: Record): seq<Value> {
    var s, d := r.sourceIncarnation, r.destinationIncarnation;
    [Raw(r.source), Raw(r.destination), Raw(s.endpoint), Raw(s.boot), Num(s.epoch),
     Raw(d.endpoint), Raw(d.boot), Num(d.epoch),
     Num(r.compatibilityGeneration), Raw(r.compatibilityEvidence), Num(r.topologyGeneration),
     Num(r.policyGeneration)]
  }

  function ProgressValues(r: Record): seq<Value> {
    [Num(StateCode(r.state)), Num(r.lastReason), Raw(r.lastDetail), Raw(r.attempt), Num(r.attemptCount),
     Num(r.bytesTransferred), Num(r.chunksVerified), Raw(r.sourceVerifiedDigest),
     Raw(r.destinationVerifiedDigest), Raw(r.commitMarkerDigest), Num(r.created), Num(r.updated),
     Num(Bit(r.repeatable)), Num(Bit(r.cancelRequested))]
  }

  /** The names parse, and both incarnations are complete. */
  predicate PartiesOk(ps: seq<Value>)
    requires FitsAll(PARTY_FIELDS, ps)
  {
    && IsName(ps[0].bytes) && IsName(ps[1].bytes) && IsName(ps[2].bytes) && IsName(ps[5].bytes)
    && !IsZero(ps[3].bytes) && ps[4].n != 0 && !IsZero(ps[6].bytes) && ps[7].n != 0
  }

  function RecordOf(ids: seq<Value>, d: Descriptor, ps: seq<Value>, gs: seq<Value>, c: Chain): Record
    requires FitsAll(IDENTITY_FIELDS, ids) && FitsAll(PARTY_FIELDS, ps) && PartiesOk(ps)
    requires FitsAll(PROGRESS_FIELDS, gs)
  {
    FitsNumbers(IDENTITY_FIELDS, ids);
    FitsNumbers(PARTY_FIELDS, ps);
    FitsNumbers(PROGRESS_FIELDS, gs);
    Record(ids[0].bytes, ids[1].n, d, ps[0].bytes, ps[1].bytes,
           Incarnation(ps[2].bytes, ps[3].bytes, ps[4].n), Incarnation(ps[5].bytes, ps[6].bytes, ps[7].n),
           ps[8].n, ps[9].bytes, ps[10].n, ps[11].n,
           StateOf(gs[0].n), gs[1].n, gs[2].bytes, gs[3].bytes, gs[4].n, gs[5].n, gs[6].n,
           gs[7].bytes, gs[8].bytes, gs[9].bytes, gs[10].n, gs[11].n, gs[12].n == 1, gs[13].n == 1, c)
  }

  lemma IdentityShaped(r: Record)
    ensures ShapedAll(IDENTITY_FIELDS, IdentityValues(r)) && FitsAll(IDENTITY_FIELDS, IdentityValues(r))
  {
    Widths();
  }

  lemma PartyShaped(r: Record)
    ensures ShapedAll(PARTY_FIELDS, PartyValues(r)) && FitsAll(PARTY_FIELDS, PartyValues(r))
  {
    hide Utf8.Accepts, IsName;
    Widths();
    NameAccepted(r.source);
    NameAccepted(r.destination);
    NameAccepted(r.sourceIncarnation.endpoint);
    NameAccepted(r.destinationIncarnation.endpoint);
  }

  lemma ProgressShaped(r: Record)
    ensures ShapedAll(PROGRESS_FIELDS, ProgressValues(r))
    ensures FitsAll(PROGRESS_FIELDS[..DETAIL], ProgressValues(r)[..DETAIL])
    ensures |r.lastDetail| <= MAX_DETAIL && Utf8.Accepts(r.lastDetail) ==>
      FitsAll(PROGRESS_FIELDS, ProgressValues(r))
  {
    Widths();
  }

  lemma RecordAssembled(r: Record)
    requires FitsAll(PROGRESS_FIELDS, ProgressValues(r))
    requires FitsAll(PARTY_FIELDS, PartyValues(r)) && PartiesOk(PartyValues(r))
    requires FitsAll(IDENTITY_FIELDS, IdentityValues(r))
    ensures RecordOf(IdentityValues(r), r.descriptor, PartyValues(r), ProgressValues(r), r.provenance) == r
  {
  }

  lemma RecordTakenApart(ids: seq<Value>, d: Descriptor, ps: seq<Value>, gs: seq<Value>, c: Chain)
    requires FitsAll(IDENTITY_FIELDS, ids) && FitsAll(PARTY_FIELDS, ps) && PartiesOk(ps)
    requires FitsAll(PROGRESS_FIELDS, gs)
    ensures var r := RecordOf(ids, d, ps, gs, c);
      IdentityValues(r) == ids && r.descriptor == d && PartyValues(r) == ps && ProgressValues(r) == gs &&
      r.provenance == c
  {
  }

  function EncodeIdentity(r: Record): Bytes {
    IdentityShaped(r);
    WriteAll(IDENTITY_FIELDS, IdentityValues(r))
  }

  function EncodeParties(r: Record): Bytes {
    PartyShaped(r);
    WriteAll(PARTY_FIELDS, PartyValues(r))
  }

  function EncodeProgress(r: Record): Bytes {
    ProgressShaped(r);
    WriteAll(PROGRESS_FIELDS, ProgressValues(r))
  }

  /** `MovementRecord::encode` */
  function EncodeRecord(r: Record): Bytes
    requires |r.provenance.events| < U32_LIMIT
  {
    EncodeIdentity(r) + (EncodeDescriptor(r.descriptor) +
      (EncodeParties(r) + (EncodeProgress(r) + EncodeChain(r.provenance))))
  }

  /** Progress and provenance, then the validation of the whole. */
  function DecodeBody(sha: HashFn, limits: Limits, ids: seq<Value>, d: Descriptor, ps: seq<Value>, s: Bytes)
    : Result<(Record, Bytes)>
    requires FitsAll(IDENTITY_FIELDS, ids) && FitsAll(PARTY_FIELDS, ps) && PartiesOk(ps)
  {
    WriteReadAll(limits, PROGRESS_FIELDS, s);
    var (gs, s4) :- ReadAll(limits, PROGRESS_FIELDS, s);
    var (c, end) :- DecodeChain(limits, s4);
    var r := RecordOf(ids, d, ps, gs, c);
    if ValidRecord(sha, r) then Ok((r, end)) else Err(NotRecognized)
  }

  /** `MovementRecord::decode` */
  function DecodeRecord(sha: HashFn, limits: Limits, s: Bytes): Result<(Record, Bytes)> {
    WriteReadAll(limits, IDENTITY_FIELDS, s);
    var (ids, s1) :- ReadAll(limits, IDENTITY_FIELDS, s);
    var (d, s2) :- DecodeDescriptor(sha, limits, s1);
    WriteReadAll(limits, PARTY_FIELDS, s2);
    var (ps, s3) :- ReadAll(limits, PARTY_FIELDS, s2);
    if !PartiesOk(ps) then Err(NotRecognized) else DecodeBody(sha, limits, ids, d, ps, s3)
  }

  /** A valid record whose provenance came from `append` and fits the hard ceiling. */
  ghost predicate Encodable(sha: HashFn, r: Record) {
    ValidRecord(sha, r) && Contiguous(r.provenance) && |r.provenance.events| <= MAX_EVENTS
  }

  /** What decoding can give back: everything but the provenance bound. */
  function Stored(r: Record): Record {
    r.(provenance := Chain(r.provenance.events, MAX_EVENTS))
  }

  lemma PartiesHold(sha: HashFn, r: Record)
    requires ValidRecord(sha, r)
    ensures FitsAll(PARTY_FIELDS, PartyValues(r)) && PartiesOk(PartyValues(r))
  {
    PartyShaped(r);
  }

  lemma StoredAlike(sha: HashFn, r: Record)
    requires Encodable(sha, r)
    ensures Encodable(sha, Stored(r)) && EncodeRecord(Stored(r)) == EncodeRecord(r)
    ensures IdentityValues(Stored(r)) == IdentityValues(r) && PartyValues(Stored(r)) == PartyValues(r)
    ensures ProgressValues(Stored(r)) == ProgressValues(r)
  {
  }

  lemma IdentityRead(limits: Limits, r: Record, tail: Bytes)
    requires Generous(limits) && |EncodeIdentity(r)| <= limits.maxBlob
    ensures ReadAll(limits, IDENTITY_FIELDS, EncodeIdentity(r) + tail) == Ok((IdentityValues(r), tail))
  {
    IdentityShaped(r);
    SmallMessageAdmitted(limits, IDENTITY_FIELDS, IdentityValues(r));
    ReadWriteAll(limits, IDENTITY_FIELDS, IdentityValues(r), tail);
  }

  lemma PartiesRead(limits: Limits, r: Record, tail: Bytes)
    requires Generous(limits) && |EncodeParties(r)| <= limits.maxBlob
    ensures ReadAll(limits, PARTY_FIELDS, EncodeParties(r) + tail) == Ok((PartyValues(r), tail))
  {
    PartyShaped(r);
    SmallMessageAdmitted(limits, PARTY_FIELDS, PartyValues(r));
    ReadWriteAll(limits, PARTY_FIELDS, PartyValues(r), tail);
  }

  /** The progress fields read back exactly when the detail text is UTF-8. */
  lemma ProgressRead(limits: Limits, r: Record, tail: Bytes)
    requires Generous(limits) && |EncodeProgress(r)| <= limits.maxBlob && |r.lastDetail| <= MAX_DETAIL
    ensures ReadAll(limits, PROGRESS_FIELDS, EncodeProgress(r) + tail).Ok? <==> Utf8.Accepts(r.lastDetail)
    ensures Utf8.Accepts(r.lastDetail) ==>
      ReadAll(limits, PROGRESS_FIELDS, EncodeProgress(r) + tail) == Ok((ProgressValues(r), tail))
  {
    ProgressShaped(r);
    if Utf8.Accepts(r.lastDetail) {
      SmallMessageAdmitted(limits, PROGRESS_FIELDS, ProgressValues(r));
      ReadWriteAll(limits, PROGRESS_FIELDS, ProgressValues(r), tail);
    } else {
      ReadAllRefusesText(limits, PROGRESS_FIELDS, ProgressValues(r), DETAIL, tail);
    }
  }

  lemma BodyRoundTrip(sha: HashFn, limits: Limits, r: Record, tail: Bytes)
    requires Encodable(sha, r) && Generous(limits)
    requires FitsAll(IDENTITY_FIELDS, IdentityValues(r))
    requires FitsAll(PARTY_FIELDS, PartyValues(r)) && PartiesOk(PartyValues(r))
    requires |EncodeProgress(r)| <= limits.maxBlob && |EncodeChain(r.provenance)| <= limits.maxBlob
    ensures var out := DecodeBody(sha, limits, IdentityValues(r), r.descriptor, PartyValues(r),
                                  EncodeProgress(r) + (EncodeChain(r.provenance) + tail));
      if Utf8.Accepts(r.lastDetail) then out == Ok((Stored(r), tail)) else out.Err?
  {
    hide Utf8.Accepts, EncodeProgress, EncodeChain, DecodeChain, ReadAll;
    ProgressRead(limits, r, EncodeChain(r.provenance) + tail);
    if Utf8.Accepts(r.lastDetail) {
      ChainRoundTrip(limits, r.provenance, tail);
      StoredAlike(sha, r);
      ProgressShaped(r);
      RecordAssembled(Stored(r));
    }
  }

  /** Decoding the first three runs of fields leaves the body to decode. */
  lemma HeadRead(sha: HashFn, limits: Limits, r: Record, body: Bytes)
    requires ValidRecord(sha, r) && Generous(limits)
    requires |EncodeIdentity(r)| <= limits.maxBlob && |EncodeDescriptor(r.descriptor)| <= limits.maxBlob
    requires |EncodeParties(r)| <= limits.maxBlob
    ensures FitsAll(IDENTITY_FIELDS, IdentityValues(r))
    ensures FitsAll(PARTY_FIELDS, PartyValues(r)) && PartiesOk(PartyValues(r))
    ensures
      DecodeRecord(sha, limits, EncodeIdentity(r) + (EncodeDescriptor(r.descriptor) + (EncodeParties(r) + body))) ==
      DecodeBody(sha, limits, IdentityValues(r), r.descriptor, PartyValues(r), body)
  {
    IdentityShaped(r);
    PartiesHold(sha, r);
    IdentityRead(limits, r, EncodeDescriptor(r.descriptor) + (EncodeParties(r) + body));
    DescriptorRoundTrip(sha, limits, r.descriptor, EncodeParties(r) + body);
    PartiesRead(limits, r, body);
  }

  /**
    A valid record decodes from its own encoding, with any bytes following, exactly
    when its detail text is UTF-8; and then it is the same record but for the
    provenance bound, and precisely its own bytes are consumed.
   */
  lemma RecordRoundTrip(sha: HashFn, limits: Limits, r: Record, tail: Bytes)
    requires Encodable(sha, r) && Generous(limits) && |EncodeRecord(r)| <= limits.maxBlob
    ensures DecodeRecord(sha, limits, EncodeRecord(r) + tail).Ok? <==> Utf8.Accepts(r.lastDetail)
    ensures Utf8.Accepts(r.lastDetail) ==>
      DecodeRecord(sha, limits, EncodeRecord(r) + tail) == Ok((Stored(r), tail))
  {
    var body := EncodeProgress(r) + (EncodeChain(r.provenance) + tail);
    Regroup(EncodeIdentity(r), EncodeDescriptor(r.descriptor), EncodeParties(r), EncodeProgress(r),
            EncodeChain(r.provenance), tail);
    HeadRead(sha, limits, r, body);
    BodyRoundTrip(sha, limits, r, tail);
  }

  lemma BodyCanonical(sha: HashFn, limits: Limits, ids: seq<Value>, d: Descriptor, ps: seq<Value>, s: Bytes)
    requires FitsAll(IDENTITY_FIELDS, ids) && FitsAll(PARTY_FIELDS, ps) && PartiesOk(ps)
    ensures DecodeBody(sha, limits, ids, d, ps, s).Ok? ==>
      var (r, end) := DecodeBody(sha, limits, ids, d, ps, s).value;
      && Encodable(sha, r) && Stored(r) == r && Utf8.Accepts(r.lastDetail)
      && IdentityValues(r) == ids && r.descriptor == d && PartyValues(r) == ps
      && s == EncodeProgress(r) + (EncodeChain(r.provenance) + end)
  {
    hide Utf8.Accepts, WriteAll;
    if DecodeBody(sha, limits, ids, d, ps, s).Ok? {
      WriteReadAll(limits, PROGRESS_FIELDS, s);
      var (gs, s4) := ReadAll(limits, PROGRESS_FIELDS, s).value;
      ChainCanonical(limits, s4);
      var (c, end) := DecodeChain(limits, s4).value;
      RecordTakenApart(ids, d, ps, gs, c);
    }
  }

  /** Whatever is accepted re-encodes to exactly the bytes it was read from. */
  lemma RecordCanonical(sha: HashFn, limits: Limits, s: Bytes)
    ensures DecodeRecord(sha, limits, s).Ok? ==>
      var (r, end) := DecodeRecord(sha, limits, s).value;
      && Encodable(sha, r) && Stored(r) == r && Utf8.Accepts(r.lastDetail)
      && s == EncodeRecord(r) + end
  {
    if DecodeRecord(sha, limits, s).Ok? {
      WriteReadAll(limits, IDENTITY_FIELDS, s);
      var (ids, s1) := ReadAll(limits, IDENTITY_FIELDS, s).value;
      DescriptorCanonical(sha, limits, s1);
      var (d, s2) := DecodeDescriptor(sha, limits, s1).value;
      WriteReadAll(limits, PARTY_FIELDS, s2);
      var (ps, s3) := ReadAll(limits, PARTY_FIELDS, s2).value;
      BodyCanonical(sha, limits, ids, d, ps, s3);
      var (r, end) := DecodeBody(sha, limits, ids, d, ps, s3).value;
      Regroup(EncodeIdentity(r), EncodeDescriptor(d), EncodeParties(r), EncodeProgress(r),
              EncodeChain(r.provenance), end);
    }
  }

  lemma Regroup(a: Bytes, b: Bytes, c: Bytes, d: Bytes, e: Bytes, tail: Bytes)
    ensures a + (b + (c + (d + (e + tail)))) == (a + (b + (c + (d + e)))) + tail
  {
  }

  // ---- coordinator state and retired identifiers ----------------------------

  datatype CoordinatorState = CoordinatorState(
    epoch: u64, policyGeneration: u64, compatibilityGeneration: u64, topologyGeneration: u64,
    policyDigest: Digest, saved: i64)

  const COORDINATOR_FIELDS: seq<Field> :=
    [Unsigned(8), Unsigned(8), Unsigned(8), Unsigned(8), Fixed(DIGEST_BYTES), Signed64]

  function CoordinatorValues(c: CoordinatorState): (vs: seq<Value>)
    ensures ShapedAll(COORDINATOR_FIELDS, vs) && FitsAll(COORDINATOR_FIELDS, vs)
  {
    Widths();
    [Num(c.epoch), Num(c.policyGeneration), Num(c.compatibilityGeneration), Num(c.topologyGeneration),
     Raw(c.policyDigest), Num(c.saved)]
  }

  function EncodeCoordinator(c: CoordinatorState): Bytes {
    WriteAll(COORDINATOR_FIELDS, CoordinatorValues(c))
  }

  function DecodeCoordinator(limits: Limits, s: Bytes): Result<(CoordinatorState, Bytes)> {
    WriteReadAll(limits, COORDINATOR_FIELDS, s);
    var (vs, rest) :- ReadAll(limits, COORDINATOR_FIELDS, s);
    FitsNumbers(COORDINATOR_FIELDS, vs);
    if vs[0].n == 0 then Err(NotRecognized)
    else Ok((CoordinatorState(vs[0].n, vs[1].n, vs[2].n, vs[3].n, vs[4].bytes, vs[5].n), rest))
  }

  /** The encoder writes epoch zero; the decoder refuses it. */
  lemma CoordinatorRoundTrip(limits: Limits, c: CoordinatorState, tail: Bytes)
    ensures DecodeCoordinator(limits, EncodeCoordinator(c) + tail) ==
      if c.epoch == 0 then Err(NotRecognized) else Ok((c, tail))
  {
    ReadWriteAll(limits, COORDINATOR_FIELDS, CoordinatorValues(c), tail);
  }

  lemma CoordinatorCanonical(limits: Limits, s: Bytes)
    ensures DecodeCoordinator(limits, s).Ok? ==>
      var (c, rest) := DecodeCoordinator(limits, s).value;
      c.epoch != 0 && s == EncodeCoordinator(c) + rest
  {
    WriteReadAll(limits, COORDINATOR_FIELDS, s);
    if DecodeCoordinator(limits, s).Ok? {
      var (vs, rest) := ReadAll(limits, COORDINATOR_FIELDS, s).value;
      var (c, _) := DecodeCoordinator(limits, s).value;
      assert CoordinatorValues(c) == vs;
    }
  }

  const RETIRE_FIELDS: seq<Field> := [Blob(ID_BYTES)]

  function EncodeId(id: Id16): Bytes {
    WriteAll(RETIRE_FIELDS, [Raw(id)])
  }

  function DecodeId(limits: Limits, s: Bytes): Result<(Id16, Bytes)> {
    WriteReadAll(limits, RETIRE_FIELDS, s);
    var (vs, rest) :- ReadAll(limits, RETIRE_FIELDS, s);
    Ok((vs[0].bytes, rest))
  }

  lemma IdRoundTrip(limits: Limits, id: Id16, tail: Bytes)
    requires ID_BYTES <= limits.maxBlob < U64_LIMIT
    ensures DecodeId(limits, EncodeId(id) + tail) == Ok((id, tail))
  {
    ReadWriteAll(limits, RETIRE_FIELDS, [Raw(id)], tail);
  }
}
