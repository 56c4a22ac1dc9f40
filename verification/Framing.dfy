/**
  Frames on the wire (src/framing.cpp): the fixed header, its parser, and the codec
  that numbers, authenticates and checks frames. The message authentication code is a
  parameter; `Sha256.Hmac` is the one the source uses.
 */
module Framing {
  import opened Types
  import Codec

  const HEADER_BYTES := 40
  const SIGNED_BYTES := 24
  const TAG_BYTES := 16
  const PROTOCOL_VERSION: byte := 1
  /** "SMF1" */
  const MAGIC: Bytes := [83, 77, 70, 49]

  type Mac = (Bytes, Bytes) -> Digest

  predicate KnownType(t: u16) {
    1 <= t <= 3 || 10 <= t <= 15 || 20 <= t <= 25 || 30 <= t <= 37 || 40 <= t <= 46 || 50 <= t <= 65 || t == 99
  }

  type MessageType = t: u16 | KnownType(t) witness 1

  predicate IsHandshake(t: MessageType) {
    t <= 3
  }

  /** No bit outside the three known ones is set. */
  predicate KnownFlags(flags: byte) {
    flags < 8
  }

  predicate IsAuthenticated(flags: byte) {
    flags % 2 == 1
  }

  datatype Header = Header(version: byte, flags: byte, messageType: u16, length: u32, sequence: u64, tag: Digest)

  // ---- the header -----------------------------------------------------------

  /** The part the tag covers: everything before the tag. */
  function SignedPart(h: Header): (b: Bytes)
    ensures |b| == SIGNED_BYTES
  {
    MAGIC + ([h.version, h.flags, 0, 0] +
             (Codec.LE(h.messageType, 2) + ([0, 0] + (Codec.LE(h.length, 4) + Codec.LE(h.sequence, 8)))))
  }

  function EncodeHeader(h: Header): (b: Bytes)
    ensures |b| == HEADER_BYTES
  {
    SignedPart(h) + h.tag[..TAG_BYTES]
  }

  /** The parser, check by check. */
  function DecodeHeader(b: Bytes, maxPayload: nat): Option<Header> {
    if |b| != HEADER_BYTES || b[..4] != MAGIC || b[4] != PROTOCOL_VERSION || !KnownFlags(b[5]) then None
    else if Codec.FromLE(b[6..8]) != 0 || Codec.FromLE(b[10..12]) != 0 then None
    else
      var messageType, length, sequence := Field2(b[8..10]), Field4(b[12..16]), Field8(b[16..24]);
      if !KnownType(messageType) || length > maxPayload || sequence == 0 then None
      else Some(Header(b[4], b[5], messageType, length, sequence, CutTag(b[24..])))
  }

  function Field2(b: Bytes): (v: u16)
    requires |b| == 2
    ensures v == Codec.FromLE(b)
  {
    Codec.FromLEBound(b);
    Codec.Widths();
    Codec.FromLE(b)
  }

  function Field4(b: Bytes): (v: u32)
    requires |b| == 4
    ensures v == Codec.FromLE(b)
  {
    Codec.FromLEBound(b);
    Codec.Widths();
    Codec.FromLE(b)
  }

  function Field8(b: Bytes): (v: u64)
    requires |b| == 8
    ensures v == Codec.FromLE(b)
  {
    Codec.FromLEBound(b);
    Codec.Widths();
    Codec.FromLE(b)
  }

  /** A wire tag held in a digest: the rest stays zero. */
  function CutTag(t: Bytes): Digest
    requires |t| >= TAG_BYTES
  {
    t[..TAG_BYTES] + Zeros(TAG_BYTES)
  }

  predicate Acceptable(h: Header, maxPayload: nat) {
    && h.version == PROTOCOL_VERSION && KnownFlags(h.flags) && KnownType(h.messageType)
    && h.length <= maxPayload && h.sequence != 0
  }

  lemma ZeroPair(b: Bytes)
    requires |b| == 2
    ensures Codec.FromLE(b) == 0 <==> b == [0, 0]
  {
    assert b[1..] == [b[1]] && b[1..][1..] == [];
    assert Codec.FromLE(b[1..]) == b[1];
  }

  lemma SignedFields(h: Header)
    ensures var b := SignedPart(h);
      && b[..4] == MAGIC && b[4] == h.version && b[5] == h.flags && b[6..8] == [0, 0] && b[10..12] == [0, 0]
      && b[8..10] == Codec.LE(h.messageType, 2) && b[12..16] == Codec.LE(h.length, 4)
      && b[16..24] == Codec.LE(h.sequence, 8)
  {
    hide Codec.LE;
  }

  lemma FieldsRead(h: Header)
    ensures Codec.FromLE(Codec.LE(h.messageType, 2)) == h.messageType
    ensures Codec.FromLE(Codec.LE(h.length, 4)) == h.length
    ensures Codec.FromLE(Codec.LE(h.sequence, 8)) == h.sequence
  {
    Codec.Widths();
    Codec.LERoundTrip(h.messageType, 2);
    Codec.LERoundTrip(h.length, 4);
    Codec.LERoundTrip(h.sequence, 8);
  }

  /** Every encoded header decodes to itself with its tag cut to sixteen bytes, exactly when it is acceptable. */
  lemma HeaderRoundTrip(h: Header, maxPayload: nat)
    ensures DecodeHeader(EncodeHeader(h), maxPayload) ==
      if Acceptable(h, maxPayload) then Some(h.(tag := CutTag(h.tag))) else None
  {
    var s, b := SignedPart(h), EncodeHeader(h);
    SignedFields(h);
    FieldsRead(h);
    hide SignedPart, Codec.LE, Codec.FromLE;
    assert b[..4] == s[..4] && b[4] == s[4] && b[5] == s[5] && b[6..8] == s[6..8] && b[8..10] == s[8..10];
    assert b[10..12] == s[10..12] && b[12..16] == s[12..16] && b[16..24] == s[16..24];
    assert b[24..] == h.tag[..TAG_BYTES] && b[24..][..TAG_BYTES] == h.tag[..TAG_BYTES];
    ZeroPair(b[6..8]);
    ZeroPair(b[10..12]);
  }

  lemma HeaderPieces(b: Bytes)
    requires |b| == HEADER_BYTES
    ensures b == (b[..4] + (([b[4], b[5]] + b[6..8]) + (b[8..10] + (b[10..12] + (b[12..16] + b[16..24]))))) + b[24..]
  {
  }

  /** The parser accepts only what the encoder writes. */
  lemma HeaderCanonical(b: Bytes, maxPayload: nat)
    requires DecodeHeader(b, maxPayload).Some?
    ensures var h := DecodeHeader(b, maxPayload).value; EncodeHeader(h) == b && Acceptable(h, maxPayload)
  {
    ZeroPair(b[6..8]);
    ZeroPair(b[10..12]);
    Codec.LECanonical(b[8..10]);
    Codec.LECanonical(b[12..16]);
    Codec.LECanonical(b[16..24]);
    HeaderPieces(b);
    hide Codec.LE, Codec.FromLE;
    assert [b[4], b[5]] + [0, 0] == [b[4], b[5], 0, 0];
    assert CutTag(b[24..])[..TAG_BYTES] == b[24..];
  }

  // ---- the codec ------------------------------------------------------------

  datatype Refusal = TooLarge | NotNow | HandshakeRequired | LengthMismatch | AuthFailed | Replay | Skipped

  datatype Outcome = Accepted | Refused(why: Refusal)

  function Tag(mac: Mac, key: Digest, h: Header, payload: Bytes): Digest {
    mac(key, SignedPart(h) + payload)
  }

  function WithFlag(flags: byte): byte {
    if IsAuthenticated(flags) then flags else flags + 1
  }

  /** The header `encode` builds. */
  function Numbered(mac: Mac, key: Option<Digest>, sequence: u64, t: MessageType, flags: byte, payload: Bytes): Header
    requires |payload| < U32_LIMIT
  {
    var plain := Header(PROTOCOL_VERSION, flags, t, |payload|, sequence, Zeros(DIGEST_BYTES));
    match key
    case None => plain
    case Some(k) =>
      var h := plain.(flags := WithFlag(flags));
      h.(tag := Tag(mac, k, h, payload))
  }

  predicate MaySend(key: Option<Digest>, t: MessageType) {
    IsHandshake(t) <==> key.None?
  }

  /** `verify`, without the sequence number's advance. */
  function Verdict(mac: Mac, key: Option<Digest>, expected: u64, h: Header, payload: Bytes, maxPayload: nat): Outcome
    requires KnownType(h.messageType)
  {
    if |payload| > maxPayload then Refused(TooLarge)
    else if |payload| != h.length then Refused(LengthMismatch)
    else if IsHandshake(h.messageType) && IsAuthenticated(h.flags) then Refused(NotNow)
    else if !IsHandshake(h.messageType) && (!IsAuthenticated(h.flags) || key.None?) then Refused(HandshakeRequired)
    else if !IsHandshake(h.messageType) && Tag(mac, key.value, h, payload)[..TAG_BYTES] != h.tag[..TAG_BYTES]
    then Refused(AuthFailed)
    else if h.sequence < expected then Refused(Replay)
    else if h.sequence > expected then Refused(Skipped)
    else Accepted
  }

  /** Which refusal a frame meets: its size first, then whether it may come now, its tag, and its number. */
  lemma RefusedAs(mac: Mac, key: Option<Digest>, expected: u64, h: Header, payload: Bytes, maxPayload: nat)
    requires KnownType(h.messageType)
    ensures var o := Verdict(mac, key, expected, h, payload, maxPayload);
      var fits, opening := |payload| == h.length <= maxPayload, IsHandshake(h.messageType);
      var timely := fits && (if opening then !IsAuthenticated(h.flags) else IsAuthenticated(h.flags) && key.Some?);
      var genuine :=
        timely && (!opening ==> mac(key.value, SignedPart(h) + payload)[..TAG_BYTES] == h.tag[..TAG_BYTES]);
      && (o == Refused(TooLarge) <==> |payload| > maxPayload)
      && (o == Refused(LengthMismatch) <==> |payload| <= maxPayload && |payload| != h.length)
      && (o == Refused(NotNow) <==> fits && opening && !timely)
      && (o == Refused(HandshakeRequired) <==> fits && !opening && !timely)
      && (o == Refused(AuthFailed) <==> timely && !genuine)
      && (o == Refused(Replay) <==> genuine && h.sequence < expected)
      && (o == Refused(Skipped) <==> genuine && h.sequence > expected)
      && (o.Accepted? <==> genuine && h.sequence == expected)
  {
    hide SignedPart;
  }

  /**
    What acceptance vouches for: the declared length, the next number in sequence, and
    outside the handshake a tag that the receiver's own key gives for exactly this
    header and payload.
   */
  lemma AcceptedIff(mac: Mac, key: Option<Digest>, expected: u64, h: Header, payload: Bytes, maxPayload: nat)
    requires KnownType(h.messageType)
    ensures Verdict(mac, key, expected, h, payload, maxPayload).Accepted? <==>
      && |payload| == h.length <= maxPayload && h.sequence == expected
      && (IsHandshake(h.messageType) <==> !IsAuthenticated(h.flags))
      && (!IsHandshake(h.messageType) ==>
          key.Some? && mac(key.value, SignedPart(h) + payload)[..TAG_BYTES] == h.tag[..TAG_BYTES])
  {
    hide SignedPart;
  }

  /** Flagging a frame as authenticated sets that bit and leaves the others. */
  lemma FlagKept(flags: byte)
    requires KnownFlags(flags)
    ensures IsAuthenticated(WithFlag(flags)) && WithFlag(flags) / 2 == flags / 2 && KnownFlags(WithFlag(flags))
  {
  }

  /** A built header says what was asked for; a keyed one is flagged, and its tag covers the header as it goes out. */
  lemma NumberedCarries(mac: Mac, key: Option<Digest>, sequence: u64, t: MessageType, flags: byte, payload: Bytes)
    requires KnownFlags(flags) && |payload| < U32_LIMIT
    ensures var h := Numbered(mac, key, sequence, t, flags, payload);
      && h.version == PROTOCOL_VERSION && h.messageType == t && h.length == |payload| && h.sequence == sequence
      && h.flags / 2 == flags / 2 && (IsAuthenticated(h.flags) <==> key.Some? || IsAuthenticated(flags))
      && (key.Some? ==> h.tag == mac(key.value, SignedPart(h) + payload))
  {
    hide SignedPart;
    FlagKept(flags);
    if key.Some? { SameSigned(Numbered(mac, key, sequence, t, flags, payload)); }
  }

  /**
    A frame sent under a key is accepted under that key exactly when it is the next one
    expected, and otherwise refused as a replay or as skipped: the tag survives being cut to
    sixteen bytes, and nothing else is refused.
   */
  lemma AcceptedIffNext(
    mac: Mac, key: Option<Digest>, sequence: u64, t: MessageType, flags: byte, payload: Bytes, maxPayload: nat,
    expected: u64)
    requires KnownFlags(flags) && |payload| <= maxPayload < U32_LIMIT && MaySend(key, t) && sequence != 0
    requires IsHandshake(t) ==> !IsAuthenticated(flags)
    ensures var h := DecodeHeader(EncodeHeader(Numbered(mac, key, sequence, t, flags, payload)), maxPayload);
      && h.Some?
      && Verdict(mac, key, expected, h.value, payload, maxPayload) ==
         if sequence < expected then Refused(Replay) else if sequence > expected then Refused(Skipped) else Accepted
  {
    var h := Numbered(mac, key, sequence, t, flags, payload);
    HeaderRoundTrip(h, maxPayload);
    hide Codec.LE, DecodeHeader, EncodeHeader;
    SameSigned(h);
  }

  lemma SameSigned(h: Header)
    ensures SignedPart(h.(tag := CutTag(h.tag))) == SignedPart(h)
    ensures forall tag: Digest :: SignedPart(h.(tag := tag)) == SignedPart(h)
    ensures CutTag(h.tag)[..TAG_BYTES] == h.tag[..TAG_BYTES]
  {
  }

  // ---- numbering ------------------------------------------------------------

  datatype Frame = Frame(header: Header, payload: Bytes)

  /** A frame as its receiver decodes it. */
  function OnWire(h: Header, payload: Bytes): Frame {
    Frame(h.(tag := CutTag(h.tag)), payload)
  }

  /** Counters are 64 bits wide and wrap. */
  function Next(sequence: u64): u64 {
    (sequence + 1) % U64_LIMIT
  }

  /** Frames numbered from one, in order, up to the width of the counter. */
  ghost predicate InSequence(frames: seq<Frame>) {
    forall i | 0 <= i < |frames| :: frames[i].header.sequence == (i + 1) % U64_LIMIT
  }

  lemma SequenceSnoc(frames: seq<Frame>, f: Frame)
    requires InSequence(frames) && f.header.sequence == (|frames| + 1) % U64_LIMIT
    ensures InSequence(frames + [f]) && Next(f.header.sequence) == (|frames + [f]| + 1) % U64_LIMIT
  {
    var n, l := |frames| + 1, U64_LIMIT;
    assert n == l * (n / l) + n % l;
    if n % l + 1 == l {
      assert n + 1 == l * (n / l + 1);
    } else {
      assert n + 1 == l * (n / l) + (n % l + 1);
    }
  }

  lemma SameNumberSameFrame(sent: seq<Frame>, accepted: seq<Frame>, i: nat)
    requires InSequence(sent) && |sent| < U64_LIMIT && i < |accepted| && accepted[i] in sent
    requires i < U64_LIMIT && accepted[i].header.sequence == (i + 1) % U64_LIMIT
    ensures i < |sent| && accepted[i] == sent[i]
  {
    var j :| 0 <= j < |sent| && sent[j] == accepted[i];
  }

  lemma AcceptedIsPrefix(sent: seq<Frame>, accepted: seq<Frame>)
    requires InSequence(sent) && |sent| < U64_LIMIT && InSequence(accepted)
    requires forall i | 0 <= i < |accepted| :: accepted[i] in sent
    ensures accepted <= sent
  {
    if |accepted| > |sent| { SameNumberSameFrame(sent, accepted, |sent|); }
    forall i | 0 <= i < |accepted| ensures accepted[i] == sent[i] { SameNumberSameFrame(sent, accepted, i); }
  }

  /** What arrives, with the receiver's key at that moment. */
  datatype Delivery = Delivery(key: Option<Digest>, frame: Frame)

  predicate Accepts(mac: Mac, maxPayload: nat, expected: u64, d: Delivery)
    requires KnownType(d.frame.header.messageType)
  {
    Verdict(mac, d.key, expected, d.frame.header, d.frame.payload, maxPayload).Accepted?
  }

  ghost predicate Known(ds: seq<Delivery>) {
    forall k | 0 <= k < |ds| :: KnownType(ds[k].frame.header.messageType)
  }

  /** The frames a receiver accepts out of a sequence of deliveries. */
  ghost function AcceptedFrom(mac: Mac, maxPayload: nat, expected: u64, ds: seq<Delivery>): seq<Frame>
    requires Known(ds)
    decreases |ds|
  {
    if ds == [] then []
    else if Accepts(mac, maxPayload, expected, ds[0])
    then [ds[0].frame] + AcceptedFrom(mac, maxPayload, Next(expected), ds[1..])
    else AcceptedFrom(mac, maxPayload, expected, ds[1..])
  }

  /** The number the receiver expects when delivery `k` arrives. */
  ghost function ExpectedAt(mac: Mac, maxPayload: nat, expected: u64, ds: seq<Delivery>, k: nat): u64
    requires Known(ds) && k <= |ds|
    decreases k
  {
    if k == 0 then expected
    else ExpectedAt(
      mac, maxPayload, if Accepts(mac, maxPayload, expected, ds[0]) then Next(expected) else expected, ds[1..], k - 1)
  }

  lemma NextWraps(first: u64, i: nat)
    ensures (Next(first) + i) % U64_LIMIT == (first + i + 1) % U64_LIMIT
  {
    if first + 1 == U64_LIMIT { assert (first + i + 1) % U64_LIMIT == i % U64_LIMIT; }
  }

  /** It counts the frames accepted before. */
  lemma {:induction false} ExpectedCounts(mac: Mac, maxPayload: nat, expected: u64, ds: seq<Delivery>, k: nat)
    requires Known(ds) && k <= |ds|
    ensures ExpectedAt(mac, maxPayload, expected, ds, k) ==
      (expected + |AcceptedFrom(mac, maxPayload, expected, ds[..k])|) % U64_LIMIT
    decreases k
  {
    hide Accepts;
    if k > 0 {
      var accepted := Accepts(mac, maxPayload, expected, ds[0]);
      assert ds[..k][1..] == ds[1..][..k - 1];
      ExpectedCounts(mac, maxPayload, if accepted then Next(expected) else expected, ds[1..], k - 1);
      if accepted { NextWraps(expected, |AcceptedFrom(mac, maxPayload, Next(expected), ds[1..][..k - 1])|); }
    }
  }

  /** The tag is what the receiver's key gives for exactly this header and payload. */
  predicate Tagged(mac: Mac, d: Delivery) {
    d.key.Some? &&
    mac(d.key.value, SignedPart(d.frame.header) + d.frame.payload)[..TAG_BYTES] == d.frame.header.tag[..TAG_BYTES]
  }

  /**
    An accepted frame is one that was delivered when its number was the next one, with its
    declared length and, outside the handshake, a tag of the key held then.
   */
  lemma {:induction false} AcceptedOne(mac: Mac, maxPayload: nat, expected: u64, ds: seq<Delivery>, i: nat)
    returns (k: nat)
    requires Known(ds) && i < |AcceptedFrom(mac, maxPayload, expected, ds)|
    ensures i <= k < |ds| && ds[k].frame == AcceptedFrom(mac, maxPayload, expected, ds)[i]
    ensures Accepts(mac, maxPayload, ExpectedAt(mac, maxPayload, expected, ds, k), ds[k])
    ensures ds[k].frame.header.sequence == (expected + i) % U64_LIMIT
    ensures |ds[k].frame.payload| == ds[k].frame.header.length <= maxPayload
    ensures IsHandshake(ds[k].frame.header.messageType) || Tagged(mac, ds[k])
    decreases |ds|
  {
    hide SignedPart, Verdict, IsHandshake;
    var f := ds[0].frame;
    AcceptedIff(mac, ds[0].key, expected, f.header, f.payload, maxPayload);
    if !Accepts(mac, maxPayload, expected, ds[0]) {
      k := AcceptedOne(mac, maxPayload, expected, ds[1..], i);
      k := k + 1;
    } else if i == 0 {
      k := 0;
    } else {
      k := AcceptedOne(mac, maxPayload, Next(expected), ds[1..], i - 1);
      NextWraps(expected, i - 1);
      k := k + 1;
    }
  }

  /** And the other way round: a delivery that is acceptable when it arrives is among the accepted frames. */
  lemma {:induction false} AcceptedHas(mac: Mac, maxPayload: nat, expected: u64, ds: seq<Delivery>, k: nat)
    requires Known(ds) && k < |ds|
    requires Accepts(mac, maxPayload, ExpectedAt(mac, maxPayload, expected, ds, k), ds[k])
    ensures ds[k].frame in AcceptedFrom(mac, maxPayload, expected, ds)
    decreases k
  {
    hide Accepts;
    if k > 0 {
      var accepted := Accepts(mac, maxPayload, expected, ds[0]);
      AcceptedHas(mac, maxPayload, if accepted then Next(expected) else expected, ds[1..], k - 1);
    }
  }

  /** Tags that verify are only on frames that were sent. Handshake frames carry none. */
  ghost predicate TagsAreSent(mac: Mac, sent: seq<Frame>, ds: seq<Delivery>)
    requires Known(ds)
  {
    forall k | 0 <= k < |ds| ::
      !IsHandshake(ds[k].frame.header.messageType) && Tagged(mac, ds[k]) ==> ds[k].frame in sent
  }

  /** Delivery `k` was not sent, and is a well-formed handshake frame with the number expected just then. */
  ghost predicate Intrudes(mac: Mac, maxPayload: nat, sent: seq<Frame>, ds: seq<Delivery>, k: nat)
    requires Known(ds) && k < |ds|
  {
    var f := ds[k].frame;
    && f !in sent && IsHandshake(f.header.messageType) && !IsAuthenticated(f.header.flags)
    && |f.payload| == f.header.length <= maxPayload
    && f.header.sequence == ExpectedAt(mac, maxPayload, 1, ds, k)
  }

  lemma IntruderAccepted(mac: Mac, maxPayload: nat, sent: seq<Frame>, ds: seq<Delivery>, k: nat)
    requires Known(ds) && k < |ds| && Intrudes(mac, maxPayload, sent, ds, k)
    ensures ds[k].frame in AcceptedFrom(mac, maxPayload, 1, ds)
  {
    hide SignedPart, AcceptedFrom, ExpectedAt;
    AcceptedHas(mac, maxPayload, 1, ds, k);
  }

  lemma AcceptedSent(mac: Mac, maxPayload: nat, sent: seq<Frame>, ds: seq<Delivery>, i: nat)
    requires Known(ds) && TagsAreSent(mac, sent, ds) && i < |AcceptedFrom(mac, maxPayload, 1, ds)|
    requires forall k | 0 <= k < |ds| :: !Intrudes(mac, maxPayload, sent, ds, k)
    ensures var f := AcceptedFrom(mac, maxPayload, 1, ds)[i]; f in sent && f.header.sequence == (i + 1) % U64_LIMIT
  {
    hide SignedPart, AcceptedFrom, ExpectedAt;
    var k := AcceptedOne(mac, maxPayload, 1, ds, i);
    assert !Intrudes(mac, maxPayload, sent, ds, k);
  }

  /**
    Whatever arrives, invented frames included, and whenever the receiver changes its key: as
    long as tags that verify are only on frames that were sent, the frames accepted are a
    prefix of those sent, in order and each once, if and only if no handshake frame that was
    not sent ever arrives with the number expected at that moment. `verify` lets such a frame
    through whether or not the session is keyed.
   */
  lemma AcceptedPrefixIff(mac: Mac, maxPayload: nat, sent: seq<Frame>, ds: seq<Delivery>)
    requires InSequence(sent) && |sent| < U64_LIMIT && Known(ds) && TagsAreSent(mac, sent, ds)
    ensures AcceptedFrom(mac, maxPayload, 1, ds) <= sent <==>
      forall k | 0 <= k < |ds| :: !Intrudes(mac, maxPayload, sent, ds, k)
  {
    hide AcceptedFrom, ExpectedAt, Intrudes, TagsAreSent;
    var accepted := AcceptedFrom(mac, maxPayload, 1, ds);
    if k :| 0 <= k < |ds| && Intrudes(mac, maxPayload, sent, ds, k) {
      IntruderAccepted(mac, maxPayload, sent, ds, k);
      IntruderUnsent(mac, maxPayload, sent, ds, k);
    } else {
      forall i | 0 <= i < |accepted| ensures accepted[i] in sent && accepted[i].header.sequence == (i + 1) % U64_LIMIT {
        AcceptedSent(mac, maxPayload, sent, ds, i);
      }
      AcceptedIsPrefix(sent, accepted);
    }
  }

  lemma IntruderUnsent(mac: Mac, maxPayload: nat, sent: seq<Frame>, ds: seq<Delivery>, k: nat)
    requires Known(ds) && k < |ds| && Intrudes(mac, maxPayload, sent, ds, k)
    ensures ds[k].frame !in sent
  {
  }

  /** An empty handshake frame of the given number. */
  function StrayHandshake(sequence: u64): Frame {
    Frame(Header(PROTOCOL_VERSION, 0, 1, 0, sequence, Zeros(DIGEST_BYTES)), [])
  }

  /**
    The condition is needed. In a keyed session a stray handshake frame takes the number of
    the first frame that was sent, which is then refused as a replay.
   */
  lemma StrayTakesTheNumber(mac: Mac, key: Digest, t: MessageType, payload: Bytes, maxPayload: nat)
    returns (sent: seq<Frame>, ds: seq<Delivery>)
    requires !IsHandshake(t) && |payload| <= maxPayload < U32_LIMIT
    ensures sent == [OnWire(Numbered(mac, Some(key), 1, t, 0, payload), payload)] && InSequence(sent)
    ensures ds == [Delivery(Some(key), StrayHandshake(1)), Delivery(Some(key), sent[0])]
    ensures Known(ds) && TagsAreSent(mac, sent, ds)
    ensures AcceptedFrom(mac, maxPayload, 1, ds) == [StrayHandshake(1)]
    ensures Verdict(mac, Some(key), 2, sent[0].header, payload, maxPayload) == Refused(Replay)
  {
    hide SignedPart;
    var h := Numbered(mac, Some(key), 1, t, 0, payload);
    sent := [OnWire(h, payload)];
    ds := [Delivery(Some(key), StrayHandshake(1)), Delivery(Some(key), sent[0])];
    SameSigned(h);
    assert ds[1..] == [ds[1]] && ds[1..][1..] == [];
    assert AcceptedFrom(mac, maxPayload, 2, ds[1..]) == [];
  }

  /** A network that only drops, repeats and reorders the sender's frames. */
  lemma NetworkPrefix(mac: Mac, maxPayload: nat, sent: seq<Frame>, ds: seq<Delivery>)
    requires InSequence(sent) && |sent| < U64_LIMIT
    requires forall i | 0 <= i < |ds| :: KnownType(ds[i].frame.header.messageType) && ds[i].frame in sent
    ensures AcceptedFrom(mac, maxPayload, 1, ds) <= sent
  {
    hide AcceptedFrom, ExpectedAt;
    AcceptedPrefixIff(mac, maxPayload, sent, ds);
  }

  class FrameCodec {
    const mac: Mac
    var key: Option<Digest>
    var sendSequence: u64
    var expectedSequence: u64
    ghost var sent: seq<Frame>
    ghost var accepted: seq<Frame>

    /** The counters say how many frames were sent and accepted since the last reset, up to their width. */
    ghost predicate Valid()
      reads this
    {
      && InSequence(sent) && sendSequence == (|sent| + 1) % U64_LIMIT
      && InSequence(accepted) && expectedSequence == (|accepted| + 1) % U64_LIMIT
    }

    constructor (mac: Mac)
      ensures Valid() && this.mac == mac && key.None? && sent == [] && accepted == []
    {
      this.mac, key, sendSequence, expectedSequence, sent, accepted := mac, None, 1, 1, [], [];
    }

    /** The first thirty-two bytes of the key, filled up with zeros. */
    method SetSessionKey(k: Bytes)
      modifies `key
      ensures key == Some(if |k| >= DIGEST_BYTES then k[..DIGEST_BYTES] else k + Zeros(DIGEST_BYTES - |k|))
    {
      var width := if |k| < DIGEST_BYTES then |k| else DIGEST_BYTES;
      var raw := [];
      for i := 0 to width
        invariant raw == k[..i]
      {
        raw := raw + [k[i]];
      }
      assert k[..|k|] == k && raw + Zeros(0) == raw;
      key := Some(raw + Zeros(DIGEST_BYTES - width));
    }

    method ClearSessionKey()
      modifies `key
      ensures key.None?
    {
      key := None;
    }

    method ResetSequences()
      modifies `sendSequence, `expectedSequence, `sent, `accepted
      ensures Valid() && sent == [] && accepted == []
    {
      sendSequence, expectedSequence, sent, accepted := 1, 1, [], [];
    }

    method Encode(t: MessageType, flags: byte, payload: Bytes, maxPayload: u32) returns (frame: Option<Bytes>)
      requires Valid()
      modifies `sendSequence, `sent
      ensures Valid()
      ensures frame.Some? <==> |payload| <= maxPayload && MaySend(key, t)
      ensures frame.None? ==> sent == old(sent)
      ensures frame.Some? ==>
        var h := Numbered(mac, key, old(sendSequence), t, flags, payload);
        sent == old(sent) + [OnWire(h, payload)] && frame.value == EncodeHeader(h) + payload
    {
      hide InSequence, Next;
      if |payload| > maxPayload { return None; }
      if IsHandshake(t) {
        if key.Some? { return None; }
      } else if key.None? {
        return None;
      }
      var header := Header(PROTOCOL_VERSION, flags, t, |payload|, sendSequence, Zeros(DIGEST_BYTES));
      if key.Some? {
        header := header.(flags := WithFlag(flags));
        header := header.(tag := Tag(mac, key.value, header, payload));
      }
      SequenceSnoc(sent, OnWire(header, payload));
      sendSequence := Next(sendSequence);
      sent := sent + [OnWire(header, payload)];
      return Some(EncodeHeader(header) + payload);
    }

    method Verify(header: Header, payload: Bytes, maxPayload: u32) returns (outcome: Outcome)
      requires Valid() && KnownType(header.messageType)
      modifies `expectedSequence, `accepted
      ensures Valid()
      ensures outcome == Verdict(mac, key, old(expectedSequence), header, payload, maxPayload)
      ensures accepted == if outcome.Accepted? then old(accepted) + [Frame(header, payload)] else old(accepted)
    {
      hide InSequence, Next;
      if |payload| > maxPayload { return Refused(TooLarge); }
      if |payload| != header.length { return Refused(LengthMismatch); }
      var authenticated := IsAuthenticated(header.flags);
      if IsHandshake(header.messageType) {
        if authenticated { return Refused(NotNow); }
      } else {
        if !authenticated || key.None? { return Refused(HandshakeRequired); }
        var expected := Tag(mac, key.value, header, payload);
        if expected[..TAG_BYTES] != header.tag[..TAG_BYTES] { return Refused(AuthFailed); }
      }
      if header.sequence < expectedSequence { return Refused(Replay); }
      if header.sequence > expectedSequence { return Refused(Skipped); }
      SequenceSnoc(accepted, Frame(header, payload));
      expectedSequence := Next(expectedSequence);
      accepted := accepted + [Frame(header, payload)];
      return Accepted;
    }
  }
}
