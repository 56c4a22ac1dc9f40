/**
  The append-only movement log as bytes (src/movement_store.cpp): record framing,
  the sequential recovery scan, and what recovery finds in a log cut anywhere.
 */
module MovementLog {
  import opened Types
  import Codec
  import opened Movement
  import RecordCodec

  const FILE_HEADER_BYTES := 96
  const RECORD_HEADER_BYTES := 56
  const CHECKED_PREFIX := 24
  const FORMAT_VERSION: byte := 1
  /** "SMFMST01" and "SMFR" */
  const FILE_MAGIC: Bytes := [83, 77, 70, 77, 83, 84, 48, 49]
  const RECORD_MAGIC: Bytes := [83, 77, 70, 82]
  const MAX_RECORD_CEILING := 0x400_0000

  const MOVEMENT: byte := 1
  const COORDINATOR: byte := 2
  const RETIRE: byte := 3

  // ---- the file header ------------------------------------------------------

  const HEADER_PREFIX: Bytes :=
    FILE_MAGIC + (Codec.LE(FORMAT_VERSION, 2) + ([0, 0] + (Codec.LE(FILE_HEADER_BYTES, 4) + Zeros(48))))

  function FileHeader(sha: HashFn): Bytes {
    HEADER_PREFIX + sha(HEADER_PREFIX)
  }

  /** What `open` insists on. Reserved bytes are covered by the checksum only. */
  predicate HeaderOk(sha: HashFn, h: Bytes) {
    && |h| == FILE_HEADER_BYTES
    && h[..8] == FILE_MAGIC
    && Codec.FromLE(h[8..10]) == FORMAT_VERSION
    && Codec.FromLE(h[12..16]) == FILE_HEADER_BYTES
    && sha(h[..64]) == h[64..]
  }

  lemma FreshHeaderOk(sha: HashFn)
    ensures HeaderOk(sha, FileHeader(sha))
  {
    var h := FileHeader(sha);
    var version, size := Codec.LE(FORMAT_VERSION, 2), Codec.LE(FILE_HEADER_BYTES, 4);
    assert |HEADER_PREFIX| == 64;
    assert h[..64] == HEADER_PREFIX && h[64..] == sha(HEADER_PREFIX);
    Codec.Widths();
    Codec.LERoundTrip(FORMAT_VERSION, 2);
    Codec.LERoundTrip(FILE_HEADER_BYTES, 4);
    assert h[8..10] == version by { assert h[8..10] == HEADER_PREFIX[8..10]; }
    assert h[12..16] == size by { assert h[12..16] == HEADER_PREFIX[12..16]; }
    assert h[..8] == FILE_MAGIC by { assert h[..8] == HEADER_PREFIX[..8]; }
  }

  // ---- record frames --------------------------------------------------------

  datatype Entry = Entry(kind: byte, sequence: u64, payload: Bytes)

  function Prefix(kind: byte, sequence: u64, length: nat): (p: Bytes)
    ensures |p| == CHECKED_PREFIX
  {
    RECORD_MAGIC + ([FORMAT_VERSION, kind, 0, 0] + (Codec.LE(sequence, 8) + (Codec.LE(length, 4) + [0, 0, 0, 0])))
  }

  function RecordHeader(sha: HashFn, e: Entry): (h: Bytes)
    ensures |h| == RECORD_HEADER_BYTES
  {
    var p := Prefix(e.kind, e.sequence, |e.payload|);
    p + sha(p + e.payload)
  }

  function Frame(sha: HashFn, e: Entry): (f: Bytes)
    ensures |f| == RECORD_HEADER_BYTES + |e.payload|
  {
    RecordHeader(sha, e) + e.payload
  }

  function Frames(sha: HashFn, es: seq<Entry>): Bytes {
    if es == [] then [] else Frame(sha, es[0]) + Frames(sha, es[1..])
  }

  // ---- scanning one record --------------------------------------------------

  datatype Scan = Torn | Refused | Found(entry: Entry)

  /** One turn of the recovery loop, before the sequence check and the application. */
  function ScanOne(sha: HashFn, maxRecord: nat, rest: Bytes): Scan {
    if |rest| < RECORD_HEADER_BYTES then Torn
    else if rest[..4] != RECORD_MAGIC || rest[4] != FORMAT_VERSION then Refused
    else if Codec.FromLE(rest[6..8]) != 0 || Codec.FromLE(rest[20..24]) != 0 then Refused
    else
      var length := Codec.FromLE(rest[16..20]);
      if length > maxRecord then Refused
      else if length > |rest| - RECORD_HEADER_BYTES then Torn
      else
        var next := RECORD_HEADER_BYTES + length;
        var payload := rest[RECORD_HEADER_BYTES..next];
        if sha(rest[..CHECKED_PREFIX] + payload) != rest[CHECKED_PREFIX..RECORD_HEADER_BYTES] then
          if next >= |rest| then Torn else Refused
        else
          Found(Entry(rest[5], ReadSequence(rest), payload))
  }

  function ReadSequence(rest: Bytes): u64
    requires |rest| >= RECORD_HEADER_BYTES
  {
    Codec.FromLEBound(rest[8..16]);
    Codec.Widths();
    Codec.FromLE(rest[8..16])
  }

  lemma ZerosAreZero(n: nat)
    ensures Codec.FromLE(Zeros(n)) == 0
  {
    if n > 0 {
      ZerosAreZero(n - 1);
      assert Zeros(n)[1..] == Zeros(n - 1);
    }
  }

  lemma PrefixFields(kind: byte, sequence: u64, length: nat)
    requires length < U32_LIMIT
    ensures var p := Prefix(kind, sequence, length);
      && p[..4] == RECORD_MAGIC && p[4] == FORMAT_VERSION && p[5] == kind
      && Codec.FromLE(p[6..8]) == 0 && Codec.FromLE(p[20..24]) == 0
      && Codec.FromLE(p[8..16]) == sequence && Codec.FromLE(p[16..20]) == length
  {
    var p := Prefix(kind, sequence, length);
    Codec.Widths();
    Codec.LERoundTrip(sequence, 8);
    Codec.LERoundTrip(length, 4);
    assert p[8..16] == Codec.LE(sequence, 8);
    assert p[16..20] == Codec.LE(length, 4);
    assert p[6..8] == Zeros(2);
    assert p[20..24] == Zeros(4);
    ZerosAreZero(2);
    ZerosAreZero(4);
  }

  /** The header of a frame is seen the same through any bytes that begin with it. */
  lemma HeaderSeen(sha: HashFn, e: Entry, s: Bytes)
    requires |e.payload| < U32_LIMIT && |s| >= RECORD_HEADER_BYTES && s[..RECORD_HEADER_BYTES] == RecordHeader(sha, e)
    ensures s[..4] == RECORD_MAGIC && s[4] == FORMAT_VERSION && s[5] == e.kind
    ensures Codec.FromLE(s[6..8]) == 0 && Codec.FromLE(s[20..24]) == 0
    ensures Codec.FromLE(s[8..16]) == e.sequence && Codec.FromLE(s[16..20]) == |e.payload|
    ensures s[..CHECKED_PREFIX] == Prefix(e.kind, e.sequence, |e.payload|)
    ensures s[CHECKED_PREFIX..RECORD_HEADER_BYTES] == sha(s[..CHECKED_PREFIX] + e.payload)
  {
    var h, p := RecordHeader(sha, e), Prefix(e.kind, e.sequence, |e.payload|);
    PrefixFields(e.kind, e.sequence, |e.payload|);
    assert h[..CHECKED_PREFIX] == p;
    assert s[..CHECKED_PREFIX] == h[..CHECKED_PREFIX];
    assert s[..4] == p[..4] && s[6..8] == p[6..8] && s[8..16] == p[8..16];
    assert s[16..20] == p[16..20] && s[20..24] == p[20..24];
    assert s[4] == p[4] && s[5] == p[5];
    assert s[CHECKED_PREFIX..RECORD_HEADER_BYTES] == h[CHECKED_PREFIX..];
  }

  /** A complete frame is found, whatever follows it. */
  lemma ScanFrame(sha: HashFn, maxRecord: nat, e: Entry, tail: Bytes)
    requires |e.payload| <= maxRecord < U32_LIMIT
    ensures ScanOne(sha, maxRecord, Frame(sha, e) + tail) == Found(e)
  {
    var s := Frame(sha, e) + tail;
    assert s[..RECORD_HEADER_BYTES] == RecordHeader(sha, e);
    HeaderSeen(sha, e, s);
    assert s[RECORD_HEADER_BYTES..RECORD_HEADER_BYTES + |e.payload|] == e.payload;
  }

  /** A frame cut short is a torn tail, wherever the cut falls. */
  lemma ScanCut(sha: HashFn, maxRecord: nat, e: Entry, cut: nat)
    requires |e.payload| <= maxRecord < U32_LIMIT && cut < |Frame(sha, e)|
    ensures ScanOne(sha, maxRecord, Frame(sha, e)[..cut]) == Torn
  {
    if cut >= RECORD_HEADER_BYTES {
      var s := Frame(sha, e)[..cut];
      assert s[..RECORD_HEADER_BYTES] == RecordHeader(sha, e);
      HeaderSeen(sha, e, s);
    }
  }

  lemma ZeroBytes(s: Bytes)
    requires Codec.FromLE(s) == 0
    ensures s == Zeros(|s|)
  {
    if s != [] { ZeroBytes(s[1..]); }
  }

  lemma SplitPrefix(p: Bytes, length: nat)
    requires |p| == CHECKED_PREFIX && p[..4] == RECORD_MAGIC && p[4] == FORMAT_VERSION
    requires Codec.FromLE(p[6..8]) == 0 && Codec.FromLE(p[20..24]) == 0
    requires Codec.FromLE(p[16..20]) == length
    ensures Codec.FromLE(p[8..16]) < U64_LIMIT
    ensures p == Prefix(p[5], Codec.FromLE(p[8..16]), length)
  {
    ZeroBytes(p[6..8]);
    ZeroBytes(p[20..24]);
    Codec.LECanonical(p[8..16]);
    Codec.LECanonical(p[16..20]);
    Codec.FromLEBound(p[8..16]);
    Codec.Widths();
    assert [p[4], p[5]] + p[6..8] == [FORMAT_VERSION, p[5], 0, 0];
    assert p[20..24] == [0, 0, 0, 0];
    Pieces(p);
  }

  lemma Pieces(p: Bytes)
    requires |p| == CHECKED_PREFIX
    ensures p == p[..4] + (([p[4], p[5]] + p[6..8]) + (p[8..16] + (p[16..20] + p[20..24])))
  {
  }

  /** Whatever the scan finds is, byte for byte, the frame the store would have written. */
  lemma FoundIsFrame(sha: HashFn, maxRecord: nat, rest: Bytes)
    requires ScanOne(sha, maxRecord, rest).Found?
    ensures var e := ScanOne(sha, maxRecord, rest).entry;
      && |e.payload| <= maxRecord && |Frame(sha, e)| <= |rest|
      && rest == Frame(sha, e) + rest[|Frame(sha, e)|..]
  {
    var e := ScanOne(sha, maxRecord, rest).entry;
    var p := rest[..CHECKED_PREFIX];
    assert p[..4] == rest[..4] && p[6..8] == rest[6..8] && p[8..16] == rest[8..16];
    assert p[16..20] == rest[16..20] && p[20..24] == rest[20..24];
    SplitPrefix(p, |e.payload|);
    var n := RECORD_HEADER_BYTES + |e.payload|;
    assert rest == ((p + rest[CHECKED_PREFIX..RECORD_HEADER_BYTES]) + rest[RECORD_HEADER_BYTES..n]) + rest[n..];
  }

  // ---- the index ------------------------------------------------------------

  datatype Index = Index(
    records: map<Id16, Record>, order: seq<Id16>, coordinator: Option<RecordCodec.CoordinatorState>)

  const EMPTY := Index(map[], [], None)

  function PutIn(ix: Index, r: Record): Index {
    ix.(records := ix.records[r.id := r], order := if r.id in ix.records then ix.order else ix.order + [r.id])
  }

  function SaveIn(ix: Index, c: RecordCodec.CoordinatorState): Index {
    ix.(coordinator := Some(c))
  }

  function Without(order: seq<Id16>, id: Id16): seq<Id16> {
    if order == [] then []
    else if order[0] == id then Without(order[1..], id)
    else [order[0]] + Without(order[1..], id)
  }

  function RetireIn(ix: Index, id: Id16): Index {
    if id in ix.records then ix.(records := ix.records - {id}, order := Without(ix.order, id)) else ix
  }

  /** The decoder ceilings the store uses. */
  function StoreLimits(maxRecord: nat): Codec.Limits {
    Codec.Limits(maxRecord, 4096, maxRecord + 0x1_0000)
  }

  /** `apply_record`: decode, insist that nothing is left over, and apply. */
  function Apply(sha: HashFn, maxRecord: nat, ix: Index, e: Entry): Option<Index> {
    var limits := StoreLimits(maxRecord);
    if |e.payload| > limits.maxInput then None
    else if e.kind == MOVEMENT then
      match RecordCodec.DecodeRecord(sha, limits, e.payload)
      case Ok((r, rest)) => if rest == [] then Some(PutIn(ix, r)) else None
      case Err(_) => None
    else if e.kind == COORDINATOR then
      match RecordCodec.DecodeCoordinator(limits, e.payload)
      case Ok((c, rest)) => if rest == [] then Some(SaveIn(ix, c)) else None
      case Err(_) => None
    else if e.kind == RETIRE then
      match RecordCodec.DecodeId(limits, e.payload)
      case Ok((id, rest)) => if rest == [] then Some(RetireIn(ix, id)) else None
      case Err(_) => None
    else None
  }

  /** The meaning of a log: apply its entries in order. */
  function Replay(sha: HashFn, maxRecord: nat, ix: Index, es: seq<Entry>): Option<Index>
    decreases |es|
  {
    if es == [] then Some(ix)
    else match Apply(sha, maxRecord, ix, es[0])
      case None => None
      case Some(ix') => Replay(sha, maxRecord, ix', es[1..])
  }

  /** Whether an entry can be applied depends on the entry alone. */
  predicate Decodes(sha: HashFn, maxRecord: nat, e: Entry) {
    Apply(sha, maxRecord, EMPTY, e).Some?
  }

  lemma AppliesIff(sha: HashFn, maxRecord: nat, ix: Index, e: Entry)
    ensures Apply(sha, maxRecord, ix, e).Some? <==> Decodes(sha, maxRecord, e)
  {
  }

  lemma {:induction false} ReplaysIff(sha: HashFn, maxRecord: nat, ix: Index, es: seq<Entry>)
    ensures Replay(sha, maxRecord, ix, es).Some? <==> forall i | 0 <= i < |es| :: Decodes(sha, maxRecord, es[i])
    decreases |es|
  {
    if es != [] {
      var applied := Apply(sha, maxRecord, ix, es[0]);
      AppliesIff(sha, maxRecord, ix, es[0]);
      if applied.Some? {
        ReplaysIff(sha, maxRecord, applied.value, es[1..]);
        assert forall i | 0 < i < |es| :: es[i] == es[1..][i - 1];
      }
    }
  }

  lemma {:induction false} ReplaySnoc(sha: HashFn, maxRecord: nat, ix: Index, es: seq<Entry>, e: Entry)
    ensures Replay(sha, maxRecord, ix, es + [e]) ==
      match Replay(sha, maxRecord, ix, es)
      case None => None
      case Some(ix') => Apply(sha, maxRecord, ix', e)
    decreases |es|
  {
    if es == [] {
      assert [] + [e] == [e] && [e][1..] == [];
    } else {
      assert (es + [e])[1..] == es[1..] + [e];
      match Apply(sha, maxRecord, ix, es[0])
      case None =>
      case Some(ix') => ReplaySnoc(sha, maxRecord, ix', es[1..], e);
    }
  }

  // ---- recovery -------------------------------------------------------------

  datatype Recovery = Rejected | Recovered(index: Index, last: nat, entries: seq<Entry>, torn: bool)

  /** The recovery loop from one record boundary: `last` is the last sequence applied. */
  function Recover(sha: HashFn, maxRecord: nat, rest: Bytes, ix: Index, last: nat): Recovery
    decreases |rest|
  {
    if rest == [] then Recovered(ix, last, [], false)
    else match ScanOne(sha, maxRecord, rest)
      case Torn => Recovered(ix, last, [], true)
      case Refused => Rejected
      case Found(e) =>
        FoundIsFrame(sha, maxRecord, rest);
        if e.sequence <= last then Rejected
        else match Apply(sha, maxRecord, ix, e)
          case None => Rejected
          case Some(ix') =>
            match Recover(sha, maxRecord, rest[RECORD_HEADER_BYTES + |e.payload|..], ix', e.sequence)
            case Rejected => Rejected
            case Recovered(ix'', last', es, torn) => Recovered(ix'', last', [e] + es, torn)
  }

  /** Every entry fits, and sequences strictly increase from above `last`. */
  ghost predicate Ordered(maxRecord: nat, es: seq<Entry>, last: nat) {
    && (forall i | 0 <= i < |es| :: |es[i].payload| <= maxRecord && last < es[i].sequence)
    && (forall i, j | 0 <= i < j < |es| :: es[i].sequence < es[j].sequence)
  }

  function LastSequence(es: seq<Entry>, last: nat): nat {
    if es == [] then last else es[|es| - 1].sequence
  }

  lemma OrderedTail(maxRecord: nat, es: seq<Entry>, last: nat)
    requires Ordered(maxRecord, es, last) && es != []
    ensures Ordered(maxRecord, es[1..], es[0].sequence)
    ensures LastSequence(es, last) == LastSequence(es[1..], es[0].sequence)
  {
  }

  /**
    Recovery of a log followed by a cut frame (or by nothing, when `cut` is zero):
    exactly the complete records are recovered, the rest is reported torn; and if
    any complete record cannot be applied, recovery is refused.
   */
  lemma {:induction false} RecoverFrames(
    sha: HashFn, maxRecord: nat, es: seq<Entry>, e: Entry, cut: nat, ix: Index, last: nat)
    requires maxRecord < U32_LIMIT && Ordered(maxRecord, es, last)
    requires |e.payload| <= maxRecord && cut < |Frame(sha, e)|
    ensures Recover(sha, maxRecord, Frames(sha, es) + Frame(sha, e)[..cut], ix, last) ==
      match Replay(sha, maxRecord, ix, es)
      case None => Rejected
      case Some(ix') => Recovered(ix', LastSequence(es, last), es, cut > 0)
    decreases |es|
  {
    var tail := Frame(sha, e)[..cut];
    if es == [] {
      assert Frames(sha, es) + tail == tail;
      ScanCut(sha, maxRecord, e, cut);
    } else {
      var f, more := Frame(sha, es[0]), Frames(sha, es[1..]) + tail;
      assert Frames(sha, es) + tail == f + more;
      assert (f + more)[|f|..] == more;
      ScanFrame(sha, maxRecord, es[0], more);
      OrderedTail(maxRecord, es, last);
      match Apply(sha, maxRecord, ix, es[0])
      case None =>
      case Some(ix') =>
        RecoverFrames(sha, maxRecord, es[1..], e, cut, ix', es[0].sequence);
        assert [es[0]] + es[1..] == es;
    }
  }

  lemma RecoverWhole(sha: HashFn, maxRecord: nat, es: seq<Entry>, ix: Index, last: nat)
    requires maxRecord < U32_LIMIT && Ordered(maxRecord, es, last)
    ensures Recover(sha, maxRecord, Frames(sha, es), ix, last) ==
      match Replay(sha, maxRecord, ix, es)
      case None => Rejected
      case Some(ix') => Recovered(ix', LastSequence(es, last), es, false)
  {
    var e := Entry(RETIRE, 1, []);
    RecoverFrames(sha, maxRecord, es, e, 0, ix, last);
    assert Frames(sha, es) + Frame(sha, e)[..0] == Frames(sha, es);
  }

  /** `r` is what recovery makes of `rest`: the frames it found, in order, applied. */
  ghost predicate Faithful(sha: HashFn, maxRecord: nat, rest: Bytes, ix: Index, last: nat, r: Recovery) {
    r.Recovered? ==>
      && Ordered(maxRecord, r.entries, last)
      && Replay(sha, maxRecord, ix, r.entries) == Some(r.index)
      && r.last == LastSequence(r.entries, last)
      && Frames(sha, r.entries) <= rest
      && (!r.torn ==> Frames(sha, r.entries) == rest)
  }

  lemma FaithfulCons(
    sha: HashFn, maxRecord: nat, e: Entry, more: Bytes, ix: Index, ix': Index, last: nat, r: Recovery)
    requires Faithful(sha, maxRecord, more, ix', e.sequence, r) && r.Recovered?
    requires |e.payload| <= maxRecord && last < e.sequence && Apply(sha, maxRecord, ix, e) == Some(ix')
    ensures Faithful(sha, maxRecord, Frame(sha, e) + more, ix, last,
                     Recovered(r.index, r.last, [e] + r.entries, r.torn))
  {
    var es := [e] + r.entries;
    assert es[1..] == r.entries;
    assert Frames(sha, es) == Frame(sha, e) + Frames(sha, r.entries);
  }

  /** Whatever recovery accepts begins with the frames of the entries it recovered. */
  lemma {:induction false} RecoveredIsFrames(sha: HashFn, maxRecord: nat, rest: Bytes, ix: Index, last: nat)
    ensures Faithful(sha, maxRecord, rest, ix, last, Recover(sha, maxRecord, rest, ix, last))
    decreases |rest|
  {
    if rest != [] && ScanOne(sha, maxRecord, rest).Found? {
      var e := ScanOne(sha, maxRecord, rest).entry;
      FoundIsFrame(sha, maxRecord, rest);
      var applied := Apply(sha, maxRecord, ix, e);
      if e.sequence > last && applied.Some? {
        var more := rest[|Frame(sha, e)|..];
        RecoveredIsFrames(sha, maxRecord, more, applied.value, e.sequence);
        var r := Recover(sha, maxRecord, more, applied.value, e.sequence);
        if r.Recovered? { FaithfulCons(sha, maxRecord, e, more, ix, applied.value, last, r); }
      }
    }
  }

  lemma {:induction false} FramesAppend(sha: HashFn, es: seq<Entry>, fs: seq<Entry>)
    ensures Frames(sha, es + fs) == Frames(sha, es) + Frames(sha, fs)
  {
    if es == [] {
      assert es + fs == fs;
    } else {
      assert (es + fs)[1..] == es[1..] + fs;
      FramesAppend(sha, es[1..], fs);
    }
  }

  lemma FramesSnoc(sha: HashFn, es: seq<Entry>, e: Entry)
    ensures Frames(sha, es + [e]) == Frames(sha, es) + Frame(sha, e)
  {
    FramesAppend(sha, es, [e]);
    assert [e][1..] == [] && Frames(sha, [e]) == Frame(sha, e) + Frames(sha, []);
  }

  // ---- cutting a log --------------------------------------------------------

  /** How many records lie wholly within the first `cut` bytes. */
  function WholeWithin(sha: HashFn, es: seq<Entry>, cut: nat): (k: nat)
    ensures k <= |es|
  {
    if es == [] || cut < |Frame(sha, es[0])| then 0
    else 1 + WholeWithin(sha, es[1..], cut - |Frame(sha, es[0])|)
  }

  /** `cutBytes` is the first `k` frames and a proper part of the next. */
  ghost predicate CutAt(sha: HashFn, es: seq<Entry>, k: nat, inside: nat, cutBytes: Bytes)
    requires k <= |es|
  {
    if k == |es| then inside == 0 && cutBytes == Frames(sha, es)
    else inside < |Frame(sha, es[k])| && cutBytes == Frames(sha, es[..k]) + Frame(sha, es[k])[..inside]
  }

  lemma CutCons(sha: HashFn, es: seq<Entry>, k: nat, inside: nat, cutBytes: Bytes)
    requires 0 < k <= |es| && CutAt(sha, es[1..], k - 1, inside, cutBytes)
    ensures Frames(sha, es[..k]) == Frame(sha, es[0]) + Frames(sha, es[1..][..k - 1])
    ensures CutAt(sha, es, k, inside, Frame(sha, es[0]) + cutBytes)
  {
    var f := Frame(sha, es[0]);
    assert es[..k][1..] == es[1..][..k - 1];
    if k < |es| {
      var before, part := Frames(sha, es[1..][..k - 1]), Frame(sha, es[k])[..inside];
      assert f + (before + part) == (f + before) + part;
    }
  }

  lemma {:induction false} CutShape(sha: HashFn, es: seq<Entry>, cut: nat)
    requires cut <= |Frames(sha, es)|
    ensures var k := WholeWithin(sha, es, cut);
      && |Frames(sha, es[..k])| <= cut
      && CutAt(sha, es, k, cut - |Frames(sha, es[..k])|, Frames(sha, es)[..cut])
  {
    var k := WholeWithin(sha, es, cut);
    if es == [] {
    } else if cut < |Frame(sha, es[0])| {
      assert es[..0] == [];
      assert Frames(sha, es)[..cut] == [] + Frame(sha, es[0])[..cut];
    } else {
      var f, more := Frame(sha, es[0]), Frames(sha, es[1..]);
      CutShape(sha, es[1..], cut - |f|);
      var inside := cut - |f| - |Frames(sha, es[1..][..k - 1])|;
      CutCons(sha, es, k, inside, more[..cut - |f|]);
      assert (f + more)[..cut] == f + more[..cut - |f|];
    }
  }

  lemma {:induction false} ReplayPrefix(sha: HashFn, maxRecord: nat, ix: Index, es: seq<Entry>, k: nat)
    requires k <= |es| && Replay(sha, maxRecord, ix, es).Some?
    ensures Replay(sha, maxRecord, ix, es[..k]).Some?
    decreases k
  {
    if k > 0 {
      ReplayPrefix(sha, maxRecord, Apply(sha, maxRecord, ix, es[0]).value, es[1..], k - 1);
      assert es[..k][1..] == es[1..][..k - 1];
    }
  }

  /**
    For every log that replays and every cut of its record area: recovery succeeds,
    finds exactly the records wholly before the cut, and says whether anything was
    torn off; a second recovery, of the truncated file, finds the same with nothing torn.
   */
  lemma CutRecovers(sha: HashFn, maxRecord: nat, es: seq<Entry>, cut: nat)
    requires maxRecord < U32_LIMIT && Ordered(maxRecord, es, 0)
    requires cut <= |Frames(sha, es)| && Replay(sha, maxRecord, EMPTY, es).Some?
    ensures var k := WholeWithin(sha, es, cut);
      var kept := Frames(sha, es[..k]);
      var index := Replay(sha, maxRecord, EMPTY, es[..k]);
      && index.Some? && kept <= Frames(sha, es)[..cut]
      && Recover(sha, maxRecord, Frames(sha, es)[..cut], EMPTY, 0) ==
         Recovered(index.value, LastSequence(es[..k], 0), es[..k], |kept| < cut)
      && Recover(sha, maxRecord, kept, EMPTY, 0) ==
         Recovered(index.value, LastSequence(es[..k], 0), es[..k], false)
  {
    var k := WholeWithin(sha, es, cut);
    CutShape(sha, es, cut);
    ReplayPrefix(sha, maxRecord, EMPTY, es, k);
    RecoverWhole(sha, maxRecord, es[..k], EMPTY, 0);
    if k == |es| {
      assert es[..k] == es;
    } else {
      RecoverFrames(sha, maxRecord, es[..k], es[k], cut - |Frames(sha, es[..k])|, EMPTY, 0);
    }
  }
}
