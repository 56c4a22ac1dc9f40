/**
  Whole runs of the movement store: any sequence of operations, compactions and
  crashes, over the bytes of the file.
 */
module StoreRuns {
  import opened Types
  import Utf8
  import opened Movement
  import opened RecordCodec
  import opened MovementLog
  import opened MovementStore

  // ---- opening a file -------------------------------------------------------

  datatype Opening = Refusal | Opened(st: Store, file: Bytes, torn: bool)

  /** `open` on the bytes found on disk. An empty file is a new store. */
  function Open(sha: HashFn, o: Options, disk: Bytes): Opening {
    if disk == [] then Opened(FRESH, FileHeader(sha), false)
    else if |disk| < FILE_HEADER_BYTES || !HeaderOk(sha, disk[..FILE_HEADER_BYTES]) then Refusal
    else match Recover(sha, o.maxRecord, disk[FILE_HEADER_BYTES..], EMPTY, 0)
      case Rejected => Refusal
      case Recovered(ix, last, es, torn) =>
        Opened(Store(ix, es, last + 1), disk[..FILE_HEADER_BYTES] + Frames(sha, es), torn)
  }

  function FileOf(sha: HashFn, log: seq<Entry>): (f: Bytes)
    ensures |f| >= FILE_HEADER_BYTES
  {
    HeaderSize(sha);
    FileHeader(sha) + Frames(sha, log)
  }

  lemma HeaderSize(sha: HashFn)
    ensures |FileHeader(sha)| == FILE_HEADER_BYTES
  {
    FreshHeaderOk(sha);
  }

  lemma OpenFramed(sha: HashFn, o: Options, area: Bytes)
    ensures Open(sha, o, FileHeader(sha) + area) ==
      match Recover(sha, o.maxRecord, area, EMPTY, 0)
      case Rejected => Refusal
      case Recovered(ix, last, es, torn) => Opened(Store(ix, es, last + 1), FileOf(sha, es), torn)
  {
    hide HeaderOk, FileHeader, Recover;
    FreshHeaderOk(sha);
    HeaderSize(sha);
    var disk := FileHeader(sha) + area;
    assert disk[..FILE_HEADER_BYTES] == FileHeader(sha) && disk[FILE_HEADER_BYTES..] == area;
  }

  /** A sound store's file opens to exactly what the store holds, or is refused because an entry does not decode. */
  lemma OpenWhole(sha: HashFn, o: Options, st: Store)
    requires Inv(sha, o, st)
    ensures Open(sha, o, FileOf(sha, st.log)) ==
      if Reopens(sha, o, st)
      then Opened(Store(Forget(st.ix), st.log, LastSequence(st.log, 0) + 1), FileOf(sha, st.log), false)
      else Refusal
  {
    OpenFramed(sha, o, Frames(sha, st.log));
    RecoverWhole(sha, o.maxRecord, st.log, EMPTY, 0);
  }

  /** The store that holds a readable log, with the counter just past it. */
  function StoreOf(sha: HashFn, o: Options, log: seq<Entry>): Store
    requires Replay(sha, o.maxRecord, EMPTY, log).Some?
  {
    Store(Replay(sha, o.maxRecord, EMPTY, log).value, log, LastSequence(log, 0) + 1)
  }

  /** The bytes of `log` and anything after them: the records recovered are those of `log`, and it opens again. */
  ghost predicate OpensTo(sha: HashFn, o: Options, disk: Bytes, log: seq<Entry>) {
    && Replay(sha, o.maxRecord, EMPTY, log).Some?
    && var st, file := StoreOf(sha, o, log), FileOf(sha, log);
    && Inv(sha, o, st) && Reopens(sha, o, st)
    && file <= disk
    && Open(sha, o, disk) == Opened(st, file, |file| < |disk|)
    && Open(sha, o, file) == Opened(st, file, false)
  }

  lemma KeptPrefix(header: Bytes, kept: Bytes, area: Bytes)
    requires kept <= area
    ensures header + kept <= header + area
  {
  }

  lemma CutOpens(sha: HashFn, o: Options, st: Store, cut: nat)
    requires Inv(sha, o, st) && Reopens(sha, o, st) && cut <= |Frames(sha, st.log)|
    ensures OpensTo(sha, o, FileHeader(sha) + Frames(sha, st.log)[..cut], st.log[..WholeWithin(sha, st.log, cut)])
  {
    var k := WholeWithin(sha, st.log, cut);
    CutRecovers(sha, o.maxRecord, st.log, cut);
    OrderedPrefix(o.maxRecord, st.log, k);
    hide Inv, Reopens, Open, Recover, FileHeader, WholeWithin, Replay, Frames, Ordered;
    PrefixInv(sha, o, st.log[..k]);
    OpenFramed(sha, o, Frames(sha, st.log)[..cut]);
    OpenFramed(sha, o, Frames(sha, st.log[..k]));
    KeptPrefix(FileHeader(sha), Frames(sha, st.log[..k]), Frames(sha, st.log)[..cut]);
  }

  lemma OrderedPrefix(maxRecord: nat, es: seq<Entry>, k: nat)
    requires Ordered(maxRecord, es, 0) && k <= |es|
    ensures Ordered(maxRecord, es[..k], 0)
  {
  }

  /**
    A file cut anywhere. Inside the header the file is refused (a zero-length file is a
    new store); at or after byte 96 it opens with exactly the records wholly before the
    cut, is truncated to their end, and opens again to the same with nothing torn.
   */
  lemma OpenCut(sha: HashFn, o: Options, st: Store, cut: nat)
    requires Inv(sha, o, st) && Reopens(sha, o, st) && cut <= |FileOf(sha, st.log)|
    ensures var disk := FileOf(sha, st.log)[..cut];
      if cut == 0 then Open(sha, o, disk) == Opened(FRESH, FileOf(sha, []), false)
      else if cut < FILE_HEADER_BYTES then Open(sha, o, disk) == Refusal
      else OpensTo(sha, o, disk, st.log[..WholeWithin(sha, st.log, cut - FILE_HEADER_BYTES)])
  {
    hide Inv, Reopens, Recover, HeaderOk, FileHeader, OpensTo;
    HeaderSize(sha);
    if cut == 0 {
      assert FileOf(sha, []) == FileHeader(sha);
    } else if cut >= FILE_HEADER_BYTES {
      var area := Frames(sha, st.log)[..cut - FILE_HEADER_BYTES];
      assert FileOf(sha, st.log)[..cut] == FileHeader(sha) + area;
      CutOpens(sha, o, st, cut - FILE_HEADER_BYTES);
    }
  }

  // ---- runs -----------------------------------------------------------------

  /** `Crash(cut)` loses everything after the first `cut` bytes of the record area; the store is opened again. */
  datatype Op = Put(r: Record) | Retire(id: Id16) | Save(c: CoordinatorState) | Compact | Crash(cut: nat)

  /** The 64-bit sequence counter does not run out. */
  ghost predicate Enabled(sha: HashFn, o: Options, st: Store, op: Op) {
    match op
    case Put(r) => Recordable(r) && PutStep(sha, o, st, r).next <= U64_LIMIT
    case Retire(id) => RetireStep(st, id).next <= U64_LIMIT
    case Save(c) => SaveStep(o, st, c).next <= U64_LIMIT
    case Compact => Compactable(st.ix)
    case Crash(cut) => cut <= |Frames(sha, st.log)|
  }

  ghost function Step(sha: HashFn, o: Options, st: Store, op: Op): Option<Store>
    requires Enabled(sha, o, st, op)
  {
    match op
    case Put(r) => Some(PutStep(sha, o, st, r))
    case Retire(id) => Some(RetireStep(st, id))
    case Save(c) => Some(SaveStep(o, st, c))
    case Compact => Some(CompactStep(st))
    case Crash(cut) => ReopenStep(sha, o, st, cut)
  }

  /** What the caller can check beforehand: text that is UTF-8, an epoch that is set. */
  ghost predicate Healthy(op: Op) {
    match op
    case Put(r) => Utf8.IsUtf8(r.lastDetail)
    case Save(c) => c.epoch != 0
    case _ => true
  }

  ghost predicate IsStep(sha: HashFn, o: Options, st: Store, op: Op, st': Store) {
    Enabled(sha, o, st, op) && Step(sha, o, st, op) == Some(st')
  }

  ghost predicate IsRun(sha: HashFn, o: Options, states: seq<Store>, ops: seq<Op>) {
    && |states| == |ops| + 1 && states[0] == FRESH
    && (forall i | 0 <= i < |ops| :: IsStep(sha, o, states[i], ops[i], states[i + 1]))
  }

  ghost predicate Sound(sha: HashFn, o: Options, st: Store) {
    Inv(sha, o, st) && Reopens(sha, o, st) && st.next <= U64_LIMIT
  }

  /** The live entries of a readable log are themselves readable. */
  lemma ReadableIsClean(sha: HashFn, o: Options, st: Store)
    requires Inv(sha, o, st) && Reopens(sha, o, st)
    ensures Clean(st.ix)
  {
    EmptyClean();
    ReplayClean(sha, o, EMPTY, st.log);
    hide RecordOk, IndexOk;
    var ix := Forget(st.ix);
    forall id | id in st.ix.records ensures Utf8.Accepts(st.ix.records[id].lastDetail) {
      assert ix.records[id].lastDetail == st.ix.records[id].lastDetail;
    }
  }

  lemma EmptyClean()
    ensures Clean(EMPTY)
  {
  }

  lemma ApplyClean(sha: HashFn, o: Options, ix: Index, e: Entry)
    requires ValidOptions(o) && Clean(ix) && |e.payload| <= o.maxRecord
    ensures match Apply(sha, o.maxRecord, ix, e) case None => true case Some(ix') => Clean(ix')
  {
    var limits := StoreLimits(o.maxRecord);
    if e.kind == MOVEMENT {
      hide RecordCodec.DecodeRecord, Utf8.Accepts;
      DecodedText(sha, o, e.payload);
    } else if e.kind == COORDINATOR {
      hide RecordCodec.DecodeCoordinator, Utf8.Accepts;
      CoordinatorCanonical(limits, e.payload);
    } else {
      hide RecordCodec.DecodeId, Utf8.Accepts;
    }
  }

  lemma DecodedText(sha: HashFn, o: Options, payload: Bytes)
    requires ValidOptions(o) && |payload| <= o.maxRecord
    ensures match RecordCodec.DecodeRecord(sha, StoreLimits(o.maxRecord), payload)
      case Err(_) => true
      case Ok((r, rest)) => rest == [] ==> Utf8.Accepts(r.lastDetail)
  {
    var limits := StoreLimits(o.maxRecord);
    DecodedOk(sha, o, payload);
    RecordCanonical(sha, limits, payload);
    hide RecordCodec.DecodeRecord, EncodeRecord, Encodable, Utf8.Accepts;
    match RecordCodec.DecodeRecord(sha, limits, payload)
    case Err(_) =>
    case Ok((r, rest)) =>
      if rest == [] {
        RecordRoundTrip(sha, limits, r, []);
        assert EncodeRecord(r) + [] == EncodeRecord(r) == payload;
      }
  }

  lemma {:induction false} ReplayClean(sha: HashFn, o: Options, ix: Index, es: seq<Entry>)
    requires ValidOptions(o) && Clean(ix) && Replay(sha, o.maxRecord, ix, es).Some?
    requires forall i | 0 <= i < |es| :: |es[i].payload| <= o.maxRecord
    ensures Clean(Replay(sha, o.maxRecord, ix, es).value)
    decreases |es|
  {
    hide Clean, Apply;
    if es != [] {
      ApplyClean(sha, o, ix, es[0]);
      ReplayClean(sha, o, Apply(sha, o.maxRecord, ix, es[0]).value, es[1..]);
    }
  }

  /** From a sound store no healthy operation is refused, and each leads to a sound store. */
  lemma StepSound(sha: HashFn, o: Options, st: Store, op: Op)
    requires Sound(sha, o, st) && Enabled(sha, o, st, op) && Healthy(op)
    ensures Step(sha, o, st, op).Some? && Sound(sha, o, Step(sha, o, st, op).value)
  {
    hide Inv, Reopens, PutStep, RetireStep, SaveStep, CompactStep, ReopenStep;
    match op
    case Put(r) => PutInv(sha, o, st, r); Utf8.AcceptsIffUtf8(r.lastDetail);
    case Retire(id) => RetireStepInv(sha, o, st, id);
    case Save(c) => SaveInv(sha, o, st, c);
    case Compact =>
      ReadableIsClean(sha, o, st);
      CompactInv(sha, o, st);
      assert CompactStep(st).next <= U64_LIMIT by { CompactNext(st); }
    case Crash(cut) => ReopenInv(sha, o, st, cut);
  }

  lemma CompactNext(st: Store)
    requires Compactable(st.ix)
    ensures CompactStep(st).next == st.next
  {
  }

  /**
    Every run of healthy operations, with crashes and compactions anywhere: at every
    point, opening the file gives back exactly the records, their order and the
    coordinator state held in memory, with no torn tail, and compaction is possible.
   */
  lemma {:induction false} RunReopens(sha: HashFn, o: Options, states: seq<Store>, ops: seq<Op>, n: nat)
    requires ValidOptions(o) && IsRun(sha, o, states, ops) && n < |states|
    requires forall i | 0 <= i < n :: Healthy(ops[i])
    ensures var st := states[n];
      && Sound(sha, o, st) && Compactable(st.ix)
      && Open(sha, o, FileOf(sha, st.log)) ==
         Opened(Store(Forget(st.ix), st.log, LastSequence(st.log, 0) + 1), FileOf(sha, st.log), false)
  {
    hide Inv, Reopens, Compactable, Open, Forget, Step, Enabled;
    if n == 0 {
      FreshInv(sha, o);
    } else {
      RunReopens(sha, o, states, ops, n - 1);
      assert IsStep(sha, o, states[n - 1], ops[n - 1], states[n]);
      StepSound(sha, o, states[n - 1], ops[n - 1]);
    }
    OpenWhole(sha, o, states[n]);
    InvCompactable(sha, o, states[n]);
  }

  /**
    Both conditions of health are needed: from a sound store, an accepted put whose
    detail is not UTF-8, or an accepted save with epoch zero, leaves a file that cannot
    be opened; otherwise the file opens. A later compaction heals the file exactly when
    no live entry is unreadable (`CompactInv`).
   */
  lemma UnhealthyRefused(sha: HashFn, o: Options, st: Store, op: Op)
    requires Sound(sha, o, st) && Enabled(sha, o, st, op)
    ensures op.Put? && PutOutcome(sha, o, op.r).Done? ==>
      (Open(sha, o, FileOf(sha, PutStep(sha, o, st, op.r).log)).Refusal? <==> !Healthy(op))
    ensures op.Save? && |EncodeCoordinator(op.c)| <= o.maxRecord ==>
      (Open(sha, o, FileOf(sha, SaveStep(o, st, op.c).log)).Refusal? <==> !Healthy(op))
  {
    hide Inv, Reopens, PutStep, SaveStep, Open, Forget, EncodeCoordinator, PutOutcome;
    match op
    case Put(r) =>
      PutInv(sha, o, st, r);
      Utf8.AcceptsIffUtf8(r.lastDetail);
      OpenWhole(sha, o, PutStep(sha, o, st, r));
    case Save(c) =>
      SaveInv(sha, o, st, c);
      OpenWhole(sha, o, SaveStep(o, st, c));
    case _ =>
  }
}
