/**
  What the movement store holds (src/movement_store.cpp:319-425, 595-602): the record of a
  movement is the last one put, in memory, in the log and over whole runs.
 */
module StoreHistory {
  import opened Types
  import Utf8
  import opened Movement
  import opened RecordCodec
  import opened MovementLog
  import opened MovementStore
  import Retention
  import Runs = StoreRuns

  function Lookup<T>(values: map<Id16, T>, id: Id16): Option<T> {
    if id in values then Some(values[id]) else None
  }

  /** The part of `order` that is still live. */
  function Kept(order: seq<Id16>, live: set<Id16>): seq<Id16> {
    if order == [] then []
    else if order[0] in live then [order[0]] + Kept(order[1..], live)
    else Kept(order[1..], live)
  }

  lemma {:induction false} ExceptIsKept(order: seq<Id16>, ids: seq<Id16>, live: set<Id16>)
    requires forall x | x in order :: x in ids <==> x !in live
    ensures Retention.Except(order, ids) == Kept(order, live)
  {
    if order != [] {
      assert forall x | x in order[1..] :: x in order;
      ExceptIsKept(order[1..], ids, live);
    }
  }

  lemma {:induction false} WithoutIsKept(order: seq<Id16>, id: Id16, live: set<Id16>)
    requires forall x | x in order :: x == id <==> x !in live
    ensures Without(order, id) == Kept(order, live)
  {
    if order != [] {
      assert forall x | x in order[1..] :: x in order;
      WithoutIsKept(order[1..], id, live);
    }
  }

  // ---- one operation --------------------------------------------------------------

  predicate Accepted(sha: HashFn, o: Options, op: Runs.Op) {
    op.Put? && |op.r.provenance.events| <= MAX_EVENTS && PutOutcome(sha, o, op.r).Done?
  }

  /** Retention takes away terminal movements only, and changes nothing else. */
  lemma RetainKeeps(sha: HashFn, o: Options, st: Store)
    requires IndexOk(sha, o.maxRecord, st.ix)
    ensures var ix, ix' := st.ix, Retain(o, st).ix;
      && (forall id | id in ix'.records :: id in ix.records && ix'.records[id] == ix.records[id])
      && (forall id | id in ix.records && !Terminal(ix.records[id].state) :: id in ix'.records)
      && ix'.order == Kept(ix.order, ix'.records.Keys) && ix'.coordinator == ix.coordinator
  {
    hide RecordOk, Retain, Victims;
    Retention.RetainExact(sha, o, st);
    var ids, ix' := Victims(o, st.ix), Retain(o, st).ix;
    forall id | id in ids ensures IsTerminal(st.ix, id) {
      var i :| 0 <= i < |ids| && ids[i] == id;
    }
    forall x | x in st.ix.order ensures x in ids <==> x !in ix'.records.Keys {
      assert x in st.ix.records;
    }
    ExceptIsKept(st.ix.order, ids, ix'.records.Keys);
  }

  /**
    After an accepted put the movement's record is the one put, unless retention retired that
    movement at once, which it never does to an open one. Every other live movement keeps its
    record, no open one is lost, a known movement keeps its place and a new one comes last.
   */
  lemma PutHolds(sha: HashFn, o: Options, st: Store, r: Record)
    requires IndexOk(sha, o.maxRecord, st.ix) && Recordable(r) && PutOutcome(sha, o, r).Done?
    ensures var ix, ix' := st.ix, PutStep(sha, o, st, r).ix;
      && (r.id in ix'.records ==> ix'.records[r.id] == r)
      && (!Terminal(r.state) ==> r.id in ix'.records)
      && (forall id | id in ix'.records && id != r.id :: id in ix.records && ix'.records[id] == ix.records[id])
      && (forall id | id in ix.records && id != r.id && !Terminal(ix.records[id].state) :: id in ix'.records)
      && ix'.order == Kept(if r.id in ix.records then ix.order else ix.order + [r.id], ix'.records.Keys)
      && ix'.coordinator == ix.coordinator
  {
    hide IndexOk, RecordOk, EncodeRecord, ValidRecord, Contiguous, Retain, Kept;
    PutRecordOk(sha, o, r);
    PutInOk(sha, o.maxRecord, st.ix, r);
    RetainKeeps(sha, o, Logged(st, PutIn(st.ix, r), MOVEMENT, EncodeRecord(r)));
  }

  lemma PutRecordOk(sha: HashFn, o: Options, r: Record)
    requires Recordable(r) && PutOutcome(sha, o, r).Done?
    ensures RecordOk(sha, o.maxRecord, r.id, r)
  {
    hide EncodeRecord, ValidRecord;
  }

  /** A retirement takes exactly its movement away. */
  lemma RetireHolds(sha: HashFn, o: Options, st: Store, id: Id16)
    requires IndexOk(sha, o.maxRecord, st.ix)
    ensures var ix, ix' := st.ix, RetireStep(st, id).ix;
      && (forall x :: Lookup(ix'.records, x) == if x == id then None else Lookup(ix.records, x))
      && ix'.order == Kept(ix.order, ix'.records.Keys) && ix'.coordinator == ix.coordinator
  {
    hide RecordOk, EncodeId;
    var ix, ix' := st.ix, RetireStep(st, id).ix;
    if id in ix.records {
      WithoutIsKept(ix.order, id, ix'.records.Keys);
    } else {
      AllKept(ix.order, ix.records.Keys);
    }
  }

  lemma {:induction false} AllKept(order: seq<Id16>, live: set<Id16>)
    requires forall i | 0 <= i < |order| :: order[i] in live
    ensures Kept(order, live) == order
  {
    if order != [] { AllKept(order[1..], live); }
  }

  /** An accepted save replaces the coordinator state and nothing else. */
  lemma SaveHolds(o: Options, st: Store, c: CoordinatorState)
    ensures var ix' := SaveStep(o, st, c).ix;
      && ix'.records == st.ix.records && ix'.order == st.ix.order
      && ix'.coordinator == (if |EncodeCoordinator(c)| <= o.maxRecord then Some(c) else st.ix.coordinator)
  {
    hide EncodeCoordinator;
  }

  // ---- what a log says ------------------------------------------------------------

  /** The record an entry puts, if it is one that decodes. */
  function Puts(sha: HashFn, maxRecord: nat, e: Entry): Option<Record> {
    if e.kind != MOVEMENT || |e.payload| > StoreLimits(maxRecord).maxInput then None
    else match RecordCodec.DecodeRecord(sha, StoreLimits(maxRecord), e.payload)
      case Ok((r, rest)) => if rest == [] then Some(r) else None
      case Err(_) => None
  }

  function Saves(maxRecord: nat, e: Entry): Option<CoordinatorState> {
    if e.kind != COORDINATOR || |e.payload| > StoreLimits(maxRecord).maxInput then None
    else match RecordCodec.DecodeCoordinator(StoreLimits(maxRecord), e.payload)
      case Ok((c, rest)) => if rest == [] then Some(c) else None
      case Err(_) => None
  }

  function Retires(maxRecord: nat, e: Entry): Option<Id16> {
    if e.kind != RETIRE || |e.payload| > StoreLimits(maxRecord).maxInput then None
    else match RecordCodec.DecodeId(StoreLimits(maxRecord), e.payload)
      case Ok((id, rest)) => if rest == [] then Some(id) else None
      case Err(_) => None
  }

  /** The last word of a log on a movement: the record last put, unless it was retired since. */
  function Latest(sha: HashFn, maxRecord: nat, es: seq<Entry>, id: Id16): Option<Record> {
    if es == [] then None
    else
      var e, before := es[|es| - 1], es[..|es| - 1];
      if Puts(sha, maxRecord, e).Some? && Puts(sha, maxRecord, e).value.id == id then Puts(sha, maxRecord, e)
      else if Retires(maxRecord, e) == Some(id) then None
      else Latest(sha, maxRecord, before, id)
  }

  function LatestState(maxRecord: nat, es: seq<Entry>): Option<CoordinatorState> {
    if es == [] then None
    else if Saves(maxRecord, es[|es| - 1]).Some? then Saves(maxRecord, es[|es| - 1])
    else LatestState(maxRecord, es[..|es| - 1])
  }

  lemma AppliedEntry(sha: HashFn, maxRecord: nat, ix: Index, e: Entry)
    requires Apply(sha, maxRecord, ix, e).Some?
    ensures var ix' := Apply(sha, maxRecord, ix, e).value;
      && (forall id :: Lookup(ix'.records, id) ==
            if Puts(sha, maxRecord, e).Some? && Puts(sha, maxRecord, e).value.id == id then Puts(sha, maxRecord, e)
            else if Retires(maxRecord, e) == Some(id) then None
            else Lookup(ix.records, id))
      && ix'.coordinator == (if Saves(maxRecord, e).Some? then Saves(maxRecord, e) else ix.coordinator)
  {
    hide RecordCodec.DecodeRecord, RecordCodec.DecodeCoordinator, RecordCodec.DecodeId;
  }

  /** Replaying any log that can be replayed leaves, for every movement, the log's last word on it. */
  lemma {:induction false} ReplayHoldsLatest(sha: HashFn, maxRecord: nat, es: seq<Entry>)
    requires Replay(sha, maxRecord, EMPTY, es).Some?
    ensures var ix := Replay(sha, maxRecord, EMPTY, es).value;
      && (forall id :: Lookup(ix.records, id) == Latest(sha, maxRecord, es, id))
      && ix.coordinator == LatestState(maxRecord, es)
    decreases |es|
  {
    hide Apply, Puts, Saves, Retires;
    if es != [] {
      var e, before := es[|es| - 1], es[..|es| - 1];
      assert before + [e] == es;
      ReplaySnoc(sha, maxRecord, EMPTY, before, e);
      ReplayHoldsLatest(sha, maxRecord, before);
      AppliedEntry(sha, maxRecord, Replay(sha, maxRecord, EMPTY, before).value, e);
    }
  }

  /** So a store that is in step with a readable log holds the log's last word, as stored. */
  lemma HoldsLatest(sha: HashFn, o: Options, st: Store, id: Id16)
    requires Inv(sha, o, st) && Reopens(sha, o, st)
    ensures Latest(sha, o.maxRecord, st.log, id) ==
      (if id in st.ix.records then Some(Stored(st.ix.records[id])) else None)
    ensures LatestState(o.maxRecord, st.log) == st.ix.coordinator
  {
    hide IndexOk, Ordered, Replay, Latest, LatestState, Stored;
    ReplayHoldsLatest(sha, o.maxRecord, st.log);
    var ix := Forget(st.ix);
    assert Lookup(ix.records, id) == Latest(sha, o.maxRecord, st.log, id);
  }

  // ---- whole runs -----------------------------------------------------------------

  ghost predicate HealthyRun(sha: HashFn, o: Options, states: seq<Store>, ops: seq<Runs.Op>) {
    && ValidOptions(o) && Runs.IsRun(sha, o, states, ops)
    && forall i | 0 <= i < |ops| :: Runs.Healthy(ops[i])
  }

  lemma SoundAt(sha: HashFn, o: Options, states: seq<Store>, ops: seq<Runs.Op>, n: nat)
    requires HealthyRun(sha, o, states, ops) && n < |states|
    ensures Inv(sha, o, states[n]) && Reopens(sha, o, states[n]) && IndexOk(sha, o.maxRecord, states[n].ix)
  {
    hide Runs.IsStep, Runs.Healthy;
    Runs.RunReopens(sha, o, states, ops, n);
  }

  /** An accepted put of movement `id`. */
  predicate Replaces(sha: HashFn, o: Options, op: Runs.Op, id: Id16) {
    Accepted(sha, o, op) && op.r.id == id
  }

  /** Before step `n` some accepted put put this record. */
  ghost predicate WasPut(sha: HashFn, o: Options, ops: seq<Runs.Op>, n: nat, r: Record)
    requires n <= |ops|
  {
    exists k | 0 <= k < n :: Replaces(sha, o, ops[k], r.id) && SameRecord(ops[k], r)
  }

  predicate SameRecord(op: Runs.Op, r: Record) {
    op.Put? && Stored(op.r) == Stored(r)
  }

  ghost predicate WasSaved(ops: seq<Runs.Op>, n: nat, c: CoordinatorState)
    requires n <= |ops|
  {
    exists k | 0 <= k < n :: ops[k] == Runs.Save(c)
  }

  /** Everything held in memory and in the log was put or saved. */
  ghost predicate Traced(sha: HashFn, o: Options, ops: seq<Runs.Op>, n: nat, st: Store)
    requires n <= |ops|
  {
    && (forall id | id in st.ix.records :: WasPut(sha, o, ops, n, st.ix.records[id]))
    && (st.ix.coordinator.Some? ==> WasSaved(ops, n, st.ix.coordinator.value))
    && (forall i | 0 <= i < |st.log| :: EntryTraced(sha, o, ops, n, st.log[i]))
  }

  ghost predicate EntryTraced(sha: HashFn, o: Options, ops: seq<Runs.Op>, n: nat, e: Entry)
    requires n <= |ops|
  {
    && (Puts(sha, o.maxRecord, e).Some? ==> WasPut(sha, o, ops, n, Puts(sha, o.maxRecord, e).value))
    && (Saves(o.maxRecord, e).Some? ==> WasSaved(ops, n, Saves(o.maxRecord, e).value))
  }

  lemma WasPutLater(sha: HashFn, o: Options, ops: seq<Runs.Op>, n: nat, r: Record)
    requires n < |ops| && WasPut(sha, o, ops, n, r)
    ensures WasPut(sha, o, ops, n + 1, r)
  {
    hide Accepted, Stored;
  }

  lemma EntryTracedLater(sha: HashFn, o: Options, ops: seq<Runs.Op>, n: nat, e: Entry)
    requires n < |ops| && EntryTraced(sha, o, ops, n, e)
    ensures EntryTraced(sha, o, ops, n + 1, e)
  {
    hide WasPut, Puts, Saves;
    if Puts(sha, o.maxRecord, e).Some? { WasPutLater(sha, o, ops, n, Puts(sha, o.maxRecord, e).value); }
  }

  /** A put entry puts the record it was made of, as stored, and nothing else. */
  lemma PutEntry(sha: HashFn, o: Options, r: Record, sequence: u64)
    requires ValidOptions(o) && Encodable(sha, r) && |EncodeRecord(r)| <= o.maxRecord && Utf8.Accepts(r.lastDetail)
    ensures var e := Entry(MOVEMENT, sequence, EncodeRecord(r));
      Puts(sha, o.maxRecord, e) == Some(Stored(r)) && Saves(o.maxRecord, e).None?
  {
    RecordRoundTrip(sha, StoreLimits(o.maxRecord), r, []);
    hide EncodeRecord, Encodable, RecordCodec.DecodeRecord;
    assert EncodeRecord(r) + [] == EncodeRecord(r);
  }

  lemma SaveEntry(sha: HashFn, o: Options, c: CoordinatorState, sequence: u64)
    requires ValidOptions(o) && |EncodeCoordinator(c)| <= o.maxRecord && c.epoch != 0
    ensures var e := Entry(COORDINATOR, sequence, EncodeCoordinator(c));
      Puts(sha, o.maxRecord, e).None? && Saves(o.maxRecord, e) == Some(c)
  {
    CoordinatorRoundTrip(StoreLimits(o.maxRecord), c, []);
    hide EncodeCoordinator, RecordCodec.DecodeCoordinator;
    assert EncodeCoordinator(c) + [] == EncodeCoordinator(c);
  }

  /** Retirements add nothing but retirement entries to the log. */
  lemma {:induction false} RetiredLog(st: Store, ids: seq<Id16>)
    ensures var log := RetireAll(st, ids).log;
      st.log <= log && forall i | |st.log| <= i < |log| :: log[i].kind == RETIRE
    decreases |ids|
  {
    hide EncodeId;
    if ids != [] { RetiredLog(RetireOne(st, ids[0]), ids[1..]); }
  }

  /** The entries of `log'` are those of `log`, then perhaps `e`, then retirements. */
  predicate Extends(log: seq<Entry>, e: Entry, log': seq<Entry>) {
    && log <= log'
    && forall i | |log| <= i < |log'| :: (i == |log| && log'[i] == e) || log'[i].kind == RETIRE
  }

  lemma ExtendedTraced(
    sha: HashFn, o: Options, ops: seq<Runs.Op>, n: nat, log: seq<Entry>, e: Entry, log': seq<Entry>)
    requires n < |ops| && Extends(log, e, log') && EntryTraced(sha, o, ops, n + 1, e)
    requires forall i | 0 <= i < |log| :: EntryTraced(sha, o, ops, n, log[i])
    ensures forall i | 0 <= i < |log'| :: EntryTraced(sha, o, ops, n + 1, log'[i])
  {
    forall i | 0 <= i < |log'| ensures EntryTraced(sha, o, ops, n + 1, log'[i]) {
      if i < |log| { EntryTracedLater(sha, o, ops, n, log[i]); }
    }
  }

  /** Every record of `ix'` is an old one, or was put by step `n`. */
  lemma RecordsTraced(sha: HashFn, o: Options, ops: seq<Runs.Op>, n: nat, ix: Index, ix': Index)
    requires n < |ops| && forall id | id in ix.records :: WasPut(sha, o, ops, n, ix.records[id])
    requires forall id | id in ix'.records ::
      (id in ix.records && ix'.records[id] == ix.records[id]) ||
      (Accepted(sha, o, ops[n]) && ix'.records[id] == ops[n].r)
    ensures forall id | id in ix'.records :: WasPut(sha, o, ops, n + 1, ix'.records[id])
  {
    hide PutOutcome, Stored;
    forall id | id in ix'.records ensures WasPut(sha, o, ops, n + 1, ix'.records[id]) {
      if id in ix.records && ix'.records[id] == ix.records[id] {
        WasPutLater(sha, o, ops, n, ix.records[id]);
      } else {
        assert Replaces(sha, o, ops[n], ops[n].r.id) && SameRecord(ops[n], ix'.records[id]);
      }
    }
  }

  lemma PutLog(sha: HashFn, o: Options, st: Store, r: Record)
    requires |r.provenance.events| <= MAX_EVENTS && PutOutcome(sha, o, r).Done?
    ensures Extends(st.log, Entry(MOVEMENT, st.next % U64_LIMIT, EncodeRecord(r)), PutStep(sha, o, st, r).log)
  {
    hide EncodeRecord, ValidRecord, Victims;
    var logged := Logged(st, PutIn(st.ix, r), MOVEMENT, EncodeRecord(r));
    RetiredLog(logged, Victims(o, logged.ix));
  }

  lemma TracedPut(sha: HashFn, o: Options, ops: seq<Runs.Op>, n: nat, st: Store, r: Record)
    requires n < |ops| && ops[n] == Runs.Put(r) && Runs.Healthy(ops[n]) && Recordable(r)
    requires ValidOptions(o) && IndexOk(sha, o.maxRecord, st.ix) && Traced(sha, o, ops, n, st)
    ensures Traced(sha, o, ops, n + 1, PutStep(sha, o, st, r))
  {
    hide IndexOk, Puts, Saves, EncodeRecord, ValidRecord, Contiguous, Retain, WasPut, EntryTraced, Kept, Stored;
    var st' := PutStep(sha, o, st, r);
    var e := Entry(MOVEMENT, st.next % U64_LIMIT, if PutOutcome(sha, o, r).Done? then EncodeRecord(r) else []);
    if PutOutcome(sha, o, r).Done? {
      PutHolds(sha, o, st, r);
      PutLog(sha, o, st, r);
      NewEntryTraced(sha, o, ops, n, r, st.next % U64_LIMIT);
      hide PutStep, Accepted, PutOutcome;
      RecordsTraced(sha, o, ops, n, st.ix, st'.ix);
      ExtendedTraced(sha, o, ops, n, st.log, e, st'.log);
    } else {
      SameTraced(sha, o, ops, n, st);
    }
  }

  lemma NewEntryTraced(sha: HashFn, o: Options, ops: seq<Runs.Op>, n: nat, r: Record, sequence: u64)
    requires n < |ops| && ops[n] == Runs.Put(r) && Runs.Healthy(ops[n]) && Recordable(r) && ValidOptions(o)
    requires PutOutcome(sha, o, r).Done?
    ensures EntryTraced(sha, o, ops, n + 1, Entry(MOVEMENT, sequence, EncodeRecord(r)))
  {
    PutRecordOk(sha, o, r);
    hide EncodeRecord, ValidRecord, Contiguous, Puts, Saves;
    Utf8.AcceptsIffUtf8(r.lastDetail);
    PutEntry(sha, o, r, sequence);
    assert Replaces(sha, o, ops[n], Stored(r).id) && SameRecord(ops[n], Stored(r));
  }

  lemma SameTraced(sha: HashFn, o: Options, ops: seq<Runs.Op>, n: nat, st: Store)
    requires n < |ops| && Traced(sha, o, ops, n, st)
    ensures Traced(sha, o, ops, n + 1, st)
  {
    hide WasPut, EntryTraced;
    RecordsTraced(sha, o, ops, n, st.ix, st.ix);
    forall i | 0 <= i < |st.log| ensures EntryTraced(sha, o, ops, n + 1, st.log[i]) {
      EntryTracedLater(sha, o, ops, n, st.log[i]);
    }
  }

  lemma TracedRetire(sha: HashFn, o: Options, ops: seq<Runs.Op>, n: nat, st: Store, id: Id16)
    requires n < |ops| && IndexOk(sha, o.maxRecord, st.ix) && Traced(sha, o, ops, n, st)
    ensures Traced(sha, o, ops, n + 1, RetireStep(st, id))
  {
    hide IndexOk, WasPut, Kept, EncodeId;
    var st' := RetireStep(st, id);
    RetireHolds(sha, o, st, id);
    var e := Entry(RETIRE, st.next % U64_LIMIT, EncodeId(id));
    forall x | x in st'.ix.records ensures x in st.ix.records && st'.ix.records[x] == st.ix.records[x] {
      assert Lookup(st'.ix.records, x) == Lookup(st.ix.records, x);
    }
    RecordsTraced(sha, o, ops, n, st.ix, st'.ix);
    ExtendedTraced(sha, o, ops, n, st.log, e, st'.log);
  }

  lemma TracedSave(sha: HashFn, o: Options, ops: seq<Runs.Op>, n: nat, st: Store, c: CoordinatorState)
    requires n < |ops| && ops[n] == Runs.Save(c) && c.epoch != 0 && ValidOptions(o) && Traced(sha, o, ops, n, st)
    ensures Traced(sha, o, ops, n + 1, SaveStep(o, st, c))
  {
    hide WasPut, EncodeCoordinator, EntryTraced;
    var st' := SaveStep(o, st, c);
    if |EncodeCoordinator(c)| <= o.maxRecord {
      var e := Entry(COORDINATOR, st.next % U64_LIMIT, EncodeCoordinator(c));
      SavedEntryTraced(sha, o, ops, n, c, st.next % U64_LIMIT);
      RecordsTraced(sha, o, ops, n, st.ix, st'.ix);
      ExtendedTraced(sha, o, ops, n, st.log, e, st'.log);
    } else {
      SameTraced(sha, o, ops, n, st);
    }
  }

  lemma SavedEntryTraced(sha: HashFn, o: Options, ops: seq<Runs.Op>, n: nat, c: CoordinatorState, sequence: u64)
    requires n <= |ops| && ValidOptions(o) && |EncodeCoordinator(c)| <= o.maxRecord && c.epoch != 0
    requires WasSaved(ops, n, c) || (n < |ops| && ops[n] == Runs.Save(c))
    ensures n < |ops| ==> EntryTraced(sha, o, ops, n + 1, Entry(COORDINATOR, sequence, EncodeCoordinator(c)))
    ensures WasSaved(ops, n, c) ==> EntryTraced(sha, o, ops, n, Entry(COORDINATOR, sequence, EncodeCoordinator(c)))
  {
    hide EncodeCoordinator, Puts, Saves;
    SaveEntry(sha, o, c, sequence);
  }

  lemma LiveEntryTraced(sha: HashFn, o: Options, ops: seq<Runs.Op>, n: nat, r: Record, sequence: u64)
    requires n <= |ops| && ValidOptions(o) && RecordOk(sha, o.maxRecord, r.id, r) && Utf8.Accepts(r.lastDetail)
    requires WasPut(sha, o, ops, n, r)
    ensures EntryTraced(sha, o, ops, n, Entry(MOVEMENT, sequence, EncodeRecord(r)))
  {
    hide EncodeRecord, Encodable, Puts, Saves, Accepted;
    PutEntry(sha, o, r, sequence);
    assert Stored(Stored(r)) == Stored(r) && Stored(r).id == r.id;
  }

  lemma TracedCompact(sha: HashFn, o: Options, ops: seq<Runs.Op>, n: nat, st: Store)
    requires n < |ops| && ValidOptions(o) && IndexOk(sha, o.maxRecord, st.ix) && Clean(st.ix) && Compactable(st.ix)
    requires Traced(sha, o, ops, n, st)
    ensures Traced(sha, o, ops, n + 1, CompactStep(st))
  {
    hide WasPut, WasSaved, EncodeRecord, EncodeCoordinator, EntryTraced, RecordOk, CompactRecords;
    var ix, log := st.ix, CompactLog(st.ix);
    CompactEntries(ix, |ix.order|);
    forall i | 0 <= i < |log| ensures EntryTraced(sha, o, ops, n, log[i]) {
      if i < |ix.order| {
        var r := ix.records[ix.order[i]];
        RecordOkAt(sha, o.maxRecord, ix, ix.order[i]);
        LiveEntryTraced(sha, o, ops, n, r, i + 1);
      } else {
        SavedEntryTraced(sha, o, ops, n, ix.coordinator.value, |ix.order| + 1);
      }
    }
    SameTraced(sha, o, ops, n, CompactStep(st));
  }

  lemma RecordOkAt(sha: HashFn, maxRecord: nat, ix: Index, id: Id16)
    requires IndexOk(sha, maxRecord, ix) && id in ix.records
    ensures RecordOk(sha, maxRecord, ix.records[id].id, ix.records[id]) && ix.records[id].id == id
  {
  }

  /** What a log says last about a movement, one of its entries says. */
  lemma {:induction false} LatestFrom(sha: HashFn, maxRecord: nat, es: seq<Entry>, id: Id16) returns (j: nat)
    requires Latest(sha, maxRecord, es, id).Some?
    ensures j < |es| && Puts(sha, maxRecord, es[j]) == Latest(sha, maxRecord, es, id)
    ensures Latest(sha, maxRecord, es, id).value.id == id
    decreases |es|
  {
    hide Puts, Retires;
    var e, before := es[|es| - 1], es[..|es| - 1];
    if Puts(sha, maxRecord, e).Some? && Puts(sha, maxRecord, e).value.id == id {
      j := |es| - 1;
    } else {
      j := LatestFrom(sha, maxRecord, before, id);
    }
  }

  lemma {:induction false} LatestStateFrom(maxRecord: nat, es: seq<Entry>) returns (j: nat)
    requires LatestState(maxRecord, es).Some?
    ensures j < |es| && Saves(maxRecord, es[j]) == LatestState(maxRecord, es)
    decreases |es|
  {
    hide Saves;
    if Saves(maxRecord, es[|es| - 1]).Some? {
      j := |es| - 1;
    } else {
      j := LatestStateFrom(maxRecord, es[..|es| - 1]);
    }
  }

  /** A store replayed from a traced log is traced. */
  lemma ReplayTraced(sha: HashFn, o: Options, ops: seq<Runs.Op>, n: nat, st: Store)
    requires n <= |ops| && Some(st.ix) == Replay(sha, o.maxRecord, EMPTY, st.log)
    requires forall i | 0 <= i < |st.log| :: EntryTraced(sha, o, ops, n, st.log[i])
    ensures Traced(sha, o, ops, n, st)
  {
    hide WasPut, WasSaved, Replay, Latest, LatestState, Puts, Saves;
    ReplayHoldsLatest(sha, o.maxRecord, st.log);
    forall id | id in st.ix.records ensures WasPut(sha, o, ops, n, st.ix.records[id]) {
      assert Lookup(st.ix.records, id) == Latest(sha, o.maxRecord, st.log, id);
      var j := LatestFrom(sha, o.maxRecord, st.log, id);
      assert EntryTraced(sha, o, ops, n, st.log[j]);
    }
    if st.ix.coordinator.Some? {
      var j := LatestStateFrom(o.maxRecord, st.log);
      assert EntryTraced(sha, o, ops, n, st.log[j]);
    }
  }

  lemma TracedCrash(sha: HashFn, o: Options, ops: seq<Runs.Op>, n: nat, st: Store, cut: nat)
    requires n < |ops| && Inv(sha, o, st) && Reopens(sha, o, st) && cut <= |Frames(sha, st.log)|
    requires Traced(sha, o, ops, n, st)
    ensures ReopenStep(sha, o, st, cut).Some? && Traced(sha, o, ops, n + 1, ReopenStep(sha, o, st, cut).value)
  {
    hide Inv, Reopens, WasPut, WasSaved, EntryTraced, Replay, ReopenStep, Frames, WholeWithin;
    ReopenInv(sha, o, st, cut);
    var st', k := ReopenStep(sha, o, st, cut).value, WholeWithin(sha, st.log, cut);
    ReplayTraced(sha, o, ops, n, st');
    SameTraced(sha, o, ops, n, st');
  }

  lemma {:induction false} RunTraced(sha: HashFn, o: Options, states: seq<Store>, ops: seq<Runs.Op>, n: nat)
    requires HealthyRun(sha, o, states, ops) && n < |states|
    ensures Traced(sha, o, ops, n, states[n])
  {
    hide Traced, Inv, Reopens, IndexOk, Compactable, PutStep, RetireStep, SaveStep, CompactStep, ReopenStep, Clean;
    if n == 0 {
      FreshTraced(sha, o, ops);
    } else {
      RunTraced(sha, o, states, ops, n - 1);
      SoundAt(sha, o, states, ops, n - 1);
      var st := states[n - 1];
      assert Runs.IsStep(sha, o, st, ops[n - 1], states[n]);
      assert Runs.Healthy(ops[n - 1]);
      match ops[n - 1]
      case Put(r) => TracedPut(sha, o, ops, n - 1, st, r);
      case Retire(id) => TracedRetire(sha, o, ops, n - 1, st, id);
      case Save(c) => TracedSave(sha, o, ops, n - 1, st, c);
      case Compact =>
        Runs.ReadableIsClean(sha, o, st);
        TracedCompact(sha, o, ops, n - 1, st);
      case Crash(cut) => TracedCrash(sha, o, ops, n - 1, st, cut);
    }
  }

  lemma FreshTraced(sha: HashFn, o: Options, ops: seq<Runs.Op>)
    ensures Traced(sha, o, ops, 0, FRESH)
  {
  }

  // ---- the last put that survives ---------------------------------------------------

  /** After step `k` every accepted put of `id` up to `n` was followed by a crash. */
  ghost predicate LastSurviving(sha: HashFn, o: Options, ops: seq<Runs.Op>, k: nat, n: nat, id: Id16)
    requires n <= |ops|
  {
    forall j | k < j < n && Replaces(sha, o, ops[j], id) :: CrashAfter(ops, j, n)
  }

  ghost predicate CrashAfter(ops: seq<Runs.Op>, j: nat, n: nat)
    requires n <= |ops|
  {
    exists l | j < l < n :: ops[l].Crash?
  }

  lemma CrashLater(ops: seq<Runs.Op>, j: nat, n: nat)
    requires n < |ops| && CrashAfter(ops, j, n)
    ensures CrashAfter(ops, j, n + 1)
  {
  }

  /** A step that neither puts `id` nor crashes leaves its record, if it is still there. */
  lemma OtherStep(sha: HashFn, o: Options, st: Store, op: Runs.Op, st': Store, id: Id16)
    requires IndexOk(sha, o.maxRecord, st.ix) && Runs.IsStep(sha, o, st, op, st') && !op.Crash?
    requires !Replaces(sha, o, op, id) && id in st'.ix.records
    ensures id in st.ix.records && st'.ix.records[id] == st.ix.records[id]
  {
    hide IndexOk, PutStep, RetireStep, SaveStep, Kept, Accepted, Contiguous;
    match op
    case Put(r) =>
      if Accepted(sha, o, op) { AcceptedDone(sha, o, r); PutHolds(sha, o, st, r); } else { Refused(sha, o, st, r); }
    case Retire(x) =>
      RetireHolds(sha, o, st, x);
      assert Lookup(st'.ix.records, id) == if id == x then None else Lookup(st.ix.records, id);
    case Save(c) => SaveHolds(o, st, c);
    case Compact =>
  }

  lemma AcceptedDone(sha: HashFn, o: Options, r: Record)
    requires Accepted(sha, o, Runs.Put(r))
    ensures |r.provenance.events| <= MAX_EVENTS && PutOutcome(sha, o, r).Done?
  {
  }

  lemma Refused(sha: HashFn, o: Options, st: Store, r: Record)
    requires |r.provenance.events| <= MAX_EVENTS && !Accepted(sha, o, Runs.Put(r))
    ensures PutStep(sha, o, st, r) == st
  {
    hide ValidRecord, EncodeRecord, Retain;
  }

  /**
    In every run, crashes and compactions included: the record held for a movement is that of
    its last accepted put that no crash took away, unchanged while there has been no crash
    since, and otherwise up to the provenance bound, which a log does not carry.
   */
  lemma {:induction false} LastPutHeld(
    sha: HashFn, o: Options, states: seq<Store>, ops: seq<Runs.Op>, n: nat, id: Id16) returns (k: nat)
    requires HealthyRun(sha, o, states, ops) && n < |states| && id in states[n].ix.records
    ensures k < n && Replaces(sha, o, ops[k], id)
    ensures Stored(states[n].ix.records[id]) == Stored(ops[k].r)
    ensures LastSurviving(sha, o, ops, k, n, id)
    ensures !CrashAfter(ops, k, n) ==> states[n].ix.records[id] == ops[k].r
    decreases n
  {
    hide Inv, Reopens, IndexOk, Accepted, Replaces, Stored, Traced, Runs.IsStep, Runs.Healthy;
    if n == 0 {
      assert false;
    } else {
      var op := ops[n - 1];
      SoundAt(sha, o, states, ops, n - 1);
      if op.Crash? {
        RunTraced(sha, o, states, ops, n);
        SoundAt(sha, o, states, ops, n);
        RecordOkAt(sha, o.maxRecord, states[n].ix, id);
        k := CrashedPut(sha, o, ops, n, states[n], id);
      } else if Replaces(sha, o, op, id) {
        k := n - 1;
        PutStepHolds(sha, o, states[n - 1], op, states[n], id);
      } else {
        OtherStep(sha, o, states[n - 1], op, states[n], id);
        k := LastPutHeld(sha, o, states, ops, n - 1, id);
        SurvivesStep(sha, o, ops, k, n - 1, id);
      }
    }
  }

  lemma SurvivesStep(sha: HashFn, o: Options, ops: seq<Runs.Op>, k: nat, n: nat, id: Id16)
    requires k < n < |ops| && LastSurviving(sha, o, ops, k, n, id) && !ops[n].Crash?
    requires !Replaces(sha, o, ops[n], id)
    ensures LastSurviving(sha, o, ops, k, n + 1, id) && (CrashAfter(ops, k, n + 1) ==> CrashAfter(ops, k, n))
  {
    hide Replaces;
    forall j | k < j < n + 1 && Replaces(sha, o, ops[j], id) ensures CrashAfter(ops, j, n + 1) {
      CrashLater(ops, j, n);
    }
  }

  lemma PutStepHolds(sha: HashFn, o: Options, st: Store, op: Runs.Op, st': Store, id: Id16)
    requires IndexOk(sha, o.maxRecord, st.ix) && Runs.IsStep(sha, o, st, op, st') && Replaces(sha, o, op, id)
    ensures op.Put? && (id in st'.ix.records ==> st'.ix.records[id] == op.r)
  {
    hide IndexOk, PutStep, Kept, Contiguous;
    PutHolds(sha, o, st, op.r);
  }

  /** Right after a crash, what is held was put some time before. */
  lemma CrashedPut(sha: HashFn, o: Options, ops: seq<Runs.Op>, n: nat, st: Store, id: Id16) returns (k: nat)
    requires 0 < n <= |ops| && ops[n - 1].Crash? && Traced(sha, o, ops, n, st) && id in st.ix.records
    requires st.ix.records[id].id == id
    ensures k < n - 1 && Replaces(sha, o, ops[k], id) && Stored(st.ix.records[id]) == Stored(ops[k].r)
    ensures LastSurviving(sha, o, ops, k, n, id) && CrashAfter(ops, k, n)
  {
    hide EntryTraced, LastSurviving, CrashAfter, Replaces, SameRecord;
    assert WasPut(sha, o, ops, n, st.ix.records[id]);
    k :| 0 <= k < n && Replaces(sha, o, ops[k], id) && SameRecord(ops[k], st.ix.records[id]);
    IsPut(ops[k], st.ix.records[id]);
    AllLost(sha, o, ops, k, n, id);
  }

  lemma ReplacesPut(sha: HashFn, o: Options, op: Runs.Op, id: Id16)
    requires Replaces(sha, o, op, id)
    ensures op.Put?
  {
  }

  lemma IsPut(op: Runs.Op, r: Record)
    ensures SameRecord(op, r) ==> op.Put? && Stored(op.r) == Stored(r)
  {
  }

  lemma AllLost(sha: HashFn, o: Options, ops: seq<Runs.Op>, k: nat, n: nat, id: Id16)
    requires 0 < n <= |ops| && ops[n - 1].Crash? && k < n - 1
    ensures LastSurviving(sha, o, ops, k, n, id) && CrashAfter(ops, k, n)
  {
    forall j | k <= j < n - 1 ensures CrashAfter(ops, j, n) {
      assert ops[n - 1].Crash?;
    }
    forall j | k < j < n && Replaces(sha, o, ops[j], id) ensures j < n - 1 { ReplacesPut(sha, o, ops[j], id); }
    hide Replaces;
  }

  /** A step that does not crash and neither retires nor puts an open movement leaves its record. */
  lemma OpenStep(sha: HashFn, o: Options, st: Store, op: Runs.Op, st': Store, id: Id16)
    requires IndexOk(sha, o.maxRecord, st.ix) && Runs.IsStep(sha, o, st, op, st') && !op.Crash?
    requires !Replaces(sha, o, op, id) && op != Runs.Retire(id)
    requires id in st.ix.records && !Terminal(st.ix.records[id].state)
    ensures id in st'.ix.records && st'.ix.records[id] == st.ix.records[id]
  {
    hide IndexOk, PutStep, RetireStep, SaveStep, Kept, Accepted, Contiguous;
    match op
    case Put(r) =>
      if Accepted(sha, o, op) { AcceptedDone(sha, o, r); PutHolds(sha, o, st, r); } else { Refused(sha, o, st, r); }
    case Retire(x) =>
      RetireHolds(sha, o, st, x);
      assert Lookup(st'.ix.records, id) == Lookup(st.ix.records, id);
    case Save(c) => SaveHolds(o, st, c);
    case Compact =>
  }

  /**
    In every run: an open movement whose put was accepted at step `k` is held, exactly as put,
    until it is put again, retired by name, or the process crashes.
   */
  lemma {:induction false} OpenPutStays(
    sha: HashFn, o: Options, states: seq<Store>, ops: seq<Runs.Op>, k: nat, n: nat, id: Id16)
    requires HealthyRun(sha, o, states, ops) && k < n < |states|
    requires Replaces(sha, o, ops[k], id) && !Terminal(ops[k].r.state)
    requires forall j | k < j < n :: !Replaces(sha, o, ops[j], id) && ops[j] != Runs.Retire(id) && !ops[j].Crash?
    ensures id in states[n].ix.records && states[n].ix.records[id] == ops[k].r
    decreases n
  {
    hide Inv, Reopens, IndexOk, Accepted, Replaces, Runs.IsStep, Runs.Healthy;
    SoundAt(sha, o, states, ops, n - 1);
    if n == k + 1 {
      OpenPutStep(sha, o, states[k], ops[k], states[n], id);
    } else {
      OpenPutStays(sha, o, states, ops, k, n - 1, id);
      OpenStep(sha, o, states[n - 1], ops[n - 1], states[n], id);
    }
  }

  lemma OpenPutStep(sha: HashFn, o: Options, st: Store, op: Runs.Op, st': Store, id: Id16)
    requires IndexOk(sha, o.maxRecord, st.ix) && Runs.IsStep(sha, o, st, op, st') && Replaces(sha, o, op, id)
    requires !Terminal(op.r.state)
    ensures id in st'.ix.records && st'.ix.records[id] == op.r
  {
    hide IndexOk, PutStep, Kept, Contiguous;
    PutHolds(sha, o, st, op.r);
  }

  /** After a crash the store holds, of every movement, the last word among the entries wholly before the cut. */
  lemma CrashHolds(sha: HashFn, o: Options, st: Store, cut: nat, id: Id16)
    requires Inv(sha, o, st) && Reopens(sha, o, st) && cut <= |Frames(sha, st.log)|
    ensures ReopenStep(sha, o, st, cut).Some?
    ensures var ix, whole := ReopenStep(sha, o, st, cut).value.ix, st.log[..WholeWithin(sha, st.log, cut)];
      && Lookup(ix.records, id) == Latest(sha, o.maxRecord, whole, id)
      && ix.coordinator == LatestState(o.maxRecord, whole)
  {
    hide Inv, Reopens, Replay, ReopenStep, Frames, WholeWithin, Latest, LatestState;
    ReopenInv(sha, o, st, cut);
    ReplayHoldsLatest(sha, o.maxRecord, st.log[..WholeWithin(sha, st.log, cut)]);
  }

  /**
    In every run, crashes and compactions included, every record held stands under its own id
    and is one that `validate` lets through: two different endpoints, each bound to its own
    incarnation, generations set, the object under its derived identity, attempts and chunks
    within bounds, and a marker digest if it is COMMITTED.
   */
  lemma HeldIsValid(sha: HashFn, o: Options, states: seq<Store>, ops: seq<Runs.Op>, n: nat, id: Id16)
    requires HealthyRun(sha, o, states, ops) && n < |states| && id in states[n].ix.records
    ensures var r := states[n].ix.records[id];
      && r.id == id && !IsZero(id) && r.generation > 0 && r.topologyGeneration > 0 && r.policyGeneration > 0
      && r.source != r.destination && r.source != [] && r.destination != []
      && r.sourceIncarnation.endpoint == r.source && r.destinationIncarnation.endpoint == r.destination
      && r.sourceIncarnation.IsSet() && r.destinationIncarnation.IsSet()
      && StateObject.DeriveId(sha, r.descriptor.kind, r.descriptor.name) == r.descriptor.objectId
      && StateObject.ValidSegmentation(r.descriptor) && r.descriptor.generation > 0
      && r.attemptCount <= MAX_ATTEMPTS && r.chunksVerified <= r.descriptor.chunkCount && |r.lastDetail| <= MAX_DETAIL
      && (r.state.Committed? ==> !IsZero(r.commitMarkerDigest))
  {
    SoundAt(sha, o, states, ops, n);
    hide HealthyRun, Inv, Reopens, IndexOk, StateObject.DeriveId, StateObject.ValidSegmentation, EncodeRecord;
    RecordOkAt(sha, o.maxRecord, states[n].ix, id);
  }

  /** The same for coordinator state: the last save that no crash took away. */
  lemma {:induction false} LastSaveHeld(
    sha: HashFn, o: Options, states: seq<Store>, ops: seq<Runs.Op>, n: nat) returns (k: nat)
    requires HealthyRun(sha, o, states, ops) && n < |states| && states[n].ix.coordinator.Some?
    ensures k < n && ops[k] == Runs.Save(states[n].ix.coordinator.value)
    ensures forall j | k < j < n && ops[j].Save? && |EncodeCoordinator(ops[j].c)| <= o.maxRecord ::
      CrashAfter(ops, j, n)
    decreases n
  {
    hide Inv, Reopens, IndexOk, Runs.IsStep, Runs.Healthy, EncodeCoordinator;
    if n == 0 {
      assert false;
    } else {
      var op := ops[n - 1];
      SoundAt(sha, o, states, ops, n - 1);
      if op.Crash? {
        RunTraced(sha, o, states, ops, n);
        assert WasSaved(ops, n, states[n].ix.coordinator.value);
        k :| 0 <= k < n && ops[k] == Runs.Save(states[n].ix.coordinator.value);
        forall j | k < j < n && ops[j].Save? ensures CrashAfter(ops, j, n) { assert ops[n - 1].Crash?; }
      } else if op.Save? && |EncodeCoordinator(op.c)| <= o.maxRecord {
        k := n - 1;
        StateStep(sha, o, states[n - 1], op, states[n]);
      } else {
        StateStep(sha, o, states[n - 1], op, states[n]);
        k := LastSaveHeld(sha, o, states, ops, n - 1);
        forall j | k < j < n && ops[j].Save? && |EncodeCoordinator(ops[j].c)| <= o.maxRecord
          ensures CrashAfter(ops, j, n)
        {
          CrashLater(ops, j, n - 1);
        }
      }
    }
  }

  lemma StateStep(sha: HashFn, o: Options, st: Store, op: Runs.Op, st': Store)
    requires IndexOk(sha, o.maxRecord, st.ix) && Runs.IsStep(sha, o, st, op, st') && !op.Crash?
    ensures st'.ix.coordinator ==
      if op.Save? && |EncodeCoordinator(op.c)| <= o.maxRecord then Some(op.c) else st.ix.coordinator
  {
    hide IndexOk, PutStep, RetireStep, SaveStep, Kept, Accepted, Contiguous, EncodeCoordinator;
    match op
    case Put(r) =>
      if Accepted(sha, o, op) { AcceptedDone(sha, o, r); PutHolds(sha, o, st, r); } else { Refused(sha, o, st, r); }
    case Retire(x) => RetireHolds(sha, o, st, x);
    case Save(c) => SaveHolds(o, st, c);
    case Compact =>
  }
}
