/**
  The movement store (src/movement_store.cpp): the in-memory index and the log
  kept in step across put, retire, retention, coordinator saves, compaction,
  crashes that tear the log, and reopening.
 */
module MovementStore {
  import opened Types
  import Codec
  import Utf8
  import opened Movement
  import opened RecordCodec
  import opened MovementLog

  datatype Options = Options(maxRecord: nat, maxHistory: nat, retention: nat)

  predicate ValidOptions(o: Options) {
    0 < o.maxRecord <= MAX_RECORD_CEILING && o.maxHistory > 0
  }

  /** An index, the log behind it, and the next sequence number (not reduced modulo 2^64). */
  datatype Store = Store(ix: Index, log: seq<Entry>, next: nat)

  const FRESH := Store(EMPTY, [], 1)

  // ---- operations -----------------------------------------------------------

  /** `append_record`: the sequence number is written in 64 bits. */
  function Logged(st: Store, ix: Index, kind: byte, payload: Bytes): Store {
    Store(ix, st.log + [Entry(kind, st.next % U64_LIMIT, payload)], st.next + 1)
  }

  function RetireOne(st: Store, id: Id16): Store {
    Logged(st, RetireIn(st.ix, id), RETIRE, EncodeId(id))
  }

  function RetireAll(st: Store, ids: seq<Id16>): Store
    decreases |ids|
  {
    if ids == [] then st else RetireAll(RetireOne(st, ids[0]), ids[1..])
  }

  predicate IsTerminal(ix: Index, id: Id16) {
    id in ix.records && Terminal(ix.records[id].state)
  }

  /** The terminal movements, oldest first. */
  function Terminals(ix: Index, order: seq<Id16>): seq<Id16> {
    if order == [] then []
    else if IsTerminal(ix, order[0]) then [order[0]] + Terminals(ix, order[1..])
    else Terminals(ix, order[1..])
  }

  predicate RetentionDue(o: Options, ix: Index) {
    o.retention != 0 && |ix.records| > o.retention && |ix.records| > o.maxHistory
  }

  function Victims(o: Options, ix: Index): seq<Id16> {
    if !RetentionDue(o, ix) then []
    else Terminals(ix, ix.order)[..Codec.Min(|ix.records| - o.retention, |Terminals(ix, ix.order)|)]
  }

  function Retain(o: Options, st: Store): Store {
    RetireAll(st, Victims(o, st.ix))
  }

  /** The type of a record's provenance keeps it contiguous and under the hard ceiling. */
  ghost predicate Recordable(r: Record) {
    Contiguous(r.provenance) && |r.provenance.events| <= MAX_EVENTS
  }

  datatype Outcome = Done | InvalidRecord | Oversized | NotFound

  function PutOutcome(sha: HashFn, o: Options, r: Record): Outcome
    requires |r.provenance.events| <= MAX_EVENTS
  {
    if !ValidRecord(sha, r) then InvalidRecord
    else if |EncodeRecord(r)| > o.maxRecord then Oversized
    else Done
  }

  function PutStep(sha: HashFn, o: Options, st: Store, r: Record): Store
    requires |r.provenance.events| <= MAX_EVENTS
  {
    if PutOutcome(sha, o, r).Done?
    then Retain(o, Logged(st, PutIn(st.ix, r), MOVEMENT, EncodeRecord(r)))
    else st
  }

  function RetireStep(st: Store, id: Id16): Store {
    if id in st.ix.records then RetireOne(st, id) else st
  }

  function SaveStep(o: Options, st: Store, c: CoordinatorState): Store {
    if |EncodeCoordinator(c)| > o.maxRecord then st
    else Logged(st, SaveIn(st.ix, c), COORDINATOR, EncodeCoordinator(c))
  }

  /** The entries compaction writes: live records in order, then the coordinator state, from one. */
  function CompactRecords(ix: Index, k: nat): seq<Entry>
    requires k <= |ix.order| < U64_LIMIT
    requires forall i | 0 <= i < |ix.order| :: ix.order[i] in ix.records
    requires forall id | id in ix.records :: |ix.records[id].provenance.events| <= MAX_EVENTS
  {
    if k == 0 then []
    else CompactRecords(ix, k - 1) + [Entry(MOVEMENT, k, EncodeRecord(ix.records[ix.order[k - 1]]))]
  }

  predicate Compactable(ix: Index) {
    && LiveCount(ix) < U64_LIMIT
    && (forall i | 0 <= i < |ix.order| :: ix.order[i] in ix.records)
    && (forall id | id in ix.records :: |ix.records[id].provenance.events| <= MAX_EVENTS)
  }

  function CompactLog(ix: Index): seq<Entry>
    requires Compactable(ix)
  {
    var live := CompactRecords(ix, |ix.order|);
    match ix.coordinator
    case None => live
    case Some(c) => live + [Entry(COORDINATOR, |ix.order| + 1, EncodeCoordinator(c))]
  }

  /** Renumbers from one; the counter is left where it was. */
  function CompactStep(st: Store): Store
    requires Compactable(st.ix)
  {
    Store(st.ix, CompactLog(st.ix), st.next)
  }

  /** A crash leaves the first `cut` bytes of the record area; the store is then opened again. */
  function ReopenStep(sha: HashFn, o: Options, st: Store, cut: nat): Option<Store>
    requires cut <= |Frames(sha, st.log)|
  {
    match Recover(sha, o.maxRecord, Frames(sha, st.log)[..cut], EMPTY, 0)
    case Rejected => None
    case Recovered(ix, last, es, _) => Some(Store(ix, es, last + 1))
  }

  // ---- the invariant --------------------------------------------------------

  /** What reading an index back can restore: everything but provenance bounds. */
  function Forget(ix: Index): Index {
    ix.(records := map id | id in ix.records :: Stored(ix.records[id]))
  }

  ghost predicate NoDuplicates(order: seq<Id16>) {
    forall i, j | 0 <= i < j < |order| :: order[i] != order[j]
  }

  ghost predicate RecordOk(sha: HashFn, maxRecord: nat, id: Id16, r: Record) {
    r.id == id && Encodable(sha, r) && |EncodeRecord(r)| <= maxRecord
  }

  /** The order lists exactly the live records, each once, and every record could be written again. */
  ghost predicate IndexOk(sha: HashFn, maxRecord: nat, ix: Index) {
    && NoDuplicates(ix.order)
    && (forall i | 0 <= i < |ix.order| :: ix.order[i] in ix.records)
    && (forall id | id in ix.records :: id in ix.order && RecordOk(sha, maxRecord, id, ix.records[id]))
    && (ix.coordinator.Some? ==> |EncodeCoordinator(ix.coordinator.value)| <= maxRecord)
  }

  function LiveCount(ix: Index): nat {
    |ix.order| + if ix.coordinator.Some? then 1 else 0
  }

  /**
    The counting clause is what makes appending after a compaction safe: compaction
    renumbers from one without resetting the counter, and the counter is already
    past the number of live entries.
   */
  ghost predicate Inv(sha: HashFn, o: Options, st: Store) {
    && ValidOptions(o)
    && IndexOk(sha, o.maxRecord, st.ix)
    && Ordered(o.maxRecord, st.log, 0)
    && LastSequence(st.log, 0) < st.next
    && LiveCount(st.ix) < st.next
    && (Replay(sha, o.maxRecord, EMPTY, st.log).Some? ==>
        Replay(sha, o.maxRecord, EMPTY, st.log) == Some(Forget(st.ix)))
  }

  /** The log reads back. */
  ghost predicate Reopens(sha: HashFn, o: Options, st: Store) {
    Replay(sha, o.maxRecord, EMPTY, st.log).Some?
  }

  // ---- one appended entry ---------------------------------------------------

  lemma RecordAt(sha: HashFn, maxRecord: nat, ix: Index, id: Id16)
    requires IndexOk(sha, maxRecord, ix) && id in ix.records
    ensures var r := ix.records[id];
      r.id == id && Encodable(sha, r) && |r.provenance.events| <= MAX_EVENTS && |EncodeRecord(r)| <= maxRecord
  {
    assert RecordOk(sha, maxRecord, id, ix.records[id]);
  }

  lemma OrderedSnoc(maxRecord: nat, es: seq<Entry>, e: Entry)
    requires Ordered(maxRecord, es, 0) && |e.payload| <= maxRecord && LastSequence(es, 0) < e.sequence
    ensures Ordered(maxRecord, es + [e], 0) && LastSequence(es + [e], 0) == e.sequence
  {
    var fs := es + [e];
    forall i, j | 0 <= i < j < |fs| ensures fs[i].sequence < fs[j].sequence {
      if j == |es| && i < |es| - 1 { assert es[i].sequence < es[|es| - 1].sequence; }
    }
  }

  /** Appending an entry keeps the invariant when the index moves as the entry says. */
  lemma LoggedKeepsInv(sha: HashFn, o: Options, st: Store, ix: Index, kind: byte, payload: Bytes)
    requires Inv(sha, o, st) && st.next < U64_LIMIT && |payload| <= o.maxRecord
    requires IndexOk(sha, o.maxRecord, ix) && LiveCount(ix) <= LiveCount(st.ix) + 1
    requires var e := Entry(kind, st.next, payload);
      Decodes(sha, o.maxRecord, e) ==> Apply(sha, o.maxRecord, Forget(st.ix), e) == Some(Forget(ix))
    ensures Inv(sha, o, Logged(st, ix, kind, payload))
    ensures Reopens(sha, o, Logged(st, ix, kind, payload)) <==>
      Reopens(sha, o, st) && Decodes(sha, o.maxRecord, Entry(kind, st.next, payload))
  {
    hide RecordOk, IndexOk, Apply, Forget;
    var e := Entry(kind, st.next, payload);
    OrderedSnoc(o.maxRecord, st.log, e);
    ReplaySnoc(sha, o.maxRecord, EMPTY, st.log, e);
    AppliesIff(sha, o.maxRecord, Forget(st.ix), e);
  }

  /** A put entry decodes exactly when the detail text is UTF-8, and puts the record as stored. */
  lemma ApplyPut(sha: HashFn, o: Options, ix: Index, r: Record, sequence: u64)
    requires ValidOptions(o) && Encodable(sha, r) && |EncodeRecord(r)| <= o.maxRecord
    ensures Apply(sha, o.maxRecord, ix, Entry(MOVEMENT, sequence, EncodeRecord(r))) ==
      if Utf8.Accepts(r.lastDetail) then Some(PutIn(ix, Stored(r))) else None
  {
    var limits := StoreLimits(o.maxRecord);
    RecordRoundTrip(sha, limits, r, []);
    assert EncodeRecord(r) + [] == EncodeRecord(r);
  }

  lemma ApplySave(sha: HashFn, o: Options, ix: Index, c: CoordinatorState, sequence: u64)
    requires |EncodeCoordinator(c)| <= o.maxRecord
    ensures Apply(sha, o.maxRecord, ix, Entry(COORDINATOR, sequence, EncodeCoordinator(c))) ==
      if c.epoch != 0 then Some(SaveIn(ix, c)) else None
  {
    CoordinatorRoundTrip(StoreLimits(o.maxRecord), c, []);
    assert EncodeCoordinator(c) + [] == EncodeCoordinator(c);
  }

  lemma IdFits(sha: HashFn, o: Options, r: Record)
    requires |r.provenance.events| <= MAX_EVENTS && |EncodeRecord(r)| <= o.maxRecord
    ensures forall id: Id16 :: |EncodeId(id)| <= o.maxRecord && ID_BYTES <= o.maxRecord
  {
    forall id: Id16 ensures |EncodeId(id)| <= o.maxRecord && ID_BYTES <= o.maxRecord {
      IdSize(id);
      IdSize(r.id);
      IdentitySize(r);
    }
  }

  lemma IdSize(id: Id16)
    ensures |EncodeId(id)| == 24
  {
    var vs := [Codec.Raw(id)];
    assert Codec.Write(RETIRE_FIELDS[0], vs[0]) == Codec.LE(16, 8) + id;
    assert Codec.WriteAll(RETIRE_FIELDS[1..], vs[1..]) == [];
  }

  lemma IdentitySize(r: Record)
    ensures |EncodeIdentity(r)| >= 24
  {
    IdentityShaped(r);
    assert Codec.Write(IDENTITY_FIELDS[0], IdentityValues(r)[0]) == Codec.LE(16, 8) + r.id;
  }

  lemma ApplyRetire(sha: HashFn, o: Options, ix: Index, id: Id16, sequence: u64)
    requires ValidOptions(o) && |EncodeId(id)| <= o.maxRecord && ID_BYTES <= o.maxRecord
    ensures Apply(sha, o.maxRecord, ix, Entry(RETIRE, sequence, EncodeId(id))) == Some(RetireIn(ix, id))
  {
    IdRoundTrip(StoreLimits(o.maxRecord), id, []);
    assert EncodeId(id) + [] == EncodeId(id);
  }

  // ---- index changes --------------------------------------------------------

  lemma ForgetPut(ix: Index, r: Record)
    ensures Forget(PutIn(ix, r)) == PutIn(Forget(ix), Stored(r))
  {
    assert Stored(r).id == r.id;
    hide Stored;
    assert Forget(PutIn(ix, r)).records == Forget(ix).records[r.id := Stored(r)];
  }

  lemma PutInOk(sha: HashFn, maxRecord: nat, ix: Index, r: Record)
    requires IndexOk(sha, maxRecord, ix) && RecordOk(sha, maxRecord, r.id, r)
    ensures IndexOk(sha, maxRecord, PutIn(ix, r)) && LiveCount(PutIn(ix, r)) <= LiveCount(ix) + 1
  {
    hide RecordOk;
    var ix' := PutIn(ix, r);
    forall id | id in ix'.records ensures id in ix'.order && RecordOk(sha, maxRecord, id, ix'.records[id]) {
      if id != r.id { assert id in ix.records; }
    }
  }

  lemma {:induction false} WithoutIs(order: seq<Id16>, id: Id16)
    requires NoDuplicates(order)
    ensures NoDuplicates(Without(order, id))
    ensures forall x :: x in Without(order, id) <==> x in order && x != id
    ensures |Without(order, id)| == if id in order then |order| - 1 else |order|
  {
    if order != [] {
      var rest := order[1..];
      WithoutIs(rest, id);
      assert forall x :: x in order <==> x == order[0] || x in rest;
      assert order[0] !in rest;
    }
  }

  lemma RetireInOrder(ix: Index, id: Id16)
    requires NoDuplicates(ix.order) && id in ix.records
    requires forall i | 0 <= i < |ix.order| :: ix.order[i] in ix.records
    requires forall x | x in ix.records :: x in ix.order
    ensures var ix' := RetireIn(ix, id);
      && NoDuplicates(ix'.order)
      && (forall i | 0 <= i < |ix'.order| :: ix'.order[i] in ix'.records)
      && (forall x | x in ix'.records :: x in ix'.order)
  {
    WithoutIs(ix.order, id);
    var ix' := RetireIn(ix, id);
    forall i | 0 <= i < |ix'.order| ensures ix'.order[i] in ix'.records {
      assert ix'.order[i] in Without(ix.order, id);
    }
  }

  lemma RetireForgotten(ix: Index, id: Id16)
    ensures Forget(RetireIn(ix, id)) == RetireIn(Forget(ix), id)
  {
    hide Without, Stored;
    assert id in ix.records ==> Forget(RetireIn(ix, id)).records == Forget(ix).records - {id};
  }

  lemma RetireInOk(sha: HashFn, maxRecord: nat, ix: Index, id: Id16)
    requires IndexOk(sha, maxRecord, ix)
    ensures IndexOk(sha, maxRecord, RetireIn(ix, id)) && LiveCount(RetireIn(ix, id)) <= LiveCount(ix)
    ensures Forget(RetireIn(ix, id)) == RetireIn(Forget(ix), id)
  {
    hide RecordOk, Forget, EncodeCoordinator, Without, NoDuplicates;
    RetireForgotten(ix, id);
    if id in ix.records {
      WithoutIs(ix.order, id);
      RetireInOrder(ix, id);
    }
  }

  // ---- each operation keeps the invariant -----------------------------------

  lemma RetireOneInv(sha: HashFn, o: Options, st: Store, id: Id16)
    requires Inv(sha, o, st) && st.next < U64_LIMIT && id in st.ix.records
    ensures Inv(sha, o, RetireOne(st, id))
    ensures Reopens(sha, o, RetireOne(st, id)) <==> Reopens(sha, o, st)
  {
    IdFits(sha, o, st.ix.records[id]);
    RetireInOk(sha, o.maxRecord, st.ix, id);
    ApplyRetire(sha, o, Forget(st.ix), id, st.next);
    ApplyRetire(sha, o, EMPTY, id, st.next);
    LoggedKeepsInv(sha, o, st, RetireIn(st.ix, id), RETIRE, EncodeId(id));
  }

  lemma {:induction false} RetireAllInv(sha: HashFn, o: Options, st: Store, ids: seq<Id16>)
    requires Inv(sha, o, st) && st.next + |ids| <= U64_LIMIT && NoDuplicates(ids)
    requires forall i | 0 <= i < |ids| :: ids[i] in st.ix.records
    ensures Inv(sha, o, RetireAll(st, ids)) && RetireAll(st, ids).next == st.next + |ids|
    ensures Reopens(sha, o, RetireAll(st, ids)) <==> Reopens(sha, o, st)
    decreases |ids|
  {
    hide Inv, Reopens;
    if ids != [] {
      var st' := RetireOne(st, ids[0]);
      RetireOneInv(sha, o, st, ids[0]);
      forall i | 0 <= i < |ids[1..]| ensures ids[1..][i] in st'.ix.records {
        assert ids[1..][i] == ids[i + 1] && ids[0] != ids[i + 1];
      }
      RetireAllInv(sha, o, st', ids[1..]);
    }
  }

  lemma {:induction false} TerminalsAre(ix: Index, order: seq<Id16>)
    requires NoDuplicates(order)
    ensures NoDuplicates(Terminals(ix, order))
    ensures forall x :: x in Terminals(ix, order) <==> x in order && IsTerminal(ix, x)
    ensures |Terminals(ix, order)| <= |order|
  {
    if order != [] {
      var rest := order[1..];
      TerminalsAre(ix, rest);
      assert forall x :: x in order <==> x == order[0] || x in rest;
      assert order[0] !in rest;
    }
  }

  lemma VictimsAre(o: Options, ix: Index)
    requires NoDuplicates(ix.order)
    ensures NoDuplicates(Victims(o, ix)) && |Victims(o, ix)| <= |ix.order|
    ensures Victims(o, ix) <= Terminals(ix, ix.order)
    ensures forall i | 0 <= i < |Victims(o, ix)| :: IsTerminal(ix, Victims(o, ix)[i])
  {
    TerminalsAre(ix, ix.order);
    forall i | 0 <= i < |Victims(o, ix)| ensures IsTerminal(ix, Victims(o, ix)[i]) {
      assert Victims(o, ix)[i] == Terminals(ix, ix.order)[i];
    }
  }

  lemma RetainInv(sha: HashFn, o: Options, st: Store)
    requires Inv(sha, o, st) && Retain(o, st).next <= U64_LIMIT
    requires st.next + |Victims(o, st.ix)| <= U64_LIMIT
    ensures Inv(sha, o, Retain(o, st))
    ensures Reopens(sha, o, Retain(o, st)) <==> Reopens(sha, o, st)
  {
    hide RecordOk, Reopens, Replay, Ordered;
    VictimsAre(o, st.ix);
    RetireAllInv(sha, o, st, Victims(o, st.ix));
  }

  lemma {:induction false} RetireAllNext(st: Store, ids: seq<Id16>)
    ensures RetireAll(st, ids).next == st.next + |ids|
    decreases |ids|
  {
    if ids != [] { RetireAllNext(RetireOne(st, ids[0]), ids[1..]); }
  }

  lemma PutLogged(sha: HashFn, o: Options, st: Store, r: Record)
    requires Inv(sha, o, st) && RecordOk(sha, o.maxRecord, r.id, r) && st.next < U64_LIMIT
    ensures var logged := Logged(st, PutIn(st.ix, r), MOVEMENT, EncodeRecord(r));
      Inv(sha, o, logged) && (Reopens(sha, o, logged) <==> Reopens(sha, o, st) && Utf8.Accepts(r.lastDetail))
  {
    PutInOk(sha, o.maxRecord, st.ix, r);
    ForgetPut(st.ix, r);
    ApplyPut(sha, o, Forget(st.ix), r, st.next);
    ApplyPut(sha, o, EMPTY, r, st.next);
    hide IndexOk, EncodeRecord, Encodable, Apply;
    LoggedKeepsInv(sha, o, st, PutIn(st.ix, r), MOVEMENT, EncodeRecord(r));
  }

  /** A successful put keeps the log readable exactly when the record's detail text is UTF-8. */
  lemma PutInv(sha: HashFn, o: Options, st: Store, r: Record)
    requires Inv(sha, o, st) && Recordable(r) && PutStep(sha, o, st, r).next <= U64_LIMIT
    ensures Inv(sha, o, PutStep(sha, o, st, r))
    ensures Reopens(sha, o, PutStep(sha, o, st, r)) <==>
      Reopens(sha, o, st) && (PutOutcome(sha, o, r).Done? ==> Utf8.Accepts(r.lastDetail))
  {
    hide Inv, Reopens, ValidRecord, EncodeRecord, Contiguous;
    if PutOutcome(sha, o, r).Done? {
      var ix := PutIn(st.ix, r);
      var logged := Logged(st, ix, MOVEMENT, EncodeRecord(r));
      RetireAllNext(logged, Victims(o, ix));
      PutLogged(sha, o, st, r);
      RetainInv(sha, o, logged);
    }
  }

  lemma RetireStepInv(sha: HashFn, o: Options, st: Store, id: Id16)
    requires Inv(sha, o, st) && RetireStep(st, id).next <= U64_LIMIT
    ensures Inv(sha, o, RetireStep(st, id))
    ensures Reopens(sha, o, RetireStep(st, id)) <==> Reopens(sha, o, st)
  {
    if id in st.ix.records { RetireOneInv(sha, o, st, id); }
  }

  /** A saved coordinator state keeps the log readable exactly when its epoch is set. */
  lemma SaveInv(sha: HashFn, o: Options, st: Store, c: CoordinatorState)
    requires Inv(sha, o, st) && SaveStep(o, st, c).next <= U64_LIMIT
    ensures Inv(sha, o, SaveStep(o, st, c))
    ensures Reopens(sha, o, SaveStep(o, st, c)) <==>
      Reopens(sha, o, st) && (|EncodeCoordinator(c)| <= o.maxRecord ==> c.epoch != 0)
  {
    if |EncodeCoordinator(c)| <= o.maxRecord {
      ApplySave(sha, o, Forget(st.ix), c, st.next);
      ApplySave(sha, o, EMPTY, c, st.next);
      LoggedKeepsInv(sha, o, st, SaveIn(st.ix, c), COORDINATOR, EncodeCoordinator(c));
    }
  }

  // ---- compaction -----------------------------------------------------------

  /** Every live entry reads back. */
  ghost predicate Clean(ix: Index) {
    && (forall id | id in ix.records :: Utf8.Accepts(ix.records[id].lastDetail))
    && (ix.coordinator.Some? ==> ix.coordinator.value.epoch != 0)
  }

  /** The first `k` live records, as stored. */
  ghost function FirstRecords(ix: Index, k: nat): Index
    requires k <= |ix.order| && forall i | 0 <= i < |ix.order| :: ix.order[i] in ix.records
  {
    Index(map id | id in ix.order[..k] :: Stored(ix.records[id]), ix.order[..k], None)
  }

  lemma FirstRecordsGrow(ix: Index, k: nat)
    requires 0 < k <= |ix.order| && NoDuplicates(ix.order)
    requires forall i | 0 <= i < |ix.order| :: ix.order[i] in ix.records
    requires forall id | id in ix.records :: ix.records[id].id == id
    ensures PutIn(FirstRecords(ix, k - 1), Stored(ix.records[ix.order[k - 1]])) == FirstRecords(ix, k)
  {
    var id := ix.order[k - 1];
    var before := FirstRecords(ix, k - 1);
    assert Stored(ix.records[id]).id == id;
    hide Stored;
    assert ix.order[..k] == ix.order[..k - 1] + [id];
    assert id !in ix.order[..k - 1];
    assert before.records[id := Stored(ix.records[id])] == FirstRecords(ix, k).records;
  }

  /** Putting the `k`-th live record on top of the first `k - 1`. */
  lemma ApplyNext(sha: HashFn, o: Options, ix: Index, k: u64)
    requires ValidOptions(o) && IndexOk(sha, o.maxRecord, ix) && 0 < k <= |ix.order|
    requires forall id | id in ix.records :: Utf8.Accepts(ix.records[id].lastDetail)
    ensures var r := ix.records[ix.order[k - 1]];
      |r.provenance.events| <= MAX_EVENTS &&
      Apply(sha, o.maxRecord, FirstRecords(ix, k - 1), Entry(MOVEMENT, k, EncodeRecord(r))) == Some(FirstRecords(ix, k))
  {
    hide RecordOk, EncodeRecord, Encodable, Apply, FirstRecords;
    var id := ix.order[k - 1];
    RecordAt(sha, o.maxRecord, ix, id);
    forall x | x in ix.records ensures ix.records[x].id == x { RecordAt(sha, o.maxRecord, ix, x); }
    FirstRecordsGrow(ix, k);
    ApplyPut(sha, o, FirstRecords(ix, k - 1), ix.records[id], k);
  }

  lemma {:induction false} CompactRecordsReplay(sha: HashFn, o: Options, ix: Index, k: nat)
    requires ValidOptions(o) && IndexOk(sha, o.maxRecord, ix) && Compactable(ix) && k <= |ix.order|
    requires forall id | id in ix.records :: Utf8.Accepts(ix.records[id].lastDetail)
    ensures Replay(sha, o.maxRecord, EMPTY, CompactRecords(ix, k)) == Some(FirstRecords(ix, k))
  {
    hide RecordOk, EncodeRecord, Apply;
    if k == 0 {
      assert FirstRecords(ix, 0) == EMPTY;
    } else {
      hide FirstRecords, Utf8.Accepts;
      CompactRecordsReplay(sha, o, ix, k - 1);
      ApplyNext(sha, o, ix, k);
      ReplaySnoc(sha, o.maxRecord, EMPTY, CompactRecords(ix, k - 1),
                 Entry(MOVEMENT, k, EncodeRecord(ix.records[ix.order[k - 1]])));
    }
  }

  lemma {:induction false} CompactEntries(ix: Index, k: nat)
    requires Compactable(ix) && k <= |ix.order|
    ensures |CompactRecords(ix, k)| == k
    ensures forall i | 0 <= i < k ::
      CompactRecords(ix, k)[i] == Entry(MOVEMENT, i + 1, EncodeRecord(ix.records[ix.order[i]]))
  {
    hide EncodeRecord;
    if k > 0 { CompactEntries(ix, k - 1); }
  }

  lemma {:induction false} CompactRecordsOrdered(sha: HashFn, o: Options, ix: Index, k: nat)
    requires IndexOk(sha, o.maxRecord, ix) && Compactable(ix) && k <= |ix.order|
    ensures Ordered(o.maxRecord, CompactRecords(ix, k), 0) && LastSequence(CompactRecords(ix, k), 0) == k
  {
    hide IndexOk, EncodeRecord, Encodable;
    if k > 0 {
      hide Ordered, LastSequence;
      var r := ix.records[ix.order[k - 1]];
      RecordAt(sha, o.maxRecord, ix, ix.order[k - 1]);
      CompactRecordsOrdered(sha, o, ix, k - 1);
      OrderedSnoc(o.maxRecord, CompactRecords(ix, k - 1), Entry(MOVEMENT, k, EncodeRecord(r)));
    }
  }

  lemma CompactOrdered(sha: HashFn, o: Options, ix: Index)
    requires IndexOk(sha, o.maxRecord, ix) && Compactable(ix)
    ensures Ordered(o.maxRecord, CompactLog(ix), 0) && LastSequence(CompactLog(ix), 0) == LiveCount(ix)
  {
    hide RecordOk, EncodeRecord, EncodeCoordinator, CompactRecords;
    CompactRecordsOrdered(sha, o, ix, |ix.order|);
    if ix.coordinator.Some? {
      OrderedSnoc(o.maxRecord, CompactRecords(ix, |ix.order|),
                  Entry(COORDINATOR, |ix.order| + 1, EncodeCoordinator(ix.coordinator.value)));
    }
  }

  lemma ForgetWhole(sha: HashFn, maxRecord: nat, ix: Index)
    requires IndexOk(sha, maxRecord, ix)
    ensures Forget(ix) == FirstRecords(ix, |ix.order|).(coordinator := ix.coordinator)
    ensures ix.coordinator.None? ==> Forget(ix) == FirstRecords(ix, |ix.order|)
  {
    hide RecordOk, Stored;
    assert ix.order[..|ix.order|] == ix.order;
    assert Forget(ix).records == FirstRecords(ix, |ix.order|).records;
  }

  lemma CompactReplay(sha: HashFn, o: Options, ix: Index)
    requires ValidOptions(o) && IndexOk(sha, o.maxRecord, ix) && Compactable(ix) && Clean(ix)
    ensures Replay(sha, o.maxRecord, EMPTY, CompactLog(ix)) == Some(Forget(ix))
  {
    hide RecordOk, EncodeRecord, EncodeCoordinator, Apply, Replay, CompactRecords, FirstRecords, Forget, Utf8.Accepts;
    var n := |ix.order|;
    CompactRecordsReplay(sha, o, ix, n);
    ForgetWhole(sha, o.maxRecord, ix);
    if ix.coordinator.Some? {
      var c := ix.coordinator.value;
      ReplaySnoc(sha, o.maxRecord, EMPTY, CompactRecords(ix, n), Entry(COORDINATOR, n + 1, EncodeCoordinator(c)));
      ApplySave(sha, o, FirstRecords(ix, n), c, n + 1);
    }
  }

  lemma UncleanRefused(sha: HashFn, o: Options, ix: Index)
    requires ValidOptions(o) && IndexOk(sha, o.maxRecord, ix) && Compactable(ix) && !Clean(ix)
    ensures Replay(sha, o.maxRecord, EMPTY, CompactLog(ix)).None?
  {
    hide RecordOk, EncodeRecord, Encodable, EncodeCoordinator, Apply, Replay, CompactRecords;
    var n, log := |ix.order|, CompactLog(ix);
    CompactEntries(ix, n);
    ReplaysIff(sha, o.maxRecord, EMPTY, log);
    if id :| id in ix.records && !Utf8.Accepts(ix.records[id].lastDetail) {
      RecordAt(sha, o.maxRecord, ix, id);
      var i :| 0 <= i < n && ix.order[i] == id;
      ApplyPut(sha, o, EMPTY, ix.records[id], i + 1);
      assert !Decodes(sha, o.maxRecord, log[i]);
    } else {
      var c := ix.coordinator.value;
      ApplySave(sha, o, EMPTY, c, n + 1);
      assert !Decodes(sha, o.maxRecord, log[n]);
    }
  }

  lemma InvCompactable(sha: HashFn, o: Options, st: Store)
    requires Inv(sha, o, st) && st.next <= U64_LIMIT
    ensures Compactable(st.ix)
  {
    forall id | id in st.ix.records ensures |st.ix.records[id].provenance.events| <= MAX_EVENTS {
      assert RecordOk(sha, o.maxRecord, id, st.ix.records[id]);
    }
  }

  /** Compaction keeps the invariant, and the compacted log reads back exactly when every live entry does. */
  lemma CompactInv(sha: HashFn, o: Options, st: Store)
    requires Inv(sha, o, st) && st.next <= U64_LIMIT
    ensures Compactable(st.ix)
    ensures Inv(sha, o, CompactStep(st))
    ensures Reopens(sha, o, CompactStep(st)) <==> Clean(st.ix)
  {
    hide IndexOk, RecordOk, Compactable, CompactLog, Ordered, LastSequence, Replay, Forget, Clean;
    InvCompactable(sha, o, st);
    CompactOrdered(sha, o, st.ix);
    if Clean(st.ix) { CompactReplay(sha, o, st.ix); } else { UncleanRefused(sha, o, st.ix); }
  }

  // ---- reopening ------------------------------------------------------------

  /** What is read from the log could be written again, and carries the ceiling as its bound. */
  lemma DecodedOk(sha: HashFn, o: Options, payload: Bytes)
    requires ValidOptions(o) && |payload| <= o.maxRecord
    ensures match RecordCodec.DecodeRecord(sha, StoreLimits(o.maxRecord), payload)
      case Err(_) => true
      case Ok((r, rest)) => rest == [] ==> RecordOk(sha, o.maxRecord, r.id, r) && Stored(r) == r
  {
    hide RecordCodec.DecodeRecord, Encodable, EncodeRecord, Stored;
    RecordCanonical(sha, StoreLimits(o.maxRecord), payload);
    match RecordCodec.DecodeRecord(sha, StoreLimits(o.maxRecord), payload)
    case Err(_) =>
    case Ok((r, rest)) =>
      if rest == [] { assert payload == EncodeRecord(r); }
  }

  lemma ApplyOk(sha: HashFn, o: Options, ix: Index, e: Entry)
    requires ValidOptions(o) && IndexOk(sha, o.maxRecord, ix) && Forget(ix) == ix && |e.payload| <= o.maxRecord
    ensures match Apply(sha, o.maxRecord, ix, e)
      case None => true
      case Some(ix') => IndexOk(sha, o.maxRecord, ix') && Forget(ix') == ix' && LiveCount(ix') <= LiveCount(ix) + 1
  {
    hide RecordOk, RecordCodec.DecodeRecord, RecordCodec.DecodeId, RecordCodec.DecodeCoordinator, Stored;
    var limits := StoreLimits(o.maxRecord);
    if e.kind == MOVEMENT {
      DecodedOk(sha, o, e.payload);
      match RecordCodec.DecodeRecord(sha, limits, e.payload)
      case Err(_) =>
      case Ok((r, rest)) =>
        if rest == [] {
          PutInOk(sha, o.maxRecord, ix, r);
          ForgetPut(ix, r);
        }
    } else if e.kind == COORDINATOR {
      CoordinatorCanonical(limits, e.payload);
    } else if e.kind == RETIRE {
      match RecordCodec.DecodeId(limits, e.payload)
      case Err(_) =>
      case Ok((id, rest)) => RetireInOk(sha, o.maxRecord, ix, id);
    }
  }

  lemma {:induction false} ReplayOk(sha: HashFn, o: Options, ix: Index, es: seq<Entry>)
    requires ValidOptions(o) && IndexOk(sha, o.maxRecord, ix) && Forget(ix) == ix
    requires forall i | 0 <= i < |es| :: |es[i].payload| <= o.maxRecord
    requires Replay(sha, o.maxRecord, ix, es).Some?
    ensures var ix' := Replay(sha, o.maxRecord, ix, es).value;
      IndexOk(sha, o.maxRecord, ix') && Forget(ix') == ix' && LiveCount(ix') <= LiveCount(ix) + |es|
    decreases |es|
  {
    hide IndexOk, Forget;
    if es != [] {
      ApplyOk(sha, o, ix, es[0]);
      ReplayOk(sha, o, Apply(sha, o.maxRecord, ix, es[0]).value, es[1..]);
    }
  }

  lemma {:induction false} SequencesCount(maxRecord: nat, es: seq<Entry>, k: nat)
    requires Ordered(maxRecord, es, 0) && k < |es|
    ensures es[k].sequence > k
  {
    if k > 0 { SequencesCount(maxRecord, es, k - 1); }
  }

  lemma EmptyOk(sha: HashFn, o: Options)
    ensures IndexOk(sha, o.maxRecord, EMPTY) && Forget(EMPTY) == EMPTY && LiveCount(EMPTY) == 0
  {
    assert Forget(EMPTY).records == map[];
  }

  lemma FreshInv(sha: HashFn, o: Options)
    requires ValidOptions(o)
    ensures Inv(sha, o, FRESH) && Reopens(sha, o, FRESH)
  {
    EmptyOk(sha, o);
  }

  /** A readable prefix of the log, with the counter just past it, is a sound store. */
  lemma PrefixInv(sha: HashFn, o: Options, es: seq<Entry>)
    requires ValidOptions(o) && Ordered(o.maxRecord, es, 0) && Replay(sha, o.maxRecord, EMPTY, es).Some?
    ensures var st := Store(Replay(sha, o.maxRecord, EMPTY, es).value, es, LastSequence(es, 0) + 1);
      Inv(sha, o, st) && Reopens(sha, o, st) && Forget(st.ix) == st.ix
  {
    hide IndexOk, Replay, Forget, RecordOk, Apply;
    EmptyOk(sha, o);
    ReplayOk(sha, o, EMPTY, es);
    if es != [] { SequencesCount(o.maxRecord, es, |es| - 1); }
  }

  /**
    Crash anywhere, open again: the store comes back sound and readable, holding the
    records wholly before the cut; with nothing cut it holds exactly what it held.
   */
  lemma ReopenInv(sha: HashFn, o: Options, st: Store, cut: nat)
    requires Inv(sha, o, st) && Reopens(sha, o, st) && cut <= |Frames(sha, st.log)|
    ensures ReopenStep(sha, o, st, cut).Some?
    ensures var st', k := ReopenStep(sha, o, st, cut).value, WholeWithin(sha, st.log, cut);
      && Inv(sha, o, st') && Reopens(sha, o, st')
      && st'.log == st.log[..k] && Some(st'.ix) == Replay(sha, o.maxRecord, EMPTY, st.log[..k])
      && st'.next <= st.next
      && (cut == |Frames(sha, st.log)| ==> st'.log == st.log && st'.ix == Forget(st.ix))
  {
    hide IndexOk, Forget, Apply, Frame, LiveCount;
    var k := WholeWithin(sha, st.log, cut);
    CutRecovers(sha, o.maxRecord, st.log, cut);
    PrefixInv(sha, o, st.log[..k]);
    if k > 0 && k < |st.log| { assert st.log[k - 1].sequence < st.log[|st.log| - 1].sequence; }
    if cut == |Frames(sha, st.log)| {
      RecoverWhole(sha, o.maxRecord, st.log, EMPTY, 0);
      assert Frames(sha, st.log)[..cut] == Frames(sha, st.log);
    }
  }
}
