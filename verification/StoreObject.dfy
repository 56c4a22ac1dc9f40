/**
  The store object itself (src/movement_store.cpp): the file it appends to and the
  index it keeps, changed in place. Every method is tied to the step function of the
  same name, so the results about steps and runs are results about the object.
 */
module StoreObject {
  import opened Types
  import opened Movement
  import opened RecordCodec
  import opened MovementLog
  import opened Steps = MovementStore
  import Retention
  import StoreRuns

  lemma {:induction false} RetireAllSnoc(st: Store, ids: seq<Id16>, id: Id16)
    ensures RetireAll(st, ids + [id]) == RetireOne(RetireAll(st, ids), id)
    decreases |ids|
  {
    if ids == [] {
      assert ids + [id] == [id] && [id][1..] == [];
    } else {
      assert (ids + [id])[1..] == ids[1..] + [id];
      RetireAllSnoc(RetireOne(st, ids[0]), ids[1..], id);
    }
  }

  /** What recovery makes of a log whose first entries `es` are already applied. */
  ghost function Prepend(es: seq<Entry>, r: Recovery): Recovery {
    match r
    case Rejected => Rejected
    case Recovered(ix, last, fs, torn) => Recovered(ix, last, es + fs, torn)
  }

  lemma PrependNone(r: Recovery)
    ensures Prepend([], r) == r
  {
    if r.Recovered? { assert [] + r.entries == r.entries; }
  }

  lemma NoFrames(sha: HashFn, header: Bytes)
    ensures header + Frames(sha, []) == header
  {
  }

  lemma RecoverEnd(sha: HashFn, maxRecord: nat, rest: Bytes, ix: Index, last: nat)
    requires rest == []
    ensures Recover(sha, maxRecord, rest, ix, last) == Recovered(ix, last, [], false)
  {
  }

  /** What recovery returns is a sound store. */
  lemma LoadedSound(sha: HashFn, o: Options, area: Bytes)
    requires ValidOptions(o)
    ensures var whole := Recover(sha, o.maxRecord, area, EMPTY, 0);
      whole.Recovered? ==> Inv(sha, o, Store(whole.index, whole.entries, whole.last + 1))
  {
    var whole := Recover(sha, o.maxRecord, area, EMPTY, 0);
    hide Inv, Recover, Replay, Ordered;
    if whole.Recovered? {
      RecoveredIsFrames(sha, o.maxRecord, area, EMPTY, 0);
      PrefixInv(sha, o, whole.entries);
    }
  }

  datatype Turn = Stop | Tear | Go

  lemma PrependCons(es: seq<Entry>, e: Entry, r: Recovery)
    ensures Prepend(es, Prepend([e], r)) == Prepend(es + [e], r)
  {
    if r.Recovered? { assert es + ([e] + r.entries) == (es + [e]) + r.entries; }
  }

  lemma RecoverCons(sha: HashFn, maxRecord: nat, rest: Bytes, ix: Index, last: nat)
    requires rest != [] && ScanOne(sha, maxRecord, rest).Found?
    ensures var e := ScanOne(sha, maxRecord, rest).entry;
      RECORD_HEADER_BYTES + |e.payload| <= |rest| &&
      Recover(sha, maxRecord, rest, ix, last) ==
        if e.sequence <= last || Apply(sha, maxRecord, ix, e).None? then Rejected
        else Prepend([e], Recover(sha, maxRecord, rest[RECORD_HEADER_BYTES + |e.payload|..],
                                  Apply(sha, maxRecord, ix, e).value, e.sequence))
  {
    FoundIsFrame(sha, maxRecord, rest);
  }

  lemma FileGrows(sha: HashFn, header: Bytes, log: seq<Entry>, e: Entry)
    ensures (header + Frames(sha, log)) + Frame(sha, e) == header + Frames(sha, log + [e])
  {
    FramesSnoc(sha, log, e);
    hide Frame, Frames;
    assert (header + Frames(sha, log)) + Frame(sha, e) == header + (Frames(sha, log) + Frame(sha, e));
  }

  lemma RetireFits(sha: HashFn, o: Options, ix: Index, id: Id16)
    requires ValidOptions(o) && IndexOk(sha, o.maxRecord, ix) && id in ix.records
    ensures |EncodeId(id)| <= o.maxRecord
  {
    RecordAt(sha, o.maxRecord, ix, id);
    hide IndexOk, Encodable, EncodeRecord;
    IdFits(sha, o, ix.records[id]);
  }

  lemma VictimsLive(sha: HashFn, o: Options, ix: Index)
    requires IndexOk(sha, o.maxRecord, ix)
    ensures NoDuplicates(Victims(o, ix))
    ensures forall i | 0 <= i < |Victims(o, ix)| :: Victims(o, ix)[i] in ix.records
  {
    hide RecordOk;
    VictimsAre(o, ix);
    forall i | 0 <= i < |Victims(o, ix)| ensures Victims(o, ix)[i] in ix.records {
      assert IsTerminal(ix, Victims(o, ix)[i]);
    }
  }

  lemma SaveInOk(sha: HashFn, maxRecord: nat, ix: Index, c: CoordinatorState)
    requires IndexOk(sha, maxRecord, ix) && |EncodeCoordinator(c)| <= maxRecord
    ensures IndexOk(sha, maxRecord, SaveIn(ix, c))
  {
    hide RecordOk, EncodeCoordinator;
  }

  lemma IndexCompactable(sha: HashFn, maxRecord: nat, ix: Index)
    requires IndexOk(sha, maxRecord, ix) && LiveCount(ix) < U64_LIMIT
    ensures Compactable(ix)
  {
    forall id | id in ix.records ensures |ix.records[id].provenance.events| <= MAX_EVENTS {
      RecordAt(sha, maxRecord, ix, id);
    }
  }

  /** A 64-bit counter keeps up with the number it stands for. */
  lemma CounterWraps(issued: nat)
    ensures (issued % U64_LIMIT + 1) % U64_LIMIT == (issued + 1) % U64_LIMIT
  {
    var n, l := issued, U64_LIMIT;
    assert n == l * (n / l) + n % l;
    if n % l + 1 == l { assert n + 1 == l * (n / l + 1); } else { assert n + 1 == l * (n / l) + (n % l + 1); }
  }

  /** The live records as compaction writes them. */
  ghost function CompactRecordsOf(ix: Index): seq<Entry>
    requires Compactable(ix)
  {
    CompactRecords(ix, |ix.order|)
  }

  lemma CompactStart(sha: HashFn, ix: Index)
    requires Compactable(ix)
    ensures FileHeader(sha) + Frames(sha, CompactRecords(ix, 0)) == FileHeader(sha)
  {
  }

  lemma CompactGrows(sha: HashFn, ix: Index, i: nat)
    requires Compactable(ix) && i < |ix.order|
    ensures (FileHeader(sha) + Frames(sha, CompactRecords(ix, i)))
              + Frame(sha, Entry(MOVEMENT, i + 1, EncodeRecord(ix.records[ix.order[i]]))) ==
            FileHeader(sha) + Frames(sha, CompactRecords(ix, i + 1))
  {
    hide Frame, Frames, FileHeader, EncodeRecord;
    var e := Entry(MOVEMENT, i + 1, EncodeRecord(ix.records[ix.order[i]]));
    FileGrows(sha, FileHeader(sha), CompactRecords(ix, i), e);
  }

  class MovementStore {
    const sha: HashFn
    const options: Options
    var file: Bytes
    var appendOffset: nat
    var nextSequence: u64
    var records: map<Id16, Record>
    var order: seq<Id16>
    var coordinator: Option<CoordinatorState>
    ghost var issued: nat
    ghost var header: Bytes
    ghost var log: seq<Entry>

    ghost function Ix(): Index
      reads this
    {
      Index(records, order, coordinator)
    }

    ghost function View(): Store
      reads this
    {
      Store(Ix(), log, issued)
    }

    /**
      The file is its header and the frames of the log, appending happens at its end, and the
      64-bit counter stands for the number of the next record.
     */
    ghost predicate Framed()
      reads this
    {
      && |header| == FILE_HEADER_BYTES && HeaderOk(sha, header) && file == header + Frames(sha, log)
      && appendOffset == |file| && nextSequence == issued % U64_LIMIT
    }

    /** What every method needs; it holds whatever the counter does. */
    ghost predicate Valid()
      reads this
    {
      Framed() && ValidOptions(options) && IndexOk(sha, options.maxRecord, Ix())
    }

    /** Index and log are in step, which the methods keep until the counter has wrapped. */
    ghost predicate Sound()
      reads this
    {
      Framed() && Inv(sha, options, View())
    }

    constructor (sha: HashFn, options: Options, disk: Bytes)
      requires |disk| >= FILE_HEADER_BYTES && HeaderOk(sha, disk[..FILE_HEADER_BYTES])
      ensures this.sha == sha && this.options == options && file == disk
      ensures View() == FRESH && nextSequence == 1 && header == disk[..FILE_HEADER_BYTES] && appendOffset == |disk|
    {
      this.sha, this.options := sha, options;
      file, appendOffset, nextSequence := disk, |disk|, 1;
      records, order, coordinator := map[], [], None;
      header, log, issued := disk[..FILE_HEADER_BYTES], [], 1;
    }

    method AppendRecord(kind: byte, payload: Bytes) returns (ok: bool)
      requires Framed()
      modifies `file, `appendOffset, `nextSequence, `log, `issued
      ensures Framed()
      ensures ok <==> |payload| <= options.maxRecord
      ensures View() == if ok then Logged(old(View()), old(Ix()), kind, payload) else old(View())
    {
      hide HeaderOk, Frames, Prefix;
      if |payload| > options.maxRecord { return false; }
      ghost var e := Entry(kind, nextSequence, payload);
      var prefix := Prefix(kind, nextSequence, |payload|);
      var bytes := prefix + sha(prefix + payload) + payload;
      CounterWraps(issued);
      nextSequence, issued := (nextSequence + 1) % U64_LIMIT, issued + 1;
      assert file[..appendOffset] == file;
      file := file[..appendOffset] + bytes;
      appendOffset := appendOffset + |bytes|;
      assert bytes == Frame(sha, e);
      FileGrows(sha, header, log, e);
      log := log + [e];
      return true;
    }

    method Erase(id: Id16)
      requires id in records
      modifies `records, `order
      ensures Ix() == RetireIn(old(Ix()), id)
    {
      records := records - {id};
      var kept, i := [], 0;
      while i < |order|
        invariant i <= |order| && kept + Without(order[i..], id) == Without(order, id)
        invariant order == old(order) && records == old(records) - {id}
      {
        assert order[i..][1..] == order[i + 1..];
        if order[i] != id { kept := kept + [order[i]]; }
        i := i + 1;
      }
      order := kept;
    }

    /** `retire`, and each turn of the retention loop. */
    method RetireLive(id: Id16)
      requires Valid() && id in records
      modifies this
      ensures Valid() && View() == RetireOne(old(View()), id)
    {
      hide IndexOk, Frames, HeaderOk, EncodeId;
      RetireInOk(sha, options.maxRecord, Ix(), id);
      RetireFits(sha, options, Ix(), id);
      var ok := AppendRecord(RETIRE, EncodeId(id));
      Erase(id);
    }

    method Retire(id: Id16) returns (outcome: Outcome)
      requires Valid()
      modifies this
      ensures Valid() && View() == RetireStep(old(View()), id)
      ensures old(Sound()) && View().next <= U64_LIMIT ==> Sound()
      ensures outcome == if id in old(records) then Done else NotFound
    {
      hide Inv, IndexOk;
      if id !in records { return NotFound; }
      RetireLive(id);
      if old(Sound()) && View().next <= U64_LIMIT { RetireStepInv(sha, options, old(View()), id); }
      return Done;
    }

    method SaveCoordinatorState(c: CoordinatorState) returns (outcome: Outcome)
      requires Valid()
      modifies this
      ensures Valid() && View() == SaveStep(options, old(View()), c)
      ensures old(Sound()) && View().next <= U64_LIMIT ==> Sound()
      ensures outcome == if |EncodeCoordinator(c)| <= options.maxRecord then Done else Oversized
    {
      hide Inv, IndexOk, Frames, HeaderOk, EncodeCoordinator;
      var ok := AppendRecord(COORDINATOR, EncodeCoordinator(c));
      if !ok { return Oversized; }
      SaveInOk(sha, options.maxRecord, Ix(), c);
      coordinator := Some(c);
      if old(Sound()) && View().next <= U64_LIMIT { SaveInv(sha, options, old(View()), c); }
      return Done;
    }

    /** The first loop of `enforce_retention`: it stops as soon as enough are found. */
    method CollectVictims() returns (victims: seq<Id16>)
      requires Valid()
      ensures victims == Victims(options, Ix())
    {
      hide Inv, IndexOk, Framed, ValidOptions;
      victims := [];
      if options.retention == 0 || |records| <= options.retention || |records| <= options.maxHistory { return; }
      var toRetire, i := |records| - options.retention, 0;
      ghost var wanted := toRetire;
      while i < |order| && toRetire > 0
        invariant i <= |order| && toRetire >= 0 && |victims| + toRetire == wanted
        invariant victims == Terminals(Ix(), order[..i])
      {
        assert order[..i + 1] == order[..i] + [order[i]];
        Retention.TerminalsConcat(Ix(), order[..i], [order[i]]);
        if order[i] in records && Terminal(records[order[i]].state) {
          victims, toRetire := victims + [order[i]], toRetire - 1;
        }
        i := i + 1;
      }
      assert order[..i] + order[i..] == order;
      Retention.TerminalsConcat(Ix(), order[..i], order[i..]);
      ghost var all := Terminals(Ix(), order);
      if toRetire == 0 {
        assert all[..|victims|] == victims;
      } else {
        assert order[i..] == [] && all[..|all|] == all == victims;
      }
    }

    method EnforceRetention()
      requires Valid()
      modifies this
      ensures Valid() && View() == Retain(options, old(View()))
      ensures old(Sound()) && View().next <= U64_LIMIT ==> Sound()
    {
      hide Inv, IndexOk, Framed, Victims, EncodeId;
      ghost var st := View();
      var victims := CollectVictims();
      VictimsLive(sha, options, Ix());
      var i := 0;
      while i < |victims|
        invariant i <= |victims| && Valid() && View() == RetireAll(st, victims[..i])
        invariant forall j | i <= j < |victims| :: victims[j] in records
      {
        assert victims[..i + 1] == victims[..i] + [victims[i]];
        RetireAllSnoc(st, victims[..i], victims[i]);
        RetireLive(victims[i]);
        i := i + 1;
      }
      assert victims[..i] == victims;
      RetireAllNext(st, victims);
      if old(Sound()) && View().next <= U64_LIMIT { RetainInv(sha, options, st); }
    }

    method Put(r: Record) returns (outcome: Outcome)
      requires Valid() && Recordable(r)
      modifies this
      ensures Valid() && View() == PutStep(sha, options, old(View()), r)
      ensures old(Sound()) && View().next <= U64_LIMIT ==> Sound()
      ensures outcome == PutOutcome(sha, options, r)
    {
      hide Inv, IndexOk, Frames, HeaderOk, ValidRecord, Contiguous, EncodeRecord, Victims, Retain;
      if !ValidRecord(sha, r) { return InvalidRecord; }
      ghost var logged := Logged(View(), PutIn(Ix(), r), MOVEMENT, EncodeRecord(r));
      var ok := AppendRecord(MOVEMENT, EncodeRecord(r));
      if !ok { return Oversized; }
      PutInOk(sha, options.maxRecord, Ix(), r);
      var isNew := r.id !in records;
      records := records[r.id := r];
      if isNew { order := order + [r.id]; }
      assert View() == logged;
      EnforceRetention();
      if old(Sound()) && View().next <= U64_LIMIT { PutInv(sha, options, old(View()), r); }
      return Done;
    }

    /** The loop of `compact`: the live records, numbered from one. */
    method WriteLive() returns (temporary: Bytes)
      requires Compactable(Ix())
      ensures temporary == FileHeader(sha) + Frames(sha, CompactRecords(Ix(), |order|))
    {
      hide FileHeader, EncodeRecord, Frame, Frames, CompactRecords;
      temporary := FileHeader(sha);
      var sequence, i := 0, 0;
      CompactStart(sha, Ix());
      while i < |order|
        invariant i <= |order| && sequence == i
        invariant temporary == FileHeader(sha) + Frames(sha, CompactRecords(Ix(), i))
      {
        sequence := sequence + 1;
        CompactGrows(sha, Ix(), i);
        temporary := temporary + Frame(sha, Entry(MOVEMENT, sequence, EncodeRecord(records[order[i]])));
        i := i + 1;
      }
    }

    /** The temporary file is written, then takes the log's place; the counter is left alone. */
    method Compact()
      requires Valid() && LiveCount(Ix()) < U64_LIMIT
      modifies this
      ensures Compactable(old(Ix())) && Valid() && View() == CompactStep(old(View()))
      ensures old(Sound()) && View().next <= U64_LIMIT ==> Sound()
      ensures file == StoreRuns.FileOf(sha, log)
    {
      hide Inv, IndexOk, HeaderOk, FileHeader, EncodeRecord, EncodeCoordinator, Frame, Frames, CompactRecords;
      IndexCompactable(sha, options.maxRecord, Ix());
      FreshHeaderOk(sha);
      ghost var live := CompactRecordsOf(Ix());
      var temporary := WriteLive();
      if coordinator.Some? {
        var e := Entry(COORDINATOR, |order| + 1, EncodeCoordinator(coordinator.value));
        FileGrows(sha, FileHeader(sha), live, e);
        temporary := temporary + Frame(sha, e);
      }
      header, log := FileHeader(sha), CompactLog(Ix());
      file, appendOffset := temporary, |temporary|;
      if old(Sound()) && View().next <= U64_LIMIT { CompactInv(sha, options, old(View())); }
    }

    method ApplyRecord(e: Entry) returns (ok: bool)
      modifies `records, `order, `coordinator
      ensures ok <==> Apply(sha, options.maxRecord, old(Ix()), e).Some?
      ensures ok ==> Apply(sha, options.maxRecord, old(Ix()), e) == Some(Ix())
    {
      hide RecordCodec.DecodeRecord, RecordCodec.DecodeCoordinator, RecordCodec.DecodeId;
      var limits := StoreLimits(options.maxRecord);
      if |e.payload| > limits.maxInput { return false; }
      if e.kind == MOVEMENT {
        var decoded := RecordCodec.DecodeRecord(sha, limits, e.payload);
        if decoded.Err? || decoded.value.1 != [] { return false; }
        var r := decoded.value.0;
        if r.id !in records { order := order + [r.id]; }
        records := records[r.id := r];
        return true;
      }
      if e.kind == COORDINATOR {
        var decoded := RecordCodec.DecodeCoordinator(limits, e.payload);
        if decoded.Err? || decoded.value.1 != [] { return false; }
        coordinator := Some(decoded.value.0);
        return true;
      }
      if e.kind == RETIRE {
        var decoded := RecordCodec.DecodeId(limits, e.payload);
        if decoded.Err? || decoded.value.1 != [] { return false; }
        if decoded.value.0 in records { Erase(decoded.value.0); }
        return true;
      }
      return false;
    }

    lemma Advance(file: Bytes, offset: nat, next: nat, header: Bytes, log: seq<Entry>, e: Entry)
      requires offset + |Frame(sha, e)| == next <= |file|
      requires file[..offset] == header + Frames(sha, log)
      requires file[offset..] == Frame(sha, e) + file[offset..][|Frame(sha, e)|..]
      ensures file[..next] == header + Frames(sha, log + [e])
      ensures file[offset..][|Frame(sha, e)|..] == file[next..]
    {
      FramesSnoc(sha, log, e);
      assert file[..next] == file[..offset] + file[offset..][..|Frame(sha, e)|];
    }

    /** One turn of the recovery loop of `open`. */
    method LoadOne(offset: nat, sequence: nat) returns (turn: Turn, next: nat, last: nat, ghost e: Entry)
      requires |header| <= offset < |file| && file[..offset] == header + Frames(sha, log)
      modifies `records, `order, `coordinator, `log
      ensures turn.Stop? ==> Recover(sha, options.maxRecord, file[offset..], old(Ix()), sequence) == Rejected
      ensures turn.Tear? ==>
        && Recover(sha, options.maxRecord, file[offset..], old(Ix()), sequence) ==
           Recovered(old(Ix()), sequence, [], true)
        && View() == old(View())
      ensures turn.Go? ==>
        && offset < next <= |file| && log == old(log) + [e] && file[..next] == header + Frames(sha, log)
        && Recover(sha, options.maxRecord, file[offset..], old(Ix()), sequence) ==
           Prepend([e], Recover(sha, options.maxRecord, file[next..], Ix(), last))
    {
      hide ScanOne, Apply, Frames;
      var rest := file[offset..];
      next, last, e := offset, sequence, Entry(0, 0, []);
      match ScanOne(sha, options.maxRecord, rest) {
        case Torn => turn := Tear;
        case Refused => turn := Stop;
        case Found(found) =>
          e := found;
          RecoverCons(sha, options.maxRecord, rest, Ix(), sequence);
          FoundIsFrame(sha, options.maxRecord, rest);
          if found.sequence <= sequence { return Stop, next, last, e; }
          var applied := ApplyRecord(found);
          if !applied { return Stop, next, last, e; }
          next, last := offset + RECORD_HEADER_BYTES + |found.payload|, found.sequence;
          Advance(file, offset, next, header, log, e);
          log := log + [e];
          turn := Go;
      }
    }

    /** The recovery loop of `open`, over a file whose header has been accepted. */
    method Load() returns (ok: bool, torn: bool)
      requires ValidOptions(options)
      requires View() == FRESH && |header| == FILE_HEADER_BYTES && HeaderOk(sha, header) && header <= file
      modifies this
      ensures ok <==> Recover(sha, options.maxRecord, old(file)[FILE_HEADER_BYTES..], EMPTY, 0).Recovered?
      ensures ok ==>
        && issued > 0
        && Recover(sha, options.maxRecord, old(file)[FILE_HEADER_BYTES..], EMPTY, 0) ==
           Recovered(Ix(), issued - 1, log, torn)
        && Sound() && header == old(header)
    {
      hide HeaderOk, Inv, Recover, Frames, Replay;
      ghost var area := file[FILE_HEADER_BYTES..];
      ghost var whole := Recover(sha, options.maxRecord, area, EMPTY, 0);
      var offset: nat, sequence: nat := FILE_HEADER_BYTES, 0;
      torn := false;
      PrependNone(whole);
      NoFrames(sha, header);
      while offset < |file| && !torn
        invariant FILE_HEADER_BYTES <= offset <= |file| && file == old(file) && header == old(header)
        invariant file[..offset] == header + Frames(sha, log)
        invariant whole == if torn then Recovered(Ix(), sequence, log, true)
                           else Prepend(log, Recover(sha, options.maxRecord, file[offset..], Ix(), sequence))
        decreases |file| - offset, !torn
      {
        ghost var was := log;
        var turn, next, last, e := LoadOne(offset, sequence);
        match turn {
          case Stop => return false, false;
          case Tear => torn := true; assert log + [] == log;
          case Go =>
            PrependCons(was, e, Recover(sha, options.maxRecord, file[next..], Ix(), last));
            offset, sequence := next, last;
        }
      }
      if !torn { RecoverEnd(sha, options.maxRecord, file[offset..], Ix(), sequence); }
      assert log + [] == log;
      file := file[..offset];
      appendOffset := offset;
      nextSequence, issued := (sequence + 1) % U64_LIMIT, sequence + 1;
      ok := true;
      LoadedSound(sha, options, area);
    }

    /** `open`: any bytes at all on disk. */
    static method Open(sha: HashFn, options: Options, disk: Bytes) returns (store: MovementStore?)
      requires ValidOptions(options)
      ensures store == null <==> StoreRuns.Open(sha, options, disk).Refusal?
      ensures store != null ==>
        && fresh(store) && store.Sound() && store.sha == sha && store.options == options
        && StoreRuns.Open(sha, options, disk).st == store.View()
        && StoreRuns.Open(sha, options, disk).file == store.file
    {
      hide HeaderOk, Inv, FileHeader, Recover;
      if disk == [] {
        FreshHeaderOk(sha);
        assert FileHeader(sha)[..FILE_HEADER_BYTES] == FileHeader(sha) by { StoreRuns.HeaderSize(sha); }
        FreshInv(sha, options);
        StoreRuns.HeaderSize(sha);
        store := new MovementStore(sha, options, FileHeader(sha));
        assert store.header + Frames(sha, store.log) == store.header;
        return;
      }
      if |disk| < FILE_HEADER_BYTES || !HeaderOk(sha, disk[..FILE_HEADER_BYTES]) { return null; }
      var loaded := new MovementStore(sha, options, disk);
      var ok, torn := loaded.Load();
      return if ok then loaded else null;
    }
  }
}
