/**
  Retention (src/movement_store.cpp:472-502): which movements a put retires, and
  exactly how many are left.
 */
module Retention {
  import opened Types
  import opened Movement
  import opened RecordCodec
  import opened MovementLog
  import opened MovementStore

  /** The part of `order` outside `ids`, order kept. */
  function Except(order: seq<Id16>, ids: seq<Id16>): seq<Id16> {
    if order == [] then []
    else if order[0] in ids then Except(order[1..], ids)
    else [order[0]] + Except(order[1..], ids)
  }

  ghost function Elements(ids: seq<Id16>): set<Id16> {
    set id | id in ids
  }

  /** The movements that may not be retired. */
  ghost function Busy(ix: Index): set<Id16> {
    set id | id in ix.records && !Terminal(ix.records[id].state)
  }

  function Max(a: nat, b: nat): nat {
    if a < b then b else a
  }

  lemma {:induction false} ExceptCons(order: seq<Id16>, id: Id16, ids: seq<Id16>)
    ensures Except(Without(order, id), ids) == Except(order, [id] + ids)
  {
    if order != [] { ExceptCons(order[1..], id, ids); }
  }

  lemma {:induction false} ExceptNone(order: seq<Id16>)
    ensures Except(order, []) == order
  {
    if order != [] { ExceptNone(order[1..]); }
  }

  lemma {:induction false} DistinctSize(ids: seq<Id16>)
    requires NoDuplicates(ids)
    ensures |Elements(ids)| == |ids|
  {
    if ids != [] {
      DistinctSize(ids[1..]);
      assert Elements(ids) == Elements(ids[1..]) + {ids[0]};
      assert ids[0] !in Elements(ids[1..]);
    }
  }

  lemma {:induction false} RetiredAll(st: Store, ids: seq<Id16>)
    requires forall i | 0 <= i < |ids| :: ids[i] in st.ix.records
    requires NoDuplicates(ids)
    ensures var ix := RetireAll(st, ids).ix;
      && ix.records == st.ix.records - Elements(ids)
      && ix.order == Except(st.ix.order, ids)
      && ix.coordinator == st.ix.coordinator
    decreases |ids|
  {
    if ids == [] {
      ExceptNone(st.ix.order);
    } else {
      var st' := RetireOne(st, ids[0]);
      forall i | 0 <= i < |ids[1..]| ensures ids[1..][i] in st'.ix.records {
        assert ids[1..][i] == ids[i + 1] && ids[0] != ids[i + 1];
      }
      RetiredAll(st', ids[1..]);
      ExceptCons(st.ix.order, ids[0], ids[1..]);
      assert [ids[0]] + ids[1..] == ids;
      assert Elements(ids) == Elements(ids[1..]) + {ids[0]};
    }
  }

  lemma LiveRecords(sha: HashFn, maxRecord: nat, ix: Index)
    requires IndexOk(sha, maxRecord, ix)
    ensures |ix.records| == |ix.order|
    ensures |Terminals(ix, ix.order)| + |Busy(ix)| == |ix.records|
  {
    hide RecordOk;
    DistinctSize(ix.order);
    assert Elements(ix.order) == ix.records.Keys;
    TerminalsAre(ix, ix.order);
    DistinctSize(Terminals(ix, ix.order));
    assert Elements(Terminals(ix, ix.order)) == ix.records.Keys - Busy(ix);
  }

  lemma {:induction false} TerminalsConcat(ix: Index, a: seq<Id16>, b: seq<Id16>)
    ensures Terminals(ix, a + b) == Terminals(ix, a) + Terminals(ix, b)
  {
    if a == [] {
      assert a + b == b;
    } else {
      assert (a + b)[1..] == a[1..] + b;
      TerminalsConcat(ix, a[1..], b);
    }
  }

  /** Of two terminal movements the older is retired first. */
  lemma OldestFirst(o: Options, ix: Index, i: nat, j: nat)
    requires NoDuplicates(ix.order) && i < j < |ix.order|
    requires IsTerminal(ix, ix.order[i]) && ix.order[j] in Victims(o, ix)
    ensures ix.order[i] in Victims(o, ix)
  {
    var order, t := ix.order, Terminals(ix, ix.order);
    var before, after := Terminals(ix, order[..j]), Terminals(ix, order[j..]);
    TerminalsConcat(ix, order[..j], order[j..]);
    assert order[..j] + order[j..] == order;
    TerminalsAre(ix, order);
    TerminalsAre(ix, order[..j]);
    TerminalsAre(ix, order[j..]);
    assert order[i] == order[..j][i];
    assert order[i] in before && order[j] !in order[..j];
    var k :| 0 <= k < |Victims(o, ix)| && Victims(o, ix)[k] == order[j];
    assert t[k] == order[j] && k >= |before|;
    var h :| 0 <= h < |before| && before[h] == order[i];
    assert Victims(o, ix)[h] == t[h] == before[h];
  }

  /**
    What retention does to any well-formed index: only terminal movements go, the
    rest keep their records and their order, and when it is due exactly the larger of
    the retention count and the number of non-terminal movements is left.
   */
  lemma RetainExact(sha: HashFn, o: Options, st: Store)
    requires IndexOk(sha, o.maxRecord, st.ix)
    ensures var ids, ix := Victims(o, st.ix), Retain(o, st).ix;
      && (forall i | 0 <= i < |ids| :: IsTerminal(st.ix, ids[i]))
      && ix.records == st.ix.records - Elements(ids)
      && ix.order == Except(st.ix.order, ids)
      && ix.coordinator == st.ix.coordinator
      && |ix.records| == if RetentionDue(o, st.ix) then Max(o.retention, |Busy(st.ix)|) else |st.ix.records|
  {
    hide RecordOk;
    var ids := Victims(o, st.ix);
    VictimsAre(o, st.ix);
    RetiredAll(st, ids);
    LiveRecords(sha, o.maxRecord, st.ix);
    DistinctSize(ids);
    assert Elements(ids) <= st.ix.records.Keys;
    assert (st.ix.records - Elements(ids)).Keys == st.ix.records.Keys - Elements(ids);
  }

  lemma RetainBusy(sha: HashFn, o: Options, st: Store)
    requires IndexOk(sha, o.maxRecord, st.ix)
    ensures Busy(Retain(o, st).ix) == Busy(st.ix)
    ensures !RetentionDue(o, st.ix) ==> Retain(o, st) == st
  {
    hide IndexOk;
    RetainExact(sha, o, st);
    var ids := Victims(o, st.ix);
    forall id | id in ids ensures IsTerminal(st.ix, id) {
      var i :| 0 <= i < |ids| && ids[i] == id;
    }
  }

  /** The same seen from a put. */
  lemma PutRetains(sha: HashFn, o: Options, st: Store, r: Record)
    requires Inv(sha, o, st) && Recordable(r) && PutOutcome(sha, o, r).Done?
    ensures var put, ix := PutIn(st.ix, r), PutStep(sha, o, st, r).ix;
      && Busy(put) == Busy(ix)
      && (RetentionDue(o, put) ==> |ix.records| == Max(o.retention, |Busy(put)|))
      && (!RetentionDue(o, put) ==> ix == put)
  {
    hide EncodeRecord, ValidRecord, Contiguous, Retain, Busy, RetentionDue, Ordered, Replay;
    var put := PutIn(st.ix, r);
    PutInOk(sha, o.maxRecord, st.ix, r);
    var logged := Logged(st, put, MOVEMENT, EncodeRecord(r));
    hide IndexOk;
    RetainExact(sha, o, logged);
    RetainBusy(sha, o, logged);
  }
}
