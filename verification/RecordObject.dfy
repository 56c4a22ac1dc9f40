/**
  A movement record changed in place (src/movement.cpp:390-442 and
  src/provenance.cpp:164-194): the object's methods are the functions of `Movement`,
  so the results about runs of a record are results about this object.
 */
module RecordObject {
  import opened Types
  import opened Movement

  class MovementRecord {
    var record: Record

    constructor (r: Record)
      ensures record == r
    {
      record := r;
    }

    /** `ProvenanceChain::append` on the record's own chain. */
    method AppendEvent(e: Event) returns (status: Status)
      modifies this
      ensures (record, status) == AppendTo(old(record), e)
    {
      var events := record.provenance.events;
      if |events| >= record.provenance.bound { return HistoryFull; }
      var next := |events| + 1;
      if next >= U64_LIMIT { return EventRefused; }
      var stamped := e;
      if stamped.sequence == 0 { stamped := stamped.(sequence := next); }
      if stamped.sequence != next || !ValidEvent(stamped) { return EventRefused; }
      record := record.(provenance := record.provenance.(events := events + [stamped]));
      return Success;
    }

    /** `apply_transition`: the state is changed before the provenance append can fail. */
    method ApplyTransition(next: State, decision: Decision, kind: EventKind, refusal: Decision, now: i64)
      returns (status: Status)
      modifies this
      ensures (record, status) == Movement.ApplyTransition(old(record), next, decision, kind, refusal, now)
    {
      var legality := CheckTransition(record.state, next);
      if !legality.Ok() {
        record := record.(lastReason := refusal.code, lastDetail := refusal.detail);
        var noted := AppendEvent(NewEvent(record, STALE_REJECTED, refusal.code, refusal.detail, Zeros(ID_BYTES), now));
        return legality;
      }
      if record.generation == U64_LIMIT - 1 { return GenerationExhausted; }
      record := record.(generation := record.generation + 1);
      record := record.(state := next, lastReason := decision.code, lastDetail := decision.detail, updated := now);
      status := AppendEvent(NewEvent(record, kind, decision.code, decision.detail, Zeros(ID_BYTES), now));
    }

    /** `record_attempt_started` */
    method RecordAttemptStarted(attempt: Id16, detail: Bytes, now: i64) returns (status: Status)
      modifies this
      ensures (record, status) == RecordAttempt(old(record), attempt, detail, now)
    {
      if Terminal(record.state) { return AlreadyTerminal; }
      if record.generation == U64_LIMIT - 1 { return GenerationExhausted; }
      record := record.(generation := record.generation + 1, attempt := attempt);
      record := record.(attemptCount := (record.attemptCount + 1) % U32_LIMIT, updated := now);
      status := AppendEvent(NewEvent(record, ATTEMPT_STARTED, 0, detail, attempt, now));
    }
  }
}
