/**
  The movement transaction: its state machine, its bounded provenance chain, and
  the two functions that advance a record (src/movement.cpp, src/provenance.cpp).
 */
module Movement {
  import opened Types
  import Utf8
  import StateObject

  datatype State =
    | Planned | Authorized | Transferring | BytesArrived | Verified
    | Committed | Cancelled | Failed | OutcomeUnknown | Superseded

  predicate Terminal(s: State) {
    s.Committed? || s.Cancelled? || s.Failed? || s.Superseded?
  }

  /** The complete transition relation. */
  predicate Legal(from: State, to: State) {
    match from
    case Planned => to in {Authorized, Cancelled, Failed, Superseded}
    case Authorized => to in {Transferring, Cancelled, Failed, Superseded, OutcomeUnknown}
    case Transferring => to in {BytesArrived, Cancelled, Failed, Superseded, OutcomeUnknown}
    case BytesArrived => to in {Transferring, Verified, Cancelled, Failed, Superseded, OutcomeUnknown}
    case Verified => to in {Committed, Cancelled, Failed, Superseded, OutcomeUnknown}
    case OutcomeUnknown => to in {Committed, Failed, Cancelled, Superseded}
    case _ => false
  }

  /** How far along the path to commitment a state is. */
  function Rank(s: State): Option<nat> {
    match s
    case Planned => Some(0) case Authorized => Some(1) case Transferring => Some(2)
    case BytesArrived => Some(3) case Verified => Some(4) case Committed => Some(5)
    case _ => None
  }

  /**
    The table, as the design describes it: one step at a time towards commitment, bytes that
    did not verify transferred again, an open attempt lost sight of once it is authorized, an
    unknown outcome found committed, and a negative end from every state that is not terminal.
   */
  lemma LegalIff(from: State, to: State)
    ensures Legal(from, to) <==>
      && !Terminal(from)
      && (|| to.Failed? || to.Cancelled? || to.Superseded?
          || (Rank(from).Some? && Rank(to).Some? && Rank(to).value == Rank(from).value + 1)
          || (from.BytesArrived? && to.Transferring?)
          || (to.OutcomeUnknown? && !from.Planned? && !from.OutcomeUnknown?)
          || (from.OutcomeUnknown? && to.Committed?))
  {
  }

  // ---- identities -----------------------------------------------------------

  const MAX_ENDPOINT := 63
  const MAX_DETAIL := 1024
  const MAX_EVENTS := 256
  const MAX_ATTEMPTS := 64

  predicate NameByte(b: byte) {
    48 <= b <= 57 || 65 <= b <= 90 || 97 <= b <= 122 || b == 46 || b == 95 || b == 45
  }

  /** `EndpointId::is_valid` */
  predicate IsName(t: Bytes) {
    && 0 < |t| <= MAX_ENDPOINT
    && t[0] != 45 && t[0] != 46
    && forall i | 0 <= i < |t| :: NameByte(t[i])
  }

  /** An endpoint id is empty until it is set. */
  type EndpointId = t: Bytes | t == [] || IsName(t) witness []

  datatype Incarnation = Incarnation(endpoint: EndpointId, boot: Id16, epoch: u64) {
    predicate IsSet() { endpoint != [] && !IsZero(boot) && epoch != 0 }
  }

  // ---- provenance -----------------------------------------------------------

  const LAST_EVENT_KIND: byte := 17
  type EventKind = k: byte | k <= LAST_EVENT_KIND
  const ATTEMPT_STARTED: EventKind := 3
  const STALE_REJECTED: EventKind := 15

  datatype Event = Event(
    sequence: u64, millis: i64, kind: EventKind, state: State, generation: u64, reason: u16,
    actor: EndpointId, actorBoot: Id16, actorEpoch: u64, attempt: Id16, evidence: Digest,
    detail: Bytes)

  predicate ValidEvent(e: Event) {
    && e.sequence != 0
    && e.millis > 0
    && e.generation != 0
    && |e.detail| <= MAX_DETAIL
    && Utf8.Accepts(e.detail)
  }

  datatype Chain = Chain(events: seq<Event>, bound: nat)

  datatype Status =
    | Success | AlreadyTerminal | IllegalTransition | GenerationExhausted | HistoryFull | EventRefused
  {
    predicate Ok() { Success? }
  }

  /** `ProvenanceChain::append`: refuse past the bound, out of sequence, or when malformed. */
  function Append(c: Chain, e: Event): (r: (Chain, Status))
    ensures r.1.Ok() ==> |r.0.events| == |c.events| + 1 <= c.bound
    ensures !r.1.Ok() ==> r.0 == c
  {
    if |c.events| >= c.bound then (c, HistoryFull)
    else
      var next := |c.events| + 1;
      if next >= U64_LIMIT then (c, EventRefused)
      else
        var e' := if e.sequence == 0 then e.(sequence := next) else e;
        if e'.sequence != next || !ValidEvent(e') then (c, EventRefused)
        else (c.(events := c.events + [e']), Success)
  }

  /** Contiguous from one, every event well formed. */
  ghost predicate Contiguous(c: Chain) {
    forall i | 0 <= i < |c.events| :: c.events[i].sequence == i + 1 && ValidEvent(c.events[i])
  }

  // ---- the record -----------------------------------------------------------

  datatype Record = Record(
    id: Id16,
    generation: u64,
    descriptor: StateObject.Descriptor,
    source: EndpointId,
    destination: EndpointId,
    sourceIncarnation: Incarnation,
    destinationIncarnation: Incarnation,
    compatibilityGeneration: u64,
    compatibilityEvidence: Digest,
    topologyGeneration: u64,
    policyGeneration: u64,
    state: State,
    lastReason: u16,
    lastDetail: Bytes,
    attempt: Id16,
    attemptCount: u32,
    bytesTransferred: u64,
    chunksVerified: u32,
    sourceVerifiedDigest: Digest,
    destinationVerifiedDigest: Digest,
    commitMarkerDigest: Digest,
    created: i64,
    updated: i64,
    repeatable: bool,
    cancelRequested: bool,
    provenance: Chain)

  /** `MovementRecord::validate`. It bounds the detail text but does not check that it is UTF-8. */
  predicate ValidRecord(sha: HashFn, r: Record) {
    && !IsZero(r.id)
    && r.generation != 0
    && StateObject.Valid(sha, r.descriptor)
    && r.source != [] && r.destination != [] && r.source != r.destination
    && r.sourceIncarnation.IsSet() && r.destinationIncarnation.IsSet()
    && r.sourceIncarnation.endpoint == r.source
    && r.destinationIncarnation.endpoint == r.destination
    && r.topologyGeneration != 0 && r.policyGeneration != 0
    && r.attemptCount <= MAX_ATTEMPTS
    && r.chunksVerified <= r.descriptor.chunkCount
    && (r.state.Committed? ==> !IsZero(r.commitMarkerDigest))
    && |r.lastDetail| <= MAX_DETAIL
  }

  // ---- advancing a record ---------------------------------------------------

  datatype Decision = Decision(code: u16, detail: Bytes)

  function CheckTransition(from: State, to: State): Status {
    if Terminal(from) then AlreadyTerminal
    else if Legal(from, to) then Success
    else IllegalTransition
  }

  function NewEvent(r: Record, kind: EventKind, reason: u16, detail: Bytes, attempt: Id16, now: i64): Event {
    var next := |r.provenance.events| + 1;
    Event(if next < U64_LIMIT then next else 0, now, kind, r.state, r.generation, reason,
          [], Zeros(ID_BYTES), 0, attempt, Zeros(DIGEST_BYTES), detail)
  }

  function AppendTo(r: Record, e: Event): (Record, Status) {
    var (chain, status) := Append(r.provenance, e);
    (r.(provenance := chain), status)
  }

  function Refused(r: Record, refusal: Decision): Record {
    r.(lastReason := refusal.code, lastDetail := refusal.detail)
  }

  function Advanced(r: Record, next: State, decision: Decision, now: i64): Record
    requires r.generation < U64_LIMIT - 1
  {
    r.(generation := r.generation + 1, state := next, lastReason := decision.code,
       lastDetail := decision.detail, updated := now)
  }

  function Attempted(r: Record, attempt: Id16, now: i64): Record
    requires r.generation < U64_LIMIT - 1
  {
    r.(generation := r.generation + 1, attempt := attempt,
       attemptCount := (r.attemptCount + 1) % U32_LIMIT, updated := now)
  }

  /**
    `apply_transition`. A refusal is itself noted in the provenance when there is
    room; an accepted transition advances the generation and the state before the
    provenance append can fail. `refusal` carries the code and message of a refusal.
   */
  function ApplyTransition(
    r: Record, next: State, decision: Decision, kind: EventKind, refusal: Decision, now: i64): (Record, Status)
  {
    var legality := CheckTransition(r.state, next);
    if !legality.Ok() then
      var noted := Refused(r, refusal);
      (AppendTo(noted, NewEvent(noted, STALE_REJECTED, refusal.code, refusal.detail, Zeros(ID_BYTES), now)).0,
       legality)
    else if r.generation == U64_LIMIT - 1 then (r, GenerationExhausted)
    else
      var moved := Advanced(r, next, decision, now);
      AppendTo(moved, NewEvent(moved, kind, decision.code, decision.detail, Zeros(ID_BYTES), now))
  }

  /** `record_attempt_started` */
  function RecordAttempt(r: Record, attempt: Id16, detail: Bytes, now: i64): (Record, Status) {
    if Terminal(r.state) then (r, AlreadyTerminal)
    else if r.generation == U64_LIMIT - 1 then (r, GenerationExhausted)
    else
      var moved := Attempted(r, attempt, now);
      AppendTo(moved, NewEvent(moved, ATTEMPT_STARTED, 0, detail, attempt, now))
  }

  // ---- runs -----------------------------------------------------------------

  /** Everything the runtime does to a record's state or provenance. */
  datatype Op =
    | Transition(next: State, decision: Decision, kind: EventKind, refusal: Decision, now: i64)
    | Attempt(attempt: Id16, detail: Bytes, now: i64)
    | Note(kind: EventKind, reason: u16, detail: Bytes, now: i64)

  function Perform(r: Record, op: Op): (Record, Status) {
    match op
    case Transition(next, decision, kind, refusal, now) => ApplyTransition(r, next, decision, kind, refusal, now)
    case Attempt(attempt, detail, now) => RecordAttempt(r, attempt, detail, now)
    case Note(kind, reason, detail, now) =>
      AppendTo(r, NewEvent(r, kind, reason, detail, Zeros(ID_BYTES), now))
  }

  /** As `submit` creates it: planned, first generation, one creation event. */
  ghost predicate Fresh(r: Record) {
    r.state.Planned? && r.generation == 1 && |r.provenance.events| <= 1 &&
    r.provenance.bound < U64_LIMIT && History(r)
  }

  /** Provenance is contiguous and never ahead of the record's own generation. */
  ghost predicate History(r: Record) {
    && r.generation != 0
    && Contiguous(r.provenance)
    && |r.provenance.events| <= r.provenance.bound
    && forall i | 0 <= i < |r.provenance.events| :: r.provenance.events[i].generation <= r.generation
  }

  ghost predicate IsRun(run: seq<Record>, ops: seq<Op>) {
    && |run| == |ops| + 1
    && Fresh(run[0])
    && forall i | 0 <= i < |ops| :: run[i + 1] == Perform(run[i], ops[i]).0
  }

  /** `r'` keeps a sound history that extends that of `r` by at most one event. */
  ghost predicate Grows(r: Record, r': Record) {
    && History(r')
    && r.provenance.events <= r'.provenance.events
    && |r'.provenance.events| <= |r.provenance.events| + 1
    && r'.provenance.bound == r.provenance.bound
  }

  lemma AppendGrows(r: Record, e: Event)
    requires History(r) && e.generation <= r.generation
    ensures Grows(r, AppendTo(r, e).0)
  {
  }

  /** `moved` is `r` with other fields changed and a generation no smaller. */
  lemma EventGrows(r: Record, moved: Record, kind: EventKind, reason: u16, detail: Bytes, attempt: Id16, now: i64)
    requires History(r) && moved.provenance == r.provenance && moved.generation >= r.generation
    ensures Grows(r, AppendTo(moved, NewEvent(moved, kind, reason, detail, attempt, now)).0)
  {
    AppendGrows(moved, NewEvent(moved, kind, reason, detail, attempt, now));
  }

  lemma TransitionGrows(
    r: Record, next: State, decision: Decision, kind: EventKind, refusal: Decision, now: i64)
    requires History(r)
    ensures Grows(r, ApplyTransition(r, next, decision, kind, refusal, now).0)
  {
    if !CheckTransition(r.state, next).Ok() {
      EventGrows(r, Refused(r, refusal), STALE_REJECTED, refusal.code, refusal.detail, Zeros(ID_BYTES), now);
    } else if r.generation < U64_LIMIT - 1 {
      EventGrows(r, Advanced(r, next, decision, now), kind, decision.code, decision.detail, Zeros(ID_BYTES), now);
    }
  }

  /** Every step, accepted or refused, keeps the history sound and only ever extends it. */
  lemma StepKeepsHistory(r: Record, op: Op)
    requires History(r)
    ensures Grows(r, Perform(r, op).0)
  {
    match op
    case Note(kind, reason, detail, now) => EventGrows(r, r, kind, reason, detail, Zeros(ID_BYTES), now);
    case Attempt(attempt, detail, now) =>
      if !Terminal(r.state) && r.generation < U64_LIMIT - 1 {
        EventGrows(r, Attempted(r, attempt, now), ATTEMPT_STARTED, 0, detail, attempt, now);
      }
    case Transition(next, decision, kind, refusal, now) =>
      TransitionGrows(r, next, decision, kind, refusal, now);
  }

  /**
    An accepted transition or attempt advances the generation by one and leaves
    exactly one new event, numbered next, whose generation is above every earlier one.
   */
  lemma AcceptedStep(r: Record, op: Op)
    requires History(r) && !op.Note? && Perform(r, op).1.Ok()
    ensures var r' := Perform(r, op).0;
      && r'.generation == r.generation + 1
      && |r'.provenance.events| == |r.provenance.events| + 1
      && r'.provenance.events[..|r.provenance.events|] == r.provenance.events
      && var e := r'.provenance.events[|r.provenance.events|];
         && e.sequence == |r.provenance.events| + 1
         && e.generation == r'.generation
         && e.state == r'.state
         && (forall i | 0 <= i < |r.provenance.events| :: r.provenance.events[i].generation < e.generation)
  {
  }

  /** The parts of a record that no step may touch. */
  ghost predicate SameMovement(r: Record, r': Record) {
    && r'.id == r.id && r'.descriptor == r.descriptor && r'.source == r.source && r'.destination == r.destination
    && r'.sourceIncarnation == r.sourceIncarnation && r'.destinationIncarnation == r.destinationIncarnation
    && r'.created == r.created && r'.repeatable == r.repeatable && r'.policyGeneration == r.policyGeneration
    && r'.topologyGeneration == r.topologyGeneration && r'.compatibilityGeneration == r.compatibilityGeneration
  }

  /** `e` is what the step `op`, which left the record as `r'`, has to tell. */
  predicate Describes(r': Record, op: Op, ok: bool, e: Event) {
    && e.state == r'.state && e.generation == r'.generation && e.millis == op.now
    && match op
       case Transition(next, decision, kind, refusal, _) =>
         && r'.lastReason == e.reason && r'.lastDetail == e.detail
         && (if ok then
               r'.state == next && e.kind == kind && Decision(e.reason, e.detail) == decision && r'.updated == e.millis
             else e.kind == STALE_REJECTED && Decision(e.reason, e.detail) == refusal)
       case Attempt(attempt, detail, _) =>
         r'.attempt == e.attempt == attempt && e.kind == ATTEMPT_STARTED && e.detail == detail && r'.updated == e.millis
       case Note(kind, reason, detail, _) => e.kind == kind && e.reason == reason && e.detail == detail
  }

  /** An event appended under its own number is stored as it is, and nothing but the chain changes. */
  lemma AppendTells(r: Record, e: Event)
    requires e.sequence == |r.provenance.events| + 1 || e.sequence == 0
    ensures var (r', status) := AppendTo(r, e);
      && r' == r.(provenance := r'.provenance)
      && (status.Ok() <==> |r'.provenance.events| == |r.provenance.events| + 1)
      && (status.Ok() ==> r'.provenance.events[|r.provenance.events|].(sequence := e.sequence) == e)
  {
    hide ValidEvent;
  }

  lemma TransitionDescribes(
    r: Record, next: State, decision: Decision, kind: EventKind, refusal: Decision, now: i64)
    ensures var op := Transition(next, decision, kind, refusal, now);
      var (r', status) := ApplyTransition(r, next, decision, kind, refusal, now);
      && SameMovement(r, r')
      && (|r'.provenance.events| == |r.provenance.events| + 1 ==>
          Describes(r', op, status.Ok(), r'.provenance.events[|r.provenance.events|]))
  {
    hide AppendTo, Legal;
    if !CheckTransition(r.state, next).Ok() {
      var noted := Refused(r, refusal);
      AppendTells(noted, NewEvent(noted, STALE_REJECTED, refusal.code, refusal.detail, Zeros(ID_BYTES), now));
    } else if r.generation < U64_LIMIT - 1 {
      var moved := Advanced(r, next, decision, now);
      AppendTells(moved, NewEvent(moved, kind, decision.code, decision.detail, Zeros(ID_BYTES), now));
    }
  }

  lemma StepDescribes(r: Record, op: Op)
    ensures var (r', status) := Perform(r, op);
      && SameMovement(r, r')
      && (|r'.provenance.events| == |r.provenance.events| + 1 ==>
          Describes(r', op, status.Ok(), r'.provenance.events[|r.provenance.events|]))
  {
    hide AppendTo, ApplyTransition;
    match op
    case Transition(next, decision, kind, refusal, now) =>
      TransitionDescribes(r, next, decision, kind, refusal, now);
    case Attempt(attempt, detail, now) =>
      if !Terminal(r.state) && r.generation < U64_LIMIT - 1 {
        var moved := Attempted(r, attempt, now);
        AppendTells(moved, NewEvent(moved, ATTEMPT_STARTED, 0, detail, attempt, now));
      }
    case Note(kind, reason, detail, now) => AppendTells(r, NewEvent(r, kind, reason, detail, Zeros(ID_BYTES), now));
  }

  /** The state moves only along the table, and a terminal record never moves nor ages. */
  lemma StateMoves(r: Record, op: Op)
    ensures var r' := Perform(r, op).0;
      && r'.generation >= r.generation
      && (r'.state != r.state ==> Legal(r.state, r'.state) && r'.generation == r.generation + 1)
      && (Terminal(r.state) ==>
          r'.state == r.state && r'.generation == r.generation && !(!op.Note? && Perform(r, op).1.Ok()))
  {
  }

  lemma {:induction false} RunKeepsHistory(run: seq<Record>, ops: seq<Op>, i: nat)
    requires IsRun(run, ops) && i < |run|
    ensures History(run[i])
  {
    if i > 0 {
      RunKeepsHistory(run, ops, i - 1);
      StepKeepsHistory(run[i - 1], ops[i - 1]);
    }
  }

  /** What was authorized is never touched: it is the same at any two points of a run. */
  lemma {:induction false} RunSameMovement(run: seq<Record>, ops: seq<Op>, i: nat, j: nat)
    requires IsRun(run, ops) && i <= j < |run|
    ensures SameMovement(run[i], run[j])
  {
    hide Perform, Fresh;
    if i < j {
      RunSameMovement(run, ops, i, j - 1);
      StepDescribes(run[j - 1], ops[j - 1]);
    }
  }

  /**
    Provenance tells the truth: event number `k` of a record was appended by one step of
    the run, and tells that step's time and decision and the state and generation the
    record had right after it; no later step rewrites it.
   */
  lemma {:induction false} ProvenanceTells(run: seq<Record>, ops: seq<Op>, i: nat, k: nat) returns (j: nat)
    requires IsRun(run, ops) && i < |run|
    requires |run[0].provenance.events| <= k < |run[i].provenance.events|
    ensures 0 < j <= i && |run[j - 1].provenance.events| == k && |run[j].provenance.events| == k + 1
    ensures run[j].provenance.events[k] == run[i].provenance.events[k] && run[i].provenance.events[k].sequence == k + 1
    ensures Describes(run[j], ops[j - 1], Perform(run[j - 1], ops[j - 1]).1.Ok(), run[i].provenance.events[k])
    decreases i
  {
    hide Describes, Perform;
    RunKeepsHistory(run, ops, i);
    RunKeepsHistory(run, ops, i - 1);
    StepKeepsHistory(run[i - 1], ops[i - 1]);
    if k < |run[i - 1].provenance.events| {
      j := ProvenanceTells(run, ops, i - 1, k);
    } else {
      j := i;
      StepDescribes(run[i - 1], ops[i - 1]);
    }
  }

  /** The attempts of a run that were counted: on a record that was neither terminal nor at its last generation. */
  function Begun(run: seq<Record>, ops: seq<Op>, i: nat): nat
    requires i <= |ops| <= |run|
  {
    if i == 0 then 0 else Begun(run, ops, i - 1) + Counted(run[i - 1], ops[i - 1])
  }

  function Counted(r: Record, op: Op): nat {
    if op.Attempt? && !Terminal(r.state) && r.generation < U64_LIMIT - 1 then 1 else 0
  }

  lemma AttemptCounts(r: Record, op: Op)
    ensures Perform(r, op).0.attemptCount == (r.attemptCount + Counted(r, op)) % U32_LIMIT
  {
    hide Legal, AppendTo;
    match op
    case Transition(next, decision, kind, refusal, now) =>
      TransitionKeepsCount(r, next, decision, kind, refusal, now);
    case Attempt(attempt, detail, now) =>
      if !Terminal(r.state) && r.generation < U64_LIMIT - 1 {
        var moved := Attempted(r, attempt, now);
        AppendKeepsCount(moved, NewEvent(moved, ATTEMPT_STARTED, 0, detail, attempt, now));
      }
    case Note(kind, reason, detail, now) =>
      AppendKeepsCount(r, NewEvent(r, kind, reason, detail, Zeros(ID_BYTES), now));
  }

  lemma AppendKeepsCount(r: Record, e: Event)
    ensures AppendTo(r, e).0.attemptCount == r.attemptCount
  {
    hide ValidEvent;
  }

  lemma TransitionKeepsCount(
    r: Record, next: State, decision: Decision, kind: EventKind, refusal: Decision, now: i64)
    ensures ApplyTransition(r, next, decision, kind, refusal, now).0.attemptCount == r.attemptCount
  {
    hide Legal, ValidEvent;
  }

  lemma CountOn(a: nat, b: nat, c: nat)
    ensures ((a + b) % U32_LIMIT + c) % U32_LIMIT == (a + (b + c)) % U32_LIMIT
  {
  }

  /** Over every run the attempt counter counts the attempts, modulo its width. */
  lemma {:induction false} AttemptsCounted(run: seq<Record>, ops: seq<Op>, i: nat)
    requires IsRun(run, ops) && i < |run|
    ensures run[i].attemptCount == (run[0].attemptCount + Begun(run, ops, i)) % U32_LIMIT
  {
    hide Perform, Fresh, Counted;
    if i > 0 {
      AttemptsCounted(run, ops, i - 1);
      AttemptCounts(run[i - 1], ops[i - 1]);
      CountOn(run[0].attemptCount, Begun(run, ops, i - 1), Counted(run[i - 1], ops[i - 1]));
    }
  }

  /** Terminal states are absorbing, and generations only grow. */
  lemma {:induction false} TerminalAbsorbing(run: seq<Record>, ops: seq<Op>, i: nat, j: nat)
    requires IsRun(run, ops) && i <= j < |run|
    ensures run[i].generation <= run[j].generation
    ensures Terminal(run[i].state) ==>
      run[j].state == run[i].state && run[j].generation == run[i].generation
  {
    if i < j {
      TerminalAbsorbing(run, ops, i, j - 1);
      StateMoves(run[j - 1], ops[j - 1]);
    }
  }

  predicate PastAuthorization(s: State) {
    s in {Authorized, Transferring, BytesArrived, Verified, OutcomeUnknown, Committed}
  }

  lemma {:induction false} AuthorizedFirst(run: seq<Record>, ops: seq<Op>, i: nat)
    requires IsRun(run, ops) && i < |run| && PastAuthorization(run[i].state)
    ensures exists j | 0 <= j <= i :: run[j].state.Authorized?
  {
    if i > 0 && !run[i].state.Authorized? {
      StateMoves(run[i - 1], ops[i - 1]);
      AuthorizedFirst(run, ops, i - 1);
    }
  }

  /** A record becomes committed only out of VERIFIED or OUTCOME_UNKNOWN, and only after authorization. */
  lemma CommittedOnlyWhenVerifiedOrUnknown(run: seq<Record>, ops: seq<Op>, i: nat)
    requires IsRun(run, ops) && i + 1 < |run|
    requires run[i + 1].state.Committed? && !run[i].state.Committed?
    ensures run[i].state.Verified? || run[i].state.OutcomeUnknown?
    ensures exists j | 0 <= j <= i :: run[j].state.Authorized?
  {
    StateMoves(run[i], ops[i]);
    AuthorizedFirst(run, ops, i);
  }

  // ---- when a refused step has nevertheless moved the record ----------------

  /** The provenance append would accept an event with this time and text. */
  predicate RoomFor(r: Record, detail: Bytes, now: i64) {
    && |r.provenance.events| < r.provenance.bound
    && |r.provenance.events| + 1 < U64_LIMIT
    && now > 0
    && |detail| <= MAX_DETAIL
    && Utf8.Accepts(detail)
  }

  /**
    An error from `apply_transition` leaves the state as it was exactly when the
    transition was refused as such, or there was room for its event: the state
    changes before the append is tried.
   */
  lemma RefusalLeavesStateIff(
    r: Record, next: State, decision: Decision, kind: EventKind, refusal: Decision, now: i64)
    requires History(r) && r.state != next
    ensures var (r', status) := ApplyTransition(r, next, decision, kind, refusal, now);
      && (status.Ok() <==>
          CheckTransition(r.state, next).Ok() && r.generation < U64_LIMIT - 1 && RoomFor(r, decision.detail, now))
      && ((!status.Ok() ==> r'.state == r.state) <==>
          (CheckTransition(r.state, next).Ok() && r.generation < U64_LIMIT - 1 ==> RoomFor(r, decision.detail, now)))
  {
  }

  /** A record with no room left: the caller is told it failed, yet it is now OUTCOME_UNKNOWN. */
  lemma RefusedYetMoved(r: Record, decision: Decision, kind: EventKind, refusal: Decision, now: i64)
    requires History(r) && r.state.Verified? && r.generation < U64_LIMIT - 1
    requires |r.provenance.events| == r.provenance.bound
    ensures var (r', status) := ApplyTransition(r, OutcomeUnknown, decision, kind, refusal, now);
      !status.Ok() && r'.state.OutcomeUnknown? && r'.provenance == r.provenance
  {
  }

  ghost predicate Runs(run: seq<Record>, ops: seq<Op>) {
    run != [] && IsRun(run, ops)
  }

  lemma Extended(run: seq<Record>, ops: seq<Op>, op: Op) returns (run': seq<Record>, ops': seq<Op>)
    requires Runs(run, ops)
    ensures Runs(run', ops') && |run'| == |run| + 1 && run' == run + [Perform(run[|run| - 1], op).0]
    ensures ops' == ops + [op]
  {
    hide Perform;
    run', ops' := run + [Perform(run[|run| - 1], op).0], ops + [op];
  }

  /** Notes until `room` places are left. */
  lemma {:induction false} FilledRun(
    run: seq<Record>, ops: seq<Op>, detail: Bytes, now: i64, room: nat, kind: EventKind)
    returns (run': seq<Record>, ops': seq<Op>)
    requires Runs(run, ops) && now > 0 && |detail| <= MAX_DETAIL && Utf8.Accepts(detail)
    requires var r := run[|run| - 1];
      History(r) && |r.provenance.events| + room <= r.provenance.bound < U64_LIMIT
    ensures Runs(run', ops') && run'[0] == run[0]
    ensures var r, r' := run[|run| - 1], run'[|run'| - 1];
      && History(r') && r'.state == r.state && r'.generation == r.generation
      && r'.provenance.bound == r.provenance.bound && |r'.provenance.events| + room == r'.provenance.bound
    decreases run[|run| - 1].provenance.bound - |run[|run| - 1].provenance.events|
  {
    hide IsRun;
    var r := run[|run| - 1];
    if |r.provenance.events| + room == r.provenance.bound {
      run', ops' := run, ops;
    } else {
      NoteTaken(r, detail, now, kind);
      run', ops' := Extended(run, ops, Note(kind, 0, detail, now));
      run', ops' := FilledRun(run', ops', detail, now, room, kind);
    }
  }

  lemma NoteTaken(r: Record, detail: Bytes, now: i64, kind: EventKind)
    requires History(r) && RoomFor(r, detail, now)
    ensures var r' := Perform(r, Note(kind, 0, detail, now)).0;
      && History(r') && r'.state == r.state && r'.generation == r.generation
      && r'.provenance.bound == r.provenance.bound && |r'.provenance.events| == |r.provenance.events| + 1
  {
    hide Utf8.Accepts;
  }

  lemma TransitionTaken(r: Record, next: State, decision: Decision, now: i64, kind: EventKind)
    requires History(r) && RoomFor(r, decision.detail, now) && Legal(r.state, next) && r.generation < U64_LIMIT - 1
    ensures var r' := Perform(r, Transition(next, decision, kind, decision, now)).0;
      && History(r') && r'.state == next && r'.generation == r.generation + 1
      && r'.provenance.bound == r.provenance.bound && |r'.provenance.events| == |r.provenance.events| + 1
  {
    hide Utf8.Accepts;
  }

  /** A record at `next` after one more transition. */
  lemma MovedRun(run: seq<Record>, ops: seq<Op>, next: State, decision: Decision, now: i64, kind: EventKind)
    returns (run': seq<Record>, ops': seq<Op>)
    requires Runs(run, ops)
    requires var r := run[|run| - 1];
      History(r) && RoomFor(r, decision.detail, now) && Legal(r.state, next) && r.generation < U64_LIMIT - 1
    ensures Runs(run', ops') && run'[0] == run[0]
    ensures var r, r' := run[|run| - 1], run'[|run'| - 1];
      && History(r') && r'.state == next && r'.generation == r.generation + 1
      && r'.provenance.bound == r.provenance.bound && |r'.provenance.events| == |r.provenance.events| + 1
  {
    hide IsRun, History, RoomFor, Legal, Perform;
    TransitionTaken(run[|run| - 1], next, decision, now, kind);
    run', ops' := Extended(run, ops, Transition(next, decision, kind, decision, now));
  }

  lemma FullStep(r: Record, decision: Decision, now: i64, kind: EventKind)
    requires History(r) && r.state.Verified? && r.generation < U64_LIMIT - 1
    requires |r.provenance.events| == r.provenance.bound
    ensures var (r', status) := Perform(r, Transition(OutcomeUnknown, decision, kind, decision, now));
      !status.Ok() && r'.state.OutcomeUnknown?
  {
    hide History, ApplyTransition;
    RefusedYetMoved(r, decision, kind, decision, now);
  }

  /**
    From every fresh record with room for the four transitions to VERIFIED there is a run in
    which the next one is reported as refused although the record has moved.
   */
  lemma RefusedYetMovedRun(r: Record, decision: Decision, now: i64, kind: EventKind)
    returns (run: seq<Record>, ops: seq<Op>)
    requires Fresh(r) && |r.provenance.events| + 4 <= r.provenance.bound
    requires now > 0 && |decision.detail| <= MAX_DETAIL && Utf8.Accepts(decision.detail)
    ensures IsRun(run, ops) && run[0] == r && |ops| > 0
    ensures var n := |ops|;
      && ops[n - 1].Transition? && ops[n - 1].next.OutcomeUnknown?
      && run[n - 1].state.Verified? && !Perform(run[n - 1], ops[n - 1]).1.Ok() && run[n].state.OutcomeUnknown?
  {
    hide Utf8.Accepts, Perform;
    run, ops := [r], [];
    assert Runs(run, ops);
    hide IsRun, History;
    run, ops := FilledRun(run, ops, decision.detail, now, 4, kind);
    run, ops := MovedRun(run, ops, Authorized, decision, now, kind);
    run, ops := MovedRun(run, ops, Transferring, decision, now, kind);
    run, ops := MovedRun(run, ops, BytesArrived, decision, now, kind);
    run, ops := MovedRun(run, ops, Verified, decision, now, kind);
    var last := run[|run| - 1];
    FullStep(last, decision, now, kind);
    run, ops := Extended(run, ops, Transition(OutcomeUnknown, decision, kind, decision, now));
  }
}
