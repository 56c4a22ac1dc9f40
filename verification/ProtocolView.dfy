/**
  What one movement can see of the protocol, and the invariant of that view. Every
  step of the protocol changes the view of at most one movement, or all views alike,
  so the invariant is proved here, movement by movement.
 */
module ProtocolView {
  import opened Types
  import Movement
  import opened Protocol

  datatype Stage = Off | Listed | Passed | On

  /** `lane` is the part of the destination's inbox that is about this movement, in order. */
  datatype View = View(
    stage: Stage,
    plan: Option<Plan>,
    stored: Option<Rec>,
    owner: Option<Owner>,
    queued: bool,
    grants: nat,
    commits: nat,
    lane: seq<Msg>,
    marker: Option<Marker>,
    replies: set<Reply>,
    forced: bool,
    skipped: bool,
    settled: bool,
    final: Option<Verdict>)

  predicate Effect(m: Id, v: View) {
    v.marker.Some? && v.marker.value.movement == Some(m)
  }

  predicate CommitPending(v: View) {
    v.lane != [] && v.lane[0].Commit?
  }

  predicate StoredOpen(v: View) {
    v.stored.Some? && !Movement.Terminal(v.stored.value.state)
  }

  predicate StoredUnknown(v: View) {
    v.stored.Some? && v.stored.value.state.OutcomeUnknown?
  }

  /** No commit request will be sent any more. */
  predicate NoMore(v: View) {
    && v.plan.Some?
    && (v.queued ==> !StoredOpen(v))
    && (v.owner.Some? ==> v.owner.value.Reconciling? || (v.owner.value.Driving? && v.owner.value.phase.CommitWait?))
  }

  /** The movement has not taken effect and never will. */
  predicate Quiet(m: Id, v: View) {
    NoMore(v) && !Effect(m, v) && !CommitPending(v)
  }

  // ---- the invariant, clause by clause --------------------------------------

  predicate Unborn(v: View) {
    && v.stored.None? && v.owner.None? && !v.queued && v.grants == 0 && v.commits == 0
    && v.lane == [] && v.marker.None? && v.replies == {} && !v.forced && !v.skipped && !v.settled && v.final.None?
  }

  /** At most one commit request, before every query, and none after a query was sent. */
  ghost predicate LaneOk(m: Id, v: View) {
    && v.commits <= 1
    && (forall i | 0 < i < |v.lane| :: v.lane[i].Query?)
    && (forall i | 0 <= i < |v.lane| :: v.lane[i].Query? ==> NoMore(v))
    && (CommitPending(v) ==> v.commits == 1 && !Effect(m, v))
    && (v.commits == 0 ==> !Effect(m, v))
    && (v.commits == 1 ==> NoMore(v))
  }

  predicate ReplyOk(m: Id, v: View, reply: Reply) {
    match reply
    case CommitResult(_, _, ok, seal) =>
      && v.commits == 1 && !CommitPending(v)
      && (ok ==> v.marker.Some? && v.marker.value.seal == seal)
      && (!ok ==> !Effect(m, v))
    case Report(_, present, mine, seal) =>
      && NoMore(v)
      && (mine ==> present && v.marker.Some? && v.marker.value.seal == seal)
      && (!present ==> !Effect(m, v) && !CommitPending(v))
  }

  ghost predicate RepliesOk(m: Id, v: View) {
    forall reply | reply in v.replies :: ReplyOk(m, v, reply)
  }

  /** Every step that advances the generation also takes an event, so the generation never runs out. */
  predicate RecordOk(r: Rec) {
    r.generation <= r.used <= r.bound <= Movement.MAX_EVENTS
  }

  predicate StoredOk(m: Id, v: View) {
    v.stored.Some? ==>
      var r := v.stored.value;
      && Some(r.plan) == v.plan
      && RecordOk(r)
      && (Movement.Terminal(r.state) ==> v.owner.None?)
      && (r.state.Committed? ==> v.marker.Some? && v.marker.value.seal == r.seal)
      && (Dead(r.state) && !v.forced ==> v.settled)
      && (r.state.OutcomeUnknown? ==> !v.queued && (v.owner.Some? ==> v.owner.value.Reconciling?))
      && (!Movement.Terminal(r.state) ==> !r.cancelRequested)
      && (!Movement.Terminal(r.state) && v.commits == 1 ==> Committing(r.state))
      && (v.queued && !Movement.Terminal(r.state) ==> r.state.Authorized?)
      && (v.forced ==> r.state.Cancelled?)
  }

  predicate SettledOk(m: Id, v: View) {
    v.settled ==> Quiet(m, v) && v.owner.None? && !StoredOpen(v)
  }

  /** The first verdict stands. */
  predicate FinalOk(v: View) {
    && (v.stored.Some? && Movement.Terminal(v.stored.value.state) ==> v.final.Some?)
    && (v.final.Some? ==>
        && v.owner.None? && Movement.Terminal(v.final.value.state)
        && (v.stored.Some? ==> v.final.value == Verdict(v.stored.value.state, v.stored.value.seal)))
  }

  /** An open record whose commit request went out, held by nobody, is recorded as unknown. */
  predicate OpenOk(m: Id, v: View) {
    StoredOpen(v) && v.owner.None? && v.commits == 1 && !StoredUnknown(v) ==>
      v.stage.Off? || v.stage.Listed? || v.skipped || !HasRoom(v.stored.value) || Quiet(m, v)
  }

  /** A second attempt starts from a failed transfer or from refused bytes. */
  predicate Retried(s: State) {
    s.Transferring? || s.BytesArrived?
  }

  /** The attempt counter, and what the worker's copy says at each place of `drive_movement`. */
  predicate AttemptsOk(c: Config, v: View, r: Rec, phase: Phase) {
    match phase
    case Start => v.grants == 0 && r.state.Authorized? && v.stored == Some(r)
    case Between(n) => 2 <= n <= c.maxAttempts && v.grants < n && Retried(r.state) && v.stored == Some(r)
    case Granted(n) =>
      && 1 <= n <= c.maxAttempts && v.grants <= n && v.stored == Some(r)
      && (if n == 1 then r.state.Authorized? else Retried(r.state))
    case Awaiting(n, _) => 1 <= n <= c.maxAttempts && v.grants <= n && r.state.Transferring?
    case Arrived(n) => 1 <= n <= c.maxAttempts && v.grants <= n && r.state.BytesArrived? && v.stored == Some(r)
    case Barrier(n) => 1 <= n <= c.maxAttempts && v.grants <= n && r.state.Verified? && v.stored == Some(r)
    case CommitWait => r.state.Verified? && v.stored == Some(r)
  }

  predicate OwnerOk(c: Config, v: View) {
    && (v.queued ==> v.owner.None? && v.stage.On? && (StoredOpen(v) ==> v.grants == 0))
    && (v.owner.Some? ==>
        && v.stage.On? && StoredOpen(v) && Some(v.owner.value.r.plan) == v.plan
        && RecordOk(v.owner.value.r)
        && !v.owner.value.r.cancelRequested
        && match v.owner.value
           case Submitting(r) => v.stored == Some(r) && v.grants == 0 && v.commits == 0
           case Driving(r, phase) =>
             AttemptsOk(c, v, r, phase) && (v.commits == 1 <==> phase.CommitWait?)
           case Reconciling(r) => v.stored == Some(r) && r.state.OutcomeUnknown?)
  }

  /** After its turn in recovery an open record is unknown, unless its history is full. */
  predicate RecoveryOk(v: View) {
    v.stage.Passed? && StoredOpen(v) ==>
      StoredUnknown(v) || v.skipped || !HasRoom(v.stored.value)
  }

  ghost predicate Good(c: Config, m: Id, v: View) {
    if v.plan.None? then Unborn(v)
    else
      && v.grants <= c.maxAttempts
      && LaneOk(m, v) && RepliesOk(m, v) && StoredOk(m, v) && SettledOk(m, v) && OpenOk(m, v) && OwnerOk(c, v)
      && RecoveryOk(v) && FinalOk(v)
  }

  // ---- elementary changes of a view -----------------------------------------

  function PutV(v: View, r: Rec): View {
    v.(stored := Some(r), settled := v.settled || (Dead(r.state) && !v.forced),
       final := if v.final.None? && Movement.Terminal(r.state) then Some(Verdict(r.state, r.seal)) else v.final)
  }

  function FinishV(v: View, moved: Option<Rec>): View {
    (if moved.Some? then PutV(v, moved.value) else v).(owner := None)
  }

  function ContinueV(v: View, moved: Option<Rec>, phase: Phase): View {
    if moved.Some? then PutV(v, moved.value).(owner := Some(Driving(moved.value, phase))) else v.(owner := None)
  }

  // ---- the worker's steps ---------------------------------------------------

  predicate DrivenIn(v: View, r: Rec, phase: Phase) {
    v.owner == Some(Driving(r, phase))
  }

  lemma SubmitGood(c: Config, m: Id, v: View, r: Rec)
    requires Good(c, m, v) && v.plan.None? && v.stage.On?
    requires r.state.Planned? && RecordOk(r) && !r.cancelRequested
    ensures forall marker: Option<Marker> | marker.Some? ==> marker.value.movement != Some(m) ::
      Good(c, m, PutV(v.(plan := Some(r.plan), marker := marker), r).(owner := Some(Submitting(r))))
  {
  }

  lemma AuthorizeGood(c: Config, m: Id, v: View, r: Rec)
    requires Good(c, m, v) && v.owner == Some(Submitting(r))
    ensures var moved := Move(r, Movement.Authorized, true);
      Good(c, m, if moved.Some? then FinishV(v, moved).(queued := true) else FinishV(v, moved))
  {
  }

  lemma PickGood(c: Config, m: Id, v: View)
    requires Good(c, m, v) && v.queued && v.owner.None?
    ensures Good(c, m,
      if StoredOpen(v) && !StoredUnknown(v) then v.(queued := false, owner := Some(Driving(v.stored.value, Start)))
      else v.(queued := false))
  {
  }

  /** Before the commit request, storing an open record and going on. */
  lemma ContinueGood(c: Config, m: Id, v: View, r: Rec, phase: Phase, r': Rec, phase': Phase, grants: nat)
    requires Good(c, m, v) && DrivenIn(v, r, phase) && !phase.CommitWait? && !phase'.CommitWait?
    requires r'.plan == r.plan && RecordOk(r') && r'.cancelRequested == r.cancelRequested
    requires !Movement.Terminal(r'.state) && !r'.state.OutcomeUnknown?
    requires grants <= c.maxAttempts && AttemptsOk(c, v.(grants := grants, stored := Some(r')), r', phase')
    ensures Good(c, m, ContinueV(v.(grants := grants), Some(r'), phase'))
  {
  }

  /** The worker's copy moves on without being stored. */
  lemma NoteGood(c: Config, m: Id, v: View, r: Rec, n: nat, stale: nat)
    requires Good(c, m, v) && DrivenIn(v, r, Awaiting(n, stale))
    ensures Good(c, m, v.(owner := Some(Driving(Note(r, true), Awaiting(n, stale + 1)))))
  {
  }

  /** Before the commit request the worker may stop with any outcome, recorded or not. */
  lemma FinishGood(c: Config, m: Id, v: View, r: Rec, phase: Phase, moved: Option<Rec>)
    requires Good(c, m, v) && DrivenIn(v, r, phase) && !phase.CommitWait?
    requires moved.Some? ==>
      var r' := moved.value;
      && r'.plan == r.plan && RecordOk(r') && !r'.state.Committed? && !r'.cancelRequested
    ensures Good(c, m, FinishV(v, moved))
  {
  }

  // ---- the commit barrier ---------------------------------------------------

  lemma SendCommitGood(c: Config, m: Id, v: View, r: Rec, n: nat, lane: seq<Msg>)
    requires Good(c, m, v) && DrivenIn(v, r, Barrier(n))
    requires lane == v.lane || (exists msg: Msg :: msg.Commit? && lane == v.lane + [msg])
    ensures Good(c, m, v.(commits := v.commits + 1, owner := Some(Driving(r, CommitWait)), lane := lane))
  {
  }

  lemma NoAnswerGood(c: Config, m: Id, v: View, r: Rec)
    requires Good(c, m, v) && DrivenIn(v, r, CommitWait)
    ensures Good(c, m, FinishV(v, Move(r, Movement.OutcomeUnknown, true)))
  {
  }

  lemma CommitAnswerGood(c: Config, m: Id, v: View, r: Rec, reply: Reply, text: bool)
    requires Good(c, m, v) && DrivenIn(v, r, CommitWait) && reply in v.replies && reply.CommitResult?
    ensures Good(c, m, FinishV(v,
      if reply.generation != r.generation then Move(r, Movement.OutcomeUnknown, true)
      else if !reply.ok then Move(r, Movement.Failed, text)
      else Sealed(Move(r, Movement.Committed, true), reply.seal)))
  {
    assert ReplyOk(m, v, reply);
  }

  // ---- the destination ------------------------------------------------------

  /** A commit request is handled: a marker may be written, and a reply may be sent. */
  lemma HandleCommitGood(c: Config, m: Id, v: View, ok: bool, seal: Seal, replies: set<Reply>)
    requires Good(c, m, v) && CommitPending(v) && v.plan.Some?
    requires ok && v.marker.Some? ==> v.marker.value.seal == seal
    requires forall reply | reply in replies && reply !in v.replies ::
      reply.CommitResult? && reply.ok == ok && (ok ==> reply.seal == seal)
    ensures Good(c, m, v.(
      lane := v.lane[1..], replies := replies,
      marker := if ok && v.marker.None? then Some(Marker(Some(m), seal)) else v.marker))
  {
    var v' := v.(lane := v.lane[1..], replies := replies,
                 marker := if ok && v.marker.None? then Some(Marker(Some(m), seal)) else v.marker);
    forall reply | reply in replies ensures ReplyOk(m, v', reply) {
      if reply in v.replies { assert ReplyOk(m, v, reply); }
    }
  }

  lemma HandleQueryGood(c: Config, m: Id, v: View, bytes: bool, replies: set<Reply>)
    requires Good(c, m, v) && v.lane != [] && v.lane[0].Query?
    requires forall reply | reply in replies && reply !in v.replies ::
      && reply.Report? && reply.present == v.marker.Some? && reply.mine == (v.marker.Some? && bytes)
      && (v.marker.Some? ==> reply.seal == v.marker.value.seal)
    ensures Good(c, m, v.(lane := v.lane[1..], replies := replies))
  {
    var v' := v.(lane := v.lane[1..], replies := replies);
    forall reply | reply in replies ensures ReplyOk(m, v', reply) {
      if reply in v.replies { assert ReplyOk(m, v, reply); }
    }
  }

  /** A marker written for the same version on behalf of another movement, or by a publication. */
  lemma ForeignMarkerGood(c: Config, m: Id, v: View, marker: Marker)
    requires Good(c, m, v) && v.plan.Some? && v.marker.None? && marker.movement != Some(m)
    ensures Good(c, m, v.(marker := Some(marker)))
  {
    var v' := v.(marker := Some(marker));
    forall reply | reply in v.replies ensures ReplyOk(m, v', reply) { assert ReplyOk(m, v, reply); }
  }

  /** Messages are lost from the end of the inbox, or with the process. */
  lemma LoseGood(c: Config, m: Id, v: View, lane: seq<Msg>)
    requires Good(c, m, v) && lane <= v.lane
    ensures Good(c, m, v.(lane := lane))
  {
    var v' := v.(lane := lane);
    forall reply | reply in v.replies ensures v.plan.Some? ==> ReplyOk(m, v', reply) {
      if v.plan.Some? { assert ReplyOk(m, v, reply); }
    }
  }

  // ---- operator requests, retention -----------------------------------------

  /** What a cancellation in state `s` notes about the movement. */
  function Marked(v: View, s: State): View {
    v.(forced := v.forced || Committing(s), settled := v.settled || (s.Verified? && !v.skipped))
  }

  lemma CancelGood(c: Config, m: Id, v: View)
    requires Good(c, m, v) && v.stage.On? && StoredOpen(v) && v.owner.None?
    ensures var moved := Move(v.stored.value.(cancelRequested := true), Movement.Cancelled, true);
      moved.Some? ==> Good(c, m, PutV(Marked(v, v.stored.value.state), moved.value))
  {
  }

  lemma ReconcileBeginGood(c: Config, m: Id, v: View, lane: seq<Msg>)
    requires Good(c, m, v) && v.stage.On? && StoredUnknown(v) && v.owner.None?
    requires lane == v.lane || (exists msg: Msg :: msg.Query? && lane == v.lane + [msg])
    ensures Good(c, m, v.(owner := Some(Reconciling(v.stored.value)), lane := lane))
  {
    var v' := v.(owner := Some(Reconciling(v.stored.value)), lane := lane);
    forall reply | reply in v.replies ensures ReplyOk(m, v', reply) { assert ReplyOk(m, v, reply); }
  }

  lemma ReconcileEndGood(c: Config, m: Id, v: View, r: Rec)
    requires Good(c, m, v) && v.owner == Some(Reconciling(r))
    ensures Good(c, m, v.(owner := None))
  {
    forall reply | reply in v.replies ensures ReplyOk(m, v.(owner := None), reply) { assert ReplyOk(m, v, reply); }
  }

  /** What a report resolves is right: a present marker commits, an absent one proves that nothing will happen. */
  lemma ReconcileAnswerGood(c: Config, m: Id, v: View, r: Rec, reply: Reply)
    requires Good(c, m, v) && v.owner == Some(Reconciling(r)) && reply in v.replies && reply.Report?
    ensures Good(c, m, FinishV(v,
      if reply.present && reply.mine then Sealed(Move(r, Movement.Committed, true), reply.seal)
      else if !reply.present then
        Move(r, if r.cancelRequested then Movement.Cancelled else Movement.Failed, true)
      else None))
  {
    assert ReplyOk(m, v, reply);
    ReconcileEndGood(c, m, v, r);
  }

  lemma RetireGood(c: Config, m: Id, v: View, stage: Stage)
    requires Good(c, m, v) && v.stored.Some? && Movement.Terminal(v.stored.value.state)
    requires stage == v.stage || (v.stage.Listed? && stage.Passed?)
    ensures Good(c, m, v.(stored := None, stage := stage))
  {
    var v' := v.(stored := None, stage := stage);
    forall reply | reply in v.replies ensures ReplyOk(m, v', reply) { assert ReplyOk(m, v, reply); }
  }

  // ---- stop and start -------------------------------------------------------

  lemma StopGood(c: Config, m: Id, v: View)
    requires Good(c, m, v)
    ensures Good(c, m, v.(stage := Off, owner := None, queued := false, replies := {}))
  {
  }

  lemma LaunchGood(c: Config, m: Id, v: View, listed: bool)
    requires Good(c, m, v) && v.stage.Off? && (listed ==> v.stored.Some?)
    ensures Good(c, m, v.(
      stage := if listed then Listed else Passed,
      stored := if v.stored.Some? then Some(Reread(v.stored.value)) else None,
      skipped := v.stored.Some? && !listed))
  {
  }

  lemma RecoverGood(c: Config, m: Id, v: View)
    requires Good(c, m, v) && v.stage.Listed? && v.stored.Some?
    ensures var r := v.stored.value;
      var moved := if Movement.Terminal(r.state) then None
                   else Move(r, if r.state.Planned? then Movement.Failed else Movement.OutcomeUnknown, true);
      Good(c, m, if moved.Some? then PutV(v.(stage := Passed), moved.value) else v.(stage := Passed))
  {
  }

  lemma RecoveredGood(c: Config, m: Id, v: View)
    requires Good(c, m, v) && v.stage.Passed?
    ensures Good(c, m, v.(stage := On))
  {
  }
}
