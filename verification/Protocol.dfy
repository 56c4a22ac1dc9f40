/**
  The commit and reconciliation protocol as a state machine: the coordinator's
  workers (src/coordinator.cpp), the destination process and its control inbox
  (src/endpoint_agent.cpp), and the commit markers on the destination's disk
  (src/object_store.cpp).

  Steps are atomic and chosen by an adversary: messages are lost, processes and the
  coordinator stop anywhere, replies arrive late, twice or not at all. One actor at a
  time owns a movement's record, an endpoint store has at most one live process, and
  a store write either happens or the process stops.
 */
module Protocol {
  import opened Types
  import Movement

  type State = Movement.State
  type Id = nat
  type Endpoint = nat
  /** One object id at one generation. */
  type Version = nat
  /** The digest that seals a commit marker. */
  type Seal = nat

  /** The policy's bound on attempts, and how many records a recovery lists. */
  datatype Config = Config(maxAttempts: nat, maxHistory: nat)

  /** `MovementPolicy::validate`: both are at least one. */
  predicate ValidConfig(c: Config) {
    c.maxAttempts >= 1 && c.maxHistory >= 1
  }

  datatype Plan = Plan(destination: Endpoint, version: Version)

  /** What the protocol uses of a movement record. `used` of `bound` provenance events are taken. */
  datatype Rec = Rec(
    plan: Plan, state: State, generation: nat, seal: Seal, attempts: nat, used: nat, bound: nat,
    cancelRequested: bool)

  const LAST_GENERATION := U64_LIMIT - 1

  /** One more event fits and the generation can still advance. */
  predicate HasRoom(r: Rec) {
    r.used < r.bound && r.generation < LAST_GENERATION
  }

  /** `apply_transition`: legal, and its event is accepted. `text` says that the event's detail is well formed. */
  function Move(r: Rec, to: State, text: bool): Option<Rec> {
    if Movement.Legal(r.state, to) && text && HasRoom(r)
    then Some(r.(state := to, generation := r.generation + 1, used := r.used + 1))
    else None
  }

  /** `record_attempt_started` */
  function Begin(r: Rec): Option<Rec> {
    if !Movement.Terminal(r.state) && HasRoom(r)
    then Some(r.(generation := r.generation + 1, attempts := r.attempts + 1, used := r.used + 1))
    else None
  }

  /** A provenance note, dropped when there is no room for it or its text is malformed. */
  function Note(r: Rec, text: bool): Rec {
    if text && r.used < r.bound then r.(used := r.used + 1) else r
  }

  /** Where a worker stands in `drive_movement`; `n` is the attempt number. */
  datatype Phase =
    | Start
    | Between(n: nat)
    | Granted(n: nat)
    | Awaiting(n: nat, stale: nat)
    | Arrived(n: nat)
    | Barrier(n: nat)
    | CommitWait

  /** Who holds a movement's record, with its working copy. */
  datatype Owner = Submitting(r: Rec) | Driving(r: Rec, phase: Phase) | Reconciling(r: Rec)

  datatype Msg = Commit(m: Id, generation: nat, version: Version) | Query(m: Id, version: Version)

  datatype Reply =
    | CommitResult(m: Id, generation: nat, ok: bool, seal: Seal)
    | Report(m: Id, present: bool, mine: bool, seal: Seal)

  /** A local publication's marker names no movement of this coordinator. */
  datatype Marker = Marker(movement: Option<Id>, seal: Seal)

  datatype Proc = Proc(inbox: seq<Msg>, linked: bool)

  datatype Mode = Down | Recovering(todo: set<Id>) | Running

  /**
    `sent` holds every reply the current coordinator could still receive. The last
    eight fields are history: every plan and when it was made, grants and commit requests
    issued, movements cancelled while VERIFIED or OUTCOME_UNKNOWN (`forced`), movements the
    last recovery did not list (`skipped`), movements ever found not to have taken effect
    (`settled`), and the first verdict stored for each movement (`finals`).
   */
  datatype World = World(
    mode: Mode,
    store: map<Id, Rec>,
    owners: map<Id, Owner>,
    queue: set<Id>,
    procs: map<Endpoint, Proc>,
    markers: map<Plan, Marker>,
    sent: set<Reply>,
    plans: map<Id, Plan>,
    born: map<Id, nat>,
    grants: map<Id, nat>,
    commits: map<Id, nat>,
    forced: set<Id>,
    skipped: set<Id>,
    settled: set<Id>,
    finals: map<Id, Verdict>)

  datatype Verdict = Verdict(state: State, seal: Seal)

  const INIT := World(Down, map[], map[], {}, map[], map[], {}, map[], map[], map[], map[], {}, {}, {}, map[])

  function Count(counts: map<Id, nat>, m: Id): nat {
    if m in counts then counts[m] else 0
  }

  // ---- elementary changes ---------------------------------------------------

  /** Markers, plans and history are never taken back. */
  predicate Grows(w: World, w': World) {
    && (forall place | place in w.markers :: place in w'.markers && w'.markers[place] == w.markers[place])
    && (forall m | m in w.plans :: m in w'.plans && w'.plans[m] == w.plans[m])
    && (forall m | m in w.finals :: m in w'.finals && w'.finals[m] == w.finals[m])
    && w.settled <= w'.settled
  }

  /** The network and the disks are left alone. */
  predicate SameNet(w: World, w': World) {
    w'.plans == w.plans && w'.procs == w.procs && w'.markers == w.markers
  }

  /** Recorded as cancelled, failed or superseded: it did not take effect. */
  predicate Dead(s: State) {
    s.Failed? || s.Superseded? || s.Cancelled?
  }

  function Put(w: World, m: Id, r: Rec): (w': World)
    ensures SameNet(w, w') && Grows(w, w')
  {
    w.(store := w.store[m := r],
       settled := if Dead(r.state) && m !in w.forced then w.settled + {m} else w.settled,
       finals := if Movement.Terminal(r.state) && m !in w.finals then w.finals[m := Verdict(r.state, r.seal)]
                 else w.finals)
  }

  function Own(w: World, m: Id, o: Owner): (w': World)
    ensures SameNet(w, w') && Grows(w, w')
  {
    w.(owners := w.owners[m := o])
  }

  function Disown(w: World, m: Id): (w': World)
    ensures SameNet(w, w') && Grows(w, w')
  {
    w.(owners := w.owners - {m})
  }

  /** Store the moved record, when the transition was accepted, and let go of it. */
  function Finish(w: World, m: Id, moved: Option<Rec>): (w': World)
    ensures SameNet(w, w') && Grows(w, w')
  {
    Disown(if moved.Some? then Put(w, m, moved.value) else w, m)
  }

  /** Store the moved record and stay, or let go when the transition was refused. */
  function Continue(w: World, m: Id, moved: Option<Rec>, phase: Phase): (w': World)
    ensures SameNet(w, w') && Grows(w, w')
  {
    if moved.Some? then Own(Put(w, m, moved.value), m, Driving(moved.value, phase)) else Disown(w, m)
  }

  predicate Linked(w: World, e: Endpoint) {
    e in w.procs && w.procs[e].linked
  }

  function Send(w: World, e: Endpoint, msg: Msg): (w': World)
    requires e in w.procs
    ensures Grows(w, w')
  {
    w.(procs := w.procs[e := w.procs[e].(inbox := w.procs[e].inbox + [msg])])
  }

  function Pop(w: World, e: Endpoint): (w': World)
    requires e in w.procs && w.procs[e].inbox != []
    ensures Grows(w, w')
  {
    w.(procs := w.procs[e := w.procs[e].(inbox := w.procs[e].inbox[1..])])
  }

  function Answer(w: World, e: Endpoint, reply: Reply): (w': World)
    ensures Grows(w, w')
  {
    if Linked(w, e) then w.(sent := w.sent + {reply}) else w
  }

  // ---- steps ----------------------------------------------------------------

  datatype Step =
    // coordinator: submission and the worker
    | Submit(m: Id, plan: Plan, bound: nat)
    | Authorize(m: Id)
    | Pick(m: Id)
    | Attempt(m: Id)
    | Dispatch(m: Id)
    | Stale(m: Id)
    | Result(m: Id, good: bool, text: bool)
    | Verify(m: Id, good: bool, text: bool)
    | SendCommit(m: Id, delivered: bool)
    | CommitAnswer(m: Id, reply: Reply, text: bool)
    | NoAnswer(m: Id)
    | GiveUp(m: Id, to: State, text: bool)
    | Abandon(m: Id)
    // coordinator: operator requests and retention
    | Cancel(m: Id)
    | ReconcileBegin(m: Id, delivered: bool)
    | ReconcileAnswer(m: Id, reply: Reply)
    | ReconcileNoAnswer(m: Id)
    | Retire(m: Id)
    // coordinator: stop and start
    | Stop
    | Launch(listed: set<Id>)
    | Recover(m: Id)
    | Recovered
    // endpoints
    | Register(e: Endpoint)
    | HandleCommit(e: Endpoint, willing: bool, seal: Seal)
    | HandleQuery(e: Endpoint, bytes: bool)
    | LinkDown(e: Endpoint)
    | Lose(e: Endpoint, kept: nat)
    | Exit(e: Endpoint)
    | Publish(e: Endpoint, version: Version, seal: Seal)

  /** The outcomes `drive_movement` may record on giving up. */
  predicate MayGiveUp(c: Config, r: Rec, phase: Phase, to: State) {
    match phase
    case Start => to.Failed? || to.Superseded? || (to.Cancelled? && r.cancelRequested)
    case Between(_) => to.Cancelled? && r.cancelRequested
    case Granted(_) => to.Failed?
    case Awaiting(n, _) => to.OutcomeUnknown? || to.Cancelled? || (to.Failed? && n >= c.maxAttempts)
    case Arrived(n) => to.Failed? && n >= c.maxAttempts
    case Barrier(_) => to.Cancelled? && r.cancelRequested
    case CommitWait => false
  }

  predicate DrivingIn(w: World, m: Id) {
    m in w.owners && w.owners[m].Driving?
  }

  predicate Idle(w: World, m: Id) {
    w.mode.Running? && m in w.store && m !in w.owners
  }

  predicate NextAttempt(c: Config, phase: Phase) {
    match phase
    case Start => 1 <= c.maxAttempts
    case Between(_) => true
    case _ => false
  }

  predicate Head(w: World, e: Endpoint, commit: bool) {
    e in w.procs && w.procs[e].inbox != [] && (w.procs[e].inbox[0].Commit? <==> commit)
  }

  /** `list` as recovery calls it: the newest records, up to the bound. */
  predicate Newest(c: Config, w: World, listed: set<Id>) {
    && listed <= w.store.Keys
    && |listed| == (if |w.store| < c.maxHistory then |w.store| else c.maxHistory)
    && forall a, b | a in listed && b in w.store.Keys - listed :: Count(w.born, a) > Count(w.born, b)
  }

  predicate Enabled(c: Config, w: World, s: Step) {
    match s
    case Submit(m, plan, bound) => w.mode.Running? && m !in w.plans && bound <= Movement.MAX_EVENTS && bound > 0
    case Authorize(m) => m in w.owners && w.owners[m].Submitting?
    case Pick(m) => m in w.queue && m !in w.owners
    case Attempt(m) => DrivingIn(w, m) && NextAttempt(c, w.owners[m].phase)
    case Dispatch(m) => DrivingIn(w, m) && w.owners[m].phase.Granted?
    case Stale(m) => DrivingIn(w, m) && w.owners[m].phase.Awaiting?
    case Result(m, good, _) =>
      DrivingIn(w, m) && w.owners[m].phase.Awaiting? && (good || w.owners[m].phase.n < c.maxAttempts)
    case Verify(m, good, _) =>
      DrivingIn(w, m) && w.owners[m].phase.Arrived? && (good || w.owners[m].phase.n < c.maxAttempts)
    case SendCommit(m, delivered) =>
      && DrivingIn(w, m) && w.owners[m].phase.Barrier? && !w.owners[m].r.cancelRequested
      && (delivered ==> Linked(w, w.owners[m].r.plan.destination))
    case CommitAnswer(m, reply, _) =>
      DrivingIn(w, m) && w.owners[m].phase.CommitWait? && reply in w.sent && reply.CommitResult? && reply.m == m
    case NoAnswer(m) => DrivingIn(w, m) && w.owners[m].phase.CommitWait?
    case GiveUp(m, to, _) => DrivingIn(w, m) && MayGiveUp(c, w.owners[m].r, w.owners[m].phase, to)
    case Abandon(m) => DrivingIn(w, m) && (w.owners[m].phase.Granted? || w.owners[m].phase.Awaiting?)
    case Cancel(m) => Idle(w, m) && !Movement.Terminal(w.store[m].state)
    case ReconcileBegin(m, _) =>
      Idle(w, m) && w.store[m].state.OutcomeUnknown? && Linked(w, w.store[m].plan.destination)
    case ReconcileAnswer(m, reply) =>
      m in w.owners && w.owners[m].Reconciling? && reply in w.sent && reply.Report? && reply.m == m
    case ReconcileNoAnswer(m) => m in w.owners && w.owners[m].Reconciling?
    case Retire(m) => !w.mode.Down? && m in w.store && Movement.Terminal(w.store[m].state)
    case Stop => true
    case Launch(listed) => w.mode.Down? && Newest(c, w, listed)
    case Recover(m) => w.mode.Recovering? && m in w.mode.todo && m in w.store
    case Recovered => w.mode.Recovering? && w.mode.todo == {}
    case Register(e) => w.mode.Running? && e !in w.procs
    case HandleCommit(e, _, _) => Head(w, e, true)
    case HandleQuery(e, _) => Head(w, e, false)
    case LinkDown(e) => e in w.procs
    case Lose(e, kept) => e in w.procs && !w.procs[e].linked && kept <= |w.procs[e].inbox|
    case Exit(e) => e in w.procs
    case Publish(e, version, _) => Plan(e, version) !in w.markers
  }

  // ---- what each step does --------------------------------------------------

  function DoSubmit(w: World, m: Id, plan: Plan, bound: nat): (w': World)
  {
    var r := Rec(plan, Movement.Planned, 1, 0, 0, 1, bound, false);
    Own(Put(w.(plans := w.plans[m := plan], born := w.born[m := |w.plans|]), m, r), m, Submitting(r))
  }

  function DoAuthorize(w: World, m: Id, r: Rec): (w': World)
    ensures SameNet(w, w')
  {
    var moved := Move(r, Movement.Authorized, true);
    var done := Finish(w, m, moved);
    if moved.Some? then done.(queue := done.queue + {m}) else done
  }

  function DoPick(w: World, m: Id): (w': World)
    ensures SameNet(w, w')
  {
    var taken := w.(queue := w.queue - {m});
    if m in w.store && !Movement.Terminal(w.store[m].state) && !w.store[m].state.OutcomeUnknown?
    then Own(taken, m, Driving(w.store[m], Start))
    else taken
  }

  function DoAttempt(w: World, m: Id, r: Rec, n: nat): (w': World)
    ensures SameNet(w, w')
  {
    var begun := Begin(r);
    var granted := if begun.Some? then w.(grants := w.grants[m := Count(w.grants, m) + 1]) else w;
    Continue(granted, m, begun, Granted(n))
  }

  function DoStale(w: World, m: Id, r: Rec, n: nat, stale: nat): (w': World)
    ensures SameNet(w, w')
  {
    if stale + 1 >= 4 then Finish(w, m, Move(Note(r, true), Movement.OutcomeUnknown, true))
    else Own(w, m, Driving(Note(r, true), Awaiting(n, stale + 1)))
  }

  function DoRetry(w: World, m: Id, r: Rec, n: nat, text: bool): (w': World)
    ensures SameNet(w, w')
  {
    Continue(w, m, Some(Note(r, text)), Between(n + 1))
  }

  function DoSendCommit(w: World, m: Id, r: Rec, delivered: bool): (w': World)
    requires delivered ==> Linked(w, r.plan.destination)
  {
    var asked := Own(w.(commits := w.commits[m := Count(w.commits, m) + 1]), m, Driving(r, CommitWait));
    if delivered then Send(asked, r.plan.destination, Commit(m, r.generation, r.plan.version)) else asked
  }

  function Sealed(moved: Option<Rec>, seal: Seal): Option<Rec> {
    if moved.Some? then Some(moved.value.(seal := seal)) else None
  }

  function DoCommitAnswer(w: World, m: Id, r: Rec, reply: Reply, text: bool): (w': World)
    requires reply.CommitResult?
    ensures SameNet(w, w')
  {
    Finish(w, m,
      if reply.generation != r.generation then Move(r, Movement.OutcomeUnknown, true)
      else if !reply.ok then Move(r, Movement.Failed, text)
      else Sealed(Move(r, Movement.Committed, true), reply.seal))
  }

  /** The states in which a commit request may already be out. */
  predicate Committing(s: State) {
    s.Verified? || s.OutcomeUnknown?
  }

  /** What a cancellation in state `s` notes in the history. */
  function NoteCancel(w: World, m: Id, s: State): (w': World)
    ensures SameNet(w, w') && Grows(w, w')
  {
    w.(forced := if Committing(s) then w.forced + {m} else w.forced,
       settled := if s.Verified? && m !in w.skipped then w.settled + {m} else w.settled)
  }

  function DoCancel(w: World, m: Id): (w': World)
    requires m in w.store
    ensures SameNet(w, w')
  {
    var r := w.store[m];
    var moved := Move(r.(cancelRequested := true), Movement.Cancelled, true);
    if moved.None? then w else Put(NoteCancel(w, m, r.state), m, moved.value)
  }

  function DoReconcileBegin(w: World, m: Id, delivered: bool): (w': World)
    requires m in w.store && Linked(w, w.store[m].plan.destination)
  {
    var r := w.store[m];
    var held := Own(w, m, Reconciling(r));
    if delivered then Send(held, r.plan.destination, Query(m, r.plan.version)) else held
  }

  function DoReconcileAnswer(w: World, m: Id, r: Rec, reply: Reply): (w': World)
    requires reply.Report?
    ensures SameNet(w, w')
  {
    Finish(w, m,
      if reply.present && reply.mine then Sealed(Move(r, Movement.Committed, true), reply.seal)
      else if !reply.present then
        Move(r, if r.cancelRequested then Movement.Cancelled else Movement.Failed, true)
      else None)
  }

  /** Retention, which also runs at the end of every put that recovery makes. */
  function DoRetire(w: World, m: Id): (w': World)
    ensures SameNet(w, w')
  {
    w.(store := w.store - {m},
       mode := if w.mode.Recovering? then Mode.Recovering(w.mode.todo - {m}) else w.mode)
  }

  /** Every connection ends with the coordinator. */
  function DoStop(w: World): (w': World)
  {
    w.(mode := Down, owners := map[], queue := {}, sent := {},
       procs := map e | e in w.procs :: w.procs[e].(linked := false))
  }

  /** Reading the store back resets provenance bounds to the ceiling. */
  function Reread(r: Rec): Rec {
    r.(bound := Movement.MAX_EVENTS)
  }

  function DoLaunch(w: World, listed: set<Id>): (w': World)
    ensures SameNet(w, w')
  {
    w.(mode := Mode.Recovering(listed), store := map m | m in w.store :: Reread(w.store[m]),
       skipped := w.store.Keys - listed)
  }

  function DoRecover(w: World, m: Id): (w': World)
    requires w.mode.Recovering? && m in w.store
    ensures SameNet(w, w')
  {
    var r := w.store[m];
    var turned := w.(mode := Mode.Recovering(w.mode.todo - {m}));
    var moved := if Movement.Terminal(r.state) then None
                 else Move(r, if r.state.Planned? then Movement.Failed else Movement.OutcomeUnknown, true);
    if moved.Some? then Put(turned, m, moved.value) else turned
  }

  /** `on_commit_request` and `write_commit_marker`: write once, repeat only the same seal. */
  function DoHandleCommit(w: World, e: Endpoint, willing: bool, seal: Seal): (w': World)
    requires Head(w, e, true)
  {
    var msg := w.procs[e].inbox[0];
    var place := Plan(e, msg.version);
    var ok := willing && (place in w.markers ==> w.markers[place].seal == seal);
    var marked := if ok && place !in w.markers then w.(markers := w.markers[place := Marker(Some(msg.m), seal)]) else w;
    Answer(Pop(marked, e), e, CommitResult(msg.m, msg.generation, ok, if ok then seal else 0))
  }

  /** `on_authority_query`; `bytes` says that placed bytes of the recorded size are there. */
  function DoHandleQuery(w: World, e: Endpoint, bytes: bool): (w': World)
    requires Head(w, e, false)
  {
    var msg := w.procs[e].inbox[0];
    var place := Plan(e, msg.version);
    var present := place in w.markers;
    Answer(Pop(w, e), e, Report(msg.m, present, present && bytes, if present then w.markers[place].seal else 0))
  }

  function Apply(c: Config, w: World, s: Step): World
    requires Enabled(c, w, s)
  {
    match s
    case Submit(m, plan, bound) => DoSubmit(w, m, plan, bound)
    case Authorize(m) => DoAuthorize(w, m, w.owners[m].r)
    case Pick(m) => DoPick(w, m)
    case Attempt(m) => DoAttempt(w, m, w.owners[m].r, if w.owners[m].phase.Start? then 1 else w.owners[m].phase.n)
    case Dispatch(m) =>
      Continue(w, m, Move(w.owners[m].r, Movement.Transferring, true), Awaiting(w.owners[m].phase.n, 0))
    case Stale(m) => DoStale(w, m, w.owners[m].r, w.owners[m].phase.n, w.owners[m].phase.stale)
    case Result(m, good, text) =>
      if good then Continue(w, m, Move(w.owners[m].r, Movement.BytesArrived, true), Arrived(w.owners[m].phase.n))
      else DoRetry(w, m, w.owners[m].r, w.owners[m].phase.n, text)
    case Verify(m, good, text) =>
      if good then Continue(w, m, Move(w.owners[m].r, Movement.Verified, true), Barrier(w.owners[m].phase.n))
      else DoRetry(w, m, w.owners[m].r, w.owners[m].phase.n, text)
    case SendCommit(m, delivered) => DoSendCommit(w, m, w.owners[m].r, delivered)
    case CommitAnswer(m, reply, text) => DoCommitAnswer(w, m, w.owners[m].r, reply, text)
    case NoAnswer(m) => Finish(w, m, Move(w.owners[m].r, Movement.OutcomeUnknown, true))
    case GiveUp(m, to, text) => Finish(w, m, Move(w.owners[m].r, to, text))
    case Abandon(m) => Disown(w, m)
    case Cancel(m) => DoCancel(w, m)
    case ReconcileBegin(m, delivered) => DoReconcileBegin(w, m, delivered)
    case ReconcileAnswer(m, reply) => DoReconcileAnswer(w, m, w.owners[m].r, reply)
    case ReconcileNoAnswer(m) => Disown(w, m)
    case Retire(m) => DoRetire(w, m)
    case Stop => DoStop(w)
    case Launch(listed) => DoLaunch(w, listed)
    case Recover(m) => DoRecover(w, m)
    case Recovered => w.(mode := Running)
    case Register(e) => w.(procs := w.procs[e := Proc([], true)])
    case HandleCommit(e, willing, seal) => DoHandleCommit(w, e, willing, seal)
    case HandleQuery(e, bytes) => DoHandleQuery(w, e, bytes)
    case LinkDown(e) => w.(procs := w.procs[e := w.procs[e].(linked := false)])
    case Lose(e, kept) => w.(procs := w.procs[e := w.procs[e].(inbox := w.procs[e].inbox[..kept])])
    case Exit(e) => w.(procs := w.procs - {e})
    case Publish(e, version, seal) => w.(markers := w.markers[Plan(e, version) := Marker(None, seal)])
  }

  ghost predicate IsStep(c: Config, w: World, s: Step, w': World) {
    Enabled(c, w, s) && w' == Apply(c, w, s)
  }

  ghost predicate IsRun(c: Config, worlds: seq<World>, steps: seq<Step>) {
    && |worlds| == |steps| + 1 && worlds[0] == INIT
    && (forall i | 0 <= i < |steps| :: IsStep(c, worlds[i], steps[i], worlds[i + 1]))
  }

  // ---- the record's part, tied to the record itself -------------------------

  /** What the protocol sees of a full movement record. */
  function Abstract(r: Movement.Record, plan: Plan, seal: Seal): Rec {
    Rec(plan, r.state, r.generation, seal, r.attemptCount, |r.provenance.events|, r.provenance.bound, r.cancelRequested)
  }

  /** The text a provenance event carries is accepted. */
  predicate WellFormed(detail: Bytes, now: i64) {
    now > 0 && |detail| <= Movement.MAX_DETAIL && Movement.Utf8.Accepts(detail)
  }

  /** A chain's bound is never above the ceiling, and it never holds more than its bound. */
  predicate Bounded(r: Movement.Record) {
    |r.provenance.events| <= r.provenance.bound <= Movement.MAX_EVENTS
  }

  /** `Move` is `apply_transition`. */
  lemma MoveIsTransition(
    r: Movement.Record, to: State, d: Movement.Decision, kind: Movement.EventKind, refusal: Movement.Decision, now: i64,
    plan: Plan, seal: Seal)
    requires Bounded(r)
    ensures var moved := Move(Abstract(r, plan, seal), to, WellFormed(d.detail, now));
      var (r', status) := Movement.ApplyTransition(r, to, d, kind, refusal, now);
      (status.Ok() <==> moved.Some?) && (status.Ok() ==> moved == Some(Abstract(r', plan, seal)) && Bounded(r'))
  {
  }

  /** `Begin` is `record_attempt_started`, whose detail text is always well formed. */
  lemma BeginIsAttempt(r: Movement.Record, attempt: Id16, detail: Bytes, now: i64, plan: Plan, seal: Seal)
    requires Bounded(r) && WellFormed(detail, now) && r.attemptCount <= Movement.MAX_ATTEMPTS
    ensures var begun := Begin(Abstract(r, plan, seal));
      var (r', status) := Movement.RecordAttempt(r, attempt, detail, now);
      (status.Ok() <==> begun.Some?) && (status.Ok() ==> begun == Some(Abstract(r', plan, seal)) && Bounded(r'))
  {
  }

  /** `Note` is a provenance append whose failure is ignored. */
  lemma NoteIsAppend(
    r: Movement.Record, kind: Movement.EventKind, reason: u16, detail: Bytes, now: i64, plan: Plan, seal: Seal)
    requires Bounded(r) && r.generation != 0
    ensures var r' := Movement.Perform(r, Movement.Note(kind, reason, detail, now)).0;
      Note(Abstract(r, plan, seal), WellFormed(detail, now)) == Abstract(r', plan, seal) && Bounded(r')
  {
  }
}
