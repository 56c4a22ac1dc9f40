/**
  Retries (src/coordinator.cpp:1234-1412): which second attempts the worker really makes.
  After a failed transfer the next dispatch is refused by the state machine and the record
  is left TRANSFERRING with nobody holding it; only a failed verification is retried.
 */
module ProtocolRetries {
  import opened Types
  import Movement
  import opened Protocol
  import opened ProtocolView
  import opened ProtocolRuns
  import opened ProtocolScripts

  // ---- what a step leaves alone ----------------------------------------------

  /** The movement a step is about. */
  function Mover(s: Step): Option<Id> {
    match s
    case Submit(m, _, _) => Some(m)
    case Authorize(m) => Some(m)
    case Pick(m) => Some(m)
    case Attempt(m) => Some(m)
    case Dispatch(m) => Some(m)
    case Stale(m) => Some(m)
    case Result(m, _, _) => Some(m)
    case Verify(m, _, _) => Some(m)
    case SendCommit(m, _) => Some(m)
    case CommitAnswer(m, _, _) => Some(m)
    case NoAnswer(m) => Some(m)
    case GiveUp(m, _, _) => Some(m)
    case Abandon(m) => Some(m)
    case Cancel(m) => Some(m)
    case ReconcileBegin(m, _) => Some(m)
    case ReconcileAnswer(m, _) => Some(m)
    case ReconcileNoAnswer(m) => Some(m)
    case Retire(m) => Some(m)
    case Recover(m) => Some(m)
    case _ => None
  }

  /** The coordinator's hold on `x` is the same. */
  predicate SameFor(w: World, w': World, x: Id) {
    && Lookup(w'.store, x) == Lookup(w.store, x) && Lookup(w'.owners, x) == Lookup(w.owners, x)
    && (x in w'.queue <==> x in w.queue) && (w.mode.Running? ==> w'.mode.Running?)
  }

  /** An attempt failed and the next one is under way, not yet dispatched. */
  predicate Retrying(w: World, m: Id) {
    && DrivingIn(w, m)
    && (w.owners[m].phase.Between? || (w.owners[m].phase.Granted? && w.owners[m].phase.n >= 2))
  }

  lemma PutFrame(w: World, m: Id, r: Rec, x: Id)
    requires m != x
    ensures SameFor(w, Put(w, m, r), x)
  {
    hide Grows;
  }

  lemma OwnFrame(w: World, m: Id, o: Owner, x: Id)
    requires m != x
    ensures SameFor(w, Own(w, m, o), x)
  {
    hide Grows;
  }

  lemma FinishFrame(w: World, m: Id, moved: Option<Rec>, x: Id)
    requires m != x
    ensures SameFor(w, Finish(w, m, moved), x) && m !in Finish(w, m, moved).owners
  {
    hide Put, Grows;
    if moved.Some? { PutFrame(w, m, moved.value, x); }
  }

  lemma ContinueFrame(w: World, m: Id, moved: Option<Rec>, phase: Phase, x: Id)
    requires m != x
    ensures SameFor(w, Continue(w, m, moved, phase), x)
  {
    hide Put, Grows;
    if moved.Some? { PutFrame(w, m, moved.value, x); }
  }

  lemma SubmitFrame(w: World, m: Id, plan: Plan, bound: nat, x: Id)
    requires m != x
    ensures SameFor(w, DoSubmit(w, m, plan, bound), x)
  {
    hide Grows;
  }

  lemma AuthorizeFrame(w: World, m: Id, r: Rec, x: Id)
    requires m != x
    ensures SameFor(w, DoAuthorize(w, m, r), x)
  {
    hide Move, Finish, Grows;
    FinishFrame(w, m, Move(r, Movement.Authorized, true), x);
  }

  lemma PickFrame(w: World, m: Id, x: Id)
    requires m != x
    ensures SameFor(w, DoPick(w, m), x)
  {
    hide Grows;
  }

  lemma AttemptFrame(w: World, m: Id, r: Rec, n: nat, x: Id)
    requires m != x
    ensures SameFor(w, DoAttempt(w, m, r, n), x)
  {
    hide Begin, Continue, Grows;
    ContinueFrame(w.(grants := w.grants[m := Count(w.grants, m) + 1]), m, Begin(r), Granted(n), x);
    ContinueFrame(w, m, Begin(r), Granted(n), x);
  }

  lemma StaleFrame(w: World, m: Id, r: Rec, n: nat, stale: nat, x: Id)
    requires m != x
    ensures SameFor(w, DoStale(w, m, r, n, stale), x)
  {
    hide Move, Note, Finish, Own, Grows, SameFor;
    FinishFrame(w, m, Move(Note(r, true), Movement.OutcomeUnknown, true), x);
    OwnFrame(w, m, Driving(Note(r, true), Awaiting(n, stale + 1)), x);
  }

  lemma WorkerFrame(c: Config, w: World, s: Step, x: Id)
    requires Enabled(c, w, s) && Mover(s) != Some(x)
    requires s.Submit? || s.Authorize? || s.Pick? || s.Attempt? || s.Dispatch? || s.Stale? || s.Result? || s.Verify?
    ensures SameFor(w, Apply(c, w, s), x)
  {
    hide SameFor, Move, Note, Continue, DoSubmit, DoAuthorize, DoPick, DoAttempt, DoStale, Grows;
    match s
    case Submit(m, plan, bound) => SubmitFrame(w, m, plan, bound, x);
    case Authorize(m) => AuthorizeFrame(w, m, w.owners[m].r, x);
    case Pick(m) => PickFrame(w, m, x);
    case Attempt(m) =>
      AttemptFrame(w, m, w.owners[m].r, if w.owners[m].phase.Start? then 1 else w.owners[m].phase.n, x);
    case Stale(m) => StaleFrame(w, m, w.owners[m].r, w.owners[m].phase.n, w.owners[m].phase.stale, x);
    case Dispatch(m) =>
      ContinueFrame(w, m, Move(w.owners[m].r, Movement.Transferring, true), Awaiting(w.owners[m].phase.n, 0), x);
    case Result(m, good, text) =>
      ContinueFrame(w, m, Move(w.owners[m].r, Movement.BytesArrived, true), Arrived(w.owners[m].phase.n), x);
      ContinueFrame(w, m, Some(Note(w.owners[m].r, text)), Between(w.owners[m].phase.n + 1), x);
    case Verify(m, good, text) =>
      ContinueFrame(w, m, Move(w.owners[m].r, Movement.Verified, true), Barrier(w.owners[m].phase.n), x);
      ContinueFrame(w, m, Some(Note(w.owners[m].r, text)), Between(w.owners[m].phase.n + 1), x);
  }

  lemma SendCommitFrame(w: World, m: Id, r: Rec, delivered: bool, x: Id)
    requires m != x && (delivered ==> Linked(w, r.plan.destination))
    ensures SameFor(w, DoSendCommit(w, m, r, delivered), x)
    ensures var w' := DoSendCommit(w, m, r, delivered); m in w'.owners && w'.owners[m] == Driving(r, CommitWait)
  {
    hide Grows;
  }

  lemma CancelFrame(w: World, m: Id, x: Id)
    requires m != x && m in w.store
    ensures SameFor(w, DoCancel(w, m), x) && DoCancel(w, m).owners == w.owners
  {
    hide Move, Grows;
  }

  lemma ReconcileFrame(w: World, m: Id, delivered: bool, x: Id)
    requires m != x && m in w.store && Linked(w, w.store[m].plan.destination)
    ensures SameFor(w, DoReconcileBegin(w, m, delivered), x)
    ensures var w' := DoReconcileBegin(w, m, delivered); m in w'.owners && w'.owners[m].Reconciling?
  {
    hide Grows;
  }

  /** What ends a worker's or a reconciliation's hold, and the steps of an operator. */
  lemma EndFrame(c: Config, w: World, s: Step, m: Id, x: Id)
    requires Enabled(c, w, s) && Mover(s) == Some(m) && m != x
    requires s.SendCommit? || s.CommitAnswer? || s.NoAnswer? || s.GiveUp? || s.Abandon? || s.Cancel? ||
      s.ReconcileBegin? || s.ReconcileAnswer? || s.ReconcileNoAnswer?
    ensures SameFor(w, Apply(c, w, s), x) && !Retrying(Apply(c, w, s), m)
  {
    hide SameFor, Move, Sealed, MayGiveUp, Finish, DoSendCommit, DoCancel, DoReconcileBegin, Grows;
    match s
    case SendCommit(_, delivered) => SendCommitFrame(w, m, w.owners[m].r, delivered, x);
    case CommitAnswer(_, reply, text) =>
      var r := w.owners[m].r;
      FinishFrame(w, m,
        if reply.generation != r.generation then Move(r, Movement.OutcomeUnknown, true)
        else if !reply.ok then Move(r, Movement.Failed, text)
        else Sealed(Move(r, Movement.Committed, true), reply.seal), x);
    case NoAnswer(_) => FinishFrame(w, m, Move(w.owners[m].r, Movement.OutcomeUnknown, true), x);
    case GiveUp(_, to, text) => FinishFrame(w, m, Move(w.owners[m].r, to, text), x);
    case Abandon(_) => DisownFrame(w, m, x);
    case Cancel(_) => CancelFrame(w, m, x);
    case ReconcileBegin(_, delivered) => ReconcileFrame(w, m, delivered, x);
    case ReconcileAnswer(_, reply) =>
      var r := w.owners[m].r;
      FinishFrame(w, m,
        if reply.present && reply.mine then Sealed(Move(r, Movement.Committed, true), reply.seal)
        else if !reply.present then Move(r, if r.cancelRequested then Movement.Cancelled else Movement.Failed, true)
        else None, x);
    case ReconcileNoAnswer(_) => DisownFrame(w, m, x);
  }

  lemma DisownFrame(w: World, m: Id, x: Id)
    requires m != x
    ensures SameFor(w, Disown(w, m), x) && m !in Disown(w, m).owners
  {
    hide Grows;
  }

  lemma RecoverFrame(w: World, m: Id, x: Id)
    requires m != x && w.mode.Recovering? && m in w.store
    ensures SameFor(w, DoRecover(w, m), x) && DoRecover(w, m).owners == w.owners
  {
    hide Move, Grows;
    var r := w.store[m];
    var turned := w.(mode := Mode.Recovering(w.mode.todo - {m}));
    var moved := if Movement.Terminal(r.state) then None
                 else Move(r, if r.state.Planned? then Movement.Failed else Movement.OutcomeUnknown, true);
    if moved.Some? { PutFrame(turned, m, moved.value, x); }
  }

  lemma AnsweredFrame(w: World, w1: World, e: Endpoint, reply: Reply, x: Id)
    requires e in w1.procs && w1.procs[e].inbox != []
    requires w1.store == w.store && w1.owners == w.owners && w1.queue == w.queue && w1.mode == w.mode
    ensures SameFor(w, Answer(Pop(w1, e), e, reply), x)
  {
    hide Grows;
  }

  lemma HandleCommitFrame(w: World, e: Endpoint, willing: bool, seal: Seal, x: Id)
    requires Head(w, e, true)
    ensures SameFor(w, DoHandleCommit(w, e, willing, seal), x)
  {
    hide Grows, SameFor, Answer, Pop;
    var msg := w.procs[e].inbox[0];
    var place := Plan(e, msg.version);
    var ok := willing && (place in w.markers ==> w.markers[place].seal == seal);
    var marked := if ok && place !in w.markers then w.(markers := w.markers[place := Marker(Some(msg.m), seal)]) else w;
    AnsweredFrame(w, marked, e, CommitResult(msg.m, msg.generation, ok, if ok then seal else 0), x);
  }

  lemma HandleQueryFrame(w: World, e: Endpoint, bytes: bool, x: Id)
    requires Head(w, e, false)
    ensures SameFor(w, DoHandleQuery(w, e, bytes), x)
  {
    hide Grows, SameFor, Answer, Pop;
    var msg := w.procs[e].inbox[0];
    var present := Plan(e, msg.version) in w.markers;
    AnsweredFrame(w, w, e,
      Report(msg.m, present, present && bytes, if present then w.markers[Plan(e, msg.version)].seal else 0), x);
  }

  lemma MarkingFrame(c: Config, w: World, s: Step, x: Id)
    requires Enabled(c, w, s) && (s.HandleCommit? || s.HandleQuery? || s.Publish?)
    ensures SameFor(w, Apply(c, w, s), x)
  {
    hide DoHandleCommit, DoHandleQuery, Grows;
    match s
    case HandleCommit(e, willing, seal) => HandleCommitFrame(w, e, willing, seal, x);
    case HandleQuery(e, bytes) => HandleQueryFrame(w, e, bytes, x);
    case Publish(_, _, _) =>
  }

  lemma LinkFrame(c: Config, w: World, s: Step, x: Id)
    requires Enabled(c, w, s) && (s.Register? || s.LinkDown? || s.Lose? || s.Exit?)
    ensures SameFor(w, Apply(c, w, s), x)
  {
    hide Apply, Enabled, Grows;
    LinkShrinks(c, w, s);
  }

  lemma TurnFrame(c: Config, w: World, s: Step, x: Id)
    requires Enabled(c, w, s) && Mover(s) != Some(x) && (s.Retire? || s.Recover? || s.Recovered?)
    ensures SameFor(w, Apply(c, w, s), x)
  {
    hide DoRecover, Grows;
    match s
    case Recover(m) => RecoverFrame(w, m, x);
    case Retire(_) =>
    case Recovered =>
  }

  lemma Frame(c: Config, w: World, s: Step, x: Id)
    requires Enabled(c, w, s) && Mover(s) != Some(x) && !s.Stop? && !s.Launch?
    ensures SameFor(w, Apply(c, w, s), x)
  {
    hide Enabled, Apply, SameFor;
    if s.Submit? || s.Authorize? || s.Pick? || s.Attempt? || s.Dispatch? || s.Stale? || s.Result? || s.Verify? {
      WorkerFrame(c, w, s, x);
    } else if s.SendCommit? || s.CommitAnswer? || s.NoAnswer? || s.GiveUp? || s.Abandon? || s.Cancel? ||
      s.ReconcileBegin? || s.ReconcileAnswer? || s.ReconcileNoAnswer? {
      EndFrame(c, w, s, Mover(s).value, x);
    } else if s.HandleCommit? || s.HandleQuery? || s.Publish? {
      MarkingFrame(c, w, s, x);
    } else if s.Retire? || s.Recover? || s.Recovered? {
      TurnFrame(c, w, s, x);
    } else {
      LinkFrame(c, w, s, x);
    }
  }

  // ---- a stranded record ------------------------------------------------------

  /** TRANSFERRING, held by no worker and waiting in no queue. */
  predicate Stranded(w: World, m: Id, r: Rec) {
    && w.mode.Running? && m in w.store && w.store[m] == r && r.state.Transferring?
    && m !in w.owners && m !in w.queue
  }

  /** The only step about a stranded movement is to cancel it. */
  lemma OnlyCancel(c: Config, w: World, s: Step, m: Id, r: Rec)
    requires Inv(c, w) && Stranded(w, m, r) && Enabled(c, w, s) && Mover(s) == Some(m)
    ensures s == Cancel(m)
  {
    hide ViewOf, Addressed, Named, LaneOk, RepliesOk, MayGiveUp, NextAttempt;
    assert Good(c, m, ViewOf(w, m));
    Fields(w, m);
  }

  lemma StrandedStep(c: Config, w: World, s: Step, m: Id, r: Rec)
    requires Inv(c, w) && Stranded(w, m, r) && Enabled(c, w, s) && s != Cancel(m) && !s.Stop?
    ensures Stranded(Apply(c, w, s), m, r)
  {
    hide Inv, Apply, Mover;
    if Mover(s) == Some(m) {
      OnlyCancel(c, w, s, m, r);
    } else {
      Frame(c, w, s, m);
    }
  }

  /** In every run a stranded record stays as it is until the operator cancels it or the coordinator stops. */
  lemma {:induction false} StrandedStays(c: Config, worlds: seq<World>, steps: seq<Step>, i: nat, j: nat, m: Id, r: Rec)
    requires IsRun(c, worlds, steps) && i <= j < |worlds| && Stranded(worlds[i], m, r)
    requires forall k | i <= k < j :: steps[k] != Cancel(m) && !steps[k].Stop?
    ensures Stranded(worlds[j], m, r)
    decreases j
  {
    hide Stranded, Inv, Enabled, Apply;
    if i < j {
      StrandedStays(c, worlds, steps, i, j - 1, m, r);
      assert IsStep(c, worlds[j - 1], steps[j - 1], worlds[j]);
      RunInv(c, worlds, steps, j - 1);
      StrandedStep(c, worlds[j - 1], steps[j - 1], m, r);
    }
  }

  // ---- when a dispatch succeeds -----------------------------------------------

  /** A dispatch goes through exactly from AUTHORIZED and BYTES_ARRIVED, while the history has room. */
  lemma DispatchIff(c: Config, w: World, m: Id)
    requires Inv(c, w) && Enabled(c, w, Dispatch(m))
    ensures var r, w' := w.owners[m].r, Apply(c, w, Dispatch(m));
      && (m in w'.owners <==> (r.state.Authorized? || r.state.BytesArrived?) && HasRoom(r))
      && (m !in w'.owners ==>
          w'.store == w.store && m !in w'.queue && m in w.store && w.store[m] == r && w'.mode == w.mode)
      && (r.state.Transferring? ==> Stranded(w', m, r))
  {
    hide ViewOf, Addressed, Named, LaneOk, RepliesOk;
    assert Good(c, m, ViewOf(w, m));
    Fields(w, m);
  }

  // ---- what a later attempt was preceded by -----------------------------------

  /** Step `s` ends attempt `n` of `m` unsuccessfully: the transfer failed, or the bytes did not verify. */
  predicate FailsAttempt(w: World, s: Step, m: Id, n: nat) {
    && DrivingIn(w, m)
    && ((s.Result? && !s.good && w.owners[m].phase.Awaiting? && w.owners[m].phase.n == n)
        || (s.Verify? && !s.good && w.owners[m].phase.Arrived? && w.owners[m].phase.n == n))
    && Mover(s) == Some(m)
  }

  /** How a movement comes to be retrying. */
  predicate RetryStepped(w: World, s: Step, w': World, m: Id)
    requires Retrying(w', m)
  {
    var n, r' := w'.owners[m].phase.n, w'.owners[m].r;
    || (s == Attempt(m) && Retrying(w, m) && w.owners[m].phase == Between(n) && r'.state == w.owners[m].r.state)
    || (n >= 2 && FailsAttempt(w, s, m, n - 1) &&
        r'.state == (if s.Result? then Movement.Transferring else Movement.BytesArrived))
  }

  lemma ContinueOwner(w: World, m: Id, moved: Option<Rec>, phase: Phase)
    ensures Lookup(Continue(w, m, moved, phase).owners, m) ==
      if moved.Some? then Some(Driving(moved.value, phase)) else None
  {
    hide Put, Grows;
  }

  lemma AttemptOwner(w: World, m: Id, r: Rec, n: nat)
    ensures Lookup(DoAttempt(w, m, r, n).owners, m) ==
      if Begin(r).Some? then Some(Driving(Begin(r).value, Granted(n))) else None
  {
    hide Begin, Continue, Grows;
    ContinueOwner(w.(grants := w.grants[m := Count(w.grants, m) + 1]), m, Begin(r), Granted(n));
    ContinueOwner(w, m, Begin(r), Granted(n));
  }

  lemma AttemptRetries(c: Config, w: World, m: Id)
    requires Enabled(c, w, Attempt(m)) && Retrying(Apply(c, w, Attempt(m)), m)
    ensures RetryStepped(w, Attempt(m), Apply(c, w, Attempt(m)), m)
  {
    hide DoAttempt, Grows;
    AttemptOwner(w, m, w.owners[m].r, if w.owners[m].phase.Start? then 1 else w.owners[m].phase.n);
  }

  lemma SubmitOwner(w: World, m: Id, plan: Plan, bound: nat)
    ensures !Retrying(DoSubmit(w, m, plan, bound), m)
  {
    hide Put, Grows;
  }

  lemma AuthorizeOwner(w: World, m: Id, r: Rec)
    ensures !Retrying(DoAuthorize(w, m, r), m)
  {
    hide Move, Finish, Grows;
    FinishFrame(w, m, Move(r, Movement.Authorized, true), m + 1);
  }

  lemma PickOwner(w: World, m: Id)
    requires m !in w.owners
    ensures !Retrying(DoPick(w, m), m)
  {
    hide Grows;
  }

  lemma StaleOwner(w: World, m: Id, r: Rec, n: nat, stale: nat)
    ensures var w' := DoStale(w, m, r, n, stale);
      m in w'.owners ==> w'.owners[m].Driving? && w'.owners[m].phase.Awaiting?
  {
    hide Move, Note, Finish, Grows;
    FinishFrame(w, m, Move(Note(r, true), Movement.OutcomeUnknown, true), m + 1);
  }

  lemma WorkerNeverRetries(c: Config, w: World, s: Step, m: Id)
    requires Enabled(c, w, s) && Mover(s) == Some(m)
    requires s.Submit? || s.Authorize? || s.Pick? || s.Dispatch? || s.Stale?
    ensures !Retrying(Apply(c, w, s), m)
  {
    hide Move, Continue, DoSubmit, DoAuthorize, DoPick, DoStale, Grows;
    match s
    case Submit(_, plan, bound) => SubmitOwner(w, m, plan, bound);
    case Authorize(_) => AuthorizeOwner(w, m, w.owners[m].r);
    case Pick(_) => PickOwner(w, m);
    case Dispatch(_) =>
      ContinueOwner(w, m, Move(w.owners[m].r, Movement.Transferring, true), Awaiting(w.owners[m].phase.n, 0));
    case Stale(_) => StaleOwner(w, m, w.owners[m].r, w.owners[m].phase.n, w.owners[m].phase.stale);
  }

  lemma ResultRetries(c: Config, w: World, s: Step, m: Id)
    requires Inv(c, w) && Enabled(c, w, s) && Mover(s) == Some(m) && Retrying(Apply(c, w, s), m)
    requires s.Result? || s.Verify?
    ensures RetryStepped(w, s, Apply(c, w, s), m)
  {
    hide Inv, Grows, Continue, Move, ViewOf;
    var o := w.owners[m];
    WorkerState(c, w, m);
    match s
    case Result(_, _, text) =>
      ContinueOwner(w, m, Move(o.r, Movement.BytesArrived, true), Arrived(o.phase.n));
      ContinueOwner(w, m, Some(Note(o.r, text)), Between(o.phase.n + 1));
    case Verify(_, _, text) =>
      ContinueOwner(w, m, Move(o.r, Movement.Verified, true), Barrier(o.phase.n));
      ContinueOwner(w, m, Some(Note(o.r, text)), Between(o.phase.n + 1));
  }

  /** What the worker's copy says while the bytes are under way, and once they have arrived. */
  lemma WorkerState(c: Config, w: World, m: Id)
    requires Inv(c, w) && DrivingIn(w, m)
    ensures w.owners[m].phase.Awaiting? ==> w.owners[m].phase.n >= 1 && w.owners[m].r.state.Transferring?
    ensures w.owners[m].phase.Arrived? ==> w.owners[m].phase.n >= 1 && w.owners[m].r.state.BytesArrived?
  {
    hide Inv, ViewOf, Good;
    DrivenFacts(c, w, m);
  }

  /** Only a running coordinator holds movements, and never a decided one. */
  lemma HeldRunning(c: Config, w: World, m: Id)
    requires Inv(c, w) && m in w.owners
    ensures w.mode.Running? && m in w.store && !Movement.Terminal(w.store[m].state)
  {
    hide ViewOf, Addressed, Named, LaneOk, RepliesOk;
    assert Good(c, m, ViewOf(w, m));
    Fields(w, m);
  }

  lemma TurnOwners(c: Config, w: World, s: Step)
    requires Enabled(c, w, s) && (s.Retire? || s.Recover? || s.Launch? || s.Stop?)
    ensures Apply(c, w, s).owners == (if s.Stop? then map[] else w.owners)
  {
    hide DoRecover, Newest, Grows;
    match s
    case Recover(m) => RecoverFrame(w, m, m + 1);
    case Retire(_) =>
    case Launch(_) =>
    case Stop =>
  }

  lemma RestNeverRetries(c: Config, w: World, s: Step, m: Id)
    requires Inv(c, w) && Enabled(c, w, s)
    requires (Mover(s) == Some(m) && (s.Retire? || s.Recover?)) || s.Stop? || s.Launch?
    ensures !Retrying(Apply(c, w, s), m)
  {
    hide Inv, Apply, Newest;
    TurnOwners(c, w, s);
    if m in w.owners { HeldRunning(c, w, m); }
  }

  lemma RetryBack(c: Config, w: World, s: Step, m: Id)
    requires Inv(c, w) && Enabled(c, w, s) && Retrying(Apply(c, w, s), m)
    ensures if Mover(s) == Some(m) then RetryStepped(w, s, Apply(c, w, s), m)
            else Retrying(w, m) && Apply(c, w, s).owners[m] == w.owners[m]
  {
    hide Inv, Enabled, Apply, Mover, RetryStepped;
    if s.Stop? || s.Launch? || (Mover(s) == Some(m) && (s.Retire? || s.Recover?)) {
      RestNeverRetries(c, w, s, m);
    } else if Mover(s) != Some(m) {
      Frame(c, w, s, m);
    } else if s == Attempt(m) {
      AttemptRetries(c, w, m);
    } else if s.Submit? || s.Authorize? || s.Pick? || s.Dispatch? || s.Stale? {
      WorkerNeverRetries(c, w, s, m);
    } else if s.Result? || s.Verify? {
      ResultRetries(c, w, s, m);
    } else {
      MoverOnly(s, m);
      EndFrame(c, w, s, m, m + 1);
    }
  }

  lemma MoverOnly(s: Step, m: Id)
    requires Mover(s) == Some(m) && s != Attempt(m)
    ensures !s.Attempt? && !s.Stop? && !s.Launch? && !s.Recovered? && !s.Register? && !s.HandleCommit? &&
      !s.HandleQuery? &&
      !s.LinkDown? && !s.Lose? && !s.Exit? && !s.Publish?
  {
  }

  /**
    A movement retrying at world `i` got there through the failure of the attempt before,
    and since that failure nothing was done about it but to start the next attempt.
   */
  lemma {:induction false} RetryCause(c: Config, worlds: seq<World>, steps: seq<Step>, i: nat, m: Id) returns (k: nat)
    requires IsRun(c, worlds, steps) && i < |worlds| && Retrying(worlds[i], m)
    ensures k < i && worlds[i].owners[m].phase.n >= 2
    ensures FailsAttempt(worlds[k], steps[k], m, worlds[i].owners[m].phase.n - 1)
    ensures worlds[i].owners[m].r.state == if steps[k].Result? then Movement.Transferring else Movement.BytesArrived
    ensures forall j | k < j < i :: Mover(steps[j]) == Some(m) ==> steps[j] == Attempt(m)
    decreases i
  {
    hide Inv, Enabled, Apply, Mover;
    if i == 0 {
      assert false;
    } else {
      assert IsStep(c, worlds[i - 1], steps[i - 1], worlds[i]);
      RunInv(c, worlds, steps, i - 1);
      RetryBack(c, worlds[i - 1], steps[i - 1], m);
      if Mover(steps[i - 1]) != Some(m) || steps[i - 1] == Attempt(m) {
        k := RetryCause(c, worlds, steps, i - 1, m);
      } else {
        k := i - 1;
      }
    }
  }

  /**
    Exactly which later attempts are made. The dispatch of attempt n >= 2 goes through if and
    only if what failed before it was the verification of attempt n - 1, and the history has
    room; after a failed transfer it never does, and the record is stranded.
   */
  lemma RetriedIff(c: Config, worlds: seq<World>, steps: seq<Step>, i: nat, m: Id) returns (k: nat)
    requires IsRun(c, worlds, steps) && i < |steps| && steps[i] == Dispatch(m)
    requires DrivingIn(worlds[i], m) && worlds[i].owners[m].phase.Granted? && worlds[i].owners[m].phase.n >= 2
    ensures k < i && FailsAttempt(worlds[k], steps[k], m, worlds[i].owners[m].phase.n - 1)
    ensures forall j | k < j < i :: Mover(steps[j]) == Some(m) ==> steps[j] == Attempt(m)
    ensures m in worlds[i + 1].owners <==> steps[k].Verify? && HasRoom(worlds[i].owners[m].r)
    ensures steps[k].Result? ==> Stranded(worlds[i + 1], m, worlds[i].owners[m].r)
  {
    hide Inv, Enabled, Apply, Mover, Stranded;
    k := RetryCause(c, worlds, steps, i, m);
    assert IsStep(c, worlds[i], steps[i], worlds[i + 1]);
    RunInv(c, worlds, steps, i);
    DispatchIff(c, worlds[i], m);
  }

  // ---- a run with a stranded record -------------------------------------------

  lemma FailedWorld(c: Config, w: World)
    requires var r := RecordIn(Movement.Transferring, 4, 1); Standing(w, r, Some(Driving(r, Awaiting(1, 0))), false, [])
    requires c.maxAttempts >= 2
    ensures Enabled(c, w, Result(0, false, true))
    ensures var r := RecordIn(Movement.Transferring, 4, 1).(used := 5);
      Standing(Apply(c, w, Result(0, false, true)), r, Some(Driving(r, Between(2))), false, [])
  {
    hide Continue;
    var r := w.owners[0].r;
    Continued(w, r, Some(w.owners[0]), r.(used := 5), Between(2));
  }

  lemma RegrantedWorld(c: Config, w: World)
    requires var r := RecordIn(Movement.Transferring, 4, 1).(used := 5);
      Standing(w, r, Some(Driving(r, Between(2))), false, [])
    ensures Enabled(c, w, Attempt(0))
    ensures var r := RecordIn(Movement.Transferring, 5, 2).(used := 6);
      Standing(Apply(c, w, Attempt(0)), r, Some(Driving(r, Granted(2))), false, [])
  {
    hide Continue;
    var r, r' := w.owners[0].r, RecordIn(Movement.Transferring, 5, 2).(used := 6);
    assert Begin(r) == Some(r');
    Continued(w.(grants := w.grants[0 := Count(w.grants, 0) + 1]), r, Some(w.owners[0]), r', Granted(2));
  }

  lemma StrandedWorld(c: Config, w: World)
    requires var r := RecordIn(Movement.Transferring, 5, 2).(used := 6);
      Standing(w, r, Some(Driving(r, Granted(2))), false, [])
    ensures Enabled(c, w, Dispatch(0))
    ensures Stranded(Apply(c, w, Dispatch(0)), 0, RecordIn(Movement.Transferring, 5, 2).(used := 6))
  {
  }

  /** With two attempts allowed, one failed transfer is enough: a run that ends with a stranded record. */
  lemma StrandedRun(c: Config) returns (worlds: seq<World>, steps: seq<Step>, r: Rec)
    requires c.maxAttempts >= 2
    ensures |worlds| > 0 && IsRun(c, worlds, steps) && Stranded(worlds[|worlds| - 1], 0, r)
    ensures r.attempts == 2 && r.used < r.bound
  {
    hide Enabled, Apply, Standing, IsRun, Stranded;
    var run := DispatchedRun(c);
    FailedWorld(c, End(run));
    run := Then(c, run, Result(0, false, true));
    RegrantedWorld(c, End(run));
    run := Then(c, run, Attempt(0));
    StrandedWorld(c, End(run));
    run := Then(c, run, Dispatch(0));
    worlds, steps, r := run.worlds, run.steps, RecordIn(Movement.Transferring, 5, 2).(used := 6);
  }
}
