/**
  What the commit and reconciliation protocol guarantees in every run, and the one
  operator request that escapes it.
 */
module ProtocolTheorems {
  import opened Types
  import Movement
  import opened Protocol
  import opened ProtocolView
  import opened ProtocolRuns

  // ---- what is never taken back ---------------------------------------------

  lemma GrowsTwice(a: World, b: World, c: World)
    requires Grows(a, b) && Grows(b, c)
    ensures Grows(a, c)
  {
  }

  lemma SameHistory(w: World, w': World)
    requires w'.markers == w.markers && w'.plans == w.plans && w'.finals == w.finals && w.settled <= w'.settled
    ensures Grows(w, w')
  {
  }

  lemma SubmitGrows(w: World, m: Id, plan: Plan, bound: nat)
    requires m !in w.plans
    ensures Grows(w, DoSubmit(w, m, plan, bound))
  {
    hide Put, Own;
    var r := Rec(plan, Movement.Planned, 1, 0, 0, 1, bound, false);
    var w1 := w.(plans := w.plans[m := plan], born := w.born[m := |w.plans|]);
    GrowsTwice(w, w1, Put(w1, m, r));
    GrowsTwice(w, Put(w1, m, r), Own(Put(w1, m, r), m, Submitting(r)));
  }

  lemma AuthorizeGrows(w: World, m: Id, r: Rec)
    ensures Grows(w, DoAuthorize(w, m, r))
  {
    hide Grows, Finish, Move;
    var done := Finish(w, m, Move(r, Movement.Authorized, true));
    SameHistory(done, done.(queue := done.queue + {m}));
    SameHistory(done, done);
    GrowsTwice(w, done, DoAuthorize(w, m, r));
  }

  lemma PickGrows(w: World, m: Id)
    ensures Grows(w, DoPick(w, m))
  {
    hide Grows, Own;
    var taken := w.(queue := w.queue - {m});
    SameHistory(w, taken);
    if m in w.store { GrowsTwice(w, taken, Own(taken, m, Driving(w.store[m], Start))); }
  }

  lemma AttemptGrows(w: World, m: Id, r: Rec, n: nat)
    ensures Grows(w, DoAttempt(w, m, r, n))
  {
    hide Grows, Continue, Begin;
    var begun := Begin(r);
    var granted := if begun.Some? then w.(grants := w.grants[m := Count(w.grants, m) + 1]) else w;
    SameHistory(w, granted);
    GrowsTwice(w, granted, Continue(granted, m, begun, Granted(n)));
  }

  lemma CancelGrows(w: World, m: Id)
    requires m in w.store
    ensures Grows(w, DoCancel(w, m))
  {
    hide Grows, Put, Move, NoteCancel;
    var r := w.store[m];
    var moved := Move(r.(cancelRequested := true), Movement.Cancelled, true);
    SameHistory(w, w);
    if moved.Some? {
      var noted := NoteCancel(w, m, r.state);
      GrowsTwice(w, noted, Put(noted, m, moved.value));
    }
  }

  lemma RecoverGrows(w: World, m: Id)
    requires w.mode.Recovering? && m in w.store
    ensures Grows(w, DoRecover(w, m))
  {
    hide Grows, Put, Move;
    var turned := w.(mode := Mode.Recovering(w.mode.todo - {m}));
    SameHistory(w, turned);
    var r := w.store[m];
    var moved := if Movement.Terminal(r.state) then None
                 else Move(r, if r.state.Planned? then Movement.Failed else Movement.OutcomeUnknown, true);
    if moved.Some? { GrowsTwice(w, turned, Put(turned, m, moved.value)); }
  }

  lemma SendCommitGrows(w: World, m: Id, r: Rec, delivered: bool)
    requires delivered ==> Linked(w, r.plan.destination)
    ensures Grows(w, DoSendCommit(w, m, r, delivered))
  {
    hide Grows, Send;
    var asked := Own(w.(commits := w.commits[m := Count(w.commits, m) + 1]), m, Driving(r, CommitWait));
    SameHistory(w, asked);
    if delivered { GrowsTwice(w, asked, Send(asked, r.plan.destination, Commit(m, r.generation, r.plan.version))); }
  }

  lemma ReconcileGrows(w: World, m: Id, delivered: bool)
    requires m in w.store && Linked(w, w.store[m].plan.destination)
    ensures Grows(w, DoReconcileBegin(w, m, delivered))
  {
    hide Grows, Send;
    var r := w.store[m];
    var held := Own(w, m, Reconciling(r));
    SameHistory(w, held);
    if delivered { GrowsTwice(w, held, Send(held, r.plan.destination, Query(m, r.plan.version))); }
  }

  lemma HandledGrows(w: World, w1: World, e: Endpoint, reply: Reply)
    requires Grows(w, w1) && e in w1.procs && w1.procs[e].inbox != []
    ensures Grows(w, Answer(Pop(w1, e), e, reply))
  {
    hide Grows, Pop, Answer;
    GrowsTwice(w, w1, Pop(w1, e));
    GrowsTwice(w, Pop(w1, e), Answer(Pop(w1, e), e, reply));
  }

  lemma HandleCommitGrows(w: World, e: Endpoint, willing: bool, seal: Seal)
    requires Head(w, e, true)
    ensures Grows(w, DoHandleCommit(w, e, willing, seal))
  {
    hide Pop, Answer;
    var msg := w.procs[e].inbox[0];
    var place := Plan(e, msg.version);
    var ok := willing && (place in w.markers ==> w.markers[place].seal == seal);
    var w1 := if ok && place !in w.markers then w.(markers := w.markers[place := Marker(Some(msg.m), seal)]) else w;
    HandledGrows(w, w1, e, CommitResult(msg.m, msg.generation, ok, if ok then seal else 0));
  }

  lemma HandleQueryGrows(w: World, e: Endpoint, bytes: bool)
    requires Head(w, e, false)
    ensures Grows(w, DoHandleQuery(w, e, bytes))
  {
    hide Pop, Answer;
    var msg := w.procs[e].inbox[0];
    var place := Plan(e, msg.version);
    var present := place in w.markers;
    HandledGrows(w, w, e, Report(msg.m, present, present && bytes, if present then w.markers[place].seal else 0));
  }

  lemma PublishGrows(w: World, place: Plan, seal: Seal)
    requires place !in w.markers
    ensures Grows(w, w.(markers := w.markers[place := Marker(None, seal)]))
  {
  }

  lemma WorkerGrows(c: Config, w: World, s: Step)
    requires Enabled(c, w, s)
    requires s.Submit? || s.Authorize? || s.Pick? || s.Attempt? || s.Dispatch? || s.Stale? || s.Result? || s.Verify?
    ensures Grows(w, Apply(c, w, s))
  {
    hide Grows, Move, Note, Finish, Continue, Own, DoSubmit, DoAuthorize, DoPick, DoAttempt;
    match s
    case Submit(m, plan, bound) => SubmitGrows(w, m, plan, bound);
    case Authorize(m) => AuthorizeGrows(w, m, w.owners[m].r);
    case Pick(m) => PickGrows(w, m);
    case Attempt(m) => AttemptGrows(w, m, w.owners[m].r, if w.owners[m].phase.Start? then 1 else w.owners[m].phase.n);
    case Dispatch(_) =>
    case Stale(_) =>
    case Result(_, _, _) =>
    case Verify(_, _, _) =>
  }

  lemma EndGrows(c: Config, w: World, s: Step)
    requires Enabled(c, w, s)
    requires s.SendCommit? || s.CommitAnswer? || s.NoAnswer? || s.GiveUp? || s.Abandon? || s.Cancel? ||
      s.ReconcileBegin? || s.ReconcileAnswer? || s.ReconcileNoAnswer?
    ensures Grows(w, Apply(c, w, s))
  {
    hide Grows, Move, Sealed, Finish, Disown, DoSendCommit, DoCancel, DoReconcileBegin;
    match s
    case SendCommit(m, delivered) => SendCommitGrows(w, m, w.owners[m].r, delivered);
    case Cancel(m) => CancelGrows(w, m);
    case ReconcileBegin(m, delivered) => ReconcileGrows(w, m, delivered);
    case CommitAnswer(_, _, _) =>
    case NoAnswer(_) =>
    case GiveUp(_, _, _) =>
    case Abandon(_) =>
    case ReconcileAnswer(_, _) =>
    case ReconcileNoAnswer(_) =>
  }

  lemma RestartGrows(c: Config, w: World, s: Step)
    requires Enabled(c, w, s)
    requires s.Retire? || s.Launch? || s.Recover? || s.Recovered? || s.Stop?
    ensures Grows(w, Apply(c, w, s))
  {
    hide Grows, DoRecover;
    match s
    case Retire(m) => SameHistory(w, DoRetire(w, m));
    case Launch(listed) => SameHistory(w, DoLaunch(w, listed));
    case Recover(m) => RecoverGrows(w, m);
    case Recovered => SameHistory(w, w.(mode := Running));
    case Stop => SameHistory(w, DoStop(w));
  }

  lemma LinkGrows(c: Config, w: World, s: Step)
    requires Enabled(c, w, s) && (s.Register? || s.LinkDown? || s.Lose? || s.Exit?)
    ensures Grows(w, Apply(c, w, s))
  {
    hide Grows, Apply, Enabled;
    LinkShrinks(c, w, s);
    SameHistory(w, Apply(c, w, s));
  }

  lemma MarkingGrows(c: Config, w: World, s: Step)
    requires Enabled(c, w, s) && (s.HandleCommit? || s.HandleQuery? || s.Publish?)
    ensures Grows(w, Apply(c, w, s))
  {
    hide Grows, DoHandleCommit, DoHandleQuery;
    match s
    case HandleCommit(e, willing, seal) => HandleCommitGrows(w, e, willing, seal);
    case HandleQuery(e, bytes) => HandleQueryGrows(w, e, bytes);
    case Publish(e, version, seal) => PublishGrows(w, Plan(e, version), seal);
  }

  lemma StepGrows(c: Config, w: World, s: Step)
    requires Enabled(c, w, s)
    ensures Grows(w, Apply(c, w, s))
  {
    hide Enabled, Apply, Grows;
    if s.Submit? || s.Authorize? || s.Pick? || s.Attempt? || s.Dispatch? || s.Stale? || s.Result? || s.Verify? {
      WorkerGrows(c, w, s);
    } else if s.HandleCommit? || s.HandleQuery? || s.Publish? {
      MarkingGrows(c, w, s);
    } else if s.Retire? || s.Launch? || s.Recover? || s.Recovered? || s.Stop? {
      RestartGrows(c, w, s);
    } else if s.Register? || s.LinkDown? || s.Lose? || s.Exit? {
      LinkGrows(c, w, s);
    } else {
      EndGrows(c, w, s);
    }
  }

  /** In every run a marker, once written, is there unchanged ever after: commits are write-once. */
  lemma {:induction false} RunGrows(c: Config, worlds: seq<World>, steps: seq<Step>, i: nat, j: nat)
    requires IsRun(c, worlds, steps) && i <= j < |worlds|
    ensures Grows(worlds[i], worlds[j])
    decreases j
  {
    hide Enabled, Apply;
    if i < j {
      RunGrows(c, worlds, steps, i, j - 1);
      assert IsStep(c, worlds[j - 1], steps[j - 1], worlds[j]);
      StepGrows(c, worlds[j - 1], steps[j - 1]);
    }
  }

  // ---- commitment is real ---------------------------------------------------

  /**
    In every run, with messages lost, processes dying and the coordinator restarting
    anywhere: a stored COMMITTED record means that its destination holds a commit
    marker for that object version, sealed with the digest the record carries.
   */
  lemma CommittedHasMarker(c: Config, worlds: seq<World>, steps: seq<Step>, n: nat, m: Id)
    requires IsRun(c, worlds, steps) && n < |worlds|
    requires m in worlds[n].store && worlds[n].store[m].state.Committed?
    ensures var w, r := worlds[n], worlds[n].store[m];
      && m in w.plans && r.plan == w.plans[m]
      && r.plan in w.markers && w.markers[r.plan].seal == r.seal
  {
    hide IsRun, ViewOf;
    RunInv(c, worlds, steps, n);
    assert Good(c, m, ViewOf(worlds[n], m));
    Fields(worlds[n], m);
  }

  // ---- a negative resolution is final ---------------------------------------

  /** No marker anywhere names the movement. */
  ghost predicate NoEffect(w: World, m: Id) {
    forall place | place in w.markers :: w.markers[place].movement != Some(m)
  }

  lemma SettledNoEffect(c: Config, w: World, m: Id)
    requires Inv(c, w) && m in w.settled
    ensures NoEffect(w, m)
  {
    hide Addressed, Lane, RepliesFor;
    var v := ViewOf(w, m);
    assert Good(c, m, v);
    forall place | place in w.markers ensures w.markers[place].movement != Some(m) {
      assert NamedAt(w.plans, place, w.markers[place]);
    }
  }

  /**
    Once a movement is stored as FAILED or SUPERSEDED, or as CANCELLED other than by an
    operator while VERIFIED or OUTCOME_UNKNOWN, no marker names it, and no later step of
    the run writes one: late messages, restarts and other movements included.
   */
  lemma NegativeIsFinal(c: Config, worlds: seq<World>, steps: seq<Step>, i: nat, j: nat, m: Id)
    requires IsRun(c, worlds, steps) && i <= j < |worlds| && m in worlds[i].store
    requires var s := worlds[i].store[m].state; s.Failed? || s.Superseded? || (s.Cancelled? && m !in worlds[i].forced)
    ensures NoEffect(worlds[j], m)
  {
    hide IsRun, NoEffect, ViewOf, Addressed, Named;
    RunInv(c, worlds, steps, i);
    RunInv(c, worlds, steps, j);
    RunGrows(c, worlds, steps, i, j);
    assert m in worlds[i].settled by {
      assert Good(c, m, ViewOf(worlds[i], m));
      Fields(worlds[i], m);
    }
    SettledNoEffect(c, worlds[j], m);
  }

  /**
    Negative reconciliation in particular: a report that no marker is present, however
    late it arrives, resolves the movement to FAILED, and it stays without effect.
   */
  lemma NegativeReconciliation(c: Config, worlds: seq<World>, steps: seq<Step>, i: nat, j: nat, m: Id)
    requires IsRun(c, worlds, steps) && i < j < |worlds|
    requires steps[i].ReconcileAnswer? && steps[i].m == m && steps[i].reply.Report? && !steps[i].reply.present
    requires m in worlds[i].store && worlds[i].store[m].used < worlds[i].store[m].bound
    ensures m in worlds[i + 1].store && worlds[i + 1].store[m].state.Failed?
    ensures NoEffect(worlds[j], m)
  {
    hide NoEffect;
    assert IsStep(c, worlds[i], steps[i], worlds[i + 1]);
    var w := worlds[i];
    RunInv(c, worlds, steps, i);
    ReconcilingRecord(c, w, m);
    NegativeIsFinal(c, worlds, steps, i + 1, j, m);
  }

  lemma ReconcilingRecord(c: Config, w: World, m: Id)
    requires Inv(c, w) && m in w.owners && w.owners[m].Reconciling?
    ensures m in w.store && w.store[m] == w.owners[m].r
    ensures w.store[m].state.OutcomeUnknown? && !w.store[m].cancelRequested && RecordOk(w.store[m])
  {
    hide ViewOf, Addressed, Named;
    assert Good(c, m, ViewOf(w, m));
    Fields(w, m);
  }

  // ---- verdicts are final ---------------------------------------------------

  /** The first terminal state stored for a movement, and its seal, never change while it is stored. */
  lemma VerdictStands(c: Config, worlds: seq<World>, steps: seq<Step>, i: nat, j: nat, m: Id)
    requires IsRun(c, worlds, steps) && i <= j < |worlds|
    requires m in worlds[i].store && Movement.Terminal(worlds[i].store[m].state) && m in worlds[j].store
    ensures worlds[j].store[m].state == worlds[i].store[m].state
    ensures worlds[j].store[m].seal == worlds[i].store[m].seal
  {
    hide IsRun, ViewOf, Addressed, Named;
    RunInv(c, worlds, steps, i);
    RunInv(c, worlds, steps, j);
    RunGrows(c, worlds, steps, i, j);
    assert Good(c, m, ViewOf(worlds[i], m));
    assert Good(c, m, ViewOf(worlds[j], m));
    Fields(worlds[i], m);
    Fields(worlds[j], m);
  }

  /** Across every run, restarts included: bounded attempts and at most one commit request. */
  lemma BoundedEffort(c: Config, worlds: seq<World>, steps: seq<Step>, n: nat, m: Id)
    requires IsRun(c, worlds, steps) && n < |worlds|
    ensures Count(worlds[n].grants, m) <= c.maxAttempts && Count(worlds[n].commits, m) <= 1
  {
    hide IsRun, ViewOf, Addressed, Named;
    RunInv(c, worlds, steps, n);
    assert Good(c, m, ViewOf(worlds[n], m));
    Fields(worlds[n], m);
  }

  /**
    Recovery is conservative and complete: when it ends, every stored movement that it
    listed is terminal or OUTCOME_UNKNOWN, unless its history is full to the ceiling.
    `skipped` is exactly what the recovery did not list.
   */
  lemma RecoveryComplete(c: Config, worlds: seq<World>, steps: seq<Step>, n: nat, m: Id)
    requires IsRun(c, worlds, steps) && n < |worlds| && worlds[n].mode == Mode.Recovering({})
    requires m in worlds[n].store && m !in worlds[n].skipped
    ensures var r := worlds[n].store[m];
      Movement.Terminal(r.state) || r.state.OutcomeUnknown? || r.used == r.bound
  {
    hide IsRun, ViewOf, Addressed, Named;
    RunInv(c, worlds, steps, n);
    assert Good(c, m, ViewOf(worlds[n], m));
    Fields(worlds[n], m);
  }
}
