/**
  What each step records: the other half of the invariant, which only says what a record
  in some state implies. Every answer of the destination, every turn of recovery and every
  operator request is recorded as exactly one outcome, in every run.
 */
module ProtocolOutcomes {
  import opened Types
  import Movement
  import opened Protocol
  import opened ProtocolView
  import opened ProtocolRuns
  import opened ProtocolTheorems
  import opened ProtocolScripts

  /** `r` after one more accepted transition. */
  function After(r: Rec, to: State): Rec {
    r.(state := to, generation := r.generation + 1, used := r.used + 1)
  }

  /** The record of `m` is stored as `r`, and nobody holds it. */
  predicate Left(w: World, m: Id, r: Rec) {
    m in w.store && w.store[m] == r && m !in w.owners
  }

  /** Nothing about other movements' records has changed. */
  ghost predicate OthersKept(w: World, w': World, m: Id) {
    forall x: Id | x != m :: Lookup(w'.store, x) == Lookup(w.store, x) && Lookup(w'.owners, x) == Lookup(w.owners, x)
  }

  lemma Finished(w: World, m: Id, moved: Option<Rec>)
    ensures var w' := Finish(w, m, moved);
      && m !in w'.owners && OthersKept(w, w', m)
      && Lookup(w'.store, m) == (if moved.Some? then moved else Lookup(w.store, m))
  {
    hide Grows;
  }

  lemma Carried(w: World, m: Id, r: Rec, phase: Phase)
    ensures var w' := Continue(w, m, Some(r), phase);
      && m in w'.owners && w'.owners[m] == Driving(r, phase) && OthersKept(w, w', m)
      && m in w'.store && w'.store[m] == r
  {
    hide Grows;
  }

  // ---- the commit barrier -------------------------------------------------------

  /** While it waits for the commit result, the worker's copy is the stored VERIFIED record. */
  lemma WaitingRecord(c: Config, w: World, m: Id)
    requires Inv(c, w) && DrivingIn(w, m) && w.owners[m].phase.CommitWait?
    ensures m in w.store && w.store[m] == w.owners[m].r && w.owners[m].r.state.Verified? && RecordOk(w.owners[m].r)
  {
    hide ViewOf, Addressed, Named, LaneOk, RepliesOk;
    assert Good(c, m, ViewOf(w, m));
    Fields(w, m);
  }

  lemma CommitAnswerLeaves(c: Config, w: World, m: Id, reply: Reply, text: bool)
    requires Inv(c, w) && Enabled(c, w, CommitAnswer(m, reply, text))
    ensures var w', r := Apply(c, w, CommitAnswer(m, reply, text)), w.owners[m].r;
      && OthersKept(w, w', m) && r.state.Verified?
      && (HasRoom(r) && reply.generation == r.generation && reply.ok ==>
          Left(w', m, After(r, Movement.Committed).(seal := reply.seal)))
      && (HasRoom(r) && reply.generation == r.generation && !reply.ok && text ==>
          Left(w', m, After(r, Movement.Failed)))
      && (HasRoom(r) && reply.generation != r.generation ==> Left(w', m, After(r, Movement.OutcomeUnknown)))
      && (!HasRoom(r) || (reply.generation == r.generation && !reply.ok && !text) ==> Left(w', m, r))
  {
    hide Inv, Finish, Grows;
    WaitingRecord(c, w, m);
    var r := w.owners[m].r;
    Finished(w, m,
      if reply.generation != r.generation then Move(r, Movement.OutcomeUnknown, true)
      else if !reply.ok then Move(r, Movement.Failed, text)
      else Sealed(Move(r, Movement.Committed, true), reply.seal));
  }

  /**
    In every run, a commit result that arrives while the history has room is recorded as
    COMMITTED with the seal it carries if and only if it reports success at the record's own
    generation, as FAILED if and only if it reports a refusal there in well-formed text, and
    as OUTCOME_UNKNOWN if and only if it names another generation.
   */
  lemma CommitAnswerRecorded(
    c: Config, worlds: seq<World>, steps: seq<Step>, i: nat, m: Id, reply: Reply, text: bool)
    requires IsRun(c, worlds, steps) && i < |steps| && steps[i] == CommitAnswer(m, reply, text)
    ensures m in worlds[i].owners && reply.CommitResult? && m in worlds[i + 1].store && m !in worlds[i + 1].owners
    ensures var r, r' := worlds[i].owners[m].r, worlds[i + 1].store[m];
      HasRoom(r) ==>
        && (r'.state.Committed? && r'.seal == reply.seal <==> reply.ok && reply.generation == r.generation)
        && (r'.state.Committed? ==> r'.seal == reply.seal)
        && (r'.state.Failed? <==> !reply.ok && reply.generation == r.generation && text)
        && (r'.state.OutcomeUnknown? <==> reply.generation != r.generation)
  {
    hide Inv, Apply, OthersKept;
    assert IsStep(c, worlds[i], steps[i], worlds[i + 1]);
    RunInv(c, worlds, steps, i);
    CommitAnswerLeaves(c, worlds[i], m, reply, text);
  }

  /** The answer to a commit request is lost: the outcome is recorded as unknown. */
  lemma NoAnswerRecorded(c: Config, w: World, m: Id)
    requires Inv(c, w) && Enabled(c, w, NoAnswer(m))
    ensures var w', r := Apply(c, w, NoAnswer(m)), w.owners[m].r;
      && OthersKept(w, w', m) && Left(w', m, if HasRoom(r) then After(r, Movement.OutcomeUnknown) else r)
  {
    hide Inv, Finish, Grows;
    WaitingRecord(c, w, m);
    Finished(w, m, Move(w.owners[m].r, Movement.OutcomeUnknown, true));
  }

  // ---- reconciliation -------------------------------------------------------------

  lemma ReconcileAnswerLeaves(c: Config, w: World, m: Id, reply: Reply)
    requires Inv(c, w) && Enabled(c, w, ReconcileAnswer(m, reply))
    ensures var w', r := Apply(c, w, ReconcileAnswer(m, reply)), w.owners[m].r;
      && OthersKept(w, w', m) && r.state.OutcomeUnknown?
      && (HasRoom(r) && reply.present && reply.mine ==>
          Left(w', m, After(r, Movement.Committed).(seal := reply.seal)))
      && (HasRoom(r) && !reply.present ==> Left(w', m, After(r, Movement.Failed)))
      && (!HasRoom(r) || (reply.present && !reply.mine) ==> Left(w', m, r))
  {
    hide Inv, Finish, Grows;
    ReconcilingRecord(c, w, m);
    var r := w.owners[m].r;
    Finished(w, m,
      if reply.present && reply.mine then Sealed(Move(r, Movement.Committed, true), reply.seal)
      else if !reply.present then Move(r, if r.cancelRequested then Movement.Cancelled else Movement.Failed, true)
      else None);
  }

  /**
    In every run, a report that arrives while the history has room resolves the unknown outcome
    to COMMITTED with the seal it carries if and only if a marker is present and vouched for,
    to FAILED if and only if none is present, and otherwise leaves it unknown.
   */
  lemma ReconcileAnswerRecorded(c: Config, worlds: seq<World>, steps: seq<Step>, i: nat, m: Id, reply: Reply)
    requires IsRun(c, worlds, steps) && i < |steps| && steps[i] == ReconcileAnswer(m, reply)
    ensures m in worlds[i].owners && reply.Report? && m in worlds[i + 1].store && m !in worlds[i + 1].owners
    ensures var r, r' := worlds[i].owners[m].r, worlds[i + 1].store[m];
      HasRoom(r) ==>
        && (r'.state.Committed? && r'.seal == reply.seal <==> reply.present && reply.mine)
        && (r'.state.Committed? ==> r'.seal == reply.seal)
        && (r'.state.Failed? <==> !reply.present)
        && (r'.state.OutcomeUnknown? <==> reply.present && !reply.mine)
  {
    hide Inv, Apply, OthersKept;
    assert IsStep(c, worlds[i], steps[i], worlds[i + 1]);
    RunInv(c, worlds, steps, i);
    ReconcileAnswerLeaves(c, worlds[i], m, reply);
  }

  // ---- recovery and operator requests ----------------------------------------------

  lemma PutLeaves(w: World, m: Id, r: Rec)
    requires m !in w.owners
    ensures Left(Put(w, m, r), m, r) && OthersKept(w, Put(w, m, r), m) && Put(w, m, r).mode == w.mode
  {
    hide Grows;
  }

  /** Only a running coordinator holds movements. */
  lemma HeldWhileRunning(c: Config, w: World, m: Id)
    requires Inv(c, w) && m in w.owners
    ensures w.mode.Running?
  {
    hide ViewOf, Addressed, Named, LaneOk, RepliesOk;
    assert Good(c, m, ViewOf(w, m));
    Fields(w, m);
  }

  /**
    One turn of recovery: PLANNED becomes FAILED, everything else that is not terminal becomes
    OUTCOME_UNKNOWN, a terminal record and a full one stay as they are.
   */
  lemma RecoverRecorded(c: Config, w: World, m: Id)
    requires Inv(c, w) && Enabled(c, w, Recover(m))
    ensures var w', r := Apply(c, w, Recover(m)), w.store[m];
      && OthersKept(w, w', m)
      && (Movement.Terminal(r.state) || r.state.OutcomeUnknown? || !HasRoom(r) ==> Left(w', m, r))
      && (HasRoom(r) && r.state.Planned? ==> Left(w', m, After(r, Movement.Failed)))
      && (HasRoom(r) && !Movement.Terminal(r.state) && !r.state.Planned? && !r.state.OutcomeUnknown? ==>
          Left(w', m, After(r, Movement.OutcomeUnknown)))
      && w'.mode == Mode.Recovering(w.mode.todo - {m})
  {
    hide Inv, Put, Grows;
    if m in w.owners { HeldWhileRunning(c, w, m); }
    var r := w.store[m];
    var turned := w.(mode := Mode.Recovering(w.mode.todo - {m}));
    var moved := if Movement.Terminal(r.state) then None
                 else Move(r, if r.state.Planned? then Movement.Failed else Movement.OutcomeUnknown, true);
    if moved.Some? { PutLeaves(turned, m, moved.value); }
  }

  /** A cancellation is recorded whenever the history has room, whatever the open state. */
  lemma CancelRecorded(c: Config, w: World, m: Id)
    requires Enabled(c, w, Cancel(m))
    ensures var w', r := Apply(c, w, Cancel(m)), w.store[m];
      && OthersKept(w, w', m)
      && Left(w', m, if HasRoom(r) then After(r, Movement.Cancelled).(cancelRequested := true) else r)
  {
    hide Put, NoteCancel, Grows;
    var r := w.store[m];
    var moved := Move(r.(cancelRequested := true), Movement.Cancelled, true);
    if moved.Some? {
      NotedSame(w, m, r.state);
      PutLeaves(NoteCancel(w, m, r.state), m, moved.value);
    }
  }

  lemma NotedSame(w: World, m: Id, s: State)
    ensures NoteCancel(w, m, s).store == w.store && NoteCancel(w, m, s).owners == w.owners
  {
    hide Grows;
  }

  // ---- the worker -------------------------------------------------------------------

  /** The record of `m` is stored as `r`, and its worker goes on with it in `phase`. */
  predicate Carries(w: World, m: Id, r: Rec, phase: Phase) {
    m in w.store && w.store[m] == r && m in w.owners && w.owners[m] == Driving(r, phase)
  }

  /** A submission is stored as PLANNED with the plan it was made for, and held until it is authorized. */
  lemma SubmitRecorded(c: Config, w: World, m: Id, plan: Plan, bound: nat)
    requires Enabled(c, w, Submit(m, plan, bound))
    ensures var w' := Apply(c, w, Submit(m, plan, bound));
      && OthersKept(w, w', m) && m in w'.plans && w'.plans[m] == plan && m in w'.store && m in w'.owners
      && w'.owners[m] == Submitting(w'.store[m])
      && w'.store[m].plan == plan && w'.store[m].state.Planned? && w'.store[m].generation == 1
      && w'.store[m].bound == bound && !w'.store[m].cancelRequested && w'.store[m].attempts == 0
  {
    hide Grows;
  }

  lemma SubmittedRecord(c: Config, w: World, m: Id)
    requires Inv(c, w) && m in w.owners && w.owners[m].Submitting?
    ensures m in w.store && w.store[m] == w.owners[m].r && m !in w.queue
  {
    hide ViewOf, Addressed, Named, LaneOk, RepliesOk;
    assert Good(c, m, ViewOf(w, m));
    Fields(w, m);
  }

  /** An authorized submission is queued; one that its full history refuses is not. */
  lemma AuthorizeRecorded(c: Config, w: World, m: Id)
    requires Inv(c, w) && Enabled(c, w, Authorize(m))
    ensures var w', r := Apply(c, w, Authorize(m)), w.owners[m].r;
      var ok := r.state.Planned? && HasRoom(r);
      && OthersKept(w, w', m) && w'.queue == (if ok then w.queue + {m} else w.queue)
      && Left(w', m, if ok then After(r, Movement.Authorized) else r)
  {
    hide Inv, Finish, Grows;
    SubmittedRecord(c, w, m);
    Finished(w, m, Move(w.owners[m].r, Movement.Authorized, true));
    FinishQueue(w, m, Move(w.owners[m].r, Movement.Authorized, true));
  }

  lemma FinishQueue(w: World, m: Id, moved: Option<Rec>)
    ensures Finish(w, m, moved).queue == w.queue
  {
    hide Grows;
  }

  lemma Picked(w: World, m: Id)
    requires m !in w.owners && (m in w.store ==> !w.store[m].state.OutcomeUnknown?)
    ensures var w' := DoPick(w, m);
      && w'.store == w.store && w'.queue == w.queue - {m} && OthersKept(w, w', m)
      && (if m in w.store && !Movement.Terminal(w.store[m].state) then Carries(w', m, w.store[m], Start)
          else m !in w'.owners)
  {
    hide Grows, Own;
    var taken := w.(queue := w.queue - {m});
    if m in w.store && !Movement.Terminal(w.store[m].state) { Owned(taken, m, Driving(w.store[m], Start)); }
  }

  lemma Owned(w: World, m: Id, o: Owner)
    ensures Own(w, m, o) == w.(owners := w.owners[m := o])
  {
    hide Grows;
  }

  /** A queued movement is taken by one worker, unless it was decided in the meantime. */
  lemma PickRecorded(c: Config, w: World, m: Id)
    requires Inv(c, w) && Enabled(c, w, Pick(m))
    ensures var w' := Apply(c, w, Pick(m));
      && w'.store == w.store && w'.queue == w.queue - {m} && OthersKept(w, w', m)
      && (if m in w.store && !Movement.Terminal(w.store[m].state) then Carries(w', m, w.store[m], Start)
          else m !in w'.owners)
  {
    hide Inv, DoPick, OthersKept;
    if m in w.store { QueuedRecord(c, w, m); }
    Picked(w, m);
  }

  lemma QueuedRecord(c: Config, w: World, m: Id)
    requires Inv(c, w) && m in w.queue && m in w.store
    ensures !w.store[m].state.OutcomeUnknown?
  {
    hide ViewOf, Addressed, Named, LaneOk, RepliesOk;
    assert Good(c, m, ViewOf(w, m));
    Fields(w, m);
  }

  /** Where a worker stands, its copy is the stored record, but for the notes on stale answers. */
  lemma DrivenRecord(c: Config, w: World, m: Id)
    requires Inv(c, w) && DrivingIn(w, m)
    ensures m in w.store && !Movement.Terminal(w.owners[m].r.state) && !w.owners[m].r.state.OutcomeUnknown?
    ensures AttemptsOk(c, ViewOf(w, m), w.owners[m].r, w.owners[m].phase)
    ensures !w.owners[m].phase.Awaiting? ==> w.store[m] == w.owners[m].r
  {
    hide Addressed, Named, LaneOk, RepliesOk;
    assert Good(c, m, ViewOf(w, m));
  }

  /** An attempt is counted and granted, or the worker lets go of a full record. */
  lemma AttemptRecorded(c: Config, w: World, m: Id)
    requires Inv(c, w) && Enabled(c, w, Attempt(m))
    ensures var w', r := Apply(c, w, Attempt(m)), w.owners[m].r;
      var n := if w.owners[m].phase.Start? then 1 else w.owners[m].phase.n;
      && OthersKept(w, w', m)
      && (HasRoom(r) ==>
          Carries(w', m, After(r, r.state).(attempts := r.attempts + 1), Granted(n)) &&
          Count(w'.grants, m) == Count(w.grants, m) + 1)
      && (!HasRoom(r) ==> Left(w', m, r) && w'.grants == w.grants)
  {
    hide Inv, Continue, AttemptsOk, ViewOf, Grows;
    DrivenRecord(c, w, m);
    var r, n := w.owners[m].r, if w.owners[m].phase.Start? then 1 else w.owners[m].phase.n;
    if HasRoom(r) {
      var granted := w.(grants := w.grants[m := Count(w.grants, m) + 1]);
      Carried(granted, m, Begin(r).value, Granted(n));
      CarriedGrants(granted, m, Begin(r).value, Granted(n));
    } else {
      LetGo(w, m, Granted(n));
    }
  }

  lemma CarriedGrants(w: World, m: Id, r: Rec, phase: Phase)
    ensures Continue(w, m, Some(r), phase).grants == w.grants
  {
    hide Grows;
  }

  lemma LetGo(w: World, m: Id, phase: Phase)
    ensures var w' := Continue(w, m, None, phase);
      w'.store == w.store && w'.grants == w.grants && m !in w'.owners && OthersKept(w, w', m)
  {
    hide Grows;
  }

  /** Arrived bytes are recorded as such, and an accepted verification as VERIFIED; the worker goes on. */
  lemma ProgressRecorded(c: Config, w: World, m: Id, s: Step)
    requires Inv(c, w) && Enabled(c, w, s) && ((s.Result? && s.good) || (s.Verify? && s.good)) && s.m == m
    requires HasRoom(w.owners[m].r)
    ensures var w', r, n := Apply(c, w, s), w.owners[m].r, w.owners[m].phase.n;
      && OthersKept(w, w', m)
      && (s.Result? ==> Carries(w', m, After(r, Movement.BytesArrived), Arrived(n)))
      && (s.Verify? ==> Carries(w', m, After(r, Movement.Verified), Barrier(n)))
  {
    hide Inv, Continue, ViewOf, Grows;
    DrivenRecord(c, w, m);
    var r, n := w.owners[m].r, w.owners[m].phase.n;
    if s.Result? {
      Carried(w, m, After(r, Movement.BytesArrived), Arrived(n));
    } else {
      Carried(w, m, After(r, Movement.Verified), Barrier(n));
    }
  }

  /** A failed attempt that is not the last is noted and followed by the next. */
  lemma RetryRecorded(c: Config, w: World, m: Id, s: Step)
    requires Inv(c, w) && Enabled(c, w, s) && ((s.Result? && !s.good) || (s.Verify? && !s.good)) && s.m == m
    ensures var w', r, n := Apply(c, w, s), w.owners[m].r, w.owners[m].phase.n;
      && OthersKept(w, w', m) && n < c.maxAttempts
      && Carries(w', m, if s.text && r.used < r.bound then r.(used := r.used + 1) else r, Between(n + 1))
  {
    hide Inv, Continue, ViewOf, Grows;
    var r, n := w.owners[m].r, w.owners[m].phase.n;
    Carried(w, m, Note(r, s.text), Between(n + 1));
  }

  /** Giving up is recorded as the outcome it names, whenever there is room for it in well-formed text. */
  lemma GiveUpRecorded(c: Config, w: World, m: Id, to: State, text: bool)
    requires Inv(c, w) && Enabled(c, w, GiveUp(m, to, text)) && text && HasRoom(w.owners[m].r)
    ensures var w' := Apply(c, w, GiveUp(m, to, text));
      OthersKept(w, w', m) && Left(w', m, After(w.owners[m].r, to))
  {
    hide Inv, Finish, ViewOf, Grows;
    DrivenRecord(c, w, m);
    Finished(w, m, Move(w.owners[m].r, to, text));
  }

  /** Three answers for another attempt are waited past; the fourth makes the outcome unknown. */
  lemma StaleRecorded(c: Config, w: World, m: Id)
    requires Inv(c, w) && Enabled(c, w, Stale(m)) && HasRoom(w.owners[m].r)
    ensures var w', r, n, k := Apply(c, w, Stale(m)), w.owners[m].r, w.owners[m].phase.n, w.owners[m].phase.stale;
      var noted := r.(used := r.used + 1);
      && OthersKept(w, w', m)
      && (k < 3 ==> w'.store == w.store && m in w'.owners && w'.owners[m] == Driving(noted, Awaiting(n, k + 1)))
      && (k >= 3 && HasRoom(noted) ==> Left(w', m, After(noted, Movement.OutcomeUnknown)))
  {
    hide Inv, DoStale, ViewOf, Grows;
    DrivenRecord(c, w, m);
    StaleLeaves(w, m, w.owners[m].r, w.owners[m].phase.n, w.owners[m].phase.stale);
  }

  lemma StaleLeaves(w: World, m: Id, r: Rec, n: nat, k: nat)
    requires r.state.Transferring? && HasRoom(r)
    ensures var w', noted := DoStale(w, m, r, n, k), r.(used := r.used + 1);
      && OthersKept(w, w', m)
      && (k < 3 ==> w'.store == w.store && m in w'.owners && w'.owners[m] == Driving(noted, Awaiting(n, k + 1)))
      && (k >= 3 && HasRoom(noted) ==> Left(w', m, After(noted, Movement.OutcomeUnknown)))
  {
    hide Finish;
    Finished(w, m, Move(Note(r, true), Movement.OutcomeUnknown, true));
  }

  // ---- the destination ----------------------------------------------------------------

  /** A commit request that is sent and delivered stands last in the destination's inbox. */
  lemma SendCommitRecorded(c: Config, w: World, m: Id, delivered: bool)
    requires Enabled(c, w, SendCommit(m, delivered))
    ensures var w', r := Apply(c, w, SendCommit(m, delivered)), w.owners[m].r;
      var e := r.plan.destination;
      && w'.store == w.store && OthersKept(w, w', m) && m in w'.owners && w'.owners[m] == Driving(r, CommitWait)
      && Count(w'.commits, m) == Count(w.commits, m) + 1
      && Inbox(w', e) == Inbox(w, e) + (if delivered then [Commit(m, r.generation, r.plan.version)] else [])
      && (forall x | x != e :: Inbox(w', x) == Inbox(w, x))
  {
    hide Grows;
  }

  lemma ReconcileBeginRecorded(c: Config, w: World, m: Id, delivered: bool)
    requires Enabled(c, w, ReconcileBegin(m, delivered))
    ensures var w', r := Apply(c, w, ReconcileBegin(m, delivered)), w.store[m];
      var e := r.plan.destination;
      && w'.store == w.store && OthersKept(w, w', m) && m in w'.owners && w'.owners[m] == Reconciling(r)
      && Inbox(w', e) == Inbox(w, e) + (if delivered then [Query(m, r.plan.version)] else [])
      && (forall x | x != e :: Inbox(w', x) == Inbox(w, x))
  {
    hide Grows;
  }

  lemma Answered(w: World, w1: World, e: Endpoint, reply: Reply)
    requires e in w.procs && w.procs[e].inbox != [] && w1 == w.(markers := w1.markers)
    ensures var w' := Answer(Pop(w1, e), e, reply);
      && w'.store == w.store && w'.owners == w.owners && w'.markers == w1.markers
      && e in w'.procs && w'.procs[e].inbox == w.procs[e].inbox[1..]
      && w'.sent == (if Linked(w, e) then w.sent + {reply} else w.sent)
  {
    hide Grows;
  }

  /**
    A destination that is willing commits a version nobody has committed, and repeats a commit of
    the same seal; it refuses everything else. The answer says which, at the request's generation.
   */
  lemma HandleCommitRecorded(c: Config, w: World, e: Endpoint, willing: bool, seal: Seal)
    requires Enabled(c, w, HandleCommit(e, willing, seal))
    ensures var w', msg := Apply(c, w, HandleCommit(e, willing, seal)), w.procs[e].inbox[0];
      var place := Plan(e, msg.version);
      && w'.store == w.store && w'.owners == w.owners && e in w'.procs && w'.procs[e].inbox == w.procs[e].inbox[1..]
      && (willing && place !in w.markers ==> w'.markers == w.markers[place := Marker(Some(msg.m), seal)])
      && (!willing || place in w.markers ==> w'.markers == w.markers)
      && (Linked(w, e) && willing && (place in w.markers ==> w.markers[place].seal == seal) ==>
          w'.sent == w.sent + {CommitResult(msg.m, msg.generation, true, seal)})
      && (Linked(w, e) && (!willing || (place in w.markers && w.markers[place].seal != seal)) ==>
          w'.sent == w.sent + {CommitResult(msg.m, msg.generation, false, 0)})
      && (!Linked(w, e) ==> w'.sent == w.sent)
  {
    hide Grows, Answer, Pop, Linked;
    var msg := w.procs[e].inbox[0];
    var place := Plan(e, msg.version);
    var ok := willing && (place in w.markers ==> w.markers[place].seal == seal);
    var marked := if ok && place !in w.markers then w.(markers := w.markers[place := Marker(Some(msg.m), seal)]) else w;
    Answered(w, marked, e, CommitResult(msg.m, msg.generation, ok, if ok then seal else 0));
  }

  /** A report says whether the version is committed, whether its bytes vouch for it, and under which seal. */
  lemma HandleQueryRecorded(c: Config, w: World, e: Endpoint, bytes: bool)
    requires Enabled(c, w, HandleQuery(e, bytes))
    ensures var w', msg := Apply(c, w, HandleQuery(e, bytes)), w.procs[e].inbox[0];
      var place := Plan(e, msg.version);
      && w'.store == w.store && w'.owners == w.owners && w'.markers == w.markers
      && e in w'.procs && w'.procs[e].inbox == w.procs[e].inbox[1..]
      && (Linked(w, e) && place in w.markers ==>
          w'.sent == w.sent + {Report(msg.m, true, bytes, w.markers[place].seal)})
      && (Linked(w, e) && place !in w.markers ==> w'.sent == w.sent + {Report(msg.m, false, false, 0)})
      && (!Linked(w, e) ==> w'.sent == w.sent)
  {
    hide Grows, Answer, Pop, Linked;
    var msg := w.procs[e].inbox[0];
    var present := Plan(e, msg.version) in w.markers;
    Answered(w, w, e,
      Report(msg.m, present, present && bytes, if present then w.markers[Plan(e, msg.version)].seal else 0));
  }

  // ---- runs that succeed -----------------------------------------------------------------

  lemma CommittedWorld(c: Config, w: World)
    requires var r := RecordIn(Movement.Verified, 6, 1); Standing(w, r, Some(Driving(r, CommitWait)), false, [])
    requires CommitResult(0, 6, true, 7) in w.sent
    ensures var s := CommitAnswer(0, CommitResult(0, 6, true, 7), true);
      && Enabled(c, w, s)
      && Left(Apply(c, w, s), 0, RecordIn(Movement.Committed, 7, 1).(seal := 7)) && Apply(c, w, s).markers == w.markers
  {
    hide Finish, Grows;
    Finished(w, 0, Some(RecordIn(Movement.Committed, 7, 1).(seal := 7)));
  }

  /** Nothing goes wrong: the movement ends COMMITTED, with the seal of the marker at its destination. */
  lemma CommittedRun(c: Config) returns (worlds: seq<World>, steps: seq<Step>)
    requires ValidConfig(c)
    ensures |worlds| > 0 && IsRun(c, worlds, steps)
    ensures var w := worlds[|worlds| - 1];
      && 0 in w.store && w.store[0].state.Committed? && w.store[0].seal == 7
      && PLAN in w.markers && w.markers[PLAN] == Marker(Some(0), 7)
  {
    hide Enabled, Apply, Standing, IsRun;
    var run := MarkedRun(c);
    CommittedWorld(c, End(run));
    run := Then(c, run, CommitAnswer(0, CommitResult(0, 6, true, 7), true));
    worlds, steps := run.worlds, run.steps;
  }

  lemma UnknownStanding(c: Config, w: World)
    requires var r := RecordIn(Movement.Verified, 6, 1); Standing(w, r, Some(Driving(r, CommitWait)), false, [])
    ensures Enabled(c, w, NoAnswer(0)) && Apply(c, w, NoAnswer(0)).markers == w.markers
    ensures Standing(Apply(c, w, NoAnswer(0)), RecordIn(Movement.OutcomeUnknown, 7, 1), None, false, [])
  {
    hide Finish;
    var r, r' := w.owners[0].r, RecordIn(Movement.OutcomeUnknown, 7, 1);
    assert Move(r, Movement.OutcomeUnknown, true) == Some(r');
    Settled(w, r, r');
  }

  lemma Settled(w: World, r: Rec, r': Rec)
    requires Standing(w, r, Some(Driving(r, CommitWait)), false, [])
    ensures Finish(w, 0, Some(r')).markers == w.markers && Standing(Finish(w, 0, Some(r')), r', None, false, [])
  {
    var w' := Finish(w, 0, Some(r'));
    assert w'.store == map[0 := r'] && w'.owners == map[];
  }

  lemma QueriedWorld(c: Config, w: World)
    requires Standing(w, RecordIn(Movement.OutcomeUnknown, 7, 1), None, false, [])
    ensures Enabled(c, w, ReconcileBegin(0, true)) && Apply(c, w, ReconcileBegin(0, true)).markers == w.markers
    ensures var r := RecordIn(Movement.OutcomeUnknown, 7, 1);
      Standing(Apply(c, w, ReconcileBegin(0, true)), r, Some(Reconciling(r)), false, [Query(0, 0)])
  {
    assert [] + [Query(0, 0)] == [Query(0, 0)];
  }

  lemma ReportedWorld(c: Config, w: World)
    requires var r := RecordIn(Movement.OutcomeUnknown, 7, 1);
      Standing(w, r, Some(Reconciling(r)), false, [Query(0, 0)])
    requires w.markers == map[PLAN := Marker(Some(0), 7)]
    ensures Enabled(c, w, HandleQuery(0, true))
    ensures var w' := Apply(c, w, HandleQuery(0, true));
      && w'.store == w.store && w'.owners == w.owners && w'.markers == w.markers && Report(0, true, true, 7) in w'.sent
  {
    hide Apply, Grows;
    HandleQueryRecorded(c, w, 0, true);
  }

  lemma ResolvedWorld(c: Config, w: World)
    requires var r := RecordIn(Movement.OutcomeUnknown, 7, 1);
      w.store == map[0 := r] && w.owners == map[0 := Reconciling(r)]
    requires Report(0, true, true, 7) in w.sent
    ensures var s := ReconcileAnswer(0, Report(0, true, true, 7));
      && Enabled(c, w, s)
      && Left(Apply(c, w, s), 0, RecordIn(Movement.Committed, 8, 1).(seal := 7)) && Apply(c, w, s).markers == w.markers
  {
    hide Finish, Grows;
    Finished(w, 0, Some(RecordIn(Movement.Committed, 8, 1).(seal := 7)));
  }

  /** The answer to the commit request is lost and the outcome unknown; reconciliation finds the marker and commits. */
  lemma ReconciledRun(c: Config) returns (worlds: seq<World>, steps: seq<Step>, i: nat)
    requires ValidConfig(c)
    ensures |worlds| > i && IsRun(c, worlds, steps) && 0 in worlds[i].store && worlds[i].store[0].state.OutcomeUnknown?
    ensures var w := worlds[|worlds| - 1];
      && 0 in w.store && w.store[0].state.Committed? && w.store[0].seal == 7
      && PLAN in w.markers && w.markers[PLAN] == Marker(Some(0), 7)
  {
    hide Enabled, Apply, IsRun;
    var run := MarkedRun(c);
    UnknownStanding(c, End(run));
    run := Then(c, run, NoAnswer(0));
    i := |run.worlds| - 1;
    QueriedWorld(c, End(run));
    run := Then(c, run, ReconcileBegin(0, true));
    ReportedWorld(c, End(run));
    run := Then(c, run, HandleQuery(0, true));
    ResolvedWorld(c, End(run));
    run := Then(c, run, ReconcileAnswer(0, Report(0, true, true, 7)));
    worlds, steps := run.worlds, run.steps;
  }
}
